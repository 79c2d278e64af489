/** Accounting slots never lie: in every run the bytes of a slot are the bytes of the bucket it
    is labelled with, unless the subscriber is flagged as aggregating. */
module Buckets {
  import opened Words
  import opened Usage
  import opened Meter
  import opened Tunnels
  import opened Billing

  /** Bytes charged to one bucket id during one activation. */
  ghost function BucketBytes(acts: seq<Act>, id: u32): nat {
    if acts == [] then 0
    else
      var n := |acts| - 1;
      BucketBytes(acts[..n], id)
      + if acts[n].Charge? && acts[n].bucket == id then acts[n].bytes else 0
  }

  lemma AppendBucket(acts: seq<Act>, a: Act, id: u32)
    ensures BucketBytes(acts + [a], id) == BucketBytes(acts, id) + if a.Charge? && a.bucket == id then a.bytes else 0
  {
    assert (acts + [a])[..|acts|] == acts;
  }

  // ---------------------------------------------------------------------------
  // One account
  // ---------------------------------------------------------------------------

  /** Slots are labelled in order and with different ids. */
  predicate Labelled(ids: Slots<u32>) {
    && (ids.s1 != UNSET ==> ids.s0 != UNSET && ids.s0 != ids.s1)
    && (ids.s2 != UNSET ==> ids.s1 != UNSET && ids.s0 != ids.s2 && ids.s1 != ids.s2)
  }

  ghost predicate Honest(ids: Slots<u32>, aggregated: bool, acts: seq<Act>) {
    && Labelled(ids)
    && BucketBytes(acts, UNSET) == 0
    && Charged(acts).b0 == BucketBytes(acts, ids.s0)
    && Charged(acts).b1 == BucketBytes(acts, ids.s1)
    && (aggregated ==> ids.s2 != UNSET)
    && (!aggregated ==> Charged(acts).b2 == BucketBytes(acts, ids.s2))
    && (!aggregated ==> forall id :: id != ids.s0 && id != ids.s1 && id != ids.s2 ==> BucketBytes(acts, id) == 0)
  }

  /** Slot `slot` may take bytes of bucket `id`: it carries that label, or it is the flagged aggregate. */
  predicate Fits(ids: Slots<u32>, aggregated: bool, id: u32, slot: SlotIndex) {
    && id != UNSET
    && (ids.At(slot) == id || (slot == 2 && aggregated && id != ids.s0 && id != ids.s1))
  }

  lemma AssignFits(info: Info, id: u32, acts: seq<Act>)
    requires Honest(info.ids, info.aggregated, acts) && id != UNSET
    ensures var (info', slot) := AssignSlot(info, id);
            Honest(info'.ids, info'.aggregated, acts) && Fits(info'.ids, info'.aggregated, id, slot)
  {
  }

  /** A resolved slot stays right when further buckets are assigned. */
  lemma AssignKeepsFits(info: Info, id: u32, id': u32, slot: SlotIndex)
    requires Labelled(info.ids) && id != UNSET && (info.aggregated ==> info.ids.s2 != UNSET)
    requires Fits(info.ids, info.aggregated, id', slot)
    ensures var (info', _) := AssignSlot(info, id);
            Fits(info'.ids, info'.aggregated, id', slot)
  {
  }

  lemma ChargeHonest(ids: Slots<u32>, aggregated: bool, acts: seq<Act>, a: Act)
    requires Honest(ids, aggregated, acts) && a.Charge? && Fits(ids, aggregated, a.bucket, a.slot)
    ensures Honest(ids, aggregated, acts + [a])
  {
    AppendCharge(acts, a);
    forall id
      ensures BucketBytes(acts + [a], id) == BucketBytes(acts, id) + if a.bucket == id then a.bytes else 0
    {
      AppendBucket(acts, a, id);
    }
  }

  lemma ReportHonest(ids: Slots<u32>, aggregated: bool, acts: seq<Act>, r: UsageRecord)
    requires Honest(ids, aggregated, acts)
    ensures Honest(ids, aggregated, acts + [Report(r)])
  {
    AppendReport(acts, r);
    forall id
      ensures BucketBytes(acts + [Report(r)], id) == BucketBytes(acts, id)
    {
      AppendBucket(acts, Report(r), id);
    }
  }

  /** Two different buckets share a slot without the flag exactly when the first one is the
      reserved id 0xFFFFFFFF, a slot is still free and the second is new. */
  lemma SharesUnflaggedIffUnset(info: Info, a: u32, b: u32)
    requires Labelled(info.ids) && (info.aggregated ==> info.ids.s2 != UNSET)
    requires a != b
    ensures var (info1, slotA) := AssignSlot(info, a);
            var (info2, slotB) := AssignSlot(info1, b);
            (slotA == slotB && !info2.aggregated)
            <==> (a == UNSET && info.ids.s2 == UNSET && b != info.ids.s0 && b != info.ids.s1)
  {
  }

  // ---------------------------------------------------------------------------
  // The engine
  // ---------------------------------------------------------------------------

  ghost predicate SubHonest(info: Info, acts: seq<Act>) {
    Honest(info.ids, info.aggregated, acts) && info.ratingGroup != UNSET
  }

  lemma BlankHonest(info: Info)
    requires info.ids == NoInfo.ids && !info.aggregated && info.ratingGroup != UNSET
    ensures SubHonest(info, [])
  {
    assert Charged([]) == Zero;
    assert forall id :: BucketBytes([], id) == 0;
  }

  /** Only labels, flag and rating group matter. */
  lemma SameHonest(info: Info, info': Info, acts: seq<Act>)
    requires SubHonest(info, acts)
    requires info'.ids == info.ids && info'.aggregated == info.aggregated && info'.ratingGroup != UNSET
    ensures SubHonest(info', acts)
  {
    hide Honest;
  }

  /** The slot pre-resolved in a binding is right for the session's rating group. */
  ghost predicate Resolved(info: Info, b: Binding) {
    Fits(info.ids, info.aggregated, info.ratingGroup, b.slot)
  }

  /** Every account is honest and every binding resolved, except that the bindings of `but`
      may be about to be renewed. */
  ghost predicate Tidy(e: Engine, but: int)
    requires WF(e)
  {
    && (forall i :: 0 <= i < |e.info| ==> SubHonest(e.info[i], e.acts[i]))
    && (forall t :: t in e.teids && e.teids[t].sub != but ==> Resolved(e.info[e.teids[t].sub], e.teids[t]))
  }

  ghost predicate BucketsOk(e: Engine) {
    TunnelsOk(e) && Tidy(e, -1)
  }

  /** A step that changes no label, rating group or history and adds no binding. */
  lemma UntouchedTidy(e: Engine, e': Engine, but: int)
    requires WF(e) && WF(e') && Tidy(e, but) && |e'.info| == |e.info|
    requires forall t :: t in e'.teids ==> t in e.teids && e'.teids[t] == e.teids[t]
    requires forall i :: 0 <= i < |e.info| ==>
               && e'.info[i].ids == e.info[i].ids && e'.info[i].aggregated == e.info[i].aggregated
               && e'.info[i].ratingGroup == e.info[i].ratingGroup && e'.acts[i] == e.acts[i]
    ensures Tidy(e', but)
  {
    hide Honest, Fits;
    forall i | 0 <= i < |e'.info|
      ensures SubHonest(e'.info[i], e'.acts[i])
    {
      assert SubHonest(e.info[i], e.acts[i]);
    }
  }

  lemma OpenHonest(e: Engine, idx: nat, spec: SessionSpec, now: u64)
    requires WF(e) && Tidy(e, -1) && idx < e.nextSub && spec.ratingGroup != UNSET
    ensures Tidy(Open(e, idx, spec, now), idx)
    ensures Open(e, idx, spec, now).info[idx].ratingGroup == spec.ratingGroup
  {
    hide SubHonest, Resolved;
    var e' := Open(e, idx, spec, now);
    if e.info[idx].active {
      SameHonest(e.info[idx], e'.info[idx], e.acts[idx]);
    } else {
      BlankHonest(e'.info[idx]);
    }
  }

  lemma MoveHonest(e: Engine, idx: nat, spec: SessionSpec)
    requires WF(e) && idx < e.nextSub && Tidy(e, idx)
    ensures Tidy(MoveTunnels(e, idx, spec), idx)
    ensures MoveTunnels(e, idx, spec).info[idx].ratingGroup == e.info[idx].ratingGroup
  {
    hide SubHonest, Resolved;
    UntouchedTidy(e, MoveTunnels(e, idx, spec), idx);
  }

  lemma PrepareHonest(e: Engine, spec: SessionSpec, now: u64)
    requires BucketsOk(e) && Accepts(e, spec) && spec.ratingGroup != UNSET
    ensures var p := Prepare(e, spec, now);
            var idx := p.imsiIndex[spec.imsi];
            Tidy(p, idx) && p.info[idx].ratingGroup == spec.ratingGroup
  {
    hide Tidy, Bound, Enrolled, Open, MoveTunnels;
    var e1 := Register(e, spec.imsi);
    var idx := e1.imsiIndex[spec.imsi];
    UntouchedTidy(e, e1, -1);
    OpenHonest(e1, idx, spec, now);
    MoveHonest(Open(e1, idx, spec, now), idx, spec);
  }

  /** `t` is bound to subscriber `idx`, but to another slot than `slot`. */
  ghost predicate KeepsOld(teids: map<u32, Binding>, t: u32, idx: nat, slot: SlotIndex) {
    t in teids && teids[t].sub == idx && teids[t].slot != slot
  }

  /** A full table refuses a tunnel of the session although it is stored, and so leaves it bound to the slot
      of an earlier rating group. The uplink tunnel may have taken the last free slot. */
  ghost predicate LeavesOld(e: Engine, idx: nat, spec: SessionSpec)
    requires WF(e) && idx < e.nextSub
  {
    var slot := AssignSlot(e.info[idx], spec.ratingGroup).1;
    var e1 := BindIfSet(e, spec.ulTeid, Binding(idx, Uplink, slot));
    || (spec.ulTeid != 0 && !CanBind(e, spec.ulTeid) && KeepsOld(e.teids, spec.ulTeid, idx, slot))
    || (spec.dlTeid != 0 && !CanBind(e1, spec.dlTeid) && KeepsOld(e1.teids, spec.dlTeid, idx, slot))
  }

  /** The bindings after binding the tunnels of a session: those of others are as they were, and its own
      have the slot of its rating group, all of them unless one is left as it was. */
  lemma SlotsAfter(e: Engine, idx: nat, spec: SessionSpec)
    requires Ready(e, idx, spec)
    ensures var r := BindTunnels(e, idx, spec);
            var slot := AssignSlot(e.info[idx], spec.ratingGroup).1;
            && (forall t :: t in r.teids && r.teids[t].sub != idx ==> t in e.teids && r.teids[t] == e.teids[t])
            && (LeavesOld(e, idx, spec) ==> KeepsOld(r.teids, spec.ulTeid, idx, slot) || KeepsOld(r.teids, spec.dlTeid, idx, slot))
            && (!LeavesOld(e, idx, spec) ==> forall t :: !KeepsOld(r.teids, t, idx, slot))
  {
    OwnTunnels(e, idx, spec);
    hide AssignSlot, Bound, Enrolled, IndicesOk, KeepsOld, BindIfSet;
    var slot := AssignSlot(e.info[idx], spec.ratingGroup).1;
    var e0 := e.(info := e.info[idx := AssignSlot(e.info[idx], spec.ratingGroup).0]);
    var ul, dl := Binding(idx, Uplink, slot), Binding(idx, Downlink, slot);
    BindTeids(e, spec.ulTeid, ul);
    BindTeids(e0, spec.ulTeid, ul);
    BindTeids(BindIfSet(e0, spec.ulTeid, ul), spec.dlTeid, dl);
    var takeDl := CanBind(BindIfSet(e0, spec.ulTeid, ul), spec.dlTeid);
    TwoBinds(e.teids, spec.ulTeid, spec.dlTeid, CanBind(e, spec.ulTeid), takeDl, idx, slot);
  }

  lemma OwnTunnels(e: Engine, idx: nat, spec: SessionSpec)
    requires Ready(e, idx, spec)
    ensures forall t :: t in e.teids && e.teids[t].sub == idx ==> t != 0 && (t == spec.ulTeid || t == spec.dlTeid)
  {
    hide Enrolled, IndicesOk;
    forall t | t in e.teids && e.teids[t].sub == idx
      ensures t != 0 && (t == spec.ulTeid || t == spec.dlTeid)
    {
      assert Owns(e.info[idx], t, e.teids[t]);
    }
  }

  ghost function Put(teids: map<u32, Binding>, t: u32, take: bool, b: Binding): map<u32, Binding> {
    if t != 0 && take then teids[t := b] else teids
  }

  lemma BindTeids(e: Engine, t: u32, b: Binding)
    requires WF(e) && b.sub < e.nextSub
    ensures BindIfSet(e, t, b).teids == Put(e.teids, t, CanBind(e, t), b) && BindIfSet(e, t, b).cfg == e.cfg
  {
    hide IndicesOk;
  }

  /** Binding an uplink and then a downlink TEID, each of which may be refused. */
  lemma TwoBinds(m: map<u32, Binding>, ulTeid: u32, dlTeid: u32, takeUl: bool, takeDl: bool, idx: nat, slot: SlotIndex)
    requires forall t :: t in m && m[t].sub == idx ==> t != 0 && (t == ulTeid || t == dlTeid)
    requires ulTeid == dlTeid && !takeUl ==> !takeDl
    ensures var m1 := Put(m, ulTeid, takeUl, Binding(idx, Uplink, slot));
            var r := Put(m1, dlTeid, takeDl, Binding(idx, Downlink, slot));
            var left := (ulTeid != 0 && !takeUl && KeepsOld(m, ulTeid, idx, slot))
                        || (dlTeid != 0 && !takeDl && KeepsOld(m1, dlTeid, idx, slot));
            && (forall t :: t in r && r[t].sub != idx ==> t in m && r[t] == m[t])
            && (left ==> KeepsOld(r, ulTeid, idx, slot) || KeepsOld(r, dlTeid, idx, slot))
            && (!left ==> forall t :: !KeepsOld(r, t, idx, slot))
  {
  }

  lemma BindTunnelsHonest(e: Engine, idx: nat, spec: SessionSpec)
    requires Ready(e, idx, spec) && Tidy(e, idx) && !LeavesOld(e, idx, spec)
    requires e.info[idx].ratingGroup == spec.ratingGroup
    ensures BucketsOk(BindTunnels(e, idx, spec))
  {
    hide Honest, Fits, AssignSlot, BindIfSet, LeavesOld, Bound, Enrolled;
    var e' := BindTunnels(e, idx, spec);
    assert SubHonest(e.info[idx], e.acts[idx]);
    AssignFits(e.info[idx], spec.ratingGroup, e.acts[idx]);
    BindTunnelsKeeps(e, idx, spec);
    SlotsAfter(e, idx, spec);
    forall t | t in e'.teids
      ensures Resolved(e'.info[e'.teids[t].sub], e'.teids[t])
    {
      assert !KeepsOld(e'.teids, t, idx, AssignSlot(e.info[idx], spec.ratingGroup).1);
    }
  }

  lemma EmitHonest(e: Engine, idx: nat, reason: Reason, now: u64)
    requires BucketsOk(e) && idx < e.nextSub
    ensures BucketsOk(Emit(e, idx, reason, now))
  {
    hide Honest, Fits;
    EmitKeeps(e, idx, reason, now);
    assert SubHonest(e.info[idx], e.acts[idx]);
    ReportHonest(e.info[idx].ids, e.info[idx].aggregated, e.acts[idx], RecordOf(e, idx, reason, now));
  }

  lemma ReleaseHonest(e: Engine, imsi: u64, now: u64)
    requires BucketsOk(e)
    ensures BucketsOk(ReleaseSession(e, imsi, now))
  {
    hide SubHonest, Resolved;
    if Releasable(e, imsi) {
      var idx := e.imsiIndex[imsi];
      EmitHonest(e, idx, Release, now);
      NotLearned(e, imsi, now);
      hide Emit, Close, BucketsOk;
      CloseHonest(Emit(e, idx, Release, now), idx);
    }
  }

  lemma NotLearned(e: Engine, imsi: u64, now: u64)
    requires TunnelsOk(e) && imsi in e.imsiIndex
    ensures var e1 := Emit(e, e.imsiIndex[imsi], Release, now);
            e1.nextSub == e.nextSub && |e1.info| == |e.info| && !e1.info[e.imsiIndex[imsi]].learned
  {
    hide Bound;
  }

  lemma CloseHonest(e: Engine, idx: nat)
    requires BucketsOk(e) && idx < e.nextSub && idx < |e.info| && !e.info[idx].learned
    ensures BucketsOk(Close(e, idx))
  {
    hide SubHonest, Resolved, Bound, Enrolled;
    CloseKeeps(e, idx);
    UntouchedTidy(e, Close(e, idx), -1);
  }

  lemma ChargeStaysHonest(e: Engine, ev: MeterEvent, b: Binding)
    requires BucketsOk(e) && b.sub < e.nextSub && Resolved(e.info[b.sub], b)
    ensures BucketsOk(ChargePacket(e, ev, b))
  {
    hide Honest, Fits, AssignSlot;
    var e' := ChargePacket(e, ev, b);
    ChargeKeeps(e, ev, b);
    var was, acts := e.info[b.sub], e.acts[b.sub];
    var (info, slot) := ResolveSlot(was, b, ev);
    assert SubHonest(was, acts);
    ResolveFits(was, b, ev, acts);
    ChargeHonest(info.ids, info.aggregated, acts, Charge(IsDown(b, ev), BucketOf(info, ev), slot, ev.bytes));
    forall t | t in e'.teids
      ensures Resolved(e'.info[e'.teids[t].sub], e'.teids[t])
    {
      assert Resolved(e.info[e.teids[t].sub], e.teids[t]);
      if e.teids[t].sub == b.sub {
        ResolveKeepsResolved(was, b, ev, acts, e.teids[t]);
      }
    }
  }

  lemma ResolveFits(was: Info, b: Binding, ev: MeterEvent, acts: seq<Act>)
    requires SubHonest(was, acts) && Resolved(was, b)
    ensures var (info, slot) := ResolveSlot(was, b, ev);
            SubHonest(info, acts) && Fits(info.ids, info.aggregated, BucketOf(info, ev), slot)
  {
    hide Honest, Fits, AssignSlot;
    if ev.hasQfi {
      AssignFits(was, QFI_TAG + ev.qfi, acts);
    }
  }

  lemma ResolveKeepsResolved(was: Info, b: Binding, ev: MeterEvent, acts: seq<Act>, other: Binding)
    requires SubHonest(was, acts) && Resolved(was, other)
    ensures Resolved(ResolveSlot(was, b, ev).0, other)
  {
    if ev.hasQfi {
      AssignKeepsFits(was, QFI_TAG + ev.qfi, was.ratingGroup, other.slot);
    }
  }

  lemma LearnHonest(e: Engine, ev: MeterEvent)
    requires BucketsOk(e) && e.nextSub < e.cfg.maxSubscribers
    ensures BucketsOk(Learn(e, ev))
  {
    hide SubHonest, Resolved, Learn, Bound, Enrolled;
    LearnKeeps(e, ev);
    LearnShape(e, ev);
    var e' := Learn(e, ev);
    forall t | t in e'.teids
      ensures Resolved(e'.info[e'.teids[t].sub], e'.teids[t])
    {
      if e'.teids[t].sub != e.nextSub {
        assert Resolved(e.info[e.teids[t].sub], e.teids[t]);
      }
    }
  }

  /** Only the new subscriber and its own binding differ, and both are honest. */
  lemma LearnShape(e: Engine, ev: MeterEvent)
    requires WF(e) && e.nextSub < e.cfg.maxSubscribers
    ensures var e' := Learn(e, ev);
            && (forall i :: 0 <= i < |e.info| && i != e.nextSub ==> e'.info[i] == e.info[i] && e'.acts[i] == e.acts[i])
            && SubHonest(e'.info[e.nextSub], e'.acts[e.nextSub])
            && (forall t :: t in e'.teids && e'.teids[t].sub == e.nextSub ==> Resolved(e'.info[e.nextSub], e'.teids[t]))
            && (forall t :: t in e'.teids && e'.teids[t].sub != e.nextSub ==> t in e.teids && e'.teids[t] == e.teids[t])
  {
    hide SubHonest, Fits, LearnedInfo;
    NewSubHonest(ev);
  }

  lemma NewSubHonest(ev: MeterEvent)
    ensures var (info, slot) := LearnedInfo(ev);
            SubHonest(info, []) && Resolved(info, Binding(0, ev.dir, slot))
  {
    hide Honest;
    var blank := NoInfo.(active := true, learned := true, firstSeen := ev.ts, intervalStart := ev.ts);
    BlankHonest(blank);
    AssignFits(blank, 0, []);
  }

  lemma ApplyHonest(e: Engine, ev: MeterEvent)
    requires BucketsOk(e)
    ensures BucketsOk(Apply(e, ev))
  {
    hide Tidy, Bound, Enrolled, ChargePacket, LookUp, Resolved;
    var e1 := CountEvent(e, ev);
    CountHonest(e, e1);
    CountHonest(e1, CountControl(e1));
    LookUpHonest(e1, ev);
    var e2 := LookUp(e1, ev);
    CountHonest(e2, CountUnknown(e2, ev));
    if ev.teid in e2.teids {
      BindingResolved(e2, ev.teid);
      ChargeStaysHonest(e2, ev, e2.teids[ev.teid]);
    }
  }

  lemma LookUpHonest(e: Engine, ev: MeterEvent)
    requires BucketsOk(e)
    ensures BucketsOk(LookUp(e, ev))
  {
    hide Tidy, Bound, Enrolled, Learn;
    if e.nextSub < e.cfg.maxSubscribers {
      LearnHonest(e, ev);
    }
  }

  lemma BindingResolved(e: Engine, t: u32)
    requires BucketsOk(e) && t in e.teids
    ensures Resolved(e.info[e.teids[t].sub], e.teids[t])
  {
  }

  /** Statistics, cursor and sweep time play no part. */
  lemma CountHonest(e: Engine, e': Engine)
    requires BucketsOk(e) && WF(e') && e' == e.(stats := e'.stats, cursor := e'.cursor, lastSweep := e'.lastSweep)
    ensures BucketsOk(e')
  {
    CountKeeps(e, e');
    UntouchedTidy(e, e', -1);
  }

  lemma {:induction false} SweepHonest(e: Engine, n: nat, now: u64)
    requires BucketsOk(e) && e.nextSub > 0
    ensures BucketsOk(Sweep(e, n, now))
  {
    hide Tidy, Bound, Enrolled, Emit;
    if n > 0 {
      SweepHonest(e, n - 1, now);
      var r := Sweep(e, n - 1, now);
      var r1 := r.(cursor := Visited(r) + 1);
      CountHonest(r, r1);
      if Due(r1, Visited(r), now).Some? {
        EmitHonest(r1, Visited(r), Due(r1, Visited(r), now).value, now);
      }
    }
  }

  lemma {:induction false} DrainHonest(e: Engine, n: nat, now: u64)
    requires BucketsOk(e) && n <= e.nextSub
    ensures BucketsOk(DrainUpTo(e, n, now))
  {
    hide Tidy, Bound, Enrolled, Emit;
    if n > 0 {
      DrainHonest(e, n - 1, now);
      var r := DrainUpTo(e, n - 1, now);
      if Unreported(r, n - 1) {
        EmitHonest(r, n - 1, Shutdown, now);
      }
    }
  }

  /** The rating group is not the reserved id that marks a free slot. */
  predicate Chargeable(op: Op) {
    op.DoInstall? ==> op.spec.ratingGroup != 0xFFFF_FFFF
  }

  /** `op` installs a session again under another rating group and has a binding refused that is stored. */
  ghost predicate Stale(e: Engine, op: Op)
    requires WF(e)
  {
    op.DoInstall? && Accepts(e, op.spec) &&
    var p := Prepare(e, op.spec, op.now);
    LeavesOld(p, p.imsiIndex[op.spec.imsi], op.spec)
  }

  lemma InstallHonest(e: Engine, spec: SessionSpec, now: u64)
    requires BucketsOk(e) && !Stale(e, DoInstall(spec, now)) && spec.ratingGroup != UNSET
    ensures BucketsOk(Install(e, spec, now))
  {
    hide Tidy, Prepare, BindTunnels, Bound, Enrolled, LeavesOld;
    if Accepts(e, spec) {
      PrepareKeeps(e, spec, now);
      PrepareHonest(e, spec, now);
      var p := Prepare(e, spec, now);
      BindTunnelsHonest(p, p.imsiIndex[spec.imsi], spec);
    }
  }

  lemma PollHonest(e: Engine, now: u64)
    requires BucketsOk(e)
    ensures BucketsOk(Poll(e, now))
  {
    hide Tidy, Bound, Enrolled;
    CountHonest(e, e.(lastSweep := now));
    if SweepsAt(e, now) && e.nextSub > 0 {
      SweepHonest(e.(lastSweep := now), Chunk(e.nextSub, e.cfg.sweepFraction), now);
    }
  }

  lemma GyHonest(e: Engine, gy: GyEvent)
    requires BucketsOk(e)
    ensures BucketsOk(ApplyGy(e, gy))
  {
    hide SubHonest, Resolved;
    GyKeeps(e, gy);
    UntouchedTidy(e, ApplyGy(e, gy), -1);
  }

  lemma StepKeepsBuckets(e: Engine, op: Op)
    requires BucketsOk(e) && Chargeable(op) && !Stale(e, op)
    ensures BucketsOk(Step(e, op))
  {
    hide Tidy, Bound, Enrolled, Stale;
    match op
    case DoInstall(spec, now) => InstallHonest(e, spec, now);
    case DoRelease(imsi, now) => ReleaseHonest(e, imsi, now);
    case DoPacket(ev) => ApplyHonest(e, ev);
    case DoGy(gy) => GyHonest(e, gy);
    case DoPoll(now) => PollHonest(e, now);
    case DoDrain(now) => DrainHonest(e, e.nextSub, now);
  }

  lemma StartHonest(cfg: Config)
    ensures BucketsOk(Start(cfg))
  {
    hide SubHonest;
    BlankHonest(NoInfo);
    StartOk(cfg);
  }

  ghost predicate StaleAt(e: Engine, ops: seq<Op>, j: nat)
    requires WF(e) && j < |ops|
  {
    Stale(Run(e, ops[..j]), ops[j])
  }

  /** No install of the run leaves a tunnel on the slot of an earlier rating group. */
  ghost predicate Renewed(e: Engine, ops: seq<Op>)
    requires WF(e)
  {
    forall j :: 0 <= j < |ops| ==> !StaleAt(e, ops, j)
  }

  predicate AllChargeable(ops: seq<Op>) {
    forall k :: 0 <= k < |ops| ==> Chargeable(ops[k])
  }

  lemma RenewedPrefix(e: Engine, ops: seq<Op>, n: nat)
    requires WF(e) && Renewed(e, ops) && n <= |ops|
    ensures Renewed(e, ops[..n])
  {
    hide Run, Stale, WF;
    forall j | 0 <= j < n
      ensures !StaleAt(e, ops[..n], j)
    {
      assert ops[..n][..j] == ops[..j] && !StaleAt(e, ops, j);
    }
  }

  lemma {:induction false} RunKeepsBuckets(cfg: Config, ops: seq<Op>)
    requires AllChargeable(ops) && Renewed(Start(cfg), ops)
    ensures BucketsOk(Run(Start(cfg), ops))
  {
    hide BucketsOk, Renewed, Stale, Step;
    if ops == [] {
      StartHonest(cfg);
    } else {
      var n := |ops| - 1;
      RenewedPrefix(Start(cfg), ops, n);
      RunKeepsBuckets(cfg, ops[..n]);
      NotStale(Start(cfg), ops, n);
      StepKeepsBuckets(Run(Start(cfg), ops[..n]), ops[n]);
    }
  }

  lemma NotStale(e: Engine, ops: seq<Op>, j: nat)
    requires WF(e) && Renewed(e, ops) && j < |ops|
    ensures !Stale(Run(e, ops[..j]), ops[j])
  {
    hide Run, Stale, WF;
    assert !StaleAt(e, ops, j);
  }

  /** The slot counters against the bytes of each bucket: slots 0 and 1 hold exactly the bytes of
      the bucket that labels them, slot 2 does too unless the subscriber is flagged, labels
      differ, and the three slots add up to the uplink and downlink bytes. */
  ghost predicate HonestCounters(c: WordTally, info: Info, acts: seq<Act>) {
    && Labelled(info.ids)
    && c.b0 == BucketBytes(acts, info.ids.s0) % TWO64
    && c.b1 == BucketBytes(acts, info.ids.s1) % TWO64
    && (!info.aggregated ==> c.b2 == BucketBytes(acts, info.ids.s2) % TWO64)
    && (c.b0 + c.b1 + c.b2) % TWO64 == (c.ulBytes + c.dlBytes) % TWO64
  }

  /** Bucket honesty over every run in which no tunnel is left on the slot of an earlier rating group. */
  lemma SlotsAreHonest(cfg: Config, ops: seq<Op>, i: nat)
    requires AllChargeable(ops) && Renewed(Start(cfg), ops)
    requires i < cfg.maxSubscribers
    ensures var e := Run(Start(cfg), ops);
            HonestCounters(e.counters[i].tally, e.info[i], e.acts[i])
  {
    hide SubHonest, AddsUp, HonestCounters, Bound, Enrolled, Settled, Renewed;
    var e := Run(Start(cfg), ops);
    RunKeepsBuckets(cfg, ops);
    BillingConserved(cfg, ops, i);
    CountersAreHonest(e.counters[i].tally, e.info[i], e.acts[i]);
  }

  lemma CountersAreHonest(c: WordTally, info: Info, acts: seq<Act>)
    requires AddsUp(c, info.emitted, acts) && SubHonest(info, acts)
    ensures HonestCounters(c, info, acts)
  {
    hide Plus, Delta;
    ModSum(Charged(acts));
  }

  lemma ModSum(t: Tally)
    requires SlotsCover(t)
    ensures (t.b0 % TWO64 + t.b1 % TWO64 + t.b2 % TWO64) % TWO64 == (t.ulBytes % TWO64 + t.dlBytes % TWO64) % TWO64
  {
    WrapAdd(t.b0, t.b1 % TWO64 + t.b2 % TWO64);
    WrapAdd(t.b1, t.b0 + t.b2 % TWO64);
    WrapAdd(t.b2, t.b0 + t.b1);
    WrapAdd(t.ulBytes, t.dlBytes % TWO64);
    WrapAdd(t.dlBytes, t.ulBytes);
  }

  // ---------------------------------------------------------------------------
  // The reserved id is not a rating group
  // ---------------------------------------------------------------------------

  const ReservedSpec := SessionSpec(1, 5, 0, UNSET)
  const PlainPacket := MeterEvent(0, 0, 5, 1, 0, false, false, Unknown)
  const FlowPacket := MeterEvent(0, 0, 5, 2, 9, true, false, Unknown)

  /** The first subscriber and its uplink tunnel, TEID 5, bound to slot 0. */
  ghost predicate Alone(e: Engine, ids: Slots<u32>, b0: nat, acts: seq<Act>) {
    && WF(e) && e.nextSub > 0 && 5 in e.teids && e.teids[5] == Binding(0, Uplink, 0)
    && e.info[0].ids == ids && e.info[0].ratingGroup == UNSET && !e.info[0].aggregated
    && e.counters[0].tally.b0 == b0 && e.acts[0] == acts
  }

  lemma ReservedInstalled(cfg: Config)
    requires cfg.teidCapacity > 0 && cfg.maxSubscribers > 0
    ensures Alone(Install(Start(cfg), ReservedSpec, 0), Slots(UNSET, UNSET, UNSET), 0, [])
  {
    var e0 := Start(cfg);
    assert e0.teids == map[] && e0.imsiIndex == map[] && e0.info[0] == NoInfo;
    var p := Prepare(e0, ReservedSpec, 0);
    assert p.imsiIndex == map[1 := 0] && p.teids == map[];
    assert p.info[0].ids == Slots(UNSET, UNSET, UNSET);
  }

  lemma ChargeAlone(e: Engine, ev: MeterEvent)
    requires WF(e) && e.nextSub > 0 && 5 in e.teids && ev.teid == 5 && !ev.control
    ensures Apply(e, ev) == ChargePacket(CountEvent(e, ev), ev, e.teids[5])
  {
    hide ChargePacket;
  }

  lemma SlotZero(c: WordTally, bytes: u32)
    requires c.b0 + bytes < TWO64
    ensures Wrap(Plus(c, Packet(false, 0, bytes))).b0 == c.b0 + bytes
  {
  }

  lemma FirstCharge(e: Engine)
    requires Alone(e, Slots(UNSET, UNSET, UNSET), 0, [])
    ensures Alone(Apply(e, PlainPacket), Slots(UNSET, UNSET, UNSET), 1, [] + [Charge(false, UNSET, 0, 1)])
  {
    hide Apply, Wrap, Plus, Packet;
    ChargeAlone(e, PlainPacket);
    SlotZero(e.counters[0].tally, 1);
  }

  lemma SecondCharge(e: Engine, acts: seq<Act>)
    requires Alone(e, Slots(UNSET, UNSET, UNSET), 1, acts)
    ensures Alone(Apply(e, FlowPacket), Slots(QFI_TAG + 9, UNSET, UNSET), 3, acts + [Charge(false, QFI_TAG + 9, 0, 2)])
  {
    hide Apply, Wrap, Plus, Packet;
    ChargeAlone(e, FlowPacket);
    SlotZero(e.counters[0].tally, 2);
  }

  lemma SlotZeroLies(e: Engine)
    requires Alone(e, Slots(QFI_TAG + 9, UNSET, UNSET), 3, [] + [Charge(false, UNSET, 0, 1)] + [Charge(false, QFI_TAG + 9, 0, 2)])
    ensures |e.info| > 0 && |e.counters| > 0 && |e.acts| > 0
    ensures !HonestCounters(e.counters[0].tally, e.info[0], e.acts[0])
  {
    hide BucketBytes;
    AppendBucket([] + [Charge(false, UNSET, 0, 1)], Charge(false, QFI_TAG + 9, 0, 2), QFI_TAG + 9);
    AppendBucket([], Charge(false, UNSET, 0, 1), QFI_TAG + 9);
    NoBytes(QFI_TAG + 9);
  }

  lemma NoBytes(id: u32)
    ensures BucketBytes([], id) == 0
  {
  }

  function ReservedRun(): seq<Op> {
    [] + [DoInstall(ReservedSpec, 0)] + [DoPacket(PlainPacket)] + [DoPacket(FlowPacket)]
  }

  /** With the reserved id as a rating group a slot takes its bytes before it is labelled with another
      bucket, and then holds the bytes of both without the flag. */
  lemma ReservedGroupLies(cfg: Config)
    requires cfg.teidCapacity > 0 && cfg.maxSubscribers > 0
    ensures var e := Run(Start(cfg), ReservedRun());
            |e.info| > 0 && |e.counters| > 0 && |e.acts| > 0 && !HonestCounters(e.counters[0].tally, e.info[0], e.acts[0])
  {
    hide Run, Apply, Install, Start, HonestCounters, Alone, Poll, Drain, ReleaseSession, ApplyGy;
    ReservedInstalled(cfg);
    var e0 := Start(cfg);
    var e1 := Install(e0, ReservedSpec, 0);
    RunNothing(e0);
    RunMore(e0, [], DoInstall(ReservedSpec, 0));
    RunMore(e0, [] + [DoInstall(ReservedSpec, 0)], DoPacket(PlainPacket));
    RunMore(e0, [] + [DoInstall(ReservedSpec, 0)] + [DoPacket(PlainPacket)], DoPacket(FlowPacket));
    FirstCharge(e1);
    SecondCharge(Apply(e1, PlainPacket), [] + [Charge(false, UNSET, 0, 1)]);
    SlotZeroLies(Apply(Apply(e1, PlainPacket), FlowPacket));
  }
}

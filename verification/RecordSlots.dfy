/** Buckets in usage records: the bytes a record shows under a label are those charged to that bucket since the
    record before it, and the labels are the first three buckets that asked for a slot. */
module RecordSlots {
  import opened Words
  import opened Usage
  import opened Meter
  import opened Tunnels
  import opened Billing
  import opened Buckets
  import opened RecordContents

  // ---------------------------------------------------------------------------
  // One account
  // ---------------------------------------------------------------------------

  /** Every charge went to the slot of its bucket. */
  ghost predicate InPlace(acts: seq<Act>, ids: Slots<u32>, aggregated: bool) {
    forall j :: 0 <= j < |acts| && acts[j].Charge? ==> Fits(ids, aggregated, acts[j].bucket, acts[j].slot)
  }

  /** Slots 0 and 1 of the record, and slot 2 unless flagged, hold the bytes of their labels since the
      previous record. */
  ghost predicate TrueSlots(r: UsageRecord, before: seq<Act>) {
    && r.usage.b0 == BucketBytes(Since(before), r.ids.s0) % TWO64
    && r.usage.b1 == BucketBytes(Since(before), r.ids.s1) % TWO64
    && (!r.aggregated ==> r.usage.b2 == BucketBytes(Since(before), r.ids.s2) % TWO64)
  }

  ghost predicate AllTrueSlots(acts: seq<Act>) {
    forall j :: 0 <= j < |acts| && acts[j].Report? ==> TrueSlots(acts[j].record, acts[..j])
  }

  lemma InPlaceMore(acts: seq<Act>, a: Act, ids: Slots<u32>, aggregated: bool)
    requires InPlace(acts, ids, aggregated) && (a.Charge? ==> Fits(ids, aggregated, a.bucket, a.slot))
    ensures InPlace(acts + [a], ids, aggregated)
  {
    hide Fits;
    var all := acts + [a];
    forall j | 0 <= j < |all| && all[j].Charge?
      ensures Fits(ids, aggregated, all[j].bucket, all[j].slot)
    {
      assert j < |acts| ==> all[j] == acts[j];
    }
  }

  lemma TrueSlotsMore(acts: seq<Act>, a: Act)
    requires AllTrueSlots(acts) && (a.Report? ==> TrueSlots(a.record, acts))
    ensures AllTrueSlots(acts + [a])
  {
    hide TrueSlots;
    var all := acts + [a];
    forall j | 0 <= j < |all| && all[j].Report?
      ensures TrueSlots(all[j].record, all[..j])
    {
      assert all[..j] == acts[..j];
    }
  }

  lemma {:induction false} SinceInPlace(acts: seq<Act>, ids: Slots<u32>, aggregated: bool)
    requires InPlace(acts, ids, aggregated)
    ensures InPlace(Since(acts), ids, aggregated)
  {
    hide Fits;
    if acts != [] && !acts[|acts| - 1].Report? {
      var n := |acts| - 1;
      SinceInPlace(acts[..n], ids, aggregated);
      InPlaceMore(Since(acts[..n]), acts[n], ids, aggregated);
    }
  }

  /** In place, the bytes of a slot are those of its label. */
  lemma {:induction false} SlotsHoldLabels(acts: seq<Act>, ids: Slots<u32>, aggregated: bool)
    requires InPlace(acts, ids, aggregated) && Labelled(ids)
    ensures Charged(acts).b0 == BucketBytes(acts, ids.s0)
    ensures Charged(acts).b1 == BucketBytes(acts, ids.s1)
    ensures !aggregated ==> Charged(acts).b2 == BucketBytes(acts, ids.s2)
  {
    if acts != [] {
      var n := |acts| - 1;
      SlotsHoldLabels(acts[..n], ids, aggregated);
    }
  }

  lemma RelabelInPlace(acts: seq<Act>, info: Info, id: u32)
    requires InPlace(acts, info.ids, info.aggregated)
    requires Labelled(info.ids) && id != UNSET && (info.aggregated ==> info.ids.s2 != UNSET)
    ensures InPlace(acts, AssignSlot(info, id).0.ids, AssignSlot(info, id).0.aggregated)
  {
    hide AssignSlot, Fits;
    forall j | 0 <= j < |acts| && acts[j].Charge?
      ensures Fits(AssignSlot(info, id).0.ids, AssignSlot(info, id).0.aggregated, acts[j].bucket, acts[j].slot)
    {
      AssignKeepsFits(info, id, acts[j].bucket, acts[j].slot);
    }
  }

  lemma RecordSlotsTrue(acts: seq<Act>, info: Info, r: UsageRecord)
    requires InPlace(acts, info.ids, info.aggregated) && Labelled(info.ids)
    requires r.ids == info.ids && r.aggregated == info.aggregated && r.usage == Wrap(Charged(Since(acts)))
    ensures TrueSlots(r, acts)
  {
    hide Charged, BucketBytes, Since, InPlace;
    SinceInPlace(acts, info.ids, info.aggregated);
    SlotsHoldLabels(Since(acts), info.ids, info.aggregated);
  }

  lemma HonestLabels(info: Info, acts: seq<Act>)
    requires SubHonest(info, acts)
    ensures Labelled(info.ids) && (info.aggregated ==> info.ids.s2 != UNSET) && info.ratingGroup != UNSET
  {
  }

  // ---------------------------------------------------------------------------
  // The engine
  // ---------------------------------------------------------------------------

  ghost predicate SlotsAt(e: Engine, i: nat)
    requires WF(e) && i < |e.info|
  {
    InPlace(e.acts[i], e.info[i].ids, e.info[i].aggregated) && AllTrueSlots(e.acts[i])
  }

  ghost predicate SlotsOk(e: Engine) {
    && WF(e) && (forall i :: 0 <= i < |e.info| ==> SlotsAt(e, i))
    && (forall k :: 0 <= k < |e.closed| ==> AllTrueSlots(e.closed[k]))
  }

  lemma UntouchedSlots(e: Engine, r: Engine)
    requires SlotsOk(e) && WF(r) && |r.info| == |e.info| && r.closed == e.closed
    requires forall i :: 0 <= i < |e.info| ==>
               r.acts[i] == e.acts[i] && r.info[i].ids == e.info[i].ids && r.info[i].aggregated == e.info[i].aggregated
    ensures SlotsOk(r)
  {
    hide InPlace, AllTrueSlots, IndicesOk;
    forall i | 0 <= i < |r.info|
      ensures SlotsAt(r, i)
    {
      assert SlotsAt(e, i);
    }
  }

  lemma PrepareSlots(e: Engine, spec: SessionSpec, now: u64)
    requires SlotsOk(e) && Accepts(e, spec)
    ensures SlotsOk(Prepare(e, spec, now))
  {
    hide AllTrueSlots, Fits, Open;
    var e1 := Register(e, spec.imsi);
    UntouchedSlots(e, e1);
    var idx := e1.imsiIndex[spec.imsi];
    OpenSlots(e1, idx, spec, now);
    UntouchedSlots(Open(e1, idx, spec, now), Prepare(e, spec, now));
  }

  lemma OpenSlots(e: Engine, idx: nat, spec: SessionSpec, now: u64)
    requires SlotsOk(e) && idx < e.nextSub
    ensures SlotsOk(Open(e, idx, spec, now))
  {
    hide Fits, TrueSlots, IndicesOk;
    var r := Open(e, idx, spec, now);
    forall i | 0 <= i < |r.info|
      ensures SlotsAt(r, i)
    {
      assert SlotsAt(e, i);
    }
    assert SlotsAt(e, idx);
  }

  lemma InstallSlots(e: Engine, spec: SessionSpec, now: u64)
    requires SlotsOk(e) && BucketsOk(e) && spec.ratingGroup != UNSET
    ensures SlotsOk(Install(e, spec, now))
  {
    hide SlotsOk, Tidy, Bound, Enrolled, Prepare, BindTunnels;
    if Accepts(e, spec) {
      PrepareSlots(e, spec, now);
      PrepareHonest(e, spec, now);
      var p := Prepare(e, spec, now);
      BindSlots(p, p.imsiIndex[spec.imsi], spec);
    }
  }

  lemma BindSlots(e: Engine, idx: nat, spec: SessionSpec)
    requires SlotsOk(e) && WF(e) && idx < e.nextSub && Tidy(e, idx) && spec.ratingGroup != UNSET
    ensures SlotsOk(BindTunnels(e, idx, spec))
  {
    hide InPlace, AllTrueSlots, SubHonest, Resolved, AssignSlot, BindIfSet;
    var r := BindTunnels(e, idx, spec);
    assert SubHonest(e.info[idx], e.acts[idx]);
    HonestLabels(e.info[idx], e.acts[idx]);
    assert SlotsAt(e, idx);
    RelabelInPlace(e.acts[idx], e.info[idx], spec.ratingGroup);
    forall i | 0 <= i < |r.info|
      ensures SlotsAt(r, i)
    {
      assert SlotsAt(e, i);
    }
  }

  lemma EmitSlots(e: Engine, idx: nat, reason: Reason, now: u64)
    requires SlotsOk(e) && BucketsOk(e) && ContentsOk(e) && idx < e.nextSub
    ensures SlotsOk(Emit(e, idx, reason, now))
  {
    assert SubHonest(e.info[idx], e.acts[idx]) && TrueAt(e, idx) && SlotsAt(e, idx);
    HonestLabels(e.info[idx], e.acts[idx]);
    hide InPlace, AllTrueSlots, SubHonest, Resolved, Bound, Enrolled, TrueRecords, IndicesOk, Delta, Charged, Wrap;
    var r := Emit(e, idx, reason, now);
    var rec := RecordOf(e, idx, reason, now);
    RecordSlotsTrue(e.acts[idx], e.info[idx], rec);
    TrueSlotsMore(e.acts[idx], Report(rec));
    InPlaceMore(e.acts[idx], Report(rec), e.info[idx].ids, e.info[idx].aggregated);
    forall i | 0 <= i < |r.info|
      ensures SlotsAt(r, i)
    {
      assert SlotsAt(e, i);
    }
  }

  lemma ChargeSlots(e: Engine, ev: MeterEvent, b: Binding)
    requires SlotsOk(e) && BucketsOk(e) && b.sub < e.nextSub && Resolved(e.info[b.sub], b)
    ensures SlotsOk(ChargePacket(e, ev, b))
  {
    assert SubHonest(e.info[b.sub], e.acts[b.sub]) && SlotsAt(e, b.sub);
    HonestLabels(e.info[b.sub], e.acts[b.sub]);
    hide InPlace, AllTrueSlots, SubHonest, Resolved, Bound, Enrolled, IndicesOk, AssignSlot, Wrap, Plus, Packet, Fits;
    var r := ChargePacket(e, ev, b);
    var was, acts := e.info[b.sub], e.acts[b.sub];
    var (info, slot) := ResolveSlot(was, b, ev);
    ResolveFits(was, b, ev, acts);
    if ev.hasQfi {
      RelabelInPlace(acts, was, QFI_TAG + ev.qfi);
    }
    var a := Charge(IsDown(b, ev), BucketOf(info, ev), slot, ev.bytes);
    InPlaceMore(acts, a, info.ids, info.aggregated);
    TrueSlotsMore(acts, a);
    forall i | 0 <= i < |r.info|
      ensures SlotsAt(r, i)
    {
      assert SlotsAt(e, i);
    }
  }

  lemma LearnSlots(e: Engine, ev: MeterEvent)
    requires SlotsOk(e) && e.nextSub < e.cfg.maxSubscribers
    ensures SlotsOk(Learn(e, ev))
  {
    hide Fits, TrueSlots, IndicesOk, LearnedInfo;
    var r := Learn(e, ev);
    forall i | 0 <= i < |r.info|
      ensures SlotsAt(r, i)
    {
      assert SlotsAt(e, i);
    }
  }

  lemma PacketSlots(e: Engine, ev: MeterEvent)
    requires SlotsOk(e) && BucketsOk(e)
    ensures SlotsOk(Apply(e, ev))
  {
    hide SlotsOk, Tidy, Bound, Enrolled, ChargePacket, LookUp, Resolved;
    var e1 := CountEvent(e, ev);
    UntouchedSlots(e, e1);
    UntouchedSlots(e1, CountControl(e1));
    CountHonest(e, e1);
    LookUpSlots(e1, ev);
    LookUpHonest(e1, ev);
    var e2 := LookUp(e1, ev);
    UntouchedSlots(e2, CountUnknown(e2, ev));
    if ev.teid in e2.teids {
      BindingResolved(e2, ev.teid);
      ChargeSlots(e2, ev, e2.teids[ev.teid]);
    }
  }

  lemma LookUpSlots(e: Engine, ev: MeterEvent)
    requires SlotsOk(e) && WF(e)
    ensures SlotsOk(LookUp(e, ev))
  {
    hide SlotsOk, Learn, IndicesOk;
    if e.nextSub < e.cfg.maxSubscribers {
      LearnSlots(e, ev);
    }
  }

  lemma ReleaseSlots(e: Engine, imsi: u64, now: u64)
    requires SlotsOk(e) && BucketsOk(e) && ContentsOk(e)
    ensures SlotsOk(ReleaseSession(e, imsi, now))
  {
    hide SlotsOk, Tidy, Bound, Enrolled, Emit, ContentsOk;
    if Releasable(e, imsi) {
      var idx := e.imsiIndex[imsi];
      EmitSlots(e, idx, Release, now);
      EmitKeeps(e, idx, Release, now);
      EmitReports(e, idx, Release, now);
      CloseIndices(Emit(e, idx, Release, now), idx);
      UntouchedSlots(Emit(e, idx, Release, now), Close(Emit(e, idx, Release, now), idx));
    }
  }

  /** All that is needed to emit a record, kept by emitting one. */
  ghost predicate Telling(e: Engine) {
    SlotsOk(e) && BucketsOk(e) && ContentsOk(e)
  }

  lemma EmitTelling(e: Engine, idx: nat, reason: Reason, now: u64)
    requires Telling(e) && idx < e.nextSub
    ensures Telling(Emit(e, idx, reason, now))
  {
    hide SlotsOk, BucketsOk, ContentsOk, Emit;
    EmitSlots(e, idx, reason, now);
    EmitHonest(e, idx, reason, now);
    EmitContents(e, idx, reason, now);
  }

  lemma CountTelling(e: Engine, e': Engine)
    requires Telling(e) && WF(e') && e' == e.(stats := e'.stats, cursor := e'.cursor, lastSweep := e'.lastSweep)
    ensures Telling(e')
  {
    hide SlotsAt, Tidy, ContentsOk, Bound, Enrolled;
    UntouchedSlots(e, e');
    CountHonest(e, e');
    CountContents(e, e');
  }

  lemma SweepOneTelling(e: Engine, now: u64)
    requires Telling(e) && WF(e) && e.nextSub > 0
    ensures Telling(SweepOne(e, now))
  {
    hide Telling, Emit, Due, IndicesOk;
    var e1 := e.(cursor := Visited(e) + 1);
    CountTelling(e, e1);
    if Due(e1, Visited(e), now).Some? {
      EmitTelling(e1, Visited(e), Due(e1, Visited(e), now).value, now);
    }
  }

  lemma {:induction false} SweepTelling(e: Engine, n: nat, now: u64)
    requires Telling(e) && WF(e) && e.nextSub > 0
    ensures Telling(Sweep(e, n, now))
  {
    hide Telling, SweepOne;
    if n > 0 {
      SweepTelling(e, n - 1, now);
      SweepOneTelling(Sweep(e, n - 1, now), now);
    }
  }

  lemma {:induction false} DrainTelling(e: Engine, n: nat, now: u64)
    requires Telling(e) && WF(e) && n <= e.nextSub
    ensures Telling(DrainUpTo(e, n, now))
  {
    hide Telling, Emit, Unreported;
    if n > 0 {
      DrainTelling(e, n - 1, now);
      EmitTelling(DrainUpTo(e, n - 1, now), n - 1, Shutdown, now);
    }
  }

  lemma StepSlots(e: Engine, op: Op)
    requires Telling(e) && Chargeable(op) && !Stale(e, op)
    ensures Telling(Step(e, op))
  {
    StepKeepsBuckets(e, op);
    StepContents(e, op);
    hide SlotsOk, BucketsOk, ContentsOk, Install, ReleaseSession, Apply, ApplyGy, Sweep, DrainUpTo, Stale;
    HasShape(e);
    match op
    case DoInstall(spec, now) => InstallSlots(e, spec, now);
    case DoRelease(imsi, now) => ReleaseSlots(e, imsi, now);
    case DoPacket(ev) => PacketSlots(e, ev);
    case DoGy(gy) => GySlots(e, gy);
    case DoPoll(now) =>
      CountTelling(e, e.(lastSweep := now));
      if e.nextSub > 0 {
        SweepTelling(e.(lastSweep := now), Chunk(e.nextSub, e.cfg.sweepFraction), now);
      }
    case DoDrain(now) => DrainTelling(e, e.nextSub, now);
  }

  lemma GySlots(e: Engine, gy: GyEvent)
    requires SlotsOk(e)
    ensures SlotsOk(ApplyGy(e, gy))
  {
    hide SlotsAt, AllTrueSlots;
    UntouchedSlots(e, ApplyGy(e, gy));
  }

  lemma HasShape(e: Engine)
    requires SlotsOk(e)
    ensures WF(e)
  {
  }

  lemma StartTelling(cfg: Config)
    ensures Telling(Start(cfg))
  {
    hide Tidy, AccountTrue, TunnelsOk;
    StartHonest(cfg);
    StartContents(cfg);
  }

  /** In every run with proper rating groups and no tunnel left on an old slot, every record of every activation
      shows under each label the bytes charged to that bucket since the record before it. */
  lemma {:induction false} RecordSlotsAreTrue(cfg: Config, ops: seq<Op>)
    requires AllChargeable(ops) && Renewed(Start(cfg), ops)
    ensures Telling(Run(Start(cfg), ops))
  {
    hide Telling, Renewed, Stale, Step, Start;
    if ops == [] {
      StartTelling(cfg);
    } else {
      var n := |ops| - 1;
      RenewedPrefix(Start(cfg), ops, n);
      RecordSlotsAreTrue(cfg, ops[..n]);
      NotStale(Start(cfg), ops, n);
      StepSlots(Run(Start(cfg), ops[..n]), ops[n]);
    }
  }

  // ---------------------------------------------------------------------------
  // Labels
  // ---------------------------------------------------------------------------

  /** The different buckets, in the order in which they first asked. */
  ghost function Firsts(asked: seq<u32>): seq<u32> {
    if asked == [] then []
    else
      var f := Firsts(asked[..|asked| - 1]);
      if asked[|asked| - 1] in f then f else f + [asked[|asked| - 1]]
  }

  lemma FirstsMore(asked: seq<u32>, id: u32)
    ensures Firsts(asked + [id]) == if id in Firsts(asked) then Firsts(asked) else Firsts(asked) + [id]
  {
    assert (asked + [id])[..|asked|] == asked;
  }

  ghost function Nth(f: seq<u32>, k: nat): u32 {
    if k < |f| then f[k] else 0xFFFF_FFFF
  }

  /** The labels are the first three of `f`, and the flag says exactly whether there are more. */
  ghost predicate LabelledBy(info: Info, f: seq<u32>) {
    info.ids == Slots(Nth(f, 0), Nth(f, 1), Nth(f, 2)) && (info.aggregated <==> |f| > 3) && UNSET !in f
  }

  lemma AssignLabels(info: Info, f: seq<u32>, id: u32)
    requires LabelledBy(info, f) && id != UNSET
    ensures LabelledBy(AssignSlot(info, id).0, if id in f then f else f + [id])
  {
    if id in f {
      var k :| 0 <= k < |f| && f[k] == id;
      assert k == 0 || k == 1 || k == 2 || |f| > 3;
    }
  }

  ghost predicate LabelsAt(e: Engine, i: nat)
    requires WF(e) && i < |e.info|
  {
    LabelledBy(e.info[i], Firsts(e.origins[i].asked))
  }

  ghost predicate LabelsOk(e: Engine) {
    WF(e) && forall i :: 0 <= i < |e.info| ==> LabelsAt(e, i)
  }

  lemma UntouchedLabels(e: Engine, r: Engine)
    requires LabelsOk(e) && WF(r) && |r.info| == |e.info| && r.origins == e.origins
    requires forall i :: 0 <= i < |e.info| ==> r.info[i].ids == e.info[i].ids && r.info[i].aggregated == e.info[i].aggregated
    ensures LabelsOk(r)
  {
    hide IndicesOk, Firsts;
    forall i | 0 <= i < |r.info|
      ensures LabelsAt(r, i)
    {
      assert LabelsAt(e, i);
    }
  }

  /** Labels and asking buckets before the rating group of an install gets its slot. */
  lemma PrepareLabels(e: Engine, spec: SessionSpec, now: u64) returns (asked: seq<u32>)
    requires LabelsOk(e) && Accepts(e, spec)
    ensures var p := Prepare(e, spec, now);
            var idx := p.imsiIndex[spec.imsi];
            && (forall i :: 0 <= i < |p.info| && i != idx ==> LabelsAt(p, i))
            && LabelledBy(p.info[idx], Firsts(asked)) && p.origins[idx].asked == asked + [spec.ratingGroup]
  {
    hide Firsts;
    var p := Prepare(e, spec, now);
    var idx := p.imsiIndex[spec.imsi];
    assert LabelsAt(e, idx);
    asked := if e.info[idx].active then e.origins[idx].asked else [];
    NoFirsts();
    assert [] + [spec.ratingGroup] == [spec.ratingGroup];
    forall i | 0 <= i < |p.info| && i != idx
      ensures LabelsAt(p, i)
    {
      assert LabelsAt(e, i);
    }
  }

  lemma NoFirsts()
    ensures Firsts([]) == []
  {
  }

  lemma InstallLabels(e: Engine, spec: SessionSpec, now: u64)
    requires LabelsOk(e) && spec.ratingGroup != UNSET
    ensures LabelsOk(Install(e, spec, now))
  {
    hide Prepare, BindIfSet, AssignSlot, Firsts, LabelledBy, IndicesOk;
    if Accepts(e, spec) {
      var asked := PrepareLabels(e, spec, now);
      var p := Prepare(e, spec, now);
      var idx := p.imsiIndex[spec.imsi];
      IndexOf(p, spec.imsi);
      var r := BindTunnels(p, idx, spec);
      AssignLabels(p.info[idx], Firsts(asked), spec.ratingGroup);
      FirstsMore(asked, spec.ratingGroup);
      forall i | 0 <= i < |r.info|
        ensures LabelsAt(r, i)
      {
        assert i != idx ==> LabelsAt(p, i);
      }
    }
  }

  lemma IndexOf(e: Engine, imsi: u64)
    requires WF(e) && imsi in e.imsiIndex
    ensures e.imsiIndex[imsi] < e.nextSub
  {
  }

  lemma LearnLabels(e: Engine, ev: MeterEvent)
    requires LabelsOk(e) && e.nextSub < e.cfg.maxSubscribers
    ensures LabelsOk(Learn(e, ev))
  {
    hide Firsts, IndicesOk, AssignSlot;
    var r := Learn(e, ev);
    NoFirsts();
    FirstsMore([], 0);
    assert [] + [0] == [0];
    var blank := NoInfo.(active := true, learned := true, firstSeen := ev.ts, intervalStart := ev.ts);
    AssignLabels(blank, [], 0);
    forall i | 0 <= i < |r.info|
      ensures LabelsAt(r, i)
    {
      assert LabelsAt(e, i);
    }
  }

  lemma ChargeLabels(e: Engine, ev: MeterEvent, b: Binding)
    requires LabelsOk(e) && b.sub < e.nextSub
    ensures WF(ChargePacket(e, ev, b)) && LabelsOk(ChargePacket(e, ev, b))
  {
    hide Firsts, IndicesOk, AssignSlot, LabelledBy, Wrap, Plus, Packet;
    var r := ChargePacket(e, ev, b);
    var asked := e.origins[b.sub].asked;
    assert LabelsAt(e, b.sub);
    AssignLabels(e.info[b.sub], Firsts(asked), QFI_TAG + ev.qfi);
    FirstsMore(asked, QFI_TAG + ev.qfi);
    forall i | 0 <= i < |r.info|
      ensures LabelsAt(r, i)
    {
      assert LabelsAt(e, i);
    }
  }

  lemma PacketLabels(e: Engine, ev: MeterEvent)
    requires LabelsOk(e)
    ensures LabelsOk(Apply(e, ev))
  {
    hide LabelsAt, ChargePacket, Learn;
    var e1 := CountEvent(e, ev);
    UntouchedLabels(e, e1);
    UntouchedLabels(e1, CountControl(e1));
    if e1.nextSub < e1.cfg.maxSubscribers {
      LearnLabels(e1, ev);
    }
    var e2 := LookUp(e1, ev);
    UntouchedLabels(e2, CountUnknown(e2, ev));
    if ev.teid in e2.teids {
      ChargeLabels(e2, ev, e2.teids[ev.teid]);
    }
  }

  lemma {:induction false} SweepLabels(e: Engine, n: nat, now: u64)
    requires LabelsOk(e) && e.nextSub > 0
    ensures LabelsOk(Sweep(e, n, now))
  {
    hide LabelsAt, SweepOne;
    if n > 0 {
      SweepLabels(e, n - 1, now);
      SweepOneLabels(Sweep(e, n - 1, now), now);
    }
  }

  lemma SweepOneLabels(e: Engine, now: u64)
    requires LabelsOk(e) && e.nextSub > 0
    ensures LabelsOk(SweepOne(e, now))
  {
    hide LabelsAt, IndicesOk, Due;
    UntouchedLabels(e, SweepOne(e, now));
  }

  lemma {:induction false} DrainLabels(e: Engine, n: nat, now: u64)
    requires LabelsOk(e) && n <= e.nextSub
    ensures LabelsOk(DrainUpTo(e, n, now))
  {
    hide LabelsAt, Unreported;
    if n > 0 {
      DrainLabels(e, n - 1, now);
      UntouchedLabels(DrainUpTo(e, n - 1, now), DrainUpTo(e, n, now));
    }
  }

  lemma ReleaseLabels(e: Engine, imsi: u64, now: u64)
    requires LabelsOk(e)
    ensures LabelsOk(ReleaseSession(e, imsi, now))
  {
    hide LabelsAt;
    UntouchedLabels(e, ReleaseSession(e, imsi, now));
  }

  lemma GyLabels(e: Engine, gy: GyEvent)
    requires LabelsOk(e)
    ensures LabelsOk(ApplyGy(e, gy))
  {
    hide LabelsAt;
    UntouchedLabels(e, ApplyGy(e, gy));
  }

  lemma StepLabels(e: Engine, op: Op)
    requires LabelsOk(e) && Chargeable(op)
    ensures LabelsOk(Step(e, op))
  {
    hide LabelsAt, Install, ReleaseSession, Apply, ApplyGy, Sweep, DrainUpTo;
    match op
    case DoInstall(spec, now) => InstallLabels(e, spec, now);
    case DoRelease(imsi, now) => ReleaseLabels(e, imsi, now);
    case DoPacket(ev) => PacketLabels(e, ev);
    case DoGy(gy) => GyLabels(e, gy);
    case DoPoll(now) =>
      UntouchedLabels(e, e.(lastSweep := now));
      if e.nextSub > 0 {
        SweepLabels(e.(lastSweep := now), Chunk(e.nextSub, e.cfg.sweepFraction), now);
      }
    case DoDrain(now) => DrainLabels(e, e.nextSub, now);
  }

  /** In every run with proper rating groups the labels of an account, which go into its records, are the first
      three buckets that asked for a slot since it was activated, and the aggregate flag says exactly whether
      there were more. */
  lemma {:induction false} LabelsAreFirstThree(cfg: Config, ops: seq<Op>)
    requires AllChargeable(ops)
    ensures LabelsOk(Run(Start(cfg), ops))
  {
    hide Step, LabelsAt;
    if ops == [] {
      StartLabels(cfg);
    } else {
      LabelsAreFirstThree(cfg, ops[..|ops| - 1]);
      StepLabels(Run(Start(cfg), ops[..|ops| - 1]), ops[|ops| - 1]);
    }
  }

  lemma StartLabels(cfg: Config)
    ensures LabelsOk(Start(cfg))
  {
    NoFirsts();
  }
}

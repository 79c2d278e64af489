/** Tunnel ownership: in every run each TEID binding points at an active subscriber that owns
    that TEID in the bound direction, and this bounds the load of the TEID table. */
module Tunnels {
  import opened Words
  import opened Usage
  import opened Probing
  import opened Meter

  /** The subscriber is active and `t` is its tunnel in the direction of the binding; a learned
      tunnel of unknown direction counts as uplink. */
  ghost predicate Owns(info: Info, t: u32, b: Binding) {
    && info.active
    && t == (if b.dir == Downlink then info.dlTeid else info.ulTeid)
    && (t == 0 ==> info.learned)
    && (b.dir == Unknown ==> info.learned)
  }

  ghost predicate Bound(e: Engine)
    requires WF(e)
  {
    forall t :: t in e.teids ==> Owns(e.info[e.teids[t].sub], t, e.teids[t])
  }

  /** Indices not yet handed out are blank; indexed subscribers carry their IMSI. */
  ghost predicate Enrolled(e: Engine)
    requires WF(e)
  {
    && (forall i :: e.nextSub <= i < |e.info| ==> e.info[i] == NoInfo && e.counters[i] == NoCounters && e.acts[i] == [])
    && (forall k :: k in e.imsiIndex ==> e.info[e.imsiIndex[k]].imsi == k && !e.info[e.imsiIndex[k]].learned)
  }

  ghost predicate TunnelsOk(e: Engine) {
    WF(e) && Bound(e) && Enrolled(e)
  }

  // ---------------------------------------------------------------------------
  // Every operation keeps the invariant
  // ---------------------------------------------------------------------------

  ghost predicate SameTunnels(a: Info, b: Info) {
    && a.imsi == b.imsi && a.ulTeid == b.ulTeid && a.dlTeid == b.dlTeid
    && a.active == b.active && a.learned == b.learned
  }

  lemma OpenKeeps(e: Engine, idx: nat, spec: SessionSpec, now: u64)
    requires WF(e) && Bound(e) && idx < e.nextSub && !e.info[idx].learned
    requires forall i :: e.nextSub <= i < |e.info| ==> e.info[i] == NoInfo && e.counters[i] == NoCounters && e.acts[i] == []
    requires forall k :: k in e.imsiIndex && e.imsiIndex[k] != idx ==>
               e.info[e.imsiIndex[k]].imsi == k && !e.info[e.imsiIndex[k]].learned
    requires forall k :: k in e.imsiIndex && e.imsiIndex[k] == idx ==> k == spec.imsi
    ensures TunnelsOk(Open(e, idx, spec, now))
    ensures Open(e, idx, spec, now).info[idx].active && !Open(e, idx, spec, now).info[idx].learned
  {
    var e' := Open(e, idx, spec, now);
    forall t | t in e'.teids
      ensures Owns(e'.info[e'.teids[t].sub], t, e'.teids[t])
    {
      assert Owns(e.info[e.teids[t].sub], t, e.teids[t]);
    }
  }

  lemma ActivateKeeps(e: Engine, spec: SessionSpec, now: u64)
    requires TunnelsOk(e) && Accepts(e, spec)
    ensures var e1 := Register(e, spec.imsi);
            var e2 := Open(e1, e1.imsiIndex[spec.imsi], spec, now);
            var info := e2.info[e1.imsiIndex[spec.imsi]];
            TunnelsOk(e2) && info.active && !info.learned
  {
    var e1 := Register(e, spec.imsi);
    OpenKeeps(e1, e1.imsiIndex[spec.imsi], spec, now);
  }

  lemma MoveKeeps(e: Engine, idx: nat, spec: SessionSpec)
    requires TunnelsOk(e) && idx < e.nextSub && e.info[idx].active && !e.info[idx].learned
    ensures Ready(MoveTunnels(e, idx, spec), idx, spec)
  {
    var e' := MoveTunnels(e, idx, spec);
    forall t | t in e'.teids
      ensures Owns(e'.info[e'.teids[t].sub], t, e'.teids[t])
    {
      assert Owns(e.info[e.teids[t].sub], t, e.teids[t]);
    }
  }

  lemma BindKeeps(e: Engine, t: u32, b: Binding)
    requires TunnelsOk(e) && b.sub < e.nextSub && Owns(e.info[b.sub], t, b)
    ensures TunnelsOk(Bind(e, t, b)) && Bind(e, t, b).info == e.info
  {
  }

  /** No binding was refused on the way from `e` to `r`. */
  ghost predicate Takes(e: Engine, r: Engine) {
    r.stats.bindFailures == e.stats.bindFailures
  }

  lemma BindIfSetKeeps(e: Engine, t: u32, b: Binding)
    requires TunnelsOk(e) && b.sub < e.nextSub && (t != 0 ==> Owns(e.info[b.sub], t, b))
    ensures TunnelsOk(BindIfSet(e, t, b)) && BindIfSet(e, t, b).info == e.info
    ensures Takes(e, BindIfSet(e, t, b)) ==>
              BindIfSet(e, t, b) == e.(teids := if t == 0 then e.teids else e.teids[t := b])
    ensures e.stats.bindFailures <= BindIfSet(e, t, b).stats.bindFailures
    ensures Roomy(e.cfg) ==> Takes(e, BindIfSet(e, t, b))
  {
    if t != 0 {
      BindKeeps(e, t, b);
    }
    if Roomy(e.cfg) {
      TwoPerSubscriber(e);
    }
  }

  /** The session's tunnels are recorded and ready to be bound. */
  ghost predicate Ready(e: Engine, idx: nat, spec: SessionSpec) {
    && TunnelsOk(e) && idx < e.nextSub && e.info[idx].active && !e.info[idx].learned
    && e.info[idx].ulTeid == spec.ulTeid && e.info[idx].dlTeid == spec.dlTeid
  }

  /** The table with both of the session's tunnels, where set, bound to the subscriber. */
  ghost function WithTunnels(teids: map<u32, Binding>, spec: SessionSpec, idx: nat, slot: SlotIndex): map<u32, Binding> {
    var m := if spec.ulTeid == 0 then teids else teids[spec.ulTeid := Binding(idx, Uplink, slot)];
    if spec.dlTeid == 0 then m else m[spec.dlTeid := Binding(idx, Downlink, slot)]
  }

  lemma RelabelKeeps(e: Engine, idx: nat, spec: SessionSpec)
    requires Ready(e, idx, spec)
    ensures Ready(e.(info := e.info[idx := AssignSlot(e.info[idx], spec.ratingGroup).0]), idx, spec)
  {
    hide AssignSlot;
    var e1 := e.(info := e.info[idx := AssignSlot(e.info[idx], spec.ratingGroup).0]);
    InfoKeeps(e, e1);
  }

  lemma BindBothKeeps(e: Engine, idx: nat, spec: SessionSpec, slot: SlotIndex)
    requires Ready(e, idx, spec)
    ensures var e' := BindIfSet(BindIfSet(e, spec.ulTeid, Binding(idx, Uplink, slot)), spec.dlTeid, Binding(idx, Downlink, slot));
            && TunnelsOk(e')
            && (Takes(e, e') ==> e' == e.(teids := WithTunnels(e.teids, spec, idx, slot)))
            && (Roomy(e.cfg) ==> Takes(e, e'))
  {
    BindIfSetKeeps(e, spec.ulTeid, Binding(idx, Uplink, slot));
    BindIfSetKeeps(BindIfSet(e, spec.ulTeid, Binding(idx, Uplink, slot)), spec.dlTeid, Binding(idx, Downlink, slot));
  }

  lemma BindTunnelsKeeps(e: Engine, idx: nat, spec: SessionSpec)
    requires Ready(e, idx, spec)
    ensures var e' := BindTunnels(e, idx, spec);
            && TunnelsOk(e')
            && (Takes(e, e') ==>
                  && e'.stats == e.stats
                  && e'.teids == WithTunnels(e.teids, spec, idx, AssignSlot(e.info[idx], spec.ratingGroup).1))
            && (Roomy(e.cfg) ==> Takes(e, e'))
  {
    hide AssignSlot, BindIfSet, Bound, Enrolled, WithTunnels;
    var (info, slot) := AssignSlot(e.info[idx], spec.ratingGroup);
    RelabelKeeps(e, idx, spec);
    BindBothKeeps(e.(info := e.info[idx := info]), idx, spec, slot);
  }

  lemma PrepareKeeps(e: Engine, spec: SessionSpec, now: u64)
    requires TunnelsOk(e) && Accepts(e, spec)
    ensures var p := Prepare(e, spec, now);
            Ready(p, p.imsiIndex[spec.imsi], spec)
  {
    hide Bound, Enrolled;
    ActivateKeeps(e, spec, now);
    var e1 := Register(e, spec.imsi);
    var idx := e1.imsiIndex[spec.imsi];
    MoveKeeps(Open(e1, idx, spec, now), idx, spec);
  }

  lemma InstallKeeps(e: Engine, spec: SessionSpec, now: u64)
    requires TunnelsOk(e)
    ensures TunnelsOk(Install(e, spec, now))
    ensures Roomy(e.cfg) ==> Takes(e, Install(e, spec, now))
  {
    hide Bound, Enrolled, Prepare, BindTunnels;
    if Accepts(e, spec) {
      PrepareKeeps(e, spec, now);
      var p := Prepare(e, spec, now);
      BindTunnelsKeeps(p, p.imsiIndex[spec.imsi], spec);
    }
  }

  /** An accepted install that has no binding refused binds both of its tunnels, each in its direction (the
      downlink one when they are equal) and to the slot of the session's rating group. */
  lemma InstallBinds(e: Engine, spec: SessionSpec, now: u64, t: u32)
    requires TunnelsOk(e) && Accepts(e, spec) && Takes(e, Install(e, spec, now))
    requires t != 0 && (t == spec.ulTeid || t == spec.dlTeid)
    ensures var e' := Install(e, spec, now);
            var p := Prepare(e, spec, now);
            var idx := p.imsiIndex[spec.imsi];
            && t in e'.teids && spec.imsi in e'.imsiIndex && e'.imsiIndex[spec.imsi] == idx
            && e'.teids[t] == Binding(idx, if t == spec.dlTeid then Downlink else Uplink,
                                      AssignSlot(p.info[idx], spec.ratingGroup).1)
  {
    hide Bound, Enrolled, Prepare, AssignSlot, BindTunnels;
    PrepareKeeps(e, spec, now);
    var p := Prepare(e, spec, now);
    BindTunnelsKeeps(p, p.imsiIndex[spec.imsi], spec);
  }

  /** A step that leaves bindings, index and every subscriber's tunnel fields alone. */
  lemma InfoKeeps(e: Engine, e': Engine)
    requires TunnelsOk(e) && WF(e')
    requires e'.teids == e.teids && e'.imsiIndex == e.imsiIndex && e'.nextSub == e.nextSub && e'.cfg == e.cfg
    requires forall i :: 0 <= i < |e.info| ==> SameTunnels(e'.info[i], e.info[i])
    requires forall i :: e.nextSub <= i < |e.info| ==>
               e'.info[i] == e.info[i] && e'.counters[i] == e.counters[i] && e'.acts[i] == e.acts[i]
    ensures TunnelsOk(e')
  {
  }

  lemma EmitKeeps(e: Engine, idx: nat, reason: Reason, now: u64)
    requires TunnelsOk(e) && idx < e.nextSub
    ensures TunnelsOk(Emit(e, idx, reason, now))
  {
    InfoKeeps(e, Emit(e, idx, reason, now));
  }

  lemma CloseIndices(e: Engine, idx: nat)
    requires WF(e) && idx < e.nextSub
    ensures WF(Close(e, idx))
  {
  }

  lemma CloseKeeps(e: Engine, idx: nat)
    requires TunnelsOk(e) && idx < e.nextSub && !e.info[idx].learned
    ensures WF(Close(e, idx)) && TunnelsOk(Close(e, idx))
  {
    CloseIndices(e, idx);
    var e' := Close(e, idx);
    forall t | t in e'.teids
      ensures Owns(e'.info[e'.teids[t].sub], t, e'.teids[t])
    {
      assert t in e.teids && e'.teids[t] == e.teids[t];
      assert Owns(e.info[e.teids[t].sub], t, e.teids[t]);
    }
  }

  lemma ReleaseKeeps(e: Engine, imsi: u64, now: u64)
    requires TunnelsOk(e)
    ensures TunnelsOk(ReleaseSession(e, imsi, now))
  {
    if Releasable(e, imsi) {
      var idx := e.imsiIndex[imsi];
      EmitKeeps(e, idx, Release, now);
      CloseKeeps(Emit(e, idx, Release, now), idx);
    }
  }

  lemma LearnKeeps(e: Engine, ev: MeterEvent)
    requires TunnelsOk(e) && e.nextSub < e.cfg.maxSubscribers
    ensures TunnelsOk(Learn(e, ev))
  {
    hide AssignSlot;
    var e' := Learn(e, ev);
    forall t | t in e'.teids
      ensures Owns(e'.info[e'.teids[t].sub], t, e'.teids[t])
    {
      if t in e.teids {
        OldSub(e, t);
        assert Owns(e.info[e.teids[t].sub], t, e.teids[t]);
      }
    }
    LearnEnrols(e, ev);
  }

  lemma OldSub(e: Engine, t: u32)
    requires WF(e) && t in e.teids
    ensures e.teids[t].sub < e.nextSub
  {
  }

  lemma LearnEnrols(e: Engine, ev: MeterEvent)
    requires TunnelsOk(e) && e.nextSub < e.cfg.maxSubscribers
    ensures Enrolled(Learn(e, ev))
  {
    hide Bound, LearnedInfo, Bind;
    var e1 := LearnSub(e, ev);
    forall k | k in e1.imsiIndex
      ensures e1.info[e1.imsiIndex[k]] == e.info[e.imsiIndex[k]]
    {
      KnownSub(e, k);
    }
  }

  lemma KnownSub(e: Engine, k: u64)
    requires WF(e) && k in e.imsiIndex
    ensures e.imsiIndex[k] < e.nextSub
  {
  }

  lemma ChargeKeeps(e: Engine, ev: MeterEvent, b: Binding)
    requires TunnelsOk(e) && b.sub < e.nextSub
    ensures TunnelsOk(ChargePacket(e, ev, b))
  {
    InfoKeeps(e, ChargePacket(e, ev, b));
  }

  /** Statistics, cursor and sweep time play no part. */
  lemma CountKeeps(e: Engine, e': Engine)
    requires TunnelsOk(e) && WF(e') && e' == e.(stats := e'.stats, cursor := e'.cursor, lastSweep := e'.lastSweep)
    ensures TunnelsOk(e')
  {
    InfoKeeps(e, e');
  }

  lemma LookUpKeeps(e: Engine, ev: MeterEvent)
    requires TunnelsOk(e)
    ensures TunnelsOk(LookUp(e, ev))
  {
    hide Bound, Enrolled, Learn;
    if e.nextSub < e.cfg.maxSubscribers {
      LearnKeeps(e, ev);
    }
  }

  lemma ApplyKeeps(e: Engine, ev: MeterEvent)
    requires TunnelsOk(e)
    ensures TunnelsOk(Apply(e, ev))
  {
    hide Bound, Enrolled, LookUp, ChargePacket;
    var e1 := CountEvent(e, ev);
    CountKeeps(e, e1);
    CountKeeps(e1, CountControl(e1));
    LookUpKeeps(e1, ev);
    var e2 := LookUp(e1, ev);
    CountKeeps(e2, CountUnknown(e2, ev));
    if ev.teid in e2.teids {
      ChargeKeeps(e2, ev, e2.teids[ev.teid]);
    }
  }

  lemma GyKeeps(e: Engine, gy: GyEvent)
    requires TunnelsOk(e)
    ensures TunnelsOk(ApplyGy(e, gy))
  {
    InfoKeeps(e, ApplyGy(e, gy));
  }

  lemma ServeKeeps(e: Engine, idx: nat, now: u64)
    requires TunnelsOk(e) && idx < e.nextSub
    ensures TunnelsOk(Serve(e, idx, now))
  {
    hide Bound, Enrolled, Emit, Due;
    if Due(e, idx, now).Some? {
      EmitKeeps(e, idx, Due(e, idx, now).value, now);
    }
  }

  lemma {:induction false} SweepKeeps(e: Engine, n: nat, now: u64)
    requires TunnelsOk(e) && e.nextSub > 0
    ensures TunnelsOk(Sweep(e, n, now))
  {
    hide Bound, Enrolled, Serve;
    if n > 0 {
      SweepKeeps(e, n - 1, now);
      var r := Sweep(e, n - 1, now);
      CountKeeps(r, r.(cursor := Visited(r) + 1));
      ServeKeeps(r.(cursor := Visited(r) + 1), Visited(r), now);
    }
  }

  lemma PollKeeps(e: Engine, now: u64)
    requires TunnelsOk(e)
    ensures TunnelsOk(Poll(e, now))
  {
    if SweepsAt(e, now) && e.nextSub > 0 {
      SweepKeeps(e.(lastSweep := now), Chunk(e.nextSub, e.cfg.sweepFraction), now);
    }
  }

  lemma {:induction false} DrainKeeps(e: Engine, n: nat, now: u64)
    requires TunnelsOk(e) && n <= e.nextSub
    ensures TunnelsOk(DrainUpTo(e, n, now))
  {
    if n > 0 {
      DrainKeeps(e, n - 1, now);
      var r := DrainUpTo(e, n - 1, now);
      if Unreported(r, n - 1) {
        EmitKeeps(r, n - 1, Shutdown, now);
      }
    }
  }

  lemma StepKeepsTunnels(e: Engine, op: Op)
    requires TunnelsOk(e)
    ensures TunnelsOk(Step(e, op))
  {
    match op
    case DoInstall(spec, now) => InstallKeeps(e, spec, now);
    case DoRelease(imsi, now) => ReleaseKeeps(e, imsi, now);
    case DoPacket(ev) => ApplyKeeps(e, ev);
    case DoGy(gy) => GyKeeps(e, gy);
    case DoPoll(now) => PollKeeps(e, now);
    case DoDrain(now) => DrainKeeps(e, e.nextSub, now);
  }

  lemma StartOk(cfg: Config)
    ensures TunnelsOk(Start(cfg))
  {
  }

  /** In every run, each binding points to an active subscriber owning that TEID. */
  lemma {:induction false} RunKeepsTunnels(cfg: Config, ops: seq<Op>)
    ensures TunnelsOk(Run(Start(cfg), ops))
  {
    if ops == [] {
      StartOk(cfg);
    } else {
      var n := |ops| - 1;
      RunKeepsTunnels(cfg, ops[..n]);
      StepKeepsTunnels(Run(Start(cfg), ops[..n]), ops[n]);
    }
  }

  // ---------------------------------------------------------------------------
  // Who is charged
  // ---------------------------------------------------------------------------

  /** A packet changes the counters or the history of at most one subscriber: an active one that
      owns the packet's TEID, in the direction of that tunnel unless the tunnel was learned. */
  lemma OnlyOwnersAreCharged(cfg: Config, ops: seq<Op>, ev: MeterEvent, i: nat)
    requires i < cfg.maxSubscribers
    ensures var e := Run(Start(cfg), ops);
            var e' := Apply(e, ev);
            e'.counters[i] != e.counters[i] || e'.acts[i] != e.acts[i] ==>
              && !ev.control
              && ev.teid in e'.teids && e'.teids[ev.teid].sub == i
              && (ev.teid in e.teids ==> e.info[i].active && e'.teids[ev.teid] == e.teids[ev.teid])
              && Owns(e'.info[i], ev.teid, e'.teids[ev.teid])
              && |e'.acts[i]| == |e.acts[i]| + 1 && e'.acts[i][..|e.acts[i]|] == e.acts[i]
              && (var a := e'.acts[i][|e.acts[i]|];
                  && a.Charge? && a.bytes == ev.bytes
                  && (!e'.info[i].learned ==> ev.teid == if a.down then e'.info[i].dlTeid else e'.info[i].ulTeid))
  {
    var e := Run(Start(cfg), ops);
    RunKeepsTunnels(cfg, ops);
    ApplyKeeps(e, ev);
    ChargedSub(e, ev, i);
  }

  lemma ChargedSub(e: Engine, ev: MeterEvent, i: nat)
    requires TunnelsOk(e) && i < |e.info|
    ensures var e' := Apply(e, ev);
            e'.counters[i] != e.counters[i] || e'.acts[i] != e.acts[i] ==>
              && !ev.control && ev.teid in e'.teids && e'.teids[ev.teid].sub == i
              && (ev.teid in e.teids ==> e'.teids == e.teids)
              && |e'.acts[i]| == |e.acts[i]| + 1 && e'.acts[i][..|e.acts[i]|] == e.acts[i]
              && (var a := e'.acts[i][|e.acts[i]|];
                  a.Charge? && a.bytes == ev.bytes && a.down == IsDown(e'.teids[ev.teid], ev))
  {
    hide LookUp, Wrap, Plus, Packet, ResolveSlot, Bound, Enrolled, IsDown, IndicesOk;
    var e1 := CountEvent(e, ev);
    CountKeeps(e, e1);
    LookUpFrame(e1, ev);
    if ev.teid in LookUp(e1, ev).teids {
      OldSub(LookUp(e1, ev), ev.teid);
    }
  }

  lemma LookUpFrame(e: Engine, ev: MeterEvent)
    requires TunnelsOk(e)
    ensures var e' := LookUp(e, ev);
            e'.counters == e.counters && e'.acts == e.acts && (ev.teid in e.teids ==> e' == e)
  {
    if e.nextSub < e.cfg.maxSubscribers {
      var e' := Learn(e, ev);
      assert e'.counters == e.counters && e'.acts == e.acts;
    }
  }

  // ---------------------------------------------------------------------------
  // Load of the TEID table
  // ---------------------------------------------------------------------------

  ghost function UlTeids(info: seq<Info>, n: nat): set<u32>
    requires n <= |info|
  {
    set i | 0 <= i < n :: info[i].ulTeid
  }

  ghost function DlTeids(info: seq<Info>, n: nat): set<u32>
    requires n <= |info|
  {
    set i | 0 <= i < n :: info[i].dlTeid
  }

  lemma {:induction false} UlTeidsBound(info: seq<Info>, n: nat)
    requires n <= |info|
    ensures |UlTeids(info, n)| <= n
  {
    if n > 0 {
      UlTeidsBound(info, n - 1);
      assert UlTeids(info, n) == UlTeids(info, n - 1) + {info[n - 1].ulTeid};
    }
  }

  lemma {:induction false} DlTeidsBound(info: seq<Info>, n: nat)
    requires n <= |info|
    ensures |DlTeids(info, n)| <= n
  {
    if n > 0 {
      DlTeidsBound(info, n - 1);
      assert DlTeids(info, n) == DlTeids(info, n - 1) + {info[n - 1].dlTeid};
    }
  }

  /** Ownership makes the table hold at most two keys per subscriber. */
  lemma TwoPerSubscriber(e: Engine)
    requires TunnelsOk(e)
    ensures |e.teids| <= 2 * e.nextSub
    ensures |e.teids - {EMPTY}| <= 2 * e.nextSub
  {
    UlTeidsBound(e.info, e.nextSub);
    DlTeidsBound(e.info, e.nextSub);
    var owned := UlTeids(e.info, e.nextSub) + DlTeids(e.info, e.nextSub);
    forall t | t in e.teids
      ensures t in owned
    {
      assert Owns(e.info[e.teids[t].sub], t, e.teids[t]);
    }
    assert e.teids.Keys <= owned;
    Subset(e.teids.Keys, owned);
    Subset((e.teids - {EMPTY}).Keys, e.teids.Keys);
  }

  lemma Subset(a: set<u32>, b: set<u32>)
    requires a <= b
    ensures |a| <= |b|
  {
    var rest := b - a;
    assert b == a + rest;
  }

  ghost predicate Roomy(cfg: Config) {
    cfg.teidCapacity > 2 * cfg.maxSubscribers
  }

  lemma LearnNeverFails(e: Engine, ev: MeterEvent)
    requires TunnelsOk(e) && Roomy(e.cfg) && e.nextSub < e.cfg.maxSubscribers
    ensures Learn(e, ev).stats.bindFailures == e.stats.bindFailures && ev.teid in Learn(e, ev).teids
  {
    TwoPerSubscriber(e);
  }

  lemma ApplyNeverFails(e: Engine, ev: MeterEvent)
    requires TunnelsOk(e) && Roomy(e.cfg)
    ensures Apply(e, ev).stats.bindFailures == e.stats.bindFailures
  {
    hide Bound, Enrolled, Learn;
    var e1 := CountEvent(e, ev);
    CountKeeps(e, e1);
    if e.nextSub < e.cfg.maxSubscribers {
      LearnNeverFails(e1, ev);
    }
  }

  lemma StepNeverFails(e: Engine, op: Op)
    requires TunnelsOk(e) && Roomy(e.cfg)
    ensures Step(e, op).stats.bindFailures == e.stats.bindFailures
  {
    hide Bound, Enrolled, Install, Apply, Sweep, DrainUpTo, Emit;
    match op
    case DoInstall(spec, now) => InstallKeeps(e, spec, now);
    case DoPacket(ev) => ApplyNeverFails(e, ev);
    case DoPoll(now) =>
      if SweepsAt(e, now) && e.nextSub > 0 {
        SweepReports(e.(lastSweep := now), Chunk(e.nextSub, e.cfg.sweepFraction), now);
      }
    case DoDrain(now) => DrainReports(e, e.nextSub, now);
    case DoRelease(imsi, now) =>
      if Releasable(e, imsi) {
        EmitReports(e, e.imsiIndex[imsi], Release, now);
      }
    case DoGy(_) =>
  }

  /** With more TEID slots than two per subscriber, the table never fills in any run: it always
      has an empty slot, binding never fails and the failure counter stays at zero. */
  lemma {:induction false} TeidTableNeverFills(cfg: Config, ops: seq<Op>)
    requires Roomy(cfg)
    ensures var e := Run(Start(cfg), ops);
            && |e.teids - {EMPTY}| < cfg.teidCapacity
            && e.stats.bindFailures == 0
            && forall t :: CanBind(e, t)
  {
    var e := Run(Start(cfg), ops);
    RunKeepsTunnels(cfg, ops);
    TwoPerSubscriber(e);
    if ops != [] {
      var n := |ops| - 1;
      TeidTableNeverFills(cfg, ops[..n]);
      RunKeepsTunnels(cfg, ops[..n]);
      StepNeverFails(Run(Start(cfg), ops[..n]), ops[n]);
    }
  }
}

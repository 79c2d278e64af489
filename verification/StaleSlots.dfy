/** When accounting slots lie. A full TEID table refuses a tunnel even if it is stored, so a session that is
    installed again under another rating group can keep a tunnel on the slot of the earlier one. That is the
    only way, and it takes one packet. */
module StaleSlots {
  import opened Words
  import opened Usage
  import opened Probing
  import opened Meter
  import opened Tunnels
  import opened Billing
  import opened Buckets
  import opened TableLoad

  // ---------------------------------------------------------------------------
  // A tunnel on an old slot makes the next packet lie
  // ---------------------------------------------------------------------------

  /** A bucket has only one slot. */
  lemma OnlyOneFits(ids: Slots<u32>, aggregated: bool, id: u32, slot: SlotIndex, other: SlotIndex)
    requires Labelled(ids) && Fits(ids, aggregated, id, slot) && other != slot
    ensures !Fits(ids, aggregated, id, other)
  {
  }

  lemma OneOff(x: nat)
    ensures (x % TWO64 + 1) % TWO64 != x % TWO64
    ensures (x + 1) % TWO64 != x % TWO64
  {
  }

  /** Slot `slot` takes one byte more. */
  lemma SlotGrows(c: WordTally, down: bool, slot: SlotIndex)
    ensures var c' := Wrap(Plus(c, Packet(down, slot, 1)));
            && c'.b0 == (if slot == 0 then (c.b0 + 1) % TWO64 else c.b0)
            && c'.b1 == (if slot == 1 then (c.b1 + 1) % TWO64 else c.b1)
            && c'.b2 == (if slot == 2 then (c.b2 + 1) % TWO64 else c.b2)
  {
  }

  lemma ChargeLies(c: WordTally, info: Info, acts: seq<Act>, down: bool, slot: SlotIndex)
    requires SubHonest(info, acts) && c == Wrap(Charged(acts))
    requires !Fits(info.ids, info.aggregated, info.ratingGroup, slot)
    ensures !HonestCounters(Wrap(Plus(c, Packet(down, slot, 1))), info, acts + [Charge(down, info.ratingGroup, slot, 1)])
  {
    hide BucketBytes, Charged, Plus, Packet;
    var a := Charge(down, info.ratingGroup, slot, 1);
    SlotGrows(c, down, slot);
    AppendBucket(acts, a, info.ids.s0);
    AppendBucket(acts, a, info.ids.s1);
    AppendBucket(acts, a, info.ids.s2);
    OneOff(BucketBytes(acts, info.ids.s0));
    OneOff(BucketBytes(acts, info.ids.s1));
    OneOff(BucketBytes(acts, info.ids.s2));
  }

  /** One byte for tunnel `t`, without a QoS flow. */
  function OneByte(t: u32): MeterEvent {
    MeterEvent(0, 0, t, 1, 0, false, false, Unknown)
  }

  lemma ChargesBound(e: Engine, t: u32)
    requires WF(e) && t in e.teids
    ensures Apply(e, OneByte(t)) == ChargePacket(CountEvent(e, OneByte(t)), OneByte(t), e.teids[t])
  {
    hide ChargePacket;
  }

  /** The account of subscriber `i` is honest. */
  ghost predicate HonestSub(e: Engine, i: nat)
    requires WF(e) && i < |e.info|
  {
    HonestCounters(e.counters[i].tally, e.info[i], e.acts[i])
  }

  lemma PacketLies(e: Engine, t: u32)
    requires WF(e) && t in e.teids
    requires var i := e.teids[t].sub;
             && SubHonest(e.info[i], e.acts[i]) && e.counters[i].tally == Wrap(Charged(e.acts[i]))
             && !Resolved(e.info[i], e.teids[t])
    ensures !HonestSub(Apply(e, OneByte(t)), e.teids[t].sub)
  {
    hide Apply, HonestCounters, SubHonest, Fits, Wrap, Plus, Charged, Packet;
    ChargesBound(e, t);
    var b := e.teids[t];
    ChargeLies(e.counters[b.sub].tally, e.info[b.sub], e.acts[b.sub], IsDown(b, OneByte(t)), b.slot);
  }

  /** After the tunnels of a session are bound, one of them is on an old slot. */
  lemma BindLeavesOld(e: Engine, idx: nat, spec: SessionSpec) returns (t: u32)
    requires Ready(e, idx, spec) && Tidy(e, idx) && LeavesOld(e, idx, spec) && e.info[idx].ratingGroup == spec.ratingGroup
    ensures var r := BindTunnels(e, idx, spec);
            && t in r.teids && r.teids[t].sub == idx
            && SubHonest(r.info[idx], r.acts[idx]) && !Resolved(r.info[idx], r.teids[t])
  {
    hide AssignSlot, BindTunnels, BindIfSet, LeavesOld, Honest, Fits, Bound, Enrolled;
    var (info, slot) := AssignSlot(e.info[idx], spec.ratingGroup);
    SlotsAfter(e, idx, spec);
    var r := BindTunnels(e, idx, spec);
    t := if KeepsOld(r.teids, spec.ulTeid, idx, slot) then spec.ulTeid else spec.dlTeid;
    assert SubHonest(e.info[idx], e.acts[idx]);
    AssignFits(e.info[idx], spec.ratingGroup, e.acts[idx]);
    LabelledHonest(info, e.acts[idx]);
    OnlyOneFits(info.ids, info.aggregated, spec.ratingGroup, slot, r.teids[t].slot);
  }

  lemma LabelledHonest(info: Info, acts: seq<Act>)
    requires Honest(info.ids, info.aggregated, acts)
    ensures Labelled(info.ids)
  {
  }

  /** Each such install is followed by a lie: one more byte for the tunnel in question. */
  lemma StaleLies(e: Engine, spec: SessionSpec, now: u64) returns (t: u32, i: nat)
    requires BooksOk(e) && BucketsOk(e) && Stale(e, DoInstall(spec, now)) && spec.ratingGroup != UNSET
    ensures var r := Install(e, spec, now);
            i < |Apply(r, OneByte(t)).info| && !HonestSub(Apply(r, OneByte(t)), i)
  {
    hide BooksOk, Tidy, Prepare, BindTunnels, LeavesOld, Bound, Enrolled, Apply, HonestSub, Resolved, SubHonest;
    PrepareKeeps(e, spec, now);
    PrepareHonest(e, spec, now);
    var p := Prepare(e, spec, now);
    i := p.imsiIndex[spec.imsi];
    t := BindLeavesOld(p, i, spec);
    InstallBooks(e, spec, now);
    var r := Install(e, spec, now);
    CountersHold(r, i);
    PacketLies(r, t);
  }

  lemma CountersHold(e: Engine, i: nat)
    requires BooksOk(e) && WF(e) && i < |e.info|
    ensures e.counters[i].tally == Wrap(Charged(e.acts[i]))
  {
    hide AccountOk;
    assert AccountAt(e, i);
    AccountAddsUp(e.counters[i].tally, e.info[i].emitted, e.info[i].recordSeq, e.info[i].active, e.acts[i]);
  }

  // ---------------------------------------------------------------------------
  // What rules it out
  // ---------------------------------------------------------------------------

  /** An install that has no binding refused leaves nothing on an old slot. */
  lemma TakenNotStale(e: Engine, op: Op)
    requires TunnelsOk(e) && (op.DoInstall? ==> Takes(e, Step(e, op)))
    ensures !Stale(e, op)
  {
    hide Prepare, BindTunnels, LeavesOld, Bound, Enrolled;
    if op.DoInstall? && Accepts(e, op.spec) {
      PrepareKeeps(e, op.spec, op.now);
      var p := Prepare(e, op.spec, op.now);
      TakenRenews(p, p.imsiIndex[op.spec.imsi], op.spec);
    }
  }

  lemma TakenRenews(e: Engine, idx: nat, spec: SessionSpec)
    requires Ready(e, idx, spec) && Takes(e, BindTunnels(e, idx, spec))
    ensures !LeavesOld(e, idx, spec)
  {
    hide AssignSlot, BindTunnels, LeavesOld, Bound, Enrolled, IndicesOk;
    SlotsAfter(e, idx, spec);
    BindTunnelsKeeps(e, idx, spec);
    OwnTunnels(e, idx, spec);
  }

  lemma VastNotStale(e: Engine, op: Op)
    requires WF(e) && Vast(e.cfg)
    ensures !Stale(e, op)
  {
    hide Prepare, LeavesOld;
    if op.DoInstall? && Accepts(e, op.spec) {
      var p := Prepare(e, op.spec, op.now);
      VastRenews(p, p.imsiIndex[op.spec.imsi], op.spec);
    }
  }

  lemma VastRenews(e: Engine, idx: nat, spec: SessionSpec)
    requires WF(e) && idx < e.nextSub && Vast(e.cfg)
    ensures !LeavesOld(e, idx, spec)
  {
    hide AssignSlot, BindIfSet, IndicesOk;
    var slot := AssignSlot(e.info[idx], spec.ratingGroup).1;
    FewTeids(e.teids);
    FewTeids(BindIfSet(e, spec.ulTeid, Binding(idx, Uplink, slot)).teids);
  }

  /** Operation `j` is no install, or one with no binding refused. */
  ghost predicate TakenAt(e: Engine, ops: seq<Op>, j: nat)
    requires WF(e) && j < |ops|
  {
    ops[j].DoInstall? ==> Takes(Run(e, ops[..j]), Run(e, ops[..j + 1]))
  }

  /** Bucket honesty of every run in which no binding of an install is refused. */
  lemma TakenIsHonest(cfg: Config, ops: seq<Op>)
    requires AllChargeable(ops) && forall j :: 0 <= j < |ops| ==> TakenAt(Start(cfg), ops, j)
    ensures HonestRun(cfg, ops)
  {
    hide Start, Run, Stale, Step, TunnelsOk, WF;
    forall j | 0 <= j < |ops|
      ensures !StaleAt(Start(cfg), ops, j)
    {
      RunKeepsTunnels(cfg, ops[..j]);
      assert TakenAt(Start(cfg), ops, j);
      assert ops[..j + 1] == ops[..j] + [ops[j]];
      RunMore(Start(cfg), ops[..j], ops[j]);
      TakenNotStale(Run(Start(cfg), ops[..j]), ops[j]);
    }
    RenewedIsHonest(cfg, ops);
  }

  /** Every account is honest after the run. */
  ghost predicate HonestRun(cfg: Config, ops: seq<Op>) {
    var e := Run(Start(cfg), ops);
    forall i :: 0 <= i < |e.info| ==> HonestSub(e, i)
  }

  lemma RenewedIsHonest(cfg: Config, ops: seq<Op>)
    requires AllChargeable(ops) && Renewed(Start(cfg), ops)
    ensures HonestRun(cfg, ops)
  {
    hide Run, Start, HonestCounters, Renewed, IndicesOk;
    StartCfg(cfg);
    var e := Run(Start(cfg), ops);
    forall i | 0 <= i < |e.info|
      ensures HonestSub(e, i)
    {
      SlotsAreHonest(cfg, ops, i);
    }
  }

  // ---------------------------------------------------------------------------
  // Exactly when a run is honest
  // ---------------------------------------------------------------------------

  /** Every account is honest after the first `j` operations and whatever packet comes then. */
  ghost predicate HonestWith(cfg: Config, ops: seq<Op>, j: nat, ev: MeterEvent)
    requires j <= |ops|
  {
    HonestRun(cfg, ops[..j] + [DoPacket(ev)])
  }

  lemma {:induction false} FirstStale(e: Engine, ops: seq<Op>) returns (j: nat)
    requires WF(e) && !Renewed(e, ops)
    ensures j < |ops| && StaleAt(e, ops, j) && Renewed(e, ops[..j])
    decreases |ops|
  {
    hide Run, Stale, WF;
    assert ops != [];
    var n := |ops| - 1;
    RenewedMore(e, ops, n);
    if Renewed(e, ops[..n]) {
      j := n;
    } else {
      j := FirstStale(e, ops[..n]);
      assert ops[..n][..j] == ops[..j];
    }
  }

  lemma RenewedMore(e: Engine, ops: seq<Op>, n: nat)
    requires WF(e) && |ops| == n + 1
    ensures Renewed(e, ops[..n]) && !StaleAt(e, ops, n) ==> Renewed(e, ops)
  {
    hide Run, Stale, WF;
    if Renewed(e, ops[..n]) {
      forall j | 0 <= j < n
        ensures !StaleAt(e, ops, j)
      {
        assert ops[..n][..j] == ops[..j] && !StaleAt(e, ops[..n], j);
      }
    }
  }

  lemma PacketNeverStale(e: Engine, ops: seq<Op>, ev: MeterEvent)
    requires WF(e) && Renewed(e, ops)
    ensures Renewed(e, ops + [DoPacket(ev)])
  {
    hide Run, WF;
    var all := ops + [DoPacket(ev)];
    forall j | 0 <= j < |all|
      ensures !StaleAt(e, all, j)
    {
      if j < |ops| {
        assert all[..j] == ops[..j] && !StaleAt(e, ops, j);
      }
    }
  }

  /** A run ends in a lie right after its first stale install. */
  lemma LieAfter(cfg: Config, ops: seq<Op>, j: nat) returns (t: u32)
    requires AllChargeable(ops) && j < |ops| && StaleAt(Start(cfg), ops, j) && Renewed(Start(cfg), ops[..j])
    ensures !HonestWith(cfg, ops, j + 1, OneByte(t))
  {
    hide Run, Start, Apply, Renewed, HonestSub, BooksOk, BucketsOk, WF;
    assert AllChargeable(ops[..j]);
    var e := Run(Start(cfg), ops[..j]);
    RunKeepsBuckets(cfg, ops[..j]);
    RunKeepsBooks(cfg, ops[..j]);
    var spec, now := ops[j].spec, ops[j].now;
    assert ops[j] == DoInstall(spec, now) && Chargeable(ops[j]);
    var i: nat;
    t, i := StaleLies(e, spec, now);
    assert ops[..j + 1] == ops[..j] + [ops[j]];
    RunMore(Start(cfg), ops[..j], ops[j]);
    RunMore(Start(cfg), ops[..j + 1], DoPacket(OneByte(t)));
    hide Stale;
    StepOf(e, spec, now, t);
  }

  lemma StepOf(e: Engine, spec: SessionSpec, now: u64, t: u32)
    requires WF(e)
    ensures Step(e, DoInstall(spec, now)) == Install(e, spec, now)
    ensures Step(Install(e, spec, now), DoPacket(OneByte(t))) == Apply(Install(e, spec, now), OneByte(t))
  {
  }

  /** Bucket honesty, exactly: all accounts stay honest throughout a run, whatever packet comes next, if and
      only if no install of the run leaves a tunnel on the slot of an earlier rating group. */
  lemma HonestThroughoutIff(cfg: Config, ops: seq<Op>)
    requires AllChargeable(ops)
    ensures (forall j: nat, ev :: j <= |ops| ==> HonestWith(cfg, ops, j, ev)) <==> Renewed(Start(cfg), ops)
  {
    hide Run, Start, Renewed, HonestRun, StaleAt, WF;
    if Renewed(Start(cfg), ops) {
      forall j: nat, ev | j <= |ops|
        ensures HonestWith(cfg, ops, j, ev)
      {
        RenewedPrefix(Start(cfg), ops, j);
        PacketNeverStale(Start(cfg), ops[..j], ev);
        assert AllChargeable(ops[..j] + [DoPacket(ev)]);
        RenewedIsHonest(cfg, ops[..j] + [DoPacket(ev)]);
      }
    } else {
      var j := FirstStale(Start(cfg), ops);
      var t := LieAfter(cfg, ops, j);
      assert !HonestWith(cfg, ops, j + 1, OneByte(t));
    }
  }

  // ---------------------------------------------------------------------------
  // Exactly when every run is
  // ---------------------------------------------------------------------------

  /** The first of the sessions that fill the table, under another rating group. */
  const Relabelled := SessionSpec(1, 1, 2, 7)

  lemma RelabelPrepares(e: Engine)
    requires WF(e) && FirstIn(e)
    ensures Accepts(e, Relabelled)
    ensures var p := Prepare(e, Relabelled, 0);
            && p.imsiIndex[1] == 0 && p.teids == e.teids && p.cfg == e.cfg
            && p.info[0].ids == Slots(0, UNSET, UNSET)
  {
  }

  lemma RelabelIsStale(e: Engine, k: nat)
    requires Crowded(e, k) && k > 0 && e.cfg.teidCapacity <= 2 * k
    ensures Stale(e, DoInstall(Relabelled, 0))
  {
    hide Prepare, Bound, Enrolled, UpTo, IndicesOk, BindIfSet;
    RelabelPrepares(e);
    KeyCount(e.teids, e.cfg.teidCapacity);
  }

  lemma {:induction false} InstallsChargeable(k: nat)
    requires 2 * k < TWO32
    ensures AllChargeable(Installs(k))
  {
    if k > 0 {
      InstallsChargeable(k - 1);
    }
  }

  lemma CanLie(cfg: Config)
    requires 0 < cfg.teidCapacity < EMPTY && !Roomy(cfg)
    ensures exists ops :: AllChargeable(ops) && !HonestRun(cfg, ops)
  {
    hide Crowded, Run, Start, WF, Stale, Renewed, Installs, HonestRun;
    StartCfg(cfg);
    var k := (cfg.teidCapacity + 1) / 2;
    CrowdAll(cfg, k);
    InstallsChargeable(k);
    var ops := Installs(k) + [DoInstall(Relabelled, 0)];
    assert ops[..|Installs(k)|] == Installs(k);
    RelabelIsStale(Run(Start(cfg), Installs(k)), k);
    assert StaleAt(Start(cfg), ops, |Installs(k)|);
    var lie := LieSomewhere(cfg, ops, |Installs(k)|);
  }

  lemma LieSomewhere(cfg: Config, ops: seq<Op>, i: nat) returns (lie: seq<Op>)
    requires AllChargeable(ops) && i < |ops| && StaleAt(Start(cfg), ops, i)
    ensures AllChargeable(lie) && !HonestRun(cfg, lie)
  {
    hide Run, Start, Stale, HonestRun, WF;
    assert !Renewed(Start(cfg), ops);
    var j := FirstStale(Start(cfg), ops);
    hide StaleAt, Renewed;
    var t := LieAfter(cfg, ops, j);
    lie := ops[..j + 1] + [DoPacket(OneByte(t))];
  }

  lemma SpareIsHonest(cfg: Config, ops: seq<Op>)
    requires (Roomy(cfg) || Vast(cfg)) && AllChargeable(ops)
    ensures HonestRun(cfg, ops)
  {
    hide Run, Start, Stale, Step, TunnelsOk, WF, HonestRun;
    StartCfg(cfg);
    forall j | 0 <= j < |ops|
      ensures !StaleAt(Start(cfg), ops, j)
    {
      var e := Run(Start(cfg), ops[..j]);
      if Roomy(cfg) {
        RunKeepsTunnels(cfg, ops[..j]);
        RoomyTakes(e, ops[j]);
        TakenNotStale(e, ops[j]);
      } else {
        VastNotStale(e, ops[j]);
      }
    }
    RenewedIsHonest(cfg, ops);
  }

  lemma RoomyTakes(e: Engine, op: Op)
    requires TunnelsOk(e) && Roomy(e.cfg)
    ensures op.DoInstall? ==> Takes(e, Step(e, op))
  {
    hide Install, Bound, Enrolled;
    if op.DoInstall? {
      InstallKeeps(e, op.spec, op.now);
    }
  }

  /** Every run with proper rating groups is honest if and only if the table has more than two slots per
      subscriber, or more slots than there are TEIDs. */
  lemma AlwaysHonestIff(cfg: Config)
    requires 0 < cfg.teidCapacity != EMPTY
    ensures (forall ops :: AllChargeable(ops) ==> HonestRun(cfg, ops)) <==> Roomy(cfg) || Vast(cfg)
  {
    hide HonestRun, AllChargeable;
    if Roomy(cfg) || Vast(cfg) {
      forall ops | AllChargeable(ops) ensures HonestRun(cfg, ops) {
        SpareIsHonest(cfg, ops);
      }
    } else {
      CanLie(cfg);
    }
  }
}

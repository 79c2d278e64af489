/** Totals of the whole engine: every event and every byte is in one class, and the bytes of the two
    charged classes are those of all activations together. */
module Totals {
  import opened Words
  import opened Usage
  import opened Meter
  import opened Tunnels
  import opened Billing
  import Ledger

  // ---------------------------------------------------------------------------
  // Every event is counted once
  // ---------------------------------------------------------------------------

  /** Each event was uplink, downlink, control or of an unknown tunnel. */
  predicate Sorted(s: Stats) {
    s.events == s.ulPackets + s.dlPackets + s.controlPdus + s.unknownEvents
  }

  predicate SameSorting(s: Stats, t: Stats) {
    && s.events == t.events && s.ulPackets == t.ulPackets && s.dlPackets == t.dlPackets
    && s.controlPdus == t.controlPdus && s.unknownEvents == t.unknownEvents
    && s.bytes == t.bytes && s.ulBytes == t.ulBytes && s.dlBytes == t.dlBytes && s.unknownBytes == t.unknownBytes
  }

  lemma BindSorting(e: Engine, teid: u32, b: Binding)
    requires WF(e) && b.sub < e.nextSub
    ensures SameSorting(BindIfSet(e, teid, b).stats, e.stats)
  {
  }

  lemma BindTunnelsSorting(e: Engine, idx: nat, spec: SessionSpec)
    requires WF(e) && idx < e.nextSub
    ensures SameSorting(BindTunnels(e, idx, spec).stats, e.stats)
  {
    hide BindIfSet, AssignSlot;
    var (info, slot) := AssignSlot(e.info[idx], spec.ratingGroup);
    var e' := e.(info := e.info[idx := info]);
    BindSorting(e', spec.ulTeid, Binding(idx, Uplink, slot));
    BindSorting(BindIfSet(e', spec.ulTeid, Binding(idx, Uplink, slot)), spec.dlTeid, Binding(idx, Downlink, slot));
  }

  lemma PrepareSorting(e: Engine, spec: SessionSpec, now: u64)
    requires WF(e) && Accepts(e, spec)
    ensures SameSorting(Prepare(e, spec, now).stats, e.stats)
  {
    hide Open;
    var e1 := Register(e, spec.imsi);
    OpenSorting(e1, e1.imsiIndex[spec.imsi], spec, now);
  }

  lemma OpenSorting(e: Engine, idx: nat, spec: SessionSpec, now: u64)
    requires WF(e) && idx < e.nextSub
    ensures Open(e, idx, spec, now).stats == e.stats
  {
  }

  lemma InstallSorting(e: Engine, spec: SessionSpec, now: u64)
    requires WF(e)
    ensures SameSorting(Install(e, spec, now).stats, e.stats)
  {
    hide Prepare, BindTunnels;
    if Accepts(e, spec) {
      PrepareSorting(e, spec, now);
      var p := Prepare(e, spec, now);
      BindTunnelsSorting(p, p.imsiIndex[spec.imsi], spec);
    }
  }

  lemma ReleaseSorting(e: Engine, imsi: u64, now: u64)
    requires WF(e)
    ensures SameSorting(ReleaseSession(e, imsi, now).stats, e.stats)
  {
    hide Emit;
    if Releasable(e, imsi) {
      EmitReports(e, e.imsiIndex[imsi], Release, now);
    }
  }

  lemma PacketSorting(e: Engine, ev: MeterEvent)
    requires WF(e) && Sorted(e.stats)
    ensures Sorted(Apply(e, ev).stats)
  {
    hide WF;
  }

  /** All operations but packets leave the totals alone. */
  lemma StepSameTotals(e: Engine, op: Op)
    requires WF(e) && !op.DoPacket?
    ensures SameSorting(Step(e, op).stats, e.stats)
  {
    hide ReleaseSession, Sweep, DrainUpTo, Install;
    match op
    case DoInstall(spec, now) => InstallSorting(e, spec, now);
    case DoRelease(imsi, now) => ReleaseSorting(e, imsi, now);
    case DoGy(_) =>
    case DoPoll(now) =>
      if e.nextSub > 0 {
        SweepReports(e.(lastSweep := now), Chunk(e.nextSub, e.cfg.sweepFraction), now);
      }
    case DoDrain(now) => DrainReports(e, e.nextSub, now);
  }

  lemma StepSorting(e: Engine, op: Op)
    requires WF(e) && Sorted(e.stats)
    ensures Sorted(Step(e, op).stats)
  {
    hide Apply, ReleaseSession, Poll, Drain, Install, ApplyGy;
    if op.DoPacket? {
      PacketSorting(e, op.ev);
    } else {
      StepSameTotals(e, op);
    }
  }

  /** In every run each event is counted in exactly one of the four classes. */
  lemma {:induction false} EventsSorted(cfg: Config, ops: seq<Op>)
    ensures Sorted(Run(Start(cfg), ops).stats)
  {
    hide Step, WF;
    if ops != [] {
      EventsSorted(cfg, ops[..|ops| - 1]);
      StepSorting(Run(Start(cfg), ops[..|ops| - 1]), ops[|ops| - 1]);
    }
  }

  // ---------------------------------------------------------------------------
  // So is every byte
  // ---------------------------------------------------------------------------

  /** The bytes of all packets among the operations. */
  function EventBytes(ops: seq<Op>): nat {
    if ops == [] then 0
    else
      var n := |ops| - 1;
      EventBytes(ops[..n]) + if ops[n].DoPacket? then ops[n].ev.bytes as int else 0
  }

  /** Those of control messages. */
  function ControlBytes(ops: seq<Op>): nat {
    if ops == [] then 0
    else
      var n := |ops| - 1;
      ControlBytes(ops[..n]) + if ops[n].DoPacket? && ops[n].ev.control then ops[n].ev.bytes as int else 0
  }

  lemma BytesMore(ops: seq<Op>, op: Op)
    ensures EventBytes(ops + [op]) == EventBytes(ops) + if op.DoPacket? then op.ev.bytes as int else 0
    ensures ControlBytes(ops + [op]) == ControlBytes(ops) + if op.DoPacket? && op.ev.control then op.ev.bytes as int else 0
  {
    assert (ops + [op])[..|ops|] == ops;
  }

  predicate BytesIn(s: Stats, all: nat, control: nat) {
    s.bytes == all == s.ulBytes + s.dlBytes + s.unknownBytes + control
  }

  lemma PacketBytesSorted(e: Engine, ev: MeterEvent, all: nat, control: nat)
    requires WF(e) && BytesIn(e.stats, all, control)
    ensures BytesIn(Apply(e, ev).stats, all + ev.bytes, control + if ev.control then ev.bytes as int else 0)
  {
    hide WF;
  }

  /** In every run each byte is counted once, as uplink, downlink, control or of an unknown tunnel. */
  lemma {:induction false} BytesSorted(cfg: Config, ops: seq<Op>)
    ensures BytesIn(Run(Start(cfg), ops).stats, EventBytes(ops), ControlBytes(ops))
  {
    hide Step, WF;
    if ops != [] {
      var n := |ops| - 1;
      BytesSorted(cfg, ops[..n]);
      var e := Run(Start(cfg), ops[..n]);
      if ops[n].DoPacket? {
        StepOfPacket(e, ops[n]);
        PacketBytesSorted(e, ops[n].ev, EventBytes(ops[..n]), ControlBytes(ops[..n]));
      } else {
        StepSameTotals(e, ops[n]);
      }
    }
  }

  lemma StepOfPacket(e: Engine, op: Op)
    requires WF(e) && op.DoPacket?
    ensures Step(e, op) == Apply(e, op.ev)
  {
  }

  // ---------------------------------------------------------------------------
  // The other counters
  // ---------------------------------------------------------------------------

  /** What the counters should be, counted from the operations alone and from which identities were known and
      active when they were made. */
  datatype Tallies = Tallies(control: nat, gyEvents: nat, gyOctets: nat, released: nat, lastEvent: u64)

  ghost function Tallied(e: Engine, t: Tallies, op: Op): Tallies
    requires WF(e)
  {
    match op
    case DoInstall(_, _) => t
    case DoRelease(imsi, _) =>
      if imsi in e.imsiIndex && e.info[e.imsiIndex[imsi]].active then t.(released := t.released + 1) else t
    case DoPacket(ev) => t.(control := t.control + (if ev.control then 1 else 0), lastEvent := ev.ts)
    case DoGy(gy) =>
      var known := gy.hasImsi && gy.hasUsed && gy.imsi in e.imsiIndex;
      t.(gyEvents := t.gyEvents + 1, gyOctets := t.gyOctets + (if known then gy.usedTotal as int else 0))
    case DoPoll(_) => t
    case DoDrain(_) => t
  }

  ghost function TalliesOf(cfg: Config, ops: seq<Op>): Tallies {
    if ops == [] then Tallies(0, 0, 0, 0, 0)
    else Tallied(Run(Start(cfg), ops[..|ops| - 1]), TalliesOf(cfg, ops[..|ops| - 1]), ops[|ops| - 1])
  }

  ghost predicate Shown(e: Engine, t: Tallies) {
    && e.stats.controlPdus == t.control && e.stats.gyEvents == t.gyEvents && e.stats.gyOctets == t.gyOctets
    && e.stats.released == t.released && e.stats.lastEvent == t.lastEvent
    && e.stats.installed == |e.imsiIndex| && e.nextSub == e.stats.installed + e.stats.learned
  }

  /** Nothing that is shown changes. */
  ghost predicate SameShown(e: Engine, r: Engine) {
    && r.stats.controlPdus == e.stats.controlPdus && r.stats.gyEvents == e.stats.gyEvents && r.stats.gyOctets == e.stats.gyOctets
    && r.stats.released == e.stats.released && r.stats.lastEvent == e.stats.lastEvent
    && r.stats.installed == e.stats.installed && r.stats.learned == e.stats.learned
    && r.imsiIndex == e.imsiIndex && r.nextSub == e.nextSub
  }

  lemma BindShown(e: Engine, idx: nat, spec: SessionSpec)
    requires WF(e) && idx < e.nextSub
    ensures SameShown(e, BindTunnels(e, idx, spec))
  {
    hide AssignSlot, IndicesOk, BindIfSet;
    var (info, slot) := AssignSlot(e.info[idx], spec.ratingGroup);
    var e1 := e.(info := e.info[idx := info]);
    var ul, dl := Binding(idx, Uplink, slot), Binding(idx, Downlink, slot);
    BindOneShown(e1, spec.ulTeid, ul);
    BindOneShown(BindIfSet(e1, spec.ulTeid, ul), spec.dlTeid, dl);
  }

  lemma BindOneShown(e: Engine, teid: u32, b: Binding)
    requires WF(e) && b.sub < e.nextSub
    ensures SameShown(e, BindIfSet(e, teid, b))
  {
    hide IndicesOk;
  }

  lemma PrepareShown(e: Engine, spec: SessionSpec, now: u64, t: Tallies)
    requires WF(e) && Accepts(e, spec) && Shown(e, t)
    ensures Shown(Prepare(e, spec, now), t)
  {
    hide IndicesOk, Open;
    var e1 := Register(e, spec.imsi);
    RegisterShown(e, spec, t);
    OpenShown(e1, e1.imsiIndex[spec.imsi], spec, now);
  }

  lemma RegisterShown(e: Engine, spec: SessionSpec, t: Tallies)
    requires WF(e) && Accepts(e, spec) && Shown(e, t)
    ensures Shown(Register(e, spec.imsi), t) && Register(e, spec.imsi).imsiIndex[spec.imsi] < Register(e, spec.imsi).nextSub
  {
    if spec.imsi !in e.imsiIndex {
      assert e.imsiIndex[spec.imsi := e.nextSub].Keys == e.imsiIndex.Keys + {spec.imsi};
    }
  }

  lemma OpenShown(e: Engine, idx: nat, spec: SessionSpec, now: u64)
    requires WF(e) && idx < e.nextSub
    ensures SameShown(e, Open(e, idx, spec, now))
  {
    hide IndicesOk;
  }

  lemma InstallShown(e: Engine, spec: SessionSpec, now: u64, t: Tallies)
    requires WF(e) && Shown(e, t)
    ensures Shown(Install(e, spec, now), t)
  {
    hide Prepare, BindTunnels;
    if Accepts(e, spec) {
      PrepareShown(e, spec, now, t);
      var p := Prepare(e, spec, now);
      BindShown(p, p.imsiIndex[spec.imsi], spec);
    }
  }

  lemma PacketShown(e: Engine, ev: MeterEvent, t: Tallies)
    requires WF(e) && Shown(e, t)
    ensures Shown(Apply(e, ev), Tallied(e, t, DoPacket(ev)))
  {
    hide IndicesOk, LookUp, ChargePacket;
    var e1 := CountEvent(e, ev);
    LookUpShown(e1, ev);
    var e2 := LookUp(e1, ev);
    if ev.teid in e2.teids {
      Ledger.SubInRange(e2, ev.teid);
      ChargeShown(e2, ev, e2.teids[ev.teid]);
    }
  }

  lemma LookUpShown(e: Engine, ev: MeterEvent)
    requires WF(e)
    ensures var r := LookUp(e, ev);
            && SameShown(e, r.(nextSub := e.nextSub, stats := r.stats.(learned := e.stats.learned)))
            && r.nextSub - r.stats.learned == e.nextSub - e.stats.learned
  {
    hide IndicesOk, LearnedInfo;
  }

  lemma ChargeShown(e: Engine, ev: MeterEvent, b: Binding)
    requires b.sub < |e.info| == |e.counters| == |e.acts| == |e.origins|
    ensures SameShown(e, ChargePacket(e, ev, b))
  {
    hide ResolveSlot, Wrap, Plus, Packet;
  }

  lemma ReleaseShown(e: Engine, imsi: u64, now: u64, t: Tallies)
    requires WF(e) && Shown(e, t)
    ensures Shown(ReleaseSession(e, imsi, now), Tallied(e, t, DoRelease(imsi, now)))
  {
    hide Emit;
    if Releasable(e, imsi) {
      EmitReports(e, e.imsiIndex[imsi], Release, now);
    }
  }

  lemma StepShown(e: Engine, op: Op, t: Tallies)
    requires WF(e) && Shown(e, t)
    ensures Shown(Step(e, op), Tallied(e, t, op))
  {
    hide Install, ReleaseSession, Apply, Sweep, DrainUpTo;
    match op
    case DoInstall(spec, now) => InstallShown(e, spec, now, t);
    case DoRelease(imsi, now) => ReleaseShown(e, imsi, now, t);
    case DoPacket(ev) => PacketShown(e, ev, t);
    case DoGy(_) =>
    case DoPoll(now) =>
      if e.nextSub > 0 {
        SweepReports(e.(lastSweep := now), Chunk(e.nextSub, e.cfg.sweepFraction), now);
      }
    case DoDrain(now) => DrainReports(e, e.nextSub, now);
  }

  /** In every run the counters for control messages, charging events and octets, releases, and installed and
      learned subscribers are those of the operations. */
  lemma {:induction false} CountersAreRight(cfg: Config, ops: seq<Op>)
    ensures Shown(Run(Start(cfg), ops), TalliesOf(cfg, ops))
  {
    hide Step, WF, Tallied;
    if ops != [] {
      CountersAreRight(cfg, ops[..|ops| - 1]);
      hide Shown;
      StepShown(Run(Start(cfg), ops[..|ops| - 1]), ops[|ops| - 1], TalliesOf(cfg, ops[..|ops| - 1]));
    }
  }

  // ---------------------------------------------------------------------------
  // The charged bytes are those of all activations
  // ---------------------------------------------------------------------------

  /** Everything charged in some activations. */
  ghost function Sum(histories: seq<seq<Act>>): Tally {
    if histories == [] then Zero
    else Plus(Sum(histories[..|histories| - 1]), Charged(histories[|histories| - 1]))
  }

  /** Everything charged in all activations, current and ended. */
  ghost function AllCharged(e: Engine): Tally {
    Plus(Sum(e.acts), Sum(e.closed))
  }

  lemma SumAppend(hs: seq<seq<Act>>, h: seq<Act>)
    ensures Sum(hs + [h]) == Plus(Sum(hs), Charged(h))
  {
    assert (hs + [h])[..|hs|] == hs;
  }

  lemma {:induction false} SumUpdate(hs: seq<seq<Act>>, i: nat, h: seq<Act>)
    requires i < |hs|
    ensures Plus(Sum(hs[i := h]), Charged(hs[i])) == Plus(Sum(hs), Charged(h))
    decreases |hs|
  {
    hide Charged, Plus;
    var n := |hs| - 1;
    if i == n {
      assert hs[i := h][..n] == hs[..n];
    } else {
      assert hs[i := h][..n] == hs[..n][i := h] && hs[i := h][n] == hs[n] && hs[..n][i] == hs[i];
      SumUpdate(hs[..n], i, h);
    }
    PlusTurn(Sum(hs[..n]), Charged(h), Charged(hs[i]));
    PlusSwap(Sum(hs[i := h][..n]), Charged(hs[i]), Sum(hs[..n]), Charged(h), Charged(hs[n]));
  }

  lemma PlusSwap(a: Tally, x: Tally, b: Tally, y: Tally, c: Tally)
    ensures Plus(a, x) == Plus(b, y) ==> Plus(Plus(a, c), x) == Plus(Plus(b, c), y)
  {
  }

  lemma PlusTurn(a: Tally, x: Tally, y: Tally)
    ensures Plus(Plus(a, x), y) == Plus(Plus(a, y), x)
  {
  }

  lemma {:induction false} SumOfNone(hs: seq<seq<Act>>)
    requires forall i :: 0 <= i < |hs| ==> hs[i] == []
    ensures Sum(hs) == Zero
    decreases |hs|
  {
    hide Charged, Plus;
    if hs != [] {
      SumOfNone(hs[..|hs| - 1]);
      NothingCharged();
      PlusNothing(Zero);
    }
  }

  lemma PlusNothing(a: Tally)
    ensures Plus(a, Zero) == a
  {
  }

  lemma NothingCharged()
    ensures Charged([]) == Zero
  {
  }

  /** The engine's own totals, per direction. */
  ghost predicate Agrees(s: Stats, t: Tally) {
    t.ulBytes == s.ulBytes && t.dlBytes == s.dlBytes && t.ulPackets == s.ulPackets && t.dlPackets == s.dlPackets
  }

  lemma EmitTotals(e: Engine, idx: nat, reason: Reason, now: u64)
    requires idx < |e.info| == |e.counters| == |e.acts|
    ensures AllCharged(Emit(e, idx, reason, now)) == AllCharged(e)
  {
    hide RecordOf, Records, Sum, Charged;
    var r := RecordOf(e, idx, reason, now);
    AppendReport(e.acts[idx], r);
    SumUpdate(e.acts, idx, e.acts[idx] + [Report(r)]);
    assert Emit(e, idx, reason, now).acts == e.acts[idx := e.acts[idx] + [Report(r)]];
  }

  lemma {:induction false} SweepTotals(e: Engine, n: nat, now: u64)
    requires WF(e) && e.nextSub > 0
    ensures AllCharged(Sweep(e, n, now)) == AllCharged(e)
  {
    hide Emit, Due, IndicesOk, Sum, Plus;
    if n > 0 {
      SweepTotals(e, n - 1, now);
      var r := Sweep(e, n - 1, now);
      var r' := r.(cursor := Visited(r) + 1);
      if Due(r', Visited(r), now).Some? {
        EmitTotals(r', Visited(r), Due(r', Visited(r), now).value, now);
      }
    }
  }

  lemma {:induction false} DrainTotals(e: Engine, n: nat, now: u64)
    requires WF(e) && n <= e.nextSub
    ensures AllCharged(DrainUpTo(e, n, now)) == AllCharged(e)
  {
    hide Emit, IndicesOk, Unreported, Sum, Plus;
    if n > 0 {
      DrainTotals(e, n - 1, now);
      EmitTotals(DrainUpTo(e, n - 1, now), n - 1, Shutdown, now);
    }
  }

  /** A session that starts afresh moves the history of the one before it. */
  lemma OpenTotals(e: Engine, idx: nat, spec: SessionSpec, now: u64)
    requires WF(e) && idx < e.nextSub
    ensures AllCharged(Open(e, idx, spec, now)) == AllCharged(e)
  {
    hide Sum, IndicesOk, Charged, Plus;
    NothingCharged();
    if !e.info[idx].active {
      SumUpdate(e.acts, idx, []);
      SumAppend(e.closed, e.acts[idx]);
      MoveOver(Sum(e.acts[idx := []]), Charged(e.acts[idx]), Sum(e.acts), Sum(e.closed));
    }
  }

  lemma MoveOver(a': Tally, x: Tally, a: Tally, c: Tally)
    requires Plus(a', x) == Plus(a, Zero)
    ensures Plus(a', Plus(c, x)) == Plus(a, c)
  {
  }

  lemma InstallTotals(e: Engine, spec: SessionSpec, now: u64)
    requires WF(e)
    ensures AllCharged(Install(e, spec, now)) == AllCharged(e)
  {
    hide Prepare, BindTunnels, Sum, Plus;
    if Accepts(e, spec) {
      PrepareTotals(e, spec, now);
      var p := Prepare(e, spec, now);
      Ledger.BindTunnelsFiles(p, p.imsiIndex[spec.imsi], spec);
    }
  }

  lemma PrepareTotals(e: Engine, spec: SessionSpec, now: u64)
    requires WF(e) && Accepts(e, spec)
    ensures AllCharged(Prepare(e, spec, now)) == AllCharged(e)
  {
    hide Open, Sum, Plus;
    var e1 := Register(e, spec.imsi);
    OpenTotals(e1, e1.imsiIndex[spec.imsi], spec, now);
  }

  lemma ReleaseTotals(e: Engine, imsi: u64, now: u64)
    requires WF(e)
    ensures AllCharged(ReleaseSession(e, imsi, now)) == AllCharged(e)
  {
    hide Emit, Sum, Plus;
    if Releasable(e, imsi) {
      EmitTotals(e, e.imsiIndex[imsi], Release, now);
    }
  }

  /** A charged packet is added to one history and to the totals of its direction. */
  lemma ChargeTotals(e: Engine, ev: MeterEvent, b: Binding)
    requires b.sub < |e.info| == |e.counters| == |e.acts| == |e.origins| && Agrees(e.stats, AllCharged(e))
    ensures var r := ChargePacket(e, ev, b);
            Agrees(r.stats, AllCharged(r))
  {
    hide Sum, Charged, Records, ResolveSlot, IsDown, BucketOf, Wrap;
    var r := ChargePacket(e, ev, b);
    var a := r.acts[b.sub][|e.acts[b.sub]|];
    AppendCharge(e.acts[b.sub], a);
    SumUpdate(e.acts, b.sub, r.acts[b.sub]);
    assert r.acts == e.acts[b.sub := r.acts[b.sub]];
  }

  lemma PacketTotals(e: Engine, ev: MeterEvent)
    requires TunnelsOk(e) && Agrees(e.stats, AllCharged(e))
    ensures Agrees(Apply(e, ev).stats, AllCharged(Apply(e, ev)))
  {
    hide ChargePacket, Bound, Enrolled, IndicesOk, Sum, Plus, LookUp;
    var e1 := CountEvent(e, ev);
    CountKeeps(e, e1);
    LookUpFrame(e1, ev);
    LookUpTotals(e1, ev);
    var e2 := LookUp(e1, ev);
    if ev.teid in e2.teids {
      Ledger.SubInRange(e2, ev.teid);
      ChargeTotals(e2, ev, e2.teids[ev.teid]);
    }
  }

  lemma LookUpTotals(e: Engine, ev: MeterEvent)
    requires WF(e)
    ensures SameSorting(LookUp(e, ev).stats, e.stats) && LookUp(e, ev).closed == e.closed
  {
    hide IndicesOk, LearnedInfo;
  }

  lemma StepTotals(e: Engine, op: Op)
    requires TunnelsOk(e) && Agrees(e.stats, AllCharged(e))
    ensures Agrees(Step(e, op).stats, AllCharged(Step(e, op)))
  {
    hide Apply, ReleaseSession, Sweep, DrainUpTo, Install, Bound, Enrolled, IndicesOk, Sum, Plus;
    if op.DoPacket? {
      PacketTotals(e, op.ev);
    } else {
      StepSameTotals(e, op);
      match op
      case DoInstall(spec, now) => InstallTotals(e, spec, now);
      case DoRelease(imsi, now) => ReleaseTotals(e, imsi, now);
      case DoGy(gy) =>
      case DoPoll(now) =>
        if e.nextSub > 0 {
          SweepTotals(e.(lastSweep := now), Chunk(e.nextSub, e.cfg.sweepFraction), now);
        }
      case DoDrain(now) => DrainTotals(e, e.nextSub, now);
    }
  }

  /** In every run the charges of all activations, current and ended, add up to the bytes and packets the
      engine counted in each direction. */
  lemma {:induction false} ChargesAddUp(cfg: Config, ops: seq<Op>)
    ensures Agrees(Run(Start(cfg), ops).stats, AllCharged(Run(Start(cfg), ops)))
  {
    hide Step, Sum, TunnelsOk, Plus;
    if ops == [] {
      SumOfNone(Start(cfg).acts);
      SumOfNone(Start(cfg).closed);
      PlusNothing(Zero);
    } else {
      ChargesAddUp(cfg, ops[..|ops| - 1]);
      RunKeepsTunnels(cfg, ops[..|ops| - 1]);
      hide Agrees, AllCharged, Start;
      StepTotals(Run(Start(cfg), ops[..|ops| - 1]), ops[|ops| - 1]);
    }
  }

  // ---------------------------------------------------------------------------
  // They are in the records, or pending
  // ---------------------------------------------------------------------------

  /** The records of some activations, one activation after the other. */
  ghost function AllRecords(histories: seq<seq<Act>>): seq<UsageRecord> {
    if histories == [] then []
    else AllRecords(histories[..|histories| - 1]) + Records(histories[|histories| - 1])
  }

  lemma {:induction false} AllInBag(hs: seq<seq<Act>>)
    ensures multiset(AllRecords(hs)) == Ledger.Bag(hs)
    decreases |hs|
  {
    hide Records;
    if hs != [] {
      AllInBag(hs[..|hs| - 1]);
    }
  }

  lemma {:induction false} TotalConcat(a: seq<UsageRecord>, b: seq<UsageRecord>)
    ensures Total(a + b) == Plus(Total(a), Total(b))
  {
    hide Plus;
    if b == [] {
      assert a + b == a;
      PlusNothing(Total(a));
    } else {
      var n := |b| - 1;
      TotalConcat(a, b[..n]);
      assert (a + b)[..|a| + n] == a + b[..n];
      PlusAssoc(Total(a), Total(b[..n]), b[n].usage);
    }
  }

  lemma PlusAssoc(a: Tally, b: Tally, c: Tally)
    ensures Plus(Plus(a, b), c) == Plus(a, Plus(b, c))
  {
  }

  /** The order of records does not matter for their total. */
  lemma {:induction false} TotalOfBag(a: seq<UsageRecord>, b: seq<UsageRecord>)
    requires multiset(a) == multiset(b)
    ensures Total(a) == Total(b)
    decreases |a|
  {
    hide Plus;
    if a == [] {
      assert |multiset(b)| == 0;
    } else {
      var n := |a| - 1;
      var r := a[n];
      assert a == a[..n] + [r] && r in multiset(b);
      var i :| 0 <= i < |b| && b[i] == r;
      var rest := b[..i] + b[i + 1..];
      WithoutOne(b, i);
      Ledger.Cancel(multiset(a[..n]), multiset(rest), multiset{r});
      TotalOfBag(a[..n], rest);
      TakeOut(b, i);
    }
  }

  lemma WithoutOne(b: seq<UsageRecord>, i: nat)
    requires i < |b|
    ensures multiset(b) == multiset(b[..i] + b[i + 1..]) + multiset{b[i]}
  {
    assert b == b[..i] + [b[i]] + b[i + 1..];
  }

  lemma TakeOut(b: seq<UsageRecord>, i: nat)
    requires i < |b|
    ensures Total(b) == Plus(Total(b[..i] + b[i + 1..]), b[i].usage)
  {
    hide Plus;
    var x, y := b[..i], b[i + 1..];
    var z := b[..i + 1];
    assert b == z + y && z[..i] == x && z[i] == b[i];
    assert Total(z) == Plus(Total(x), b[i].usage);
    hide Total;
    TotalConcat(z, y);
    TotalConcat(x, y);
    PlusTurn(Total(x), Total(y), b[i].usage);
  }

  /** What no record covers yet, of the first `n` subscribers. */
  ghost function PendingOf(counters: seq<Counters>, info: seq<Info>, n: nat): Tally
    requires n <= |counters| && n <= |info|
  {
    if n == 0 then Zero
    else Plus(PendingOf(counters, info, n - 1), Delta(counters[n - 1].tally, info[n - 1].emitted))
  }

  /** `paid` is `due` modulo 2^64, and exactly so if `exact`. */
  ghost predicate Pays(paid: Tally, due: Tally, exact: bool) {
    Wrap(paid) == Wrap(due) && (exact ==> paid == due)
  }

  lemma PaysPlus(a: Tally, b: Tally, c: Tally, d: Tally, x: bool, y: bool)
    requires Pays(a, b, x) && Pays(c, d, y)
    ensures Pays(Plus(a, c), Plus(b, d), x && y)
  {
    SameRest(a.ulBytes, b.ulBytes, c.ulBytes, d.ulBytes);
    SameRest(a.dlBytes, b.dlBytes, c.dlBytes, d.dlBytes);
    SameRest(a.ulPackets, b.ulPackets, c.ulPackets, d.ulPackets);
    SameRest(a.dlPackets, b.dlPackets, c.dlPackets, d.dlPackets);
    SameRest(a.b0, b.b0, c.b0, d.b0);
    SameRest(a.b1, b.b1, c.b1, d.b1);
    SameRest(a.b2, b.b2, c.b2, d.b2);
  }

  lemma SameRest(a: nat, b: nat, c: nat, d: nat)
    requires a % TWO64 == b % TWO64 && c % TWO64 == d % TWO64
    ensures (a + c) % TWO64 == (b + d) % TWO64
  {
    WrapAdd(a, c);
    WrapAdd(b, c);
    WrapAdd(c, b);
    WrapAdd(d, b);
  }

  /** The charges of all these activations fit 64 bits. */
  ghost predicate AllFit(histories: seq<seq<Act>>) {
    forall i :: 0 <= i < |histories| ==> IsWord(Charged(histories[i]))
  }

  lemma {:induction false} ClosedPaid(hs: seq<seq<Act>>)
    requires forall k :: 0 <= k < |hs| ==> Settled(hs[k])
    ensures Pays(Total(AllRecords(hs)), Sum(hs), AllFit(hs))
    decreases |hs|
  {
    hide Records, Charged, Plus, Wrap, IsWord, Total, Gapless;
    if hs == [] {
      NothingTotal();
    } else {
      var n := |hs| - 1;
      ClosedPaid(hs[..n]);
      TotalConcat(AllRecords(hs[..n]), Records(hs[n]));
      assert Settled(hs[n]);
      PaysPlus(Total(AllRecords(hs[..n])), Sum(hs[..n]), Total(Records(hs[n])), Charged(hs[n]),
               AllFit(hs[..n]), IsWord(Charged(hs[n])));
    }
  }

  lemma NothingTotal()
    ensures Total([]) == Zero
  {
  }

  lemma {:induction false} CurrentPaid(e: Engine, n: nat)
    requires WF(e) && n <= |e.acts|
    requires forall i :: 0 <= i < |e.acts| ==> AddsUp(e.counters[i].tally, e.info[i].emitted, e.acts[i])
    ensures Pays(Plus(Total(AllRecords(e.acts[..n])), PendingOf(e.counters, e.info, n)), Sum(e.acts[..n]), AllFit(e.acts[..n]))
  {
    hide Records, Charged, Plus, Wrap, IsWord, Total, Gapless, Delta, SlotsCover, IndicesOk;
    if n == 0 {
      NothingTotal();
      PlusNothing(Zero);
    } else {
      var hs := e.acts[..n];
      CurrentPaid(e, n - 1);
      assert hs[..n - 1] == e.acts[..n - 1];
      var h, d := hs[n - 1], Delta(e.counters[n - 1].tally, e.info[n - 1].emitted);
      assert AddsUp(e.counters[n - 1].tally, e.info[n - 1].emitted, h);
      TotalConcat(AllRecords(hs[..n - 1]), Records(h));
      PaysPlus(Plus(Total(AllRecords(hs[..n - 1])), PendingOf(e.counters, e.info, n - 1)), Sum(hs[..n - 1]),
               Plus(Total(Records(h)), d), Charged(h), AllFit(hs[..n - 1]), IsWord(Charged(h)));
      PlusExchange(Total(AllRecords(hs[..n - 1])), PendingOf(e.counters, e.info, n - 1), Total(Records(h)), d);
    }
  }

  lemma PlusExchange(a: Tally, b: Tally, c: Tally, d: Tally)
    ensures Plus(Plus(a, b), Plus(c, d)) == Plus(Plus(a, c), Plus(b, d))
  {
  }

  /** Byte conservation over every run: all records, taken or refused by the ring, together with what is
      pending, are all that was charged, in each direction and slot, modulo 2^64 and exactly while the
      charges of each activation fit 64 bits. */
  lemma RecordsCoverCharges(cfg: Config, ops: seq<Op>)
    ensures var e := Run(Start(cfg), ops);
            Pays(Plus(Total(e.sent + e.refused), PendingOf(e.counters, e.info, |e.info|)), AllCharged(e),
                 AllFit(e.acts) && AllFit(e.closed))
  {
    hide Run, Start, Plus, Total, Sum, AllRecords, Ledger.Bag, AllFit, PendingOf, AddsUp, Settled, Pays, IndicesOk;
    var e := Run(Start(cfg), ops);
    var n := |e.info|;
    EachAddsUp(cfg, ops);
    CurrentPaid(e, n);
    assert e.acts[..n] == e.acts;
    ClosedPaid(e.closed);
    var a, c := AllRecords(e.acts), AllRecords(e.closed);
    Ledger.RecordsAccountedFor(cfg, ops);
    AllInBag(e.acts);
    AllInBag(e.closed);
    TotalOfBag(e.sent + e.refused, a + c);
    TotalConcat(a, c);
    PaysPlus(Plus(Total(a), PendingOf(e.counters, e.info, n)), Sum(e.acts), Total(c), Sum(e.closed), AllFit(e.acts), AllFit(e.closed));
    PlusTurn(Total(a), PendingOf(e.counters, e.info, n), Total(c));
  }

  lemma EachAddsUp(cfg: Config, ops: seq<Op>)
    ensures var e := Run(Start(cfg), ops);
            && |e.info| == |e.acts| == |e.counters| == cfg.maxSubscribers
            && (forall i :: 0 <= i < |e.acts| ==> AddsUp(e.counters[i].tally, e.info[i].emitted, e.acts[i]))
            && (forall k :: 0 <= k < |e.closed| ==> Settled(e.closed[k]))
  {
    assert Start(cfg).cfg == cfg;
    RunKeepsBooks(cfg, ops);
    hide Run, Start, AddsUp, Settled, AccountOk;
    var e := Run(Start(cfg), ops);
    forall i | 0 <= i < |e.acts|
      ensures AddsUp(e.counters[i].tally, e.info[i].emitted, e.acts[i])
    {
      BillingConserved(cfg, ops, i);
    }
  }
}

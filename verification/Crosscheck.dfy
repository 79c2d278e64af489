/** What the charging system reports about a subscriber, which the engine keeps for comparison with
    what it metered itself. */
module Crosscheck {
  import opened Words
  import opened Meter
  import opened Tunnels

  /** A usage report about subscriber identity `k`. */
  predicate Reports(op: Op, k: u64) {
    op.DoGy? && op.gy.hasImsi && op.gy.hasUsed && op.gy.imsi == k
  }

  /** The octets that one operation reports about `k`. */
  function OctetsIn(op: Op, k: u64): u64 {
    if Reports(op, k) then op.gy.usedTotal else 0
  }

  function ReportsIn(op: Op, k: u64): nat {
    if Reports(op, k) then 1 else 0
  }

  /** The time of the last report about `k`, or else `before`. */
  function LastReport(ops: seq<Op>, k: u64, before: u64): u64 {
    if ops == [] then before
    else if Reports(ops[|ops| - 1], k) then ops[|ops| - 1].gy.ts
    else LastReport(ops[..|ops| - 1], k, before)
  }

  /** All octets reported about `k`, in unbounded arithmetic. */
  function ReportedOctets(ops: seq<Op>, k: u64): nat {
    if ops == [] then 0 else ReportedOctets(ops[..|ops| - 1], k) + OctetsIn(ops[|ops| - 1], k)
  }

  function ReportCount(ops: seq<Op>, k: u64): nat {
    if ops == [] then 0 else ReportCount(ops[..|ops| - 1], k) + ReportsIn(ops[|ops| - 1], k)
  }

  /** The charging fields of a subscriber record. */
  ghost predicate SameGy(a: Info, b: Info) {
    a.gyOctets == b.gyOctets && a.gyReports == b.gyReports && a.gyLast == b.gyLast
  }

  /** Identity `k` keeps its index and its charging fields. */
  ghost predicate Untouched(e: Engine, r: Engine, k: u64)
    requires WF(e) && WF(r) && k in e.imsiIndex
  {
    k in r.imsiIndex && r.imsiIndex[k] == e.imsiIndex[k] && SameGy(r.info[e.imsiIndex[k]], e.info[e.imsiIndex[k]])
  }

  lemma PacketUntouched(e: Engine, ev: MeterEvent, k: u64)
    requires WF(e) && k in e.imsiIndex
    ensures Untouched(e, Apply(e, ev), k)
  {
  }

  lemma EmitUntouched(e: Engine, idx: nat, reason: Reason, now: u64, k: u64)
    requires WF(e) && k in e.imsiIndex && idx < e.nextSub
    ensures WF(Emit(e, idx, reason, now)) && Untouched(e, Emit(e, idx, reason, now), k)
  {
  }

  lemma ReleaseUntouched(e: Engine, imsi: u64, now: u64, k: u64)
    requires WF(e) && k in e.imsiIndex
    ensures Untouched(e, ReleaseSession(e, imsi, now), k)
  {
    hide Emit;
    if Releasable(e, imsi) {
      EmitUntouched(e, e.imsiIndex[imsi], Release, now, k);
    }
  }

  lemma SweepOneUntouched(e: Engine, now: u64, k: u64)
    requires WF(e) && e.nextSub > 0 && k in e.imsiIndex
    ensures Untouched(e, SweepOne(e, now), k)
  {
    hide Emit, Due;
    var e' := e.(cursor := Visited(e) + 1);
    if Due(e', Visited(e), now).Some? {
      EmitUntouched(e', Visited(e), Due(e', Visited(e), now).value, now, k);
    }
  }

  lemma {:induction false} SweepUntouched(e: Engine, n: nat, now: u64, k: u64)
    requires WF(e) && e.nextSub > 0 && k in e.imsiIndex
    ensures Untouched(e, Sweep(e, n, now), k)
  {
    hide SweepOne;
    if n > 0 {
      SweepUntouched(e, n - 1, now, k);
      SweepOneUntouched(Sweep(e, n - 1, now), now, k);
    }
  }

  lemma {:induction false} DrainUntouched(e: Engine, n: nat, now: u64, k: u64)
    requires WF(e) && n <= e.nextSub && k in e.imsiIndex
    ensures Untouched(e, DrainUpTo(e, n, now), k)
  {
    hide Emit;
    if n > 0 {
      DrainUntouched(e, n - 1, now, k);
      EmitUntouched(DrainUpTo(e, n - 1, now), n - 1, Shutdown, now, k);
    }
  }

  /** `op` starts a session of identity `k`: an install that is accepted while `k` is unknown or inactive. */
  ghost predicate Opens(e: Engine, op: Op, k: u64)
    requires WF(e)
  {
    op.DoInstall? && op.spec.imsi == k && Accepts(e, op.spec) && (k in e.imsiIndex ==> !e.info[e.imsiIndex[k]].active)
  }

  lemma PrepareUntouched(e: Engine, spec: SessionSpec, now: u64, k: u64)
    requires TunnelsOk(e) && k in e.imsiIndex && !Opens(e, DoInstall(spec, now), k) && Accepts(e, spec)
    ensures Untouched(e, Prepare(e, spec, now), k)
    ensures spec.imsi != k ==> Prepare(e, spec, now).imsiIndex[spec.imsi] != e.imsiIndex[k]
  {
    hide Bound;
  }

  /** Also when it modifies the session of `k`. */
  lemma InstallUntouched(e: Engine, spec: SessionSpec, now: u64, k: u64)
    requires TunnelsOk(e) && k in e.imsiIndex && !Opens(e, DoInstall(spec, now), k)
    ensures Untouched(e, Install(e, spec, now), k)
  {
    hide TunnelsOk, Prepare, AssignSlot, BindIfSet;
    Unfold(e);
    if Accepts(e, spec) {
      PrepareUntouched(e, spec, now, k);
    }
  }

  /** What is kept for `k` grows by `octets` and `reports`, the last of them at time `last`. */
  ghost predicate Grows(e: Engine, r: Engine, k: u64, octets: u64, reports: nat, last: u64)
    requires WF(e) && WF(r) && k in e.imsiIndex
  {
    var i := e.imsiIndex[k];
    && k in r.imsiIndex && r.imsiIndex[k] == i
    && r.info[i].gyOctets == Add64(e.info[i].gyOctets, octets)
    && r.info[i].gyReports == (e.info[i].gyReports + reports) % TWO32
    && r.info[i].gyLast == last
  }

  /** The time of the report that `op` is, or else `before`. */
  function TimeIn(op: Op, k: u64, before: u64): u64 {
    if Reports(op, k) then op.gy.ts else before
  }

  lemma UntouchedGrows(e: Engine, r: Engine, k: u64)
    requires WF(e) && WF(r) && k in e.imsiIndex && Untouched(e, r, k)
    ensures Grows(e, r, k, 0, 0, e.info[e.imsiIndex[k]].gyLast)
  {
    SmallWrap(e.info[e.imsiIndex[k]].gyOctets);
  }

  lemma GyGrows(e: Engine, gy: GyEvent, k: u64)
    requires TunnelsOk(e) && k in e.imsiIndex
    ensures Grows(e, ApplyGy(e, gy), k, OctetsIn(DoGy(gy), k), ReportsIn(DoGy(gy), k),
                  TimeIn(DoGy(gy), k, e.info[e.imsiIndex[k]].gyLast))
  {
    hide Bound, Enrolled;
    SameImsi(e, gy.imsi, k);
    if !Reports(DoGy(gy), k) {
      UntouchedGrows(e, ApplyGy(e, gy), k);
    }
  }

  lemma StepGy(e: Engine, op: Op, k: u64)
    requires TunnelsOk(e) && k in e.imsiIndex && !Opens(e, op, k)
    ensures Grows(e, Step(e, op), k, OctetsIn(op, k), ReportsIn(op, k), TimeIn(op, k, e.info[e.imsiIndex[k]].gyLast))
  {
    hide Apply, ApplyGy, ReleaseSession, Sweep, DrainUpTo, Install, Bound, Enrolled, Opens, Grows;
    match op {
      case DoInstall(spec, now) => InstallUntouched(e, spec, now, k);
      case DoRelease(imsi, now) => ReleaseUntouched(e, imsi, now, k);
      case DoPacket(ev) => PacketUntouched(e, ev, k);
      case DoGy(gy) => GyGrows(e, gy, k);
      case DoPoll(now) =>
        if e.nextSub > 0 {
          SweepUntouched(e.(lastSweep := now), Chunk(e.nextSub, e.cfg.sweepFraction), now, k);
        }
      case DoDrain(now) => DrainUntouched(e, e.nextSub, now, k);
    }
    if !op.DoGy? {
      UntouchedGrows(e, Step(e, op), k);
    }
  }

  /** A session starts with nothing reported. */
  lemma StepOpens(e: Engine, op: Op, k: u64)
    requires TunnelsOk(e) && Opens(e, op, k)
    ensures var r := Step(e, op);
            && k in r.imsiIndex && r.info[r.imsiIndex[k]].gyOctets == 0 && r.info[r.imsiIndex[k]].gyReports == 0
            && r.info[r.imsiIndex[k]].gyLast == 0
  {
    hide BindTunnels, Bound, Enrolled;
    assert op == DoInstall(op.spec, op.now);
    PrepareOpens(e, op.spec, op.now);
    hide Prepare;
    var p := Prepare(e, op.spec, op.now);
    BindTunnelsGy(p, p.imsiIndex[k], op.spec);
  }

  lemma PrepareOpens(e: Engine, spec: SessionSpec, now: u64)
    requires TunnelsOk(e) && Opens(e, DoInstall(spec, now), spec.imsi)
    ensures var p := Prepare(e, spec, now);
            var it := p.info[p.imsiIndex[spec.imsi]];
            it.gyOctets == 0 && it.gyReports == 0 && it.gyLast == 0
  {
    hide Bound;
  }

  lemma BindTunnelsGy(e: Engine, idx: nat, spec: SessionSpec)
    requires WF(e) && idx < e.nextSub
    ensures var r := BindTunnels(e, idx, spec);
            r.imsiIndex == e.imsiIndex && SameGy(r.info[idx], e.info[idx])
  {
    hide AssignSlot, BindIfSet;
  }

  /** An identity becomes known by a session that starts. */
  lemma StepKnows(e: Engine, op: Op, k: u64)
    requires WF(e) && k !in e.imsiIndex && k in Step(e, op).imsiIndex
    ensures Opens(e, op, k)
  {
    hide Apply, ReleaseSession, Sweep, DrainUpTo, IndicesOk;
    match op
    case DoInstall(spec, now) =>
    case DoRelease(imsi, now) => ReleaseIndex(e, imsi, now);
    case DoPacket(ev) => PacketIndex(e, ev);
    case DoGy(gy) =>
    case DoPoll(now) =>
      if e.nextSub > 0 {
        SweepReports(e.(lastSweep := now), Chunk(e.nextSub, e.cfg.sweepFraction), now);
      }
    case DoDrain(now) => DrainReports(e, e.nextSub, now);
  }

  lemma ReleaseIndex(e: Engine, imsi: u64, now: u64)
    requires WF(e)
    ensures ReleaseSession(e, imsi, now).imsiIndex == e.imsiIndex
  {
    hide Emit;
    if Releasable(e, imsi) {
      EmitReports(e, e.imsiIndex[imsi], Release, now);
    }
  }

  lemma PacketIndex(e: Engine, ev: MeterEvent)
    requires WF(e)
    ensures Apply(e, ev).imsiIndex == e.imsiIndex
  {
    hide IndicesOk;
  }

  lemma SameImsi(e: Engine, a: u64, b: u64)
    requires TunnelsOk(e) && b in e.imsiIndex
    ensures a in e.imsiIndex && e.imsiIndex[a] == e.imsiIndex[b] ==> a == b
  {
    hide Bound;
  }

  lemma ModChain(a: int, b: int, c: nat, m: int)
    requires m > 0 && a == b % m
    ensures (a + c) % m == (b + c) % m
  {
    assert (b + c) - (a + c) == b / m * m;
    ModShift(a + c, b / m, m);
  }

  lemma ModShift(x: int, q: int, m: int)
    requires m > 0
    ensures (x + q * m) % m == x % m
  {
    var d := (x + q * m) / m - x / m - q;
    assert d * m == x % m - (x + q * m) % m;
    assert d == 0;
  }

  /** Operation `j` of a run from `e` starts a session of `k`. */
  ghost predicate OpensAt(e: Engine, ops: seq<Op>, j: nat, k: u64)
    requires WF(e) && j < |ops|
  {
    Opens(Run(e, ops[..j]), ops[j], k)
  }

  /** From any reachable engine on, until a session of `k` starts, the octets and reports kept for `k` grow
      by exactly those of its usage reports, in 64-bit and 32-bit arithmetic, through any number of
      modifications and its release: no report is lost, counted twice or put on another subscriber. */
  lemma {:induction false} GyAddsUp(e: Engine, ops: seq<Op>, k: u64)
    requires TunnelsOk(e) && k in e.imsiIndex
    requires forall j :: 0 <= j < |ops| ==> !OpensAt(e, ops, j, k)
    ensures TunnelsOk(Run(e, ops))
    ensures var r := Run(e, ops);
            var i := e.imsiIndex[k];
            && k in r.imsiIndex && r.imsiIndex[k] == i
            && r.info[i].gyOctets == (e.info[i].gyOctets + ReportedOctets(ops, k)) % TWO64
            && r.info[i].gyReports == (e.info[i].gyReports + ReportCount(ops, k)) % TWO32
            && r.info[i].gyLast == LastReport(ops, k, e.info[i].gyLast)
  {
    hide TunnelsOk, Step, Opens, OctetsIn, ReportsIn, Reports;
    Unfold(e);
    if ops != [] {
      var n := |ops| - 1;
      forall j | 0 <= j < n
        ensures !OpensAt(e, ops[..n], j, k)
      {
        assert ops[..n][..j] == ops[..j] && !OpensAt(e, ops, j, k);
      }
      GyAddsUp(e, ops[..n], k);
      var mid := Run(e, ops[..n]);
      assert !OpensAt(e, ops, n, k);
      StepKeepsTunnels(mid, ops[n]);
      StepGy(mid, ops[n], k);
      var i := e.imsiIndex[k];
      ModChain(mid.info[i].gyOctets, e.info[i].gyOctets + ReportedOctets(ops[..n], k), OctetsIn(ops[n], k), TWO64);
      ModChain(mid.info[i].gyReports, e.info[i].gyReports + ReportCount(ops[..n], k), ReportsIn(ops[n], k), TWO32);
    }
  }

  /** What engine `r` keeps for `k` is what the operations after `j` reported about it. */
  ghost predicate KeptSince(r: Engine, ops: seq<Op>, j: nat, k: u64)
    requires WF(r) && k in r.imsiIndex && j < |ops|
  {
    var info := r.info[r.imsiIndex[k]];
    && info.gyOctets == ReportedOctets(ops[j + 1..], k) % TWO64 && info.gyReports == ReportCount(ops[j + 1..], k) % TWO32
    && info.gyLast == LastReport(ops[j + 1..], k, 0)
  }

  lemma KeptMore(mid: Engine, ops: seq<Op>, j: nat, k: u64)
    requires TunnelsOk(mid) && k in mid.imsiIndex && j < |ops| - 1
    requires KeptSince(mid, ops[..|ops| - 1], j, k) && !Opens(mid, ops[|ops| - 1], k)
    ensures k in Step(mid, ops[|ops| - 1]).imsiIndex && KeptSince(Step(mid, ops[|ops| - 1]), ops, j, k)
  {
    hide Step, Opens, TunnelsOk;
    Unfold(mid);
    var n := |ops| - 1;
    StepGy(mid, ops[n], k);
    var since := ops[j + 1..];
    assert since[..|since| - 1] == ops[..n][j + 1..];
    var i := mid.imsiIndex[k];
    ModChain(mid.info[i].gyOctets, ReportedOctets(since[..|since| - 1], k), OctetsIn(ops[n], k), TWO64);
    ModChain(mid.info[i].gyReports, ReportCount(since[..|since| - 1], k), ReportsIn(ops[n], k), TWO32);
  }

  lemma KeptNow(r: Engine, ops: seq<Op>, k: u64)
    requires WF(r) && k in r.imsiIndex && ops != []
    requires r.info[r.imsiIndex[k]].gyOctets == 0 && r.info[r.imsiIndex[k]].gyReports == 0 && r.info[r.imsiIndex[k]].gyLast == 0
    ensures KeptSince(r, ops, |ops| - 1, k)
  {
    assert ops[|ops|..] == [];
  }

  /** Operation `j` starts a session of `k`, and none after it does. */
  ghost predicate LastOpening(e: Engine, ops: seq<Op>, j: nat, k: u64)
    requires WF(e)
  {
    j < |ops| && OpensAt(e, ops, j, k) && forall i :: j < i < |ops| ==> !OpensAt(e, ops, i, k)
  }

  lemma LastStays(e: Engine, ops: seq<Op>, j: nat, k: u64)
    requires WF(e) && ops != [] && LastOpening(e, ops[..|ops| - 1], j, k) && !OpensAt(e, ops, |ops| - 1, k)
    ensures LastOpening(e, ops, j, k)
  {
    hide Run, Opens, WF;
    var n := |ops| - 1;
    assert ops[..n][..j] == ops[..j];
    forall i | j < i < n
      ensures !OpensAt(e, ops, i, k)
    {
      assert ops[..n][..i] == ops[..i] && !OpensAt(e, ops[..n], i, k);
    }
  }

  /** In every run: every known identity has a session that started last, at operation `j`, and what is kept
      for it is exactly what was reported about it since. */
  lemma {:induction false} GySinceActivation(cfg: Config, ops: seq<Op>, k: u64) returns (j: nat)
    requires k in Run(Start(cfg), ops).imsiIndex
    ensures LastOpening(Start(cfg), ops, j, k)
    ensures KeptSince(Run(Start(cfg), ops), ops, j, k)
  {
    assert ops != [];
    var n := |ops| - 1;
    var mid := Run(Start(cfg), ops[..n]);
    assert Run(Start(cfg), ops) == Step(mid, ops[n]);
    hide Start, Step, Opens, TunnelsOk, KeptSince, WF, Run;
    RunKeepsTunnels(cfg, ops[..n]);
    if OpensAt(Start(cfg), ops, n, k) {
      j := n;
      StepOpens(mid, ops[n], k);
      KeptNow(Step(mid, ops[n]), ops, k);
    } else {
      if k !in mid.imsiIndex {
        StepKnows(mid, ops[n], k);
      }
      j := GySinceActivation(cfg, ops[..n], k);
      LastStays(Start(cfg), ops, j, k);
      KeptMore(mid, ops, j, k);
    }
  }

  lemma Unfold(e: Engine)
    requires TunnelsOk(e)
    ensures WF(e)
  {
  }
}

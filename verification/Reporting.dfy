/** When usage records are made and why: which operations make them, for which subscribers, with which reason and
    time, and how many one poll can make. */
module Reporting {
  import opened Words
  import opened Usage
  import opened Meter
  import opened Tunnels
  import opened Billing
  import opened RecordContents

  /** Bytes of an activation charged since its last record. */
  ghost function Unbilled(acts: seq<Act>): nat {
    Charged(Since(acts)).ulBytes + Charged(Since(acts)).dlBytes
  }

  /** A record is due at time `now` for `reason`: the unbilled bytes, as a 64-bit number, reach the volume
      threshold, or else there are some and the report interval has passed since the last record, or since the
      activation began. Limits of 0 are off. */
  ghost predicate DueFor(cfg: Config, acts: seq<Act>, at: u64, now: u64, reason: Reason) {
    var bytes := Unbilled(acts) % TWO64;
    && bytes != 0
    && if cfg.volumeThreshold != 0 && bytes >= cfg.volumeThreshold then reason == Volume
       else reason == Interval && cfg.reportInterval != 0 && (now - LastEnd(acts, at)) % TWO64 >= cfg.reportInterval
  }

  /** From `e` to `r` subscriber `i` gets exactly one record, made at time `now` for `reason`, with the labels and
      the flag it has. */
  ghost predicate OneRecord(e: Engine, r: Engine, i: nat, reason: Reason, now: u64)
    requires WF(e) && i < |e.info|
  {
    var n := |e.acts[i]|;
    && i < |r.acts| && |r.acts[i]| == n + 1 && r.acts[i][..n] == e.acts[i] && r.acts[i][n].Report?
    && (var x := r.acts[i][n].record;
        && x.reason == reason && x.intervalEnd == now
        && x.ids == e.info[i].ids && x.aggregated == e.info[i].aggregated)
  }

  ghost predicate NoRecord(e: Engine, r: Engine, i: nat)
    requires i < |e.acts|
  {
    i < |r.acts| && r.acts[i] == e.acts[i]
  }

  lemma EmitOne(e: Engine, idx: nat, reason: Reason, now: u64)
    requires WF(e) && idx < |e.info|
    ensures OneRecord(e, Emit(e, idx, reason, now), idx, reason, now)
    ensures forall i :: 0 <= i < |e.info| && i != idx ==>
              NoRecord(e, Emit(e, idx, reason, now), i) && Emit(e, idx, reason, now).info[i] == e.info[i]
    ensures var r := Emit(e, idx, reason, now);
            && |r.sent| + |r.refused| == |e.sent| + |e.refused| + 1 && r.origins == e.origins && r.counters == e.counters
            && |r.info| == |e.info| && r.imsiIndex == e.imsiIndex
  {
    hide IndicesOk, Delta;
  }

  // ---------------------------------------------------------------------------
  // Polls
  // ---------------------------------------------------------------------------

  lemma PendingIsUnbilled(e: Engine, i: nat)
    requires WF(e) && i < |e.info| && TrueAt(e, i)
    ensures Pending(e.counters[i], e.info[i]) == Unbilled(e.acts[i]) % TWO64
  {
    hide TrueRecords, Charged, IndicesOk, Sub64;
    var c, m := e.counters[i].tally, e.info[i].emitted;
    var t := Charged(Since(e.acts[i]));
    assert Sub64(c.ulBytes, m.ulBytes) == t.ulBytes % TWO64 && Sub64(c.dlBytes, m.dlBytes) == t.dlBytes % TWO64;
    WrapAdd(t.ulBytes, t.dlBytes % TWO64);
    WrapAdd(t.dlBytes, t.ulBytes);
  }

  /** The sweep finds a subscriber due exactly when it is active and a record is due. */
  lemma DueIff(e: Engine, i: nat, now: u64, reason: Reason)
    requires WF(e) && i < |e.info| && TrueAt(e, i)
    ensures Due(e, i, now) == Some(reason)
            <==> e.info[i].active && DueFor(e.cfg, e.acts[i], e.origins[i].at, now, reason)
  {
    PendingIsUnbilled(e, i);
    hide Pending, Unbilled, TrueRecords, Charged, Wrap, Delta, IndicesOk;
  }

  /** Subscriber `i` as a poll sees it. */
  ghost predicate SameView(e: Engine, r: Engine, i: nat)
    requires WF(e) && WF(r) && i < |e.info| && i < |r.info|
  {
    NoRecord(e, r, i) && r.info[i] == e.info[i] && r.origins[i] == e.origins[i] && r.cfg == e.cfg
  }

  /** What a poll may do to subscriber `i`: nothing, or one record that is due. */
  ghost predicate OnlyIfDue(e: Engine, r: Engine, i: nat, now: u64)
    requires WF(e) && WF(r) && i < |e.info| && i < |r.info|
  {
    || SameView(e, r, i)
    || (e.info[i].active && Unbilled(r.acts[i]) == 0 && r.cfg == e.cfg
        && exists reason :: DueFor(e.cfg, e.acts[i], e.origins[i].at, now, reason) && OneRecord(e, r, i, reason, now))
  }

  lemma SweepOneDue(e: Engine, now: u64, i: nat)
    requires ContentsOk(e) && e.nextSub > 0 && i < |e.info|
    ensures OnlyIfDue(e, SweepOne(e, now), i, now)
  {
    var at := Visited(e);
    var e1 := e.(cursor := at + 1);
    TrueOf(e, at);
    hide ContentsOk, AccountTrue, Emit, Due, IndicesOk, DueFor, OneRecord, Unbilled;
    assert TrueAt(e1, at);
    if Due(e1, at, now).Some? {
      var reason := Due(e1, at, now).value;
      DueIff(e1, at, now, reason);
      EmitOne(e1, at, reason, now);
      var r := Emit(e1, at, reason, now);
      if i == at {
        CursorAside(e, e1, r, at, reason, now);
        NothingUnbilled(e, r, at, reason, now);
      }
    }
  }

  lemma CursorAside(e: Engine, e1: Engine, r: Engine, i: nat, reason: Reason, now: u64)
    requires WF(e) && WF(e1) && i < |e.info| && e1 == e.(cursor := e1.cursor) && OneRecord(e1, r, i, reason, now)
    ensures OneRecord(e, r, i, reason, now)
  {
  }

  lemma NothingUnbilled(e: Engine, r: Engine, i: nat, reason: Reason, now: u64)
    requires WF(e) && i < |e.info| && OneRecord(e, r, i, reason, now)
    ensures Unbilled(r.acts[i]) == 0
  {
    hide IndicesOk;
    var n := |e.acts[i]|;
    assert r.acts[i] == e.acts[i] + [r.acts[i][n]];
    SinceMore(e.acts[i], r.acts[i][n], 0);
    assert Charged([]) == Zero;
  }

  lemma {:induction false} SweepDue(e: Engine, n: nat, now: u64, i: nat)
    requires ContentsOk(e) && e.nextSub > 0 && i < |e.info|
    ensures OnlyIfDue(e, Sweep(e, n, now), i, now)
  {
    hide ContentsOk, SweepOne, OnlyIfDue;
    TunnelsOf(e);
    if n == 0 {
      StandStill(e, i, now);
    } else {
      SweepDue(e, n - 1, now, i);
      var r := Sweep(e, n - 1, now);
      SweepContents(e, n - 1, now);
      SweepOneDue(r, now, i);
      DueOnce(e, r, SweepOne(r, now), i, now);
    }
  }

  lemma StandStill(e: Engine, i: nat, now: u64)
    requires WF(e) && i < |e.info|
    ensures OnlyIfDue(e, e, i, now)
  {
  }

  /** A subscriber that was just reported is not due. */
  lemma DueOnce(e: Engine, r: Engine, r': Engine, i: nat, now: u64)
    requires WF(e) && WF(r) && WF(r') && i < |e.info| && i < |r.info| && i < |r'.info|
    requires OnlyIfDue(e, r, i, now) && OnlyIfDue(r, r', i, now)
    ensures OnlyIfDue(e, r', i, now)
  {
    hide IndicesOk, Unbilled;
    if SameView(e, r, i) {
      if !SameView(r, r', i) {
        var reason :| DueFor(r.cfg, r.acts[i], r.origins[i].at, now, reason) && OneRecord(r, r', i, reason, now);
        assert DueFor(e.cfg, e.acts[i], e.origins[i].at, now, reason) && OneRecord(e, r', i, reason, now);
      }
    } else if SameView(r, r', i) {
      var reason :| DueFor(e.cfg, e.acts[i], e.origins[i].at, now, reason) && OneRecord(e, r, i, reason, now);
      assert OneRecord(e, r', i, reason, now);
    }
  }

  /** A poll makes a record for a subscriber only if it is active and a record is due for it, and then one, with
      the reason for which it is due and the time of the poll. */
  lemma PollOnlyDue(cfg: Config, ops: seq<Op>, now: u64, i: nat)
    requires i < cfg.maxSubscribers
    ensures var e := Run(Start(cfg), ops);
            i < |e.info| && OnlyIfDue(e, Poll(e, now), i, now)
  {
    hide Run, Start, ContentsOk, Sweep, OnlyIfDue, AccountTrue;
    StartCfg(cfg);
    var e := Run(Start(cfg), ops);
    RecordsAreTrue(cfg, ops);
    StandStill(e, i, now);
    if SweepsAt(e, now) {
      var e1 := e.(lastSweep := now);
      ShapeOf(e);
      CountContents(e, e1);
      if e.nextSub > 0 {
        SweepDue(e1, Chunk(e.nextSub, e.cfg.sweepFraction), now, i);
        SweepTimeAside(e, e1, Sweep(e1, Chunk(e.nextSub, e.cfg.sweepFraction), now), i, now);
      } else {
        SweepTimeAside(e, e1, e1, i, now);
        StandStill(e1, i, now);
      }
    }
  }

  lemma ShapeOf(e: Engine)
    requires ContentsOk(e)
    ensures WF(e)
  {
  }

  lemma SweepTimeAside(e: Engine, e1: Engine, r: Engine, i: nat, now: u64)
    requires WF(e) && WF(e1) && WF(r) && i < |e.info| && i < |r.info| && e1 == e.(lastSweep := e1.lastSweep)
    ensures OnlyIfDue(e1, r, i, now) ==> OnlyIfDue(e, r, i, now)
    ensures OnlyIfDue(e, e1, i, now)
  {
    hide Unbilled, IndicesOk, DueFor;
    if OnlyIfDue(e1, r, i, now) && !SameView(e1, r, i) {
      var reason :| DueFor(e1.cfg, e1.acts[i], e1.origins[i].at, now, reason) && OneRecord(e1, r, i, reason, now);
      assert DueFor(e.cfg, e.acts[i], e.origins[i].at, now, reason) && OneRecord(e, r, i, reason, now);
    }
  }

  // ---------------------------------------------------------------------------
  // How often and how many
  // ---------------------------------------------------------------------------

  /** The time of the last poll that swept. A poll sweeps when the sweep period has passed since then. */
  ghost function LastSwept(cfg: Config, ops: seq<Op>): u64 {
    if ops == [] then 0
    else
      var n := |ops| - 1;
      var t := LastSwept(cfg, ops[..n]);
      if ops[n].DoPoll? && (ops[n].now - t) % TWO64 >= cfg.sweepPeriod then ops[n].now else t
  }

  lemma StepSwept(e: Engine, op: Op)
    requires WF(e)
    ensures Step(e, op).lastSweep
            == if op.DoPoll? && (op.now - e.lastSweep) % TWO64 >= e.cfg.sweepPeriod then op.now else e.lastSweep
  {
    hide Install, Apply, ReleaseSession, Sweep, DrainUpTo;
    match op
    case DoInstall(spec, now) => InstallSwept(e, spec, now);
    case DoRelease(imsi, now) => ReleaseSwept(e, imsi, now);
    case DoPacket(ev) => PacketSwept(e, ev);
    case DoGy(gy) =>
    case DoPoll(now) =>
      if e.nextSub > 0 {
        SweepReports(e.(lastSweep := now), Chunk(e.nextSub, e.cfg.sweepFraction), now);
      }
    case DoDrain(now) => DrainReports(e, e.nextSub, now);
  }

  lemma InstallSwept(e: Engine, spec: SessionSpec, now: u64)
    requires WF(e)
    ensures Install(e, spec, now).lastSweep == e.lastSweep
  {
    hide AssignSlot, BindIfSet;
  }

  lemma ReleaseSwept(e: Engine, imsi: u64, now: u64)
    requires WF(e)
    ensures ReleaseSession(e, imsi, now).lastSweep == e.lastSweep
  {
    hide Emit;
    if Releasable(e, imsi) {
      EmitReports(e, e.imsiIndex[imsi], Release, now);
    }
  }

  lemma PacketSwept(e: Engine, ev: MeterEvent)
    requires WF(e)
    ensures Apply(e, ev).lastSweep == e.lastSweep
  {
    hide IndicesOk;
  }

  lemma {:induction false} SweptIs(cfg: Config, ops: seq<Op>)
    ensures Run(Start(cfg), ops).lastSweep == LastSwept(cfg, ops)
  {
    hide Start, Step, WF;
    StartCfg(cfg);
    StartSwept(cfg);
    if ops != [] {
      SweptIs(cfg, ops[..|ops| - 1]);
      StepSwept(Run(Start(cfg), ops[..|ops| - 1]), ops[|ops| - 1]);
    }
  }

  lemma StartSwept(cfg: Config)
    ensures Start(cfg).lastSweep == 0
  {
  }

  /** Within a sweep period a further poll does nothing. */
  lemma PollWaits(cfg: Config, ops: seq<Op>, now: u64)
    requires (now - LastSwept(cfg, ops)) % TWO64 < cfg.sweepPeriod
    ensures Poll(Run(Start(cfg), ops), now) == Run(Start(cfg), ops)
  {
    hide Run, Start, Sweep, LastSwept;
    StartCfg(cfg);
    SweptIs(cfg, ops);
  }

  lemma {:induction false} SweepAtMost(e: Engine, n: nat, now: u64)
    requires WF(e) && e.nextSub > 0
    ensures var r := Sweep(e, n, now);
            |r.sent| + |r.refused| <= |e.sent| + |e.refused| + n
  {
    hide Emit, Due, IndicesOk;
    if n > 0 {
      SweepAtMost(e, n - 1, now);
      var r := Sweep(e, n - 1, now);
      var r1 := r.(cursor := Visited(r) + 1);
      if Due(r1, Visited(r), now).Some? {
        EmitOne(r1, Visited(r), Due(r1, Visited(r), now).value, now);
      }
    }
  }

  /** One poll makes at most one record, or at most the share of subscribers that the sweep fraction says. */
  lemma PollIsBounded(e: Engine, now: u64)
    requires WF(e)
    ensures var r := Poll(e, now);
            var made := |r.sent| + |r.refused| - (|e.sent| + |e.refused|);
            var f := if e.cfg.sweepFraction > 1 then e.cfg.sweepFraction else 1;
            made <= 1 || made * f <= e.nextSub
  {
    hide Sweep, IndicesOk;
    if SweepsAt(e, now) && e.nextSub > 0 {
      var n := Chunk(e.nextSub, e.cfg.sweepFraction);
      SweepAtMost(e.(lastSweep := now), n, now);
      var r := Poll(e, now);
      var made := |r.sent| + |r.refused| - (|e.sent| + |e.refused|);
      var f := if e.cfg.sweepFraction > 1 then e.cfg.sweepFraction else 1;
      if made > 1 {
        ShareOf(e.nextSub, f, made);
      }
    }
  }

  lemma ShareOf(live: nat, f: nat, made: int)
    requires f >= 1 && 1 < made <= if live / f > 1 then live / f else 1
    ensures made * f <= live
  {
    assert live == live / f * f + live % f;
    assert made * f <= live / f * f;
  }

  // ---------------------------------------------------------------------------
  // Drain and release
  // ---------------------------------------------------------------------------

  /** Some bytes, in 64 bits, are unbilled in one of the directions. */
  ghost predicate Owing(acts: seq<Act>) {
    Charged(Since(acts)).ulBytes % TWO64 != 0 || Charged(Since(acts)).dlBytes % TWO64 != 0
  }

  lemma UnreportedIff(e: Engine, i: nat)
    requires WF(e) && i < |e.info| && TrueAt(e, i)
    ensures Unreported(e, i) <==> e.info[i].active && Owing(e.acts[i])
  {
    hide TrueRecords, Charged, IndicesOk;
    var c, m := e.counters[i].tally, e.info[i].emitted;
    SameIff(c.ulBytes, m.ulBytes);
    SameIff(c.dlBytes, m.dlBytes);
  }

  lemma SameIff(a: u64, b: u64)
    ensures Sub64(a, b) == 0 <==> a == b
  {
  }

  /** Of the first `n` subscribers those that owe have got their record; nothing else has changed. */
  ghost predicate Drained(e: Engine, r: Engine, n: nat, now: u64, i: nat)
    requires WF(e) && WF(r) && i < |e.info| && i < |r.info|
  {
    if i < n && e.info[i].active && Owing(e.acts[i]) then OneRecord(e, r, i, Shutdown, now)
    else NoRecord(e, r, i) && r.info[i] == e.info[i]
  }

  lemma DrainNext(e: Engine, r: Engine, n: nat, now: u64, i: nat)
    requires WF(e) && WF(r) && n < |e.info| == |r.info| && i < |e.info| && TrueAt(r, n)
    requires Drained(e, r, n, now, n) && Drained(e, r, n, now, i)
    ensures var r' := if Unreported(r, n) then Emit(r, n, Shutdown, now) else r;
            WF(r') && |r'.info| == |r.info| && Drained(e, r', n + 1, now, i)
  {
    UnreportedIff(r, n);
    hide Unreported, Owing, AccountTrue, Delta, IndicesOk;
    EmitOne(r, n, Shutdown, now);
    EmitReports(r, n, Shutdown, now);
    hide Emit;
    if i == n && Unreported(r, n) {
      SameFront(e, r, Emit(r, n, Shutdown, now), n, now);
    }
  }

  lemma SameFront(e: Engine, r: Engine, r': Engine, i: nat, now: u64)
    requires WF(e) && WF(r) && i < |e.info| && i < |r.info| && r.acts[i] == e.acts[i] && r.info[i] == e.info[i]
    requires OneRecord(r, r', i, Shutdown, now)
    ensures OneRecord(e, r', i, Shutdown, now)
  {
    hide IndicesOk;
  }

  lemma {:induction false} DrainUpToExact(e: Engine, n: nat, now: u64, i: nat)
    requires ContentsOk(e) && n <= e.nextSub && i < |e.info|
    ensures Drained(e, DrainUpTo(e, n, now), n, now, i)
  {
    hide ContentsOk, Emit, Unreported, AccountTrue, IndicesOk, OneRecord, Owing;
    ShapeOf(e);
    if n > 0 {
      DrainUpToExact(e, n - 1, now, i);
      DrainUpToExact(e, n - 1, now, n - 1);
      var r := DrainUpTo(e, n - 1, now);
      DrainContents(e, n - 1, now);
      TrueOf(r, n - 1);
      hide Drained, TrueAt;
      DrainNext(e, r, n - 1, now, i);
    }
  }

  lemma TrueOf(e: Engine, i: nat)
    requires ContentsOk(e) && i < |e.info|
    ensures WF(e) && TrueAt(e, i)
  {
  }

  /** A drain makes a Shutdown record for exactly the active subscribers that owe bytes. */
  lemma DrainExact(cfg: Config, ops: seq<Op>, now: u64, i: nat)
    requires i < cfg.maxSubscribers
    ensures var e := Run(Start(cfg), ops);
            var r := Drain(e, now);
            && i < |e.info|
            && if e.info[i].active && Owing(e.acts[i]) then OneRecord(e, r, i, Shutdown, now) else NoRecord(e, r, i)
  {
    hide Run, Start, ContentsOk, DrainUpTo, Owing;
    StartCfg(cfg);
    var e := Run(Start(cfg), ops);
    RecordsAreTrue(cfg, ops);
    DrainUpToExact(e, e.nextSub, now, i);
    if i >= e.nextSub {
      RunKeepsTunnels(cfg, ops);
      NeverActive(e, i);
    }
  }

  lemma NeverActive(e: Engine, i: nat)
    requires TunnelsOk(e) && e.nextSub <= i < |e.info|
    ensures !e.info[i].active
  {
    hide Bound;
  }

  /** Releasing an active session makes exactly one record, for it, with reason Release, and ends the session;
      any other release changes nothing. */
  lemma ReleaseExact(e: Engine, imsi: u64, now: u64)
    requires WF(e)
    ensures var r := ReleaseSession(e, imsi, now);
            if imsi in e.imsiIndex && e.info[e.imsiIndex[imsi]].active then
              var idx := e.imsiIndex[imsi];
              && OneRecord(e, r, idx, Release, now) && idx < |r.info| && !r.info[idx].active
              && (forall i :: 0 <= i < |e.info| && i != idx ==> NoRecord(e, r, i) && i < |r.info| && r.info[i] == e.info[i])
              && r.imsiIndex == e.imsiIndex && r.counters == e.counters
            else r == e
  {
    hide Emit;
    if Releasable(e, imsi) {
      IndexIn(e, imsi);
      EmitOne(e, e.imsiIndex[imsi], Release, now);
      EmitReports(e, e.imsiIndex[imsi], Release, now);
      var idx := e.imsiIndex[imsi];
      var r, m := ReleaseSession(e, imsi, now), Emit(e, idx, Release, now);
      assert OneRecord(e, r, idx, Release, now);
      forall i | 0 <= i < |e.info| && i != idx
        ensures NoRecord(e, r, i) && i < |r.info| && r.info[i] == e.info[i]
      {
        assert NoRecord(e, m, i);
      }
    }
  }

  lemma IndexIn(e: Engine, imsi: u64)
    requires WF(e) && imsi in e.imsiIndex
    ensures e.imsiIndex[imsi] < e.nextSub
  {
  }
}

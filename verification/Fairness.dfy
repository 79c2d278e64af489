/** Sweep fairness: a session that is due for a usage record gets one within a bounded number of
    effective polls, from any cursor position and whatever traffic arrives in between. */
module Fairness {
  import opened Words
  import opened Cyclic
  import opened Usage
  import opened Meter
  import opened Tunnels
  import opened Billing

  /** `2f - 1` slices of one sweep cover every subscriber. */
  lemma SlicesCover(live: nat, f: nat)
    requires live > 0 && f >= 1
    ensures (2 * f - 1) * Chunk(live, f) >= live
  {
    hide Chunk;
    var q := WholeSlices(live, f);
    if q > 0 {
      EnoughSlices(q, f);
    }
  }

  /** The slice is the quotient, or one; the quotient times `f` misses less than `f`. */
  lemma WholeSlices(live: nat, f: nat) returns (q: nat)
    requires f >= 1
    ensures Chunk(live, f) == (if q > 0 then q else 1) && live < q * f + f
  {
    q := live / f;
    assert live == q * f + live % f;
  }

  lemma EnoughSlices(q: nat, f: nat)
    requires q >= 1 && f >= 1
    ensures (2 * f - 1) * q >= q * f + f - 1
  {
    MulAtLeast(q, f - 1);
    Sum(f, f - 1, q);
    assert (2 * f - 1) * q == f * q + (f - 1) * q;
  }

  lemma Sum(a: nat, b: nat, c: nat)
    ensures (a + b) * c == a * c + b * c
  {
  }

  /** Bytes of an activation charged but not yet reported. */
  ghost function Outstanding(acts: seq<Act>): int {
    var c, r := Charged(acts), Total(Records(acts));
    c.ulBytes + c.dlBytes - r.ulBytes - r.dlBytes
  }

  ghost predicate Fits64(acts: seq<Act>) {
    Charged(acts).ulBytes + Charged(acts).dlBytes < TWO64
  }

  lemma PendingExact(cu: u64, mu: u64, chu: nat, reu: nat, cd: u64, md: u64, chd: nat, red: nat)
    requires Even(cu, mu, chu, reu) && Even(cd, md, chd, red) && chu + chd < TWO64
    ensures Add64(Sub64(cu, mu), Sub64(cd, md)) == chu + chd - reu - red
  {
    EvenExact(cu, mu, chu, reu);
    EvenExact(cd, md, chd, red);
    SmallWrap(chu - reu);
    SmallWrap(chd - red);
    hide Even;
    SmallWrap(chu - reu + (chd - red));
  }

  lemma PendingIsOutstanding(e: Engine, i: nat)
    requires BooksOk(e) && i < |e.info| && Fits64(e.acts[i])
    ensures Pending(e.counters[i], e.info[i]) == Outstanding(e.acts[i])
  {
    hide Even, Add64, Sub64, Bound, Enrolled, SlotsCover, Records, Charged, Total, Numbered, Settled;
    assert AccountAt(e, i);
    var c, m := e.counters[i].tally, e.info[i].emitted;
    var ch, re := Charged(e.acts[i]), Total(Records(e.acts[i]));
    PendingExact(c.ulBytes, m.ulBytes, ch.ulBytes, re.ulBytes, c.dlBytes, m.dlBytes, ch.dlBytes, re.dlBytes);
  }

  // ---------------------------------------------------------------------------
  // What one operation does to the history of an active subscriber
  // ---------------------------------------------------------------------------

  /** Subscriber `i` was charged no less, and its reporting interval restarts only with a record. */
  ghost predicate Later(e: Engine, e': Engine, i: nat)
    requires WF(e) && WF(e') && i < |e.info| && i < |e'.info|
  {
    && Charged(e'.acts[i]).ulBytes >= Charged(e.acts[i]).ulBytes
    && Charged(e'.acts[i]).dlBytes >= Charged(e.acts[i]).dlBytes
    && |Records(e'.acts[i])| >= |Records(e.acts[i])|
    && (|Records(e'.acts[i])| == |Records(e.acts[i])| ==>
          Records(e'.acts[i]) == Records(e.acts[i]) && e'.info[i].intervalStart == e.info[i].intervalStart)
  }

  ghost predicate Reported(e: Engine, e': Engine, i: nat)
    requires i < |e.acts| && i < |e'.acts|
  {
    |Records(e'.acts[i])| > |Records(e.acts[i])|
  }

  /** The state of subscriber `i` is the same in both. */
  ghost predicate SameSub(e: Engine, e': Engine, i: nat)
    requires WF(e) && WF(e') && i < |e.info| && i < |e'.info|
  {
    e'.acts[i] == e.acts[i] && e'.info[i] == e.info[i] && e'.counters[i] == e.counters[i]
  }

  lemma EmitReports(e: Engine, idx: nat, reason: Reason, now: u64, i: nat)
    requires WF(e) && idx < e.nextSub && i < |e.info|
    ensures var e' := Emit(e, idx, reason, now);
            && WF(e') && Later(e, e', i) && e'.cursor == e.cursor && e'.nextSub == e.nextSub
            && if idx == i then Reported(e, e', i) else SameSub(e, e', i)
  {
    if idx == i {
      AppendReport(e.acts[i], RecordOf(e, idx, reason, now));
    }
  }

  lemma {:induction false} DrainLater(e: Engine, n: nat, now: u64, i: nat)
    requires WF(e) && n <= e.nextSub && i < |e.info|
    ensures Later(e, DrainUpTo(e, n, now), i) && DrainUpTo(e, n, now).cursor == e.cursor
  {
    hide Emit, Records, Charged;
    if n > 0 {
      DrainLater(e, n - 1, now, i);
      var r := DrainUpTo(e, n - 1, now);
      if Unreported(r, n - 1) {
        EmitReports(r, n - 1, Shutdown, now, i);
      }
    }
  }

  lemma PacketLater(e: Engine, ev: MeterEvent, i: nat)
    requires TunnelsOk(e) && i < e.nextSub
    ensures Later(e, Apply(e, ev), i) && Records(Apply(e, ev).acts[i]) == Records(e.acts[i])
  {
    ChargedSub(e, ev, i);
    ApplyInterval(e, ev, i);
    var e' := Apply(e, ev);
    if e'.acts[i] != e.acts[i] {
      var n := |e.acts[i]|;
      assert e'.acts[i] == e.acts[i] + [e'.acts[i][n]];
      AppendCharge(e.acts[i], e'.acts[i][n]);
    }
  }

  lemma ApplyInterval(e: Engine, ev: MeterEvent, i: nat)
    requires WF(e) && i < e.nextSub
    ensures var e' := Apply(e, ev); e'.info[i].intervalStart == e.info[i].intervalStart && e'.cursor == e.cursor
  {
    hide AssignSlot;
    var e1 := CountEvent(e, ev);
    var e2 := LookUp(e1, ev);
    assert e2.info[i] == e.info[i] && e2.cursor == e.cursor;
  }

  lemma InstallLater(e: Engine, spec: SessionSpec, now: u64, i: nat)
    requires WF(e) && i < |e.info| && e.info[i].active
    ensures Later(e, Install(e, spec, now), i) && Install(e, spec, now).cursor == e.cursor
  {
    hide AssignSlot, Records, Charged;
    if Accepts(e, spec) {
      var p := Prepare(e, spec, now);
      assert p.acts[i] == e.acts[i] && p.info[i].intervalStart == e.info[i].intervalStart && p.cursor == e.cursor;
    }
  }

  lemma ReleaseLater(e: Engine, imsi: u64, now: u64, i: nat)
    requires WF(e) && i < |e.info| && ReleaseSession(e, imsi, now).info[i].active
    ensures Later(e, ReleaseSession(e, imsi, now), i) && ReleaseSession(e, imsi, now).cursor == e.cursor
  {
    hide Records, Charged;
  }

  // ---------------------------------------------------------------------------
  // Sweeping
  // ---------------------------------------------------------------------------

  /** How far the sweep still has to go before it passes subscriber `i`. */
  ghost function Remaining(e: Engine, i: nat): nat
    requires WF(e) && i < e.nextSub
  {
    Dist(Visited(e), i, e.nextSub)
  }

  lemma SameDue(e: Engine, e': Engine, i: nat, now: u64)
    requires WF(e) && WF(e') && i < |e.info| && i < |e'.info| && SameSub(e, e', i) && e'.cfg == e.cfg
    ensures Due(e', i, now) == Due(e, i, now)
  {
  }

  lemma SweepOneReaches(e: Engine, now: u64, i: nat)
    requires WF(e) && i < e.nextSub
    ensures var r := SweepOne(e, now);
            && Later(e, r, i)
            && (Reported(e, r, i) || SameSub(e, r, i))
            && (Due(e, i, now).Some? ==> Reported(e, r, i) || Remaining(r, i) + 1 == Remaining(e, i))
  {
    hide Emit, Records, Charged, Due;
    var at := Visited(e);
    var e1 := e.(cursor := at + 1);
    SameDue(e, e1, at, now);
    if Due(e1, at, now).Some? {
      EmitReports(e1, at, Due(e1, at, now).value, now, i);
    }
  }

  /** Passing over `k` subscribers either reports the due subscriber `i` or gets `k` closer to it. */
  lemma {:induction false} SweepReaches(e: Engine, k: nat, now: u64, i: nat)
    requires WF(e) && i < e.nextSub
    ensures var r := Sweep(e, k, now);
            && Later(e, r, i)
            && (Reported(e, r, i) || SameSub(e, r, i))
            && (Due(e, i, now).Some? ==> Reported(e, r, i) || Remaining(r, i) + k == Remaining(e, i))
  {
    hide SweepOne, Due, Records, Charged;
    if k > 0 {
      SweepReaches(e, k - 1, now, i);
      var r := Sweep(e, k - 1, now);
      SweepOneReaches(r, now, i);
      if SameSub(e, r, i) {
        SameDue(e, r, i, now);
      }
    }
  }

  // ---------------------------------------------------------------------------
  // Runs
  // ---------------------------------------------------------------------------

  predicate EffectivePoll(e: Engine, op: Op) {
    op.DoPoll? && SweepsAt(e, op.now)
  }

  /** How many of `ops` are polls that do sweep. */
  ghost function EffectivePolls(e: Engine, ops: seq<Op>): nat
    requires WF(e)
  {
    if ops == [] then 0
    else
      var n := |ops| - 1;
      EffectivePolls(e, ops[..n]) + if EffectivePoll(Run(e, ops[..n]), ops[n]) then 1 else 0
  }

  /** Over its volume threshold, or with bytes outstanding since before `since`, the time from
      which its reporting interval has run out. */
  ghost predicate Overdue(e: Engine, i: nat, since: u64)
    requires WF(e) && i < |e.info|
  {
    || (0 < e.cfg.volumeThreshold <= Outstanding(e.acts[i]))
    || (e.cfg.reportInterval > 0 && Outstanding(e.acts[i]) > 0 && e.info[i].intervalStart + e.cfg.reportInterval <= since)
  }

  lemma OverdueIsDue(e: Engine, i: nat, since: u64, now: u64)
    requires BooksOk(e) && i < |e.info| && e.info[i].active && Fits64(e.acts[i])
    requires Overdue(e, i, since) && since <= now
    ensures Due(e, i, now).Some?
  {
    hide Outstanding, BooksOk;
    PendingIsOutstanding(e, i);
  }

  /** Subscriber count and activity of `i` stay as they are over the whole of `ops`. */
  ghost predicate Steady(e: Engine, ops: seq<Op>, i: nat)
    requires WF(e)
  {
    forall k :: 0 <= k <= |ops| ==> SteadyAt(e, Run(e, ops[..k]), i)
  }

  ghost predicate SteadyAt(e: Engine, r: Engine, i: nat) {
    r.nextSub == e.nextSub && i < |r.info| && r.info[i].active
  }

  lemma GyLater(e: Engine, gy: GyEvent, i: nat)
    requires WF(e) && i < |e.info|
    ensures Later(e, ApplyGy(e, gy), i) && ApplyGy(e, gy).cursor == e.cursor
  {
    hide Records, Charged;
  }

  lemma PollLater(e: Engine, now: u64, i: nat)
    requires WF(e) && i < e.nextSub
    ensures Later(e, Poll(e, now), i)
  {
    hide Records, Charged;
    if SweepsAt(e, now) {
      SweepReaches(e.(lastSweep := now), Chunk(e.nextSub, e.cfg.sweepFraction), now, i);
    }
  }

  lemma StepLater(e: Engine, op: Op, i: nat)
    requires TunnelsOk(e) && i < e.nextSub && e.info[i].active
    requires Step(e, op).nextSub == e.nextSub && Step(e, op).info[i].active
    ensures Later(e, Step(e, op), i)
    ensures !op.DoPoll? ==> Remaining(Step(e, op), i) == Remaining(e, i)
  {
    hide Later, Install, ReleaseSession, Apply, ApplyGy, DrainUpTo, Poll;
    match op
    case DoInstall(spec, now) => InstallLater(e, spec, now, i);
    case DoRelease(imsi, now) => ReleaseLater(e, imsi, now, i);
    case DoPacket(ev) => PacketLater(e, ev, i); ApplyInterval(e, ev, i);
    case DoGy(gy) => GyLater(e, gy, i);
    case DoDrain(now) => DrainLater(e, e.nextSub, now, i);
    case DoPoll(now) => PollLater(e, now, i);
  }

  lemma PollProgress(e: Engine, now: u64, i: nat, since: u64)
    requires BooksOk(e) && i < e.nextSub && e.info[i].active && Fits64(e.acts[i])
    requires Overdue(e, i, since) && since <= now
    ensures var e' := Poll(e, now);
            || Reported(e, e', i)
            || Remaining(e', i) + (if SweepsAt(e, now) then Chunk(e.nextSub, e.cfg.sweepFraction) else 0) == Remaining(e, i)
  {
    hide Records, Charged, Overdue, Due, Later;
    if SweepsAt(e, now) {
      OverdueIsDue(e, i, since, now);
      var e1 := e.(lastSweep := now);
      SameDue(e, e1, i, now);
      SweepReaches(e1, Chunk(e.nextSub, e.cfg.sweepFraction), now, i);
    }
  }

  lemma StaysOverdue(e: Engine, e': Engine, i: nat, since: u64)
    requires WF(e) && WF(e') && i < |e.info| && i < |e'.info| && e'.cfg == e.cfg
    requires Overdue(e, i, since) && Later(e, e', i)
    ensures Reported(e, e', i) || Overdue(e', i, since)
  {
  }

  lemma SteadyPrefix(e: Engine, ops: seq<Op>, i: nat)
    requires WF(e) && ops != [] && Steady(e, ops, i)
    ensures Steady(e, ops[..|ops| - 1], i)
    ensures var r, r' := Run(e, ops[..|ops| - 1]), Run(e, ops);
            && r.nextSub == r'.nextSub == e.nextSub && i < |r.info| && i < |r'.info|
            && r.info[i].active && r'.info[i].active
  {
    hide Run, WF;
    var n := |ops| - 1;
    assert ops[..|ops|] == ops;
    assert SteadyAt(e, Run(e, ops[..n]), i) && SteadyAt(e, Run(e, ops[..|ops|]), i);
    forall k | 0 <= k <= n
      ensures SteadyAt(e, Run(e, ops[..n][..k]), i)
    {
      assert ops[..n][..k] == ops[..k];
    }
  }

  /** What one more operation adds to the countdown. */
  lemma OneMore(e: Engine, r: Engine, op: Op, i: nat, since: u64)
    requires WF(e) && BooksOk(r) && r.cfg == e.cfg && i < r.nextSub == e.nextSub && i < |e.info|
    requires r.info[i].active && Step(r, op).nextSub == r.nextSub && Step(r, op).info[i].active
    requires op.DoPoll? ==> since <= op.now
    requires Overdue(e, i, since) && Later(e, r, i) && Later(r, Step(r, op), i) && Fits64(Step(r, op).acts[i])
    ensures var r' := Step(r, op);
            || Reported(e, r', i)
            || Remaining(r', i) + (if EffectivePoll(r, op) then Chunk(e.nextSub, e.cfg.sweepFraction) else 0) == Remaining(r, i)
  {
    hide Records, Charged, Overdue, Step, Remaining, Chunk, BooksOk;
    BooksTunnels(r);
    StaysOverdue(e, r, i, since);
    if !Reported(e, r, i) {
      if op.DoPoll? {
        PollStep(r, op);
        PollProgress(r, op.now, i, since);
      } else {
        StepLater(r, op, i);
      }
    }
  }

  lemma PollStep(e: Engine, op: Op)
    requires WF(e) && op.DoPoll?
    ensures Step(e, op) == Poll(e, op.now)
  {
  }

  /** Counting down: until the overdue subscriber is reported, every effective poll brings the
      sweep one slice closer to it. */
  lemma {:induction false} CountsDown(e: Engine, ops: seq<Op>, i: nat, since: u64)
    requires BooksOk(e) && i < e.nextSub && Steady(e, ops, i) && Fits64(Run(e, ops).acts[i])
    requires Overdue(e, i, since) && forall k :: 0 <= k < |ops| && ops[k].DoPoll? ==> since <= ops[k].now
    ensures var r := Run(e, ops);
            && i < r.nextSub == e.nextSub && Later(e, r, i)
            && (|| Reported(e, r, i)
                || Remaining(r, i) + EffectivePolls(e, ops) * Chunk(e.nextSub, e.cfg.sweepFraction) == Remaining(e, i))
  {
    hide BooksOk, Records, Charged, Overdue, Step, Chunk, Remaining, Steady, EffectivePoll;
    BooksTunnels(e);
    if ops != [] {
      var n := |ops| - 1;
      var r := Run(e, ops[..n]);
      SteadyPrefix(e, ops, i);
      RunFromKeepsBooks(e, ops[..n]);
      BooksTunnels(r);
      StepLater(r, ops[n], i);
      CountsDown(e, ops[..n], i, since);
      OneMore(e, r, ops[n], i, since);
      Distribute(EffectivePolls(e, ops[..n]), Chunk(e.nextSub, e.cfg.sweepFraction));
    }
  }

  lemma Distribute(p: nat, c: nat)
    ensures (p + 1) * c == p * c + c
  {
  }

  lemma MoreSlices(p: nat, q: nat, c: nat)
    requires p >= q
    ensures p * c >= q * c
  {
    assert p * c == q * c + (p - q) * c;
  }

  /** Sweep fairness: with the subscriber count fixed and `f = max(1, sweep_fraction)`, any run with
      `2f - 1` effective polls reports a session that is active throughout and overdue at its start. */
  lemma OverdueSessionIsReported(e: Engine, ops: seq<Op>, i: nat, since: u64)
    requires BooksOk(e) && i < e.nextSub && Steady(e, ops, i) && Fits64(Run(e, ops).acts[i])
    requires Overdue(e, i, since) && forall k :: 0 <= k < |ops| && ops[k].DoPoll? ==> since <= ops[k].now
    requires var f := if e.cfg.sweepFraction > 1 then e.cfg.sweepFraction else 1;
             EffectivePolls(e, ops) >= 2 * f - 1
    ensures i < |Run(e, ops).acts| && Reported(e, Run(e, ops), i)
  {
    hide BooksOk, Records, Charged, Overdue, Steady, EffectivePolls, Later, Run;
    BooksTunnels(e);
    CountsDown(e, ops, i, since);
    var f := if e.cfg.sweepFraction > 1 then e.cfg.sweepFraction else 1;
    var chunk := Chunk(e.nextSub, e.cfg.sweepFraction);
    SlicesCover(e.nextSub, f);
    MoreSlices(EffectivePolls(e, ops), 2 * f - 1, chunk);
  }
}

/** Billing conservation: in every run, for every session activation, the usage records plus
    what is still pending add up to what was charged. */
module Billing {
  import opened Words
  import opened Usage
  import opened Meter
  import opened Tunnels

  // ---------------------------------------------------------------------------
  // Reading a history
  // ---------------------------------------------------------------------------

  /** The sum of all charges of one activation. */
  ghost function Charged(acts: seq<Act>): Tally {
    if acts == [] then Zero
    else
      var n := |acts| - 1;
      match acts[n]
      case Charge(down, _, slot, bytes) => Plus(Charged(acts[..n]), Packet(down, slot, bytes))
      case Report(_) => Charged(acts[..n])
  }

  /** The usage records of one activation, in order. */
  ghost function Records(acts: seq<Act>): seq<UsageRecord> {
    if acts == [] then []
    else
      var n := |acts| - 1;
      match acts[n]
      case Charge(_, _, _, _) => Records(acts[..n])
      case Report(r) => Records(acts[..n]) + [r]
  }

  /** The sum of the deltas of a list of records. */
  ghost function Total(rs: seq<UsageRecord>): Tally {
    if rs == [] then Zero else Plus(Total(rs[..|rs| - 1]), rs[|rs| - 1].usage)
  }

  lemma AppendCharge(acts: seq<Act>, a: Act)
    requires a.Charge?
    ensures Charged(acts + [a]) == Plus(Charged(acts), Packet(a.down, a.slot, a.bytes))
    ensures Records(acts + [a]) == Records(acts)
  {
    assert (acts + [a])[..|acts|] == acts;
  }

  lemma AppendReport(acts: seq<Act>, r: UsageRecord)
    ensures Charged(acts + [Report(r)]) == Charged(acts)
    ensures Records(acts + [Report(r)]) == Records(acts) + [r]
    ensures Total(Records(acts) + [r]) == Plus(Total(Records(acts)), r.usage)
  {
    assert (acts + [Report(r)])[..|acts|] == acts;
    assert (Records(acts) + [r])[..|Records(acts)|] == Records(acts);
  }

  /** Record sequence numbers count up from zero without a gap. */
  ghost predicate Gapless(rs: seq<UsageRecord>) {
    forall k :: 0 <= k < |rs| ==> rs[k].seqNo == k % TWO32
  }

  ghost predicate Numbered(recordSeq: u32, rs: seq<UsageRecord>) {
    recordSeq == |rs| % TWO32 && Gapless(rs)
  }

  lemma NextNumber(recordSeq: u32, rs: seq<UsageRecord>, r: UsageRecord)
    requires Numbered(recordSeq, rs) && r.seqNo == recordSeq
    ensures Numbered((recordSeq + 1) % TWO32, rs + [r])
  {
    assert (|rs| % TWO32 + 1) % TWO32 == (|rs| + 1) % TWO32;
  }

  // ---------------------------------------------------------------------------
  // One account
  // ---------------------------------------------------------------------------

  ghost predicate AccountOk(c: WordTally, emitted: WordTally, recordSeq: u32, active: bool, acts: seq<Act>) {
    && Balanced(c, emitted, Charged(acts), Total(Records(acts)))
    && SlotsCover(Charged(acts))
    && (IsWord(Charged(acts)) ==> SlotsCover(Total(Records(acts))))
    && Numbered(recordSeq, Records(acts))
    && (!active ==> c == emitted)
  }

  ghost predicate AccountAt(e: Engine, i: nat)
    requires WF(e) && i < |e.info|
  {
    AccountOk(e.counters[i].tally, e.info[i].emitted, e.info[i].recordSeq, e.info[i].active, e.acts[i])
  }

  /** An activation whose records add up to its charges. */
  ghost predicate Settled(acts: seq<Act>) {
    && Wrap(Total(Records(acts))) == Wrap(Charged(acts))
    && (IsWord(Charged(acts)) ==> Total(Records(acts)) == Charged(acts))
    && Gapless(Records(acts))
  }

  ghost predicate BooksOk(e: Engine) {
    && TunnelsOk(e)
    && (forall i :: 0 <= i < |e.info| ==> AccountAt(e, i))
    && (forall k :: 0 <= k < |e.closed| ==> Settled(e.closed[k]))
  }

  lemma BlankAccount()
    ensures AccountOk(Zero, Zero, 0, false, []) && AccountOk(Zero, Zero, 0, true, [])
  {
  }

  lemma AccountCharge(c: WordTally, emitted: WordTally, recordSeq: u32, acts: seq<Act>, a: Act)
    requires AccountOk(c, emitted, recordSeq, true, acts) && a.Charge?
    ensures AccountOk(Wrap(Plus(c, Packet(a.down, a.slot, a.bytes))), emitted, recordSeq, true, acts + [a])
  {
    AppendCharge(acts, a);
    ChargeKeepsBalance(c, emitted, Charged(acts), Total(Records(acts)), Packet(a.down, a.slot, a.bytes));
  }

  lemma AccountReport(c: WordTally, emitted: WordTally, recordSeq: u32, active: bool, acts: seq<Act>, r: UsageRecord)
    requires AccountOk(c, emitted, recordSeq, active, acts)
    requires r.usage == Delta(c, emitted) && r.seqNo == recordSeq
    ensures AccountOk(c, c, (recordSeq + 1) % TWO32, active, acts + [Report(r)])
  {
    hide Balanced, Delta, Numbered, SlotsCover;
    AppendReport(acts, r);
    NextNumber(recordSeq, Records(acts), r);
    Conservation(c, emitted, Charged(acts), Total(Records(acts)));
  }

  lemma AccountClose(c: WordTally, recordSeq: u32, active: bool, acts: seq<Act>)
    requires AccountOk(c, c, recordSeq, active, acts)
    ensures AccountOk(c, c, recordSeq, false, acts)
  {
  }

  lemma NothingPending(c: WordTally, recordSeq: u32, active: bool, acts: seq<Act>)
    requires AccountOk(c, c, recordSeq, active, acts)
    ensures Settled(acts)
  {
    hide Balanced, Wrap;
    CaughtUp(c, Charged(acts), Total(Records(acts)));
  }

  // ---------------------------------------------------------------------------
  // Every operation keeps the books
  // ---------------------------------------------------------------------------

  /** A step that changes no counter, marker or history. */
  lemma UntouchedBooks(e: Engine, e': Engine)
    requires BooksOk(e) && TunnelsOk(e') && |e'.info| == |e.info| && e'.closed == e.closed
    requires forall i :: 0 <= i < |e.info| ==>
               && e'.counters[i].tally == e.counters[i].tally && e'.info[i].emitted == e.info[i].emitted
               && e'.info[i].recordSeq == e.info[i].recordSeq && e'.info[i].active == e.info[i].active
               && e'.acts[i] == e.acts[i]
    ensures BooksOk(e')
  {
    forall i | 0 <= i < |e'.info|
      ensures AccountAt(e', i)
    {
      assert AccountAt(e, i);
    }
  }

  lemma OpenBooks(e: Engine, idx: nat, spec: SessionSpec, now: u64)
    requires WF(e) && idx < e.nextSub && TunnelsOk(Open(e, idx, spec, now))
    requires forall i :: 0 <= i < |e.info| ==> AccountAt(e, i)
    requires forall k :: 0 <= k < |e.closed| ==> Settled(e.closed[k])
    ensures BooksOk(Open(e, idx, spec, now))
  {
    hide AccountOk;
    var e' := Open(e, idx, spec, now);
    BlankAccount();
    forall i | 0 <= i < |e'.info|
      ensures AccountAt(e', i)
    {
      assert AccountAt(e, i);
    }
    if !e.info[idx].active {
      assert AccountAt(e, idx);
      AccountAddsUp(e.counters[idx].tally, e.info[idx].emitted, e.info[idx].recordSeq, false, e.acts[idx]);
    }
  }

  lemma ActivateBooks(e: Engine, spec: SessionSpec, now: u64)
    requires BooksOk(e) && Accepts(e, spec)
    ensures var e1 := Register(e, spec.imsi);
            BooksOk(Open(e1, e1.imsiIndex[spec.imsi], spec, now))
  {
    hide AccountOk, Settled;
    var e1 := Register(e, spec.imsi);
    ActivateKeeps(e, spec, now);
    forall i | 0 <= i < |e1.info|
      ensures AccountAt(e1, i)
    {
      assert AccountAt(e, i);
    }
    OpenBooks(e1, e1.imsiIndex[spec.imsi], spec, now);
  }

  lemma InstallBooks(e: Engine, spec: SessionSpec, now: u64)
    requires BooksOk(e)
    ensures BooksOk(Install(e, spec, now))
  {
    hide BooksOk, Prepare, BindTunnels;
    BooksTunnels(e);
    if Accepts(e, spec) {
      PrepareBooks(e, spec, now);
      var p := Prepare(e, spec, now);
      BindTunnelsBooks(p, p.imsiIndex[spec.imsi], spec);
    }
  }

  lemma PrepareBooks(e: Engine, spec: SessionSpec, now: u64)
    requires BooksOk(e) && Accepts(e, spec)
    ensures var p := Prepare(e, spec, now);
            BooksOk(p) && Ready(p, p.imsiIndex[spec.imsi], spec)
  {
    hide BooksOk;
    BooksTunnels(e);
    var e1 := Register(e, spec.imsi);
    var idx := e1.imsiIndex[spec.imsi];
    ActivateBooks(e, spec, now);
    ActivateKeeps(e, spec, now);
    MoveBooks(Open(e1, idx, spec, now), idx, spec);
  }

  lemma BooksTunnels(e: Engine)
    requires BooksOk(e)
    ensures TunnelsOk(e)
  {
  }

  lemma MoveBooks(e: Engine, idx: nat, spec: SessionSpec)
    requires BooksOk(e) && idx < e.nextSub && e.info[idx].active && !e.info[idx].learned
    ensures BooksOk(MoveTunnels(e, idx, spec)) && Ready(MoveTunnels(e, idx, spec), idx, spec)
  {
    MoveKeeps(e, idx, spec);
    UntouchedBooks(e, MoveTunnels(e, idx, spec));
  }

  lemma BindTunnelsBooks(e: Engine, idx: nat, spec: SessionSpec)
    requires BooksOk(e) && Ready(e, idx, spec)
    ensures BooksOk(BindTunnels(e, idx, spec))
  {
    BindTunnelsKeeps(e, idx, spec);
    UntouchedBooks(e, BindTunnels(e, idx, spec));
  }

  lemma EmitBooks(e: Engine, idx: nat, reason: Reason, now: u64)
    requires BooksOk(e) && idx < e.nextSub
    ensures BooksOk(Emit(e, idx, reason, now))
    ensures Emit(e, idx, reason, now).counters[idx].tally == Emit(e, idx, reason, now).info[idx].emitted
  {
    hide AccountOk;
    var e' := Emit(e, idx, reason, now);
    EmitKeeps(e, idx, reason, now);
    var info := e.info[idx];
    assert AccountAt(e, idx);
    AccountReport(e.counters[idx].tally, info.emitted, info.recordSeq, info.active, e.acts[idx], RecordOf(e, idx, reason, now));
    forall i | 0 <= i < |e'.info|
      ensures AccountAt(e', i)
    {
      assert AccountAt(e, i);
    }
  }

  lemma CloseBooks(e: Engine, idx: nat)
    requires BooksOk(e) && idx < e.nextSub && !e.info[idx].learned
    requires e.counters[idx].tally == e.info[idx].emitted
    ensures WF(Close(e, idx)) && BooksOk(Close(e, idx))
  {
    hide AccountOk;
    CloseKeeps(e, idx);
    var e' := Close(e, idx);
    assert AccountAt(e, idx);
    AccountClose(e.counters[idx].tally, e.info[idx].recordSeq, e.info[idx].active, e.acts[idx]);
    forall i | 0 <= i < |e'.info|
      ensures AccountAt(e', i)
    {
      assert AccountAt(e, i);
    }
  }

  lemma ReleaseBooks(e: Engine, imsi: u64, now: u64)
    requires BooksOk(e)
    ensures BooksOk(ReleaseSession(e, imsi, now))
  {
    if Releasable(e, imsi) {
      var idx := e.imsiIndex[imsi];
      EmitBooks(e, idx, Release, now);
      CloseBooks(Emit(e, idx, Release, now), idx);
    }
  }

  lemma ChargeBooks(e: Engine, ev: MeterEvent, b: Binding)
    requires BooksOk(e) && b.sub < e.nextSub && e.info[b.sub].active
    ensures BooksOk(ChargePacket(e, ev, b))
  {
    hide AccountOk;
    var e' := ChargePacket(e, ev, b);
    ChargeKeeps(e, ev, b);
    var i := b.sub;
    var (info, slot) := ResolveSlot(e.info[i], b, ev);
    assert AccountAt(e, i);
    AccountCharge(e.counters[i].tally, e.info[i].emitted, e.info[i].recordSeq, e.acts[i],
                  Charge(IsDown(b, ev), BucketOf(info, ev), slot, ev.bytes));
    forall k | 0 <= k < |e'.info|
      ensures AccountAt(e', k)
    {
      assert AccountAt(e, k);
    }
  }

  lemma LearnBooks(e: Engine, ev: MeterEvent)
    requires BooksOk(e) && e.nextSub < e.cfg.maxSubscribers
    ensures BooksOk(Learn(e, ev))
  {
    hide AccountOk;
    var e' := Learn(e, ev);
    LearnKeeps(e, ev);
    BlankAccount();
    forall i | 0 <= i < |e'.info|
      ensures AccountAt(e', i)
    {
      assert AccountAt(e, i);
    }
  }

  lemma ApplyBooks(e: Engine, ev: MeterEvent)
    requires BooksOk(e)
    ensures BooksOk(Apply(e, ev))
  {
    hide AccountAt, Bound, Enrolled, LookUp, ChargePacket, Settled;
    var e1 := CountEvent(e, ev);
    CountBooks(e, e1);
    CountBooks(e1, CountControl(e1));
    LookUpBooks(e1, ev);
    var e2 := LookUp(e1, ev);
    CountBooks(e2, CountUnknown(e2, ev));
    if ev.teid in e2.teids {
      BindingActive(e2, ev.teid);
      ChargeBooks(e2, ev, e2.teids[ev.teid]);
    }
  }

  lemma LookUpBooks(e: Engine, ev: MeterEvent)
    requires BooksOk(e)
    ensures BooksOk(LookUp(e, ev))
  {
    hide AccountAt, Bound, Enrolled, Learn, Settled;
    if e.nextSub < e.cfg.maxSubscribers {
      LearnBooks(e, ev);
    }
  }

  lemma CountBooks(e: Engine, e': Engine)
    requires BooksOk(e) && WF(e') && e' == e.(stats := e'.stats, cursor := e'.cursor, lastSweep := e'.lastSweep)
    ensures BooksOk(e')
  {
    CountKeeps(e, e');
    UntouchedBooks(e, e');
  }

  lemma BindingActive(e: Engine, t: u32)
    requires TunnelsOk(e) && t in e.teids
    ensures e.info[e.teids[t].sub].active
  {
    assert Owns(e.info[e.teids[t].sub], t, e.teids[t]);
  }

  lemma {:induction false} SweepBooks(e: Engine, n: nat, now: u64)
    requires BooksOk(e) && e.nextSub > 0
    ensures BooksOk(Sweep(e, n, now))
  {
    hide BooksOk, Serve;
    BooksTunnels(e);
    if n > 0 {
      SweepBooks(e, n - 1, now);
      var r := Sweep(e, n - 1, now);
      ServeBooks(r, r.(cursor := Visited(r) + 1), Visited(r), now);
    }
  }

  lemma ServeBooks(e: Engine, e1: Engine, idx: nat, now: u64)
    requires BooksOk(e) && WF(e1) && e1 == e.(cursor := e1.cursor) && idx < e.nextSub
    ensures BooksOk(Serve(e1, idx, now))
  {
    UntouchedBooks(e, e1);
    if Due(e1, idx, now).Some? {
      EmitBooks(e1, idx, Due(e1, idx, now).value, now);
    }
  }

  lemma PollBooks(e: Engine, now: u64)
    requires BooksOk(e)
    ensures BooksOk(Poll(e, now))
  {
    UntouchedBooks(e, e.(lastSweep := now));
    if SweepsAt(e, now) && e.nextSub > 0 {
      SweepBooks(e.(lastSweep := now), Chunk(e.nextSub, e.cfg.sweepFraction), now);
    }
  }

  lemma {:induction false} DrainBooks(e: Engine, n: nat, now: u64)
    requires BooksOk(e) && n <= e.nextSub
    ensures BooksOk(DrainUpTo(e, n, now))
  {
    hide BooksOk, Emit;
    BooksTunnels(e);
    if n > 0 {
      DrainBooks(e, n - 1, now);
      var r := DrainUpTo(e, n - 1, now);
      if Unreported(r, n - 1) {
        EmitBooks(r, n - 1, Shutdown, now);
      }
    }
  }

  lemma StepKeepsBooks(e: Engine, op: Op)
    requires BooksOk(e)
    ensures BooksOk(Step(e, op))
  {
    hide Install, ReleaseSession, Apply, Poll, DrainUpTo, AccountOk, Settled;
    match op
    case DoInstall(spec, now) => InstallBooks(e, spec, now);
    case DoRelease(imsi, now) => ReleaseBooks(e, imsi, now);
    case DoPacket(ev) => ApplyBooks(e, ev);
    case DoGy(gy) =>
      GyKeeps(e, gy);
      UntouchedBooks(e, ApplyGy(e, gy));
    case DoPoll(now) => PollBooks(e, now);
    case DoDrain(now) => DrainBooks(e, e.nextSub, now);
  }

  lemma {:induction false} RunFromKeepsBooks(e: Engine, ops: seq<Op>)
    requires BooksOk(e)
    ensures BooksOk(Run(e, ops))
  {
    hide BooksOk;
    BooksTunnels(e);
    if ops != [] {
      var n := |ops| - 1;
      RunFromKeepsBooks(e, ops[..n]);
      StepKeepsBooks(Run(e, ops[..n]), ops[n]);
    }
  }

  lemma RunKeepsBooks(cfg: Config, ops: seq<Op>)
    ensures BooksOk(Run(Start(cfg), ops))
  {
    hide AccountOk;
    BlankAccount();
    StartOk(cfg);
    RunFromKeepsBooks(Start(cfg), ops);
  }

  // ---------------------------------------------------------------------------
  // What this says about a run
  // ---------------------------------------------------------------------------

  /** Billing conservation over every run. For the current activation of every subscriber:
      records plus pending usage equal the charges, in every direction and slot, modulo 2^64 and
      exactly while the charges fit 64 bits; slots cover both directions; record numbers have no
      gap. Every ended activation was billed in full. */
  lemma BillingConserved(cfg: Config, ops: seq<Op>, i: nat)
    requires i < cfg.maxSubscribers
    ensures var e := Run(Start(cfg), ops);
            && AddsUp(e.counters[i].tally, e.info[i].emitted, e.acts[i])
            && (!e.info[i].active ==> e.counters[i].tally == e.info[i].emitted && Settled(e.acts[i]))
            && forall k :: 0 <= k < |e.closed| ==> Settled(e.closed[k])
  {
    hide AccountOk, AddsUp, Settled;
    var e := Run(Start(cfg), ops);
    RunKeepsBooks(cfg, ops);
    assert AccountAt(e, i);
    AccountAddsUp(e.counters[i].tally, e.info[i].emitted, e.info[i].recordSeq, e.info[i].active, e.acts[i]);
  }

  ghost predicate AddsUp(c: WordTally, emitted: WordTally, acts: seq<Act>) {
    && Wrap(Plus(Total(Records(acts)), Delta(c, emitted))) == Wrap(Charged(acts)) == c
    && (IsWord(Charged(acts)) ==> Plus(Total(Records(acts)), Delta(c, emitted)) == Charged(acts))
    && SlotsCover(Charged(acts))
    && Gapless(Records(acts))
  }

  lemma AccountAddsUp(c: WordTally, emitted: WordTally, recordSeq: u32, active: bool, acts: seq<Act>)
    requires AccountOk(c, emitted, recordSeq, active, acts)
    ensures AddsUp(c, emitted, acts)
    ensures !active ==> c == emitted && Settled(acts)
  {
    hide Balanced, Delta, Wrap, Plus;
    Conservation(c, emitted, Charged(acts), Total(Records(acts)));
    if !active {
      NothingPending(c, recordSeq, active, acts);
    }
  }

  // ---------------------------------------------------------------------------
  // Draining
  // ---------------------------------------------------------------------------

  lemma NothingLeft(c: WordTally, emitted: WordTally, recordSeq: u32, acts: seq<Act>)
    requires AccountOk(c, emitted, recordSeq, true, acts) && IsWord(Charged(acts))
    requires c.ulBytes == emitted.ulBytes && c.dlBytes == emitted.dlBytes
    ensures c.b0 == emitted.b0 && c.b1 == emitted.b1 && c.b2 == emitted.b2
  {
    hide Balanced, SlotsCover;
    DirectionsCoverSlots(c, emitted, Charged(acts), Total(Records(acts)));
  }

  lemma {:induction false} DrainClears(e: Engine, n: nat, now: u64, i: nat)
    requires WF(e) && n <= e.nextSub && i < e.nextSub
    ensures var e' := DrainUpTo(e, n, now);
            && e'.counters == e.counters && e'.info[i].active == e.info[i].active
            && (n <= i ==> e'.info[i] == e.info[i] && e'.acts[i] == e.acts[i])
            && (i < n ==> !Unreported(e', i))
  {
    hide Emit, IndicesOk;
    if n > 0 {
      DrainClears(e, n - 1, now, i);
      var r := DrainUpTo(e, n - 1, now);
      EmitClears(r, n - 1, now);
    }
  }

  lemma EmitClears(e: Engine, idx: nat, now: u64)
    requires WF(e) && idx < e.nextSub
    ensures var r := Emit(e, idx, Shutdown, now);
            && r.counters == e.counters && |r.info| == |e.info| && |r.acts| == |e.acts| && !Unreported(r, idx)
            && r.info[idx].active == e.info[idx].active
            && forall i :: 0 <= i < |e.info| && i != idx ==> r.info[i] == e.info[i] && r.acts[i] == e.acts[i]
  {
    hide IndicesOk;
  }

  /** After a drain no active subscriber has pending bytes in either direction, nor in any slot
      while the bytes of the activation fit 64 bits. */
  lemma DrainReportsEverything(cfg: Config, ops: seq<Op>, now: u64, i: nat)
    requires i < cfg.maxSubscribers
    ensures var e := Drain(Run(Start(cfg), ops), now);
            var c, m := e.counters[i].tally, e.info[i].emitted;
            && c.ulBytes == m.ulBytes && c.dlBytes == m.dlBytes
            && (IsWord(Charged(e.acts[i])) ==> c.b0 == m.b0 && c.b1 == m.b1 && c.b2 == m.b2)
  {
    hide AccountOk;
    var e0 := Run(Start(cfg), ops);
    var e := Drain(e0, now);
    RunKeepsBooks(cfg, ops);
    StepKeepsBooks(e0, DoDrain(now));
    assert AccountAt(e, i);
    if e.info[i].active {
      DrainClears(e0, e0.nextSub, now, i);
      if IsWord(Charged(e.acts[i])) {
        NothingLeft(e.counters[i].tally, e.info[i].emitted, e.info[i].recordSeq, e.acts[i]);
      }
    } else {
      AccountAddsUp(e.counters[i].tally, e.info[i].emitted, e.info[i].recordSeq, false, e.acts[i]);
    }
  }

  /** A second drain finds nothing to report. */
  lemma {:induction false} DrainTwice(e: Engine, n: nat, t1: u64, t2: u64)
    requires WF(e) && n <= e.nextSub
    ensures DrainUpTo(Drain(e, t1), n, t2) == Drain(e, t1)
  {
    hide Emit, Unreported, IndicesOk;
    if n > 0 {
      DrainTwice(e, n - 1, t1, t2);
      DrainClears(e, e.nextSub, t1, n - 1);
    }
  }
}

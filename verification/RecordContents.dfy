/** What usage records say: whose usage they tell, over which interval, and what was charged in it. Every record
    of every activation is checked against the history before it. */
module RecordContents {
  import opened Words
  import opened Usage
  import opened Meter
  import opened Tunnels
  import opened Billing

  // ---------------------------------------------------------------------------
  // Reading a history
  // ---------------------------------------------------------------------------

  /** What has happened since the last record. */
  ghost function Since(acts: seq<Act>): seq<Act> {
    if acts == [] || acts[|acts| - 1].Report? then [] else Since(acts[..|acts| - 1]) + [acts[|acts| - 1]]
  }

  /** Where the last record ended, or else when the activation began. */
  ghost function LastEnd(acts: seq<Act>, at: u64): u64 {
    if acts == [] then at
    else if acts[|acts| - 1].Report? then acts[|acts| - 1].record.intervalEnd
    else LastEnd(acts[..|acts| - 1], at)
  }

  /** A record that follows the history `before`: it names the identity and index of the activation, starts
      where the previous one ended, and tells exactly what was charged since. */
  ghost predicate TrueRecord(r: UsageRecord, before: seq<Act>, o: Origin) {
    && r.imsi == o.imsi && r.sub == o.sub
    && r.intervalStart == LastEnd(before, o.at)
    && r.usage == Wrap(Charged(Since(before)))
  }

  ghost predicate TrueRecords(acts: seq<Act>, o: Origin) {
    forall j :: 0 <= j < |acts| && acts[j].Report? ==> TrueRecord(acts[j].record, acts[..j], o)
  }

  lemma SinceMore(acts: seq<Act>, a: Act, at: u64)
    ensures Since(acts + [a]) == if a.Report? then [] else Since(acts) + [a]
    ensures LastEnd(acts + [a], at) == if a.Report? then a.record.intervalEnd else LastEnd(acts, at)
  {
    assert (acts + [a])[..|acts|] == acts;
  }

  lemma TrueMore(acts: seq<Act>, a: Act, o: Origin)
    requires TrueRecords(acts, o) && (a.Report? ==> TrueRecord(a.record, acts, o))
    ensures TrueRecords(acts + [a], o)
  {
    hide TrueRecord;
    var all := acts + [a];
    forall j | 0 <= j < |all| && all[j].Report?
      ensures TrueRecord(all[j].record, all[..j], o)
    {
      assert all[..j] == acts[..j];
    }
  }

  /** Only identity, index and start of the origin matter. */
  lemma SameOrigin(acts: seq<Act>, o: Origin, o': Origin)
    requires TrueRecords(acts, o) && o'.imsi == o.imsi && o'.sub == o.sub && o'.at == o.at
    ensures TrueRecords(acts, o')
  {
    forall j | 0 <= j < |acts| && acts[j].Report?
      ensures TrueRecord(acts[j].record, acts[..j], o')
    {
      assert TrueRecord(acts[j].record, acts[..j], o);
    }
  }

  // ---------------------------------------------------------------------------
  // One account
  // ---------------------------------------------------------------------------

  /** The fields that the next record is made of agree with origin and history. */
  ghost predicate AccountTrue(c: WordTally, info: Info, o: Origin, acts: seq<Act>) {
    && info.imsi == o.imsi && info.firstSeen == o.at && info.ratingGroup == o.group
    && info.intervalStart == LastEnd(acts, o.at)
    && Delta(c, info.emitted) == Wrap(Charged(Since(acts)))
    && TrueRecords(acts, o)
  }

  lemma DeltaMoves(c: u64, m: u64, x: nat)
    ensures Sub64((c + x) % TWO64, m) == (Sub64(c, m) + x) % TWO64
  {
  }

  lemma DeltaCharge(c: WordTally, m: WordTally, x: Tally)
    ensures Delta(Wrap(Plus(c, x)), m) == Wrap(Plus(Delta(c, m), x))
  {
    hide Sub64;
    var d, w := Delta(Wrap(Plus(c, x)), m), Wrap(Plus(Delta(c, m), x));
    assert d.ulBytes == w.ulBytes by { DeltaMoves(c.ulBytes, m.ulBytes, x.ulBytes); }
    assert d.dlBytes == w.dlBytes by { DeltaMoves(c.dlBytes, m.dlBytes, x.dlBytes); }
    assert d.ulPackets == w.ulPackets by { DeltaMoves(c.ulPackets, m.ulPackets, x.ulPackets); }
    assert d.dlPackets == w.dlPackets by { DeltaMoves(c.dlPackets, m.dlPackets, x.dlPackets); }
    assert d.b0 == w.b0 by { DeltaMoves(c.b0, m.b0, x.b0); }
    assert d.b1 == w.b1 by { DeltaMoves(c.b1, m.b1, x.b1); }
    assert d.b2 == w.b2 by { DeltaMoves(c.b2, m.b2, x.b2); }
  }

  lemma WrapLate(a: Tally, x: Tally)
    ensures Wrap(Plus(Wrap(a), x)) == Wrap(Plus(a, x))
  {
    WrapAdd(a.ulBytes, x.ulBytes);
    WrapAdd(a.dlBytes, x.dlBytes);
    WrapAdd(a.ulPackets, x.ulPackets);
    WrapAdd(a.dlPackets, x.dlPackets);
    WrapAdd(a.b0, x.b0);
    WrapAdd(a.b1, x.b1);
    WrapAdd(a.b2, x.b2);
  }

  lemma NoDelta(c: WordTally)
    ensures Delta(c, c) == Wrap(Charged([]))
  {
  }

  lemma AccountCharged(c: WordTally, info: Info, o: Origin, acts: seq<Act>, a: Act)
    requires AccountTrue(c, info, o, acts) && a.Charge?
    ensures AccountTrue(Wrap(Plus(c, Packet(a.down, a.slot, a.bytes))), info, o, acts + [a])
  {
    hide Wrap, Plus, Delta, Charged, TrueRecords, Packet;
    SinceMore(acts, a, o.at);
    TrueMore(acts, a, o);
    AppendCharge(Since(acts), a);
    var x := Packet(a.down, a.slot, a.bytes);
    DeltaCharge(c, info.emitted, x);
    WrapLate(Charged(Since(acts)), x);
  }

  lemma AccountReported(c: WordTally, info: Info, o: Origin, acts: seq<Act>, r: UsageRecord, info': Info)
    requires AccountTrue(c, info, o, acts)
    requires r.imsi == info.imsi && r.sub == o.sub && r.intervalStart == info.intervalStart && r.usage == Delta(c, info.emitted)
    requires info'.imsi == info.imsi && info'.firstSeen == info.firstSeen && info'.ratingGroup == info.ratingGroup
    requires info'.intervalStart == r.intervalEnd && info'.emitted == c
    ensures AccountTrue(c, info', o, acts + [Report(r)])
  {
    hide Wrap, Delta, Charged, TrueRecords;
    SinceMore(acts, Report(r), o.at);
    TrueMore(acts, Report(r), o);
    NoDelta(c);
  }

  lemma BlankTrue(info: Info, o: Origin)
    requires info.emitted == Zero && info.imsi == o.imsi && info.firstSeen == o.at == info.intervalStart && info.ratingGroup == o.group
    ensures AccountTrue(Zero, info, o, [])
  {
    hide Delta, Wrap;
    NoDelta(Zero);
  }

  /** What the account does not look at may change. */
  lemma SameAccount(c: WordTally, info: Info, o: Origin, acts: seq<Act>, info': Info, o': Origin)
    requires AccountTrue(c, info, o, acts)
    requires info'.imsi == info.imsi && info'.firstSeen == info.firstSeen && info'.intervalStart == info.intervalStart
    requires info'.emitted == info.emitted && info'.ratingGroup == o'.group
    requires o'.imsi == o.imsi && o'.sub == o.sub && o'.at == o.at
    ensures AccountTrue(c, info', o', acts)
  {
    hide TrueRecords, Delta, Wrap, Charged;
    SameOrigin(acts, o, o');
  }

  // ---------------------------------------------------------------------------
  // The engine
  // ---------------------------------------------------------------------------

  ghost predicate TrueAt(e: Engine, i: nat)
    requires WF(e) && i < |e.info|
  {
    AccountTrue(e.counters[i].tally, e.info[i], e.origins[i], e.acts[i]) && (i < e.nextSub ==> e.origins[i].sub == i)
  }

  ghost predicate ContentsOk(e: Engine) {
    && TunnelsOk(e) && |e.past| == |e.closed|
    && (forall i :: 0 <= i < |e.info| ==> TrueAt(e, i))
    && (forall k :: 0 <= k < |e.closed| ==> TrueRecords(e.closed[k], e.past[k]))
  }

  /** Nothing that records are made of changes for subscriber `i`. */
  ghost predicate SameSource(e: Engine, r: Engine, i: nat)
    requires WF(e) && WF(r) && i < |e.info| && i < |r.info|
  {
    && r.counters[i].tally == e.counters[i].tally && r.acts[i] == e.acts[i] && r.origins[i] == e.origins[i]
    && r.info[i].imsi == e.info[i].imsi && r.info[i].firstSeen == e.info[i].firstSeen
    && r.info[i].intervalStart == e.info[i].intervalStart && r.info[i].emitted == e.info[i].emitted
    && r.info[i].ratingGroup == e.info[i].ratingGroup
  }

  lemma SameTrue(e: Engine, r: Engine, i: nat)
    requires WF(e) && WF(r) && i < |e.info| && i < |r.info| && TrueAt(e, i) && SameSource(e, r, i)
    requires i < r.nextSub ==> r.origins[i].sub == i
    ensures TrueAt(r, i)
  {
    hide TrueRecords, Delta, Wrap, Charged, IndicesOk;
  }

  /** A step that leaves all accounts alone. */
  lemma UntouchedContents(e: Engine, r: Engine)
    requires ContentsOk(e) && TunnelsOk(r) && |r.info| == |e.info| && r.closed == e.closed && r.past == e.past && r.nextSub == e.nextSub
    requires forall i :: 0 <= i < |e.info| ==> SameSource(e, r, i)
    ensures ContentsOk(r)
  {
    hide AccountTrue, Bound, Enrolled, IndicesOk;
    forall i | 0 <= i < |r.info|
      ensures TrueAt(r, i)
    {
      assert TrueAt(e, i) && SameSource(e, r, i);
      SameTrue(e, r, i);
    }
  }

  lemma ActivateContents(e: Engine, spec: SessionSpec, now: u64)
    requires ContentsOk(e) && Accepts(e, spec)
    ensures var e1 := Register(e, spec.imsi);
            ContentsOk(Open(e1, e1.imsiIndex[spec.imsi], spec, now))
  {
    hide TrueAt, Bound, Enrolled, TrueRecords, IndicesOk, Open, Register;
    ActivateKeeps(e, spec, now);
    RegisterIndex(e, spec);
    var e1 := Register(e, spec.imsi);
    var idx := e1.imsiIndex[spec.imsi];
    var r := Open(e1, idx, spec, now);
    assert TrueAt(e, idx);
    OpenedTrue(e, e1, idx, spec, now);
    forall i | 0 <= i < |r.info|
      ensures TrueAt(r, i)
    {
      assert TrueAt(e, i);
      if i != idx {
        OpenOthers(e, e1, idx, spec, now, i);
      }
    }
    EndedTrue(e, idx);
    OpenCloses(e, e1, idx, spec, now);
  }

  lemma OpenOthers(e: Engine, e1: Engine, idx: nat, spec: SessionSpec, now: u64, i: nat)
    requires WF(e) && WF(e1) && idx < e1.nextSub && i < |e.info| && i != idx && TrueAt(e, i)
    requires e1 == e.(imsiIndex := e1.imsiIndex, nextSub := e1.nextSub, stats := e1.stats)
    requires i < e1.nextSub ==> i < e.nextSub
    ensures TrueAt(Open(e1, idx, spec, now), i)
  {
    hide AccountTrue, IndicesOk;
    SameTrue(e, Open(e1, idx, spec, now), i);
  }

  /** A session that starts afresh moves history and origin of the one before it to those that have ended. */
  lemma OpenCloses(e: Engine, e1: Engine, idx: nat, spec: SessionSpec, now: u64)
    requires WF(e) && WF(e1) && idx < e1.nextSub
    requires e1 == e.(imsiIndex := e1.imsiIndex, nextSub := e1.nextSub, stats := e1.stats)
    requires |e.past| == |e.closed| && TrueRecords(e.acts[idx], e.origins[idx])
    requires forall k :: 0 <= k < |e.closed| ==> TrueRecords(e.closed[k], e.past[k])
    ensures var r := Open(e1, idx, spec, now);
            |r.past| == |r.closed| && |r.info| == |e.info| && forall k :: 0 <= k < |r.closed| ==> TrueRecords(r.closed[k], r.past[k])
  {
    hide TrueRecords, IndicesOk;
  }

  lemma OpenedTrue(e: Engine, e1: Engine, idx: nat, spec: SessionSpec, now: u64)
    requires WF(e) && WF(e1) && idx < e1.nextSub && idx < |e.info| && TrueAt(e, idx)
    requires e1 == e.(imsiIndex := e1.imsiIndex, nextSub := e1.nextSub, stats := e1.stats)
    requires e.info[idx].active ==> idx < e.nextSub && e.info[idx].imsi == spec.imsi
    ensures TrueAt(Open(e1, idx, spec, now), idx)
  {
    hide AccountTrue, IndicesOk;
    var r := Open(e1, idx, spec, now);
    if e.info[idx].active {
      SameAccount(e.counters[idx].tally, e.info[idx], e.origins[idx], e.acts[idx], r.info[idx], r.origins[idx]);
    } else {
      BlankTrue(r.info[idx], r.origins[idx]);
    }
  }

  lemma RegisterIndex(e: Engine, spec: SessionSpec)
    requires TunnelsOk(e) && Accepts(e, spec)
    ensures var e1 := Register(e, spec.imsi);
            e1 == e.(imsiIndex := e1.imsiIndex, nextSub := e1.nextSub, stats := e1.stats)
    ensures var idx := Register(e, spec.imsi).imsiIndex[spec.imsi];
            && idx < e.cfg.maxSubscribers && idx < Register(e, spec.imsi).nextSub && (e.info[idx].active ==> idx < e.nextSub && e.info[idx].imsi == spec.imsi)
            && (Register(e, spec.imsi).nextSub == e.nextSub
                || (Register(e, spec.imsi).nextSub == e.nextSub + 1 && idx == e.nextSub))
  {
    hide Bound;
  }

  lemma EndedTrue(e: Engine, i: nat)
    requires WF(e) && i < |e.info| && TrueAt(e, i)
    ensures TrueRecords(e.acts[i], e.origins[i])
  {
    hide TrueRecords;
  }

  lemma PrepareContents(e: Engine, spec: SessionSpec, now: u64)
    requires ContentsOk(e) && Accepts(e, spec)
    ensures ContentsOk(Prepare(e, spec, now))
  {
    hide ContentsOk, Bound, Enrolled, Open;
    TunnelsOf(e);
    ActivateContents(e, spec, now);
    PrepareKeeps(e, spec, now);
    var e1 := Register(e, spec.imsi);
    var idx := e1.imsiIndex[spec.imsi];
    MoveContents(Open(e1, idx, spec, now), idx, spec);
  }

  lemma TunnelsOf(e: Engine)
    requires ContentsOk(e)
    ensures TunnelsOk(e)
  {
  }

  lemma MoveContents(e: Engine, idx: nat, spec: SessionSpec)
    requires ContentsOk(e) && idx < e.nextSub && TunnelsOk(MoveTunnels(e, idx, spec))
    ensures ContentsOk(MoveTunnels(e, idx, spec))
  {
    hide TrueAt, TrueRecords, Bound, Enrolled;
    UntouchedContents(e, MoveTunnels(e, idx, spec));
  }

  lemma InstallContents(e: Engine, spec: SessionSpec, now: u64)
    requires ContentsOk(e)
    ensures ContentsOk(Install(e, spec, now))
  {
    hide ContentsOk, Bound, Enrolled, Prepare, BindTunnels;
    TunnelsOf(e);
    if Accepts(e, spec) {
      PrepareContents(e, spec, now);
      PrepareKeeps(e, spec, now);
      var p := Prepare(e, spec, now);
      BindContents(p, p.imsiIndex[spec.imsi], spec);
    }
  }

  lemma BindContents(e: Engine, idx: nat, spec: SessionSpec)
    requires ContentsOk(e) && Ready(e, idx, spec)
    ensures ContentsOk(BindTunnels(e, idx, spec))
  {
    hide TrueAt, TrueRecords, Bound, Enrolled, AssignSlot, BindIfSet;
    BindTunnelsKeeps(e, idx, spec);
    UntouchedContents(e, BindTunnels(e, idx, spec));
  }

  lemma EmitContents(e: Engine, idx: nat, reason: Reason, now: u64)
    requires ContentsOk(e) && idx < e.nextSub
    ensures ContentsOk(Emit(e, idx, reason, now))
  {
    EmitKeeps(e, idx, reason, now);
    hide AccountTrue, Bound, Enrolled, TrueRecords, IndicesOk, Delta;
    var r := Emit(e, idx, reason, now);
    forall i | 0 <= i < |r.info|
      ensures TrueAt(r, i)
    {
      assert TrueAt(e, i);
      if i == idx {
        AccountReported(e.counters[i].tally, e.info[i], e.origins[i], e.acts[i], RecordOf(e, idx, reason, now), r.info[i]);
      } else {
        SameTrue(e, r, i);
      }
    }
  }

  lemma ReleaseContents(e: Engine, imsi: u64, now: u64)
    requires ContentsOk(e)
    ensures ContentsOk(ReleaseSession(e, imsi, now))
  {
    hide ContentsOk, Bound, Enrolled, Emit, Close;
    TunnelsOf(e);
    ReleaseKeeps(e, imsi, now);
    if Releasable(e, imsi) {
      var idx := e.imsiIndex[imsi];
      EmitContents(e, idx, Release, now);
      EmitReports(e, idx, Release, now);
      TunnelsOf(Emit(e, idx, Release, now));
      CloseContents(Emit(e, idx, Release, now), idx);
    }
  }

  lemma CloseContents(e: Engine, idx: nat)
    requires ContentsOk(e) && idx < |e.info| && TunnelsOk(Close(e, idx))
    ensures ContentsOk(Close(e, idx))
  {
    hide TrueAt, TrueRecords, Bound, Enrolled;
    UntouchedContents(e, Close(e, idx));
  }

  lemma ChargeContents(e: Engine, ev: MeterEvent, b: Binding)
    requires ContentsOk(e) && b.sub < e.nextSub
    ensures ContentsOk(ChargePacket(e, ev, b))
  {
    ChargeKeeps(e, ev, b);
    hide AccountTrue, Bound, Enrolled, TrueRecords, IndicesOk, Wrap, Plus, Packet, AssignSlot;
    var r := ChargePacket(e, ev, b);
    forall i | 0 <= i < |r.info|
      ensures TrueAt(r, i)
    {
      assert TrueAt(e, i);
      if i == b.sub {
        var a := r.acts[i][|e.acts[i]|];
        AccountCharged(e.counters[i].tally, e.info[i], e.origins[i], e.acts[i], a);
        SameAccount(r.counters[i].tally, e.info[i], e.origins[i], r.acts[i], r.info[i], r.origins[i]);
      } else {
        SameTrue(e, r, i);
      }
    }
  }

  lemma LearnContents(e: Engine, ev: MeterEvent)
    requires ContentsOk(e) && e.nextSub < e.cfg.maxSubscribers
    ensures ContentsOk(Learn(e, ev))
  {
    LearnKeeps(e, ev);
    hide AccountTrue, Bound, Enrolled, TrueRecords, IndicesOk, AssignSlot;
    var r := Learn(e, ev);
    forall i | 0 <= i < |r.info|
      ensures TrueAt(r, i)
    {
      assert TrueAt(e, i);
      if i == e.nextSub {
        BlankTrue(r.info[i], r.origins[i]);
      } else {
        SameTrue(e, r, i);
      }
    }
  }

  lemma CountContents(e: Engine, e': Engine)
    requires ContentsOk(e) && WF(e') && e' == e.(stats := e'.stats, cursor := e'.cursor, lastSweep := e'.lastSweep)
    ensures ContentsOk(e')
  {
    hide TrueAt, TrueRecords, Bound, Enrolled;
    CountKeeps(e, e');
    UntouchedContents(e, e');
  }

  lemma ApplyContents(e: Engine, ev: MeterEvent)
    requires ContentsOk(e)
    ensures ContentsOk(Apply(e, ev))
  {
    hide ContentsOk, Bound, Enrolled, LookUp, ChargePacket;
    TunnelsOf(e);
    var e1 := CountEvent(e, ev);
    CountContents(e, e1);
    CountContents(e1, CountControl(e1));
    LookUpContents(e1, ev);
    var e2 := LookUp(e1, ev);
    CountContents(e2, CountUnknown(e2, ev));
    if ev.teid in e2.teids {
      ChargeContents(e2, ev, e2.teids[ev.teid]);
    }
  }

  lemma LookUpContents(e: Engine, ev: MeterEvent)
    requires ContentsOk(e)
    ensures ContentsOk(LookUp(e, ev))
  {
    hide ContentsOk, Learn;
    TunnelsOf(e);
    if e.nextSub < e.cfg.maxSubscribers {
      LearnContents(e, ev);
    }
  }

  lemma GyContents(e: Engine, gy: GyEvent)
    requires ContentsOk(e)
    ensures ContentsOk(ApplyGy(e, gy))
  {
    hide TrueAt, TrueRecords, Bound, Enrolled;
    GyKeeps(e, gy);
    UntouchedContents(e, ApplyGy(e, gy));
  }

  lemma {:induction false} SweepContents(e: Engine, n: nat, now: u64)
    requires ContentsOk(e) && e.nextSub > 0
    ensures ContentsOk(Sweep(e, n, now))
  {
    hide ContentsOk, SweepOne;
    TunnelsOf(e);
    if n > 0 {
      SweepContents(e, n - 1, now);
      SweepOneContents(Sweep(e, n - 1, now), now);
    }
  }

  lemma SweepOneContents(e: Engine, now: u64)
    requires ContentsOk(e) && e.nextSub > 0
    ensures ContentsOk(SweepOne(e, now))
  {
    hide ContentsOk, Emit, Due, IndicesOk;
    TunnelsOf(e);
    var e1 := e.(cursor := Visited(e) + 1);
    CountContents(e, e1);
    if Due(e1, Visited(e), now).Some? {
      EmitContents(e1, Visited(e), Due(e1, Visited(e), now).value, now);
    }
  }

  lemma {:induction false} DrainContents(e: Engine, n: nat, now: u64)
    requires ContentsOk(e) && n <= e.nextSub
    ensures ContentsOk(DrainUpTo(e, n, now))
  {
    hide ContentsOk, Emit, Unreported;
    TunnelsOf(e);
    if n > 0 {
      DrainContents(e, n - 1, now);
      EmitContents(DrainUpTo(e, n - 1, now), n - 1, Shutdown, now);
    }
  }

  lemma PollContents(e: Engine, now: u64)
    requires ContentsOk(e)
    ensures ContentsOk(Poll(e, now))
  {
    hide ContentsOk, Sweep;
    TunnelsOf(e);
    CountContents(e, e.(lastSweep := now));
    if SweepsAt(e, now) && e.nextSub > 0 {
      SweepContents(e.(lastSweep := now), Chunk(e.nextSub, e.cfg.sweepFraction), now);
    }
  }

  lemma StepContents(e: Engine, op: Op)
    requires ContentsOk(e)
    ensures ContentsOk(Step(e, op))
  {
    hide ContentsOk, Install, ReleaseSession, Apply, ApplyGy, Poll, DrainUpTo;
    TunnelsOf(e);
    match op
    case DoInstall(spec, now) => InstallContents(e, spec, now);
    case DoRelease(imsi, now) => ReleaseContents(e, imsi, now);
    case DoPacket(ev) => ApplyContents(e, ev);
    case DoGy(gy) => GyContents(e, gy);
    case DoPoll(now) => PollContents(e, now);
    case DoDrain(now) => DrainContents(e, e.nextSub, now);
  }

  lemma StartContents(cfg: Config)
    ensures ContentsOk(Start(cfg))
  {
    hide AccountTrue;
    StartOk(cfg);
    BlankTrue(NoInfo, NoOrigin);
  }

  /** In every run every record of every activation, current and ended, tells the truth: identity and index of
      the activation, an interval that starts with the activation or where the previous record ended, and
      exactly what was charged in between, in each direction and slot. */
  lemma {:induction false} RecordsAreTrue(cfg: Config, ops: seq<Op>)
    ensures ContentsOk(Run(Start(cfg), ops))
  {
    hide ContentsOk, Step, Start;
    if ops == [] {
      StartContents(cfg);
    } else {
      RecordsAreTrue(cfg, ops[..|ops| - 1]);
      StepContents(Run(Start(cfg), ops[..|ops| - 1]), ops[|ops| - 1]);
    }
  }
}

/** Where usage records go: in every run the records pushed at the record ring are exactly those of all
    activations, each once, and the ring's own order only grows. */
module Ledger {
  import opened Words
  import opened Meter
  import opened Tunnels
  import opened Billing
  import opened Usage

  /** All records of some activations. */
  ghost function Bag(histories: seq<seq<Act>>): multiset<UsageRecord> {
    if histories == [] then multiset{}
    else Bag(histories[..|histories| - 1]) + multiset(Records(histories[|histories| - 1]))
  }

  lemma BagAppend(hs: seq<seq<Act>>, h: seq<Act>)
    ensures Bag(hs + [h]) == Bag(hs) + multiset(Records(h))
  {
    assert (hs + [h])[..|hs|] == hs;
  }

  lemma {:induction false} BagUpdate(hs: seq<seq<Act>>, i: nat, h: seq<Act>)
    requires i < |hs|
    ensures Bag(hs[i := h]) + multiset(Records(hs[i])) == Bag(hs) + multiset(Records(h))
    decreases |hs|
  {
    hide Records;
    var n := |hs| - 1;
    if i == n {
      assert hs[i := h][..n] == hs[..n];
    } else {
      assert hs[i := h][..n] == hs[..n][i := h] && hs[i := h][n] == hs[n] && hs[..n][i] == hs[i];
      BagUpdate(hs[..n], i, h);
      Swap(Bag(hs[..n][i := h]), multiset(Records(hs[i])), Bag(hs[..n]), multiset(Records(h)), multiset(Records(hs[n])));
    }
  }

  lemma Swap(a: multiset<UsageRecord>, x: multiset<UsageRecord>, b: multiset<UsageRecord>, y: multiset<UsageRecord>,
             c: multiset<UsageRecord>)
    requires a + x == b + y
    ensures a + c + x == b + c + y
  {
    assert a + c + x == (a + x) + c;
    assert b + c + y == (b + y) + c;
  }

  lemma Cancel(a: multiset<UsageRecord>, b: multiset<UsageRecord>, c: multiset<UsageRecord>)
    requires a + c == b + c
    ensures a == b
  {
    forall x: UsageRecord
      ensures a[x] == b[x]
    {
      assert (a + c)[x] == (b + c)[x];
    }
  }

  lemma BagMore(hs: seq<seq<Act>>, i: nat, h: seq<Act>, r: UsageRecord)
    requires i < |hs| && Records(h) == Records(hs[i]) + [r]
    ensures Bag(hs[i := h]) == Bag(hs) + multiset{r}
  {
    hide Records, Bag;
    BagUpdate(hs, i, h);
    var c := multiset(Records(hs[i]));
    assert multiset(Records(h)) == c + multiset{r};
    assert Bag(hs) + (c + multiset{r}) == (Bag(hs) + multiset{r}) + c;
    Cancel(Bag(hs[i := h]), Bag(hs) + multiset{r}, c);
  }

  lemma BagSame(hs: seq<seq<Act>>, i: nat, h: seq<Act>)
    requires i < |hs| && Records(h) == Records(hs[i])
    ensures Bag(hs[i := h]) == Bag(hs)
  {
    hide Records, Bag;
    BagUpdate(hs, i, h);
    Cancel(Bag(hs[i := h]), Bag(hs), multiset(Records(hs[i])));
  }

  lemma {:induction false} InBag(hs: seq<seq<Act>>, i: nat)
    requires i < |hs|
    ensures multiset(Records(hs[i])) <= Bag(hs)
    decreases |hs|
  {
    hide Records;
    if i < |hs| - 1 {
      InBag(hs[..|hs| - 1], i);
    }
  }

  lemma {:induction false} BagOfNone(hs: seq<seq<Act>>)
    requires forall i :: 0 <= i < |hs| ==> hs[i] == []
    ensures Bag(hs) == multiset{}
    decreases |hs|
  {
    if hs != [] {
      BagOfNone(hs[..|hs| - 1]);
    }
  }

  /** How many of the first `n` records that are pushed find room. */
  ghost function WithRoom(accepts: nat -> bool, n: nat): nat {
    if n == 0 then 0 else WithRoom(accepts, n - 1) + if accepts(n - 1) then 1 else 0
  }

  /** Every record of every activation was pushed, and nothing else was; the ring took those for which it had room. */
  ghost predicate Filed(e: Engine) {
    && |e.sent| == WithRoom(e.cfg.accepts, |e.sent| + |e.refused|)
    && Bag(e.acts) + Bag(e.closed) == multiset(e.sent) + multiset(e.refused)
    && |e.sent| == e.stats.recordsEmitted && |e.refused| == e.stats.recordsDropped
  }

  /** Nothing happened to histories or records. */
  ghost predicate SameFiles(e: Engine, r: Engine) {
    && r.cfg == e.cfg && r.acts == e.acts && r.closed == e.closed && r.sent == e.sent && r.refused == e.refused
    && r.stats.recordsEmitted == e.stats.recordsEmitted && r.stats.recordsDropped == e.stats.recordsDropped
  }

  /** Records are only added at the end. */
  ghost predicate Extends(e: Engine, r: Engine) {
    e.sent <= r.sent && e.refused <= r.refused
  }

  lemma EmitFiles(e: Engine, idx: nat, reason: Reason, now: u64)
    requires idx < |e.info| == |e.counters| == |e.acts|
    ensures Extends(e, Emit(e, idx, reason, now)) && (Filed(e) ==> Filed(Emit(e, idx, reason, now)))
    ensures |Emit(e, idx, reason, now).info| == |e.info|
  {
    hide RecordOf, Records, Bag;
    var r := RecordOf(e, idx, reason, now);
    AppendReport(e.acts[idx], r);
    BagMore(e.acts, idx, e.acts[idx] + [Report(r)], r);
    OneMore(Bag(e.acts), Bag(e.closed), e.sent, e.refused, r);
  }

  lemma OneMore(a: multiset<UsageRecord>, b: multiset<UsageRecord>, sent: seq<UsageRecord>, refused: seq<UsageRecord>,
                r: UsageRecord)
    ensures a + b == multiset(sent) + multiset(refused) ==>
              && (a + multiset{r}) + b == multiset(sent + [r]) + multiset(refused)
              && (a + multiset{r}) + b == multiset(sent) + multiset(refused + [r])
  {
    assert (a + multiset{r}) + b == (a + b) + multiset{r};
  }

  lemma {:induction false} SweepFiles(e: Engine, n: nat, now: u64)
    requires WF(e) && e.nextSub > 0
    ensures Extends(e, Sweep(e, n, now)) && (Filed(e) ==> Filed(Sweep(e, n, now)))
  {
    hide SweepOne, Filed;
    if n > 0 {
      SweepFiles(e, n - 1, now);
      SweepOneFiles(Sweep(e, n - 1, now), now);
    }
  }

  lemma SweepOneFiles(e: Engine, now: u64)
    requires WF(e) && e.nextSub > 0
    ensures Extends(e, SweepOne(e, now)) && (Filed(e) ==> Filed(SweepOne(e, now)))
  {
    hide Emit, Due, Filed, IndicesOk;
    var e1 := e.(cursor := Visited(e) + 1);
    SameFiled(e, e1);
    if Due(e1, Visited(e), now).Some? {
      EmitFiles(e1, Visited(e), Due(e1, Visited(e), now).value, now);
    }
  }

  lemma SameFiled(e: Engine, r: Engine)
    requires SameFiles(e, r)
    ensures Extends(e, r) && (Filed(e) ==> Filed(r))
  {
  }

  lemma {:induction false} DrainFiles(e: Engine, n: nat, now: u64)
    requires WF(e) && n <= e.nextSub
    ensures Extends(e, DrainUpTo(e, n, now)) && (Filed(e) ==> Filed(DrainUpTo(e, n, now)))
  {
    hide Emit, Filed, IndicesOk, Unreported;
    if n > 0 {
      DrainFiles(e, n - 1, now);
      EmitFiles(DrainUpTo(e, n - 1, now), n - 1, Shutdown, now);
    }
  }

  lemma BindFiles(e: Engine, teid: u32, b: Binding)
    requires WF(e) && b.sub < e.nextSub
    ensures SameFiles(e, BindIfSet(e, teid, b)) && SameFiles(e, Bind(e, teid, b))
  {
  }

  lemma BindTunnelsFiles(e: Engine, idx: nat, spec: SessionSpec)
    requires WF(e) && idx < e.nextSub
    ensures SameFiles(e, BindTunnels(e, idx, spec))
  {
    hide BindIfSet, AssignSlot, IndicesOk;
    var (info, slot) := AssignSlot(e.info[idx], spec.ratingGroup);
    var e' := e.(info := e.info[idx := info]);
    BindFiles(e', spec.ulTeid, Binding(idx, Uplink, slot));
    BindFiles(BindIfSet(e', spec.ulTeid, Binding(idx, Uplink, slot)), spec.dlTeid, Binding(idx, Downlink, slot));
  }

  /** A session that starts afresh closes the history of the one before it. */
  lemma OpenFiles(e: Engine, idx: nat, spec: SessionSpec, now: u64)
    requires WF(e) && idx < e.nextSub
    ensures Extends(e, Open(e, idx, spec, now)) && (Filed(e) ==> Filed(Open(e, idx, spec, now)))
  {
    hide Bag, IndicesOk;
    if !e.info[idx].active {
      BagUpdate(e.acts, idx, []);
      BagAppend(e.closed, e.acts[idx]);
      assert Records([]) == [];
      hide Records;
      MoveOver(Bag(e.acts[idx := []]), multiset(Records(e.acts[idx])), Bag(e.acts), Bag(e.closed));
    }
  }

  lemma MoveOver(a': multiset<UsageRecord>, x: multiset<UsageRecord>, a: multiset<UsageRecord>, c: multiset<UsageRecord>)
    requires a' + x == a + multiset{}
    ensures a' + (c + x) == a + c
  {
    assert a' + (c + x) == (a' + x) + c;
  }

  lemma PrepareFiles(e: Engine, spec: SessionSpec, now: u64)
    requires WF(e) && Accepts(e, spec)
    ensures Extends(e, Prepare(e, spec, now)) && (Filed(e) ==> Filed(Prepare(e, spec, now)))
  {
    hide Open, Filed;
    var e1 := Register(e, spec.imsi);
    var idx := e1.imsiIndex[spec.imsi];
    SameFiled(e, e1);
    OpenFiles(e1, idx, spec, now);
    var e2 := Open(e1, idx, spec, now);
    SameFiled(e2, MoveTunnels(e2, idx, spec));
  }

  lemma InstallFiles(e: Engine, spec: SessionSpec, now: u64)
    requires WF(e)
    ensures Extends(e, Install(e, spec, now)) && (Filed(e) ==> Filed(Install(e, spec, now)))
  {
    hide Prepare, BindTunnels, Filed;
    if Accepts(e, spec) {
      PrepareFiles(e, spec, now);
      var p := Prepare(e, spec, now);
      BindTunnelsFiles(p, p.imsiIndex[spec.imsi], spec);
      SameFiled(p, BindTunnels(p, p.imsiIndex[spec.imsi], spec));
    }
  }

  lemma ReleaseFiles(e: Engine, imsi: u64, now: u64)
    requires WF(e)
    ensures Extends(e, ReleaseSession(e, imsi, now)) && (Filed(e) ==> Filed(ReleaseSession(e, imsi, now)))
  {
    hide Filed, Emit;
    if Releasable(e, imsi) {
      var idx := e.imsiIndex[imsi];
      EmitFiles(e, idx, Release, now);
      var e1 := Emit(e, idx, Release, now);
      SameFiled(e1, Close(e1, idx));
    }
  }

  lemma LearnFiles(e: Engine, ev: MeterEvent)
    requires WF(e) && e.nextSub < e.cfg.maxSubscribers && e.acts[e.nextSub] == []
    ensures Extends(e, Learn(e, ev)) && (Filed(e) ==> Filed(Learn(e, ev)))
  {
    hide Bag, LearnedInfo, IndicesOk;
    assert e.acts[e.nextSub := []] == e.acts;
    BindFiles(LearnSub(e, ev), ev.teid, Binding(e.nextSub, ev.dir, LearnedInfo(ev).1));
  }

  lemma ChargeFiles(e: Engine, ev: MeterEvent, b: Binding)
    requires b.sub < |e.info| == |e.counters| == |e.acts| == |e.origins|
    ensures Extends(e, ChargePacket(e, ev, b)) && (Filed(e) ==> Filed(ChargePacket(e, ev, b)))
  {
    hide Bag, Records, Wrap, Plus, Packet;
    var r := ChargePacket(e, ev, b);
    var a := r.acts[b.sub][|e.acts[b.sub]|];
    AppendCharge(e.acts[b.sub], a);
    BagSame(e.acts, b.sub, r.acts[b.sub]);
  }

  lemma PacketFiles(e: Engine, ev: MeterEvent)
    requires TunnelsOk(e)
    ensures Extends(e, Apply(e, ev)) && (Filed(e) ==> Filed(Apply(e, ev)))
  {
    hide Bound, Filed, Learn, ChargePacket, IndicesOk;
    var e1 := CountEvent(e, ev);
    SameFiled(e, e1);
    SameFiled(e1, CountControl(e1));
    if e1.nextSub < e1.cfg.maxSubscribers {
      LearnFiles(e1, ev);
    }
    var e2 := LookUp(e1, ev);
    SameFiled(e2, CountUnknown(e2, ev));
    if ev.teid in e2.teids {
      SubInRange(e2, ev.teid);
      ChargeFiles(e2, ev, e2.teids[ev.teid]);
    }
  }

  lemma SubInRange(e: Engine, t: u32)
    requires WF(e) && t in e.teids
    ensures e.teids[t].sub < |e.info| == |e.counters| == |e.acts| == |e.origins|
  {
  }

  lemma StepFiles(e: Engine, op: Op)
    requires TunnelsOk(e)
    ensures Extends(e, Step(e, op)) && (Filed(e) ==> Filed(Step(e, op)))
  {
    hide Apply, ReleaseSession, Sweep, DrainUpTo, Install, Filed, Bound, Enrolled, IndicesOk;
    match op
    case DoInstall(spec, now) => InstallFiles(e, spec, now);
    case DoRelease(imsi, now) => ReleaseFiles(e, imsi, now);
    case DoPacket(ev) => PacketFiles(e, ev);
    case DoGy(gy) => SameFiled(e, ApplyGy(e, gy));
    case DoPoll(now) =>
      var e1 := e.(lastSweep := now);
      SameFiled(e, e1);
      if e.nextSub > 0 {
        SweepFiles(e1, Chunk(e.nextSub, e.cfg.sweepFraction), now);
      }
    case DoDrain(now) => DrainFiles(e, e.nextSub, now);
  }

  /** In every run the records taken and refused by the ring together are exactly the records of all
      activations, current and ended, each as often as it was made. */
  lemma {:induction false} RecordsAccountedFor(cfg: Config, ops: seq<Op>)
    ensures Filed(Run(Start(cfg), ops))
  {
    hide Step, Bag, TunnelsOk;
    if ops == [] {
      BagOfNone(Start(cfg).acts);
      BagOfNone(Start(cfg).closed);
    } else {
      RecordsAccountedFor(cfg, ops[..|ops| - 1]);
      RunKeepsTunnels(cfg, ops[..|ops| - 1]);
      hide Filed, Start;
      StepFiles(Run(Start(cfg), ops[..|ops| - 1]), ops[|ops| - 1]);
    }
  }
}

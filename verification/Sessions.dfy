/** Sessions as the control plane sees them: which are active, that each keeps its tunnels whatever happens to
    others, and that its packets are charged to it, in the direction of the tunnel and to the right bucket. */
module Sessions {
  import opened Words
  import opened Usage
  import opened Meter
  import opened Tunnels
  import opened Billing
  import opened RecordContents
  import opened Probing
  import Buckets
  import Crosscheck
  import StaleSlots

  // ---------------------------------------------------------------------------
  // Which sessions are active
  // ---------------------------------------------------------------------------

  /** The engine takes the session: identity and a tunnel are given, and it is known or there is room. */
  ghost predicate Admitted(e: Engine, spec: SessionSpec) {
    && spec.imsi != 0 && (spec.ulTeid != 0 || spec.dlTeid != 0)
    && (spec.imsi in e.imsiIndex || e.nextSub < e.cfg.maxSubscribers)
  }

  /** The active sessions after a run: installed, as last installed, and not released since. */
  ghost function Active(cfg: Config, ops: seq<Op>): map<u64, SessionSpec> {
    if ops == [] then map[]
    else
      var n := |ops| - 1;
      ActiveAfter(Active(cfg, ops[..n]), Run(Start(cfg), ops[..n]), ops[n])
  }

  ghost function ActiveAfter(m: map<u64, SessionSpec>, e: Engine, op: Op): map<u64, SessionSpec> {
    if op.DoInstall? then (if Admitted(e, op.spec) then m[op.spec.imsi := op.spec] else m)
    else if op.DoRelease? then m - {op.imsi}
    else m
  }

  /** The record of an active session. */
  ghost predicate HoldsSession(info: Info, spec: SessionSpec) {
    && info.active && info.ulTeid == spec.ulTeid && info.dlTeid == spec.dlTeid && info.ratingGroup == spec.ratingGroup
  }

  ghost predicate Matches(e: Engine, m: map<u64, SessionSpec>)
    requires WF(e)
  {
    forall k: u64 :: MatchesAt(e, m, k)
  }

  ghost predicate MatchesAt(e: Engine, m: map<u64, SessionSpec>, k: u64)
    requires WF(e)
  {
    if k in m then m[k].imsi == k && k in e.imsiIndex && HoldsSession(e.info[e.imsiIndex[k]], m[k])
    else k in e.imsiIndex ==> !e.info[e.imsiIndex[k]].active
  }

  ghost predicate SameSession(a: Info, b: Info) {
    a.active == b.active && a.ulTeid == b.ulTeid && a.dlTeid == b.dlTeid && a.ratingGroup == b.ratingGroup
  }

  /** Identity `k` keeps its index and its session. */
  ghost predicate Kept(e: Engine, r: Engine, k: u64)
    requires WF(e) && WF(r)
  {
    && (k in e.imsiIndex <==> k in r.imsiIndex)
    && (k in e.imsiIndex ==> r.imsiIndex[k] == e.imsiIndex[k] && SameSession(r.info[e.imsiIndex[k]], e.info[e.imsiIndex[k]]))
  }

  lemma KeptMatches(e: Engine, r: Engine, m: map<u64, SessionSpec>, m': map<u64, SessionSpec>, k: u64)
    requires WF(e) && WF(r) && MatchesAt(e, m, k) && Kept(e, r, k)
    requires k in m' <==> k in m
    requires k in m ==> m'[k] == m[k]
    ensures MatchesAt(r, m', k)
  {
    hide IndicesOk;
  }

  lemma EmitKept(e: Engine, idx: nat, reason: Reason, now: u64, k: u64)
    requires WF(e) && idx < e.nextSub
    ensures WF(Emit(e, idx, reason, now)) && Kept(e, Emit(e, idx, reason, now), k)
  {
  }

  lemma SweepOneKept(e: Engine, now: u64, k: u64)
    requires WF(e) && e.nextSub > 0
    ensures Kept(e, SweepOne(e, now), k)
  {
    hide Emit, Due;
    var e1 := e.(cursor := Visited(e) + 1);
    if Due(e1, Visited(e), now).Some? {
      EmitKept(e1, Visited(e), Due(e1, Visited(e), now).value, now, k);
    }
  }

  lemma {:induction false} SweepKept(e: Engine, n: nat, now: u64, k: u64)
    requires WF(e) && e.nextSub > 0
    ensures Kept(e, Sweep(e, n, now), k)
  {
    hide SweepOne;
    if n > 0 {
      SweepKept(e, n - 1, now, k);
      SweepOneKept(Sweep(e, n - 1, now), now, k);
    }
  }

  lemma {:induction false} DrainKept(e: Engine, n: nat, now: u64, k: u64)
    requires WF(e) && n <= e.nextSub
    ensures Kept(e, DrainUpTo(e, n, now), k)
  {
    hide Emit, Unreported;
    if n > 0 {
      DrainKept(e, n - 1, now, k);
      EmitKept(DrainUpTo(e, n - 1, now), n - 1, Shutdown, now, k);
    }
  }

  lemma PacketKept(e: Engine, ev: MeterEvent, k: u64)
    requires WF(e)
    ensures Kept(e, Apply(e, ev), k)
  {
    hide LookUp, ChargePacket;
    var e1 := CountEvent(e, ev);
    LookUpKept(e1, ev, k);
    var e2 := LookUp(e1, ev);
    if ev.teid in e2.teids {
      ChargeKept(e2, ev, e2.teids[ev.teid], k);
    }
  }

  lemma LookUpKept(e: Engine, ev: MeterEvent, k: u64)
    requires WF(e)
    ensures Kept(e, LookUp(e, ev), k)
  {
    hide LearnedInfo;
  }

  lemma ChargeKept(e: Engine, ev: MeterEvent, b: Binding, k: u64)
    requires WF(e) && b.sub < e.nextSub
    ensures WF(ChargePacket(e, ev, b)) && Kept(e, ChargePacket(e, ev, b), k)
  {
    hide AssignSlot, Wrap, Plus, Packet;
  }

  lemma PollKept(e: Engine, now: u64, k: u64)
    requires WF(e)
    ensures Kept(e, Poll(e, now), k)
  {
    hide Sweep;
    if e.nextSub > 0 {
      SweepKept(e.(lastSweep := now), Chunk(e.nextSub, e.cfg.sweepFraction), now, k);
    }
  }

  lemma GyKept(e: Engine, gy: GyEvent, k: u64)
    requires WF(e)
    ensures Kept(e, ApplyGy(e, gy), k)
  {
  }

  lemma PrepareSession(e: Engine, spec: SessionSpec, now: u64, k: u64)
    requires TunnelsOk(e) && Accepts(e, spec)
    ensures var p := Prepare(e, spec, now);
            && (k != spec.imsi ==> Kept(e, p, k) && (k in p.imsiIndex ==> p.imsiIndex[k] != p.imsiIndex[spec.imsi]))
            && HoldsSession(p.info[p.imsiIndex[spec.imsi]], spec)
  {
    hide Bound;
  }

  lemma BindKept(e: Engine, idx: nat, spec: SessionSpec, k: u64)
    requires WF(e) && idx < e.nextSub
    ensures Kept(e, BindTunnels(e, idx, spec), k)
  {
    hide AssignSlot, BindIfSet;
  }

  lemma InstallMatches(e: Engine, spec: SessionSpec, now: u64, m: map<u64, SessionSpec>, k: u64)
    requires TunnelsOk(e) && MatchesAt(e, m, k)
    ensures MatchesAt(Install(e, spec, now), ActiveAfter(m, e, DoInstall(spec, now)), k)
  {
    hide Prepare, BindTunnels, Bound, Enrolled, IndicesOk;
    if Accepts(e, spec) {
      PrepareSession(e, spec, now, k);
      var p := Prepare(e, spec, now);
      IndexBelow(p, spec.imsi);
      BindKept(p, p.imsiIndex[spec.imsi], spec, k);
    }
  }

  lemma IndexBelow(e: Engine, imsi: u64)
    requires WF(e) && imsi in e.imsiIndex
    ensures e.imsiIndex[imsi] < e.nextSub
  {
  }

  lemma ReleaseMatches(e: Engine, imsi: u64, now: u64, m: map<u64, SessionSpec>, k: u64)
    requires TunnelsOk(e) && MatchesAt(e, m, k)
    ensures MatchesAt(ReleaseSession(e, imsi, now), m - {imsi}, k)
  {
    hide Emit, Bound, Enrolled;
    if Releasable(e, imsi) {
      EmitKept(e, e.imsiIndex[imsi], Release, now, k);
      EmitReports(e, e.imsiIndex[imsi], Release, now);
      if k in e.imsiIndex {
        Crosscheck.SameImsi(e, imsi, k);
      }
    }
  }

  lemma StepMatches(e: Engine, op: Op, m: map<u64, SessionSpec>, k: u64)
    requires TunnelsOk(e) && MatchesAt(e, m, k)
    ensures MatchesAt(Step(e, op), ActiveAfter(m, e, op), k)
  {
    hide Install, ReleaseSession, Apply, ApplyGy, Poll, DrainUpTo, MatchesAt, Bound, Enrolled, IndicesOk;
    match op
    case DoInstall(spec, now) => InstallMatches(e, spec, now, m, k);
    case DoRelease(imsi, now) => ReleaseMatches(e, imsi, now, m, k);
    case DoPacket(ev) => PacketKept(e, ev, k); KeptMatches(e, Step(e, op), m, m, k);
    case DoGy(gy) => GyKept(e, gy, k); KeptMatches(e, Step(e, op), m, m, k);
    case DoPoll(now) => PollKept(e, now, k); KeptMatches(e, Step(e, op), m, m, k);
    case DoDrain(now) => DrainKept(e, e.nextSub, now, k); KeptMatches(e, Step(e, op), m, m, k);
  }

  /** In every run the active subscribers with an identity are exactly the sessions installed and not released,
      each with the tunnels and the rating group of its last install. */
  lemma {:induction false} ActiveSessions(cfg: Config, ops: seq<Op>)
    ensures Matches(Run(Start(cfg), ops), Active(cfg, ops))
  {
    hide Step, Start, MatchesAt, ActiveAfter, WF, TunnelsOk;
    if ops == [] {
      NoSessions(cfg);
    } else {
      var n := |ops| - 1;
      ActiveSessions(cfg, ops[..n]);
      RunKeepsTunnels(cfg, ops[..n]);
      var e := Run(Start(cfg), ops[..n]);
      forall k: u64
        ensures MatchesAt(Run(Start(cfg), ops), Active(cfg, ops), k)
      {
        assert MatchesAt(e, Active(cfg, ops[..n]), k);
        StepMatches(e, ops[n], Active(cfg, ops[..n]), k);
      }
    }
  }

  lemma NoSessions(cfg: Config)
    ensures Matches(Start(cfg), map[])
  {
  }

  // ---------------------------------------------------------------------------
  // What a change to one session does to the tunnels of others
  // ---------------------------------------------------------------------------

  /** TEID `t` is bound in `r` as it is in `e`. */
  ghost predicate SameAt(e: Engine, r: Engine, t: u32) {
    (t in e.teids <==> t in r.teids) && (t in e.teids ==> r.teids[t] == e.teids[t])
  }

  /** `t` is a tunnel of identity `k`, which is active. */
  ghost predicate Uses(e: Engine, k: u64, t: u32)
    requires WF(e)
  {
    k in e.imsiIndex && e.info[e.imsiIndex[k]].active && t != 0
    && (t == e.info[e.imsiIndex[k]].ulTeid || t == e.info[e.imsiIndex[k]].dlTeid)
  }

  /** An install touches only the TEIDs the session had and those it gets. */
  lemma InstallFrame(e: Engine, spec: SessionSpec, now: u64, t: u32)
    requires TunnelsOk(e) && !Uses(e, spec.imsi, t) && (t != 0 ==> t != spec.ulTeid && t != spec.dlTeid)
    ensures SameAt(e, Install(e, spec, now), t)
  {
    hide Bound, Enrolled, AssignSlot, Prepare, BindTunnels, Uses, IndicesOk;
    if Accepts(e, spec) {
      PrepareFrame(e, spec, now, t);
      var p := Prepare(e, spec, now);
      IndexBelow(p, spec.imsi);
      BindFrame(p, p.imsiIndex[spec.imsi], spec, t);
    }
  }

  lemma BindFrame(e: Engine, idx: nat, spec: SessionSpec, t: u32)
    requires WF(e) && idx < e.nextSub && (t != 0 ==> t != spec.ulTeid && t != spec.dlTeid)
    ensures SameAt(e, BindTunnels(e, idx, spec), t)
  {
    hide AssignSlot, IndicesOk, BindIfSet, CanBind;
    var (info, slot) := AssignSlot(e.info[idx], spec.ratingGroup);
    var e1 := e.(info := e.info[idx := info]);
    var ul, dl := Binding(idx, Uplink, slot), Binding(idx, Downlink, slot);
    Buckets.BindTeids(e1, spec.ulTeid, ul);
    Buckets.BindTeids(BindIfSet(e1, spec.ulTeid, ul), spec.dlTeid, dl);
  }

  lemma PrepareFrame(e: Engine, spec: SessionSpec, now: u64, t: u32)
    requires TunnelsOk(e) && Accepts(e, spec) && !Uses(e, spec.imsi, t) && (t != 0 ==> t != spec.ulTeid && t != spec.dlTeid)
    ensures SameAt(e, Prepare(e, spec, now), t)
  {
    hide Bound;
  }

  /** A release touches only the TEIDs of the session. */
  lemma ReleaseFrame(e: Engine, imsi: u64, now: u64, t: u32)
    requires WF(e) && !Uses(e, imsi, t)
    ensures SameAt(e, ReleaseSession(e, imsi, now), t)
  {
    hide Emit;
    if Releasable(e, imsi) {
      EmitReports(e, e.imsiIndex[imsi], Release, now);
      EmitTeids(e, e.imsiIndex[imsi], now);
    }
  }

  lemma EmitTeids(e: Engine, idx: nat, now: u64)
    requires WF(e) && idx < |e.info|
    ensures var r := Emit(e, idx, Release, now);
            |r.info| == |e.info| && r.info[idx].ulTeid == e.info[idx].ulTeid && r.info[idx].dlTeid == e.info[idx].dlTeid
  {
  }

  /** A packet binds at most its own TEID, if that was unbound. */
  lemma PacketFrame(e: Engine, ev: MeterEvent, t: u32)
    requires WF(e) && (t in e.teids || t != ev.teid)
    ensures SameAt(e, Apply(e, ev), t)
  {
    hide LearnedInfo, IndicesOk;
  }

  /** Charging events, polls and drains bind and unbind nothing. */
  lemma OtherFrame(e: Engine, op: Op)
    requires WF(e) && (op.DoGy? || op.DoPoll? || op.DoDrain?)
    ensures Step(e, op).teids == e.teids
  {
    hide Sweep, DrainUpTo;
    match op
    case DoGy(_) =>
    case DoPoll(now) =>
      if e.nextSub > 0 {
        SweepReports(e.(lastSweep := now), Chunk(e.nextSub, e.cfg.sweepFraction), now);
      }
    case DoDrain(now) => DrainReports(e, e.nextSub, now);
  }

  // ---------------------------------------------------------------------------
  // Sessions keep their tunnels
  // ---------------------------------------------------------------------------

  /** No tunnel is used by both. */
  ghost predicate Disjoint(a: SessionSpec, b: SessionSpec) {
    && (a.ulTeid != 0 ==> a.ulTeid != b.ulTeid && a.ulTeid != b.dlTeid)
    && (a.dlTeid != 0 ==> a.dlTeid != b.ulTeid && a.dlTeid != b.dlTeid)
  }

  ghost predicate Apart(m: map<u64, SessionSpec>) {
    forall k, l :: k in m && l in m && k != l ==> Disjoint(m[k], m[l])
  }

  /** Every tunnel of the session is bound to it, in its direction; a tunnel used for both counts as downlink. */
  ghost predicate HoldsTunnels(e: Engine, spec: SessionSpec) {
    && spec.imsi in e.imsiIndex
    && forall t :: t != 0 && (t == spec.ulTeid || t == spec.dlTeid) ==>
         && t in e.teids && e.teids[t].sub == e.imsiIndex[spec.imsi]
         && e.teids[t].dir == if t == spec.dlTeid then Downlink else Uplink
  }

  /** The TEIDs and the index of `k` are as they were. */
  lemma StillHolds(e: Engine, r: Engine, spec: SessionSpec)
    requires HoldsTunnels(e, spec) && spec.imsi in r.imsiIndex && r.imsiIndex[spec.imsi] == e.imsiIndex[spec.imsi]
    requires forall t :: t != 0 && (t == spec.ulTeid || t == spec.dlTeid) ==> SameAt(e, r, t)
    ensures HoldsTunnels(r, spec)
  {
    forall t | t != 0 && (t == spec.ulTeid || t == spec.dlTeid)
      ensures && t in r.teids && r.teids[t].sub == r.imsiIndex[spec.imsi]
              && r.teids[t].dir == if t == spec.dlTeid then Downlink else Uplink
    {
      assert SameAt(e, r, t);
    }
  }

  lemma InstallHolds(e: Engine, spec: SessionSpec, now: u64)
    requires TunnelsOk(e) && Accepts(e, spec) && Takes(e, Install(e, spec, now))
    ensures HoldsTunnels(Install(e, spec, now), spec)
  {
    hide Install, Bound, Enrolled, Prepare, AssignSlot;
    forall t | t != 0 && (t == spec.ulTeid || t == spec.dlTeid)
      ensures var r := Install(e, spec, now);
              && t in r.teids && spec.imsi in r.imsiIndex && r.teids[t].sub == r.imsiIndex[spec.imsi]
              && r.teids[t].dir == if t == spec.dlTeid then Downlink else Uplink
    {
      InstallBinds(e, spec, now, t);
    }
  }

  /** A tunnel of active session `k` is none of another session's. */
  lemma NotUsed(e: Engine, m: map<u64, SessionSpec>, k: u64, l: u64, t: u32)
    requires WF(e) && MatchesAt(e, m, l) && Apart(m) && k in m && k != l
    requires t != 0 && (t == m[k].ulTeid || t == m[k].dlTeid)
    ensures !Uses(e, l, t)
  {
    hide IndicesOk;
    if l in m {
      assert Disjoint(m[k], m[l]);
    }
  }

  lemma InstallLeavesOthers(e: Engine, spec: SessionSpec, now: u64, m: map<u64, SessionSpec>, k: u64)
    requires TunnelsOk(e) && MatchesAt(e, m, spec.imsi) && Apart(m) && Accepts(e, spec)
    requires k in m && k != spec.imsi && m[k].imsi == k && HoldsTunnels(e, m[k]) && Disjoint(m[k], spec)
    ensures HoldsTunnels(Install(e, spec, now), m[k])
  {
    hide Install, Bound, Enrolled, IndicesOk, MatchesAt, Uses, SameAt;
    forall t | t != 0 && (t == m[k].ulTeid || t == m[k].dlTeid)
      ensures SameAt(e, Install(e, spec, now), t)
    {
      NotUsed(e, m, k, spec.imsi, t);
      InstallFrame(e, spec, now, t);
    }
    InstallIndex(e, spec, now, k);
    StillHolds(e, Install(e, spec, now), m[k]);
  }

  lemma InstallIndex(e: Engine, spec: SessionSpec, now: u64, k: u64)
    requires WF(e) && k in e.imsiIndex
    ensures k in Install(e, spec, now).imsiIndex && Install(e, spec, now).imsiIndex[k] == e.imsiIndex[k]
  {
    hide AssignSlot, BindIfSet, IndicesOk;
  }

  lemma ReleaseLeavesOthers(e: Engine, imsi: u64, now: u64, m: map<u64, SessionSpec>, k: u64)
    requires TunnelsOk(e) && MatchesAt(e, m, imsi) && Apart(m)
    requires k in m && k != imsi && m[k].imsi == k && HoldsTunnels(e, m[k])
    ensures HoldsTunnels(ReleaseSession(e, imsi, now), m[k])
  {
    hide ReleaseSession, Bound, Enrolled, IndicesOk, MatchesAt, Uses, SameAt;
    forall t | t != 0 && (t == m[k].ulTeid || t == m[k].dlTeid)
      ensures SameAt(e, ReleaseSession(e, imsi, now), t)
    {
      NotUsed(e, m, k, imsi, t);
      ReleaseFrame(e, imsi, now, t);
    }
    Crosscheck.ReleaseIndex(e, imsi, now);
    StillHolds(e, ReleaseSession(e, imsi, now), m[k]);
  }

  lemma PacketLeaves(e: Engine, ev: MeterEvent, spec: SessionSpec)
    requires WF(e) && HoldsTunnels(e, spec)
    ensures HoldsTunnels(Apply(e, ev), spec)
  {
    hide Apply, IndicesOk, SameAt;
    forall t | t != 0 && (t == spec.ulTeid || t == spec.dlTeid)
      ensures SameAt(e, Apply(e, ev), t)
    {
      PacketFrame(e, ev, t);
    }
    Crosscheck.PacketIndex(e, ev);
    StillHolds(e, Apply(e, ev), spec);
  }

  lemma OtherLeaves(e: Engine, op: Op, spec: SessionSpec)
    requires WF(e) && (op.DoGy? || op.DoPoll? || op.DoDrain?) && HoldsTunnels(e, spec)
    ensures HoldsTunnels(Step(e, op), spec)
  {
    hide ApplyGy, Poll, DrainUpTo, IndicesOk;
    OtherFrame(e, op);
    match op
    case DoGy(gy) => GyKept(e, gy, spec.imsi);
    case DoPoll(now) => PollKept(e, now, spec.imsi);
    case DoDrain(now) => DrainKept(e, e.nextSub, now, spec.imsi);
  }

  lemma StepHolds(e: Engine, op: Op, m: map<u64, SessionSpec>, k: u64)
    requires TunnelsOk(e) && Matches(e, m) && (op.DoInstall? ==> Takes(e, Step(e, op)))
    requires Apart(m) && Apart(ActiveAfter(m, e, op)) && k in ActiveAfter(m, e, op)
    requires k in m ==> m[k].imsi == k && HoldsTunnels(e, m[k])
    ensures HoldsTunnels(Step(e, op), ActiveAfter(m, e, op)[k])
  {
    hide Install, ReleaseSession, Apply, ApplyGy, Poll, Drain, Bound, Enrolled, IndicesOk, HoldsTunnels, MatchesAt, Disjoint;
    match op
    case DoInstall(spec, now) =>
      if Accepts(e, spec) {
        if k == spec.imsi {
          InstallHolds(e, spec, now);
        } else {
          var m' := ActiveAfter(m, e, op);
          assert Disjoint(m'[k], m'[spec.imsi]);
          assert MatchesAt(e, m, spec.imsi);
          InstallLeavesOthers(e, spec, now, m, k);
        }
      } else {
        InstallRefused(e, spec, now);
      }
    case DoRelease(imsi, now) =>
      assert MatchesAt(e, m, imsi);
      ReleaseLeavesOthers(e, imsi, now, m, k);
    case DoPacket(ev) => PacketLeaves(e, ev, m[k]);
    case DoGy(gy) => OtherLeaves(e, op, m[k]);
    case DoPoll(now) => OtherLeaves(e, op, m[k]);
    case DoDrain(now) => OtherLeaves(e, op, m[k]);
  }

  lemma InstallRefused(e: Engine, spec: SessionSpec, now: u64)
    requires WF(e) && !Accepts(e, spec)
    ensures Install(e, spec, now) == e
  {
  }

  /** At no time two active sessions share a tunnel. */
  ghost predicate AlwaysApart(cfg: Config, ops: seq<Op>) {
    forall j :: 0 <= j <= |ops| ==> Apart(Active(cfg, ops[..j]))
  }

  lemma ApartPrefix(cfg: Config, ops: seq<Op>, n: nat)
    requires AlwaysApart(cfg, ops) && n <= |ops|
    ensures AlwaysApart(cfg, ops[..n]) && Apart(Active(cfg, ops[..n]))
  {
    hide Apart, Active;
    forall j | 0 <= j <= n
      ensures Apart(Active(cfg, ops[..n][..j]))
    {
      assert ops[..n][..j] == ops[..j];
    }
  }

  ghost predicate AllTaken(cfg: Config, ops: seq<Op>) {
    forall j :: 0 <= j < |ops| ==> StaleSlots.TakenAt(Start(cfg), ops, j)
  }

  lemma TakenPrefix(cfg: Config, ops: seq<Op>, n: nat)
    requires AllTaken(cfg, ops) && n < |ops|
    ensures AllTaken(cfg, ops[..n])
    ensures ops[n].DoInstall? ==> Takes(Run(Start(cfg), ops[..n]), Run(Start(cfg), ops[..n + 1]))
  {
    hide Run, Start, Takes;
    forall j | 0 <= j < n
      ensures StaleSlots.TakenAt(Start(cfg), ops[..n], j)
    {
      assert StaleSlots.TakenAt(Start(cfg), ops, j);
      assert ops[..n][..j] == ops[..j] && ops[..n][..j + 1] == ops[..j + 1];
    }
    assert StaleSlots.TakenAt(Start(cfg), ops, n);
  }

  /** If at no time two active sessions share a tunnel and no binding of an install is refused, then after every
      run every active session has its tunnels bound to it, each in its direction, whatever was installed,
      moved or released besides. */
  lemma {:induction false} SessionsKeepTunnels(cfg: Config, ops: seq<Op>, k: u64)
    requires AlwaysApart(cfg, ops) && AllTaken(cfg, ops) && k in Active(cfg, ops)
    ensures Active(cfg, ops)[k].imsi == k && HoldsTunnels(Run(Start(cfg), ops), Active(cfg, ops)[k])
  {
    hide Start, Step, Apart, HoldsTunnels, AlwaysApart, AllTaken, ActiveAfter, TunnelsOk, Matches, Takes;
    ActiveSessions(cfg, ops);
    SpecOf(Run(Start(cfg), ops), Active(cfg, ops), k);
    if ops != [] {
      var n := |ops| - 1;
      var e, m := Run(Start(cfg), ops[..n]), Active(cfg, ops[..n]);
      assert ops[..|ops|] == ops;
      ApartPrefix(cfg, ops, n);
      ApartPrefix(cfg, ops, |ops|);
      TakenPrefix(cfg, ops, n);
      if k in m {
        SessionsKeepTunnels(cfg, ops[..n], k);
      }
      ActiveSessions(cfg, ops[..n]);
      RunKeepsTunnels(cfg, ops[..n]);
      StepHolds(e, ops[n], m, k);
    }
  }

  lemma SpecOf(e: Engine, m: map<u64, SessionSpec>, k: u64)
    requires WF(e) && Matches(e, m) && k in m
    ensures m[k].imsi == k && k in e.imsiIndex && HoldsSession(e.info[e.imsiIndex[k]], m[k]) && e.imsiIndex[k] < |e.info|
  {
    assert MatchesAt(e, m, k);
  }

  // ---------------------------------------------------------------------------
  // Where a packet goes
  // ---------------------------------------------------------------------------

  /** From `e` to `r` subscriber `i` is charged one packet seen at time `ts`, and no one else is charged anything. */
  ghost predicate OnlyCharged(e: Engine, r: Engine, i: nat, down: bool, bucket: u32, bytes: u32, ts: u64) {
    && |r.acts| == |e.acts| == |r.counters| == |e.counters| && i < |e.acts| && r.counters[i].lastSeen == ts
    && |r.acts[i]| == |e.acts[i]| + 1 && r.acts[i][..|e.acts[i]|] == e.acts[i]
    && (var a := r.acts[i][|e.acts[i]|];
        a.Charge? && a.down == down && a.bucket == bucket && a.bytes == bytes)
    && forall j :: 0 <= j < |e.acts| && j != i ==> r.acts[j] == e.acts[j] && r.counters[j] == e.counters[j]
  }

  /** The bucket of a packet of an activation: its QoS flow's, or else the rating group last installed. */
  ghost function RightBucket(o: Origin, ev: MeterEvent): u32 {
    if ev.hasQfi then 0x8000_0000 + ev.qfi else o.group
  }

  lemma ChargeGoesTo(e: Engine, ev: MeterEvent, b: Binding)
    requires ContentsOk(e) && b.sub < e.nextSub
    ensures OnlyCharged(e, ChargePacket(e, ev, b), b.sub,
                        if b.dir == Unknown then ev.dir == Downlink else b.dir == Downlink,
                        RightBucket(e.origins[b.sub], ev), ev.bytes, ev.ts)
  {
    assert TrueAt(e, b.sub);
    hide Bound, Enrolled, IndicesOk, TrueRecords, Wrap, Plus, Packet, AssignSlot;
  }

  /** A control message charges no one. A packet whose TEID is bound is charged to that subscriber, in the
      direction of the tunnel, or its own if that is not known, and to its bucket. */
  lemma BoundPacketGoesTo(cfg: Config, ops: seq<Op>, ev: MeterEvent)
    ensures var e := Run(Start(cfg), ops);
            var r := Apply(e, ev);
            && (ev.control ==> r.acts == e.acts && r.counters == e.counters && r.teids == e.teids && r.info == e.info)
            && (!ev.control && ev.teid in e.teids ==>
                  var b := e.teids[ev.teid];
                  && b.sub < |e.origins| && r.teids == e.teids
                  && OnlyCharged(e, r, b.sub, if b.dir == Unknown then ev.dir == Downlink else b.dir == Downlink,
                                 RightBucket(e.origins[b.sub], ev), ev.bytes, ev.ts))
  {
    hide Run, Start, ContentsOk, ChargePacket, OnlyCharged, IndicesOk;
    var e := Run(Start(cfg), ops);
    RecordsAreTrue(cfg, ops);
    TunnelsOf(e);
    var e1 := CountEvent(e, ev);
    if !ev.control && ev.teid in e.teids {
      OldSub(e, ev.teid);
      CountContents(e, e1);
      ChargeGoesTo(e1, ev, e.teids[ev.teid]);
      CountedAside(e, e1, ChargePacket(e1, ev, e.teids[ev.teid]), ev);
      ChargeTeids(e1, ev, e.teids[ev.teid]);
    }
  }

  lemma ChargeTeids(e: Engine, ev: MeterEvent, b: Binding)
    requires WF(e) && b.sub < e.nextSub
    ensures ChargePacket(e, ev, b).teids == e.teids
  {
  }

  lemma CountedAside(e: Engine, e1: Engine, r: Engine, ev: MeterEvent)
    requires e1 == e.(stats := e1.stats) && ev.teid in e.teids && e.teids[ev.teid].sub < |e.origins|
    ensures var b := e.teids[ev.teid];
            OnlyCharged(e1, r, b.sub, if b.dir == Unknown then ev.dir == Downlink else b.dir == Downlink,
                        RightBucket(e1.origins[b.sub], ev), ev.bytes, ev.ts) ==>
            OnlyCharged(e, r, b.sub, if b.dir == Unknown then ev.dir == Downlink else b.dir == Downlink,
                        RightBucket(e.origins[b.sub], ev), ev.bytes, ev.ts)
  {
  }

  /** An unbound TEID is learned if the engine is so configured, a subscriber is free and the table takes it. */
  ghost predicate Learnable(e: Engine, t: u32) {
    && e.cfg.learnUnknown && e.nextSub < e.cfg.maxSubscribers
    && (t == 0xFFFF_FFFF || |e.teids - {EMPTY}| < e.cfg.teidCapacity)
  }

  /** A packet of an unbound TEID that cannot be learned charges no one and binds nothing; one that can is
      charged to a new subscriber without identity, to which its TEID is bound in its own direction. */
  lemma UnboundPacketGoesTo(cfg: Config, ops: seq<Op>, ev: MeterEvent)
    requires !ev.control && ev.teid !in Run(Start(cfg), ops).teids
    ensures var e := Run(Start(cfg), ops);
            var r := Apply(e, ev);
            if Learnable(e, ev.teid) then
              && r.nextSub == e.nextSub + 1 && r.teids == e.teids[ev.teid := Binding(e.nextSub, ev.dir, 0)]
              && e.nextSub < |r.info| && r.info[e.nextSub].imsi == 0 && r.info[e.nextSub].active
              && OnlyCharged(e, r, e.nextSub, ev.dir == Downlink, if ev.hasQfi then 0x8000_0000 + ev.qfi else 0, ev.bytes, ev.ts)
            else r.acts == e.acts && r.counters == e.counters && r.teids == e.teids
  {
    hide Run, Start, ContentsOk, Apply, OnlyCharged, Learnable, IndicesOk;
    var e := Run(Start(cfg), ops);
    RecordsAreTrue(cfg, ops);
    if Learnable(e, ev.teid) {
      LearnedGoesTo(e, ev);
    } else {
      TunnelsOf(e);
      UnknownGoesNowhere(e, ev);
    }
  }

  lemma UnknownGoesNowhere(e: Engine, ev: MeterEvent)
    requires TunnelsOk(e) && !ev.control && ev.teid !in e.teids && !Learnable(e, ev.teid)
    ensures var r := Apply(e, ev);
            r.acts == e.acts && r.counters == e.counters && r.teids == e.teids
  {
    hide Bound, Enrolled, IndicesOk, Learn;
    var e1 := CountEvent(e, ev);
    CountKeeps(e, e1);
    if e1.nextSub < e1.cfg.maxSubscribers {
      LearnShape(e1, ev);
    }
  }

  lemma LearnedGoesTo(e: Engine, ev: MeterEvent)
    requires ContentsOk(e) && !ev.control && ev.teid !in e.teids && Learnable(e, ev.teid)
    ensures var r := Apply(e, ev);
            && r.nextSub == e.nextSub + 1 && r.teids == e.teids[ev.teid := Binding(e.nextSub, ev.dir, 0)]
            && e.nextSub < |r.info| && r.info[e.nextSub].imsi == 0 && r.info[e.nextSub].active
            && OnlyCharged(e, r, e.nextSub, ev.dir == Downlink, if ev.hasQfi then 0x8000_0000 + ev.qfi else 0, ev.bytes, ev.ts)
  {
    TunnelsOf(e);
    hide ContentsOk, Bound, Enrolled, IndicesOk, OnlyCharged, Learn, ChargePacket;
    var e1 := CountEvent(e, ev);
    CountContents(e, e1);
    CountKeeps(e, e1);
    LearnShape(e1, ev);
    LearnContents(e1, ev);
    var l := Learn(e1, ev);
    ChargeGoesTo(l, ev, Binding(e.nextSub, ev.dir, 0));
    LearnedCharge(e, l, ev);
  }

  lemma LearnShape(e: Engine, ev: MeterEvent)
    requires TunnelsOk(e) && e.nextSub < e.cfg.maxSubscribers
    ensures var r := Learn(e, ev);
            && r.acts == e.acts && r.counters == e.counters && r.nextSub == e.nextSub + 1
            && r.info[e.nextSub].imsi == 0 && r.info[e.nextSub].active && r.origins[e.nextSub].group == 0
            && r.teids == if CanBind(e, ev.teid) then e.teids[ev.teid := Binding(e.nextSub, ev.dir, 0)] else e.teids
  {
    hide Bound, IndicesOk;
    var r := Learn(e, ev);
    assert r.acts == e.acts && r.counters == e.counters;
  }

  lemma LearnedCharge(e: Engine, l: Engine, ev: MeterEvent)
    requires WF(e) && WF(l) && l.acts == e.acts && l.counters == e.counters && e.nextSub < l.nextSub && l.origins[e.nextSub].group == 0
    requires l.info[e.nextSub].imsi == 0 && l.info[e.nextSub].active
    ensures var b := Binding(e.nextSub, ev.dir, 0);
            var r := ChargePacket(l, ev, b);
            && r.nextSub == l.nextSub && r.teids == l.teids && r.info[e.nextSub].imsi == 0 && r.info[e.nextSub].active
            && (OnlyCharged(l, r, b.sub, if b.dir == Unknown then ev.dir == Downlink else b.dir == Downlink,
                            RightBucket(l.origins[b.sub], ev), ev.bytes, ev.ts) ==>
                OnlyCharged(e, r, e.nextSub, ev.dir == Downlink, if ev.hasQfi then 0x8000_0000 + ev.qfi else 0, ev.bytes, ev.ts))
  {
    hide IndicesOk, Wrap, Plus, Packet;
  }

  /** Attribution, from the control plane's view: under the conditions of the theorem above a packet for a tunnel
      of an active session is charged to that session and to no one else, as downlink exactly on its downlink
      tunnel, and to the bucket of its QoS flow or else of the session's rating group. */
  lemma SessionIsCharged(cfg: Config, ops: seq<Op>, ev: MeterEvent, k: u64)
    requires AlwaysApart(cfg, ops) && AllTaken(cfg, ops) && k in Active(cfg, ops) && !ev.control
    requires ev.teid != 0 && (ev.teid == Active(cfg, ops)[k].ulTeid || ev.teid == Active(cfg, ops)[k].dlTeid)
    ensures var e, spec := Run(Start(cfg), ops), Active(cfg, ops)[k];
            && k in e.imsiIndex
            && OnlyCharged(e, Apply(e, ev), e.imsiIndex[k], ev.teid == spec.dlTeid,
                           if ev.hasQfi then 0x8000_0000 + ev.qfi else spec.ratingGroup, ev.bytes, ev.ts)
  {
    hide Run, Start, Apply, AlwaysApart, AllTaken, OnlyCharged, Active, Matches, ContentsOk, IndicesOk;
    var e, spec := Run(Start(cfg), ops), Active(cfg, ops)[k];
    SessionsKeepTunnels(cfg, ops, k);
    ActiveSessions(cfg, ops);
    SpecOf(e, Active(cfg, ops), k);
    RecordsAreTrue(cfg, ops);
    GroupOf(e, e.imsiIndex[k]);
    BoundPacketGoesTo(cfg, ops, ev);
  }

  lemma GroupOf(e: Engine, i: nat)
    requires ContentsOk(e) && i < |e.info|
    ensures i < |e.origins| && e.origins[i].group == e.info[i].ratingGroup
  {
    assert TrueAt(e, i);
  }

  // ---------------------------------------------------------------------------
  // Whose an activation is
  // ---------------------------------------------------------------------------

  /** Identity `k` keeps its index, and identity and start of its activation. */
  ghost predicate SameBeginning(e: Engine, r: Engine, k: u64)
    requires WF(e) && WF(r) && k in e.imsiIndex
  {
    && k in r.imsiIndex && r.imsiIndex[k] == e.imsiIndex[k]
    && r.origins[e.imsiIndex[k]].imsi == e.origins[e.imsiIndex[k]].imsi
    && r.origins[e.imsiIndex[k]].at == e.origins[e.imsiIndex[k]].at
  }

  lemma InstallBeginning(e: Engine, spec: SessionSpec, now: u64, k: u64)
    requires TunnelsOk(e) && k in e.imsiIndex && !Crosscheck.Opens(e, DoInstall(spec, now), k)
    ensures SameBeginning(e, Install(e, spec, now), k)
  {
    hide Bound, Enrolled, BindTunnels, Prepare;
    if Accepts(e, spec) {
      PrepareBeginning(e, spec, now, k);
      var p := Prepare(e, spec, now);
      BindOrigins(p, p.imsiIndex[spec.imsi], spec);
    }
  }

  lemma PrepareBeginning(e: Engine, spec: SessionSpec, now: u64, k: u64)
    requires TunnelsOk(e) && Accepts(e, spec) && k in e.imsiIndex && !Crosscheck.Opens(e, DoInstall(spec, now), k)
    ensures SameBeginning(e, Prepare(e, spec, now), k)
  {
    hide Bound;
  }

  lemma BindOrigins(e: Engine, idx: nat, spec: SessionSpec)
    requires WF(e) && idx < e.nextSub
    ensures BindTunnels(e, idx, spec).origins == e.origins && BindTunnels(e, idx, spec).imsiIndex == e.imsiIndex
  {
    hide AssignSlot, BindIfSet;
  }

  lemma PacketBeginning(e: Engine, ev: MeterEvent, k: u64)
    requires WF(e) && k in e.imsiIndex
    ensures SameBeginning(e, Apply(e, ev), k)
  {
    IndexBelow(e, k);
    hide IndicesOk, LookUp, ChargePacket;
    var e1 := CountEvent(e, ev);
    LookUpOrigins(e1, ev, k);
    var e2 := LookUp(e1, ev);
    if ev.teid in e2.teids {
      OldSub(e2, ev.teid);
      ChargeOrigins(e2, ev, e2.teids[ev.teid], e.imsiIndex[k]);
    }
  }

  lemma LookUpOrigins(e: Engine, ev: MeterEvent, k: u64)
    requires WF(e) && k in e.imsiIndex && e.imsiIndex[k] < e.nextSub
    ensures SameBeginning(e, LookUp(e, ev), k)
  {
    hide IndicesOk, LearnedInfo;
  }

  lemma ChargeOrigins(e: Engine, ev: MeterEvent, b: Binding, i: nat)
    requires WF(e) && b.sub < e.nextSub && i < |e.origins|
    ensures var r := ChargePacket(e, ev, b);
            && r.imsiIndex == e.imsiIndex && |r.origins| == |e.origins|
            && r.origins[i].imsi == e.origins[i].imsi && r.origins[i].at == e.origins[i].at
  {
    hide IndicesOk, ResolveSlot, Wrap, Plus, Packet;
  }

  lemma StepBeginning(e: Engine, op: Op, k: u64)
    requires TunnelsOk(e) && k in e.imsiIndex && !Crosscheck.Opens(e, op, k)
    ensures SameBeginning(e, Step(e, op), k)
  {
    hide Install, ReleaseSession, Apply, Sweep, DrainUpTo, Bound, Enrolled, Crosscheck.Opens;
    match op
    case DoInstall(spec, now) => InstallBeginning(e, spec, now, k);
    case DoRelease(imsi, now) => ReleaseOrigins(e, imsi, now);
    case DoPacket(ev) => PacketBeginning(e, ev, k);
    case DoGy(_) =>
    case DoPoll(now) =>
      if e.nextSub > 0 {
        SweepReports(e.(lastSweep := now), Chunk(e.nextSub, e.cfg.sweepFraction), now);
      }
    case DoDrain(now) => DrainReports(e, e.nextSub, now);
  }

  lemma ReleaseOrigins(e: Engine, imsi: u64, now: u64)
    requires WF(e)
    ensures ReleaseSession(e, imsi, now).origins == e.origins && ReleaseSession(e, imsi, now).imsiIndex == e.imsiIndex
  {
    hide Emit;
    if Releasable(e, imsi) {
      EmitReports(e, e.imsiIndex[imsi], Release, now);
    }
  }

  lemma OpensBeginning(e: Engine, op: Op, k: u64)
    requires TunnelsOk(e) && Crosscheck.Opens(e, op, k)
    ensures var r := Step(e, op);
            k in r.imsiIndex && r.origins[r.imsiIndex[k]].imsi == k && r.origins[r.imsiIndex[k]].at == op.now
  {
    hide Bound, BindTunnels;
    var p := Prepare(e, op.spec, op.now);
    assert p.origins[p.imsiIndex[k]].imsi == k && p.origins[p.imsiIndex[k]].at == op.now;
    hide Prepare;
    BindOrigins(p, p.imsiIndex[k], op.spec);
  }

  /** In every run the activation of a known identity is the one that its last opening install began: its records
      name that identity, and their first interval starts at the time of that install. */
  lemma {:induction false} OriginIsInstall(cfg: Config, ops: seq<Op>, k: u64) returns (j: nat)
    requires k in Run(Start(cfg), ops).imsiIndex
    ensures Crosscheck.LastOpening(Start(cfg), ops, j, k)
    ensures var e := Run(Start(cfg), ops);
            && e.origins[e.imsiIndex[k]].imsi == k && e.origins[e.imsiIndex[k]].at == ops[j].now
            && TrueRecords(e.acts[e.imsiIndex[k]], e.origins[e.imsiIndex[k]])
  {
    assert ops != [];
    var n := |ops| - 1;
    var mid := Run(Start(cfg), ops[..n]);
    assert Run(Start(cfg), ops) == Step(mid, ops[n]);
    RecordsAreTrue(cfg, ops);
    TrueAtIndex(Run(Start(cfg), ops), k);
    hide Start, Step, Crosscheck.Opens, TunnelsOk, WF, Run, ContentsOk, TrueRecords;
    RunKeepsTunnels(cfg, ops[..n]);
    if Crosscheck.OpensAt(Start(cfg), ops, n, k) {
      j := n;
      OpensBeginning(mid, ops[n], k);
    } else {
      if k !in mid.imsiIndex {
        Crosscheck.StepKnows(mid, ops[n], k);
      }
      j := OriginIsInstall(cfg, ops[..n], k);
      Crosscheck.LastStays(Start(cfg), ops, j, k);
      StepBeginning(mid, ops[n], k);
    }
  }

  lemma TrueAtIndex(e: Engine, k: u64)
    requires ContentsOk(e) && k in e.imsiIndex
    ensures e.imsiIndex[k] < |e.acts| == |e.origins| && TrueRecords(e.acts[e.imsiIndex[k]], e.origins[e.imsiIndex[k]])
  {
    assert TrueAt(e, e.imsiIndex[k]);
  }
}

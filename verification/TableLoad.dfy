/** When the TEID table can fill up. Deleting from a full table does not end, so this decides whether
    modifying and releasing sessions always returns. */
module TableLoad {
  import opened Words
  import opened Usage
  import opened Probing
  import opened Meter
  import opened Tunnels

  /** Deleting `t` ends: it is not stored, takes no slot, or some slot is free. */
  ghost predicate Deletable(e: Engine, t: u32) {
    t in e.teids && t != EMPTY ==> |e.teids - {EMPTY}| < e.cfg.teidCapacity
  }

  /** With more than two TEID slots per subscriber every deletion ends. */
  lemma RoomyDeletable(e: Engine, t: u32)
    requires TunnelsOk(e) && Roomy(e.cfg)
    ensures Deletable(e, t)
  {
    TwoPerSubscriber(e);
  }

  /** An install of `spec` is accepted and modifies a session in place. */
  ghost predicate WillMove(e: Engine, spec: SessionSpec)
    requires WF(e)
  {
    Accepts(e, spec) && spec.imsi in e.imsiIndex && e.info[e.imsiIndex[spec.imsi]].active
  }

  ghost predicate CanMove(e: Engine, it: Info, spec: SessionSpec) {
    && (it.ulTeid != 0 && it.ulTeid != spec.ulTeid ==> Deletable(e, it.ulTeid))
    && (it.dlTeid != 0 && it.dlTeid != spec.dlTeid ==> Deletable(e, it.dlTeid))
  }

  ghost predicate CanDrop(e: Engine, it: Info) {
    (it.ulTeid != 0 ==> Deletable(e, it.ulTeid)) && (it.dlTeid != 0 ==> Deletable(e, it.dlTeid))
  }

  /** The call of `op` returns. */
  ghost predicate Ends(e: Engine, op: Op)
    requires WF(e)
  {
    match op
    case DoInstall(spec, _) => WillMove(e, spec) ==> CanMove(e, e.info[e.imsiIndex[spec.imsi]], spec)
    case DoRelease(imsi, _) => Releasable(e, imsi) ==> CanDrop(e, e.info[e.imsiIndex[imsi]])
    case _ => true
  }

  ghost predicate EndsAt(e: Engine, ops: seq<Op>, j: nat)
    requires WF(e) && j < |ops|
  {
    Ends(Run(e, ops[..j]), ops[j])
  }

  /** Every call of a run returns. */
  ghost predicate AllEnd(e: Engine, ops: seq<Op>)
    requires WF(e)
  {
    forall j :: 0 <= j < |ops| ==> EndsAt(e, ops, j)
  }

  lemma RoomyEnds(e: Engine, op: Op)
    requires TunnelsOk(e) && Roomy(e.cfg)
    ensures Ends(e, op)
  {
    hide Deletable, Bound, Enrolled;
    forall t: u32 ensures Deletable(e, t) {
      RoomyDeletable(e, t);
    }
  }

  lemma RoomyAllEnd(cfg: Config, ops: seq<Op>)
    requires Roomy(cfg)
    ensures AllEnd(Start(cfg), ops)
  {
    hide Run, Start, Ends, TunnelsOk, WF;
    StartCfg(cfg);
    forall j | 0 <= j < |ops|
      ensures EndsAt(Start(cfg), ops, j)
    {
      RunKeepsTunnels(cfg, ops[..j]);
      RoomyEnds(Run(Start(cfg), ops[..j]), ops[j]);
    }
  }

  // ---------------------------------------------------------------------------
  // Filling the table
  // ---------------------------------------------------------------------------

  /** The TEIDs 1 to `n`. */
  ghost function UpTo(n: nat): set<u32>
    requires n < EMPTY
  {
    if n == 0 then {} else UpTo(n - 1) + {n}
  }

  lemma {:induction false} UpToIs(n: nat)
    requires n < EMPTY
    ensures |UpTo(n)| == n
    ensures forall t: u32 :: t in UpTo(n) <==> 1 <= t <= n
  {
    if n > 0 {
      UpToIs(n - 1);
    }
  }

  lemma KeyCount(m: map<u32, Binding>, n: nat)
    requires n < EMPTY && m.Keys == UpTo(n)
    ensures |m - {EMPTY}| == n
  {
    UpToIs(n);
    assert (m - {EMPTY}).Keys == m.Keys;
  }

  /** The session with identity `i + 1` and the next two TEIDs. */
  function NextSession(i: nat): SessionSpec
    requires 2 * i + 2 < TWO32
  {
    SessionSpec(i + 1, 2 * i + 1, 2 * i + 2, 0)
  }

  function Least(a: nat, b: nat): nat {
    if a < b then a else b
  }

  /** `k` such sessions are installed and their TEIDs fill the table as far as it goes. */
  ghost predicate Crowded(e: Engine, k: nat) {
    && TunnelsOk(e) && e.nextSub == k && e.cfg.teidCapacity < EMPTY
    && (forall m :: m in e.imsiIndex <==> 1 <= m <= k)
    && e.teids.Keys == UpTo(Least(2 * k, e.cfg.teidCapacity))
    && (k > 0 ==> FirstIn(e))
  }

  /** A subscriber record as the install of session `i` leaves it. */
  ghost predicate Installed(it: Info, i: nat) {
    it.active && it.ulTeid == 2 * i + 1 && it.dlTeid == 2 * i + 2 && it.ids == Slots(0, UNSET, UNSET) && !it.aggregated
  }

  /** The first session is installed, and its uplink tunnel is bound to slot 0. */
  ghost predicate FirstIn(e: Engine) {
    && |e.info| > 0 && Installed(e.info[0], 0) && 1 in e.imsiIndex && e.imsiIndex[1] == 0
    && 1 in e.teids && e.teids[1] == Binding(0, Uplink, 0)
  }

  /** No binding is lost or changed. */
  ghost predicate Adds(m: map<u32, Binding>, m': map<u32, Binding>) {
    forall t :: t in m ==> t in m' && m'[t] == m[t]
  }

  lemma BindNext(e: Engine, m: nat, b: Binding)
    requires WF(e) && b.sub < e.nextSub && e.cfg.teidCapacity < EMPTY && m <= e.cfg.teidCapacity && m + 1 < EMPTY
    requires e.teids.Keys == UpTo(m)
    ensures Bind(e, m + 1, b).teids.Keys == UpTo(Least(m + 1, e.cfg.teidCapacity))
    ensures Adds(e.teids, Bind(e, m + 1, b).teids)
    ensures m < e.cfg.teidCapacity ==> m + 1 in Bind(e, m + 1, b).teids && Bind(e, m + 1, b).teids[m + 1] == b
  {
    hide WF, UpTo, Adds;
    KeyCount(e.teids, m);
    KeysNext(e.teids, m, b);
    AddsItself(e.teids);
  }

  lemma KeysNext(teids: map<u32, Binding>, m: nat, b: Binding)
    requires m + 1 < EMPTY && teids.Keys == UpTo(m)
    ensures teids[m + 1 := b].Keys == UpTo(m + 1) && Adds(teids, teids[m + 1 := b])
  {
    UpToIs(m);
    assert teids[m + 1 := b].Keys == teids.Keys + {m + 1};
  }

  lemma AddsItself(m: map<u32, Binding>)
    ensures Adds(m, m)
  {
  }

  /** An identity that is new gets the next index; no tunnel is unbound for it. */
  lemma PrepareNew(e: Engine, spec: SessionSpec, now: u64)
    requires TunnelsOk(e) && spec.imsi !in e.imsiIndex && Accepts(e, spec)
    ensures var p := Prepare(e, spec, now);
            && p.teids == e.teids && p.imsiIndex == e.imsiIndex[spec.imsi := e.nextSub] && p.nextSub == e.nextSub + 1
            && (forall i :: 0 <= i < e.nextSub ==> p.info[i] == e.info[i])
            && (var it := p.info[e.nextSub];
                it.active && it.ulTeid == spec.ulTeid && it.dlTeid == spec.dlTeid && it.ids == NoInfo.ids && !it.aggregated)
  {
    hide Bound;
  }

  /** The second TEID of a session finds the table filled by one more, or full. */
  lemma BindBoth(e: Engine, idx: nat, k: nat)
    requires WF(e) && idx < e.nextSub && e.cfg.teidCapacity < EMPTY && 2 * k < e.cfg.teidCapacity
    requires e.teids.Keys == UpTo(2 * k)
    ensures var r := BindTunnels(e, idx, NextSession(k));
            && r.teids.Keys == UpTo(Least(2 * (k + 1), e.cfg.teidCapacity))
            && Adds(e.teids, r.teids)
            && 2 * k + 1 in r.teids && r.teids[2 * k + 1] == Binding(idx, Uplink, AssignSlot(e.info[idx], 0).1)
  {
    hide IndicesOk, AssignSlot, Bind, UpTo;
    var (info, slot) := AssignSlot(e.info[idx], 0);
    var e0 := e.(info := e.info[idx := info]);
    BindNext(e0, 2 * k, Binding(idx, Uplink, slot));
    var e1 := Bind(e0, 2 * k + 1, Binding(idx, Uplink, slot));
    BindNext(e1, 2 * k + 1, Binding(idx, Downlink, slot));
  }

  lemma InstallNext(e: Engine, k: nat)
    requires TunnelsOk(e) && e.nextSub == k < e.cfg.maxSubscribers && 2 * k < e.cfg.teidCapacity < EMPTY
    requires k + 1 !in e.imsiIndex && e.teids.Keys == UpTo(2 * k)
    ensures var r := Install(e, NextSession(k), 0);
            && r.teids.Keys == UpTo(Least(2 * (k + 1), e.cfg.teidCapacity))
            && r.imsiIndex == e.imsiIndex[k + 1 := k] && r.nextSub == k + 1
            && (forall i :: 0 <= i < k ==> r.info[i] == e.info[i])
            && Installed(r.info[k], k)
            && Adds(e.teids, r.teids)
            && 2 * k + 1 in r.teids && r.teids[2 * k + 1] == Binding(k, Uplink, 0)
  {
    hide Prepare, BindTunnels, Bound, Enrolled, UpTo, IndicesOk;
    PrepareNew(e, NextSession(k), 0);
    BindBoth(Prepare(e, NextSession(k), 0), k, k);
  }

  lemma CrowdMore(e: Engine, k: nat)
    requires Crowded(e, k) && k < e.cfg.maxSubscribers && 2 * k < e.cfg.teidCapacity
    ensures Crowded(Install(e, NextSession(k), 0), k + 1)
  {
    hide Install, Bound, Enrolled, UpTo;
    InstallKeeps(e, NextSession(k), 0);
    InstallNext(e, k);
  }

  /** Installs, one after the other, of the first `k` sessions. */
  function Installs(k: nat): seq<Op>
    requires 2 * k < TWO32
  {
    if k == 0 then [] else Installs(k - 1) + [DoInstall(NextSession(k - 1), 0)]
  }

  lemma CrowdNone(cfg: Config)
    requires cfg.teidCapacity < EMPTY
    ensures Crowded(Start(cfg), 0)
  {
    StartOk(cfg);
  }

  lemma StepOfInstall(e: Engine, spec: SessionSpec, now: u64)
    requires WF(e)
    ensures Step(e, DoInstall(spec, now)) == Install(e, spec, now)
  {
  }

  lemma {:induction false} CrowdAll(cfg: Config, k: nat)
    requires k <= cfg.maxSubscribers && cfg.teidCapacity < EMPTY && (k > 0 ==> 2 * (k - 1) < cfg.teidCapacity)
    ensures Crowded(Run(Start(cfg), Installs(k)), k)
  {
    hide Crowded, Start, Run, Install, WF, Step;
    StartCfg(cfg);
    if k == 0 {
      CrowdNone(cfg);
      RunNothing(Start(cfg));
    } else {
      CrowdAll(cfg, k - 1);
      var e, spec := Run(Start(cfg), Installs(k - 1)), NextSession(k - 1);
      RunMore(Start(cfg), Installs(k - 1), DoInstall(spec, 0));
      StepOfInstall(e, spec, 0);
      CrowdMore(e, k - 1);
    }
  }

  /** In a full table a session cannot be released. */
  lemma CrowdedSticks(e: Engine, k: nat)
    requires Crowded(e, k) && k > 0 && 0 < e.cfg.teidCapacity <= 2 * k
    ensures !Ends(e, DoRelease(1, 0))
  {
    hide Bound, Enrolled, UpTo;
    UpToIs(e.cfg.teidCapacity);
    KeyCount(e.teids, e.cfg.teidCapacity);
  }

  lemma CanStick(cfg: Config)
    requires 0 < cfg.teidCapacity < EMPTY && !Roomy(cfg)
    ensures exists ops :: !AllEnd(Start(cfg), ops)
  {
    hide Crowded, Run, Start, Ends, WF;
    StartCfg(cfg);
    var k := (cfg.teidCapacity + 1) / 2;
    CrowdAll(cfg, k);
    var ops := Installs(k);
    CrowdedSticks(Run(Start(cfg), ops), k);
    var all := ops + [DoRelease(1, 0)];
    assert all[..|ops|] == ops;
    assert !EndsAt(Start(cfg), all, |ops|);
    assert !AllEnd(Start(cfg), all);
  }

  /** There are fewer TEIDs than slots. */
  ghost predicate Vast(cfg: Config) {
    cfg.teidCapacity > EMPTY
  }

  lemma KeysBelow(keys: set<u32>, n: nat)
    requires n < EMPTY && forall t :: t in keys ==> t <= n
    ensures |keys| <= n + 1
  {
    UpToIs(n);
    Subset(keys, UpTo(n) + {0});
  }

  lemma FewTeids(teids: map<u32, Binding>)
    ensures |teids - {EMPTY}| <= EMPTY
  {
    hide UpTo;
    var keys := (teids - {EMPTY}).Keys;
    KeysBelow(keys, EMPTY - 1);
  }

  lemma VastEnds(e: Engine, op: Op)
    requires WF(e) && Vast(e.cfg)
    ensures Ends(e, op)
  {
    FewTeids(e.teids);
  }

  lemma VastAllEnd(cfg: Config, ops: seq<Op>)
    requires Vast(cfg)
    ensures AllEnd(Start(cfg), ops)
  {
    hide Run, Start, Ends, WF;
    StartCfg(cfg);
    forall j | 0 <= j < |ops|
      ensures EndsAt(Start(cfg), ops, j)
    {
      VastEnds(Run(Start(cfg), ops[..j]), ops[j]);
    }
  }

  /** Every call of every run returns if and only if there are more than two TEID slots per subscriber, or
      more slots than TEIDs. The capacity is a power of two, so never `EMPTY`. */
  lemma AllEndIff(cfg: Config)
    requires 0 < cfg.teidCapacity != EMPTY
    ensures (forall ops :: AllEnd(Start(cfg), ops)) <==> Roomy(cfg) || Vast(cfg)
  {
    hide AllEnd, Start;
    if Roomy(cfg) || Vast(cfg) {
      forall ops ensures AllEnd(Start(cfg), ops) {
        if Roomy(cfg) {
          RoomyAllEnd(cfg, ops);
        } else {
          VastAllEnd(cfg, ops);
        }
      }
    } else {
      CanStick(cfg);
    }
  }
}

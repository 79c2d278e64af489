/** The metering engine as a state machine: what each control-plane and data-plane operation
    does to the tunnel bindings, the counters and the usage records. */
module Meter {
  import opened Words
  import opened Usage
  import opened Probing

  const UNSET: u32 := 0xFFFF_FFFF    // accounting slot not yet labelled
  const QFI_TAG: u32 := 0x8000_0000  // marks a bucket id derived from a QFI

  datatype Direction = Uplink | Downlink | Unknown

  datatype Reason = Interval | Volume | Release | Shutdown

  datatype SessionSpec = SessionSpec(imsi: u64, ulTeid: u32, dlTeid: u32, ratingGroup: u32) {
    predicate Valid() {
      imsi != 0 && (ulTeid != 0 || dlTeid != 0)
    }
  }

  datatype MeterEvent = MeterEvent(
    ts: u64, flowKey: u64, teid: u32, bytes: u32, qfi: u8, hasQfi: bool, control: bool, dir: Direction)

  datatype GyEvent = GyEvent(ts: u64, imsi: u64, usedTotal: u64, hasImsi: bool, hasUsed: bool)

  /** One value per accounting slot. */
  datatype Slots<T> = Slots(s0: T, s1: T, s2: T) {
    function At(i: SlotIndex): T {
      if i == 0 then s0 else if i == 1 then s1 else s2
    }

    function Put(i: SlotIndex, v: T): Slots<T> {
      if i == 0 then this.(s0 := v) else if i == 1 then this.(s1 := v) else this.(s2 := v)
    }
  }

  datatype Counters = Counters(tally: WordTally, lastSeen: u64)

  datatype Info = Info(
    imsi: u64, firstSeen: u64, intervalStart: u64, emitted: WordTally,
    gyOctets: u64, gyLast: u64, gyReports: u32,
    ids: Slots<u32>, recordSeq: u32, ratingGroup: u32, ulTeid: u32, dlTeid: u32,
    active: bool, aggregated: bool, learned: bool)

  const NoCounters := Counters(Zero, 0)
  const NoInfo := Info(0, 0, 0, Zero, 0, 0, 0, Slots(UNSET, UNSET, UNSET), 0, 0, 0, 0, false, false, false)

  datatype Binding = Binding(sub: nat, dir: Direction, slot: SlotIndex)

  datatype UsageRecord = UsageRecord(
    intervalStart: u64, intervalEnd: u64, imsi: u64, usage: WordTally,
    ids: Slots<u32>, sub: nat, seqNo: u32, reason: Reason, aggregated: bool)

  /** What has happened to one subscriber since its session was activated. */
  datatype Act = Charge(down: bool, bucket: u32, slot: SlotIndex, bytes: u32) | Report(record: UsageRecord)

  /** How an activation came about: whose it is, its index, when it began, the rating group it was last
      installed with, and every bucket that has asked for a slot, in order. */
  datatype Origin = Origin(imsi: u64, sub: nat, at: u64, group: u32, asked: seq<u32>)

  const NoOrigin := Origin(0, 0, 0, 0, [])

  datatype Stats = Stats(
    events: nat, bytes: nat, ulBytes: nat, dlBytes: nat, ulPackets: nat, dlPackets: nat,
    controlPdus: nat, unknownEvents: nat, unknownBytes: nat, recordsEmitted: nat, recordsDropped: nat,
    gyEvents: nat, gyOctets: nat, installed: nat, bindFailures: nat, learned: nat, released: nat, lastEvent: u64)

  const NoStats := Stats(0, 0, 0, 0, 0, 0, 0, 0, 0, 0, 0, 0, 0, 0, 0, 0, 0, 0)

  /** `accepts(n)` says whether the record ring takes the n-th usage record pushed at it;
      without a record sink it is constantly true. */
  datatype Config = Config(
    maxSubscribers: nat, teidCapacity: nat, reportInterval: u64, volumeThreshold: u64,
    sweepPeriod: u64, sweepFraction: nat, learnUnknown: bool, accepts: nat -> bool)

  /** `acts[i]` is the history of subscriber `i`'s current activation and `origins[i]` its origin; `closed` and
      `past` are those of all activations that a re-install has ended. `sent` holds the usage records the record ring took,
      `refused` those it had no room for. */
  datatype Engine = Engine(
    cfg: Config, counters: seq<Counters>, info: seq<Info>, teids: map<u32, Binding>,
    imsiIndex: map<u64, nat>, nextSub: nat, cursor: nat, lastSweep: u64, stats: Stats,
    acts: seq<seq<Act>>, closed: seq<seq<Act>>, origins: seq<Origin>, past: seq<Origin>,
    sent: seq<UsageRecord>, refused: seq<UsageRecord>)

  /** The tables have one entry per subscriber, and every index the engine follows is in range. */
  ghost predicate WF(e: Engine) {
    && |e.counters| == |e.info| == |e.acts| == |e.origins| == e.cfg.maxSubscribers
    && e.nextSub <= e.cfg.maxSubscribers
    && e.cursor <= e.nextSub
    && IndicesOk(e.imsiIndex, e.teids, e.nextSub)
  }

  ghost predicate IndicesOk(imsiIndex: map<u64, nat>, teids: map<u32, Binding>, nextSub: nat) {
    && (forall k :: k in imsiIndex ==> imsiIndex[k] < nextSub)
    && (forall t :: t in teids ==> teids[t].sub < nextSub)
  }

  lemma StartShape(cfg: Config, counters: seq<Counters>, info: seq<Info>, acts: seq<seq<Act>>, origins: seq<Origin>)
    requires |counters| == |info| == |acts| == |origins| == cfg.maxSubscribers
    requires forall i :: 0 <= i < |info| ==>
               counters[i] == NoCounters && info[i] == NoInfo && acts[i] == [] && origins[i] == NoOrigin
    ensures Engine(cfg, counters, info, map[], map[], 0, 0, 0, NoStats, acts, [], origins, [], [], []) == Start(cfg)
  {
    var e := Start(cfg);
    assert counters == e.counters && info == e.info && acts == e.acts && origins == e.origins;
  }

  ghost function Start(cfg: Config): (e: Engine)
    ensures WF(e)
  {
    Engine(cfg, seq(cfg.maxSubscribers, _ => NoCounters), seq(cfg.maxSubscribers, _ => NoInfo), map[], map[], 0, 0, 0,
           NoStats, seq(cfg.maxSubscribers, _ => []), [], seq(cfg.maxSubscribers, _ => NoOrigin), [], [], [])
  }

  lemma StartCfg(cfg: Config)
    ensures Start(cfg).cfg == cfg
  {
  }

  // ---------------------------------------------------------------------------
  // Tunnel bindings and accounting slots
  // ---------------------------------------------------------------------------

  /** The TEID table takes another key; the reserved key never needs a slot. */
  predicate CanBind(e: Engine, teid: u32) {
    teid == EMPTY || |e.teids - {EMPTY}| < e.cfg.teidCapacity
  }

  ghost function Bind(e: Engine, teid: u32, b: Binding): (r: Engine)
    requires WF(e) && b.sub < e.nextSub
    ensures WF(r) && r == e.(teids := r.teids, stats := r.stats)
  {
    if CanBind(e, teid) then e.(teids := e.teids[teid := b])
    else e.(stats := e.stats.(bindFailures := e.stats.bindFailures + 1))
  }

  function Unbind(e: Engine, teid: u32): Engine {
    e.(teids := e.teids - {teid})
  }

  /** The accounting slot for a bucket id: its own, else the first free one, else the aggregate. */
  function AssignSlot(info: Info, id: u32): (r: (Info, SlotIndex))
    ensures r.0 == info.(ids := r.0.ids, aggregated := r.0.aggregated)
  {
    if info.ids.s0 == id then (info, 0)
    else if info.ids.s1 == id then (info, 1)
    else if info.ids.s2 == id then (info, 2)
    else if info.ids.s0 == UNSET then (info.(ids := info.ids.Put(0, id)), 0)
    else if info.ids.s1 == UNSET then (info.(ids := info.ids.Put(1, id)), 1)
    else if info.ids.s2 == UNSET then (info.(ids := info.ids.Put(2, id)), 2)
    else (info.(aggregated := true), 2)
  }

  // ---------------------------------------------------------------------------
  // Control plane
  // ---------------------------------------------------------------------------

  predicate Accepts(e: Engine, spec: SessionSpec) {
    spec.Valid() && (spec.imsi in e.imsiIndex || e.nextSub < e.cfg.maxSubscribers)
  }

  /** Look up the subscriber of an IMSI, or claim the next free index for it. */
  ghost function Register(e: Engine, imsi: u64): (r: Engine)
    requires WF(e) && (imsi in e.imsiIndex || e.nextSub < e.cfg.maxSubscribers)
    ensures WF(r) && r.cfg == e.cfg && imsi in r.imsiIndex
  {
    if imsi in e.imsiIndex then e
    else e.(imsiIndex := e.imsiIndex[imsi := e.nextSub], nextSub := e.nextSub + 1,
            stats := e.stats.(installed := e.stats.installed + 1))
  }

  /** Activate a session, keeping the counters if it is already active. */
  ghost function Open(e: Engine, idx: nat, spec: SessionSpec, now: u64): (r: Engine)
    requires WF(e) && idx < e.nextSub
    ensures WF(r) && r.cfg == e.cfg && r.nextSub == e.nextSub && r.imsiIndex == e.imsiIndex
  {
    if e.info[idx].active then
      e.(info := e.info[idx := e.info[idx].(imsi := spec.imsi, ratingGroup := spec.ratingGroup)],
         origins := e.origins[idx := AskedFor(e.origins[idx], spec.ratingGroup).(group := spec.ratingGroup)])
    else
      e.(info := e.info[idx := NoInfo.(imsi := spec.imsi, active := true, firstSeen := now, intervalStart := now,
                                       ratingGroup := spec.ratingGroup)],
         counters := e.counters[idx := NoCounters],
         acts := e.acts[idx := []],
         closed := e.closed + [e.acts[idx]],
         origins := e.origins[idx := Origin(spec.imsi, idx, now, spec.ratingGroup, [spec.ratingGroup])],
         past := e.past + [e.origins[idx]])
  }

  function AskedFor(o: Origin, bucket: u32): Origin {
    o.(asked := o.asked + [bucket])
  }

  function UnbindIfMoved(e: Engine, was: u32, becomes: u32): Engine {
    if was != 0 && was != becomes then Unbind(e, was) else e
  }

  ghost function MoveTunnels(e: Engine, idx: nat, spec: SessionSpec): (r: Engine)
    requires WF(e) && idx < e.nextSub
    ensures WF(r) && r.cfg == e.cfg && r.nextSub == e.nextSub && r.imsiIndex == e.imsiIndex
  {
    var info := e.info[idx];
    var e' := UnbindIfMoved(UnbindIfMoved(e, info.ulTeid, spec.ulTeid), info.dlTeid, spec.dlTeid);
    e'.(info := e'.info[idx := info.(ulTeid := spec.ulTeid, dlTeid := spec.dlTeid)])
  }

  ghost function BindIfSet(e: Engine, teid: u32, b: Binding): (r: Engine)
    requires WF(e) && b.sub < e.nextSub
    ensures WF(r) && r == e.(teids := r.teids, stats := r.stats)
  {
    if teid != 0 then Bind(e, teid, b) else e
  }

  ghost function BindTunnels(e: Engine, idx: nat, spec: SessionSpec): (r: Engine)
    requires WF(e) && idx < e.nextSub
    ensures WF(r)
    ensures r == e.(teids := r.teids, stats := r.stats,
                    info := e.info[idx := AssignSlot(e.info[idx], spec.ratingGroup).0])
  {
    var (info, slot) := AssignSlot(e.info[idx], spec.ratingGroup);
    var e' := e.(info := e.info[idx := info]);
    BindIfSet(BindIfSet(e', spec.ulTeid, Binding(idx, Uplink, slot)), spec.dlTeid, Binding(idx, Downlink, slot))
  }

  /** Everything an install does before it binds the tunnels. */
  ghost function Prepare(e: Engine, spec: SessionSpec, now: u64): (r: Engine)
    requires WF(e) && Accepts(e, spec)
    ensures WF(r) && r.cfg == e.cfg && spec.imsi in r.imsiIndex
    ensures r.stats.bindFailures == e.stats.bindFailures
  {
    var e1 := Register(e, spec.imsi);
    var idx := e1.imsiIndex[spec.imsi];
    MoveTunnels(Open(e1, idx, spec, now), idx, spec)
  }

  ghost function Install(e: Engine, spec: SessionSpec, now: u64): (r: Engine)
    requires WF(e)
    ensures WF(r) && r.cfg == e.cfg
    ensures Accepts(e, spec) ==> spec.imsi in r.imsiIndex
  {
    if !Accepts(e, spec) then e
    else
      var p := Prepare(e, spec, now);
      BindTunnels(p, p.imsiIndex[spec.imsi], spec)
  }

  /** Push a record at the record ring. */
  function Send(e: Engine, r: UsageRecord): Engine {
    if e.cfg.accepts(e.stats.recordsEmitted + e.stats.recordsDropped)
    then e.(sent := e.sent + [r], stats := e.stats.(recordsEmitted := e.stats.recordsEmitted + 1))
    else e.(refused := e.refused + [r], stats := e.stats.(recordsDropped := e.stats.recordsDropped + 1))
  }

  function RecordOf(e: Engine, idx: nat, reason: Reason, now: u64): UsageRecord
    requires idx < |e.info| == |e.counters|
  {
    var info := e.info[idx];
    UsageRecord(info.intervalStart, now, info.imsi, Delta(e.counters[idx].tally, info.emitted),
                info.ids, idx, info.recordSeq, reason, info.aggregated)
  }

  function Emit(e: Engine, idx: nat, reason: Reason, now: u64): Engine
    requires idx < |e.info| == |e.counters| == |e.acts|
  {
    var info := e.info[idx];
    var r := RecordOf(e, idx, reason, now);
    Send(e, r).(info := e.info[idx := info.(emitted := e.counters[idx].tally, intervalStart := now,
                                            recordSeq := (info.recordSeq + 1) % TWO32)],
                acts := e.acts[idx := e.acts[idx] + [Report(r)]])
  }

  function UnbindIfSet(e: Engine, teid: u32): Engine {
    if teid != 0 then Unbind(e, teid) else e
  }

  function Close(e: Engine, idx: nat): Engine
    requires idx < |e.info|
  {
    var info := e.info[idx];
    var e' := UnbindIfSet(UnbindIfSet(e, info.ulTeid), info.dlTeid);
    e'.(info := e'.info[idx := info.(active := false)], stats := e'.stats.(released := e'.stats.released + 1))
  }

  predicate Releasable(e: Engine, imsi: u64)
    requires imsi in e.imsiIndex ==> e.imsiIndex[imsi] < |e.info|
  {
    imsi in e.imsiIndex && e.info[e.imsiIndex[imsi]].active
  }

  ghost function ReleaseSession(e: Engine, imsi: u64, now: u64): (r: Engine)
    requires WF(e)
    ensures WF(r) && r.cfg == e.cfg
  {
    if !Releasable(e, imsi) then e
    else
      var idx := e.imsiIndex[imsi];
      Close(Emit(e, idx, Release, now), idx)
  }

  // ---------------------------------------------------------------------------
  // Data plane
  // ---------------------------------------------------------------------------

  function LearnedInfo(ev: MeterEvent): (Info, SlotIndex) {
    var (info, slot) := AssignSlot(NoInfo.(active := true, learned := true, firstSeen := ev.ts, intervalStart := ev.ts), 0);
    (if ev.dir == Downlink then info.(dlTeid := ev.teid) else info.(ulTeid := ev.teid), slot)
  }

  /** Claims the next free subscriber for an unknown TEID, which is not bound yet. */
  ghost function LearnSub(e: Engine, ev: MeterEvent): (r: Engine)
    requires WF(e) && e.nextSub < e.cfg.maxSubscribers
    ensures WF(r) && r.cfg == e.cfg && r.nextSub == e.nextSub + 1 && r.teids == e.teids
  {
    var idx := e.nextSub;
    e.(nextSub := idx + 1, counters := e.counters[idx := NoCounters], info := e.info[idx := LearnedInfo(ev).0],
       acts := e.acts[idx := []], origins := e.origins[idx := Origin(0, idx, ev.ts, 0, [0])],
       stats := e.stats.(learned := e.stats.learned + 1))
  }

  ghost function Learn(e: Engine, ev: MeterEvent): (r: Engine)
    requires WF(e) && e.nextSub < e.cfg.maxSubscribers
    ensures WF(r) && r.cfg == e.cfg
  {
    Bind(LearnSub(e, ev), ev.teid, Binding(e.nextSub, ev.dir, LearnedInfo(ev).1))
  }

  function CountEvent(e: Engine, ev: MeterEvent): Engine {
    e.(stats := e.stats.(events := e.stats.events + 1, bytes := e.stats.bytes + ev.bytes, lastEvent := ev.ts))
  }

  function CountUnknown(e: Engine, ev: MeterEvent): Engine {
    e.(stats := e.stats.(unknownEvents := e.stats.unknownEvents + 1, unknownBytes := e.stats.unknownBytes + ev.bytes))
  }

  /** The direction comes from the tunnel; the packet's own guess is only a fallback. */
  predicate IsDown(b: Binding, ev: MeterEvent) {
    b.dir == Downlink || (b.dir == Unknown && ev.dir == Downlink)
  }

  /** The bucket a packet belongs to: its QFI's, or else the session's rating group. */
  function BucketOf(info: Info, ev: MeterEvent): u32 {
    if ev.hasQfi then QFI_TAG + ev.qfi else info.ratingGroup
  }

  function ResolveSlot(info: Info, b: Binding, ev: MeterEvent): (Info, SlotIndex) {
    if ev.hasQfi then AssignSlot(info, QFI_TAG + ev.qfi) else (info, b.slot)
  }

  function CountDirection(s: Stats, down: bool, bytes: nat): Stats {
    if down then s.(dlBytes := s.dlBytes + bytes, dlPackets := s.dlPackets + 1)
    else s.(ulBytes := s.ulBytes + bytes, ulPackets := s.ulPackets + 1)
  }

  /** Charge one packet through the binding of its TEID. */
  function ChargePacket(e: Engine, ev: MeterEvent, b: Binding): Engine
    requires b.sub < |e.info| == |e.counters| == |e.acts| == |e.origins|
  {
    var down := IsDown(b, ev);
    var (info, slot) := ResolveSlot(e.info[b.sub], b, ev);
    e.(info := e.info[b.sub := info],
       counters := e.counters[b.sub := Counters(Wrap(Plus(e.counters[b.sub].tally, Packet(down, slot, ev.bytes))), ev.ts)],
       acts := e.acts[b.sub := e.acts[b.sub] + [Charge(down, BucketOf(info, ev), slot, ev.bytes)]],
       origins := if ev.hasQfi then e.origins[b.sub := AskedFor(e.origins[b.sub], QFI_TAG + ev.qfi)] else e.origins,
       stats := CountDirection(e.stats, down, ev.bytes))
  }

  /** The engine after looking up the packet's TEID, and learning it if so configured. */
  ghost function LookUp(e: Engine, ev: MeterEvent): (r: Engine)
    requires WF(e)
    ensures WF(r) && r.cfg == e.cfg
  {
    if ev.teid in e.teids || !e.cfg.learnUnknown || e.nextSub >= e.cfg.maxSubscribers then e else Learn(e, ev)
  }

  ghost function ChargeOrCount(e: Engine, ev: MeterEvent): (r: Engine)
    requires WF(e)
    ensures WF(r) && r.cfg == e.cfg
  {
    if ev.teid in e.teids then ChargePacket(e, ev, e.teids[ev.teid]) else CountUnknown(e, ev)
  }

  function CountControl(e: Engine): Engine {
    e.(stats := e.stats.(controlPdus := e.stats.controlPdus + 1))
  }

  ghost function Apply(e: Engine, ev: MeterEvent): (r: Engine)
    requires WF(e)
    ensures WF(r) && r.cfg == e.cfg
  {
    var e1 := CountEvent(e, ev);
    if ev.control then CountControl(e1) else ChargeOrCount(LookUp(e1, ev), ev)
  }

  ghost function ApplyGy(e: Engine, ev: GyEvent): (r: Engine)
    requires WF(e)
    ensures WF(r) && r.cfg == e.cfg
  {
    var e1 := e.(stats := e.stats.(gyEvents := e.stats.gyEvents + 1));
    if !ev.hasImsi || !ev.hasUsed || ev.imsi !in e.imsiIndex then e1
    else
      var idx := e.imsiIndex[ev.imsi];
      var info := e.info[idx];
      e1.(info := e.info[idx := info.(gyOctets := Add64(info.gyOctets, ev.usedTotal), gyLast := ev.ts,
                                      gyReports := (info.gyReports + 1) % TWO32)],
          stats := e1.stats.(gyOctets := e1.stats.gyOctets + ev.usedTotal))
  }

  // ---------------------------------------------------------------------------
  // Reporting timers
  // ---------------------------------------------------------------------------

  function Pending(c: Counters, info: Info): u64 {
    Add64(Sub64(c.tally.ulBytes, info.emitted.ulBytes), Sub64(c.tally.dlBytes, info.emitted.dlBytes))
  }

  /** Why a sweep passing subscriber `idx` at time `now` reports it, if it does. */
  function Due(e: Engine, idx: nat, now: u64): Option<Reason>
    requires idx < |e.info| == |e.counters|
  {
    var info := e.info[idx];
    var pending := Pending(e.counters[idx], info);
    if !info.active || pending == 0 then None
    else if e.cfg.volumeThreshold != 0 && pending >= e.cfg.volumeThreshold then Some(Volume)
    else if e.cfg.reportInterval != 0 && Sub64(now, info.intervalStart) >= e.cfg.reportInterval then Some(Interval)
    else None
  }

  function Visited(e: Engine): nat {
    if e.cursor >= e.nextSub then 0 else e.cursor
  }

  /** Report the subscriber a sweep is passing, if it is due. */
  ghost function Serve(e: Engine, idx: nat, now: u64): (r: Engine)
    requires WF(e) && idx < e.nextSub
    ensures WF(r) && r.nextSub == e.nextSub && r.cfg == e.cfg
  {
    if Due(e, idx, now).Some? then Emit(e, idx, Due(e, idx, now).value, now) else e
  }

  ghost function SweepOne(e: Engine, now: u64): (r: Engine)
    requires WF(e) && e.nextSub > 0
    ensures WF(r) && r.nextSub == e.nextSub && r.cfg == e.cfg
  {
    Serve(e.(cursor := Visited(e) + 1), Visited(e), now)
  }

  ghost function Sweep(e: Engine, n: nat, now: u64): (r: Engine)
    requires WF(e) && e.nextSub > 0
    ensures WF(r) && r.nextSub == e.nextSub && r.cfg == e.cfg
  {
    if n == 0 then e else SweepOne(Sweep(e, n - 1, now), now)
  }

  function Chunk(live: nat, sweepFraction: nat): nat {
    var slice := live / if sweepFraction > 1 then sweepFraction else 1;
    if slice > 1 then slice else 1
  }

  predicate SweepsAt(e: Engine, now: u64) {
    Sub64(now, e.lastSweep) >= e.cfg.sweepPeriod
  }

  ghost function Poll(e: Engine, now: u64): (r: Engine)
    requires WF(e)
    ensures WF(r) && r.cfg == e.cfg
  {
    if !SweepsAt(e, now) then e
    else
      var e1 := e.(lastSweep := now);
      if e.nextSub == 0 then e1 else Sweep(e1, Chunk(e.nextSub, e.cfg.sweepFraction), now)
  }

  predicate Unreported(e: Engine, idx: nat)
    requires idx < |e.info| == |e.counters|
  {
    var c, m := e.counters[idx].tally, e.info[idx].emitted;
    e.info[idx].active && !(c.ulBytes == m.ulBytes && c.dlBytes == m.dlBytes)
  }

  ghost function DrainUpTo(e: Engine, n: nat, now: u64): (r: Engine)
    requires WF(e) && n <= e.nextSub
    ensures WF(r) && r.nextSub == e.nextSub && r.cfg == e.cfg
  {
    if n == 0 then e
    else
      var r := DrainUpTo(e, n - 1, now);
      if Unreported(r, n - 1) then Emit(r, n - 1, Shutdown, now) else r
  }

  ghost function Drain(e: Engine, now: u64): (r: Engine)
    requires WF(e)
    ensures WF(r) && r.cfg == e.cfg
  {
    DrainUpTo(e, e.nextSub, now)
  }

  // ---------------------------------------------------------------------------
  // Runs
  // ---------------------------------------------------------------------------

  datatype Op =
    | DoInstall(spec: SessionSpec, now: u64)
    | DoRelease(imsi: u64, now: u64)
    | DoPacket(ev: MeterEvent)
    | DoGy(gy: GyEvent)
    | DoPoll(now: u64)
    | DoDrain(now: u64)

  ghost function Step(e: Engine, op: Op): (r: Engine)
    requires WF(e)
    ensures WF(r) && r.cfg == e.cfg
  {
    match op
    case DoInstall(spec, now) => Install(e, spec, now)
    case DoRelease(imsi, now) => ReleaseSession(e, imsi, now)
    case DoPacket(ev) => Apply(e, ev)
    case DoGy(gy) => ApplyGy(e, gy)
    case DoPoll(now) => Poll(e, now)
    case DoDrain(now) => Drain(e, now)
  }

  ghost function Run(e: Engine, ops: seq<Op>): (r: Engine)
    requires WF(e)
    ensures WF(r) && r.cfg == e.cfg
  {
    if ops == [] then e
    else Step(Run(e, ops[..|ops| - 1]), ops[|ops| - 1])
  }

  /** Reporting changes subscriber records, histories, records and their counters, and nothing else. */
  ghost predicate OnlyReports(e: Engine, r: Engine) {
    r == e.(info := r.info, acts := r.acts, sent := r.sent, refused := r.refused, cursor := r.cursor,
            stats := e.stats.(recordsEmitted := r.stats.recordsEmitted, recordsDropped := r.stats.recordsDropped))
  }

  lemma EmitReports(e: Engine, idx: nat, reason: Reason, now: u64)
    requires idx < |e.info| == |e.counters| == |e.acts|
    ensures OnlyReports(e, Emit(e, idx, reason, now))
  {
  }

  lemma {:induction false} SweepReports(e: Engine, n: nat, now: u64)
    requires WF(e) && e.nextSub > 0
    ensures OnlyReports(e, Sweep(e, n, now))
  {
    hide Emit, Due, IndicesOk;
    if n > 0 {
      SweepReports(e, n - 1, now);
      var r := Sweep(e, n - 1, now);
      var r' := r.(cursor := Visited(r) + 1);
      if Due(r', Visited(r), now).Some? {
        EmitReports(r', Visited(r), Due(r', Visited(r), now).value, now);
      }
    }
  }

  lemma {:induction false} DrainReports(e: Engine, n: nat, now: u64)
    requires WF(e) && n <= e.nextSub
    ensures OnlyReports(e, DrainUpTo(e, n, now))
  {
    hide Emit, Unreported, IndicesOk;
    if n > 0 {
      DrainReports(e, n - 1, now);
      EmitReports(DrainUpTo(e, n - 1, now), n - 1, Shutdown, now);
    }
  }

  lemma RunNothing(e: Engine)
    requires WF(e)
    ensures Run(e, []) == e
  {
  }

  lemma RunMore(e: Engine, ops: seq<Op>, op: Op)
    requires WF(e)
    ensures Run(e, ops + [op]) == Step(Run(e, ops), op)
  {
    hide Step, WF;
    assert (ops + [op])[..|ops|] == ops;
  }
}

/** The runtime as a whole: the ingest side, the metering thread, the reporter thread and the caller of
    `stop()`, interleaved step by step over the three rings. The rings are the queues that module SpscRing
    refines; whether a push finds room is left open. */
module Runtime {
  import opened Words
  import opened Meter
  import Billing
  import Gtpu
  import Gy
  import IngestStage
  import Ledger
  import Totals
  import Tunnels
  import Usage

  /** Where the metering thread is. `idle` says that the last bulk pop found nothing. */
  datatype MeterPc =
    | Popping
    | Applying(batch: seq<MeterEvent>, idle: bool)
    | Charging(idle: bool)
    | Polling(idle: bool)
    | AskStop
    | AskMeterRing
    | AskGyRing
    | Flushing
    | MeterDone

  datatype ReporterPc = Asking | Writing | LastWriting | ReporterDone

  /** Where the caller of `stop()` is; traffic arrives only before the call. */
  datatype MainPc = Live | JoiningMeter | StoppingReporter | JoiningReporter | FinalWriting | Stopped

  /** The inner-packet parser and options of the ingest side, and the most one bulk pop takes. */
  datatype Env = Env(parseIp: seq<u8> -> IngestStage.Inner, innerLength: bool, batch: nat)

  /** The ingest side: its counters, what the rings took from it, and the charging events of the current
      Diameter buffer that it has yet to push. */
  datatype Front = Front(
    gpdus: nat, control: nat, parseErrors: nat, dropped: nat, messages: nat, diameterErrors: nat, gyEvents: nat,
    gyDropped: nat, pushed: seq<MeterEvent>, gyPushed: seq<GyEvent>, gyHand: seq<GyEvent>)

  /** What became of a record taken from the record ring. */
  datatype Fate = Fate(record: UsageRecord, written: bool)

  /** `setup` is what the engine was asked to do before start and `ops` what it has been asked to do since.
      `rounds` counts how often the metering loop has begun a round. */
  datatype System = System(
    env: Env, setup: seq<Op>, front: Front, meterRing: seq<MeterEvent>, gyRing: seq<GyEvent>,
    engine: Engine, ops: seq<Op>, recordRing: seq<UsageRecord>, fates: seq<Fate>,
    meter: MeterPc, reporter: ReporterPc, main: MainPc, meterStop: bool, reporterStop: bool,
    rounds: nat)

  datatype CallerMove =
    | Packet(pdu: seq<u8>, ts: u64, room: bool)
    | Diameter(payload: seq<u8>, ts: u64)
    | PushGy(room: bool)
    | CallStop
    | JoinMeter
    | StopReporter
    | JoinReporter
    | FinalOne(ok: bool)
    | FinalDone

  datatype MeterMove =
    | PopBatch(n: nat)
    | ApplyOne
    | BatchDone
    | ChargeOne
    | ChargeDone
    | PollOnce(now: u64)
    | SeeStop
    | SeeMeterRing
    | SeeGyRing
    | Flush(now: u64)

  datatype ReporterMove = AskReporter | WriteOne(ok: bool) | WriteDone

  datatype Move = ByCaller(c: CallerMove) | ByMeter(m: MeterMove) | ByReporter(r: ReporterMove)

  ghost function Begin(cfg: Config, env: Env, setup: seq<Op>): System {
    var e := Run(Start(cfg), setup);
    System(env, setup, Front(0, 0, 0, 0, 0, 0, 0, 0, [], [], []), [], [], e, [], e.sent, [],
           Popping, Asking, Live, false, false, 0)
  }

  predicate CallerMay(s: System, c: CallerMove) {
    match c
    case Packet(_, _, _) => s.main == Live && s.front.gyHand == []
    case Diameter(_, _) => s.main == Live && s.front.gyHand == []
    case PushGy(_) => s.main == Live && s.front.gyHand != []
    case CallStop => s.main == Live && s.front.gyHand == []
    case JoinMeter => s.main == JoiningMeter && s.meter == MeterDone
    case StopReporter => s.main == StoppingReporter
    case JoinReporter => s.main == JoiningReporter && s.reporter == ReporterDone
    case FinalOne(_) => s.main == FinalWriting && s.recordRing != []
    case FinalDone => s.main == FinalWriting && s.recordRing == []
  }

  /** A bulk pop comes back empty only from an empty ring, or when it may take nothing. */
  predicate MeterMay(s: System, m: MeterMove) {
    match m
    case PopBatch(n) =>
      && s.meter == Popping && n <= |s.meterRing| && n <= s.env.batch
      && (n == 0 ==> s.meterRing == [] || s.env.batch == 0)
    case ApplyOne => s.meter.Applying? && s.meter.batch != []
    case BatchDone => s.meter.Applying? && s.meter.batch == []
    case ChargeOne => s.meter.Charging? && s.gyRing != []
    case ChargeDone => s.meter.Charging? && s.gyRing == []
    case PollOnce(_) => s.meter.Polling?
    case SeeStop => s.meter == AskStop
    case SeeMeterRing => s.meter == AskMeterRing
    case SeeGyRing => s.meter == AskGyRing
    case Flush(_) => s.meter == Flushing
  }

  predicate ReporterMay(s: System, r: ReporterMove) {
    match r
    case AskReporter => s.reporter == Asking
    case WriteOne(_) => (s.reporter == Writing || s.reporter == LastWriting) && s.recordRing != []
    case WriteDone => (s.reporter == Writing || s.reporter == LastWriting) && s.recordRing == []
  }

  predicate Enabled(s: System, a: Move) {
    match a
    case ByCaller(c) => CallerMay(s, c)
    case ByMeter(m) => MeterMay(s, m)
    case ByReporter(r) => ReporterMay(s, r)
  }

  // ---------------------------------------------------------------------------
  // The ingest side
  // ---------------------------------------------------------------------------

  /** What the engine gets of a charging event. */
  function ForMeter(ev: Gy.Event): GyEvent {
    GyEvent(ev.ts, ev.imsi, ev.usedTotal, ev.hasImsi, ev.hasUsed)
  }

  function AllForMeter(evs: seq<Gy.Event>): (r: seq<GyEvent>)
    ensures |r| == |evs|
  {
    seq(|evs|, i requires 0 <= i < |evs| => ForMeter(evs[i]))
  }

  /** One GTP-U packet: rejected and counted, or counted by type and its event pushed or dropped. */
  function TakePacket(s: System, pdu: seq<u8>, ts: u64, room: bool): System {
    var f := s.front;
    match Gtpu.Parse(pdu)
    case Err(_) => s.(front := f.(parseErrors := f.parseErrors + 1))
    case Ok(h) => Offer(s.(front := CountPacket(f, h.msgType == IngestStage.GPDU)),
                        IngestStage.EventFor(h, s.env.parseIp(h.payload), s.env.innerLength, ts), room)
  }

  function CountPacket(f: Front, gpdu: bool): Front {
    if gpdu then f.(gpdus := f.gpdus + 1) else f.(control := f.control + 1)
  }

  function Offer(s: System, ev: MeterEvent, room: bool): System {
    if room then s.(front := s.front.(pushed := s.front.pushed + [ev]), meterRing := s.meterRing + [ev])
    else s.(front := s.front.(dropped := s.front.dropped + 1))
  }

  /** One Diameter buffer: its events are counted and still to be pushed. */
  function TakeDiameter(f: Front, payload: seq<u8>, ts: u64): Front {
    var scan := Gy.ScanBuffer(payload, ts);
    f.(messages := f.messages + scan.messages, diameterErrors := f.diameterErrors + if scan.clean then 0 else 1,
       gyEvents := f.gyEvents + |scan.events|, gyHand := AllForMeter(scan.events))
  }

  function PushNextGy(s: System, room: bool): System
    requires s.front.gyHand != []
  {
    var f := s.front;
    var f' := f.(gyHand := f.gyHand[1..]);
    if room then s.(front := f'.(gyPushed := f.gyPushed + [f.gyHand[0]]), gyRing := s.gyRing + [f.gyHand[0]])
    else s.(front := f'.(gyDropped := f.gyDropped + 1))
  }

  // ---------------------------------------------------------------------------
  // The moves
  // ---------------------------------------------------------------------------

  /** The engine carries out `op`; the records that the ring takes from it are queued. */
  ghost function Do(s: System, op: Op): System
    requires WF(s.engine)
  {
    var e := Step(s.engine, op);
    s.(engine := e, ops := s.ops + [op],
       recordRing := s.recordRing + if |s.engine.sent| <= |e.sent| then e.sent[|s.engine.sent|..] else [])
  }

  function Wrote(s: System, ok: bool): System
    requires s.recordRing != []
  {
    s.(recordRing := s.recordRing[1..], fates := s.fates + [Fate(s.recordRing[0], ok)])
  }

  function CallerNext(s: System, c: CallerMove): System
    requires CallerMay(s, c)
  {
    match c
    case Packet(pdu, ts, room) => TakePacket(s, pdu, ts, room)
    case Diameter(payload, ts) => s.(front := TakeDiameter(s.front, payload, ts))
    case PushGy(room) => PushNextGy(s, room)
    case CallStop => s.(meterStop := true, main := JoiningMeter)
    case JoinMeter => s.(main := StoppingReporter)
    case StopReporter => s.(reporterStop := true, main := JoiningReporter)
    case JoinReporter => s.(main := FinalWriting)
    case FinalOne(ok) => Wrote(s, ok)
    case FinalDone => s.(main := Stopped)
  }

  ghost function MeterNext(s: System, m: MeterMove): System
    requires WF(s.engine) && MeterMay(s, m)
  {
    match m
    case PopBatch(n) =>
      s.(meterRing := s.meterRing[n..], meter := Applying(s.meterRing[..n], n == 0), rounds := s.rounds + 1)
    case ApplyOne => Do(s, DoPacket(s.meter.batch[0])).(meter := Applying(s.meter.batch[1..], s.meter.idle))
    case BatchDone => s.(meter := Charging(s.meter.idle))
    case ChargeOne => Do(s, DoGy(s.gyRing[0])).(gyRing := s.gyRing[1..])
    case ChargeDone => s.(meter := Polling(s.meter.idle))
    case PollOnce(now) => Do(s, DoPoll(now)).(meter := if s.meter.idle then AskStop else Popping)
    case SeeStop => s.(meter := if s.meterStop then AskMeterRing else Popping)
    case SeeMeterRing => s.(meter := if s.meterRing == [] then AskGyRing else Popping)
    case SeeGyRing => s.(meter := if s.gyRing == [] then Flushing else Popping)
    case Flush(now) => Do(s, DoDrain(now)).(meter := MeterDone)
  }

  function ReporterNext(s: System, r: ReporterMove): System
    requires ReporterMay(s, r)
  {
    match r
    case AskReporter => s.(reporter := if s.reporterStop then LastWriting else Writing)
    case WriteOne(ok) => Wrote(s, ok)
    case WriteDone => s.(reporter := if s.reporter == Writing then Asking else ReporterDone)
  }

  ghost function Next(s: System, a: Move): System
    requires WF(s.engine) && Enabled(s, a)
  {
    match a
    case ByCaller(c) => CallerNext(s, c)
    case ByMeter(m) => MeterNext(s, m)
    case ByReporter(r) => ReporterNext(s, r)
  }

  // ---------------------------------------------------------------------------
  // What every move keeps
  // ---------------------------------------------------------------------------

  /** The packets among the engine's operations, in order. */
  function Packets(ops: seq<Op>): seq<MeterEvent> {
    if ops == [] then []
    else
      var n := |ops| - 1;
      Packets(ops[..n]) + if ops[n].DoPacket? then [ops[n].ev] else []
  }

  /** The charging events among them. */
  function Charges(ops: seq<Op>): seq<GyEvent> {
    if ops == [] then []
    else
      var n := |ops| - 1;
      Charges(ops[..n]) + if ops[n].DoGy? then [ops[n].gy] else []
  }

  /** How often the engine was polled. */
  function Polls(ops: seq<Op>): nat {
    if ops == [] then 0 else Polls(ops[..|ops| - 1]) + if ops[|ops| - 1].DoPoll? then 1 else 0
  }

  function InHand(m: MeterPc): seq<MeterEvent> {
    if m.Applying? then m.batch else []
  }

  function RecordsOf(fates: seq<Fate>): (r: seq<UsageRecord>)
    ensures |r| == |fates|
  {
    seq(|fates|, i requires 0 <= i < |fates| => fates[i].record)
  }

  /** Everything taken in is done, in hand or still queued, in that order. */
  predicate Lossless<T(==)>(done: seq<T>, hand: seq<T>, ring: seq<T>, all: seq<T>) {
    done + hand + ring == all
  }

  lemma LosslessPush<T>(done: seq<T>, hand: seq<T>, ring: seq<T>, all: seq<T>, xs: seq<T>)
    requires Lossless(done, hand, ring, all)
    ensures Lossless(done, hand, ring + xs, all + xs)
  {
  }

  lemma LosslessPop<T>(done: seq<T>, ring: seq<T>, all: seq<T>, n: nat)
    requires Lossless(done, [], ring, all) && n <= |ring|
    ensures Lossless(done, ring[..n], ring[n..], all)
  {
    assert ring == ring[..n] + ring[n..];
  }

  lemma LosslessDo<T>(done: seq<T>, hand: seq<T>, ring: seq<T>, all: seq<T>)
    requires Lossless(done, hand, ring, all) && hand != []
    ensures Lossless(done + [hand[0]], hand[1..], ring, all)
  {
    assert hand == [hand[0]] + hand[1..];
  }

  lemma LosslessTake<T>(done: seq<T>, ring: seq<T>, all: seq<T>)
    requires Lossless(done, [], ring, all) && ring != []
    ensures Lossless(done + [ring[0]], [], ring[1..], all)
  {
    assert ring == [ring[0]] + ring[1..];
  }

  /** Control messages carry no bytes to charge. */
  ghost predicate ControlIsFree(evs: seq<MeterEvent>) {
    forall j :: 0 <= j < |evs| && evs[j].control ==> evs[j].bytes == 0
  }

  /** Every packet and control message was pushed or dropped, and every charging event was, or is in hand. */
  ghost predicate FrontOk(f: Front) {
    && |f.pushed| + f.dropped == f.gpdus + f.control && ControlIsFree(f.pushed)
    && |f.gyPushed| + f.gyDropped + |f.gyHand| == f.gyEvents
  }

  /** Nothing is lost between the ingest side and the engine. */
  ghost predicate EventsOk(s: System) {
    && FrontOk(s.front)
    && Lossless(Packets(s.ops), InHand(s.meter), s.meterRing, s.front.pushed)
    && Lossless(Charges(s.ops), [], s.gyRing, s.front.gyPushed)
  }

  /** The engine has done exactly `ops`. */
  ghost predicate EngineOk(s: System) {
    WF(s.engine) && s.engine == Run(Start(s.engine.cfg), s.setup + s.ops)
  }

  /** The engine's own event counter agrees. */
  ghost predicate CountsOk(s: System) {
    s.engine.stats.events == Run(Start(s.engine.cfg), s.setup).stats.events + |Packets(s.ops)|
  }

  /** Nothing is lost between the engine and the reporter. */
  ghost predicate RecordsOk(s: System) {
    Lossless(RecordsOf(s.fates), [], s.recordRing, s.engine.sent)
  }

  /** The threads stop in order: the metering thread only after it has seen the stop flag and then both
      rings empty, the caller only after the threads it joins. */
  ghost predicate OrderOk(s: System) {
    && (s.meterStop <==> s.main != Live)
    && (s.main != Live ==> s.front.gyHand == [])
    && (s.meter in {AskMeterRing, AskGyRing, Flushing, MeterDone} ==> s.meterStop)
    && (s.meter in {AskGyRing, Flushing, MeterDone} ==> s.meterRing == [])
    && (s.meter in {Flushing, MeterDone} ==> s.gyRing == [])
    && (s.meter == MeterDone ==> s.ops != [] && s.ops[|s.ops| - 1].DoDrain?)
    && (s.main !in {Live, JoiningMeter} ==> s.meter == MeterDone)
    && (s.reporterStop <==> s.main in {JoiningReporter, FinalWriting, Stopped})
    && (s.reporter in {LastWriting, ReporterDone} ==> s.reporterStop)
    && (s.main in {FinalWriting, Stopped} ==> s.reporter == ReporterDone)
    && (s.main == Stopped ==> s.recordRing == [])
  }

  /** Each round of the metering loop polls the engine once, after its packets and charging events. */
  ghost predicate RoundsOk(s: System) {
    s.rounds == Polls(s.ops) + if s.meter.Applying? || s.meter.Charging? || s.meter.Polling? then 1 else 0
  }

  ghost predicate Inv(s: System) {
    EventsOk(s) && EngineOk(s) && CountsOk(s) && RecordsOk(s) && OrderOk(s) && RoundsOk(s)
  }

  ghost predicate SameSetup(s: System, t: System) {
    t.setup == s.setup && t.env == s.env && t.engine.cfg == s.engine.cfg
  }

  lemma BeginOk(cfg: Config, env: Env, setup: seq<Op>)
    ensures Inv(Begin(cfg, env, setup))
  {
    hide WF, Start, Run, Packets, Charges, Polls, RecordsOf;
    StartCfg(cfg);
    NothingDone();
    assert setup + [] == setup;
    assert RecordsOf([]) + [] + Run(Start(cfg), setup).sent == Run(Start(cfg), setup).sent;
  }

  lemma NothingDone()
    ensures Packets([]) == [] && Charges([]) == [] && Polls([]) == 0 && RecordsOf([]) == []
  {
  }

  lemma PacketsMore(ops: seq<Op>, op: Op)
    ensures Packets(ops + [op]) == if op.DoPacket? then Packets(ops) + [op.ev] else Packets(ops)
    ensures Charges(ops + [op]) == if op.DoGy? then Charges(ops) + [op.gy] else Charges(ops)
    ensures Polls(ops + [op]) == Polls(ops) + if op.DoPoll? then 1 else 0
  {
    assert (ops + [op])[..|ops|] == ops;
  }

  lemma FatesMore(fates: seq<Fate>, f: Fate)
    ensures RecordsOf(fates + [f]) == RecordsOf(fates) + [f.record]
  {
  }

  /** What the metering thread asks of the engine. */
  predicate Asked(op: Op) {
    op.DoPacket? || op.DoGy? || op.DoPoll? || op.DoDrain?
  }

  lemma PacketCounts(e: Engine, ev: MeterEvent)
    requires WF(e)
    ensures Apply(e, ev).stats.events == e.stats.events + 1
  {
    hide WF;
  }

  lemma OpCounts(e: Engine, op: Op)
    requires WF(e) && Asked(op)
    ensures Step(e, op).stats.events == e.stats.events + if op.DoPacket? then 1 else 0
  {
    hide Apply, DrainUpTo, Sweep;
    match op
    case DoPacket(ev) => PacketCounts(e, ev);
    case DoGy(_) =>
    case DoPoll(now) =>
      if e.nextSub > 0 {
        SweepReports(e.(lastSweep := now), Chunk(e.nextSub, e.cfg.sweepFraction), now);
      }
    case DoDrain(now) => DrainReports(e, e.nextSub, now);
  }

  /** The records queued by an operation are the ones the engine sent. */
  lemma DoQueues(s: System, op: Op)
    requires EngineOk(s) && RecordsOk(s)
    ensures RecordsOk(Do(s, op))
  {
    hide Step, WF, Start, Run, Lossless;
    Tunnels.RunKeepsTunnels(s.engine.cfg, s.setup + s.ops);
    Ledger.StepFiles(s.engine, op);
    var e := Step(s.engine, op);
    var more := e.sent[|s.engine.sent|..];
    assert s.engine.sent + more == e.sent;
    LosslessPush(RecordsOf(s.fates), [], s.recordRing, s.engine.sent, more);
  }

  lemma DoKeeps(s: System, op: Op)
    requires EngineOk(s) && RecordsOk(s) && CountsOk(s) && Asked(op)
    ensures EngineOk(Do(s, op)) && RecordsOk(Do(s, op)) && CountsOk(Do(s, op))
  {
    hide Step, WF, Start, Run, Packets, RecordsOk;
    DoQueues(s, op);
    OpCounts(s.engine, op);
    PacketsMore(s.ops, op);
    assert s.setup + (s.ops + [op]) == (s.setup + s.ops) + [op];
    RunMore(Start(s.engine.cfg), s.setup + s.ops, op);
  }

  /** The ingest side adds to the two event rings and to nothing else. */
  ghost predicate OnlyFront(s: System, t: System) {
    t == s.(front := t.front, meterRing := t.meterRing, gyRing := t.gyRing)
  }

  lemma ControlEvent(h: Gtpu.Header, inner: IngestStage.Inner, innerLength: bool, ts: u64)
    ensures var ev := IngestStage.EventFor(h, inner, innerLength, ts);
            ev.control ==> ev.bytes == 0
  {
  }

  lemma PacketKeeps(s: System, pdu: seq<u8>, ts: u64, room: bool)
    requires EventsOk(s)
    ensures var t := TakePacket(s, pdu, ts, room);
            EventsOk(t) && OnlyFront(s, t) && t.front.gyHand == s.front.gyHand
  {
    hide Gtpu.Parse, IngestStage.EventFor, Packets, Charges, Lossless;
    var parsed := Gtpu.Parse(pdu);
    if parsed.Ok? {
      var ev := IngestStage.EventFor(parsed.h, s.env.parseIp(parsed.h.payload), s.env.innerLength, ts);
      ControlEvent(parsed.h, s.env.parseIp(parsed.h.payload), s.env.innerLength, ts);
      LosslessPush(Packets(s.ops), InHand(s.meter), s.meterRing, s.front.pushed, [ev]);
    }
  }

  lemma DiameterKeeps(s: System, payload: seq<u8>, ts: u64)
    requires EventsOk(s) && s.front.gyHand == []
    ensures EventsOk(s.(front := TakeDiameter(s.front, payload, ts)))
  {
    hide Gy.ScanBuffer, Packets, Charges, Lossless;
  }

  lemma PushGyKeeps(s: System, room: bool)
    requires EventsOk(s) && s.front.gyHand != []
    ensures EventsOk(PushNextGy(s, room)) && OnlyFront(s, PushNextGy(s, room))
  {
    hide Packets, Charges, Lossless;
    LosslessPush(Charges(s.ops), [], s.gyRing, s.front.gyPushed, [s.front.gyHand[0]]);
  }

  lemma FrontKeeps(s: System, t: System)
    requires Inv(s) && s.main == Live && OnlyFront(s, t) && EventsOk(t)
    ensures Inv(t) && SameSetup(s, t)
  {
    hide EventsOk, WF, Run, Start, Packets;
    assert s.meter !in {AskMeterRing, AskGyRing, Flushing, MeterDone};
  }

  lemma WroteKeeps(s: System, ok: bool)
    requires RecordsOk(s) && s.recordRing != []
    ensures RecordsOk(Wrote(s, ok))
  {
    hide Lossless, RecordsOf;
    FatesMore(s.fates, Fate(s.recordRing[0], ok));
    LosslessTake(RecordsOf(s.fates), s.recordRing, s.engine.sent);
  }

  lemma CallerKeeps(s: System, c: CallerMove)
    requires Inv(s) && CallerMay(s, c)
    ensures Inv(CallerNext(s, c)) && SameSetup(s, CallerNext(s, c))
  {
    hide Run, Start, WF, Packets, Charges, EventsOk, RecordsOk, TakePacket, TakeDiameter, PushNextGy, FrontOk;
    match c
    case Packet(pdu, ts, room) =>
      PacketKeeps(s, pdu, ts, room);
      FrontKeeps(s, TakePacket(s, pdu, ts, room));
    case Diameter(payload, ts) =>
      DiameterKeeps(s, payload, ts);
      FrontKeeps(s, s.(front := TakeDiameter(s.front, payload, ts)));
    case PushGy(room) =>
      PushGyKeeps(s, room);
      FrontKeeps(s, PushNextGy(s, room));
    case FinalOne(ok) =>
      WroteKeeps(s, ok);
      SameEvents(s, CallerNext(s, c));
    case CallStop => SameQueues(s, CallerNext(s, c));
    case JoinMeter => SameQueues(s, CallerNext(s, c));
    case StopReporter => SameQueues(s, CallerNext(s, c));
    case JoinReporter => SameQueues(s, CallerNext(s, c));
    case FinalDone => SameQueues(s, CallerNext(s, c));
  }

  /** Moves that touch neither events nor the engine. */
  lemma SameEvents(s: System, t: System)
    requires EventsOk(s)
    requires t.front == s.front && t.ops == s.ops && t.meter == s.meter && t.meterRing == s.meterRing && t.gyRing == s.gyRing
    ensures EventsOk(t)
  {
    hide Packets, Charges, Lossless;
  }

  lemma SameQueues(s: System, t: System)
    requires EventsOk(s) && RecordsOk(s) && t == s.(main := t.main, meterStop := t.meterStop, reporterStop := t.reporterStop)
    ensures EventsOk(t) && RecordsOk(t)
  {
    hide EventsOk, RecordsOk;
    SameEvents(s, t);
    SameRecords(s, t);
  }

  lemma ReporterKeeps(s: System, r: ReporterMove)
    requires Inv(s) && ReporterMay(s, r)
    ensures Inv(ReporterNext(s, r)) && SameSetup(s, ReporterNext(s, r))
  {
    hide Run, Start, WF, Packets, EventsOk, RecordsOk;
    SameEvents(s, ReporterNext(s, r));
    match r
    case AskReporter => SameRecords(s, ReporterNext(s, r));
    case WriteOne(ok) => WroteKeeps(s, ok);
    case WriteDone => SameRecords(s, ReporterNext(s, r));
  }

  lemma SameRecords(s: System, t: System)
    requires RecordsOk(s) && t.recordRing == s.recordRing && t.fates == s.fates && t.engine == s.engine
    ensures RecordsOk(t)
  {
  }

  lemma EventsKept(s: System, m: MeterMove)
    requires Inv(s) && MeterMay(s, m)
    ensures EventsOk(MeterNext(s, m))
  {
    hide Run, Start, Step, WF, Packets, Charges, RecordsOk, Lossless;
    match m
    case PopBatch(n) => LosslessPop(Packets(s.ops), s.meterRing, s.front.pushed, n);
    case ApplyOne =>
      PacketsMore(s.ops, DoPacket(s.meter.batch[0]));
      LosslessDo(Packets(s.ops), s.meter.batch, s.meterRing, s.front.pushed);
    case ChargeOne =>
      PacketsMore(s.ops, DoGy(s.gyRing[0]));
      LosslessTake(Charges(s.ops), s.gyRing, s.front.gyPushed);
    case PollOnce(now) => PacketsMore(s.ops, DoPoll(now));
    case Flush(now) => PacketsMore(s.ops, DoDrain(now));
    case _ =>
  }

  lemma EngineKept(s: System, m: MeterMove)
    requires Inv(s) && MeterMay(s, m)
    ensures EngineOk(MeterNext(s, m)) && RecordsOk(MeterNext(s, m)) && CountsOk(MeterNext(s, m))
    ensures SameSetup(s, MeterNext(s, m))
  {
    hide Run, Start, Step, WF, EventsOk, OrderOk, Packets, RecordsOf, Lossless;
    match m
    case ApplyOne => DoKeeps(s, DoPacket(s.meter.batch[0]));
    case ChargeOne => DoKeeps(s, DoGy(s.gyRing[0]));
    case PollOnce(now) => DoKeeps(s, DoPoll(now));
    case Flush(now) => DoKeeps(s, DoDrain(now));
    case _ =>
  }

  lemma RoundsKept(s: System, m: MeterMove)
    requires Inv(s) && MeterMay(s, m)
    ensures RoundsOk(MeterNext(s, m))
  {
    hide Run, Start, Step, WF, EventsOk, RecordsOk, CountsOk, OrderOk, Packets, Charges, Polls;
    match m
    case ApplyOne => PacketsMore(s.ops, DoPacket(s.meter.batch[0]));
    case ChargeOne => PacketsMore(s.ops, DoGy(s.gyRing[0]));
    case PollOnce(now) => PacketsMore(s.ops, DoPoll(now));
    case Flush(now) => PacketsMore(s.ops, DoDrain(now));
    case _ =>
  }

  lemma OrderKept(s: System, m: MeterMove)
    requires Inv(s) && MeterMay(s, m)
    ensures OrderOk(MeterNext(s, m))
  {
    hide Run, Start, Step, WF, EventsOk, RecordsOk, CountsOk;
  }

  lemma MoveKeeps(s: System, a: Move)
    requires Inv(s) && Enabled(s, a)
    ensures Inv(Next(s, a)) && SameSetup(s, Next(s, a))
  {
    hide CallerNext, MeterNext, ReporterNext, EventsOk, CountsOk, RecordsOk, OrderOk, RoundsOk, WF,
      CallerMay, MeterMay, ReporterMay, Run, Start, SameSetup;
    match a
    case ByCaller(c) => CallerKeeps(s, c);
    case ByMeter(m) =>
      EventsKept(s, m);
      EngineKept(s, m);
      OrderKept(s, m);
      RoundsKept(s, m);
    case ByReporter(r) => ReporterKeeps(s, r);
  }

  /** `t` is reached from `s` by the moves `moves`, each possible when it is made. */
  ghost predicate Reaches(s: System, moves: seq<Move>, t: System)
    decreases |moves|
  {
    if moves == [] then s == t
    else WF(s.engine) && Enabled(s, moves[0]) && Reaches(Next(s, moves[0]), moves[1..], t)
  }

  lemma {:induction false} ReachesKeeps(s: System, moves: seq<Move>, t: System)
    requires Inv(s) && Reaches(s, moves, t)
    ensures Inv(t) && SameSetup(s, t)
    decreases |moves|
  {
    hide Next, Inv, Enabled, WF;
    if moves != [] {
      MoveKeeps(s, moves[0]);
      ReachesKeeps(Next(s, moves[0]), moves[1..], t);
    }
  }

  // ---------------------------------------------------------------------------
  // What the ingest side makes of what arrives
  // ---------------------------------------------------------------------------

  /** What the moves of the caller bring, in order: packets by kind, messages and rejected buffers, and the
      events for both rings with whether there was room for each. */
  datatype Arrivals = Arrivals(
    gpdus: nat, control: nat, rejected: nat, dropped: nat, messages: nat, badBuffers: nat,
    taken: seq<MeterEvent>, charging: seq<GyEvent>, rooms: seq<bool>)

  ghost function Arrive(env: Env, c: CallerMove): Arrivals {
    match c
    case Packet(pdu, ts, room) => (
      match Gtpu.Parse(pdu)
      case Err(_) => Arrivals(0, 0, 1, 0, 0, 0, [], [], [])
      case Ok(h) =>
        Arrivals(if h.msgType == 255 then 1 else 0, if h.msgType == 255 then 0 else 1, 0, if room then 0 else 1, 0, 0,
                 if room then [IngestStage.EventFor(h, env.parseIp(h.payload), env.innerLength, ts)] else [], [], []))
    case Diameter(payload, ts) =>
      var scan := Gy.ScanBuffer(payload, ts);
      Arrivals(0, 0, 0, 0, scan.messages, if scan.clean then 0 else 1, [], AllForMeter(scan.events), [])
    case PushGy(room) => Arrivals(0, 0, 0, 0, 0, 0, [], [], [room])
    case _ => Arrivals(0, 0, 0, 0, 0, 0, [], [], [])
  }

  ghost function Together(a: Arrivals, b: Arrivals): Arrivals {
    Arrivals(a.gpdus + b.gpdus, a.control + b.control, a.rejected + b.rejected, a.dropped + b.dropped,
             a.messages + b.messages, a.badBuffers + b.badBuffers,
             a.taken + b.taken, a.charging + b.charging, a.rooms + b.rooms)
  }

  ghost function Arrived(env: Env, moves: seq<Move>): Arrivals {
    if moves == [] then Arrivals(0, 0, 0, 0, 0, 0, [], [], [])
    else
      var rest := Arrived(env, moves[1..]);
      if moves[0].ByCaller? then Together(Arrive(env, moves[0].c), rest) else rest
  }

  /** Of the events `all` those for which there was room. */
  ghost function Chosen(all: seq<GyEvent>, rooms: seq<bool>): seq<GyEvent> {
    if all == [] || rooms == [] then []
    else (if rooms[0] then [all[0]] else []) + Chosen(all[1..], rooms[1..])
  }

  /** From `s` to `t` the ingest side has taken in exactly `a`. */
  ghost predicate TookIn(s: System, t: System, a: Arrivals) {
    var all := s.front.gyHand + a.charging;
    && t.front.gpdus == s.front.gpdus + a.gpdus && t.front.control == s.front.control + a.control
    && t.front.parseErrors == s.front.parseErrors + a.rejected && t.front.dropped == s.front.dropped + a.dropped
    && t.front.messages == s.front.messages + a.messages && t.front.diameterErrors == s.front.diameterErrors + a.badBuffers
    && t.front.pushed == s.front.pushed + a.taken
    && |a.rooms| <= |all| && t.front.gyHand == all[|a.rooms|..]
    && t.front.gyPushed == s.front.gyPushed + Chosen(all[..|a.rooms|], a.rooms)
  }

  lemma TookNothing(s: System, t: System)
    requires t.front == s.front
    ensures TookIn(s, t, Arrivals(0, 0, 0, 0, 0, 0, [], [], []))
  {
    var all := s.front.gyHand + [];
    assert all == s.front.gyHand && all[0..] == all;
    assert Chosen(all[..0], []) == [];
  }

  lemma HandStays(hand: seq<GyEvent>)
    ensures hand + [] == hand && hand[0..] == hand && Chosen(hand[..0], []) == []
  {
  }

  lemma PacketTakes(s: System, pdu: seq<u8>, ts: u64, room: bool)
    ensures TookIn(s, TakePacket(s, pdu, ts, room), Arrive(s.env, Packet(pdu, ts, room)))
  {
    hide Gtpu.Parse, IngestStage.EventFor, Chosen;
    HandStays(s.front.gyHand);
  }

  lemma DiameterTakes(s: System, payload: seq<u8>, ts: u64)
    requires s.front.gyHand == []
    ensures TookIn(s, s.(front := TakeDiameter(s.front, payload, ts)), Arrive(s.env, Diameter(payload, ts)))
  {
    hide Gy.ScanBuffer, Chosen;
    var evs := AllForMeter(Gy.ScanBuffer(payload, ts).events);
    HandStays(evs);
    assert [] + evs == evs;
  }

  lemma PushTakes(s: System, room: bool)
    requires s.front.gyHand != []
    ensures TookIn(s, PushNextGy(s, room), Arrive(s.env, PushGy(room)))
  {
    var hand := s.front.gyHand;
    HandStays(hand);
    assert hand[..1] == [hand[0]] && [hand[0]][1..] == [] && [room][1..] == [];
    assert Chosen(hand[..1], [room]) == (if room then [hand[0]] else []) + Chosen([], []);
  }

  lemma CallerTakes(s: System, c: CallerMove)
    requires CallerMay(s, c)
    ensures TookIn(s, CallerNext(s, c), Arrive(s.env, c))
  {
    hide TookIn, TakePacket, TakeDiameter, PushNextGy, Gtpu.Parse, Gy.ScanBuffer;
    match c
    case Packet(pdu, ts, room) => PacketTakes(s, pdu, ts, room);
    case Diameter(payload, ts) => DiameterTakes(s, payload, ts);
    case PushGy(room) => PushTakes(s, room);
    case _ => TookNothing(s, CallerNext(s, c));
  }

  lemma {:induction false} ChosenSplits(all: seq<GyEvent>, rooms: seq<bool>, more: seq<GyEvent>, later: seq<bool>)
    requires |rooms| <= |all| && |rooms| + |later| <= |all| + |more|
    ensures var whole := all + more;
            Chosen(whole[..|rooms| + |later|], rooms + later)
            == Chosen(all[..|rooms|], rooms) + Chosen((all[|rooms|..] + more)[..|later|], later)
    decreases |rooms|
  {
    var whole := all + more;
    if rooms == [] {
      assert rooms + later == later && all[0..] == all && whole == all + more;
      assert Chosen(all[..0], []) == [];
    } else {
      ChosenSplits(all[1..], rooms[1..], more, later);
      var part := whole[..|rooms| + |later|];
      assert part[1..] == (all[1..] + more)[..|rooms[1..]| + |later|];
      assert (rooms + later)[1..] == rooms[1..] + later;
      assert all[..|rooms|][1..] == all[1..][..|rooms| - 1];
      assert all[1..][|rooms| - 1..] == all[|rooms|..];
    }
  }

  lemma TookBoth(s: System, m: System, t: System, a: Arrivals, b: Arrivals)
    requires TookIn(s, m, a) && TookIn(m, t, b)
    ensures TookIn(s, t, Together(a, b))
  {
    hide Chosen;
    var hand := s.front.gyHand;
    var whole := hand + (a.charging + b.charging);
    ChosenSplits(hand + a.charging, a.rooms, b.charging, b.rooms);
    assert whole == (hand + a.charging) + b.charging;
    assert (hand + a.charging)[|a.rooms|..] + b.charging == whole[|a.rooms|..];
    assert whole[|a.rooms|..][|b.rooms|..] == whole[|a.rooms| + |b.rooms|..];
  }

  /** In every run the ingest side counts and pushes exactly what arrived: every packet that parses as an event of
      its own, those for which there was room in order, and likewise every charging event of every buffer. */
  lemma {:induction false} IngestIsExact(s: System, moves: seq<Move>, t: System)
    requires Inv(s) && Reaches(s, moves, t)
    ensures TookIn(s, t, Arrived(s.env, moves))
    decreases |moves|
  {
    hide Inv, Next, Enabled, WF, TookIn, Arrive, Together;
    if moves == [] {
      TookNothing(s, t);
    } else {
      MoveKeeps(s, moves[0]);
      var m := Next(s, moves[0]);
      IngestIsExact(m, moves[1..], t);
      FrontMoves(s, moves[0]);
      if moves[0].ByCaller? {
        TookBoth(s, m, t, Arrive(s.env, moves[0].c), Arrived(s.env, moves[1..]));
      } else {
        SameFront(s, m, t, Arrived(s.env, moves[1..]));
      }
    }
  }

  lemma SameFront(s: System, m: System, t: System, a: Arrivals)
    requires m.front == s.front && TookIn(m, t, a)
    ensures TookIn(s, t, a)
  {
  }

  lemma FrontMoves(s: System, a: Move)
    requires WF(s.engine) && Enabled(s, a)
    ensures if a.ByCaller? then TookIn(s, Next(s, a), Arrive(s.env, a.c)) else Next(s, a).front == s.front
  {
    hide TookIn, Arrive, Step, WF, TakePacket, TakeDiameter, PushNextGy;
    if a.ByCaller? {
      CallerTakes(s, a.c);
    }
  }

  /** What the engine gets of the requests in a buffer: identity, total octets and whether each is there. */
  lemma RequestsInHand(specs: seq<Gy.Spec>, tail: seq<u8>, ts: u64, i: nat)
    requires forall k :: 0 <= k < |specs| ==> |Gy.Request(specs[k])| <= Gy.MAX_MESSAGE
    requires |tail| < 20 && i < |specs|
    ensures var evs := AllForMeter(Gy.ScanBuffer(Gy.Requests(specs) + tail, ts).events);
            && |evs| == |specs|
            && evs[i].ts == ts && evs[i].hasUsed == specs[i].includeMscc
            && evs[i].usedTotal == (if specs[i].includeMscc then (specs[i].usedInput + specs[i].usedOutput) % TWO64 else 0)
            && evs[i].hasImsi == Gy.Packed(specs[i].imsi).Some?
            && (evs[i].hasImsi ==> evs[i].imsi == Gy.Packed(specs[i].imsi).value)
  {
    hide Gy.ScanBuffer, Gy.Requests, Gy.Packed, Gy.Request;
    Gy.StreamRoundTrip(specs, tail, ts);
    IngestStage.ScanEmpty(tail, ts);
  }

  // ---------------------------------------------------------------------------
  // What holds when stop() returns
  // ---------------------------------------------------------------------------

  /** No subscriber has bytes that no record covers; slots too, while its bytes fit 64 bits. */
  ghost predicate NothingPending(e: Engine, i: nat)
    requires i < |e.counters| == |e.info| == |e.acts|
  {
    var c, m := e.counters[i].tally, e.info[i].emitted;
    && c.ulBytes == m.ulBytes && c.dlBytes == m.dlBytes
    && (Usage.IsWord(Billing.Charged(e.acts[i])) ==> c.b0 == m.b0 && c.b1 == m.b1 && c.b2 == m.b2)
  }

  lemma DrainedLast(cfg: Config, ops: seq<Op>, i: nat)
    requires ops != [] && ops[|ops| - 1].DoDrain? && i < cfg.maxSubscribers
    ensures NothingPending(Run(Start(cfg), ops), i)
  {
    hide Start, Run, Drain, Billing.Charged, Usage.IsWord, WF;
    var n := |ops| - 1;
    var e := Run(Start(cfg), ops[..n]);
    assert ops == ops[..n] + [ops[n]];
    RunMore(Start(cfg), ops[..n], ops[n]);
    assert Step(e, ops[n]) == Drain(e, ops[n].now);
    hide Step;
    Billing.DrainReportsEverything(cfg, ops[..n], ops[n].now, i);
  }

  lemma StoppedFacts(t: System)
    requires Inv(t) && t.main == Stopped
    ensures t.meterRing == [] && t.gyRing == [] && t.recordRing == [] && t.front.gyHand == []
    ensures t.ops != [] && t.ops[|t.ops| - 1].DoDrain?
    ensures Packets(t.ops) == t.front.pushed && Charges(t.ops) == t.front.gyPushed
    ensures RecordsOf(t.fates) == t.engine.sent && t.rounds == Polls(t.ops)
  {
    hide WF, Run, Start, Packets, Charges, Polls, RecordsOf;
  }

  /** Shutdown conservation, for every interleaving. When `stop()` has returned all three rings are empty;
      the engine has been given exactly the events the rings took, in order; applied plus dropped events
      are the G-PDUs plus the control messages of the ingest side, and likewise for charging events; every
      record the engine sent was written or failed to write, in order; no subscriber has unreported bytes; and
      the engine was polled once in each round of the metering loop. */
  lemma StopConserves(cfg: Config, env: Env, setup: seq<Op>, moves: seq<Move>, t: System)
    requires Reaches(Begin(cfg, env, setup), moves, t) && t.main == Stopped
    ensures t.meterRing == [] && t.gyRing == [] && t.recordRing == []
    ensures t.engine == Run(Start(cfg), setup + t.ops)
    ensures Packets(t.ops) == t.front.pushed && |Packets(t.ops)| + t.front.dropped == t.front.gpdus + t.front.control
    ensures t.engine.stats.events - Run(Start(cfg), setup).stats.events + t.front.dropped == t.front.gpdus + t.front.control
    ensures Charges(t.ops) == t.front.gyPushed && |Charges(t.ops)| + t.front.gyDropped == t.front.gyEvents
    ensures RecordsOf(t.fates) == t.engine.sent && |t.fates| == t.engine.stats.recordsEmitted
    ensures forall i :: 0 <= i < cfg.maxSubscribers ==> NothingPending(t.engine, i)
    ensures Polls(t.ops) == t.rounds
  {
    assert Start(cfg).cfg == cfg;
    hide Reaches, Run, Start, Packets, Charges, Polls, NothingPending, OrderOk, RecordsOk, Lossless, RecordsOf;
    BeginOk(cfg, env, setup);
    ReachesKeeps(Begin(cfg, env, setup), moves, t);
    StoppedFacts(t);
    var all := setup + t.ops;
    Ledger.RecordsAccountedFor(cfg, all);
    assert all[|all| - 1] == t.ops[|t.ops| - 1];
    forall i | 0 <= i < cfg.maxSubscribers ensures NothingPending(t.engine, i) {
      DrainedLast(cfg, all, i);
    }
  }

  /** The bytes of a usage total, without its packet counts. */
  ghost predicate SameBytes(a: Usage.Tally, b: Usage.Tally) {
    a.ulBytes == b.ulBytes && a.dlBytes == b.dlBytes && a.b0 == b.b0 && a.b1 == b.b1 && a.b2 == b.b2
  }

  lemma NoDelta(c: Usage.WordTally, m: Usage.WordTally, total: Usage.Tally, charged: Usage.Tally)
    requires Usage.Plus(total, Usage.Delta(c, m)) == charged
    requires c.ulBytes == m.ulBytes && c.dlBytes == m.dlBytes && c.b0 == m.b0 && c.b1 == m.b1 && c.b2 == m.b2
    ensures SameBytes(total, charged)
  {
  }

  /** When `stop()` has returned, every byte ever charged is in a usage record: the records of each current
      activation add up to its charges, as long as those fit 64 bits, and so do those of every activation
      that has ended. */
  lemma StopBillsEverything(cfg: Config, env: Env, setup: seq<Op>, moves: seq<Move>, t: System, i: nat)
    requires Reaches(Begin(cfg, env, setup), moves, t) && t.main == Stopped && i < cfg.maxSubscribers
    ensures i < |t.engine.acts|
    ensures var acts := t.engine.acts[i];
            Usage.IsWord(Billing.Charged(acts)) ==> SameBytes(Billing.Total(Billing.Records(acts)), Billing.Charged(acts))
    ensures forall k :: 0 <= k < |t.engine.closed| ==> Billing.Settled(t.engine.closed[k])
  {
    assert Start(cfg).cfg == cfg;
    hide Reaches, Run, Start, Packets, Charges, Billing.Charged, Billing.Total, Billing.Records, Billing.Settled,
      Usage.IsWord, Usage.Plus, Usage.Delta, Usage.Wrap, SameBytes, Billing.Gapless, Usage.SlotsCover, EventsOk, OrderOk, RecordsOf;
    StopConserves(cfg, env, setup, moves, t);
    Billing.BillingConserved(cfg, setup + t.ops, i);
    assert NothingPending(t.engine, i);
    var acts := t.engine.acts[i];
    if Usage.IsWord(Billing.Charged(acts)) {
      NoDelta(t.engine.counters[i].tally, t.engine.info[i].emitted, Billing.Total(Billing.Records(acts)), Billing.Charged(acts));
    }
  }

  /** Written, failed and refused records together are exactly the records of all activations, current and
      ended, each once; so the deltas that make up an activation's charges are all among them. */
  lemma StopFilesEverything(cfg: Config, env: Env, setup: seq<Op>, moves: seq<Move>, t: System)
    requires Reaches(Begin(cfg, env, setup), moves, t) && t.main == Stopped
    ensures multiset(RecordsOf(t.fates)) + multiset(t.engine.refused) == Ledger.Bag(t.engine.acts) + Ledger.Bag(t.engine.closed)
    ensures forall i :: 0 <= i < |t.engine.acts| ==>
              multiset(Billing.Records(t.engine.acts[i])) <= multiset(RecordsOf(t.fates)) + multiset(t.engine.refused)
    ensures forall k :: 0 <= k < |t.engine.closed| ==>
              multiset(Billing.Records(t.engine.closed[k])) <= multiset(RecordsOf(t.fates)) + multiset(t.engine.refused)
  {
    hide Reaches, Run, Start, Packets, Charges, RecordsOf, NothingPending, Ledger.Bag, Billing.Records;
    StopConserves(cfg, env, setup, moves, t);
    Ledger.RecordsAccountedFor(cfg, setup + t.ops);
    forall i | 0 <= i < |t.engine.acts| {
      Ledger.InBag(t.engine.acts, i);
    }
    forall k | 0 <= k < |t.engine.closed| {
      Ledger.InBag(t.engine.closed, k);
    }
  }

  function BytesOf(evs: seq<MeterEvent>): nat {
    if evs == [] then 0 else BytesOf(evs[..|evs| - 1]) + evs[|evs| - 1].bytes
  }

  lemma BytesMore(evs: seq<MeterEvent>, ev: MeterEvent)
    ensures BytesOf(evs + [ev]) == BytesOf(evs) + ev.bytes
  {
    assert (evs + [ev])[..|evs|] == evs;
  }

  /** The byte totals of the operations `setup + ops`, split at the start of the threads. */
  lemma {:induction false} BytesSince(setup: seq<Op>, ops: seq<Op>)
    requires ControlIsFree(Packets(ops))
    ensures Totals.EventBytes(setup + ops) == Totals.EventBytes(setup) + BytesOf(Packets(ops))
    ensures Totals.ControlBytes(setup + ops) == Totals.ControlBytes(setup)
  {
    if ops == [] {
      assert setup + ops == setup;
    } else {
      var n := |ops| - 1;
      var before := Packets(ops[..n]);
      assert ops == ops[..n] + [ops[n]];
      PacketsMore(ops[..n], ops[n]);
      hide Packets, Totals.EventBytes, Totals.ControlBytes, BytesOf;
      if ops[n].DoPacket? {
        BytesMore(before, ops[n].ev);
        FreePrefix(before, ops[n].ev);
      }
      BytesSince(setup, ops[..n]);
      assert setup + ops == (setup + ops[..n]) + [ops[n]];
      Totals.BytesMore(setup + ops[..n], ops[n]);
    }
  }

  lemma FreePrefix(evs: seq<MeterEvent>, ev: MeterEvent)
    requires ControlIsFree(evs + [ev])
    ensures ControlIsFree(evs) && (ev.control ==> ev.bytes == 0)
  {
    forall j | 0 <= j < |evs| && evs[j].control
      ensures evs[j].bytes == 0
    {
      assert (evs + [ev])[j] == evs[j];
    }
    assert (evs + [ev])[|evs|] == ev;
  }

  lemma {:induction false} NonePending(e: Engine, n: nat)
    requires n <= |e.info| == |e.counters| == |e.acts|
    requires forall i :: 0 <= i < |e.info| ==> NothingPending(e, i)
    ensures Totals.PendingOf(e.counters, e.info, n).ulBytes == 0 && Totals.PendingOf(e.counters, e.info, n).dlBytes == 0
  {
    hide Billing.Charged, Usage.IsWord;
    if n > 0 {
      NonePending(e, n - 1);
      assert NothingPending(e, n - 1);
    }
  }

  predicate SameWord(a: nat, b: nat) {
    a % TWO64 == b % TWO64
  }

  /** Every byte is accounted for. When `stop()` has returned, the bytes of all events that the ring took are
      the uplink, downlink and unknown-tunnel bytes together; and the written, failed and refused records
      together have exactly the uplink and downlink bytes, modulo 2^64 and outright while the charges of each
      activation fit 64 bits. */
  lemma StopAccountsForBytes(cfg: Config, env: Env, setup: seq<Op>, moves: seq<Move>, t: System)
    requires Reaches(Begin(cfg, env, setup), moves, t) && t.main == Stopped
    ensures var s := t.engine.stats;
            Totals.EventBytes(setup) + BytesOf(t.front.pushed) == s.ulBytes + s.dlBytes + s.unknownBytes + Totals.ControlBytes(setup)
    ensures var s, filed := t.engine.stats, Billing.Total(RecordsOf(t.fates) + t.engine.refused);
            && SameWord(filed.ulBytes, s.ulBytes) && SameWord(filed.dlBytes, s.dlBytes)
            && (Totals.AllFit(t.engine.acts) && Totals.AllFit(t.engine.closed) ==>
                  filed.ulBytes == s.ulBytes && filed.dlBytes == s.dlBytes)
  {
    StopConserves(cfg, env, setup, moves, t);
    StoppedControl(cfg, env, setup, moves, t);
    hide Reaches, Begin, Run, Start, Packets, Charges, RecordsOf, NothingPending, BytesOf;
    var all := setup + t.ops;
    BytesSince(setup, t.ops);
    Totals.BytesSorted(cfg, all);
    Totals.EachAddsUp(cfg, all);
    Totals.ChargesAddUp(cfg, all);
    Totals.RecordsCoverCharges(cfg, all);
    NonePending(t.engine, |t.engine.info|);
    FiledAll(t.engine, Billing.Total(RecordsOf(t.fates) + t.engine.refused));
  }

  lemma StoppedControl(cfg: Config, env: Env, setup: seq<Op>, moves: seq<Move>, t: System)
    requires Reaches(Begin(cfg, env, setup), moves, t) && t.main == Stopped
    ensures ControlIsFree(t.front.pushed)
  {
    hide Reaches, Begin, EngineOk, RecordsOk, CountsOk, OrderOk, Packets, Charges, Lossless;
    BeginOk(cfg, env, setup);
    ReachesKeeps(Begin(cfg, env, setup), moves, t);
  }

  lemma FiledAll(e: Engine, filed: Usage.Tally)
    requires |e.info| == |e.counters|
    requires var pending := Totals.PendingOf(e.counters, e.info, |e.info|);
             && pending.ulBytes == 0 && pending.dlBytes == 0
             && Totals.Pays(Usage.Plus(filed, pending), Totals.AllCharged(e), Totals.AllFit(e.acts) && Totals.AllFit(e.closed))
    requires Totals.Agrees(e.stats, Totals.AllCharged(e))
    ensures SameWord(filed.ulBytes, e.stats.ulBytes) && SameWord(filed.dlBytes, e.stats.dlBytes)
    ensures Totals.AllFit(e.acts) && Totals.AllFit(e.closed) ==>
              filed.ulBytes == e.stats.ulBytes && filed.dlBytes == e.stats.dlBytes
  {
    hide Totals.PendingOf, Totals.AllFit, Totals.AllCharged;
  }

  // ---------------------------------------------------------------------------
  // stop() returns
  // ---------------------------------------------------------------------------

  datatype Thread = TheCaller | TheMeter | TheReporter

  function By(a: Move): Thread {
    match a
    case ByCaller(_) => TheCaller
    case ByMeter(_) => TheMeter
    case ByReporter(_) => TheReporter
  }

  /** The thread that `stop()` is waiting for. */
  function Awaited(s: System): Thread {
    if s.main == JoiningMeter && s.meter != MeterDone then TheMeter
    else if s.main == JoiningReporter && s.reporter != ReporterDone then TheReporter
    else TheCaller
  }

  /** Something the awaited thread can do. */
  function Plan(s: System): Move {
    match s.main
    case JoiningMeter => (
      match s.meter
      case Popping => ByMeter(PopBatch(if |s.meterRing| <= s.env.batch then |s.meterRing| else s.env.batch))
      case Applying(batch, _) => ByMeter(if batch != [] then ApplyOne else BatchDone)
      case Charging(_) => ByMeter(if s.gyRing != [] then ChargeOne else ChargeDone)
      case Polling(_) => ByMeter(PollOnce(0))
      case AskStop => ByMeter(SeeStop)
      case AskMeterRing => ByMeter(SeeMeterRing)
      case AskGyRing => ByMeter(SeeGyRing)
      case Flushing => ByMeter(Flush(0))
      case MeterDone => ByCaller(JoinMeter))
    case JoiningReporter => (
      match s.reporter
      case Asking => ByReporter(AskReporter)
      case Writing => ByReporter(if s.recordRing != [] then WriteOne(true) else WriteDone)
      case LastWriting => ByReporter(if s.recordRing != [] then WriteOne(true) else WriteDone)
      case ReporterDone => ByCaller(JoinReporter))
    case FinalWriting => ByCaller(if s.recordRing != [] then FinalOne(true) else FinalDone)
    case _ => ByCaller(StopReporter)
  }

  /** The awaited thread is never stuck. */
  lemma AwaitedCanMove(s: System)
    requires s.main != Live && s.main != Stopped
    ensures Enabled(s, Plan(s)) && By(Plan(s)) == Awaited(s)
  {
  }

  function MainRank(m: MainPc): nat {
    match m
    case Live => 5
    case JoiningMeter => 4
    case StoppingReporter => 3
    case JoiningReporter => 2
    case FinalWriting => 1
    case Stopped => 0
  }

  /** How far the metering thread is from the next thing it must do: fetch packets, then charging events,
      then leave. */
  function MeterRank(m: MeterPc, packets: bool, charges: bool): nat {
    match m
    case Popping => if packets then 0 else if charges then 2 else 10
    case Applying(_, idle) => if packets then 5 else if charges then 1 else if idle then 9 else 14
    case Charging(idle) => if packets then 4 else if charges then 0 else if idle then 8 else 13
    case Polling(idle) => if packets then 3 else if charges then 6 else if idle then 7 else 12
    case AskStop => if packets then 2 else if charges then 5 else 6
    case AskMeterRing => if packets then 1 else if charges then 4 else 5
    case AskGyRing => if charges then 3 else 4
    case Flushing => 3
    case MeterDone => 2
  }

  function ReporterRank(r: ReporterPc): nat {
    match r
    case Writing => 3
    case Asking => 2
    case LastWriting => 1
    case ReporterDone => 0
  }

  ghost function Work(s: System): nat {
    |InHand(s.meter)| + |s.gyRing|
  }

  /** Records left to write, once no more are made. */
  ghost function Left(s: System): nat {
    if s.main == JoiningReporter || s.main == FinalWriting then |s.recordRing| else 0
  }

  ghost function Rank(s: System): nat {
    if s.main == JoiningMeter then MeterRank(s.meter, s.meterRing != [], s.gyRing != [])
    else if s.main == JoiningReporter then ReporterRank(s.reporter)
    else 0
  }

  /** `t` is nearer to the end of `stop()` than `s`. */
  ghost predicate Closer(t: System, s: System) {
    || MainRank(t.main) < MainRank(s.main)
    || (t.main == s.main && |t.meterRing| < |s.meterRing|)
    || (t.main == s.main && |t.meterRing| == |s.meterRing| && Work(t) < Work(s))
    || (t.main == s.main && |t.meterRing| == |s.meterRing| && Work(t) == Work(s) && Left(t) < Left(s))
    || (t.main == s.main && |t.meterRing| == |s.meterRing| && Work(t) == Work(s) && Left(t) == Left(s) && Rank(t) < Rank(s))
  }

  ghost predicate AsClose(t: System, s: System) {
    t.main == s.main && |t.meterRing| == |s.meterRing| && Work(t) == Work(s) && Left(t) == Left(s) && Rank(t) == Rank(s)
  }

  /** Not the case of a batch size of zero with packets queued. */
  predicate CanFetch(s: System) {
    s.env.batch > 0 || s.meterRing == []
  }

  lemma MeterAdvances(s: System, m: MeterMove)
    requires Inv(s) && s.main == JoiningMeter && s.meter != MeterDone && CanFetch(s) && MeterMay(s, m)
    ensures Closer(MeterNext(s, m), s)
  {
    hide Run, Start, Step, WF, EventsOk, RecordsOk, CountsOk;
  }

  lemma ReporterAdvances(s: System, r: ReporterMove)
    requires Inv(s) && s.main == JoiningReporter && ReporterMay(s, r)
    ensures Closer(ReporterNext(s, r), s)
  {
    hide Run, Start, WF, EventsOk, RecordsOk, CountsOk, MeterRank;
  }

  lemma CallerAdvances(s: System, c: CallerMove)
    requires s.main != Live && CallerMay(s, c)
    ensures Closer(CallerNext(s, c), s)
  {
    hide MeterRank, TakePacket, TakeDiameter, PushNextGy;
  }

  /** Whatever the awaited thread does brings the end of `stop()` nearer. */
  lemma AwaitedAdvances(s: System, a: Move)
    requires Inv(s) && s.main != Live && s.main != Stopped && CanFetch(s) && Enabled(s, a) && By(a) == Awaited(s)
    ensures Closer(Next(s, a), s)
  {
    hide CallerNext, MeterNext, ReporterNext, Closer, EventsOk, RecordsOk, CountsOk, OrderOk, EngineOk;
    match a
    case ByCaller(c) => CallerAdvances(s, c);
    case ByMeter(m) => MeterAdvances(s, m);
    case ByReporter(r) => ReporterAdvances(s, r);
  }

  /** Whatever another thread does takes it no farther away. */
  lemma OthersDoNotHinder(s: System, a: Move)
    requires Inv(s) && s.main != Live && Enabled(s, a) && By(a) != Awaited(s)
    ensures AsClose(Next(s, a), s) || Closer(Next(s, a), s)
  {
    hide Run, Start, WF, EventsOk, RecordsOk, CountsOk, MeterNext, MeterRank;
    match a
    case ByCaller(c) => CallerAdvances(s, c);
    case ByMeter(m) =>
    case ByReporter(r) =>
  }

  /** After the call nothing more is queued; with a batch size of zero nothing is taken out either. */
  ghost predicate Quieter(s: System, t: System) {
    && t.main != Live && t.env == s.env
    && (s.meterRing == [] ==> t.meterRing == [])
    && (s.env.batch == 0 ==> t.meterRing == s.meterRing)
  }

  lemma MeterQuiet(s: System, m: MeterMove)
    requires WF(s.engine) && MeterMay(s, m) && s.main != Live
    ensures Quieter(s, MeterNext(s, m))
  {
    hide Step, WF;
  }

  lemma Quiet(s: System, a: Move)
    requires WF(s.engine) && Enabled(s, a) && s.main != Live
    ensures Quieter(s, Next(s, a))
  {
    hide Step, WF, MeterNext, MeterMay, TakePacket, TakeDiameter, PushNextGy;
    match a
    case ByCaller(_) =>
    case ByMeter(m) => MeterQuiet(s, m);
    case ByReporter(_) =>
  }

  /** An endless schedule: at each instant one thread makes a move, or none does. */
  ghost predicate Follows(trace: nat -> System, schedule: nat -> Option<Move>) {
    forall n: nat :: Happens(trace(n), schedule(n), trace(n + 1))
  }

  ghost predicate Happens(s: System, move: Option<Move>, t: System) {
    match move
    case None => t == s
    case Some(a) => WF(s.engine) && Enabled(s, a) && t == Next(s, a)
  }

  /** The thread that `stop()` is waiting for moves at instant `m`, or the wait is over. */
  ghost predicate Served(trace: nat -> System, schedule: nat -> Option<Move>, m: nat) {
    trace(m).main == Stopped || (schedule(m).Some? && By(schedule(m).value) == Awaited(trace(m)))
  }

  /** From instant `from` on the awaited thread gets a turn again and again. */
  ghost predicate Fair(trace: nat -> System, schedule: nat -> Option<Move>, from: nat) {
    forall n: nat :: from <= n ==> ServedFrom(trace, schedule, n)
  }

  ghost predicate ServedFrom(trace: nat -> System, schedule: nat -> Option<Move>, n: nat) {
    exists m: nat :: n <= m && Served(trace, schedule, m)
  }

  ghost predicate EverStops(trace: nat -> System) {
    exists m: nat :: trace(m).main == Stopped
  }

  /** One instant: the invariant stays, and the end is as near or nearer, nearer if the awaited thread moved. */
  lemma InstantAdvances(trace: nat -> System, schedule: nat -> Option<Move>, n: nat)
    requires Follows(trace, schedule) && Inv(trace(n)) && trace(n).main != Live && trace(n).main != Stopped && CanFetch(trace(n))
    ensures Inv(trace(n + 1)) && trace(n + 1).main != Live && CanFetch(trace(n + 1))
    ensures AsClose(trace(n + 1), trace(n)) || Closer(trace(n + 1), trace(n))
    ensures Served(trace, schedule, n) ==> Closer(trace(n + 1), trace(n))
  {
    hide Inv, Enabled, Next, Closer, AsClose;
    var s := trace(n);
    assert Happens(s, schedule(n), trace(n + 1));
    if schedule(n).Some? {
      var a := schedule(n).value;
      MoveKeeps(s, a);
      Quiet(s, a);
      if By(a) == Awaited(s) {
        AwaitedAdvances(s, a);
      } else {
        OthersDoNotHinder(s, a);
      }
    } else {
      StandsStill(s);
    }
  }

  lemma StandsStill(s: System)
    ensures AsClose(s, s)
  {
  }

  lemma {:induction false} FairStops(trace: nat -> System, schedule: nat -> Option<Move>, from: nat, n: nat, m: nat)
    requires Follows(trace, schedule) && Fair(trace, schedule, from) && from <= n
    requires Inv(trace(n)) && trace(n).main != Live && CanFetch(trace(n)) && n <= m && Served(trace, schedule, m)
    ensures EverStops(trace)
    decreases MainRank(trace(n).main), |trace(n).meterRing|, Work(trace(n)), Left(trace(n)), Rank(trace(n)), m - n
  {
    hide Inv, Follows, Fair, Served, MainRank, Work, Left, Rank, CanFetch;
    if trace(n).main != Stopped {
      InstantAdvances(trace, schedule, n);
      if n < m {
        FairStops(trace, schedule, from, n + 1, m);
      } else {
        var m' := NextServed(trace, schedule, from, n + 1);
        FairStops(trace, schedule, from, n + 1, m');
      }
    }
  }

  lemma NextServed(trace: nat -> System, schedule: nat -> Option<Move>, from: nat, n: nat) returns (m: nat)
    requires Fair(trace, schedule, from) && from <= n
    ensures n <= m && Served(trace, schedule, m)
  {
    hide Served;
    assert ServedFrom(trace, schedule, n);
    m :| n <= m && Served(trace, schedule, m);
  }

  lemma {:induction false} TraceKeeps(trace: nat -> System, schedule: nat -> Option<Move>, n: nat)
    requires Follows(trace, schedule) && Inv(trace(0))
    ensures Inv(trace(n))
  {
    hide Inv, Enabled, Next;
    if n > 0 {
      TraceKeeps(trace, schedule, n - 1);
      assert Happens(trace(n - 1), schedule(n - 1), trace(n - 1 + 1));
      if schedule(n - 1).Some? {
        MoveKeeps(trace(n - 1), schedule(n - 1).value);
      }
    }
  }

  /** Once called, `stop()` returns under every schedule that is fair from then on, whatever the other
      threads do meanwhile, unless the batch size is zero while packets are still queued. */
  lemma StopReturns(cfg: Config, env: Env, setup: seq<Op>, trace: nat -> System, schedule: nat -> Option<Move>, called: nat)
    requires trace(0) == Begin(cfg, env, setup) && Follows(trace, schedule) && Fair(trace, schedule, called)
    requires trace(called).main != Live && CanFetch(trace(called))
    ensures EverStops(trace)
  {
    BeginOk(cfg, env, setup);
    hide Inv, Follows, Fair, Served, CanFetch, Begin;
    TraceKeeps(trace, schedule, called);
    var m := NextServed(trace, schedule, called, called);
    FairStops(trace, schedule, called, called, m);
  }

  /** In that case no run ever gets to the end. */
  lemma {:induction false} ZeroBatchNeverStops(s: System, moves: seq<Move>, t: System)
    requires Inv(s) && s.main != Live && !CanFetch(s) && Reaches(s, moves, t)
    ensures t.main != Stopped && t.meterRing == s.meterRing
    decreases |moves|
  {
    hide Inv, Next, Enabled;
    if moves == [] {
      QueuedMeansRunning(s);
    } else {
      MoveKeeps(s, moves[0]);
      Quiet(s, moves[0]);
      ZeroBatchNeverStops(Next(s, moves[0]), moves[1..], t);
    }
  }

  lemma QueuedMeansRunning(s: System)
    requires Inv(s) && s.meterRing != []
    ensures s.main != Stopped
  {
    hide EventsOk, EngineOk, RecordsOk, CountsOk;
  }

  /** The case occurs: with batch size zero every packet that parses and finds room leads to it, once
      `stop()` is called. */
  lemma ZeroBatchOccurs(cfg: Config, env: Env, setup: seq<Op>, pdu: seq<u8>, ts: u64) returns (moves: seq<Move>, t: System)
    requires env.batch == 0 && Gtpu.Parse(pdu).Ok?
    ensures moves == [ByCaller(Packet(pdu, ts, true)), ByCaller(CallStop)]
    ensures Reaches(Begin(cfg, env, setup), moves, t) && t.main != Live && !CanFetch(t)
  {
    hide Gtpu.Parse, IngestStage.EventFor, WF, Run, Start;
    var s := Begin(cfg, env, setup);
    moves := [ByCaller(Packet(pdu, ts, true)), ByCaller(CallStop)];
    var s1 := Next(s, moves[0]);
    t := Next(s1, moves[1]);
    assert moves[1..] == [moves[1]] && moves[1..][1..] == [];
    assert Reaches(t, [], t);
    assert Reaches(s1, moves[1..], t);
  }

  /** From the call on, whether packets can be fetched does not change. */
  lemma FetchStays(s: System, move: Option<Move>, t: System)
    requires Inv(s) && s.main != Live && Happens(s, move, t)
    ensures Inv(t) && t.main != Live && (CanFetch(s) <==> CanFetch(t))
  {
    hide Inv, Enabled, Next;
    if move.Some? {
      MoveKeeps(s, move.value);
      Quiet(s, move.value);
    }
  }

  lemma {:induction false} FetchStaysThrough(trace: nat -> System, schedule: nat -> Option<Move>, n: nat, m: nat)
    requires Follows(trace, schedule) && n <= m && Inv(trace(n)) && trace(n).main != Live
    ensures Inv(trace(m)) && trace(m).main != Live && (CanFetch(trace(n)) <==> CanFetch(trace(m)))
    decreases m - n
  {
    hide Inv, CanFetch;
    if n < m {
      assert Happens(trace(n), schedule(n), trace(n + 1));
      FetchStays(trace(n), schedule(n), trace(n + 1));
      FetchStaysThrough(trace, schedule, n + 1, m);
    }
  }

  /** Under every schedule that is fair from the call on, `stop()` returns if and only if packets can be
      fetched when it is called: the batch size is positive or no packet is queued. */
  lemma StopsIff(cfg: Config, env: Env, setup: seq<Op>, trace: nat -> System, schedule: nat -> Option<Move>, called: nat)
    requires trace(0) == Begin(cfg, env, setup) && Follows(trace, schedule) && Fair(trace, schedule, called)
    requires trace(called).main != Live
    ensures EverStops(trace) <==> CanFetch(trace(called))
  {
    BeginOk(cfg, env, setup);
    hide Inv, Follows, Fair, Begin;
    if CanFetch(trace(called)) {
      StopReturns(cfg, env, setup, trace, schedule, called);
    } else {
      TraceKeeps(trace, schedule, called);
      forall m: nat ensures trace(m).main != Stopped {
        TraceKeeps(trace, schedule, m);
        if trace(m).main == Stopped {
          StoppedFacts(trace(m));
          if m <= called {
            FetchStaysThrough(trace, schedule, m, called);
          } else {
            FetchStaysThrough(trace, schedule, called, m);
          }
        }
      }
    }
  }

  // ---------------------------------------------------------------------------
  // Fair schedules exist
  // ---------------------------------------------------------------------------

  /** What is scheduled at instant `n`: the given moves first, then whatever the awaited thread can do. */
  function Choice(s: System, moves: seq<Move>, n: nat): Option<Move> {
    if n < |moves| then Some(moves[n]) else if s.main == Live || s.main == Stopped then None else Some(Plan(s))
  }

  ghost function Perform(s: System, move: Option<Move>): System {
    if move.Some? && WF(s.engine) && Enabled(s, move.value) then Next(s, move.value) else s
  }

  ghost function After(s: System, moves: seq<Move>, n: nat): System {
    if n == 0 then s else Perform(After(s, moves, n - 1), Choice(After(s, moves, n - 1), moves, n - 1))
  }

  /** The first instants are the given run. */
  lemma {:induction false} AfterPrefix(s: System, moves: seq<Move>, t: System, n: nat)
    requires Inv(s) && Reaches(s, moves, t) && n <= |moves|
    ensures Inv(After(s, moves, n)) && Reaches(After(s, moves, n), moves[n..], t)
  {
    hide Inv, Next, Enabled, WF;
    if n > 0 {
      AfterPrefix(s, moves, t, n - 1);
      MoveKeeps(After(s, moves, n - 1), moves[n - 1]);
      assert moves[n - 1..][1..] == moves[n..];
    } else {
      assert moves[0..] == moves;
    }
  }

  /** Each instant is a move that is possible, or none. */
  lemma AfterHappens(s: System, moves: seq<Move>, t: System, n: nat)
    requires Inv(s) && Reaches(s, moves, t) && t.main != Live
    ensures Inv(After(s, moves, n)) && (|moves| <= n ==> After(s, moves, n).main != Live)
    ensures Happens(After(s, moves, n), Choice(After(s, moves, n), moves, n), After(s, moves, n + 1))
  {
    hide Inv, Next, Enabled, WF, Plan;
    AfterKeeps(s, moves, t, n);
    var now := After(s, moves, n);
    HasEngine(now);
    if n < |moves| {
      AfterPrefix(s, moves, t, n);
    } else if now.main != Stopped {
      AwaitedCanMove(now);
    }
  }

  lemma HasEngine(s: System)
    requires Inv(s)
    ensures WF(s.engine)
  {
    hide EventsOk, CountsOk, RecordsOk, OrderOk;
  }

  lemma {:induction false} AfterKeeps(s: System, moves: seq<Move>, t: System, n: nat)
    requires Inv(s) && Reaches(s, moves, t) && t.main != Live
    ensures Inv(After(s, moves, n)) && (|moves| <= n ==> After(s, moves, n).main != Live)
  {
    hide Inv, Next, Enabled, WF;
    if n <= |moves| {
      AfterPrefix(s, moves, t, n);
    } else {
      AfterKeeps(s, moves, t, n - 1);
      var now := After(s, moves, n - 1);
      var move := Choice(now, moves, n - 1);
      if move.Some? && WF(now.engine) && Enabled(now, move.value) {
        MoveKeeps(now, move.value);
        Quiet(now, move.value);
      }
    }
  }

  /** Every run in which `stop()` has been called goes on as an endless schedule that is fair from there:
      the awaited thread is never stuck. */
  lemma FairScheduleExists(cfg: Config, env: Env, setup: seq<Op>, moves: seq<Move>, t: System)
      returns (trace: nat -> System, schedule: nat -> Option<Move>)
    requires Reaches(Begin(cfg, env, setup), moves, t) && t.main != Live
    ensures trace(0) == Begin(cfg, env, setup) && trace(|moves|) == t
    ensures Follows(trace, schedule) && Fair(trace, schedule, |moves|)
  {
    BeginOk(cfg, env, setup);
    hide Inv, Begin, Next, Enabled;
    var s := Begin(cfg, env, setup);
    trace := (n: nat) => After(s, moves, n);
    schedule := (n: nat) => Choice(After(s, moves, n), moves, n);
    AfterPrefix(s, moves, t, |moves|);
    assert moves[|moves|..] == [];
    forall n: nat ensures Happens(trace(n), schedule(n), trace(n + 1)) {
      AfterHappens(s, moves, t, n);
    }
    forall n: nat | |moves| <= n ensures ServedFrom(trace, schedule, n) {
      AfterKeeps(s, moves, t, n);
      if trace(n).main != Stopped {
        AwaitedCanMove(trace(n));
      }
      assert Served(trace, schedule, n);
    }
  }
}

/** The metering engine as it runs: fields updated in place, the TEID table and the flow table
    as objects. Every method is proved against the state machine of module `Meter`. */
module EngineObject {
  import opened Words
  import opened Usage
  import opened Cyclic
  import opened Probing
  import opened FlatHash
  import opened Meter
  import opened Tunnels
  import opened TableLoad
  import Totals
  import FT = FlowTable

  lemma FewerKeys(m: map<u32, Binding>, t: u32)
    ensures |m - {t} - {EMPTY}| <= |m - {EMPTY}|
  {
    var a, b := (m - {t} - {EMPTY}).Keys, (m - {EMPTY}).Keys;
    assert a <= b;
    Subset(a, b);
  }

  lemma StaysDeletable(e: Meter.Engine, was: u32, becomes: u32, t: u32, becomesToo: u32)
    requires t != 0 && t != becomesToo ==> Deletable(e, t)
    ensures t != 0 && t != becomesToo ==> Deletable(UnbindIfMoved(e, was, becomes), t)
  {
    FewerKeys(e.teids, was);
  }

  lemma StaysDroppable(e: Meter.Engine, was: u32, t: u32)
    requires t != 0 ==> Deletable(e, t)
    ensures t != 0 ==> Deletable(UnbindIfSet(e, was), t)
  {
    FewerKeys(e.teids, was);
  }

  lemma UnfoldTunnels(e: Meter.Engine)
    requires TunnelsOk(e)
    ensures WF(e) && Enrolled(e)
  {
  }

  /** Activating a session leaves the table alone; a session that starts afresh has no tunnels yet. */
  lemma OpenCanMove(e: Meter.Engine, spec: SessionSpec, now: u64)
    requires WF(e) && Enrolled(e) && Accepts(e, spec)
    requires WillMove(e, spec) ==> CanMove(e, e.info[e.imsiIndex[spec.imsi]], spec)
    ensures var r := Register(e, spec.imsi);
            var o := Open(r, r.imsiIndex[spec.imsi], spec, now);
            CanMove(o, o.info[r.imsiIndex[spec.imsi]], spec)
  {
  }

  lemma EmitCanDrop(e: Meter.Engine, idx: nat, now: u64)
    requires WF(e) && idx < |e.info| && CanDrop(e, e.info[idx])
    ensures CanDrop(Emit(e, idx, Release, now), Emit(e, idx, Release, now).info[idx])
  {
  }

  /** The accounting slot for a bucket id, and the subscriber record with that slot labelled. */
  method AssignBucket(info: Info, id: u32) returns (it: Info, slot: SlotIndex)
    ensures (it, slot) == AssignSlot(info, id)
  {
    it := info;
    for i := 0 to 3
      invariant forall k: SlotIndex :: k < i ==> it.ids.At(k) != id
    {
      if it.ids.At(i) == id {
        assert (i > 0 ==> it.ids.At(0) != id) && (i > 1 ==> it.ids.At(1) != id);
        return it, i;
      }
    }
    assert it.ids.At(0) != id && it.ids.At(1) != id && it.ids.At(2) != id;
    for i := 0 to 2
      invariant forall k: SlotIndex :: k < i ==> it.ids.At(k) != UNSET
    {
      if it.ids.At(i) == UNSET {
        assert i > 0 ==> it.ids.At(0) != UNSET;
        return it.(ids := it.ids.Put(i, id)), i;
      }
    }
    assert it.ids.At(0) != UNSET && it.ids.At(1) != UNSET;
    if it.ids.At(2) == UNSET {
      it := it.(ids := it.ids.Put(2, id));
    } else if it.ids.At(2) != id {
      it := it.(aggregated := true);
    }
    slot := 2;
  }

  /** The slot of a packet: the one its tunnel resolved to, or that of its QoS flow. */
  method ResolveBucket(info: Info, b: Binding, ev: MeterEvent) returns (it: Info, slot: SlotIndex)
    ensures (it, slot) == ResolveSlot(info, b, ev)
  {
    hide AssignSlot;
    it, slot := info, b.slot;
    if ev.hasQfi {
      it, slot := AssignBucket(it, QFI_TAG + ev.qfi);
    }
  }

  /** The flow slots after `op`: only charged packets change them. */
  ghost function FlowsAfterOne(fold: u64 -> u64, window: nat, es: seq<FT.FlowEntry>, e: Meter.Engine, op: Op): (r: seq<FT.FlowEntry>)
    requires |es| > 0 && WF(e)
    ensures |r| == |es|
  {
    if op.DoPacket? && Charges(e, op.ev) then FT.SlotsAfter(fold, window, es, FlowPacketOf(e, op.ev)) else es
  }

  ghost function FlowsAfter(fold: u64 -> u64, window: nat, es: seq<FT.FlowEntry>, e: Meter.Engine, ops: seq<Op>): (r: seq<FT.FlowEntry>)
    requires |es| > 0 && WF(e)
    ensures |r| == |es|
  {
    if ops == [] then es
    else
      var n := |ops| - 1;
      FlowsAfterOne(fold, window, FlowsAfter(fold, window, es, e, ops[..n]), Run(e, ops[..n]), ops[n])
  }

  /** The packet is not charged, or its flow is stored or finds a slot or a victim. */
  ghost predicate Placed(fold: u64 -> u64, window: nat, es: seq<FT.FlowEntry>, e: Meter.Engine, op: Op)
    requires WF(e)
  {
    op.DoPacket? && Charges(e, op.ev) ==> FT.HasPlace(fold, window, es, FT.KeyOf(op.ev.flowKey))
  }

  ghost predicate PlacedAt(fold: u64 -> u64, window: nat, es: seq<FT.FlowEntry>, e: Meter.Engine, ops: seq<Op>, j: nat)
    requires |es| > 0 && WF(e) && j < |ops|
  {
    Placed(fold, window, FlowsAfter(fold, window, es, e, ops[..j]), Run(e, ops[..j]), ops[j])
  }

  /** Every charged packet of a run finds a place for its flow. */
  ghost predicate AllPlaced(fold: u64 -> u64, window: nat, es: seq<FT.FlowEntry>, e: Meter.Engine, ops: seq<Op>)
    requires |es| > 0 && WF(e)
  {
    forall j :: 0 <= j < |ops| ==> PlacedAt(fold, window, es, e, ops, j)
  }

  /** For instance when there is a probe window and the largest timestamp is not used. */
  lemma DatedAllPlaced(fold: u64 -> u64, window: nat, es: seq<FT.FlowEntry>, e: Meter.Engine, ops: seq<Op>)
    requires |es| > 0 && WF(e) && window >= 1 && FT.Dated(es)
    requires forall j :: 0 <= j < |ops| && ops[j].DoPacket? ==> ops[j].ev.ts < FT.NEVER
    ensures AllPlaced(fold, window, es, e, ops)
  {
    hide FlowsAfter, Run, Charges, FT.HasPlace, FT.Dated, WF;
    forall j | 0 <= j < |ops|
      ensures PlacedAt(fold, window, es, e, ops, j)
    {
      StaysDated(fold, window, es, e, ops[..j]);
      if ops[j].DoPacket? {
        FT.DatedHasPlace(fold, window, FlowsAfter(fold, window, es, e, ops[..j]), FT.KeyOf(ops[j].ev.flowKey));
      }
    }
  }

  lemma {:induction false} StaysDated(fold: u64 -> u64, window: nat, es: seq<FT.FlowEntry>, e: Meter.Engine, ops: seq<Op>)
    requires |es| > 0 && WF(e) && FT.Dated(es)
    requires forall j :: 0 <= j < |ops| && ops[j].DoPacket? ==> ops[j].ev.ts < FT.NEVER
    ensures FT.Dated(FlowsAfter(fold, window, es, e, ops))
  {
    hide Run, Charges, FT.Dated, FT.SlotsAfter, WF;
    if ops != [] {
      var n := |ops| - 1;
      StaysDated(fold, window, es, e, ops[..n]);
      var before := Run(e, ops[..n]);
      if ops[n].DoPacket? && Charges(before, ops[n].ev) {
        FT.DatedAfter(fold, window, FlowsAfter(fold, window, es, e, ops[..n]), FlowPacketOf(before, ops[n].ev));
      }
    }
  }

  /** Whether the engine charges a packet to some subscriber. */
  ghost predicate Charges(e: Meter.Engine, ev: MeterEvent)
    requires WF(e)
  {
    !ev.control && ev.teid in LookUp(CountEvent(e, ev), ev).teids
  }

  /** The last entry in the history of the flow table is that packet, of its own flow. */
  ghost predicate LastFlow(log: seq<FT.FlowAct>, ev: MeterEvent, sub: nat) {
    log != [] &&
    var key := if ev.flowKey == 0 then 1 else ev.flowKey;
    var act := log[|log| - 1];
    act == FT.Hit(key, ev.bytes, ev.ts) || act == FT.Inserted(key, ev.bytes, ev.ts, sub, ev.teid, ev.qfi)
  }

  /** What the flow table gets of a charged packet. */
  ghost function FlowPacketOf(e: Meter.Engine, ev: MeterEvent): FT.FlowPacket
    requires WF(e) && Charges(e, ev)
  {
    FT.FlowPacket(ev.flowKey, ev.bytes, ev.ts, LookUp(CountEvent(e, ev), ev).teids[ev.teid].sub, ev.teid, ev.qfi)
  }

  ghost function ChargedBytes(s: Stats): nat {
    s.ulBytes + s.dlBytes
  }

  lemma ChargesCount(e: Meter.Engine, ev: MeterEvent)
    requires WF(e)
    ensures ChargedBytes(Apply(e, ev).stats) == ChargedBytes(e.stats) + if Charges(e, ev) then ev.bytes else 0
  {
    hide LookUp, IndicesOk;
    Totals.LookUpTotals(CountEvent(e, ev), ev);
  }

  /** What is only remembered: histories and origins of all activations. */
  datatype Past = Past(acts: seq<seq<Act>>, closed: seq<seq<Act>>, origins: seq<Origin>, past: seq<Origin>)

  class MeterEngine {
    const cfg: Config
    var counters: seq<Counters>
    var info: seq<Info>
    const teidMap: FlatHashU32<Binding>
    const flows: FT.Flows?  // null when flows are not tracked
    var imsiIndex: map<u64, nat>
    var nextSub: nat
    var cursor: nat
    var lastSweep: u64
    var stats: Stats
    ghost var past: Past
    var sent: seq<UsageRecord>  // everything the record ring took
    ghost var refused: seq<UsageRecord>

    ghost function Abs(): Meter.Engine
      reads this, teidMap
    {
      Meter.Engine(cfg, counters, info, teidMap.Contents(), imsiIndex, nextSub, cursor, lastSweep, stats, past.acts, past.closed,
                   past.origins, past.past, sent, refused)
    }

    /** The table object is in order and belongs to this configuration. */
    ghost predicate Sound()
      reads this, teidMap, teidMap.keys, teidMap.values
    {
      teidMap.Valid() && teidMap.keys.Length == cfg.teidCapacity
    }

    ghost predicate FlowsSound()
      reads flows, if flows == null then {} else {flows.slots}
    {
      flows != null ==>
        && flows.Valid()
        && flows.slots as object != teidMap.keys && flows.slots as object != teidMap.values
    }

    ghost predicate Valid()
      reads this, teidMap, teidMap.keys, teidMap.values, flows, if flows == null then {} else {flows.slots}
    {
      Sound() && FlowsSound() && TunnelsOk(Abs())
    }

    constructor (cfg: Config, teidCapacity: nat, flowCapacity: Option<nat>, window: nat, hash: u32 -> u32, fold: u64 -> u64)
      requires cfg.teidCapacity == BitCeil(if teidCapacity < 8 then 8 else teidCapacity)
      ensures Valid() && Abs() == Start(cfg)
      ensures fresh(teidMap) && fresh(teidMap.keys) && fresh(teidMap.values)
      ensures (flows != null <==> flowCapacity.Some?) && FlowBytes() == 0
      ensures flows != null ==> fresh(flows) && fresh(flows.slots) && flows.window == window && FT.Dated(FlowSlots())
    {
      hide Represents, Start, TunnelsOk, IndicesOk, BitCeil, FT.Shape, FT.Holds, FT.Tells, FT.Conserved;
      this.cfg := cfg;
      counters := seq(cfg.maxSubscribers, _ => NoCounters);
      info := seq(cfg.maxSubscribers, _ => NoInfo);
      past := Past(seq(cfg.maxSubscribers, _ => []), [], seq(cfg.maxSubscribers, _ => NoOrigin), []);
      var table := new FlatHashU32(teidCapacity, hash, Binding(0, Unknown, 0));
      teidMap := table;
      if flowCapacity.Some? {
        var f := new FT.Flows(flowCapacity.value, window, fold);
        flows := f;
      } else {
        flows := null;
      }
      imsiIndex, nextSub, cursor, lastSweep, stats := map[], 0, 0, 0, NoStats;
      sent, refused := [], [];
      new;
      StartShape(cfg, counters, info, past.acts, past.origins);
      StartOk(cfg);
    }

    // -------------------------------------------------------------------------
    // Control plane
    // -------------------------------------------------------------------------

    method UnbindTeid(teid: u32)
      requires Sound() && Deletable(Abs(), teid)
      modifies teidMap, teidMap.keys, teidMap.values
      ensures Sound() && Abs() == Unbind(old(Abs()), teid)
    {
      hide Represents;
      teidMap.LoadIsSize();
      var _ := teidMap.Erase(teid);
    }

    /** Whether the binding took; a full table refuses it. */
    method BindTeid(teid: u32, b: Binding) returns (ok: bool)
      requires Sound() && WF(Abs()) && b.sub < nextSub
      modifies this`stats, teidMap, teidMap.keys, teidMap.values
      ensures Sound() && Abs() == Bind(old(Abs()), teid, b)
      ensures ok == CanBind(old(Abs()), teid)
    {
      hide Represents;
      teidMap.LoadIsSize();
      ok := teidMap.Insert(teid, b);
      if !ok {
        stats := stats.(bindFailures := stats.bindFailures + 1);
      }
    }

    method Enrol(imsi: u64) returns (idx: nat)
      requires WF(Abs()) && (imsi in imsiIndex || nextSub < cfg.maxSubscribers)
      modifies this`nextSub, this`imsiIndex, this`stats
      ensures WF(Abs()) && Abs() == Register(old(Abs()), imsi) && idx == imsiIndex[imsi]
    {
      if imsi in imsiIndex {
        idx := imsiIndex[imsi];
      } else {
        idx := nextSub;
        nextSub := nextSub + 1;
        imsiIndex := imsiIndex[imsi := idx];
        stats := stats.(installed := stats.installed + 1);
      }
    }

    method Activate(idx: nat, spec: SessionSpec, now: u64)
      requires WF(Abs()) && idx < nextSub
      modifies this`counters, this`info, this`past
      ensures Abs() == Open(old(Abs()), idx, spec, now)
    {
      hide IndicesOk, AskedFor;
      var it := info[idx];
      var reinstall := it.active;
      if !reinstall {
        counters := counters[idx := NoCounters];
        it := NoInfo;
        past := Past(past.acts[idx := []], past.closed + [past.acts[idx]],
                     past.origins[idx := Origin(spec.imsi, idx, now, spec.ratingGroup, [spec.ratingGroup])],
                     past.past + [past.origins[idx]]);
      } else {
        past := past.(origins := past.origins[idx := AskedFor(past.origins[idx], spec.ratingGroup).(group := spec.ratingGroup)]);
      }
      it := it.(imsi := spec.imsi, active := true);
      if !reinstall {
        it := it.(firstSeen := now, intervalStart := now);
      }
      info := info[idx := it.(ratingGroup := spec.ratingGroup)];
    }

    method UnbindMoved(was: u32, becomes: u32)
      requires Sound() && (was != 0 && was != becomes ==> Deletable(Abs(), was))
      modifies teidMap, teidMap.keys, teidMap.values
      ensures Sound() && Abs() == UnbindIfMoved(old(Abs()), was, becomes)
    {
      hide Represents;
      if was != 0 && was != becomes {
        UnbindTeid(was);
      }
    }

    method MoveSession(idx: nat, spec: SessionSpec)
      requires Sound() && WF(Abs()) && idx < nextSub && CanMove(Abs(), info[idx], spec)
      modifies this`info, teidMap, teidMap.keys, teidMap.values
      ensures Sound() && Abs() == MoveTunnels(old(Abs()), idx, spec)
    {
      hide Represents, UnbindIfMoved;
      var it := info[idx];
      StaysDeletable(Abs(), it.ulTeid, spec.ulTeid, it.dlTeid, spec.dlTeid);
      UnbindMoved(it.ulTeid, spec.ulTeid);
      UnbindMoved(it.dlTeid, spec.dlTeid);
      info := info[idx := it.(ulTeid := spec.ulTeid, dlTeid := spec.dlTeid)];
    }

    method BindTunnel(teid: u32, b: Binding) returns (ok: bool)
      requires Sound() && TunnelsOk(Abs()) && b.sub < nextSub && (teid != 0 ==> Owns(info[b.sub], teid, b))
      modifies this`stats, teidMap, teidMap.keys, teidMap.values
      ensures Sound() && TunnelsOk(Abs()) && Abs() == BindIfSet(old(Abs()), teid, b)
      ensures stats.bindFailures == old(stats.bindFailures) + if ok then 0 else 1
    {
      hide Represents;
      BindIfSetKeeps(Abs(), teid, b);
      ok := true;
      if teid != 0 {
        ok := BindTeid(teid, b);
      }
    }

    method BindSession(idx: nat, spec: SessionSpec) returns (bound: bool)
      requires Sound() && Ready(Abs(), idx, spec)
      modifies this`info, this`stats, teidMap, teidMap.keys, teidMap.values
      ensures Sound() && TunnelsOk(Abs()) && Abs() == BindTunnels(old(Abs()), idx, spec)
      ensures bound == (stats.bindFailures == old(stats.bindFailures))
    {
      hide Represents, AssignSlot, BindIfSet, Bound, Enrolled;
      RelabelKeeps(Abs(), idx, spec);
      var it, slot := AssignBucket(info[idx], spec.ratingGroup);
      info := info[idx := it];
      var ul := BindTunnel(spec.ulTeid, Binding(idx, Uplink, slot));
      var dl := BindTunnel(spec.dlTeid, Binding(idx, Downlink, slot));
      return ul && dl;
    }

    /** The subscriber index, or None when the spec is invalid, the subscriber table is full or a tunnel
        could not be bound. A tunnel that has moved must not be stuck in a full table. */
    method InstallSession(spec: SessionSpec, now: u64) returns (r: Option<nat>)
      requires Valid() && (WillMove(Abs(), spec) ==> CanMove(Abs(), info[imsiIndex[spec.imsi]], spec))
      modifies this, teidMap, teidMap.keys, teidMap.values
      ensures Valid() && Abs() == Install(old(Abs()), spec, now)
      ensures r == if Accepts(old(Abs()), spec) && spec.imsi in imsiIndex && stats.bindFailures == old(stats.bindFailures)
                   then Some(imsiIndex[spec.imsi]) else None
    {
      hide Represents, Bound, Enrolled, MoveTunnels, BindTunnels;
      ghost var e0 := Abs();
      InstallKeeps(e0, spec, now);
      if !spec.Valid() {
        return None;
      }
      if spec.imsi !in imsiIndex && nextSub >= |counters| {
        return None;
      }
      PrepareKeeps(e0, spec, now);
      var idx := OpenSession(spec, now);
      MoveSession(idx, spec);
      var bound := BindSession(idx, spec);
      return if bound then Some(idx) else None;
    }

    /** Find or create the subscriber and activate its session. */
    method OpenSession(spec: SessionSpec, now: u64) returns (idx: nat)
      requires TunnelsOk(Abs()) && Accepts(Abs(), spec)
      requires WillMove(Abs(), spec) ==> CanMove(Abs(), info[imsiIndex[spec.imsi]], spec)
      modifies this`nextSub, this`imsiIndex, this`stats, this`counters, this`info, this`past
      ensures WF(Abs()) && idx < nextSub && spec.imsi in imsiIndex && idx == imsiIndex[spec.imsi]
      ensures var r := Register(old(Abs()), spec.imsi);
              idx == r.imsiIndex[spec.imsi] && Abs() == Open(r, idx, spec, now)
      ensures stats.bindFailures == old(stats.bindFailures)
      ensures CanMove(Abs(), info[idx], spec)
    {
      hide Bound, TunnelsOk;
      ghost var e0 := Abs();
      UnfoldTunnels(e0);
      idx := Enrol(spec.imsi);
      Activate(idx, spec, now);
      OpenCanMove(e0, spec, now);
    }

    method PushRecord(r: UsageRecord)
      modifies this`stats, this`sent, this`refused
      ensures Abs() == Send(old(Abs()), r)
    {
      if cfg.accepts(stats.recordsEmitted + stats.recordsDropped) {
        sent := sent + [r];
        stats := stats.(recordsEmitted := stats.recordsEmitted + 1);
      } else {
        refused := refused + [r];
        stats := stats.(recordsDropped := stats.recordsDropped + 1);
      }
    }

    method EmitRecord(idx: nat, reason: Reason, now: u64)
      requires WF(Abs()) && idx < |info|
      modifies this`info, this`stats, this`past, this`sent, this`refused
      ensures Abs() == Emit(old(Abs()), idx, reason, now)
    {
      hide Delta, Send;
      var c, it := counters[idx].tally, info[idx];
      var r := UsageRecord(it.intervalStart, now, it.imsi, Delta(c, it.emitted), it.ids, idx, it.recordSeq, reason, it.aggregated);
      assert r == RecordOf(Abs(), idx, reason, now);
      PushRecord(r);
      past := past.(acts := past.acts[idx := past.acts[idx] + [Report(r)]]);
      info := info[idx := it.(recordSeq := (it.recordSeq + 1) % TWO32, emitted := c, intervalStart := now)];
    }

    /** Release a session: a last record, then its bindings go. A bound tunnel must not be stuck in a full table. */
    method EndSession(imsi: u64, now: u64) returns (ok: bool)
      requires Valid() && (Releasable(Abs(), imsi) ==> CanDrop(Abs(), info[imsiIndex[imsi]]))
      modifies this, teidMap, teidMap.keys, teidMap.values
      ensures Valid() && Abs() == ReleaseSession(old(Abs()), imsi, now)
      ensures ok == Releasable(old(Abs()), imsi)
    {
      hide Represents, Bound, Enrolled, Close;
      ReleaseKeeps(Abs(), imsi, now);
      if imsi !in imsiIndex {
        return false;
      }
      var idx := imsiIndex[imsi];
      if !info[idx].active {
        return false;
      }
      ghost var e0 := Abs();
      EmitRecord(idx, Release, now);
      EmitCanDrop(e0, idx, now);
      CloseSession(idx);
      return true;
    }

    method DropTunnel(teid: u32)
      requires Sound() && (teid != 0 ==> Deletable(Abs(), teid))
      modifies teidMap, teidMap.keys, teidMap.values
      ensures Sound() && Abs() == UnbindIfSet(old(Abs()), teid)
    {
      hide Represents;
      if teid != 0 {
        UnbindTeid(teid);
      }
    }

    method CloseSession(idx: nat)
      requires Sound() && idx < |info| && CanDrop(Abs(), info[idx])
      modifies this`info, this`stats, teidMap, teidMap.keys, teidMap.values
      ensures Sound() && Abs() == Close(old(Abs()), idx)
    {
      hide Represents, UnbindIfSet;
      var it := info[idx];
      StaysDroppable(Abs(), it.ulTeid, it.dlTeid);
      DropTunnel(it.ulTeid);
      DropTunnel(it.dlTeid);
      info := info[idx := it.(active := false)];
      stats := stats.(released := stats.released + 1);
    }

    // -------------------------------------------------------------------------
    // Data plane
    // -------------------------------------------------------------------------

    method NewSubscriber(ev: MeterEvent) returns (slot: SlotIndex)
      requires WF(Abs()) && nextSub < cfg.maxSubscribers
      modifies this`nextSub, this`counters, this`info, this`past, this`stats
      ensures Abs() == LearnSub(old(Abs()), ev) && WF(Abs()) && slot == LearnedInfo(ev).1
    {
      hide AssignSlot, IndicesOk;
      var idx := nextSub;
      nextSub := nextSub + 1;
      counters := counters[idx := NoCounters];
      var it, slot' := AssignBucket(NoInfo.(active := true, learned := true, firstSeen := ev.ts, intervalStart := ev.ts), 0);
      slot := slot';
      if ev.dir == Downlink {
        it := it.(dlTeid := ev.teid);
      } else {
        it := it.(ulTeid := ev.teid);
      }
      info := info[idx := it];
      past := past.(acts := past.acts[idx := []], origins := past.origins[idx := Origin(0, idx, ev.ts, 0, [0])]);
      stats := stats.(learned := stats.learned + 1);
    }

    /** The binding of a newly learned TEID, or None when no subscriber is free or the TEID table is full. */
    method LearnTeid(ev: MeterEvent) returns (b: Option<Binding>)
      requires Sound() && TunnelsOk(Abs()) && ev.teid !in teidMap.Contents()
      modifies this`nextSub, this`counters, this`info, this`past, this`stats, teidMap, teidMap.keys, teidMap.values
      ensures Sound() && TunnelsOk(Abs())
      ensures Abs() == if old(nextSub) >= cfg.maxSubscribers then old(Abs()) else Learn(old(Abs()), ev)
      ensures b == if ev.teid in teidMap.Contents() then Some(teidMap.Contents()[ev.teid]) else None
    {
      hide Represents, Bound, Enrolled, LearnedInfo, LearnSub, Bind;
      if nextSub >= |counters| {
        return None;
      }
      LearnKeeps(Abs(), ev);
      var idx := nextSub;
      var slot := NewSubscriber(ev);
      var ok := BindTeid(ev.teid, Binding(idx, ev.dir, slot));
      b := teidMap.Find(ev.teid);
    }

    method CountTo(down: bool, bytes: nat)
      modifies this`stats
      ensures stats == CountDirection(old(stats), down, bytes)
    {
      if down {
        stats := stats.(dlBytes := stats.dlBytes + bytes, dlPackets := stats.dlPackets + 1);
      } else {
        stats := stats.(ulBytes := stats.ulBytes + bytes, ulPackets := stats.ulPackets + 1);
      }
    }

    method ChargeTo(ev: MeterEvent, b: Binding)
      requires WF(Abs()) && b.sub < nextSub
      modifies this`counters, this`info, this`stats, this`past
      ensures Abs() == ChargePacket(old(Abs()), ev, b)
    {
      hide Wrap, Plus, Packet, ResolveSlot, IndicesOk, BucketOf, CountDirection, AskedFor;
      var sub := b.sub;
      var c, it := counters[sub].tally, info[sub];
      var dir := if b.dir == Unknown then ev.dir else b.dir;
      c := AddDirection(c, dir == Downlink, ev.bytes);
      CountTo(dir == Downlink, ev.bytes);
      var it', slot := ResolveBucket(it, b, ev);
      c := AddBucket(c, slot, ev.bytes);
      ChargeIsPlus(counters[sub].tally, dir == Downlink, slot, ev.bytes);
      hide AddDirection, AddBucket;
      counters := counters[sub := Counters(c, ev.ts)];
      info := info[sub := it'];
      past := past.(acts := past.acts[sub := past.acts[sub] + [Charge(dir == Downlink, BucketOf(it', ev), slot, ev.bytes)]],
                    origins := if ev.hasQfi then past.origins[sub := AskedFor(past.origins[sub], QFI_TAG + ev.qfi)] else past.origins);
    }

    /** The flow of the packet is stored or its window can take it. */
    ghost predicate HasFlow(ev: MeterEvent)
      requires flows != null
      reads flows, flows.slots
    {
      FT.HasPlace(flows.fold, flows.window, flows.slots[..], FT.KeyOf(ev.flowKey))
    }

    method UpdateFlow(ev: MeterEvent, sub: nat)
      requires flows != null && FlowsSound() && HasFlow(ev)
      modifies flows, flows.slots
      ensures FlowsSound() && flows.metered == old(flows.metered) + ev.bytes
      ensures flows.slots[..] == FT.SlotsAfter(flows.fold, flows.window, old(flows.slots[..]),
                                               FT.FlowPacket(ev.flowKey, ev.bytes, ev.ts, sub, ev.teid, ev.qfi))
      ensures LastFlow(flows.log, ev, sub)
    {
      hide FT.Shape, FT.Holds, FT.Tells, FT.Stored, FT.Conserved, FT.HasPlace, FT.SlotsAfter, FT.Scanned, FT.NoneOlder;
      var _ := flows.Update(FT.FlowPacket(ev.flowKey, ev.bytes, ev.ts, sub, ev.teid, ev.qfi));
    }

    /** The binding of a packet's TEID, learning the TEID if the engine is configured to. */
    method Lookup(ev: MeterEvent) returns (b: Option<Binding>)
      requires Sound() && TunnelsOk(Abs())
      modifies this`nextSub, this`counters, this`info, this`past, this`stats, teidMap, teidMap.keys, teidMap.values
      ensures Sound() && TunnelsOk(Abs())
      ensures Abs() == LookUp(old(Abs()), ev)
      ensures b == if ev.teid in teidMap.Contents() then Some(teidMap.Contents()[ev.teid]) else None
    {
      hide Represents, Bound, Enrolled, Learn;
      b := teidMap.Find(ev.teid);
      if b.None? && cfg.learnUnknown {
        b := LearnTeid(ev);
      }
    }

    /** Charge a counted packet through its binding, or count it as unknown. */
    method ChargeByTeid(ev: MeterEvent) returns (b: Option<Binding>)
      requires Sound() && TunnelsOk(Abs())
      modifies this`nextSub, this`counters, this`info, this`past, this`stats, teidMap, teidMap.keys, teidMap.values
      ensures Sound() && Abs() == ChargeOrCount(LookUp(old(Abs()), ev), ev)
      ensures b.Some? <==> ev.teid in LookUp(old(Abs()), ev).teids
      ensures b.Some? ==> b.value == LookUp(old(Abs()), ev).teids[ev.teid]
    {
      hide Represents, Bound, Enrolled, ChargePacket, LookUp;
      b := Lookup(ev);
      if b.None? {
        stats := stats.(unknownEvents := stats.unknownEvents + 1, unknownBytes := stats.unknownBytes + ev.bytes);
      } else {
        ChargeTo(ev, b.value);
      }
    }

    method CountIn(ev: MeterEvent)
      modifies this`stats
      ensures Abs() == CountEvent(old(Abs()), ev)
    {
      stats := stats.(events := stats.events + 1, bytes := stats.bytes + ev.bytes, lastEvent := ev.ts);
    }

    /** Charge one packet, or count why not. */
    method MeterPacket(ev: MeterEvent) returns (b: Option<Binding>)
      requires Sound() && TunnelsOk(Abs())
      modifies this`nextSub, this`counters, this`info, this`past, this`stats, teidMap, teidMap.keys, teidMap.values
      ensures Sound() && TunnelsOk(Abs()) && Abs() == Apply(old(Abs()), ev)
      ensures b.Some? <==> Charges(old(Abs()), ev)
      ensures b.Some? ==> b.value.sub == FlowPacketOf(old(Abs()), ev).sub
    {
      hide Represents, Bound, Enrolled, ChargeOrCount, LookUp;
      ghost var e0 := Abs();
      ApplyKeeps(e0, ev);
      CountIn(ev);
      if ev.control {
        stats := stats.(controlPdus := stats.controlPdus + 1);
        return None;
      }
      CountKeeps(e0, Abs());
      b := ChargeByTeid(ev);
    }

    /** Apply one metered packet: the subscriber's counters first, then its flow, whose window must not be
        full of other flows that all bear the largest timestamp. */
    method ApplyEvent(ev: MeterEvent)
      requires Valid() && (flows != null && Charges(Abs(), ev) ==> HasFlow(ev))
      modifies this, teidMap, teidMap.keys, teidMap.values, flows, if flows == null then {} else {flows.slots}
      ensures Valid() && Abs() == Apply(old(Abs()), ev)
      ensures flows != null ==>
                && flows.metered == old(flows.metered) + (if Charges(old(Abs()), ev) then ev.bytes else 0)
                && flows.slots[..] == FlowsAfterOne(flows.fold, flows.window, old(flows.slots[..]), old(Abs()), DoPacket(ev))
                && (Charges(old(Abs()), ev) ==> LastFlow(flows.log, ev, LookUp(CountEvent(old(Abs()), ev), ev).teids[ev.teid].sub))
    {
      hide Represents, Bound, Enrolled, IndicesOk, Apply, Charges, LookUp, FT.SlotsAfter, FT.HasPlace;
      var b := MeterPacket(ev);
      if b.Some? && flows != null {
        UpdateFlow(ev, b.value.sub);
      }
    }

    method CountGy(ev: GyEvent)
      requires WF(Abs())
      modifies this`info, this`stats
      ensures Abs() == ApplyGy(old(Abs()), ev)
    {
      hide Add64;
      stats := stats.(gyEvents := stats.gyEvents + 1);
      if !ev.hasImsi || !ev.hasUsed || ev.imsi !in imsiIndex {
        return;
      }
      var idx := imsiIndex[ev.imsi];
      var it := info[idx];
      it := it.(gyOctets := Add64(it.gyOctets, ev.usedTotal), gyLast := ev.ts, gyReports := (it.gyReports + 1) % TWO32);
      info := info[idx := it];
      stats := stats.(gyOctets := stats.gyOctets + ev.usedTotal);
    }

    method ApplyGyEvent(ev: GyEvent)
      requires Valid()
      modifies this`info, this`stats
      ensures Valid() && Abs() == ApplyGy(old(Abs()), ev)
    {
      hide Represents, Bound, Enrolled, ApplyGy;
      GyKeeps(Abs(), ev);
      CountGy(ev);
    }

    // -------------------------------------------------------------------------
    // Reporting timers
    // -------------------------------------------------------------------------

    /** Why a subscriber is due for a record, if it is. */
    method IsDue(idx: nat, now: u64) returns (r: Option<Reason>)
      requires idx < |info| == |counters|
      ensures r == Due(Abs(), idx, now)
    {
      hide Add64, Sub64;
      var it := info[idx];
      if !it.active {
        return None;
      }
      var c := counters[idx].tally;
      var pending := Add64(Sub64(c.ulBytes, it.emitted.ulBytes), Sub64(c.dlBytes, it.emitted.dlBytes));
      if pending == 0 {
        return None;
      }
      if cfg.volumeThreshold != 0 && pending >= cfg.volumeThreshold {
        return Some(Volume);
      }
      if cfg.reportInterval != 0 && Sub64(now, it.intervalStart) >= cfg.reportInterval {
        return Some(Interval);
      }
      return None;
    }

    /** Visit the subscriber under the sweep cursor. */
    method SweepNext(now: u64)
      requires WF(Abs()) && nextSub > 0
      modifies this`cursor, this`info, this`stats, this`past, this`sent, this`refused
      ensures Abs() == SweepOne(old(Abs()), now) && WF(Abs())
    {
      hide IndicesOk, Emit, Due;
      if cursor >= nextSub {
        cursor := 0;
      }
      var idx := cursor;
      cursor := cursor + 1;
      assert Abs() == old(Abs()).(cursor := Visited(old(Abs())) + 1);
      var due := IsDue(idx, now);
      if due.Some? {
        EmitRecord(idx, due.value, now);
      }
    }

    /** Advance reporting timers over one slice of the subscriber table. */
    method PollTimers(now: u64)
      requires Valid()
      modifies this`lastSweep, this`cursor, this`info, this`stats, this`past, this`sent, this`refused
      ensures Valid() && Abs() == Poll(old(Abs()), now)
    {
      hide Represents, Bound, Enrolled, SweepOne;
      PollKeeps(Abs(), now);
      if Sub64(now, lastSweep) < cfg.sweepPeriod {
        return;
      }
      lastSweep := now;
      if nextSub == 0 {
        return;
      }
      ghost var e1 := Abs();
      var slice := nextSub / if cfg.sweepFraction > 1 then cfg.sweepFraction else 1;
      var chunk := if slice > 1 then slice else 1;
      for n := 0 to chunk
        invariant WF(Abs()) && nextSub > 0 && Abs() == Sweep(e1, n, now)
      {
        SweepNext(now);
      }
    }

    method DrainOne(idx: nat, now: u64) returns (n: nat)
      requires WF(Abs()) && idx < nextSub
      modifies this`info, this`stats, this`past, this`sent, this`refused
      ensures var e := old(Abs());
              Abs() == if Unreported(e, idx) then Emit(e, idx, Shutdown, now) else e
      ensures n == (stats.recordsEmitted + stats.recordsDropped) - old(stats.recordsEmitted + stats.recordsDropped)
    {
      n := 0;
      var c, m := counters[idx].tally, info[idx].emitted;
      if info[idx].active && !(c.ulBytes == m.ulBytes && c.dlBytes == m.dlBytes) {
        EmitRecord(idx, Shutdown, now);
        n := 1;
      }
    }

    /** Report whatever any subscriber still has pending. */
    method DrainAll(now: u64) returns (emitted: nat)
      requires Valid()
      modifies this`info, this`stats, this`past, this`sent, this`refused
      ensures Valid() && Abs() == Drain(old(Abs()), now)
      ensures emitted == (stats.recordsEmitted + stats.recordsDropped) - old(stats.recordsEmitted + stats.recordsDropped)
    {
      hide Represents, Bound, Enrolled, Unreported;
      ghost var e0 := Abs();
      DrainKeeps(e0, nextSub, now);
      emitted := 0;
      for idx := 0 to nextSub
        invariant Abs() == DrainUpTo(e0, idx, now)
        invariant emitted == (stats.recordsEmitted + stats.recordsDropped) - (e0.stats.recordsEmitted + e0.stats.recordsDropped)
      {
        var n := DrainOne(idx, now);
        emitted := emitted + n;
      }
    }

    // -------------------------------------------------------------------------
    // Runs
    // -------------------------------------------------------------------------

    ghost function FlowSlots(): (es: seq<FT.FlowEntry>)
      requires flows != null
      reads flows, flows.slots
    {
      flows.slots[..]
    }

    lemma SomeSlots()
      requires FlowsSound()
      ensures flows != null ==> |FlowSlots()| > 0
    {
      hide FT.Holds, FT.Tells, FT.Conserved;
    }

    /** Bytes in the flow table's care. */
    ghost function FlowBytes(): nat
      reads flows
    {
      if flows == null then 0 else flows.metered
    }

    /** All calls but packets, which leave the flow table alone. */
    method PerformControl(op: Op)
      requires Valid() && Ends(Abs(), op) && !op.DoPacket?
      modifies this, teidMap, teidMap.keys, teidMap.values
      ensures Valid() && Abs() == Step(old(Abs()), op)
    {
      hide Represents, TunnelsOk, FlowsSound;
      UnfoldTunnels(Abs());
      match op
      case DoInstall(spec, now) =>
        var _ := InstallSession(spec, now);
      case DoRelease(imsi, now) =>
        var _ := EndSession(imsi, now);
      case DoGy(gy) =>
        ApplyGyEvent(gy);
      case DoPoll(now) =>
        PollTimers(now);
      case DoDrain(now) =>
        var _ := DrainAll(now);
    }

    method Perform(op: Op)
      requires Valid() && Ends(Abs(), op)
      requires flows != null ==> Placed(flows.fold, flows.window, FlowSlots(), Abs(), op)
      modifies this, teidMap, teidMap.keys, teidMap.values, flows, if flows == null then {} else {flows.slots}
      ensures Valid() && Abs() == Step(old(Abs()), op)
      ensures flows != null ==>
                && FlowSlots() == FlowsAfterOne(flows.fold, flows.window, old(FlowSlots()), old(Abs()), op)
                && FlowBytes() + old(ChargedBytes(stats)) == old(FlowBytes()) + ChargedBytes(stats)
    {
      hide Represents, Bound, Enrolled, IndicesOk, Install, ReleaseSession, Apply, ApplyGy, Poll, Drain, FT.HasPlace, Charges;
      if op.DoPacket? {
        ChargesCount(Abs(), op.ev);
        ApplyEvent(op.ev);
      } else {
        Totals.StepSameTotals(Abs(), op);
        PerformControl(op);
      }
    }

    /** Over every sequence of calls that all return, the object does what the state machine does, the flow table
        follows its own specification, and it meters exactly the bytes that are charged. */
    method Replay(ops: seq<Op>)
      requires Valid() && AllEnd(Abs(), ops)
      requires flows != null ==> AllPlaced(flows.fold, flows.window, FlowSlots(), Abs(), ops)
      modifies this, teidMap, teidMap.keys, teidMap.values, flows, if flows == null then {} else {flows.slots}
      ensures Valid() && Abs() == Run(old(Abs()), ops)
      ensures flows != null ==>
                && FlowSlots() == FlowsAfter(flows.fold, flows.window, old(FlowSlots()), old(Abs()), ops)
                && FlowBytes() + old(ChargedBytes(stats)) == old(FlowBytes()) + ChargedBytes(stats)
    {
      hide Sound, FlowsSound, Bound, Enrolled, IndicesOk, Abs, Step, Ends, ChargedBytes, FlowBytes, FlowSlots, Placed, FlowsAfterOne;
      ghost var e := Abs();
      ghost var es := if flows == null then [] else FlowSlots();
      SomeSlots();
      RunNothing(e);
      assert ops[..0] == [];
      for i := 0 to |ops|
        invariant Valid() && Abs() == Run(e, ops[..i])
        invariant flows != null ==>
                    && FlowSlots() == FlowsAfter(flows.fold, flows.window, es, e, ops[..i])
                    && FlowBytes() + old(ChargedBytes(stats)) == old(FlowBytes()) + ChargedBytes(stats)
      {
        assert EndsAt(e, ops, i);
        assert flows != null ==> PlacedAt(flows.fold, flows.window, es, e, ops, i);
        Perform(ops[i]);
        assert ops[..i + 1] == ops[..i] + [ops[i]] && ops[..i + 1][..i] == ops[..i];
        RunMore(e, ops[..i], ops[i]);
      }
      assert ops[..|ops|] == ops;
    }
  }

  function AddBucket(c: WordTally, slot: SlotIndex, bytes: u32): WordTally {
    if slot == 0 then c.(b0 := Add64(c.b0, bytes))
    else if slot == 1 then c.(b1 := Add64(c.b1, bytes))
    else c.(b2 := Add64(c.b2, bytes))
  }

  function AddDirection(c: WordTally, down: bool, bytes: u32): WordTally {
    if down then c.(dlBytes := Add64(c.dlBytes, bytes), dlPackets := Add64(c.dlPackets, 1))
    else c.(ulBytes := Add64(c.ulBytes, bytes), ulPackets := Add64(c.ulPackets, 1))
  }

  lemma AddZero(x: u64)
    ensures Add64(x, 0) == x
  {
  }

  /** Field-wise 64-bit addition. */
  function AddTally(c: WordTally, x: WordTally): WordTally {
    Tally(Add64(c.ulBytes, x.ulBytes), Add64(c.dlBytes, x.dlBytes), Add64(c.ulPackets, x.ulPackets),
          Add64(c.dlPackets, x.dlPackets), Add64(c.b0, x.b0), Add64(c.b1, x.b1), Add64(c.b2, x.b2))
  }

  lemma WrapIsAdd(c: WordTally, x: WordTally)
    ensures Wrap(Plus(c, x)) == AddTally(c, x)
  {
  }

  lemma AddNothing(c: WordTally)
    ensures Add64(c.ulBytes, 0) == c.ulBytes && Add64(c.dlBytes, 0) == c.dlBytes
    ensures Add64(c.ulPackets, 0) == c.ulPackets && Add64(c.dlPackets, 0) == c.dlPackets
    ensures Add64(c.b0, 0) == c.b0 && Add64(c.b1, 0) == c.b1 && Add64(c.b2, 0) == c.b2
  {
    hide Add64;
    AddZero(c.ulBytes);
    AddZero(c.dlBytes);
    AddZero(c.ulPackets);
    AddZero(c.dlPackets);
    AddZero(c.b0);
    AddZero(c.b1);
    AddZero(c.b2);
  }

  /** The field-by-field update is the wrapped sum. */
  lemma ChargeIsPlus(c: WordTally, down: bool, slot: SlotIndex, bytes: u32)
    ensures AddBucket(AddDirection(c, down, bytes), slot, bytes) == Wrap(Plus(c, Packet(down, slot, bytes)))
  {
    hide Add64, Wrap, Plus;
    WrapIsAdd(c, Packet(down, slot, bytes));
    AddNothing(c);
  }
}

/** The bounded flow table: open addressing within a probe window, evicting the least recently
    seen entry when the window is full. */
module FlowTable {
  import opened Words
  import opened Cyclic

  const NEVER: u64 := 0xFFFF_FFFF_FFFF_FFFF

  datatype FlowEntry = FlowEntry(key: u64, bytes: u64, packets: u64, lastSeen: u64, sub: nat, teid: u32, qfi: u8)

  const NoFlow := FlowEntry(0, 0, 0, 0, 0, 0, 0)  // key 0 marks an empty slot

  /** A metered packet as the flow table sees it. */
  datatype FlowPacket = FlowPacket(key: u64, bytes: u32, ts: u64, sub: nat, teid: u32, qfi: u8)

  function KeyOf(key: u64): u64 {
    if key == 0 then 1 else key
  }

  function Home(fold: u64 -> u64, key: u64, n: nat): (h: nat)
    requires n > 0
    ensures h < n
  {
    Mask(fold(key), n)
  }

  function Bumped(e: FlowEntry, p: FlowPacket): FlowEntry {
    e.(bytes := Add64(e.bytes, p.bytes), packets := Add64(e.packets, 1), lastSeen := p.ts)
  }

  function Fresh(p: FlowPacket): FlowEntry {
    FlowEntry(KeyOf(p.key), p.bytes, 1, p.ts, p.sub, p.teid, p.qfi)
  }

  // ---------------------------------------------------------------------------
  // The slots
  // ---------------------------------------------------------------------------

  ghost predicate Unique(es: seq<FlowEntry>) {
    forall i, j :: 0 <= i < j < |es| && es[i].key != 0 ==> es[i].key != es[j].key
  }

  /** Every stored key is reachable from its home within the window, through occupied slots. */
  ghost predicate InWindow(fold: u64 -> u64, window: nat, es: seq<FlowEntry>) {
    && (forall i :: 0 <= i < |es| && es[i].key != 0 ==> Dist(Home(fold, es[i].key, |es|), i, |es|) < window)
    && (forall i, p {:trigger Before(fold, es, i, p)} ::
          0 <= i < |es| && 0 <= p < |es| && es[i].key != 0 && Before(fold, es, i, p) ==> es[p].key != 0)
  }

  ghost predicate Before(fold: u64 -> u64, es: seq<FlowEntry>, i: nat, p: nat)
    requires i < |es| && p < |es|
  {
    var h := Home(fold, es[i].key, |es|);
    Dist(h, p, |es|) < Dist(h, i, |es|)
  }

  ghost predicate Shape(fold: u64 -> u64, window: nat, es: seq<FlowEntry>) {
    && |es| > 1
    && Unique(es)
    && InWindow(fold, window, es)
    && (forall i :: 0 <= i < |es| && es[i].key == 0 ==> es[i].bytes == 0)
  }

  /** `flows` is what the slots hold. */
  ghost predicate Holds(es: seq<FlowEntry>, flows: map<u64, FlowEntry>) {
    && (forall i :: 0 <= i < |es| && es[i].key != 0 ==> es[i].key in flows && flows[es[i].key] == es[i])
    && (forall k :: k in flows ==> k != 0 && Present(es, k))
  }

  ghost predicate Present(es: seq<FlowEntry>, key: u64) {
    exists i :: 0 <= i < |es| && es[i].key == key
  }

  /** The first `probe` slots of the key's window are occupied by other keys. */
  ghost predicate Scanned(fold: u64 -> u64, es: seq<FlowEntry>, key: u64, probe: nat) {
    forall p :: 0 <= p < |es| && Dist(Home(fold, key, |es|), p, |es|) < probe ==> es[p].key != key && es[p].key != 0
  }

  /** The window of `key` holds the key, a free slot or an entry that can be evicted: one not stamped with
      the largest timestamp. */
  ghost predicate HasPlace(fold: u64 -> u64, window: nat, es: seq<FlowEntry>, key: u64) {
    Scanned(fold, es, key, window) ==>
      exists p :: 0 <= p < |es| && Dist(Home(fold, key, |es|), p, |es|) < window && es[p].lastSeen < 0xFFFF_FFFF_FFFF_FFFF
  }

  /** No entry bears the largest timestamp. */
  ghost predicate Dated(es: seq<FlowEntry>) {
    forall i :: 0 <= i < |es| ==> es[i].lastSeen < NEVER
  }

  /** No entry among the first `probe` slots of the key's window is older than `oldest`. */
  ghost predicate NoneOlder(fold: u64 -> u64, es: seq<FlowEntry>, key: u64, probe: nat, oldest: u64) {
    forall p :: 0 <= p < |es| && Dist(Home(fold, key, |es|), p, |es|) < probe ==> oldest <= es[p].lastSeen
  }

  lemma SomeVictim(fold: u64 -> u64, window: nat, es: seq<FlowEntry>, key: u64, oldest: u64)
    requires HasPlace(fold, window, es, key) && Scanned(fold, es, key, window) && NoneOlder(fold, es, key, window, oldest)
    ensures oldest < NEVER
  {
  }

  function Older(a: u64, b: u64): u64 {
    if a < b then a else b
  }

  /** One more slot of the window, also when the window is longer than the table. */
  lemma ProbeNext(fold: u64 -> u64, es: seq<FlowEntry>, key: u64, probe: nat, idx: nat, oldest: u64)
    requires |es| > 0 && idx == Mask(Home(fold, key, |es|) + probe, |es|)
    requires Scanned(fold, es, key, probe) && NoneOlder(fold, es, key, probe, oldest)
    ensures Dist(Home(fold, key, |es|), idx, |es|) <= probe
    ensures Scanned(fold, es, key, Dist(Home(fold, key, |es|), idx, |es|))
    ensures es[idx].key != key && es[idx].key != 0 ==>
              Scanned(fold, es, key, probe + 1) && NoneOlder(fold, es, key, probe + 1, Older(es[idx].lastSeen, oldest))
    ensures Mask(idx + 1, |es|) == Mask(Home(fold, key, |es|) + (probe + 1), |es|)
  {
    hide Mask;
    WalkStep(Home(fold, key, |es|), probe, |es|);
  }

  datatype Spot = HitAt(i: nat) | FreeAt(i: nat) | VictimAt(i: nat)

  /** Where the scan of the window of `key` ends, from its `probe`-th slot on; `victim` is the entry it would
      evict so far, and `oldest` the timestamp of that entry. */
  ghost function SpotFrom(fold: u64 -> u64, window: nat, es: seq<FlowEntry>, key: u64, probe: nat, victim: Option<nat>,
                          oldest: u64): Option<Spot>
    requires |es| > 0
    decreases window - probe
  {
    if probe >= window then (if victim.Some? then Some(VictimAt(victim.value)) else None)
    else
      var idx := Mask(Home(fold, key, |es|) + probe, |es|);
      if es[idx].key == key then Some(HitAt(idx))
      else if es[idx].key == 0 then Some(FreeAt(idx))
      else if es[idx].lastSeen < oldest then SpotFrom(fold, window, es, key, probe + 1, Some(idx), es[idx].lastSeen)
      else SpotFrom(fold, window, es, key, probe + 1, victim, oldest)
  }

  ghost function SpotOf(fold: u64 -> u64, window: nat, es: seq<FlowEntry>, key: u64): Option<Spot>
    requires |es| > 0
  {
    SpotFrom(fold, window, es, key, 0, None, NEVER)
  }

  /** The victim is the oldest entry so far, if any bears a timestamp below the largest. */
  ghost predicate VictimOk(fold: u64 -> u64, es: seq<FlowEntry>, key: u64, probe: nat, victim: Option<nat>, oldest: u64) {
    && |es| > 0 && Scanned(fold, es, key, probe) && NoneOlder(fold, es, key, probe, oldest)
    && (victim.None? ==> oldest == NEVER)
    && (victim.Some? ==>
          && victim.value < |es| && Dist(Home(fold, key, |es|), victim.value, |es|) < probe
          && es[victim.value].lastSeen == oldest < NEVER)
  }

  lemma {:induction false} SpotFromIff(fold: u64 -> u64, window: nat, es: seq<FlowEntry>, key: u64, probe: nat,
                                       victim: Option<nat>, oldest: u64)
    requires probe <= window && VictimOk(fold, es, key, probe, victim, oldest)
    ensures SpotFrom(fold, window, es, key, probe, victim, oldest).Some? <==> HasPlace(fold, window, es, key)
    decreases window - probe
  {
    hide Mask, Scanned, NoneOlder, Home;
    if probe == window {
      LastProbe(fold, window, es, key, victim, oldest);
    } else {
      var idx := Mask(Home(fold, key, |es|) + probe, |es|);
      ProbeNext(fold, es, key, probe, idx, oldest);
      if es[idx].key == key || es[idx].key == 0 {
        NotFull(fold, window, es, key, idx);
      } else if es[idx].lastSeen < oldest {
        SpotFromIff(fold, window, es, key, probe + 1, Some(idx), es[idx].lastSeen);
      } else {
        SpotFromIff(fold, window, es, key, probe + 1, victim, oldest);
      }
    }
  }

  lemma LastProbe(fold: u64 -> u64, window: nat, es: seq<FlowEntry>, key: u64, victim: Option<nat>, oldest: u64)
    requires VictimOk(fold, es, key, window, victim, oldest)
    ensures victim.Some? <==> HasPlace(fold, window, es, key)
  {
  }

  lemma NotFull(fold: u64 -> u64, window: nat, es: seq<FlowEntry>, key: u64, idx: nat)
    requires idx < |es| && Dist(Home(fold, key, |es|), idx, |es|) < window && (es[idx].key == key || es[idx].key == 0)
    ensures HasPlace(fold, window, es, key)
  {
    hide Mask;
  }

  /** The scan finds a slot if and only if the window has a place for the key. */
  lemma SpotIff(fold: u64 -> u64, window: nat, es: seq<FlowEntry>, key: u64)
    requires |es| > 0
    ensures SpotOf(fold, window, es, key).Some? <==> HasPlace(fold, window, es, key)
  {
    NothingScanned(fold, es, key);
    SpotFromIff(fold, window, es, key, 0, None, NEVER);
  }

  /** The slots after a packet. */
  ghost function SlotsAfter(fold: u64 -> u64, window: nat, es: seq<FlowEntry>, p: FlowPacket): (r: seq<FlowEntry>)
    requires |es| > 0
    ensures |r| == |es|
  {
    var spot := SpotOf(fold, window, es, KeyOf(p.key));
    if spot.None? || spot.value.i >= |es| then es
    else es[spot.value.i := if spot.value.HitAt? then Bumped(es[spot.value.i], p) else Fresh(p)]
  }

  lemma NothingScanned(fold: u64 -> u64, es: seq<FlowEntry>, key: u64)
    ensures Scanned(fold, es, key, 0) && NoneOlder(fold, es, key, 0, NEVER)
  {
  }

  lemma DatedAfter(fold: u64 -> u64, window: nat, es: seq<FlowEntry>, p: FlowPacket)
    requires |es| > 0 && Dated(es) && p.ts < NEVER
    ensures Dated(SlotsAfter(fold, window, es, p))
  {
    hide SpotOf;
  }

  lemma DatedHasPlace(fold: u64 -> u64, window: nat, es: seq<FlowEntry>, key: u64)
    requires |es| > 0 && Dated(es) && window >= 1
    ensures HasPlace(fold, window, es, key)
  {
    assert es[Home(fold, key, |es|)].lastSeen < NEVER;
  }

  /** A key not met before an empty slot, nor in the whole window, is not stored. */
  lemma ScanMiss(fold: u64 -> u64, window: nat, es: seq<FlowEntry>, flows: map<u64, FlowEntry>, key: u64, probe: nat)
    requires Shape(fold, window, es) && Holds(es, flows) && key != 0 && Scanned(fold, es, key, probe)
    requires probe >= window || (probe < |es| && es[Ahead(Home(fold, key, |es|), probe, |es|)].key == 0)
    ensures key !in flows
  {
    if key in flows {
      assert Present(es, key);
      var i :| 0 <= i < |es| && es[i].key == key;
      var h := Home(fold, key, |es|);
      assert Dist(h, i, |es|) >= probe;
      assert Before(fold, es, i, Ahead(h, probe, |es|));
    }
  }

  lemma Found(es: seq<FlowEntry>, flows: map<u64, FlowEntry>, i: nat)
    requires Holds(es, flows) && i < |es| && es[i].key != 0
    ensures es[i].key in flows && flows[es[i].key] == es[i]
  {
  }

  lemma HitKeeps(fold: u64 -> u64, window: nat, es: seq<FlowEntry>, flows: map<u64, FlowEntry>, i: nat, e: FlowEntry)
    requires Shape(fold, window, es) && Holds(es, flows) && i < |es| && es[i].key != 0
    requires e.key == es[i].key
    ensures Shape(fold, window, es[i := e]) && Holds(es[i := e], flows[e.key := e])
  {
    HitShape(fold, window, es, i, e);
    var es', flows' := es[i := e], flows[e.key := e];
    forall k | k in flows'
      ensures Present(es', k)
    {
      assert Present(es, k);
      var j :| 0 <= j < |es| && es[j].key == k;
      assert es'[j].key == k;
    }
  }

  lemma HitShape(fold: u64 -> u64, window: nat, es: seq<FlowEntry>, i: nat, e: FlowEntry)
    requires Shape(fold, window, es) && i < |es| && es[i].key != 0
    requires e.key == es[i].key
    ensures Shape(fold, window, es[i := e])
  {
    var es' := es[i := e];
    forall j, p | 0 <= j < |es| && 0 <= p < |es| && es'[j].key != 0 && Before(fold, es', j, p)
      ensures es'[p].key != 0
    {
      assert Before(fold, es, j, p);
    }
  }

  /** Storing an absent key at a scanned slot, over nothing or over a victim. */
  lemma PlaceKeeps(fold: u64 -> u64, window: nat, es: seq<FlowEntry>, flows: map<u64, FlowEntry>, i: nat, e: FlowEntry)
    requires Shape(fold, window, es) && Holds(es, flows) && i < |es|
    requires e.key != 0 && e.key !in flows
    requires Dist(Home(fold, e.key, |es|), i, |es|) < window
    requires Scanned(fold, es, e.key, Dist(Home(fold, e.key, |es|), i, |es|))
    ensures Shape(fold, window, es[i := e]) && Holds(es[i := e], (flows - {es[i].key})[e.key := e])
  {
    PlaceShape(fold, window, es, i, e);
    var es', flows' := es[i := e], (flows - {es[i].key})[e.key := e];
    forall k | k in flows'
      ensures Present(es', k)
    {
      if k == e.key {
        assert es'[i].key == k;
      } else {
        assert Present(es, k);
        var j :| 0 <= j < |es| && es[j].key == k;
        assert es'[j].key == k;
      }
    }
  }

  lemma PlaceShape(fold: u64 -> u64, window: nat, es: seq<FlowEntry>, i: nat, e: FlowEntry)
    requires Shape(fold, window, es) && i < |es| && e.key != 0
    requires forall j :: 0 <= j < |es| ==> es[j].key != e.key
    requires Dist(Home(fold, e.key, |es|), i, |es|) < window
    requires Scanned(fold, es, e.key, Dist(Home(fold, e.key, |es|), i, |es|))
    ensures Shape(fold, window, es[i := e])
  {
    var es' := es[i := e];
    forall j, p | 0 <= j < |es| && 0 <= p < |es| && es'[j].key != 0 && Before(fold, es', j, p)
      ensures es'[p].key != 0
    {
      if j != i {
        assert Before(fold, es, j, p);
      }
    }
  }

  // ---------------------------------------------------------------------------
  // Bytes
  // ---------------------------------------------------------------------------

  ghost function Stored(es: seq<FlowEntry>): nat {
    if es == [] then 0 else Stored(es[..|es| - 1]) + es[|es| - 1].bytes
  }

  lemma {:induction false} StoredNothing(es: seq<FlowEntry>)
    requires forall i :: 0 <= i < |es| ==> es[i] == NoFlow
    ensures Stored(es) == 0
  {
    if es != [] {
      StoredNothing(es[..|es| - 1]);
    }
  }

  lemma {:induction false} StoredUpdate(es: seq<FlowEntry>, i: nat, e: FlowEntry)
    requires i < |es|
    ensures es[i].bytes <= Stored(es)
    ensures Stored(es[i := e]) == Stored(es) - es[i].bytes + e.bytes
  {
    var n := |es| - 1;
    if i == n {
      assert es[i := e][..n] == es[..n];
    } else {
      StoredUpdate(es[..n], i, e);
      assert es[i := e][..n] == es[..n][i := e];
    }
  }

  // ---------------------------------------------------------------------------
  // History
  // ---------------------------------------------------------------------------

  datatype FlowAct =
    | Hit(key: u64, bytes: u32, ts: u64)
    | Inserted(key: u64, bytes: u32, ts: u64, sub: nat, teid: u32, qfi: u8)
    | Evicted(key: u64)

  function HitBy(p: FlowPacket): FlowAct {
    Hit(KeyOf(p.key), p.bytes, p.ts)
  }

  function InsertedBy(p: FlowPacket): FlowAct {
    Inserted(KeyOf(p.key), p.bytes, p.ts, p.sub, p.teid, p.qfi)
  }

  datatype Life = Life(bytes: nat, packets: nat, last: u64, sub: nat, teid: u32, qfi: u8)

  /** Bytes and packets of a flow since it was last inserted, the time of the last of them, and subscriber,
      tunnel and QoS flow of the first, if it has not been evicted since. */
  ghost function LifeOf(log: seq<FlowAct>, key: u64): Option<Life> {
    if log == [] then None
    else
      var n := |log| - 1;
      if log[n].key != key then LifeOf(log[..n], key)
      else
        match log[n]
        case Evicted(_) => None
        case Inserted(_, b, ts, sub, teid, qfi) => Some(Life(b, 1, ts, sub, teid, qfi))
        case Hit(_, b, ts) =>
          match LifeOf(log[..n], key)
          case None => None
          case Some(l) => Some(l.(bytes := l.bytes + b, packets := l.packets + 1, last := ts))
  }

  /** The stored entries are exactly the living flows, with all that is known of them. */
  ghost predicate Tells(log: seq<FlowAct>, flows: map<u64, FlowEntry>) {
    forall k :: Tells1(log, flows, k)
  }

  ghost predicate Tells1(log: seq<FlowAct>, flows: map<u64, FlowEntry>, k: u64) {
    if k in flows then
      && LifeOf(log, k).Some?
      && flows[k].bytes == LifeOf(log, k).value.bytes % TWO64
      && flows[k].packets == LifeOf(log, k).value.packets % TWO64
      && Same(flows[k], LifeOf(log, k).value)
    else LifeOf(log, k).None?
  }

  /** Last packet, subscriber, tunnel and QoS flow. */
  ghost predicate Same(e: FlowEntry, l: Life) {
    e.lastSeen == l.last && e.sub == l.sub && e.teid == l.teid && e.qfi == l.qfi
  }

  lemma Appended(log: seq<FlowAct>, a: FlowAct, k: u64)
    ensures a.key != k ==> LifeOf(log + [a], k) == LifeOf(log, k)
    ensures a.key == k ==> LifeOf(log + [a], k) == match a
                             case Evicted(_) => None
                             case Inserted(_, b, ts, sub, teid, qfi) => Some(Life(b, 1, ts, sub, teid, qfi))
                             case Hit(_, b, ts) => if LifeOf(log, k).None? then None
                             else Some(LifeOf(log, k).value.(bytes := LifeOf(log, k).value.bytes + b,
                                                             packets := LifeOf(log, k).value.packets + 1, last := ts))
  {
    assert (log + [a])[..|log|] == log;
  }

  lemma TellsHit(log: seq<FlowAct>, flows: map<u64, FlowEntry>, p: FlowPacket)
    requires Tells(log, flows) && KeyOf(p.key) in flows
    ensures var k := KeyOf(p.key);
            Tells(log + [HitBy(p)], flows[k := Bumped(flows[k], p)])
  {
    hide LifeOf;
    var k := KeyOf(p.key);
    var log', flows' := log + [HitBy(p)], flows[k := Bumped(flows[k], p)];
    forall j
      ensures Tells1(log', flows', j)
    {
      assert Tells1(log, flows, j);
      Appended(log, HitBy(p), j);
      if j == k {
        WrapAdd(LifeOf(log, k).value.bytes, p.bytes);
        WrapAdd(LifeOf(log, k).value.packets, 1);
      }
    }
  }

  lemma TellsInsert(log: seq<FlowAct>, flows: map<u64, FlowEntry>, p: FlowPacket)
    requires Tells(log, flows)
    ensures var k := KeyOf(p.key);
            Tells(log + [InsertedBy(p)], flows[k := Fresh(p)])
  {
    hide LifeOf;
    var k := KeyOf(p.key);
    var log', flows' := log + [InsertedBy(p)], flows[k := Fresh(p)];
    forall j
      ensures Tells1(log', flows', j)
    {
      assert Tells1(log, flows, j);
      Appended(log, InsertedBy(p), j);
    }
  }

  lemma TellsEvict(log: seq<FlowAct>, flows: map<u64, FlowEntry>, victim: u64)
    requires Tells(log, flows)
    ensures Tells(log + [Evicted(victim)], flows - {victim})
  {
    hide LifeOf;
    var log', flows' := log + [Evicted(victim)], flows - {victim};
    forall j
      ensures Tells1(log', flows', j)
    {
      assert Tells1(log, flows, j);
      Appended(log, Evicted(victim), j);
    }
  }

  ghost predicate Conserved(stored: nat, evicted: nat, metered: nat) {
    (stored + evicted) % TWO64 == metered % TWO64
  }

  lemma HitConserves(stored: nat, evicted: nat, metered: nat, was: u64, b: u32)
    requires Conserved(stored, evicted, metered) && was <= stored
    ensures Conserved(stored - was + Add64(was, b), evicted, metered + b)
  {
    WrapAdd(was + b, stored - was + evicted);
    WrapAdd(stored + evicted, b);
    WrapAdd(metered, b);
  }

  lemma PlaceConserves(stored: nat, evicted: nat, metered: nat, was: u64, b: u32)
    requires Conserved(stored, evicted, metered) && was <= stored
    ensures Conserved(stored - was + b, evicted + was, metered + b)
  {
    WrapAdd(stored + evicted, b);
    WrapAdd(metered, b);
  }

  lemma EmptySlot(fold: u64 -> u64, window: nat, es: seq<FlowEntry>, i: nat)
    requires Shape(fold, window, es) && i < |es| && es[i].key == 0
    ensures es[i].bytes == 0
  {
  }

  lemma ZeroAbsent(es: seq<FlowEntry>, flows: map<u64, FlowEntry>)
    requires Holds(es, flows)
    ensures flows - {0} == flows
  {
  }

  lemma SameCard(flows: map<u64, FlowEntry>, k: u64, e: FlowEntry)
    ensures |flows[k := e]| == if k in flows then |flows| else |flows| + 1
  {
    assert flows[k := e].Keys == flows.Keys + {k};
  }

  lemma SwapCard(flows: map<u64, FlowEntry>, victim: u64, k: u64, e: FlowEntry)
    requires victim in flows && k !in flows
    ensures |(flows - {victim})[k := e]| == |flows|
  {
    assert flows.Keys == (flows - {victim}).Keys + {victim};
    SameCard(flows - {victim}, k, e);
  }

  /** A new flow in a free slot keeps everything the table promises. */
  lemma PlaceFresh(fold: u64 -> u64, window: nat, es: seq<FlowEntry>, flows: map<u64, FlowEntry>, log: seq<FlowAct>,
                   evicted: nat, metered: nat, i: nat, p: FlowPacket)
    requires Shape(fold, window, es) && Holds(es, flows) && Tells(log, flows) && Conserved(Stored(es), evicted, metered)
    requires i < |es| && es[i].key == 0 && KeyOf(p.key) !in flows
    requires Dist(Home(fold, KeyOf(p.key), |es|), i, |es|) < window
    requires Scanned(fold, es, KeyOf(p.key), Dist(Home(fold, KeyOf(p.key), |es|), i, |es|))
    ensures var k, e := KeyOf(p.key), Fresh(p);
            && Shape(fold, window, es[i := e]) && Holds(es[i := e], flows[k := e])
            && Tells(log + [InsertedBy(p)], flows[k := e])
            && Conserved(Stored(es[i := e]), evicted, metered + p.bytes)
            && |flows[k := e]| == |flows| + 1
  {
    hide Shape, Holds, Tells, Stored, Conserved, Scanned, Home, Dist;
    var e := Fresh(p);
    PlaceKeeps(fold, window, es, flows, i, e);
    ZeroAbsent(es, flows);
    EmptySlot(fold, window, es, i);
    TellsInsert(log, flows, p);
    StoredUpdate(es, i, e);
    PlaceConserves(Stored(es), evicted, metered, 0, p.bytes);
    SameCard(flows, KeyOf(p.key), e);
  }

  // ---------------------------------------------------------------------------
  // The table
  // ---------------------------------------------------------------------------

  class Flows {
    const fold: u64 -> u64
    const window: nat
    const slots: array<FlowEntry>
    var inserts: nat
    var active: nat
    var evictions: nat
    ghost var flows: map<u64, FlowEntry>
    ghost var log: seq<FlowAct>
    ghost var metered: nat       // bytes of all packets seen
    ghost var evictedBytes: nat  // bytes of all evicted entries

    ghost predicate Valid()
      reads this, slots
    {
      && Shape(fold, window, slots[..])
      && Holds(slots[..], flows)
      && Tells(log, flows)
      && active == |flows| == inserts
      && Conserved(Stored(slots[..]), evictedBytes, metered)
    }

    constructor (capacity: nat, window: nat, fold: u64 -> u64)
      ensures Valid() && fresh(slots) && flows == map[] && log == [] && metered == 0 && Dated(slots[..])
      ensures slots.Length == BitCeil(if capacity < 2 then 2 else capacity) && this.window == window
    {
      var n := BitCeil(if capacity < 2 then 2 else capacity);
      this.fold, this.window := fold, window;
      slots := new FlowEntry[n](_ => NoFlow);
      inserts, active, evictions := 0, 0, 0;
      flows, log, metered, evictedBytes := map[], [], 0, 0;
      new;
      StoredNothing(slots[..]);
    }

    /** Where one pass over the probe window of `key` ends, whatever the table holds. */
    method ScanWindow(key: u64) returns (spot: Spot)
      requires slots.Length > 0 && HasPlace(fold, window, slots[..], key)
      ensures spot.i < slots.Length && Some(spot) == SpotOf(fold, window, slots[..], key)
      ensures spot.HitAt? ==> slots[spot.i].key == key
      ensures !spot.HitAt? ==>
                && Dist(Home(fold, key, slots.Length), spot.i, slots.Length) < window
                && Scanned(fold, slots[..], key, Dist(Home(fold, key, slots.Length), spot.i, slots.Length))
      ensures spot.FreeAt? ==> slots[spot.i].key == 0
      ensures spot.VictimAt? ==>
                && slots[spot.i].key != 0 && Scanned(fold, slots[..], key, window)
                && NoneOlder(fold, slots[..], key, window, slots[spot.i].lastSeen)
    {
      hide Mask, HasPlace, Scanned, NoneOlder;
      var n := slots.Length;
      ghost var es := slots[..];
      var home := Mask(fold(key), n);
      assert home == Home(fold, key, n);
      hide Home;
      var idx := home;
      var victim: Option<nat> := None;
      var oldest := NEVER;
      var probe: nat := 0;
      NothingScanned(fold, es, key);
      WalkStep(home, 0, n);
      while probe < window
        invariant probe <= window && idx == Mask(home + probe, n)
        invariant Scanned(fold, es, key, probe) && NoneOlder(fold, es, key, probe, oldest)
        invariant SpotOf(fold, window, es, key) == SpotFrom(fold, window, es, key, probe, victim, oldest)
        invariant victim.None? ==> oldest == NEVER
        invariant victim.Some? ==>
                    && victim.value < n && Dist(home, victim.value, n) < probe
                    && Scanned(fold, es, key, Dist(home, victim.value, n))
                    && slots[victim.value].lastSeen == oldest && slots[victim.value].key != 0
      {
        ProbeNext(fold, es, key, probe, idx, oldest);
        var e := slots[idx];
        if e.key == key {
          return HitAt(idx);
        }
        if e.key == 0 {
          return FreeAt(idx);
        }
        if e.lastSeen < oldest {
          oldest, victim := e.lastSeen, Some(idx);
        }
        idx := Mask(idx + 1, n);
        probe := probe + 1;
      }
      SomeVictim(fold, window, es, key, oldest);
      return VictimAt(victim.value);
    }

    /** One pass over the probe window of `key`. */
    method Scan(key: u64) returns (spot: Spot)
      requires Valid() && key != 0 && HasPlace(fold, window, slots[..], key)
      ensures spot.i < slots.Length && Some(spot) == SpotOf(fold, window, slots[..], key)
      ensures spot.HitAt? <==> key in flows
      ensures spot.HitAt? ==> slots[spot.i].key == key
      ensures !spot.HitAt? ==>
                && Dist(Home(fold, key, slots.Length), spot.i, slots.Length) < window
                && Scanned(fold, slots[..], key, Dist(Home(fold, key, slots.Length), spot.i, slots.Length))
      ensures spot.FreeAt? <==> !spot.HitAt? && slots[spot.i].key == 0
      ensures spot.VictimAt? ==>
                Scanned(fold, slots[..], key, window) && NoneOlder(fold, slots[..], key, window, slots[spot.i].lastSeen)
    {
      hide Unique, InWindow, Holds, Tells, Stored, Scanned, Home, Conserved, HasPlace;
      spot := ScanWindow(key);
      match spot {
        case HitAt(i) => Found(slots[..], flows, i);
        case FreeAt(i) => ScanMiss(fold, window, slots[..], flows, key, Dist(Home(fold, key, slots.Length), i, slots.Length));
        case VictimAt(_) => ScanMiss(fold, window, slots[..], flows, key, window);
      }
    }

    method FindFlow(key: u64) returns (r: Option<FlowEntry>)
      requires Valid()
      ensures var k := KeyOf(key);
              r == if k in flows then Some(flows[k]) else None
      ensures var life := LifeOf(log, KeyOf(key));
              if r.Some? then
                && life.Some? && r.value.bytes == life.value.bytes % TWO64 && r.value.packets == life.value.packets % TWO64
                && Same(r.value, life.value)
              else life.None?
    {
      hide Unique, InWindow, Holds, Stored, Mask;
      var k := if key != 0 then key else 1;
      assert Tells1(log, flows, k);
      var n := slots.Length;
      var home := Mask(fold(k), n);
      var idx := home;
      var probe: nat := 0;
      WalkStep(home, 0, n);
      while probe < window
        invariant probe <= window && idx == Mask(home + probe, n)
        invariant Scanned(fold, slots[..], k, probe)
      {
        WalkStep(home, probe, n);
        if slots[idx].key == k {
          Found(slots[..], flows, idx);
          return Some(slots[idx]);
        }
        if slots[idx].key == 0 {
          ScanMiss(fold, window, slots[..], flows, k, probe);
          return None;
        }
        idx := Mask(idx + 1, n);
        probe := probe + 1;
      }
      ScanMiss(fold, window, slots[..], flows, k, window);
      return None;
    }

    /** Account one packet to its flow, evicting the least recently seen flow of a full window. */
    method Update(p: FlowPacket) returns (evicted: Option<FlowEntry>)
      requires Valid() && HasPlace(fold, window, slots[..], KeyOf(p.key))
      modifies this, slots
      ensures Valid()
      ensures slots[..] == SlotsAfter(fold, window, old(slots[..]), p)
      ensures metered == old(metered) + p.bytes
      ensures KeyOf(p.key) in old(flows) ==>
                && evicted.None? && evictedBytes == old(evictedBytes)
                && flows == old(flows)[KeyOf(p.key) := Bumped(old(flows)[KeyOf(p.key)], p)]
                && log == old(log) + [HitBy(p)]
      ensures KeyOf(p.key) !in old(flows) && evicted.None? ==>
                && evictedBytes == old(evictedBytes)
                && flows == old(flows)[KeyOf(p.key) := Fresh(p)]
                && log == old(log) + [InsertedBy(p)]
      ensures evicted.Some? ==>
                && KeyOf(p.key) !in old(flows) && evictions == old(evictions) + 1
                && evicted.value.key in old(flows) && old(flows)[evicted.value.key] == evicted.value
                && evictedBytes == old(evictedBytes) + evicted.value.bytes
                && flows == (old(flows) - {evicted.value.key})[KeyOf(p.key) := Fresh(p)]
                && log == old(log) + [Evicted(evicted.value.key)] + [InsertedBy(p)]
      ensures evicted.Some? <==> KeyOf(p.key) !in old(flows) && Scanned(fold, old(slots[..]), KeyOf(p.key), window)
      ensures evicted.Some? ==> NoneOlder(fold, old(slots[..]), KeyOf(p.key), window, evicted.value.lastSeen)
    {
      hide HasPlace, Shape, Holds, Tells, Stored, Conserved, Home, SpotOf;
      var spot := Scan(if p.key != 0 then p.key else 1);
      match spot {
        case HitAt(i) =>
          evicted := None;
          Refresh(i, p);
        case FreeAt(i) =>
          evicted := None;
          Place(i, p);
        case VictimAt(i) =>
          evicted := Some(slots[i]);
          Replace(i, p);
      }
    }

    method Refresh(i: nat, p: FlowPacket)
      requires Valid() && i < slots.Length && slots[i].key == KeyOf(p.key)
      modifies this, slots
      ensures slots[..] == old(slots[..])[i := Bumped(old(slots[i]), p)]
      ensures Valid() && KeyOf(p.key) in old(flows)
      ensures flows == old(flows)[KeyOf(p.key) := Bumped(old(flows)[KeyOf(p.key)], p)]
      ensures log == old(log) + [HitBy(p)]
      ensures metered == old(metered) + p.bytes && evictedBytes == old(evictedBytes)
    {
      hide Shape, Holds, Tells, Stored, Conserved, Scanned;
      ghost var k, es := KeyOf(p.key), slots[..];
      var e := Bumped(slots[i], p);
      Found(es, flows, i);
      HitKeeps(fold, window, es, flows, i, e);
      TellsHit(log, flows, p);
      StoredUpdate(es, i, e);
      HitConserves(Stored(es), evictedBytes, metered, es[i].bytes, p.bytes);
      SameCard(flows, k, e);
      slots[i] := e;
      flows, log, metered := flows[k := e], log + [HitBy(p)], metered + p.bytes;
      assert slots[..] == es[i := e];
    }

    method Place(i: nat, p: FlowPacket)
      requires Valid() && i < slots.Length && slots[i].key == 0 && KeyOf(p.key) !in flows
      requires Dist(Home(fold, KeyOf(p.key), slots.Length), i, slots.Length) < window
      requires Scanned(fold, slots[..], KeyOf(p.key), Dist(Home(fold, KeyOf(p.key), slots.Length), i, slots.Length))
      modifies this, slots
      ensures slots[..] == old(slots[..])[i := Fresh(p)]
      ensures Valid()
      ensures flows == old(flows)[KeyOf(p.key) := Fresh(p)]
      ensures log == old(log) + [InsertedBy(p)]
      ensures metered == old(metered) + p.bytes && evictedBytes == old(evictedBytes)
    {
      hide Shape, Holds, Tells, Stored, Conserved, Scanned, Home, Dist;
      ghost var k, es := KeyOf(p.key), slots[..];
      var e := Fresh(p);
      PlaceFresh(fold, window, es, flows, log, evictedBytes, metered, i, p);
      slots[i] := e;
      inserts, active := inserts + 1, active + 1;
      flows, log, metered := flows[k := e], log + [InsertedBy(p)], metered + p.bytes;
      assert slots[..] == es[i := e];
    }

    method Replace(i: nat, p: FlowPacket)
      requires Valid() && i < slots.Length && slots[i].key != 0 && KeyOf(p.key) !in flows
      requires Dist(Home(fold, KeyOf(p.key), slots.Length), i, slots.Length) < window
      requires Scanned(fold, slots[..], KeyOf(p.key), Dist(Home(fold, KeyOf(p.key), slots.Length), i, slots.Length))
      modifies this, slots
      ensures slots[..] == old(slots[..])[i := Fresh(p)]
      ensures Valid()
      ensures old(slots[i]).key in old(flows) && old(flows)[old(slots[i]).key] == old(slots[i])
      ensures flows == (old(flows) - {old(slots[i]).key})[KeyOf(p.key) := Fresh(p)]
      ensures log == old(log) + [Evicted(old(slots[i]).key)] + [InsertedBy(p)]
      ensures evictions == old(evictions) + 1
      ensures metered == old(metered) + p.bytes && evictedBytes == old(evictedBytes) + old(slots[i]).bytes
    {
      hide Shape, Holds, Tells, Stored, Conserved, Scanned;
      ghost var k, es, v := KeyOf(p.key), slots[..], slots[i];
      var e := Fresh(p);
      Found(es, flows, i);
      PlaceKeeps(fold, window, es, flows, i, e);
      TellsEvict(log, flows, v.key);
      TellsInsert(log + [Evicted(v.key)], flows - {v.key}, p);
      StoredUpdate(es, i, e);
      PlaceConserves(Stored(es), evictedBytes, metered, v.bytes, p.bytes);
      SwapCard(flows, v.key, k, e);
      slots[i] := e;
      evictions := evictions + 1;
      flows, log := (flows - {v.key})[k := e], log + [Evicted(v.key)] + [InsertedBy(p)];
      metered, evictedBytes := metered + p.bytes, evictedBytes + v.bytes;
      assert slots[..] == es[i := e];
    }
  }
}

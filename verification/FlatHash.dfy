/** The flat open-addressing table keyed by 32-bit tunnel identifiers: every operation refines
    the same operation on a plain map. */
module FlatHash {
  import opened Words
  import opened Cyclic
  import opened Probing

  /** A call on the table, and what it returns. */
  datatype Call<V> = Put(key: u32, value: V) | Drop(key: u32) | Look(key: u32) | Wipe

  datatype Answer<V> = Done(ok: bool) | Saw(found: Option<V>)

  /** The same call on a plain map; `slots` only decides which insertions are refused. */
  function MapAfter<V>(m: map<u32, V>, slots: nat, c: Call<V>): map<u32, V> {
    match c
    case Put(key, value) => if key == EMPTY || |m - {EMPTY}| < slots then m[key := value] else m
    case Drop(key) => m - {key}
    case Look(_) => m
    case Wipe => map[]
  }

  function MapAnswer<V>(m: map<u32, V>, slots: nat, c: Call<V>): Answer<V> {
    match c
    case Put(key, _) => Done(key == EMPTY || |m - {EMPTY}| < slots)
    case Drop(key) => Done(key in m)
    case Look(key) => Saw(if key in m then Some(m[key]) else None)
    case Wipe => Done(true)
  }

  function MapRun<V>(m: map<u32, V>, slots: nat, calls: seq<Call<V>>): map<u32, V>
    decreases |calls|
  {
    if calls == [] then m else MapRun(MapAfter(m, slots, calls[0]), slots, calls[1..])
  }

  function MapAnswers<V>(m: map<u32, V>, slots: nat, calls: seq<Call<V>>): seq<Answer<V>>
    decreases |calls|
  {
    if calls == [] then []
    else [MapAnswer(m, slots, calls[0])] + MapAnswers(MapAfter(m, slots, calls[0]), slots, calls[1..])
  }

  /** No call deletes a stored key from a full table, which would not terminate. */
  predicate NeverStuck<V>(m: map<u32, V>, slots: nat, calls: seq<Call<V>>)
    decreases |calls|
  {
    calls == []
    || (&& (calls[0].Drop? && calls[0].key in m && calls[0].key != EMPTY ==> |m - {EMPTY}| < slots)
        && NeverStuck(MapAfter(m, slots, calls[0]), slots, calls[1..]))
  }

  class FlatHashU32<V(0)> {
    const hash: u32 -> u32
    const keys: array<u32>
    const values: array<V>
    var size: nat
    var sentinelUsed: bool
    var sentinelValue: V
    ghost var stored: map<u32, V>  // what the slot arrays hold

    ghost predicate Valid()
      reads this, keys, values
    {
      && Represents(hash, keys[..], values[..], stored)
      && size == |stored|
      && keys as object != values
    }

    /** The map this table stands for, the reserved key included. */
    ghost function Contents(): map<u32, V>
      reads this
    {
      if sentinelUsed then stored[EMPTY := sentinelValue] else stored
    }

    constructor (capacity: nat, hash: u32 -> u32, zero: V)
      ensures Valid() && fresh(keys) && fresh(values)
      ensures Contents() == map[] && this.hash == hash
      ensures keys.Length == BitCeil(if capacity < 8 then 8 else capacity)
    {
      var n := BitCeil(if capacity < 8 then 8 else capacity);
      this.hash := hash;
      keys := new u32[n](_ => EMPTY);
      values := new V[n](_ => zero);
      size, sentinelUsed, sentinelValue, stored := 0, false, zero, map[];
    }

    /** Number of entries, the reserved key included. */
    function Size(): (n: nat)
      requires Valid()
      reads this, keys, values
      ensures n == |Contents()|
    {
      assert sentinelUsed ==> stored[EMPTY := sentinelValue].Keys == stored.Keys + {EMPTY};
      size + if sentinelUsed then 1 else 0
    }

    /** The reserved key takes no slot. */
    lemma LoadIsSize()
      requires Valid()
      ensures |Contents() - {EMPTY}| == size
    {
      assert EMPTY !in stored;
      assert Contents() - {EMPTY} == stored;
    }

    /** Walks on from the key's home to the key's own slot or the first empty one, one lap at most. */
    method Walk(key: u32) returns (idx: nat, probe: nat)
      requires keys.Length > 0
      ensures probe <= keys.Length && idx == Ahead(Home(hash, key, keys.Length), probe, keys.Length)
      ensures forall p :: 0 <= p < keys.Length && Dist(Home(hash, key, keys.Length), p, keys.Length) < probe
                ==> keys[p] != key && keys[p] != EMPTY
      ensures probe < keys.Length ==> keys[idx] == key || keys[idx] == EMPTY
    {
      hide Mask;
      var n := keys.Length;
      idx, probe := Mask(hash(key), n), 0;
      while probe < n && keys[idx] != key && keys[idx] != EMPTY
        invariant probe <= n && idx == Ahead(Home(hash, key, n), probe, n)
        invariant forall p :: 0 <= p < n && Dist(Home(hash, key, n), p, n) < probe ==> keys[p] != key && keys[p] != EMPTY
      {
        ModNext(idx, n);
        idx, probe := Mask(idx + 1, n), probe + 1;
      }
    }

    /** The slot where probing for `key` ends: the key's own slot, or the first empty one. */
    method Probe(key: u32) returns (idx: nat, probe: nat)
      requires Valid() && key != EMPTY
      ensures probe <= keys.Length && idx == Ahead(Home(hash, key, keys.Length), probe, keys.Length)
      ensures forall p :: 0 <= p < keys.Length && Dist(Home(hash, key, keys.Length), p, keys.Length) < probe
                ==> keys[p] != key && keys[p] != EMPTY
      ensures probe < keys.Length ==> keys[idx] == key || keys[idx] == EMPTY
      ensures probe < keys.Length && keys[idx] == key ==> key in stored && stored[key] == values[idx]
      ensures probe == keys.Length || keys[idx] == EMPTY ==> key !in stored
    {
      hide Mask, Distinct, Reachable, Home;
      idx, probe := Walk(key);
      if probe == keys.Length || keys[idx] == EMPTY {
        ProbeMiss(hash, keys[..], values[..], stored, key, probe);
      } else {
        assert keys[..][idx] == key;
      }
    }

    method Locate(key: u32) returns (r: Option<nat>)
      requires Valid() && key != EMPTY
      ensures r.Some? <==> key in stored
      ensures r.Some? ==> r.value < keys.Length && keys[r.value] == key && values[r.value] == stored[key]
    {
      var idx, probe := Probe(key);
      return if probe < keys.Length && keys[idx] == key then Some(idx) else None;
    }

    method Find(key: u32) returns (r: Option<V>)
      requires Valid()
      ensures r == if key in Contents() then Some(Contents()[key]) else None
    {
      if key == EMPTY {
        return if sentinelUsed then Some(sentinelValue) else None;
      }
      var at := Locate(key);
      return if at.Some? then Some(values[at.value]) else None;
    }

    /** Insert or overwrite. Fails exactly when the slots are full, even if the key is present. */
    method Insert(key: u32, value: V) returns (ok: bool)
      requires Valid()
      modifies this, keys, values
      ensures Valid()
      ensures ok == (key == EMPTY || old(size) < keys.Length)
      ensures Contents() == if ok then old(Contents())[key := value] else old(Contents())
    {
      if key == EMPTY {
        sentinelValue, sentinelUsed := value, true;
        return true;
      }
      if size >= keys.Length {
        return false;
      }
      var idx, probe := Probe(key);
      LapFindsRoom(key, probe);
      SetCommutes(stored, key, value, EMPTY, sentinelValue);
      Place(key, value, idx);
      return true;
    }

    /** With a free slot, probing ends before a full lap. */
    lemma LapFindsRoom(key: u32, probe: nat)
      requires Valid() && size < keys.Length && probe <= keys.Length
      requires forall p :: 0 <= p < keys.Length && Dist(Home(hash, key, keys.Length), p, keys.Length) < probe
                 ==> keys[p] != EMPTY
      ensures probe < keys.Length
    {
      EmptySlotIffRoom(hash, keys[..], values[..], stored);
      var e :| 0 <= e < keys.Length && keys[..][e] == EMPTY;
      assert Dist(Home(hash, key, keys.Length), e, keys.Length) >= probe;
    }

    /** Writes `key` at `idx`, its own slot or the first empty slot of its probe path. */
    method Place(key: u32, value: V, idx: nat)
      requires Valid() && key != EMPTY && idx < keys.Length
      requires keys[idx] == key || (keys[idx] == EMPTY && key !in stored)
      requires forall p :: 0 <= p < keys.Length
                 && Dist(Home(hash, key, keys.Length), p, keys.Length) < Dist(Home(hash, key, keys.Length), idx, keys.Length)
                 ==> keys[p] != EMPTY
      modifies this`size, this`stored, keys, values
      ensures Valid() && stored == old(stored)[key := value]
    {
      ghost var ks, vs, m := keys[..], values[..], stored;
      AddCard(m, key, value);
      if keys[idx] == EMPTY {
        InsertFresh(hash, ks, vs, m, key, value, idx);
        keys[idx], values[idx], size := key, value, size + 1;
      } else {
        Overwrite(hash, ks, vs, m, key, value, idx);
        values[idx] := value;
      }
      stored := m[key := value];
      assert keys[..] == ks[idx := key] && values[..] == vs[idx := value];
    }

    method Erase(key: u32) returns (had: bool)
      requires Valid()
      requires key in Contents() && key != EMPTY ==> size < keys.Length
      modifies this, keys, values
      ensures Valid()
      ensures had == (key in old(Contents()))
      ensures Contents() == old(Contents()) - {key}
    {
      if key == EMPTY {
        had, sentinelUsed := sentinelUsed, false;
        return;
      }
      var at := Locate(key);
      SetCommutes(stored, key, sentinelValue, EMPTY, sentinelValue);
      if at.Some? {
        RemoveAt(at.value);
      }
      return at.Some?;
    }

    /** Backward-shift deletion: pulls up every key whose probe path crosses the hole. */
    method RemoveAt(at: nat)
      requires Valid() && at < keys.Length && keys[at] != EMPTY && size < keys.Length
      modifies this`stored, this`size, keys, values
      ensures Valid() && stored == old(stored) - {old(keys[at])}
    {
      EmptySlotIffRoom(hash, keys[..], values[..], stored);
      ShiftStart(hash, keys[..], values[..], stored, at);
      RemoveCard(stored, keys[at]);
      stored, size := stored - {keys[at]}, size - 1;
      ShiftBack(at);
    }

    method ShiftBack(at: nat)
      requires keys as object != values && EMPTY in keys[..] && |keys[..]| > 1
      requires at < keys.Length && Shifting(hash, keys[..], values[..], stored, at, Next(at, keys.Length))
      modifies keys, values
      ensures Represents(hash, keys[..], values[..], stored)
    {
      var n := keys.Length;
      var hole: nat := at;
      ModNext(hole, n);
      var next: nat := Mask(hole + 1, n);
      ghost var e: nat :| e < n && keys[..][e] == EMPTY;
      while keys[next] != EMPTY
        invariant hole < n && next < n
        invariant Shifting(hash, keys[..], values[..], stored, hole, next)
        invariant Before(Shift(keys[..], hole, next), e)
        decreases Dist(next, e, n)
      {
        StepTowardsEmpty(hash, Shift(keys[..], hole, next), e);
        hole, next := ShiftOnce(hole, next);
      }
      ShiftEnd(hash, keys[..], values[..], stored, hole, next);
      ghost var ks := keys[..];
      keys[hole] := EMPTY;
      assert keys[..] == ks[hole := EMPTY];
    }

    /** The body of the deletion loop. */
    method ShiftOnce(hole: nat, next: nat) returns (hole': nat, next': nat)
      requires keys as object != values
      requires Shifting(hash, keys[..], values[..], stored, hole, next) && keys[next] != EMPTY
      requires Next(next, keys.Length) != hole
      modifies keys, values
      ensures hole' < keys.Length && next' < keys.Length
      ensures Shifting(hash, keys[..], values[..], stored, hole', next')
      ensures Shift(keys[..], hole', next') == ShiftStep(hash, Shift(old(keys[..]), hole, next))
    {
      var n := keys.Length;
      ghost var ks, vs := keys[..], values[..];
      var ideal := Mask(hash(keys[next]), n);
      ModDist(hole, next, n);
      ModDist(ideal, next, n);
      ModNext(next, n);
      var distHole := Mask(next - hole, n);
      var distIdeal := Mask(next - ideal, n);
      next' := Mask(next + 1, n);
      if distIdeal >= distHole {
        ShiftMove(hash, ks, vs, stored, hole, next);
        keys[hole] := keys[next];
        values[hole] := values[next];
        hole' := next;
        assert keys[..] == ks[hole := ks[next]] && values[..] == vs[hole := vs[next]];
      } else {
        ShiftKeep(hash, ks, vs, stored, hole, next);
        hole' := hole;
      }
    }

    method Clear()
      requires Valid()
      modifies this, keys
      ensures Valid() && Contents() == map[]
    {
      forall i | 0 <= i < keys.Length {
        keys[i] := EMPTY;
      }
      size, sentinelUsed, stored := 0, false, map[];
    }

    /** Visits every entry exactly once. */
    method ForEach() returns (visited: seq<(u32, V)>)
      requires Valid()
      ensures Enumerates(visited, Contents())
      ensures EMPTY in Contents() ==> |visited| > 0 && visited[|visited| - 1].0 == EMPTY
    {
      visited := [];
      for i := 0 to keys.Length
        invariant visited == Visits(keys[..i], values[..i])
      {
        assert keys[..i + 1][..i] == keys[..i] && values[..i + 1][..i] == values[..i];
        if keys[i] != EMPTY {
          visited := visited + [(keys[i], values[i])];
        }
      }
      assert keys[..keys.Length] == keys[..] && values[..values.Length] == values[..];
      VisitsOnce(keys[..], values[..], stored);
      if sentinelUsed {
        EnumeratesMore(visited, stored, EMPTY, sentinelValue);
        visited := visited + [(EMPTY, sentinelValue)];
      }
    }

    method Perform(c: Call<V>) returns (a: Answer<V>)
      requires Valid()
      requires c.Drop? && c.key in Contents() && c.key != EMPTY ==> |Contents() - {EMPTY}| < keys.Length
      modifies this, keys, values
      ensures Valid()
      ensures a == MapAnswer(old(Contents()), keys.Length, c)
      ensures Contents() == MapAfter(old(Contents()), keys.Length, c)
    {
      LoadIsSize();
      hide Valid, Contents;
      match c
      case Put(key, value) =>
        var ok := Insert(key, value);
        return Done(ok);
      case Drop(key) =>
        var had := Erase(key);
        return Done(had);
      case Look(key) =>
        var found := Find(key);
        return Saw(found);
      case Wipe =>
        Clear();
        return Done(true);
    }

    /** For every sequence of calls the table answers as the map does and ends as the map does. */
    method Replay(calls: seq<Call<V>>) returns (answers: seq<Answer<V>>)
      requires Valid() && NeverStuck(Contents(), keys.Length, calls)
      modifies this, keys, values
      ensures Valid()
      ensures Contents() == MapRun(old(Contents()), keys.Length, calls)
      ensures answers == MapAnswers(old(Contents()), keys.Length, calls)
    {
      hide Valid, Contents, MapAfter, MapAnswer;
      answers := [];
      var i := 0;
      assert calls[0..] == calls;
      while i < |calls|
        invariant 0 <= i <= |calls| && Valid()
        invariant NeverStuck(Contents(), keys.Length, calls[i..])
        invariant MapRun(Contents(), keys.Length, calls[i..]) == MapRun(old(Contents()), keys.Length, calls)
        invariant answers + MapAnswers(Contents(), keys.Length, calls[i..]) == MapAnswers(old(Contents()), keys.Length, calls)
      {
        assert calls[i..][1..] == calls[i + 1..];
        var a := Perform(calls[i]);
        answers := answers + [a];
        i := i + 1;
      }
    }
  }
}

/** Linear probing with backward-shift deletion, on sequences: the shape of a probe table,
    what one iteration of the deletion loop does to it, and when that loop stops. */
module Probing {
  import opened Words
  import opened Cyclic

  const EMPTY: u32 := 0xFFFF_FFFF

  function Home(hash: u32 -> u32, key: u32, n: nat): (r: nat)
    requires n > 0
    ensures r < n
  {
    Mask(hash(key), n)
  }

  /** `p` lies on the probe path of the key stored at `i`, before `i` itself. */
  ghost predicate OnPath(hash: u32 -> u32, ks: seq<u32>, i: nat, p: nat)
    requires i < |ks| && p < |ks|
  {
    var h := Home(hash, ks[i], |ks|);
    Dist(h, p, |ks|) < Dist(h, i, |ks|)
  }

  ghost predicate Distinct(ks: seq<u32>) {
    forall i, j :: 0 <= i < j < |ks| && ks[i] != EMPTY ==> ks[i] != ks[j]
  }

  /** No empty slot between a key's home and its position. */
  ghost predicate Reachable(hash: u32 -> u32, ks: seq<u32>) {
    forall i, p {:trigger OnPath(hash, ks, i, p)} ::
      0 <= i < |ks| && 0 <= p < |ks| && ks[i] != EMPTY && OnPath(hash, ks, i, p)
      ==> ks[p] != EMPTY
  }

  ghost predicate Holds<V>(ks: seq<u32>, vs: seq<V>, m: map<u32, V>) {
    && |ks| == |vs|
    && (forall i :: 0 <= i < |ks| && ks[i] != EMPTY ==> ks[i] in m && m[ks[i]] == vs[i])
    && (forall k :: k in m ==> k != EMPTY && k in ks)
  }

  /** The slot arrays store exactly the map `m`, in probe order. */
  ghost predicate Represents<V>(hash: u32 -> u32, ks: seq<u32>, vs: seq<V>, m: map<u32, V>) {
    && |ks| > 1
    && Holds(ks, vs, m)
    && Distinct(ks)
    && Reachable(hash, ks)
  }

  /** A key that probing has not met before an empty slot, or before a full lap, is absent. */
  lemma ProbeMiss<V>(hash: u32 -> u32, ks: seq<u32>, vs: seq<V>, m: map<u32, V>, key: u32, probe: nat)
    requires Represents(hash, ks, vs, m) && key != EMPTY
    requires probe <= |ks|
    requires forall p :: 0 <= p < |ks| && Dist(Home(hash, key, |ks|), p, |ks|) < probe ==> ks[p] != key
    requires probe < |ks| ==> ks[Ahead(Home(hash, key, |ks|), probe, |ks|)] == EMPTY
    ensures key !in m
  {
    if key in m {
      var i :| 0 <= i < |ks| && ks[i] == key;
      var h := Home(hash, key, |ks|);
      assert Dist(h, i, |ks|) >= probe;
      var p := Ahead(h, probe, |ks|);
      assert i != p;
      assert OnPath(hash, ks, i, p);
    }
  }

  /** Writing an absent key into the first empty slot of its probe path stores it. */
  lemma InsertFresh<V>(hash: u32 -> u32, ks: seq<u32>, vs: seq<V>, m: map<u32, V>, key: u32, v: V, idx: nat)
    requires Represents(hash, ks, vs, m) && key != EMPTY && key !in m
    requires idx < |ks| && ks[idx] == EMPTY
    requires forall p :: 0 <= p < |ks| && Dist(Home(hash, key, |ks|), p, |ks|) < Dist(Home(hash, key, |ks|), idx, |ks|)
               ==> ks[p] != EMPTY
    ensures Represents(hash, ks[idx := key], vs[idx := v], m[key := v])
  {
    var ks' := ks[idx := key];
    forall i, p | 0 <= i < |ks'| && 0 <= p < |ks'| && ks'[i] != EMPTY && OnPath(hash, ks', i, p)
      ensures ks'[p] != EMPTY
    {
      if i != idx {
        assert OnPath(hash, ks, i, p);
      }
    }
    forall k | k in m[key := v]
      ensures k in ks'
    {
      if k == key {
        assert ks'[idx] == key;
      } else {
        var i :| 0 <= i < |ks| && ks[i] == k;
        assert ks'[i] == k;
      }
    }
  }

  lemma Overwrite<V>(hash: u32 -> u32, ks: seq<u32>, vs: seq<V>, m: map<u32, V>, key: u32, v: V, idx: nat)
    requires Represents(hash, ks, vs, m) && key != EMPTY
    requires idx < |ks| && ks[idx] == key
    ensures key in m && m[key] == vs[idx]
    ensures Represents(hash, ks, vs[idx := v], m[key := v])
  {
  }

  // ---------------------------------------------------------------------------
  // Load: the number of stored keys against the number of slots
  // ---------------------------------------------------------------------------

  ghost function Occupied(ks: seq<u32>): set<u32> {
    set k | k in ks && k != EMPTY
  }

  lemma {:induction false} OccupiedCount(ks: seq<u32>)
    requires Distinct(ks)
    ensures |Occupied(ks)| <= |ks|
    ensures EMPTY in ks <==> |Occupied(ks)| < |ks|
  {
    if ks == [] {
      assert Occupied(ks) == {};
    } else {
      var last, init := ks[|ks| - 1], ks[..|ks| - 1];
      assert ks == init + [last];
      OccupiedCount(init);
      if last == EMPTY {
        assert Occupied(ks) == Occupied(init);
      } else {
        assert last !in Occupied(init);
        assert Occupied(ks) == Occupied(init) + {last};
      }
    }
  }

  /** A table has an empty slot exactly when it stores fewer keys than it has slots. */
  lemma EmptySlotIffRoom<V>(hash: u32 -> u32, ks: seq<u32>, vs: seq<V>, m: map<u32, V>)
    requires Represents(hash, ks, vs, m)
    ensures |m| <= |ks|
    ensures EMPTY in ks <==> |m| < |ks|
  {
    assert m.Keys == Occupied(ks);
    OccupiedCount(ks);
  }

  /** The entries met by one pass over the slots. */
  function Visits<V>(ks: seq<u32>, vs: seq<V>): seq<(u32, V)>
    requires |ks| == |vs|
  {
    if ks == [] then []
    else
      var n := |ks| - 1;
      Visits(ks[..n], vs[..n]) + if ks[n] == EMPTY then [] else [(ks[n], vs[n])]
  }

  /** `es` lists every entry of `m` exactly once. */
  ghost predicate Enumerates<V>(es: seq<(u32, V)>, m: map<u32, V>) {
    && |es| == |m|
    && (forall i :: 0 <= i < |es| ==> es[i].0 in m && m[es[i].0] == es[i].1)
    && (forall i, j :: 0 <= i < j < |es| ==> es[i].0 != es[j].0)
  }

  lemma AddCard<V>(m: map<u32, V>, k: u32, v: V)
    ensures |m[k := v]| == if k in m then |m| else |m| + 1
  {
    assert m[k := v].Keys == m.Keys + {k};
  }

  lemma RemoveCard<V>(m: map<u32, V>, k: u32)
    requires k in m
    ensures |m - {k}| == |m| - 1
  {
    assert m.Keys == (m - {k}).Keys + {k};
  }

  lemma SetCommutes<V>(m: map<u32, V>, k: u32, v: V, e: u32, w: V)
    requires k != e
    ensures m[k := v][e := w] == m[e := w][k := v]
    ensures (m - {k})[e := w] == m[e := w] - {k}
  {
  }

  lemma EnumeratesMore<V>(es: seq<(u32, V)>, m: map<u32, V>, k: u32, v: V)
    requires Enumerates(es, m) && k !in m
    ensures Enumerates(es + [(k, v)], m[k := v])
  {
    AddCard(m, k, v);
  }

  lemma HoldsInit<V>(ks: seq<u32>, vs: seq<V>, m: map<u32, V>, n: nat)
    requires Holds(ks, vs, m) && Distinct(ks) && |ks| == n + 1
    ensures Holds(ks[..n], vs[..n], m - {ks[n]}) && Distinct(ks[..n])
  {
    forall k | k in m - {ks[n]}
      ensures k in ks[..n]
    {
      var i :| 0 <= i < |ks| && ks[i] == k;
      assert ks[..n][i] == k;
    }
  }

  lemma {:induction false} VisitsOnce<V>(ks: seq<u32>, vs: seq<V>, m: map<u32, V>)
    requires Holds(ks, vs, m) && Distinct(ks)
    ensures Enumerates(Visits(ks, vs), m)
  {
    if ks == [] {
      assert m == map[];
    } else {
      var n := |ks| - 1;
      HoldsInit(ks, vs, m, n);
      VisitsOnce(ks[..n], vs[..n], m - {ks[n]});
      VisitsLast(ks, vs, m, n);
    }
  }

  lemma VisitsLast<V>(ks: seq<u32>, vs: seq<V>, m: map<u32, V>, n: nat)
    requires |ks| == |vs| == n + 1
    requires if ks[n] == EMPTY then EMPTY !in m else ks[n] in m && m[ks[n]] == vs[n]
    requires Enumerates(Visits(ks[..n], vs[..n]), m - {ks[n]})
    ensures Enumerates(Visits(ks, vs), m)
  {
    if ks[n] == EMPTY {
      assert m - {ks[n]} == m;
    } else {
      EnumeratesMore(Visits(ks[..n], vs[..n]), m - {ks[n]}, ks[n], vs[n]);
      assert (m - {ks[n]})[ks[n] := vs[n]] == m;
    }
  }

  // ---------------------------------------------------------------------------
  // Backward shift
  // ---------------------------------------------------------------------------

  datatype Shift = Shift(ks: seq<u32>, hole: nat, next: nat)

  predicate InRange(s: Shift) {
    s.hole < |s.ks| && s.next < |s.ks|
  }

  /** The guard of the deletion loop. */
  predicate Going(s: Shift)
    requires InRange(s)
  {
    s.ks[s.next] != EMPTY
  }

  /** Whether the key at `next` may move into the hole. */
  predicate Moves(hash: u32 -> u32, s: Shift)
    requires InRange(s)
  {
    var n := |s.ks|;
    Dist(Home(hash, s.ks[s.next], n), s.next, n) >= Dist(s.hole, s.next, n)
  }

  /** One iteration of the deletion loop. */
  function ShiftStep(hash: u32 -> u32, s: Shift): Shift
    requires InRange(s)
  {
    var after := Next(s.next, |s.ks|);
    if Moves(hash, s)
    then Shift(s.ks[s.hole := s.ks[s.next]], s.next, after)
    else s.(next := after)
  }

  /** The loop state after `steps` iterations, stopping early once the guard is false. */
  function ShiftRun(hash: u32 -> u32, s: Shift, steps: nat): (r: Shift)
    requires InRange(s)
    ensures InRange(r) && |r.ks| == |s.ks|
    decreases steps
  {
    if steps == 0 then s
    else
      var r := ShiftRun(hash, s, steps - 1);
      if Going(r) then ShiftStep(hash, r) else r
  }

  /** The deletion loop started in `s` reaches a state where its guard is false. */
  ghost predicate Stops(hash: u32 -> u32, s: Shift)
    requires InRange(s)
  {
    exists steps: nat :: !Going(ShiftRun(hash, s, steps))
  }

  lemma {:induction false} FullStaysFull(hash: u32 -> u32, s: Shift, steps: nat)
    requires InRange(s) && EMPTY !in s.ks
    ensures EMPTY !in ShiftRun(hash, s, steps).ks
  {
    if steps > 0 {
      FullStaysFull(hash, s, steps - 1);
    }
  }

  /** `e` is an empty slot and `next` lies cyclically between the hole and `e`. */
  ghost predicate Before(s: Shift, e: nat) {
    && InRange(s) && e < |s.ks| && s.ks[e] == EMPTY && s.ks[s.hole] != EMPTY
    && Dist(s.hole, s.next, |s.ks|) + Dist(s.next, e, |s.ks|) == Dist(s.hole, e, |s.ks|)
  }

  lemma StepTowardsEmpty(hash: u32 -> u32, s: Shift, e: nat)
    requires Before(s, e) && Going(s)
    ensures Before(ShiftStep(hash, s), e)
    ensures Dist(ShiftStep(hash, s).next, e, |s.ks|) == Dist(s.next, e, |s.ks|) - 1
  {
  }

  /** The termination measure: every iteration brings `next` one slot closer to the empty slot. */
  lemma {:induction false} ApproachesEmpty(hash: u32 -> u32, s: Shift, e: nat, steps: nat)
    requires Before(s, e)
    ensures Before(ShiftRun(hash, s, steps), e)
    ensures var r := ShiftRun(hash, s, steps);
            Going(r) ==> Dist(r.next, e, |s.ks|) + steps == Dist(s.next, e, |s.ks|)
  {
    if steps > 0 {
      ApproachesEmpty(hash, s, e, steps - 1);
      var r := ShiftRun(hash, s, steps - 1);
      if Going(r) {
        StepTowardsEmpty(hash, r, e);
      }
    }
  }

  /** Deleting the key at `hole` terminates if and only if the table has an empty slot. */
  lemma DeletionStopsIffEmptySlot(hash: u32 -> u32, ks: seq<u32>, hole: nat)
    requires hole < |ks| && ks[hole] != EMPTY
    ensures Stops(hash, Shift(ks, hole, Next(hole, |ks|))) <==> EMPTY in ks
  {
    var s := Shift(ks, hole, Next(hole, |ks|));
    if EMPTY in ks {
      var e :| 0 <= e < |ks| && ks[e] == EMPTY;
      var steps := Dist(s.next, e, |ks|) + 1;
      ApproachesEmpty(hash, s, e, steps);
      assert !Going(ShiftRun(hash, s, steps));
    } else {
      forall steps: nat
        ensures Going(ShiftRun(hash, s, steps))
      {
        FullStaysFull(hash, s, steps);
      }
    }
  }

  /** So it terminates if and only if fewer keys are stored than there are slots. */
  lemma DeletionStopsIffRoom<V>(hash: u32 -> u32, ks: seq<u32>, vs: seq<V>, m: map<u32, V>, hole: nat)
    requires Represents(hash, ks, vs, m) && hole < |ks| && ks[hole] != EMPTY
    ensures Stops(hash, Shift(ks, hole, Next(hole, |ks|))) <==> |m| < |ks|
  {
    hide Stops, Reachable;
    DeletionStopsIffEmptySlot(hash, ks, hole);
    EmptySlotIffRoom(hash, ks, vs, m);
  }

  /** The deletion loop's invariant: everything but the hole stores `m`; the slots from the
      hole up to `next` are occupied; and only keys from `next` on still probe across the hole. */
  ghost predicate Shifting<V>(hash: u32 -> u32, ks: seq<u32>, vs: seq<V>, m: map<u32, V>, hole: nat, next: nat) {
    && |ks| == |vs| && hole < |ks| && next < |ks| && hole != next
    && ks[hole] != EMPTY
    && (forall i :: 0 <= i < |ks| && i != hole && ks[i] != EMPTY ==> ks[i] in m && m[ks[i]] == vs[i])
    && (forall k :: k in m ==> k != EMPTY && k in ks[hole := EMPTY])
    && Distinct(ks[hole := EMPTY])
    && Reachable(hash, ks)
    && (forall p :: 0 <= p < |ks| && Dist(hole, p, |ks|) < Dist(hole, next, |ks|) ==> ks[p] != EMPTY)
    && (forall i :: 0 <= i < |ks| && i != hole && ks[i] != EMPTY && OnPath(hash, ks, i, hole)
          ==> Dist(hole, next, |ks|) <= Dist(hole, i, |ks|))
  }

  lemma ShiftStart<V>(hash: u32 -> u32, ks: seq<u32>, vs: seq<V>, m: map<u32, V>, hole: nat)
    requires Represents(hash, ks, vs, m) && hole < |ks| && ks[hole] != EMPTY
    ensures Shifting(hash, ks, vs, m - {ks[hole]}, hole, Next(hole, |ks|))
  {
    forall k | k in m - {ks[hole]}
      ensures k in ks[hole := EMPTY]
    {
      var i :| 0 <= i < |ks| && ks[i] == k;
      assert ks[hole := EMPTY][i] == k;
    }
  }

  lemma MoveReachable(hash: u32 -> u32, ks: seq<u32>, hole: nat, next: nat)
    requires hole < |ks| && next < |ks| && ks[hole] != EMPTY && ks[next] != EMPTY
    requires Reachable(hash, ks) && Moves(hash, Shift(ks, hole, next))
    ensures Reachable(hash, ks[hole := ks[next]])
  {
    var ks' := ks[hole := ks[next]];
    forall i, p | 0 <= i < |ks| && 0 <= p < |ks| && ks'[i] != EMPTY && OnPath(hash, ks', i, p)
      ensures ks'[p] != EMPTY
    {
      assert OnPath(hash, ks, if i == hole then next else i, p);
    }
  }

  /** Index `i` with the two indices exchanged. */
  function Swapped(i: int, hole: nat, next: nat): int {
    if i == next then hole else if i == hole then next else i
  }

  lemma MoveSwaps(ks: seq<u32>, hole: nat, next: nat, i: nat)
    requires hole < |ks| && next < |ks| && hole != next && i < |ks|
    ensures var a, b := ks[hole := EMPTY], ks[hole := ks[next]][next := EMPTY];
            b[i] == a[Swapped(i, hole, next)] && a[i] == b[Swapped(i, hole, next)]
  {
  }

  lemma MoveDistinct(ks: seq<u32>, hole: nat, next: nat)
    requires hole < |ks| && next < |ks| && hole != next && ks[next] != EMPTY
    requires Distinct(ks[hole := EMPTY])
    ensures Distinct(ks[hole := ks[next]][next := EMPTY])
  {
    var a, b := ks[hole := EMPTY], ks[hole := ks[next]][next := EMPTY];
    forall i, j | 0 <= i < j < |ks| && b[i] != EMPTY
      ensures b[i] != b[j]
    {
      MoveSwaps(ks, hole, next, i);
      MoveSwaps(ks, hole, next, j);
      assert a[Swapped(i, hole, next)] != a[Swapped(j, hole, next)];
    }
  }

  lemma MoveOccupied(ks: seq<u32>, hole: nat, next: nat, k: u32)
    requires hole < |ks| && next < |ks| && hole != next
    ensures k in ks[hole := EMPTY] ==> k in ks[hole := ks[next]][next := EMPTY]
  {
    var a, b := ks[hole := EMPTY], ks[hole := ks[next]][next := EMPTY];
    if k in a {
      var i :| 0 <= i < |a| && a[i] == k;
      MoveSwaps(ks, hole, next, i);
      assert b[Swapped(i, hole, next)] == k;
    }
  }

  lemma ShiftMove<V>(hash: u32 -> u32, ks: seq<u32>, vs: seq<V>, m: map<u32, V>, hole: nat, next: nat)
    requires Shifting(hash, ks, vs, m, hole, next) && ks[next] != EMPTY
    requires Moves(hash, Shift(ks, hole, next))
    ensures Shifting(hash, ks[hole := ks[next]], vs[hole := vs[next]], m, next, Next(next, |ks|))
  {
    hide Mask, Distinct;
    MoveReachable(hash, ks, hole, next);
    MoveDistinct(ks, hole, next);
    forall k | k in m
      ensures k in ks[hole := ks[next]][next := EMPTY]
    {
      MoveOccupied(ks, hole, next, k);
    }
  }

  lemma ShiftKeep<V>(hash: u32 -> u32, ks: seq<u32>, vs: seq<V>, m: map<u32, V>, hole: nat, next: nat)
    requires Shifting(hash, ks, vs, m, hole, next) && ks[next] != EMPTY
    requires !Moves(hash, Shift(ks, hole, next)) && Next(next, |ks|) != hole
    ensures Shifting(hash, ks, vs, m, hole, Next(next, |ks|))
  {
  }

  lemma ShiftEnd<V>(hash: u32 -> u32, ks: seq<u32>, vs: seq<V>, m: map<u32, V>, hole: nat, next: nat)
    requires Shifting(hash, ks, vs, m, hole, next) && ks[next] == EMPTY
    ensures Represents(hash, ks[hole := EMPTY], vs, m)
  {
    var n := |ks|;
    var ks' := ks[hole := EMPTY];
    forall i, p | 0 <= i < n && 0 <= p < n && ks'[i] != EMPTY && OnPath(hash, ks', i, p)
      ensures ks'[p] != EMPTY
    {
      assert OnPath(hash, ks, i, p);
      assert p == hole ==> OnPath(hash, ks, i, next);
    }
  }
}

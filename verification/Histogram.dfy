/** The logarithmic latency histogram against the sorted list of recorded values. */
module Histogram {
  import opened Words

  const LIMIT: nat := 0x8000_0000_0000  // 2^47, the first value past the last bucket

  function Pow2(k: nat): (p: nat)
    ensures p > 0
  {
    if k == 0 then 1 else 2 * Pow2(k - 1)
  }

  /** Index of the most significant set bit. */
  function Msb(v: nat): (m: nat)
    requires v > 0
    ensures Pow2(m) <= v < 2 * Pow2(m)
  {
    if v == 1 then 0 else 1 + Msb(v / 2)
  }

  function Quotient(v: nat, p: nat): nat
    requires p > 0
  {
    v / p
  }

  function Shr(v: nat, b: nat): nat {
    Quotient(v, Pow2(b))
  }

  function Shl(v: nat, b: nat): nat {
    v * Pow2(b)
  }

  /** The bits that a right shift by `b` drops. */
  function Low(v: nat, b: nat): nat {
    v % Pow2(b)
  }

  /** 40 buckets, one per power of two, of 256 linear sub-buckets each. */
  function IndexFor(v: u64): nat {
    if v < 256 then v
    else
      var bucket := Msb(v) - 7;
      var clamped := if bucket < 39 then bucket else 39;
      if clamped < 0 then 0 else clamped * 256 + Shr(v, clamped) % 256
  }

  function UpperEdge(index: nat): nat {
    var bucket, sub := index / 256, index % 256;
    if bucket == 0 then sub else LastOf(sub, bucket)
  }

  /** The last value that shifts right to `sub`. */
  function LastOf(sub: nat, bucket: nat): nat {
    ShlPositive(sub + 1, bucket);
    Shl(sub + 1, bucket) - 1
  }

  lemma ShlPositive(v: nat, b: nat)
    requires v > 0
    ensures Shl(v, b) > 0
  {
    MulLe(1, v, Pow2(b));
  }

  // ---------------------------------------------------------------------------
  // Arithmetic of the buckets
  // ---------------------------------------------------------------------------

  lemma {:induction false} Pow2Monotone(a: nat, b: nat)
    requires a <= b
    ensures Pow2(a) <= Pow2(b)
  {
    if a < b {
      Pow2Monotone(a, b - 1);
    }
  }

  lemma Pow2Less(a: nat, b: nat)
    requires Pow2(a) < Pow2(b)
    ensures a < b
  {
    if b <= a {
      Pow2Monotone(b, a);
    }
  }

  lemma Pow2Next(k: nat)
    ensures Pow2(k + 1) == 2 * Pow2(k)
  {
  }

  lemma Pow2Plus7(k: nat)
    ensures Pow2(k + 7) == 128 * Pow2(k)
  {
    hide Pow2;
    Pow2Next(k);
    Pow2Next(k + 1);
    Pow2Next(k + 2);
    Pow2Next(k + 3);
    Pow2Next(k + 4);
    Pow2Next(k + 5);
    Pow2Next(k + 6);
  }

  lemma Pow2Of39()
    ensures Pow2(1) == 2 && Pow2(8) == 256 && Pow2(39) == 0x80_0000_0000 && Pow2(46) == 0x4000_0000_0000 && Pow2(47) == LIMIT
  {
    assert Pow2(0) == 1;
    hide Pow2;
    Pow2Next(0);
    Pow2Plus7(1);
    Pow2Next(8);
    Pow2Next(9);
    Pow2Next(10);
    Pow2Plus7(11);
    Pow2Plus7(18);
    Pow2Plus7(25);
    Pow2Plus7(32);
    Pow2Plus7(39);
    Pow2Next(46);
  }

  lemma MulLe(a: nat, b: nat, c: nat)
    requires a <= b
    ensures a * c <= b * c
  {
    assert b * c == a * c + (b - a) * c;
  }

  lemma MulMonotone(a: nat, b: nat, c: nat, d: nat)
    requires a <= b && c <= d
    ensures a * c <= b * d
  {
    MulLe(a, b, c);
    MulLe(c, d, b);
  }

  lemma ShlNext(a: nat, b: nat)
    ensures Shl(a + 1, b) == Shl(a, b) + Pow2(b)
  {
    hide Pow2;
  }

  lemma ShlMonotone(a: nat, c: nat, b: nat)
    requires a <= c
    ensures Shl(a, b) <= Shl(c, b)
  {
    hide Pow2;
    MulLe(a, c, Pow2(b));
  }

  lemma ShlSubtract(a: nat, q: nat, b: nat)
    requires q <= a
    ensures Shl(a - q, b) == Shl(a, b) - Shl(q, b)
  {
    hide Pow2;
  }

  lemma ShlLiteral(b: nat)
    ensures Shl(128, b) == 128 * Pow2(b) && Shl(256, b) == 256 * Pow2(b)
  {
    hide Pow2;
  }

  /** A value is its upper bits shifted back plus its lower bits. */
  lemma ShiftBack(v: nat, b: nat)
    ensures v == Shl(Shr(v, b), b) + Low(v, b) && Low(v, b) < Pow2(b)
  {
    hide Pow2;
  }

  lemma ShrAtLeast(a: nat, v: nat, b: nat)
    ensures a <= Shr(v, b) <==> Shl(a, b) <= v
  {
    ShiftBack(v, b);
    hide Shl, Shr, Low, Pow2;
    if a <= Shr(v, b) {
      ShlMonotone(a, Shr(v, b), b);
    } else {
      ShlMonotone(Shr(v, b) + 1, a, b);
      ShlNext(Shr(v, b), b);
    }
  }

  lemma ShrMonotone(v: nat, w: nat, b: nat)
    requires v <= w
    ensures Shr(v, b) <= Shr(w, b)
  {
    hide Shl, Shr;
    ShrAtLeast(Shr(v, b), v, b);
    ShrAtLeast(Shr(v, b), w, b);
  }

  lemma MsbRange(v: u64)
    requires 256 <= v < LIMIT
    ensures 8 <= Msb(v) <= 46
  {
    hide Pow2, Msb;
    Pow2Of39();
    Pow2Next(Msb(v));
    Pow2Less(8, Msb(v) + 1);
    Pow2Less(Msb(v), 47);
  }

  lemma MsbMonotone(v: nat, w: nat)
    requires 0 < v <= w
    ensures Msb(v) <= Msb(w)
  {
    hide Pow2, Msb;
    Pow2Next(Msb(w));
    Pow2Less(Msb(v), Msb(w) + 1);
  }

  lemma MsbIs(v: nat, m: nat)
    requires Pow2(m) <= v < 2 * Pow2(m)
    ensures v > 0 && Msb(v) == m
  {
    hide Pow2, Msb;
    Pow2Next(m);
    Pow2Next(Msb(v));
    Pow2Less(Msb(v), m + 1);
    Pow2Less(m, Msb(v) + 1);
  }

  /** The bucket of a value of at least 256: which power of two, and where within it. */
  lemma Bucketed(v: u64)
    requires 256 <= v < LIMIT
    ensures 1 <= Msb(v) - 7 <= 39
    ensures var b := Msb(v) - 7;
            && 128 <= Shr(v, b) < 256
            && IndexFor(v) == b * 256 + Shr(v, b)
            && 128 * Pow2(b) <= v
  {
    hide Shr, Shl, Pow2, Msb;
    MsbRange(v);
    var b := Msb(v) - 7;
    Pow2Plus7(b);
    ShlLiteral(b);
    ShrAtLeast(128, v, b);
    ShrAtLeast(256, v, b);
  }

  /** Bucket indices grow with the value. */
  lemma IndexMonotone(v: u64, w: u64)
    requires v <= w < LIMIT
    ensures IndexFor(v) <= IndexFor(w)
  {
    hide Shr, Shl, Pow2, Msb;
    if w >= 256 {
      Bucketed(w);
      if v >= 256 {
        Bucketed(v);
        MsbMonotone(v, w);
        ShrMonotone(v, w, Msb(v) - 7);
        hide IndexFor;
      }
    }
  }

  lemma IndexInRange(v: u64)
    ensures IndexFor(v) < 40 * 256
  {
    hide Shr, Msb;
  }

  /** The reported edge is never below the value, exact under 256 and within 1/128 of it above. */
  ghost predicate CloseAbove(x: nat, u: nat) {
    && x <= u
    && (x < 256 ==> u == x)
    && (x >= 256 ==> 128 * (u - x) < x)
  }

  lemma IndexParts(b: nat, sub: nat)
    requires sub < 256
    ensures (b * 256 + sub) / 256 == b && (b * 256 + sub) % 256 == sub
  {
  }

  /** The edge of a value of at least 256 is the last value of its sub-bucket. */
  lemma EdgeOf(v: u64)
    requires 256 <= v < LIMIT
    ensures 1 <= Msb(v) - 7 <= 39
    ensures var b := Msb(v) - 7;
            && 128 <= Shr(v, b) < 256 && 128 * Pow2(b) <= v
            && v == Shl(Shr(v, b), b) + Low(v, b) && Low(v, b) < Pow2(b)
            && UpperEdge(IndexFor(v)) == v + (Pow2(b) - 1 - Low(v, b))
  {
    hide Shr, Shl, Low, Pow2, Msb, IndexFor;
    Bucketed(v);
    var b := Msb(v) - 7;
    IndexParts(b, Shr(v, b));
    ShiftBack(v, b);
    ShlNext(Shr(v, b), b);
  }

  lemma EdgeIsClose(v: u64)
    requires v < LIMIT
    ensures CloseAbove(v, UpperEdge(IndexFor(v)))
  {
    hide Shr, Shl, Low, Pow2, Msb;
    if v >= 256 {
      EdgeOf(v);
      hide IndexFor, UpperEdge;
    }
  }

  /** The error is more than the 1/256 that the class comment gives, rounded, as 0.4%. */
  ghost predicate ErrorAbove256th(v: u64) {
    256 * (UpperEdge(IndexFor(v)) - v) > v
  }

  /** Exactly when the error exceeds 1/256: when few enough of the sub-bucket's values lie below `v` for
      the place of the sub-bucket in its power of two. */
  lemma ErrorAbove256thIff(v: u64)
    requires v < LIMIT
    ensures v >= 256 ==> Msb(v) >= 8
    ensures ErrorAbove256th(v)
            <==> v >= 256 && var b := Msb(v) - 7; Shr(v, b) < 256 && 257 * Low(v, b) + 256 < Shl(256 - Shr(v, b), b)
  {
    hide Shr, Shl, Low, Pow2, Msb;
    if v >= 256 {
      EdgeOf(v);
      hide IndexFor, UpperEdge;
      var b := Msb(v) - 7;
      ShlSubtract(256, Shr(v, b), b);
      ShlLiteral(b);
    }
  }

  /** At every power of two the error is `(2^b - 1) / 2^(b + 7)`, as close to 1/128 as the sub-bucket is
      wide, and no other value of that power of two has a larger one. */
  lemma WorstAtPowers(b: nat, v: u64)
    requires 1 <= b <= 39 && Pow2(b + 7) <= v < 2 * Pow2(b + 7)
    ensures 256 <= Pow2(b + 7) == 128 * Pow2(b) && v < LIMIT
    ensures var low := Pow2(b + 7);
            && UpperEdge(IndexFor(low)) == low + Pow2(b) - 1
            && v <= UpperEdge(IndexFor(v))
            && (UpperEdge(IndexFor(v)) - v) * low <= (UpperEdge(IndexFor(low)) - low) * v
  {
    hide Shr, Shl, Low, Pow2, Msb, IndexFor, UpperEdge;
    var low := Pow2(b + 7);
    Pow2Plus7(b);
    Pow2Of39();
    Pow2Monotone(1, b);
    Pow2Monotone(b + 7, 46);
    MsbIs(low, b + 7);
    MsbIs(v, b + 7);
    EdgeOf(low);
    EdgeOf(v);
    NothingBelow(b);
    MulMonotone(UpperEdge(IndexFor(v)) - v, UpperEdge(IndexFor(low)) - low, low, v);
  }

  lemma NothingBelow(b: nat)
    ensures Low(Pow2(b + 7), b) == 0
  {
    hide Shr, Shl, Low, Pow2;
    var low := Pow2(b + 7);
    Pow2Plus7(b);
    ShlLiteral(b);
    ShiftBack(low, b);
    ShrAtLeast(128, low, b);
    ShrAtLeast(129, low, b);
    ShlNext(128, b);
  }

  /** For instance 512 is reported as 515. */
  lemma ErrorAt512()
    ensures UpperEdge(IndexFor(512)) == 515 && ErrorAbove256th(512)
  {
    assert Pow2(2) == 4;
    hide Shr, Shl, Low, Pow2, Msb, IndexFor, UpperEdge;
    Pow2Plus7(2);
    WorstAtPowers(2, 512);
  }

  lemma EdgeBelowLimit(i: nat)
    requires i < 40 * 256
    ensures UpperEdge(i) < LIMIT
  {
    hide Pow2, Shl;
    var b, sub := i / 256, i % 256;
    Pow2Of39();
    Pow2Monotone(b, 39);
    ShlMonotone(sub + 1, 256, b);
    ShlLiteral(b);
  }

  /** A value's own bucket edge bounds it from above exactly for the values below 2^47. */
  lemma NeverOptimisticIff(v: u64)
    ensures v <= UpperEdge(IndexFor(v)) <==> v < LIMIT
  {
    hide IndexFor, UpperEdge;
    if v < LIMIT {
      EdgeIsClose(v);
    } else {
      IndexInRange(v);
      EdgeBelowLimit(IndexFor(v));
    }
  }

  // ---------------------------------------------------------------------------
  // Counting
  // ---------------------------------------------------------------------------

  /** How many of the values fall into bucket `i`. */
  ghost function InBucket(xs: seq<u64>, i: nat): nat {
    if xs == [] then 0
    else InBucket(xs[..|xs| - 1], i) + if IndexFor(xs[|xs| - 1]) == i then 1 else 0
  }

  /** How many of the values fall into a bucket below `i`. */
  ghost function BelowBucket(xs: seq<u64>, i: nat): nat {
    if xs == [] then 0
    else BelowBucket(xs[..|xs| - 1], i) + if IndexFor(xs[|xs| - 1]) < i then 1 else 0
  }

  lemma {:induction false} BelowNext(xs: seq<u64>, i: nat)
    ensures BelowBucket(xs, i + 1) == BelowBucket(xs, i) + InBucket(xs, i)
    ensures BelowBucket(xs, 0) == 0
  {
    if xs != [] {
      BelowNext(xs[..|xs| - 1], i);
    }
  }

  lemma {:induction false} BelowAll(xs: seq<u64>)
    ensures BelowBucket(xs, 40 * 256) == |xs|
  {
    if xs != [] {
      BelowAll(xs[..|xs| - 1]);
      IndexInRange(xs[|xs| - 1]);
    }
  }

  lemma {:induction false} InBucketConcat(xs: seq<u64>, ys: seq<u64>, i: nat)
    ensures InBucket(xs + ys, i) == InBucket(xs, i) + InBucket(ys, i)
  {
    if ys == [] {
      assert xs + ys == xs;
    } else {
      InBucketConcat(xs, ys[..|ys| - 1], i);
      assert (xs + ys)[..|xs + ys| - 1] == xs + ys[..|ys| - 1];
    }
  }

  lemma {:induction false} BelowConcat(xs: seq<u64>, ys: seq<u64>, i: nat)
    ensures BelowBucket(xs + ys, i) == BelowBucket(xs, i) + BelowBucket(ys, i)
  {
    if ys == [] {
      assert xs + ys == xs;
    } else {
      BelowConcat(xs, ys[..|ys| - 1], i);
      assert (xs + ys)[..|xs + ys| - 1] == xs + ys[..|ys| - 1];
    }
  }

  /** Counts do not depend on the order of the values. */
  lemma {:induction false} BelowPermuted(xs: seq<u64>, ys: seq<u64>, i: nat)
    requires multiset(xs) == multiset(ys)
    ensures BelowBucket(xs, i) == BelowBucket(ys, i)
  {
    hide IndexFor;
    if xs == [] {
      assert ys == [];
    } else {
      var n := |xs| - 1;
      var k := Place(xs, ys);
      BelowPermuted(xs[..n], ys[..k] + ys[k + 1..], i);
      BelowConcat(ys[..k], ys[k + 1..], i);
      BelowConcat(ys[..k], ys[k..], i);
      BelowConcat([ys[k]], ys[k + 1..], i);
      assert ys == ys[..k] + ys[k..] && ys[k..] == [ys[k]] + ys[k + 1..];
      assert [ys[k]][..0] == [];
    }
  }

  /** Where the last of `xs` is in `ys`; what is left of both are permutations again. */
  lemma Place(xs: seq<u64>, ys: seq<u64>) returns (k: nat)
    requires multiset(xs) == multiset(ys) && xs != []
    ensures k < |ys| && ys[k] == xs[|xs| - 1]
    ensures multiset(xs[..|xs| - 1]) == multiset(ys[..k] + ys[k + 1..])
  {
    var n := |xs| - 1;
    var v := xs[n];
    assert xs == xs[..n] + [v];
    assert v in multiset(ys);
    k :| 0 <= k < |ys| && ys[k] == v;
    WithoutOne(ys, k);
    Cancel(multiset(xs[..n]), multiset(ys[..k] + ys[k + 1..]), multiset{v});
  }

  lemma WithoutOne(ys: seq<u64>, k: nat)
    requires k < |ys|
    ensures multiset(ys) == multiset(ys[..k] + ys[k + 1..]) + multiset{ys[k]}
  {
    assert ys == ys[..k] + [ys[k]] + ys[k + 1..];
  }

  lemma Cancel(a: multiset<u64>, b: multiset<u64>, c: multiset<u64>)
    requires a + c == b + c
    ensures a == b
  {
    forall x: u64
      ensures a[x] == b[x]
    {
      assert (a + c)[x] == (b + c)[x];
    }
  }

  predicate Sorted(ys: seq<u64>) {
    forall j, k :: 0 <= j < k < |ys| ==> ys[j] <= ys[k]
  }

  /** In a sorted list the r-th value is in a bucket below `i` exactly when `r` values are. */
  lemma {:induction false} RankOfSorted(ys: seq<u64>, i: nat, r: nat)
    requires Sorted(ys) && 1 <= r <= |ys| && forall k :: 0 <= k < |ys| ==> ys[k] < LIMIT
    ensures BelowBucket(ys, i) >= r <==> IndexFor(ys[r - 1]) < i
  {
    hide IndexFor, BelowBucket;
    var n := |ys| - 1;
    IndexMonotone(ys[r - 1], ys[n]);
    BelowLast(ys, i);
    BelowBounded(ys[..n], i);
    if n == 0 {
      BelowNone(ys[..n], i);
    } else if r <= n {
      RankOfSorted(ys[..n], i, r);
    } else {
      RankOfSorted(ys[..n], i, n);
      IndexMonotone(ys[n - 1], ys[n]);
    }
  }

  lemma BelowLast(ys: seq<u64>, i: nat)
    requires ys != []
    ensures BelowBucket(ys, i) == BelowBucket(ys[..|ys| - 1], i) + if IndexFor(ys[|ys| - 1]) < i then 1 else 0
  {
    hide IndexFor;
  }

  lemma BelowNone(ys: seq<u64>, i: nat)
    requires ys == []
    ensures BelowBucket(ys, i) == 0
  {
  }

  lemma {:induction false} BelowBounded(xs: seq<u64>, i: nat)
    ensures BelowBucket(xs, i) <= |xs|
  {
    if xs != [] {
      BelowBounded(xs[..|xs| - 1], i);
    }
  }

  /** The bucket at which the cumulative count first reaches `target`, walking over non-empty buckets. */
  ghost predicate WalkStopsAt(xs: seq<u64>, target: nat, i: nat) {
    && InBucket(xs, i) != 0 && BelowBucket(xs, i + 1) >= target
    && forall k :: 0 <= k < i ==> InBucket(xs, k) == 0 || BelowBucket(xs, k + 1) < target
  }

  /** The walk stops in the bucket of the value with that rank; rank 0 counts as rank 1. */
  lemma WalkFindsRank(xs: seq<u64>, ys: seq<u64>, target: nat, i: nat)
    requires multiset(ys) == multiset(xs) && Sorted(ys) && forall k :: 0 <= k < |ys| ==> ys[k] < LIMIT
    requires target <= |ys| && WalkStopsAt(xs, target, i)
    ensures |ys| > 0
    ensures var r := if target == 0 then 1 else target;
            IndexFor(ys[r - 1]) == i
  {
    SameLength(xs, ys);
    BelowNext(xs, i);
    BelowBounded(xs, i + 1);
    var r := if target == 0 then 1 else target;
    var j := IndexFor(ys[r - 1]);
    BelowPermuted(xs, ys, i + 1);
    BelowPermuted(xs, ys, j + 1);
    BelowPermuted(xs, ys, j);
    RankOfSorted(ys, i + 1, r);
    RankOfSorted(ys, j + 1, r);
    RankOfSorted(ys, j, r);
    BelowNext(xs, j);
  }

  lemma SameLength(xs: seq<u64>, ys: seq<u64>)
    requires multiset(ys) == multiset(xs)
    ensures |ys| == |xs|
  {
    assert |multiset(ys)| == |ys| && |multiset(xs)| == |xs|;
  }

  /** The quantile against the sorted list of recorded values: for values below 2^47 and every
      rank, the reported edge is at or above the value of that rank, equal to it under 256 and
      less than 1/128 of it too high otherwise. */
  lemma QuantileIsClose(values: seq<u64>, sorted: seq<u64>, target: nat, i: nat)
    requires multiset(sorted) == multiset(values) && Sorted(sorted) && forall k :: 0 <= k < |sorted| ==> sorted[k] < LIMIT
    requires target <= |sorted| && WalkStopsAt(values, target, i)
    ensures |sorted| > 0
    ensures CloseAbove(sorted[if target == 0 then 0 else target - 1], UpperEdge(i))
  {
    WalkFindsRank(values, sorted, target, i);
    EdgeIsClose(sorted[if target == 0 then 0 else target - 1]);
  }

  /** `u` is close to the value of rank `target` (0 counting as 1) in the sorted list of `values`,
      provided that all of them are below 2^47. */
  ghost predicate RankClose(values: seq<u64>, target: nat, u: nat) {
    forall sorted: seq<u64> ::
      multiset(sorted) == multiset(values) && Sorted(sorted) && (forall k :: 0 <= k < |sorted| ==> sorted[k] < LIMIT)
      && target <= |sorted| ==>
        |sorted| > 0 && CloseAbove(sorted[if target == 0 then 0 else target - 1], u)
  }

  lemma WalkIsClose(values: seq<u64>, target: nat, i: nat)
    requires WalkStopsAt(values, target, i)
    ensures RankClose(values, target, UpperEdge(i))
  {
    hide WalkStopsAt, UpperEdge, CloseAbove;
    forall sorted: seq<u64> | multiset(sorted) == multiset(values) && Sorted(sorted)
        && (forall k :: 0 <= k < |sorted| ==> sorted[k] < LIMIT) && target <= |sorted|
      ensures |sorted| > 0 && CloseAbove(sorted[if target == 0 then 0 else target - 1], UpperEdge(i))
    {
      QuantileIsClose(values, sorted, target, i);
    }
  }

  // ---------------------------------------------------------------------------
  // The histogram
  // ---------------------------------------------------------------------------

  ghost function Sum(xs: seq<u64>): nat {
    if xs == [] then 0 else Sum(xs[..|xs| - 1]) + xs[|xs| - 1]
  }

  lemma {:induction false} SumConcat(xs: seq<u64>, ys: seq<u64>)
    ensures Sum(xs + ys) == Sum(xs) + Sum(ys)
  {
    if ys == [] {
      assert xs + ys == xs;
    } else {
      SumConcat(xs, ys[..|ys| - 1]);
      assert (xs + ys)[..|xs + ys| - 1] == xs + ys[..|ys| - 1];
    }
  }

  lemma AppendOne(xs: seq<u64>, v: u64)
    ensures Sum(xs + [v]) == Sum(xs) + v
    ensures forall i :: InBucket(xs + [v], i) == InBucket(xs, i) + if IndexFor(v) == i then 1 else 0
  {
    assert (xs + [v])[..|xs|] == xs;
  }

  const NO_MIN: u64 := 0xFFFF_FFFF_FFFF_FFFF

  /** `lo` and `hi` are the least and greatest of the values, or the initial extremes. */
  ghost predicate Extremes(xs: seq<u64>, lo: u64, hi: u64) {
    && (forall v :: v in xs ==> lo <= v <= hi)
    && if xs == [] then lo == NO_MIN && hi == 0 else lo in xs && hi in xs
  }

  lemma ExtremesConcat(xs: seq<u64>, lo: u64, hi: u64, ys: seq<u64>, lo': u64, hi': u64)
    requires Extremes(xs, lo, hi) && Extremes(ys, lo', hi')
    ensures Extremes(xs + ys, if lo' < lo then lo' else lo, if hi' > hi then hi' else hi)
  {
  }

  lemma OneValue(v: u64)
    ensures Extremes([v], v, v)
  {
  }

  lemma SumWraps(s: nat, t: nat)
    ensures Add64(s % TWO64, t % TWO64) == (s + t) % TWO64
  {
    WrapAdd(s, t % TWO64);
    WrapAdd(t, s);
  }

  class Histogram {
    const counts: array<nat>
    var total: nat
    var sum: u64
    var min: u64
    var max: u64
    ghost var values: seq<u64>  // everything recorded

    ghost predicate Valid()
      reads this, counts
    {
      && counts.Length == 40 * 256
      && (forall i :: 0 <= i < counts.Length ==> counts[i] == InBucket(values, i))
      && total == |values|
      && sum == Sum(values) % TWO64
      && Extremes(values, min, max)
    }

    constructor ()
      ensures Valid() && values == [] && fresh(counts)
    {
      counts := new nat[40 * 256](_ => 0);
      total, sum, min, max, values := 0, 0, NO_MIN, 0, [];
    }

    method Record(v: u64)
      requires Valid()
      modifies this, counts
      ensures Valid() && values == old(values) + [v]
    {
      hide Extremes, IndexFor, InBucket, Sum, Add64;
      IndexInRange(v);
      AppendOne(values, v);
      OneValue(v);
      ExtremesConcat(values, min, max, [v], v, v);
      SumWraps(Sum(values), v);
      var idx := IndexFor(v);
      counts[idx] := counts[idx] + 1;
      total := total + 1;
      sum := Add64(sum, v);
      min := if v < min then v else min;
      max := if v > max then v else max;
      values := values + [v];
    }

    method Reset()
      requires Valid()
      modifies this, counts
      ensures Valid() && values == []
    {
      forall i | 0 <= i < counts.Length {
        counts[i] := 0;
      }
      total, sum, min, max, values := 0, 0, NO_MIN, 0, [];
    }

    /** Merging is the same as recording the other's values; a histogram may merge with itself. */
    method Merge(other: Histogram)
      requires Valid() && other.Valid() && (other == this || other.counts != counts)
      modifies this, counts
      ensures Valid() && values == old(values) + old(other.values)
    {
      hide Extremes, InBucket, Sum;
      ghost var xs, ys := values, other.values;
      for i := 0 to counts.Length
        invariant forall k :: 0 <= k < i ==> counts[k] == InBucket(xs, k) + InBucket(ys, k)
        invariant forall k :: i <= k < counts.Length ==> counts[k] == InBucket(xs, k) && other.counts[k] == InBucket(ys, k)
        modifies counts
      {
        counts[i] := counts[i] + other.counts[i];
      }
      forall k
        ensures InBucket(xs + ys, k) == InBucket(xs, k) + InBucket(ys, k)
      {
        InBucketConcat(xs, ys, k);
      }
      SumConcat(xs, ys);
      SumWraps(Sum(xs), Sum(ys));
      hide Add64;
      var lo, hi := other.min, other.max;
      ExtremesConcat(xs, min, max, ys, lo, hi);
      total := total + other.total;
      sum := Add64(sum, other.sum);
      min := if lo < min then lo else min;
      max := if hi > max then hi else max;
      values := xs + ys;
    }

    /** The value at an integer rank: the upper edge of the bucket where the cumulative count gets there,
        and so close to the value of that rank in the sorted list. */
    method Quantile(target: nat) returns (u: u64)
      requires Valid()
      ensures values == [] ==> u == 0
      ensures |values| > 0 && target > |values| ==> u == max
      ensures |values| > 0 && target <= |values| ==> exists i :: WalkStopsAt(values, target, i) && u == UpperEdge(i)
      ensures |values| > 0 && target <= |values| ==> RankClose(values, target, u)
    {
      if total == 0 {
        return 0;
      }
      hide Extremes, InBucket, Sum, UpperEdge, RankClose;
      var cumulative := 0;
      BelowNext(values, 0);
      for i := 0 to counts.Length
        invariant cumulative == BelowBucket(values, i)
        invariant cumulative == 0 || cumulative < target
        invariant forall k :: 0 <= k < i ==> InBucket(values, k) == 0 || BelowBucket(values, k + 1) < target
      {
        BelowNext(values, i);
        cumulative := cumulative + counts[i];
        if cumulative >= target && counts[i] != 0 {
          EdgeBelowLimit(i);
          BelowBounded(values, i + 1);
          assert WalkStopsAt(values, target, i);
          WalkIsClose(values, target, i);
          return UpperEdge(i);
        }
      }
      BelowAll(values);
      return max;
    }
  }
}

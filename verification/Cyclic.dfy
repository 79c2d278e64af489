/** Positions on a ring of `n` slots. The program masks with `capacity - 1`, which for a
    power-of-two capacity is reduction modulo the capacity. */
module Cyclic {

  function Next(i: nat, n: nat): (r: nat)
    requires i < n
    ensures r < n
  {
    if i + 1 == n then 0 else i + 1
  }

  /** Steps forward from `a` to reach `b`. */
  function Dist(a: nat, b: nat, n: nat): (d: nat)
    requires a < n && b < n
    ensures d < n
  {
    if a <= b then b - a else b + n - a
  }

  /** The position `d` steps after `a`. */
  function Ahead(a: nat, d: nat, n: nat): (r: nat)
    requires a < n && d <= n
    ensures r < n
    ensures d < n ==> Dist(a, r, n) == d
    ensures d == n ==> r == a
  {
    if a + d < n then a + d else a + d - n
  }

  /** `x & (n - 1)` for a power of two `n`. */
  function Mask(x: int, n: nat): (i: nat)
    requires n > 0
    ensures i < n
  {
    x % n
  }

  lemma ModNext(i: nat, n: nat)
    requires i < n
    ensures Mask(i + 1, n) == Next(i, n)
  {
    if i + 1 < n {
      SmallMod(i + 1, n);
    }
  }

  lemma ModDist(a: nat, b: nat, n: nat)
    requires a < n && b < n
    ensures Mask(b - a, n) == Dist(a, b, n)
  {
    ModUnique(b - a, n, if a <= b then 0 else -1, Dist(a, b, n));
  }

  lemma SmallMod(x: nat, n: nat)
    requires x < n
    ensures x % n == x
  {
    ModUnique(x, n, 0, x);
  }

  /** No multiple of `n` lies strictly between `-n` and `n` except zero. */
  lemma NoSmallMultiple(d: int, n: nat)
    requires 0 - n < d * n < n
    ensures d == 0
  {
    if d > 0 {
      MulAtLeast(d, n);
    } else if d < 0 {
      MulAtLeast(-d, n);
    }
  }

  lemma MulAtLeast(d: int, n: nat)
    requires d > 0
    ensures d * n >= n
  {
    assert d * n == (d - 1) * n + n;
  }

  lemma ModUnique(x: int, n: nat, q: int, r: nat)
    requires r < n && x == q * n + r
    ensures x % n == r
  {
    var d := x / n - q;
    assert x == (x / n) * n + x % n;
    assert d * n == (x / n) * n - q * n;
    NoSmallMultiple(d, n);
  }

  /** Two indices less than one lap apart fall on different slots. */
  lemma LapInjective(a: nat, b: nat, n: nat)
    requires a < b < a + n
    ensures Mask(a, n) != Mask(b, n)
  {
    var d := b / n - a / n;
    assert a == (a / n) * n + a % n;
    assert b == (b / n) * n + b % n;
    assert d * n == (b / n) * n - (a / n) * n;
    if d == 0 {
      assert d * n == 0;
    } else if 0 - n < d * n < n {
      NoSmallMultiple(d, n);
    }
  }

  /** One step on from a position with quotient `q` and rest `r`. */
  lemma ModStep(x: nat, n: nat, q: nat, r: nat)
    requires r < n && x == q * n + r
    ensures Mask(x + 1, n) == Next(r, n)
  {
    if r + 1 < n {
      ModUnique(x + 1, n, q, r + 1);
    } else {
      MulNext(q, n);
      ModUnique(x + 1, n, q + 1, 0);
    }
  }

  lemma MulNext(q: nat, n: nat)
    ensures (q + 1) * n == q * n + n
  {
  }

  lemma DivMod(x: nat, n: nat)
    requires n > 0
    ensures x == x / n * n + x % n
  {
  }

  /** Stepping on from `probe` steps after `home`, also beyond a full lap. */
  lemma WalkStep(home: nat, probe: nat, n: nat)
    requires home < n
    ensures Mask(Mask(home + probe, n) + 1, n) == Mask(home + probe + 1, n)
    ensures probe < n ==> Mask(home + probe, n) == Ahead(home, probe, n)
  {
    var q, r: nat := (home + probe) / n, Mask(home + probe, n);
    DivMod(home + probe, n);
    ModStep(home + probe, n, q, r);
    hide Mask;
    ModNext(r, n);
    if probe < n {
      FirstLap(home, probe, n);
    }
  }

  lemma FirstLap(home: nat, probe: nat, n: nat)
    requires home < n && probe < n
    ensures Mask(home + probe, n) == Ahead(home, probe, n)
  {
    ModUnique(home + probe, n, if home + probe < n then 0 else 1, Ahead(home, probe, n));
  }

  predicate IsPow2(n: nat)
    decreases n
  {
    n == 1 || (n > 1 && n % 2 == 0 && IsPow2(n / 2))
  }

  /** A power of two divides every larger one. */
  lemma {:induction false} Pow2Divides(a: nat, b: nat)
    requires IsPow2(a) && IsPow2(b) && a <= b
    ensures a > 0 && b == b / a * a
  {
    if a > 1 {
      var h, k := a / 2, b / 2;
      Pow2Divides(h, k);
      var q := k / h;
      assert b == q * a + 0;
      DivUnique(b, a, q);
    }
  }

  lemma DivUnique(x: int, n: nat, q: int)
    requires n > 0 && x == q * n
    ensures x / n == q
  {
    ModUnique(x, n, q, 0);
    var d := x / n - q;
    assert d * n == 0;
    NoSmallMultiple(d, n);
  }

  lemma {:induction false} Pow2Times(a: nat, b: nat)
    requires IsPow2(a) && IsPow2(b)
    ensures IsPow2(a * b)
  {
    if a > 1 {
      var h := a / 2;
      Pow2Times(h, b);
      assert a * b == 2 * (h * b);
      assert a * b / 2 == h * b;
    }
  }

  lemma Pow2Word()
    ensures IsPow2(0x1_0000_0000_0000_0000)
  {
    assert IsPow2(0x10);
    Pow2Times(0x10, 0x10);
    Pow2Times(0x100, 0x100);
    Pow2Times(0x1_0000, 0x1_0000);
    Pow2Times(0x1_0000_0000, 0x1_0000_0000);
  }

  /** Reducing modulo a multiple of `n` first makes no difference. */
  lemma MaskOfRest(x: nat, m: nat, n: nat, q: nat)
    requires n > 0 && m > 0 && m == q * n
    ensures Mask(x % m, n) == Mask(x, n)
  {
    var a, r := x / m, x % m;
    assert x == a * m + r;
    var b, i := r / n, r % n;
    assert r == b * n + i;
    assert a * m == (a * q) * n;
    assert x == (a * q + b) * n + i;
    ModUnique(x, n, a * q + b, i);
  }

  /** `std::bit_ceil`, started from a power of two that is not yet large enough. */
  function Doubled(v: nat, p: nat): (r: nat)
    requires 0 < p && IsPow2(p)
    ensures IsPow2(r) && v <= r
    ensures p < v ==> r < 2 * v
    decreases v - p
  {
    if v <= p then p else Doubled(v, 2 * p)
  }

  /** The smallest power of two that is at least `v`. */
  function BitCeil(v: nat): (r: nat)
    requires v > 0
    ensures IsPow2(r) && v <= r < 2 * v
  {
    Doubled(v, 1)
  }
}

/** Big-endian scalars in byte strings. */
module Bytes {
  import opened Words

  function Be16(v: u16): (r: seq<u8>)
    ensures |r| == 2
  {
    [v / 0x100, v % 0x100]
  }

  function Be24(v: nat): (r: seq<u8>)
    requires v < 0x100_0000
    ensures |r| == 3
  {
    [v / 0x1_0000, v / 0x100 % 0x100, v % 0x100]
  }

  function Be32(v: u32): (r: seq<u8>)
    ensures |r| == 4
  {
    [v / 0x100_0000, v / 0x1_0000 % 0x100, v / 0x100 % 0x100, v % 0x100]
  }

  function Be64(v: u64): (r: seq<u8>)
    ensures |r| == 8
  {
    Be32(v / 0x1_0000_0000) + Be32(v % 0x1_0000_0000)
  }

  function Load16(b: seq<u8>, at: nat): (v: u16)
    requires at + 2 <= |b|
  {
    b[at] as int * 0x100 + b[at + 1] as int
  }

  function Load24(b: seq<u8>, at: nat): (v: nat)
    requires at + 3 <= |b|
    ensures v < 0x100_0000
  {
    b[at] as int * 0x1_0000 + b[at + 1] as int * 0x100 + b[at + 2] as int
  }

  function Load32(b: seq<u8>, at: nat): (v: u32)
    requires at + 4 <= |b|
  {
    b[at] as int * 0x100_0000 + b[at + 1] as int * 0x1_0000 + b[at + 2] as int * 0x100 + b[at + 3] as int
  }

  function Load64(b: seq<u8>, at: nat): (v: u64)
    requires at + 8 <= |b|
  {
    Load32(b, at) as int * 0x1_0000_0000 + Load32(b, at + 4) as int
  }

  lemma Split16(v: u16)
    ensures v / 0x100 * 0x100 + v % 0x100 == v
  {
  }

  lemma Split24(v: nat)
    requires v < 0x100_0000
    ensures v / 0x1_0000 * 0x1_0000 + v / 0x100 % 0x100 * 0x100 + v % 0x100 == v
  {
    var h := v / 0x100;
    assert h / 0x100 == v / 0x1_0000;
    assert h == h / 0x100 * 0x100 + h % 0x100;
    assert v == h * 0x100 + v % 0x100;
  }

  lemma Split32(v: u32)
    ensures v / 0x100_0000 * 0x100_0000 + v / 0x1_0000 % 0x100 * 0x1_0000 + v / 0x100 % 0x100 * 0x100 + v % 0x100 == v
  {
    var h := v / 0x100;
    assert h / 0x1_0000 == v / 0x100_0000 && h / 0x100 == v / 0x1_0000;
    Split24(h);
    assert v == h * 0x100 + v % 0x100;
  }

  /** What is loaded from a buffer at the place of a scalar is that scalar. */
  lemma LoadBe16(b: seq<u8>, at: nat, v: u16)
    requires at + 2 <= |b| && b[at..at + 2] == Be16(v)
    ensures Load16(b, at) == v
  {
    var w := b[at..at + 2];
    assert w[0] == b[at] && w[1] == b[at + 1];
    Split16(v);
  }

  lemma LoadBe24(b: seq<u8>, at: nat, v: nat)
    requires v < 0x100_0000 && at + 3 <= |b| && b[at..at + 3] == Be24(v)
    ensures Load24(b, at) == v
  {
    var w := b[at..at + 3];
    assert w[0] == b[at] && w[1] == b[at + 1] && w[2] == b[at + 2];
    Split24(v);
  }

  lemma LoadBe32(b: seq<u8>, at: nat, v: u32)
    requires at + 4 <= |b| && b[at..at + 4] == Be32(v)
    ensures Load32(b, at) == v
  {
    var w := b[at..at + 4];
    assert w[0] == b[at] && w[1] == b[at + 1] && w[2] == b[at + 2] && w[3] == b[at + 3];
    Split32(v);
  }

  lemma LoadBe64(b: seq<u8>, at: nat, v: u64)
    requires at + 8 <= |b| && b[at..at + 8] == Be64(v)
    ensures Load64(b, at) == v
  {
    var w := b[at..at + 8];
    assert w[..4] == Be32(v / 0x1_0000_0000) && w[4..] == Be32(v % 0x1_0000_0000);
    assert b[at..at + 4] == w[..4] && b[at + 4..at + 8] == w[4..];
    LoadBe32(b, at, v / 0x1_0000_0000);
    LoadBe32(b, at + 4, v % 0x1_0000_0000);
  }

  function Zeros(n: nat): (r: seq<u8>)
    ensures |r| == n
  {
    seq(n, _ => 0)
  }

  /** The number that a byte string denotes, most significant byte first. */
  function Number(b: seq<u8>): nat {
    if b == [] then 0 else 0x100 * Number(b[..|b| - 1]) + b[|b| - 1]
  }

  lemma NumberMore(b: seq<u8>, x: u8)
    ensures Number(b + [x]) == 0x100 * Number(b) + x
  {
    assert (b + [x])[..|b|] == b;
  }

  lemma NumberOf2(b: seq<u8>, at: nat)
    requires at + 2 <= |b|
    ensures Number(b[at..at + 2]) == b[at] as int * 0x100 + b[at + 1] as int
  {
    assert b[at..at + 2] == [] + [b[at]] + [b[at + 1]];
    NumberMore([], b[at]);
    NumberMore([] + [b[at]], b[at + 1]);
  }

  lemma NumberNext(b: seq<u8>, at: nat, n: nat)
    requires at + n < |b|
    ensures Number(b[at..at + n + 1]) == 0x100 * Number(b[at..at + n]) + b[at + n]
  {
    assert b[at..at + n + 1] == b[at..at + n] + [b[at + n]];
    NumberMore(b[at..at + n], b[at + n]);
  }

  /** Every load reads the number that stands at its place. */
  lemma LoadIsNumber(b: seq<u8>, at: nat)
    ensures at + 2 <= |b| ==> Load16(b, at) == Number(b[at..at + 2])
    ensures at + 3 <= |b| ==> Load24(b, at) == Number(b[at..at + 3])
    ensures at + 4 <= |b| ==> Load32(b, at) == Number(b[at..at + 4])
  {
    if at + 2 <= |b| {
      NumberOf2(b, at);
    }
    if at + 3 <= |b| {
      NumberNext(b, at, 2);
    }
    if at + 4 <= |b| {
      NumberNext(b, at, 3);
    }
  }

  lemma Load64IsNumber(b: seq<u8>, at: nat)
    requires at + 8 <= |b|
    ensures Load64(b, at) == Number(b[at..at + 8])
  {
    hide Number;
    LoadIsNumber(b, at);
    NumberNext(b, at, 4);
    NumberNext(b, at, 5);
    NumberNext(b, at, 6);
    NumberNext(b, at, 7);
  }
}

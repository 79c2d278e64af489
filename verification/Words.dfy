/** Fixed-width unsigned integers as the program uses them, with the wrap-around written out. */
module Words {

  const TWO32: int := 0x1_0000_0000
  const TWO64: int := 0x1_0000_0000_0000_0000

  type u8 = x: int | 0 <= x < 0x100
  type u16 = x: int | 0 <= x < 0x1_0000
  type u32 = x: int | 0 <= x < 0x1_0000_0000
  type u64 = x: int | 0 <= x < 0x1_0000_0000_0000_0000

  /** `a + b` on uint64_t. */
  function Add64(a: u64, b: u64): u64 {
    (a + b) % TWO64
  }

  /** `a - b` on uint64_t. */
  function Sub64(a: u64, b: u64): u64 {
    (a - b) % TWO64
  }

  /** Wrapping early or late makes no difference. */
  lemma WrapAdd(a: nat, b: nat)
    ensures (a % TWO64 + b) % TWO64 == (a + b) % TWO64
  {
    var q, r := a / TWO64, a % TWO64;
    assert a + b == r + b + TWO64 * q;
  }

  lemma SmallWrap(x: nat)
    requires x < TWO64
    ensures x % TWO64 == x
  {
  }

  datatype Option<+T> = None | Some(value: T)
}

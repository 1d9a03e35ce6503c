/** Small value types and C integer operations shared by every module of the gateway model. */
module Base {

  /** The conventional Some/None datatype, standing in for a nullable pointer. */
  datatype Option<+T> = None | Some(value: T)

  /** A C `uint8_t`. */
  type Byte = b: int | 0 <= b < 0x100

  /** A C `uint16_t`. */
  type Uint16 = x: int | 0 <= x < 0x1_0000

  /** The largest value of a C `int` on the target (32 bits). */
  const INT_MAX: int := 0x7FFF_FFFF
  const INT_MIN: int := -0x8000_0000

  /** The `MIN(a, b)` macro of the firmware. */
  function Min(a: int, b: int): int
  {
    if a < b then a else b
  }

  /** Conversion of any integer to `uint8_t` (C keeps the value modulo 256). */
  function ToByte(x: int): (b: Byte)
  {
    x % 0x100
  }

  function Pow2(k: nat): (p: nat)
    ensures p >= 1
  {
    if k == 0 then 1 else 2 * Pow2(k - 1)
  }

  /** The C operator `|` on non-negative integers, one bit at a time. */
  function BitOr(a: nat, b: nat): nat
  {
    if a == 0 then b
    else if b == 0 then a
    else 2 * BitOr(a / 2, b / 2) + (if a % 2 == 1 || b % 2 == 1 then 1 else 0)
  }

  /** OR-ing a value below `2^k` into a multiple of `2^k` is addition: the bits do not overlap. */
  lemma {:induction false} BitOrDisjoint(h: nat, l: nat, k: nat)
    requires l < Pow2(k)
    ensures BitOr(h * Pow2(k), l) == h * Pow2(k) + l
  {
    if k == 0 {
      assert l == 0;
    } else if h != 0 && l != 0 {
      var a := h * Pow2(k);
      assert a == 2 * (h * Pow2(k - 1));
      assert a / 2 == h * Pow2(k - 1) && a % 2 == 0;
      BitOrDisjoint(h, l / 2, k - 1);
    }
  }
}

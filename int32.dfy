/** Arithmetic on C# `int` values: 32-bit two's complement, unchecked. */
module Int32 {
  const IntMin: int := -0x8000_0000
  const IntMax: int := 0x7FFF_FFFF
  const Modulus: int := 0x1_0000_0000

  predicate IsInt32(x: int) {
    IntMin <= x <= IntMax
  }

  /** The values a C# `int` holds. */
  type CsInt = x: int | IsInt32(x)

  /** The exact results one addition or subtraction of two `int`s can have. */
  predicate IsSumOfInt32(x: int) {
    -Modulus <= x < Modulus
  }

  /** The value an unchecked C# `int` addition or subtraction yields for the exact result `x`:
      the one `int` that differs from `x` by a multiple of 2^32. */
  function Wrap(x: int): (r: int)
    requires IsSumOfInt32(x)
    ensures IsInt32(r)
    ensures r == x - Modulus || r == x || r == x + Modulus
  {
    if x < IntMin then x + Modulus else if x > IntMax then x - Modulus else x
  }

  /** Only one `int` is congruent to `x`, so any such value is the wrapped one. */
  lemma WrapUnique(x: int, r: int)
    requires IsSumOfInt32(x) && IsInt32(r)
    requires r == x - Modulus || r == x || r == x + Modulus
    ensures r == Wrap(x)
  {
  }

  /** A result that fits is left as it is. */
  lemma WrapFits(x: int)
    requires IsInt32(x)
    ensures Wrap(x) == x
  {
  }

  /** Wrapping the operands of a subtraction first does not change the wrapped difference. */
  lemma WrapSubtraction(a: int, b: int)
    requires IsSumOfInt32(a) && IsSumOfInt32(b) && IsSumOfInt32(a - b)
    ensures Wrap(Wrap(a) - Wrap(b)) == Wrap(a - b)
  {
  }
}

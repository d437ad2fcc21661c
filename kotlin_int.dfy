/**
 * Kotlin `Int` arithmetic: 32-bit two's complement with silent wrap-around,
 * `kotlin.math.abs` (which returns MIN_VALUE for MIN_VALUE) and integer
 * division that truncates toward zero.
 */
module KotlinInt {

  const MinValue: int := -0x8000_0000
  const MaxValue: int := 0x7FFF_FFFF
  const Modulus: int := 0x1_0000_0000

  /** A value of Kotlin's `Int`. */
  type Int32 = x: int | MinValue <= x <= MaxValue

  /**
   * The `Int` with the same low 32 bits as `x`, for `x` within one turn of the
   * `Int` range, which covers the sum or difference of two `Int`s.
   */
  function Wrap(x: int): (r: Int32)
    requires MinValue - Modulus <= x <= MaxValue + Modulus
    ensures MinValue <= x <= MaxValue ==> r == x
    ensures r == x || r == x - Modulus || r == x + Modulus
  {
    if x > MaxValue then x - Modulus
    else if x < MinValue then x + Modulus
    else x
  }

  /** `a + b` on `Int`. */
  function Add(a: Int32, b: Int32): Int32 {
    Wrap(a + b)
  }

  /** `a - b` on `Int`. */
  function Sub(a: Int32, b: Int32): Int32 {
    Wrap(a - b)
  }

  /** Unary `-a` on `Int`: every value but MIN_VALUE, which is its own negation. */
  function Neg(a: Int32): Int32 {
    Wrap(-(a as int))
  }

  /** `kotlin.math.abs(a)` on `Int`: `if (a < 0) -a else a`, so abs(MIN_VALUE) is MIN_VALUE. */
  function Abs(a: Int32): Int32 {
    if a < 0 then Neg(a) else a
  }

  /** `a / 2` on `Int`, truncating toward zero. */
  function Half(a: Int32): Int32 {
    if a >= 0 then a / 2 else -((-(a as int)) / 2)
  }

  /** Subtracting then adding the same `Int` gives back the start value, overflow or not. */
  lemma SubThenAdd(start: Int32, target: Int32)
    ensures Add(start, Sub(target, start)) == target
  {
  }

  /** `Sub(0, a)` and `Neg(a)` agree: the two ways the source writes "minus scrollY". */
  lemma NegIsSubFromZero(a: Int32)
    ensures Neg(a) == Sub(0, a)
    ensures Neg(MinValue) == MinValue
  {
  }

  /** `abs(a) > 0` holds exactly for the `Int`s other than 0 and MIN_VALUE. */
  lemma AbsPositive(a: Int32)
    ensures Abs(a) > 0 <==> a != 0 && a != MinValue
  {
  }

  /** Without overflow, `Half` is the mathematical half of a non-negative value, rounded down. */
  lemma HalfOfNonNegative(a: Int32)
    requires a >= 0
    ensures Half(a) == a / 2 && 2 * Half(a) <= a <= 2 * Half(a) + 1
  {
  }
}

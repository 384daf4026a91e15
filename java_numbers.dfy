/**
 * Java's 32-bit `int` arithmetic and the casts and comparisons between
 * `double` and `int` that the comparators use. A `double` is an exact real
 * here; NaN, infinities and rounding are not represented.
 */
module JavaNumbers {

  const MinInt: int := -0x8000_0000
  const MaxInt: int := 0x7FFF_FFFF
  const TwoPow32: int := 0x1_0000_0000

  predicate IsInt(x: int) {
    MinInt <= x <= MaxInt
  }

  /** Drops the fraction, rounding toward zero. */
  function Truncate(x: real): (r: int)
    ensures 0.0 <= x ==> r as real <= x < r as real + 1.0
    ensures x < 0.0 ==> r as real - 1.0 < x <= r as real
  {
    if x >= 0.0 then x.Floor else -((-x).Floor)
  }

  /** `(int) x`: the fraction is dropped and values outside the int range saturate. */
  function DoubleToInt(x: real): (r: int)
    ensures IsInt(r)
    ensures IsInt(Truncate(x)) ==> r == Truncate(x)
    ensures Truncate(x) > MaxInt ==> r == MaxInt
    ensures Truncate(x) < MinInt ==> r == MinInt
  {
    var t := Truncate(x);
    if t > MaxInt then MaxInt else if t < MinInt then MinInt else t
  }

  /** The int that a 32-bit two's-complement operation yields for the exact result `x`. */
  function Wrap(x: int): (r: int)
    ensures IsInt(r)
    ensures (x - r) % TwoPow32 == 0
    ensures IsInt(x) ==> r == x
  {
    (x - MinInt) % TwoPow32 + MinInt
  }

  /** `Double.compare(a, b)` on numbers: -1, 0 or 1 as `a` is below, equal to or above `b`. */
  function CompareDouble(a: real, b: real): (r: int)
    ensures r == -1 || r == 0 || r == 1
    ensures r < 0 <==> a < b
    ensures r == 0 <==> a == b
  {
    if a < b then -1 else if a > b then 1 else 0
  }

  /** `Integer.compare(a, b)`. */
  function CompareInt(a: int, b: int): (r: int)
    ensures r == -1 || r == 0 || r == 1
    ensures r < 0 <==> a < b
    ensures r == 0 <==> a == b
  {
    if a < b then -1 else if a == b then 0 else 1
  }

  /** Two ints that are congruent modulo 2^32 are the same int. */
  lemma CongruentInts(a: int, b: int)
    requires IsInt(a) && IsInt(b)
    requires (a - b) % TwoPow32 == 0
    ensures a == b
  {
    assert -TwoPow32 < a - b < TwoPow32;
  }
}

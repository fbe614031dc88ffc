/**
 * The two pieces of Java arithmetic the services use besides RoundingUtils:
 * Math.round(double), which rounds half toward positive infinity, and the
 * (int) narrowing of its long result, which keeps the low 32 bits.
 */
module JavaMath {

  const TWO_31: int := 0x8000_0000
  const TWO_32: int := 0x1_0000_0000

  predicate IsWhole(v: real) { v.Floor as real == v }

  /** Math.round(v): the nearest integer, a tie going toward positive infinity. */
  function MathRound(v: real): (n: int)
    ensures v - 0.5 < n as real <= v + 0.5
  {
    (v + 0.5).Floor
  }

  /** The nearest-integer property determines the result. */
  lemma MathRoundUnique(v: real, m: int)
    requires v - 0.5 < m as real <= v + 0.5
    ensures m == MathRound(v)
  {
  }

  /** A whole number is its own rounding. */
  lemma MathRoundWhole(n: int)
    ensures MathRound(n as real) == n
  {
  }

  /** Math.round of a non-negative value never goes below zero. */
  lemma MathRoundNonNegative(v: real)
    requires v >= 0.0
    ensures MathRound(v) >= 0
  {
  }

  /** Math.round is monotone. */
  lemma MathRoundMonotone(v: real, w: real)
    requires v <= w
    ensures MathRound(v) <= MathRound(w)
  {
  }

  /** (int) of a long: the value modulo 2^32, read as a signed 32-bit integer. */
  function ToInt(n: int): (r: int)
    ensures -TWO_31 <= r < TWO_31
    ensures (r - n) % TWO_32 == 0
    ensures -TWO_31 <= n < TWO_31 ==> r == n
  {
    (n + TWO_31) % TWO_32 - TWO_31
  }

  /** (int) Math.round(v) as the services write it. */
  function JavaIntRound(v: real): (r: int)
    ensures -TWO_31 <= r < TWO_31
  {
    ToInt(MathRound(v))
  }

  /** Below 2^31 - 1/2 the narrowing does not wrap. */
  lemma JavaIntRoundInRange(v: real)
    requires -(TWO_31 as real) - 0.5 <= v < TWO_31 as real - 0.5
    ensures JavaIntRound(v) == MathRound(v)
  {
  }

  /** A witness beside JavaIntRoundInRange: past that range the narrowing wraps, here to a negative int. */
  lemma JavaIntRoundWraps()
    ensures JavaIntRound(3000000000.0) == 3000000000 - TWO_32
  {
  }
}

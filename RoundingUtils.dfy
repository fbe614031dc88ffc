/**
 * RoundingUtils: the system's one rounding convention, BigDecimal's HALF_UP
 * at a given number of decimals (a tie moves away from zero), and the
 * function values that wrap it for use in streams.
 */
module RoundingUtils {
  import JavaMath

  function Abs(v: real): (r: real)
    ensures r >= 0.0 && (r == v || r == -v)
  {
    if v < 0.0 then -v else v
  }

  function Pow10(n: nat): (r: nat)
    ensures r >= 1
  {
    if n == 0 then 1 else 10 * Pow10(n - 1)
  }

  /** 10^d as a real; a negative scale rounds to tens, hundreds, ... */
  function Scale(d: int): (s: real)
    ensures s > 0.0
  {
    if d >= 0 then Pow10(d) as real else 1.0 / (Pow10(-d) as real)
  }

  /** The number of units of 10^-d that HALF_UP keeps of |v|. */
  function Units(v: real, d: int): (n: int)
    ensures n >= 0
    ensures Abs(v) * Scale(d) - 0.5 < n as real <= Abs(v) * Scale(d) + 0.5
  {
    (Abs(v) * Scale(d) + 0.5).Floor
  }

  /** round(v, decimals): BigDecimal.valueOf(v).setScale(decimals, HALF_UP). */
  function Round(v: real, d: int): real {
    var n := Units(v, d);
    if v < 0.0 then -((n as real) / Scale(d)) else (n as real) / Scale(d)
  }

  /** oneDecimal(v) = round(v, 1): within 0.05 of v, and a whole number of tenths. */
  function OneDecimal(v: real): (r: real)
    ensures Abs(r - v) <= 0.05
    ensures JavaMath.IsWhole(r * 10.0)
  {
    RoundBound(v, 1);
    RoundHasDecimals(v, 1);
    Round(v, 1)
  }

  /** toInteger(v) = round(v, 0): within 0.5 of v, and whole. */
  function ToInteger(v: real): (r: real)
    ensures Abs(r - v) <= 0.5
    ensures JavaMath.IsWhole(r)
  {
    RoundBound(v, 0);
    RoundHasDecimals(v, 0);
    Round(v, 0)
  }

  /** roundFn(decimals): a function value every result of which is v rounded at that scale. */
  function RoundFn(d: int): (f: real -> real)
    ensures forall v :: WithinHalfUnit(f(v), v, d) && HasDecimals(f(v), d)
  {
    RoundAll(d);
    v => Round(v, d)
  }

  /** r is at most half a unit of 10^-d away from v. */
  predicate WithinHalfUnit(r: real, v: real, d: int) {
    Abs(r - v) <= 0.5 / Scale(d)
  }

  /** r has at most d decimals. */
  predicate HasDecimals(r: real, d: int) {
    JavaMath.IsWhole(r * Scale(d))
  }

  /** oneDecimalFn(): agrees with oneDecimal at every argument. */
  function OneDecimalFn(): (f: real -> real)
    ensures forall v :: f(v) == OneDecimal(v)
  {
    RoundFn(1)
  }

  /** integerFn(): agrees with toInteger at every argument. */
  function IntegerFn(): (f: real -> real)
    ensures forall v :: f(v) == ToInteger(v)
  {
    RoundFn(0)
  }

  // ---------------------------------------------------------------------
  // Properties of round

  lemma RoundAll(d: int)
    ensures forall v :: WithinHalfUnit(Round(v, d), v, d) && HasDecimals(Round(v, d), d)
  {
    forall v ensures WithinHalfUnit(Round(v, d), v, d) && HasDecimals(Round(v, d), d) {
      RoundBound(v, d);
      RoundHasDecimals(v, d);
    }
  }

  /** |round(v, d)| is the count of units over the scale, with the sign of v. */
  lemma RoundMagnitude(v: real, d: int)
    ensures Abs(Round(v, d)) == (Units(v, d) as real) / Scale(d)
    ensures Round(v, d) * Scale(d) == (if v < 0.0 then -(Units(v, d) as real) else Units(v, d) as real)
  {
    var s, n := Scale(d), Units(v, d) as real;
    assert n / s >= 0.0;
    assert (n / s) * s == n;
  }

  /** The result has at most d decimals: it is a whole number of units of 10^-d. */
  lemma RoundHasDecimals(v: real, d: int)
    ensures JavaMath.IsWhole(Round(v, d) * Scale(d))
  {
    RoundMagnitude(v, d);
    var m := if v < 0.0 then -Units(v, d) else Units(v, d);
    assert Round(v, d) * Scale(d) == m as real;
    assert (m as real).Floor == m;
  }

  /** The rounding error is at most half a unit of the last kept decimal. */
  lemma RoundBound(v: real, d: int)
    ensures Abs(Round(v, d) - v) <= 0.5 / Scale(d)
  {
    UnitsBound(v, Scale(d), Units(v, d) as real);
  }

  /** n units of 1/s, within half a unit of |v| * s, give back v to within 0.5 / s. */
  lemma UnitsBound(v: real, s: real, n: real)
    requires s > 0.0 && -0.5 <= n - Abs(v) * s <= 0.5
    ensures Abs((if v < 0.0 then -(n / s) else n / s) - v) <= 0.5 / s
  {
    var x := Abs(v) * s;
    var e := n / s - Abs(v);
    assert x / s == Abs(v);
    assert e == (n - x) / s by { DivideDifference(n, x, s); }
    assert -(0.5 / s) <= e <= 0.5 / s by { DivideBound(n - x, s); }
  }

  lemma DivideDifference(n: real, x: real, s: real)
    requires s > 0.0
    ensures n / s - x / s == (n - x) / s
  {
  }

  lemma DivideBound(e: real, s: real)
    requires s > 0.0 && -0.5 <= e <= 0.5
    ensures -(0.5 / s) <= e / s <= 0.5 / s
  {
    assert e / s - 0.5 / s == (e - 0.5) / s;
    assert e / s + 0.5 / s == (e + 0.5) / s;
  }

  /** HALF_UP: an exact tie between two units moves away from zero. */
  lemma RoundTieAwayFromZero(v: real, d: int, k: nat)
    requires Abs(v) * Scale(d) == k as real + 0.5
    ensures Units(v, d) == k + 1
    ensures Round(v, d) == (if v < 0.0 then -((k + 1) as real / Scale(d)) else (k + 1) as real / Scale(d))
  {
  }

  /** Rounding twice is rounding once. */
  lemma RoundIdempotent(v: real, d: int)
    ensures Round(Round(v, d), d) == Round(v, d)
  {
    var s, r := Scale(d), Round(v, d);
    var n := Units(v, d);
    assert Abs(r) == (n as real) / s by { RoundMagnitude(v, d); }
    assert Abs(r) * s == n as real by { DivideThenMultiply(n as real, s); }
    assert Units(r, d) == n by { UnitsOfWhole(r, d, n); }
    if n == 0 {
      assert r == 0.0;
    } else if v < 0.0 {
      assert r < 0.0;
    } else {
      assert r > 0.0;
    }
  }

  lemma DivideThenMultiply(a: real, s: real)
    requires s > 0.0
    ensures (a / s) * s == a
  {
  }

  /** A value that is a whole number n of units keeps n units. */
  lemma UnitsOfWhole(r: real, d: int, n: nat)
    requires Abs(r) * Scale(d) == n as real
    ensures Units(r, d) == n
  {
    assert (n as real + 0.5).Floor == n;
  }

  /** round is symmetric about zero. */
  lemma RoundNegate(v: real, d: int)
    ensures Round(-v, d) == -Round(v, d)
  {
    assert Abs(-v) == Abs(v);
    assert Units(-v, d) == Units(v, d);
    if Units(v, d) == 0 {
      assert (0 as real) / Scale(d) == 0.0;
    }
  }

  /** round keeps the sign: a non-negative value rounds to a non-negative one. */
  lemma RoundNonNegative(v: real, d: int)
    requires v >= 0.0
    ensures Round(v, d) >= 0.0
  {
  }

  /** Math.round and toInteger agree on every non-negative value (they differ only on negative ties). */
  lemma MathRoundIsHalfUpOnNonNegatives(v: real)
    requires v >= 0.0
    ensures JavaMath.MathRound(v) as real == ToInteger(v)
  {
    assert Scale(0) == 1.0;
    assert Abs(v) * Scale(0) == v;
  }

  /** On a negative tie the two roundings differ: Math.round(-2.5) = -2, round(-2.5, 0) = -3. */
  lemma MathRoundDiffersOnNegativeTie()
    ensures JavaMath.MathRound(-2.5) == -2
    ensures ToInteger(-2.5) == -3.0
  {
    assert Scale(0) == 1.0;
    RoundTieAwayFromZero(-2.5, 0, 2);
  }
}

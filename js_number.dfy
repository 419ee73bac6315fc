/**
 * JavaScript number values, as far as the emergency rules use them.
 *
 * A finite number is an exact real: rounding of doubles and overflow of a
 * finite product to Infinity are not modelled. NaN and the two infinities are
 * kept, because the rules treat them differently (every comparison with NaN
 * is false, while Infinity compares above every threshold).
 */
module JsNumber {

  datatype Number = Finite(r: real) | NaN | Infinity | NegInfinity

  /** `n <= bound`; false when n is NaN. */
  predicate AtMost(n: Number, bound: real)
    ensures AtMost(n, bound) ==> !n.NaN? && !n.Infinity?
    ensures n.NegInfinity? ==> AtMost(n, bound)
  {
    match n
    case Finite(r) => r <= bound
    case NaN => false
    case Infinity => false
    case NegInfinity => true
  }

  /** `n >= bound`; false when n is NaN. */
  predicate AtLeast(n: Number, bound: real)
    ensures AtLeast(n, bound) ==> !n.NaN? && !n.NegInfinity?
    ensures n.Infinity? ==> AtLeast(n, bound)
  {
    match n
    case Finite(r) => r >= bound
    case NaN => false
    case Infinity => true
    case NegInfinity => false
  }

  /** The sign of a number that is not NaN (the sign of zero is 0). */
  function Sign(n: Number): int
    requires !n.NaN?
  {
    match n
    case Finite(r) => if r > 0.0 then 1 else if r < 0.0 then -1 else 0
    case Infinity => 1
    case NegInfinity => -1
  }

  /** `a * b`: NaN if either is NaN or an infinity meets zero, otherwise signed. */
  function Times(a: Number, b: Number): (p: Number)
    ensures a.Finite? && b.Finite? ==> p == Finite(a.r * b.r)
    ensures a.NaN? || b.NaN? ==> p.NaN?
    ensures a == b && !a.NaN? ==> p.Infinity? || (p.Finite? && p.r >= 0.0)
  {
    if a.NaN? || b.NaN? then NaN
    else if a.Finite? && b.Finite? then Finite(a.r * b.r)
    else if Sign(a) == 0 || Sign(b) == 0 then NaN
    else if Sign(a) == Sign(b) then Infinity
    else NegInfinity
  }

  /** `a + b`: NaN if either is NaN or the infinities have opposite signs. */
  function Plus(a: Number, b: Number): (s: Number)
    ensures a.Finite? && b.Finite? ==> s == Finite(a.r + b.r)
    ensures a.NaN? || b.NaN? ==> s.NaN?
  {
    if a.NaN? || b.NaN? then NaN
    else if a.Finite? && b.Finite? then Finite(a.r + b.r)
    else if a.Finite? then b
    else if b.Finite? then a
    else if a == b then a
    else NaN
  }

  /**
   * `Math.sqrt(n) > bound` for a non-negative bound. The square root of a
   * negative number, of -Infinity and of NaN is NaN, which compares false;
   * the square root of Infinity is Infinity. For a finite n >= 0 the test is
   * done on squares: see SqrtComparison.
   */
  predicate SqrtExceeds(n: Number, bound: real)
    requires 0.0 <= bound
    ensures SqrtExceeds(n, bound) ==> n.Infinity? || (n.Finite? && n.r > bound * bound && n.r >= 0.0)
    ensures n.Infinity? ==> SqrtExceeds(n, bound)
  {
    match n
    case Finite(r) => r > bound * bound
    case NaN => false
    case Infinity => true
    case NegInfinity => false
  }

  /** Squaring is strictly increasing on the non-negative reals. */
  lemma SquareStrictlyIncreasing(lo: real, hi: real)
    requires 0.0 <= lo < hi
    ensures lo * lo < hi * hi
  {
    var d := hi - lo;
    assert d > 0.0;
    assert hi * hi == lo * lo + (2.0 * lo + d) * d;
    assert (2.0 * lo + d) * d > 0.0;
  }

  /**
   * Justifies SqrtExceeds: if m is the square root of r (m >= 0, m * m == r),
   * then `m > bound` holds exactly when `r > bound * bound`.
   */
  lemma SqrtComparison(m: real, bound: real)
    requires 0.0 <= m && 0.0 <= bound
    ensures SqrtExceeds(Finite(m * m), bound) <==> m > bound
  {
    if m > bound {
      SquareStrictlyIncreasing(bound, m);
    } else if m < bound {
      SquareStrictlyIncreasing(m, bound);
    }
  }
}

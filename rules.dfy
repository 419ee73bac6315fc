/**
 * The ordered emergency rules of checkForEmergency (index.js:149-181):
 * bradycardia, then tachycardia, then a possible fall; the first rule that
 * fires decides the outcome and the later ones are not evaluated.
 */
module Rules {
  import opened Wrappers
  import opened JsNumber
  import opened Readings

  /** Bradycardia fires at or below this heart rate (index.js:154). */
  const BradycardiaLimit: real := 40.0
  /** Tachycardia fires at or above this heart rate (index.js:159). */
  const TachycardiaLimit: real := 180.0
  /** A fall fires above this acceleration magnitude (index.js:174). */
  const FallLimit: real := 18.0

  datatype Rule = Bradycardia | Tachycardia | Fall

  /** Why an emergency was raised; a fall carries the squared magnitude. */
  datatype Reason = LowHeartRate(hr: Number) | HighHeartRate(hr: Number) | PossibleFall(magnitudeSquared: Number)
  {
    function Rule(): Rule
    {
      match this
      case LowHeartRate(_) => Bradycardia
      case HighHeartRate(_) => Tachycardia
      case PossibleFall(_) => Fall
    }
  }

  /** The outcome of one evaluation: at most one emergency. */
  datatype Verdict = NoEmergency | Emergency(reason: Reason)

  /** The rules in the order they are tried. */
  const RuleOrder: seq<Rule> := [Bradycardia, Tachycardia, Fall]

  /** Position of a rule in RuleOrder. */
  function Rank(rule: Rule): nat
  {
    match rule
    case Bradycardia => 0
    case Tachycardia => 1
    case Fall => 2
  }

  /** Rank and RuleOrder agree: a rule's rank is its index in the order. */
  lemma RankIsPosition()
    ensures |RuleOrder| == 3
    ensures forall i :: 0 <= i < |RuleOrder| ==> Rank(RuleOrder[i]) == i
  {
  }

  /** `ax * ax + ay * ay + az * az` in JavaScript arithmetic. */
  function SumOfSquares(x: Number, y: Number, z: Number): (sum: Number)
    ensures x.Finite? && y.Finite? && z.Finite? ==> sum == Finite(x.r * x.r + y.r * y.r + z.r * z.r)
    ensures x.NaN? || y.NaN? || z.NaN? ==> sum.NaN?
    ensures !x.NaN? && !y.NaN? && !z.NaN? ==> sum.Infinity? || (sum.Finite? && sum.r >= 0.0)
  {
    Plus(Plus(Times(x, x), Times(y, y)), Times(z, z))
  }

  /** What one rule says about a sample on its own, ignoring the others. */
  function Fires(rule: Rule, s: Sample): (r: Option<Reason>)
    ensures r.Some? ==> r.value.Rule() == rule
  {
    match rule
    case Bradycardia =>
      if s.heartRate.Some? && AtMost(s.heartRate.value, BradycardiaLimit)
      then Some(LowHeartRate(s.heartRate.value)) else None
    case Tachycardia =>
      if s.heartRate.Some? && AtLeast(s.heartRate.value, TachycardiaLimit)
      then Some(HighHeartRate(s.heartRate.value)) else None
    case Fall =>
      if s.ax.Some? && s.ay.Some? && s.az.Some?
         && SqrtExceeds(SumOfSquares(s.ax.value, s.ay.value, s.az.value), FallLimit)
      then Some(PossibleFall(SumOfSquares(s.ax.value, s.ay.value, s.az.value))) else None
  }

  /**
   * The decision of checkForEmergency: the chain of guarded early returns.
   * The verdict names a rule that fires, and every rule ahead of it in
   * RuleOrder does not; there is no emergency exactly when no rule fires.
   */
  function Evaluate(s: Sample): (v: Verdict)
    ensures v.Emergency? ==> Fires(v.reason.Rule(), s) == Some(v.reason)
    ensures v.Emergency? ==> forall rule :: Rank(rule) < Rank(v.reason.Rule()) ==> Fires(rule, s).None?
    ensures v.NoEmergency? <==> forall rule :: Fires(rule, s).None?
  {
    if Fires(Bradycardia, s).Some? then Emergency(Fires(Bradycardia, s).value)
    else if Fires(Tachycardia, s).Some? then Emergency(Fires(Tachycardia, s).value)
    else if Fires(Fall, s).Some? then Emergency(Fires(Fall, s).value)
    else NoEmergency
  }

  /** An ordered rule list run generically: the first rule that fires wins. */
  function FirstMatch(rules: seq<Rule>, s: Sample): Option<Reason>
  {
    if rules == [] then None
    else match Fires(rules[0], s)
      case Some(r) => Some(r)
      case None => FirstMatch(rules[1..], s)
  }

  /** FirstMatch returns the reason of the first firing rule, or None when none fires. */
  lemma {:induction false} FirstMatchIsFirst(rules: seq<Rule>, s: Sample)
    ensures FirstMatch(rules, s).None? <==> forall i :: 0 <= i < |rules| ==> Fires(rules[i], s).None?
    ensures FirstMatch(rules, s).Some? ==>
      exists i :: 0 <= i < |rules| && Fires(rules[i], s) == FirstMatch(rules, s)
              && forall j :: 0 <= j < i ==> Fires(rules[j], s).None?
  {
    if rules != [] && Fires(rules[0], s).None? {
      FirstMatchIsFirst(rules[1..], s);
      assert forall i :: 1 <= i < |rules| ==> rules[i] == rules[1..][i - 1];
      if FirstMatch(rules, s).Some? {
        var k :| 0 <= k < |rules[1..]| && Fires(rules[1..][k], s) == FirstMatch(rules[1..], s)
                 && forall j :: 0 <= j < k ==> Fires(rules[1..][j], s).None?;
        assert Fires(rules[k + 1], s) == FirstMatch(rules, s);
      }
    } else if rules != [] {
      assert Fires(rules[0], s) == FirstMatch(rules, s);
    }
  }

  /** The if-chain of checkForEmergency is the ordered rule list RuleOrder. */
  lemma EvaluateIsFirstMatch(s: Sample)
    ensures Evaluate(s) == (match FirstMatch(RuleOrder, s) case Some(r) => Emergency(r) case None => NoEmergency)
  {
    assert RuleOrder[0] == Bradycardia && RuleOrder[1..] == [Tachycardia, Fall];
    if Fires(Bradycardia, s).None? {
      assert FirstMatch(RuleOrder, s) == FirstMatch([Tachycardia, Fall], s);
      assert [Tachycardia, Fall][1..] == [Fall];
      if Fires(Tachycardia, s).None? {
        assert FirstMatch([Tachycardia, Fall], s) == FirstMatch([Fall], s);
        assert [Fall][1..] == [];
        assert FirstMatch([Fall], s) == Fires(Fall, s);
      }
    }
  }

  /** A heart rate at or below 40 is bradycardia, whatever the acceleration (index.js:152-157). */
  lemma BradycardiaFirst(hr: RawHeartRate, accel: RawAccel)
    requires hr.HrCoerced? && AtMost(hr.n, BradycardiaLimit)
    ensures Evaluate(Normalize(hr, accel)) == Emergency(LowHeartRate(hr.n))
  {
  }

  /** A heart rate at or above 180 is tachycardia, whatever the acceleration (index.js:159-162). */
  lemma TachycardiaSecond(hr: RawHeartRate, accel: RawAccel)
    requires hr.HrCoerced? && AtLeast(hr.n, TachycardiaLimit)
    ensures Evaluate(Normalize(hr, accel)) == Emergency(HighHeartRate(hr.n))
  {
    HeartRateRulesExclusive(hr.n);
  }

  /** Since 40 < 180, no heart rate is both low and high. */
  lemma HeartRateRulesExclusive(n: Number)
    ensures !(AtMost(n, BradycardiaLimit) && AtLeast(n, TachycardiaLimit))
  {
  }

  /** If any axis is absent the fall rule cannot fire, whatever the others hold (index.js:171). */
  lemma PartialVectorNeverFalls(s: Sample)
    requires s.ax.None? || s.ay.None? || s.az.None?
    ensures Evaluate(s) == NoEmergency <==> Fires(Bradycardia, s).None? && Fires(Tachycardia, s).None?
  {
  }

  /**
   * With a heart rate that fires neither heart-rate rule and three finite
   * axes, an emergency is raised exactly when x² + y² + z² > 324, that is
   * when the magnitude exceeds 18 (index.js:171-177).
   */
  lemma FallThreshold(hr: Option<Number>, x: real, y: real, z: real)
    requires hr.None? || (!AtMost(hr.value, BradycardiaLimit) && !AtLeast(hr.value, TachycardiaLimit))
    ensures var v := Evaluate(Sample(hr, Some(Finite(x)), Some(Finite(y)), Some(Finite(z))));
            (v.Emergency? <==> x * x + y * y + z * z > 324.0)
            && (v.Emergency? ==> v.reason == PossibleFall(Finite(x * x + y * y + z * z)))
  {
  }

  /** A NaN axis is kept by normalisation but makes the magnitude NaN, so no fall fires. */
  lemma NaNAxisNeverFalls(s: Sample)
    requires s.ax == Some(NaN) || s.ay == Some(NaN) || s.az == Some(NaN)
    ensures Fires(Fall, s).None?
  {
  }

  /** An infinite axis, with no NaN axis beside it, makes the magnitude Infinity, so a fall fires. */
  lemma InfiniteAxisFalls(s: Sample)
    requires s.ax.Some? && s.ay.Some? && s.az.Some?
    requires !s.ax.value.NaN? && !s.ay.value.NaN? && !s.az.value.NaN?
    requires !s.ax.value.Finite? || !s.ay.value.Finite? || !s.az.value.Finite?
    ensures Fires(Fall, s) == Some(PossibleFall(Infinity))
  {
  }

  /** Worked examples: magnitude exactly 18, sqrt(300) and sqrt(425). */
  lemma FallExamples()
    ensures Evaluate(Sample(None, Some(Finite(18.0)), Some(Finite(0.0)), Some(Finite(0.0)))) == NoEmergency
    ensures Evaluate(Sample(None, Some(Finite(10.0)), Some(Finite(10.0)), Some(Finite(10.0)))) == NoEmergency
    ensures Evaluate(Sample(None, Some(Finite(10.0)), Some(Finite(10.0)), Some(Finite(15.0))))
            == Emergency(PossibleFall(Finite(425.0)))
  {
    FallThreshold(None, 18.0, 0.0, 0.0);
    FallThreshold(None, 10.0, 10.0, 10.0);
    FallThreshold(None, 10.0, 10.0, 15.0);
  }
}

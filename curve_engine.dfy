/** The response curve of the current engine (WootRatEngine.process_input):
    parameter validation, the inner and outer deadzone, normalisation of the
    active band to [0, 1] and the four curve shapes. The transcendental
    functions are parameters (Common.Math), so everything proved here holds
    whatever pow, log1p and exp return. */
module CurveEngine {
  import opened Common

  /** The parameter check made before raw_value is looked at. */
  predicate ValidParameters(deadzone: real, curveFactor: real, outerDeadzone: real) {
    0.0 <= deadzone < outerDeadzone <= 1.0 && curveFactor > 0.0
  }

  predicate KnownCurve(curveType: string) {
    curveType == "power" || curveType == "log" || curveType == "s_curve" || curveType == "linear"
  }

  /** max(0.0, min(x, 1.0)) */
  function Clamp01(x: real): real {
    if x > 1.0 then 1.0 else if x < 0.0 then 0.0 else x
  }

  /** The position of raw within the active band, clamped to [0, 1]. */
  function Normalised(raw: real, deadzone: real, outerDeadzone: real): real
    requires deadzone < outerDeadzone
  {
    Clamp01((raw - deadzone) / (outerDeadzone - deadzone))
  }

  /** The curve shape applied to the normalised value t. A division whose
      divisor is zero raises ZeroDivisionError, as Python's float division does. */
  function ApplyCurve(m: Math, curveType: string, curveFactor: real, t: real): Result<real> {
    if curveType == "power" then Ok(m.pow(t, curveFactor))
    else if curveType == "log" then
      if m.log1p(curveFactor) == 0.0 then Err(ZeroDivision)
      else Ok(m.log1p(curveFactor * t) / m.log1p(curveFactor))
    else if curveType == "s_curve" then
      var d := 1.0 + m.exp(-curveFactor * (t - 0.5));
      if d == 0.0 then Err(ZeroDivision) else Ok(1.0 / d)
    else if curveType == "linear" then Ok(t)
    else Err(UnknownCurveType(curveType))
  }

  /** process_input(raw_value, deadzone, curve_factor, outer_deadzone, curve_type). */
  function ProcessInput(m: Math, raw: real, deadzone: real, curveFactor: real,
                        outerDeadzone: real, curveType: string): (r: Result<real>)
    // The two parameter errors are raised exactly for invalid parameters, whatever raw is.
    ensures r.Err? && (r.error == DeadzoneOutOfRange || r.error == NonPositiveCurveFactor)
            <==> !ValidParameters(deadzone, curveFactor, outerDeadzone)
    // Dead travel gives exactly 0, travel past the outer deadzone exactly 1, for every curve.
    ensures ValidParameters(deadzone, curveFactor, outerDeadzone) && raw < deadzone ==> r == Ok(0.0)
    ensures ValidParameters(deadzone, curveFactor, outerDeadzone) && raw > outerDeadzone ==> r == Ok(1.0)
    // An unknown curve type is reported only for a raw value inside the active band.
    ensures r == Err(UnknownCurveType(curveType)) <==>
            ValidParameters(deadzone, curveFactor, outerDeadzone) &&
            deadzone <= raw <= outerDeadzone && !KnownCurve(curveType)
    // The linear curve never leaves [0, 1].
    ensures curveType == "linear" && r.Ok? ==> 0.0 <= r.value <= 1.0
  {
    if !(0.0 <= deadzone < outerDeadzone <= 1.0) then Err(DeadzoneOutOfRange)
    else if curveFactor <= 0.0 then Err(NonPositiveCurveFactor)
    else if raw < deadzone then Ok(0.0)
    else if raw > outerDeadzone then Ok(1.0)
    else ApplyCurve(m, curveType, curveFactor, Normalised(raw, deadzone, outerDeadzone))
  }

  /** a / b lies in [0, 1] when 0 <= a <= b and b > 0. */
  lemma QuotientInUnitInterval(a: real, b: real)
    requires 0.0 <= a <= b && b > 0.0
    ensures 0.0 <= a / b <= 1.0
  {
    assert a / b * b == a;
  }

  /** Division by a positive number keeps the order. */
  lemma QuotientMonotone(a1: real, a2: real, b: real)
    requires a1 <= a2 && b > 0.0
    ensures a1 / b <= a2 / b
  {
    assert a2 / b - a1 / b == (a2 - a1) / b;
    QuotientInUnitInterval(0.0, b);
    assert (a2 - a1) / b * b == a2 - a1;
  }

  /** Inside the band the quotient already lies in [0, 1], so the clamp never
      changes it. */
  lemma ClampIsNoOpInBand(raw: real, deadzone: real, outerDeadzone: real)
    requires deadzone <= raw <= outerDeadzone && deadzone < outerDeadzone
    ensures 0.0 <= (raw - deadzone) / (outerDeadzone - deadzone) <= 1.0
    ensures Normalised(raw, deadzone, outerDeadzone) == (raw - deadzone) / (outerDeadzone - deadzone)
  {
    QuotientInUnitInterval(raw - deadzone, outerDeadzone - deadzone);
  }

  lemma SelfQuotient(x: real)
    requires x != 0.0
    ensures x / x == 1.0
  {
  }

  /** The ends of the band normalise to exactly 0 and 1. */
  lemma BandEnds(deadzone: real, outerDeadzone: real)
    requires deadzone < outerDeadzone
    ensures Normalised(deadzone, deadzone, outerDeadzone) == 0.0
    ensures Normalised(outerDeadzone, deadzone, outerDeadzone) == 1.0
  {
    SelfQuotient(outerDeadzone - deadzone);
  }

  /** Invalid parameters fail the same way for every raw value and every curve
      type: the checks run before raw_value is inspected. */
  lemma ParametersCheckedFirst(m1: Math, m2: Math, raw1: real, raw2: real, deadzone: real,
                               curveFactor: real, outerDeadzone: real, type1: string, type2: string)
    requires !ValidParameters(deadzone, curveFactor, outerDeadzone)
    ensures ProcessInput(m1, raw1, deadzone, curveFactor, outerDeadzone, type1)
         == ProcessInput(m2, raw2, deadzone, curveFactor, outerDeadzone, type2)
  {
  }

  /** Outside the band the result depends neither on the curve type nor on the
      curve functions: an unknown type goes unnoticed there. */
  lemma OutOfBandIgnoresCurve(m1: Math, m2: Math, raw: real, deadzone: real, curveFactor: real,
                              outerDeadzone: real, type1: string, type2: string)
    requires ValidParameters(deadzone, curveFactor, outerDeadzone)
    requires raw < deadzone || raw > outerDeadzone
    ensures ProcessInput(m1, raw, deadzone, curveFactor, outerDeadzone, type1)
         == ProcessInput(m2, raw, deadzone, curveFactor, outerDeadzone, type2)
         == Ok(if raw < deadzone then 0.0 else 1.0)
  {
  }

  /** The linear curve returns the unclamped position in the band. */
  lemma LinearIsNormalised(m: Math, raw: real, deadzone: real, curveFactor: real, outerDeadzone: real)
    requires ValidParameters(deadzone, curveFactor, outerDeadzone)
    requires deadzone <= raw <= outerDeadzone
    ensures ProcessInput(m, raw, deadzone, curveFactor, outerDeadzone, "linear")
         == Ok((raw - deadzone) / (outerDeadzone - deadzone))
  {
    ClampIsNoOpInBand(raw, deadzone, outerDeadzone);
  }

  /** Boundary continuity of the linear curve: 0 at the deadzone, 1 at the
      outer deadzone. */
  lemma LinearEndpoints(m: Math, deadzone: real, curveFactor: real, outerDeadzone: real)
    requires ValidParameters(deadzone, curveFactor, outerDeadzone)
    ensures ProcessInput(m, deadzone, deadzone, curveFactor, outerDeadzone, "linear") == Ok(0.0)
    ensures ProcessInput(m, outerDeadzone, deadzone, curveFactor, outerDeadzone, "linear") == Ok(1.0)
  {
    BandEnds(deadzone, outerDeadzone);
  }

  /** The power curve passes through (0, 0) and (1, 1) when pow does. */
  lemma PowerEndpoints(m: Math, deadzone: real, curveFactor: real, outerDeadzone: real)
    requires ValidParameters(deadzone, curveFactor, outerDeadzone)
    requires m.pow(0.0, curveFactor) == 0.0 && m.pow(1.0, curveFactor) == 1.0
    ensures ProcessInput(m, deadzone, deadzone, curveFactor, outerDeadzone, "power") == Ok(0.0)
    ensures ProcessInput(m, outerDeadzone, deadzone, curveFactor, outerDeadzone, "power") == Ok(1.0)
  {
    BandEnds(deadzone, outerDeadzone);
  }

  /** With curve factor 1 the power curve is the linear one, given pow(t, 1) == t. */
  lemma PowerFactorOneIsLinear(m: Math, raw: real, deadzone: real, outerDeadzone: real)
    requires forall t :: 0.0 <= t <= 1.0 ==> m.pow(t, 1.0) == t
    ensures ProcessInput(m, raw, deadzone, 1.0, outerDeadzone, "power")
         == ProcessInput(m, raw, deadzone, 1.0, outerDeadzone, "linear")
  {
    if ValidParameters(deadzone, 1.0, outerDeadzone) && deadzone <= raw <= outerDeadzone {
      ClampIsNoOpInBand(raw, deadzone, outerDeadzone);
    }
  }

  /** The log curve is 0 at the deadzone (log1p(0) == 0) and 1 at the outer
      deadzone, for any curve factor whose log1p is nonzero. */
  lemma LogEndpoints(m: Math, deadzone: real, curveFactor: real, outerDeadzone: real)
    requires ValidParameters(deadzone, curveFactor, outerDeadzone)
    requires m.log1p(0.0) == 0.0 && m.log1p(curveFactor) != 0.0
    ensures ProcessInput(m, deadzone, deadzone, curveFactor, outerDeadzone, "log") == Ok(0.0)
    ensures ProcessInput(m, outerDeadzone, deadzone, curveFactor, outerDeadzone, "log") == Ok(1.0)
  {
    BandEnds(deadzone, outerDeadzone);
    assert curveFactor * 0.0 == 0.0;
    assert curveFactor * 1.0 == curveFactor;
    SelfQuotient(m.log1p(curveFactor));
  }

  /** The S-curve is not renormalised: for a positive exp it stays strictly
      inside (0, 1) at both ends of the band, so the output jumps from 0 to
      above 0 at the deadzone and from below 1 to exactly 1 past the outer
      deadzone. */
  lemma SCurveNotRenormalised(m: Math, deadzone: real, curveFactor: real, outerDeadzone: real, past: real)
    requires ValidParameters(deadzone, curveFactor, outerDeadzone)
    requires forall x :: m.exp(x) > 0.0
    requires past > outerDeadzone
    ensures var lo := ProcessInput(m, deadzone, deadzone, curveFactor, outerDeadzone, "s_curve");
            var hi := ProcessInput(m, outerDeadzone, deadzone, curveFactor, outerDeadzone, "s_curve");
            lo.Ok? && 0.0 < lo.value < 1.0 && hi.Ok? && 0.0 < hi.value < 1.0
    ensures ProcessInput(m, past, deadzone, curveFactor, outerDeadzone, "s_curve") == Ok(1.0)
  {
    var e0 := m.exp(-curveFactor * (0.0 - 0.5));
    var e1 := m.exp(-curveFactor * (1.0 - 0.5));
    QuotientInUnitInterval(1.0, 1.0 + e0);
    QuotientInUnitInterval(1.0, 1.0 + e1);
    assert 1.0 / (1.0 + e0) * (1.0 + e0) == 1.0;
    assert 1.0 / (1.0 + e1) * (1.0 + e1) == 1.0;
  }

  /** A curve shape that is defined on [0, 1], stays within [0, 1] and is
      monotone there. */
  ghost predicate WellBehaved(m: Math, curveType: string, curveFactor: real) {
    (forall t :: 0.0 <= t <= 1.0 ==>
       ApplyCurve(m, curveType, curveFactor, t).Ok? &&
       0.0 <= ApplyCurve(m, curveType, curveFactor, t).value <= 1.0) &&
    (forall t1, t2 :: 0.0 <= t1 <= t2 <= 1.0 ==>
       ApplyCurve(m, curveType, curveFactor, t1).Ok? && ApplyCurve(m, curveType, curveFactor, t2).Ok? &&
       ApplyCurve(m, curveType, curveFactor, t1).value <= ApplyCurve(m, curveType, curveFactor, t2).value)
  }

  /** The linear shape is well behaved whatever the curve functions are. */
  lemma LinearWellBehaved(m: Math, curveFactor: real)
    ensures WellBehaved(m, "linear", curveFactor)
  {
  }

  /** For a well-behaved shape the whole transform is monotone in raw: deeper
      travel never gives a smaller output. */
  lemma ProcessInputMonotone(m: Math, raw1: real, raw2: real, deadzone: real, curveFactor: real,
                             outerDeadzone: real, curveType: string)
    requires ValidParameters(deadzone, curveFactor, outerDeadzone)
    requires WellBehaved(m, curveType, curveFactor)
    requires raw1 <= raw2
    ensures ProcessInput(m, raw1, deadzone, curveFactor, outerDeadzone, curveType).Ok?
    ensures ProcessInput(m, raw2, deadzone, curveFactor, outerDeadzone, curveType).Ok?
    ensures ProcessInput(m, raw1, deadzone, curveFactor, outerDeadzone, curveType).value
         <= ProcessInput(m, raw2, deadzone, curveFactor, outerDeadzone, curveType).value
  {
    var t1 := Normalised(raw1, deadzone, outerDeadzone);
    var t2 := Normalised(raw2, deadzone, outerDeadzone);
    assert 0.0 <= t1 <= 1.0 && 0.0 <= t2 <= 1.0;
    QuotientMonotone(raw1 - deadzone, raw2 - deadzone, outerDeadzone - deadzone);
    assert t1 <= t2;
  }

  /** The worked example: deadzone 0.1, outer deadzone 1.0, factor 2, power
      curve. Raw 0.55 normalises to 0.5 and gives 0.5^2 = 0.25; raw 0.05 is dead
      travel and gives 0. */
  lemma PowerScenario(m: Math)
    requires m.pow(0.5, 2.0) == 0.25
    ensures ProcessInput(m, 0.55, 0.1, 2.0, 1.0, "power") == Ok(0.25)
    ensures ProcessInput(m, 0.05, 0.1, 2.0, 1.0, "power") == Ok(0.0)
  {
    assert (0.55 - 0.1) / (1.0 - 0.1) == 0.5;
  }
}

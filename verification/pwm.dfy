/** PWMValues: the minimum, neutral and maximum pulse widths (in
    microseconds) of a PWM-driven device, and the conversions between a
    percentage in [-100, 100] and a pulse width. Positive percentages are
    shares of the range above neutral, negative ones of the range below it;
    every division truncates toward zero as Java's does. */
module Pwm {
  import opened Base

  const PercentageDivider: int := 100

  datatype PWMValues = PWMValues(minimumPulseWidth: int, neutralPulseWidth: int, maximumPulseWidth: int)

  /** What the constructor checks: a non-empty range with neutral inside it. */
  predicate WellOrdered(p: PWMValues)
  {
    p.minimumPulseWidth < p.maximumPulseWidth
    && p.minimumPulseWidth <= p.neutralPulseWidth <= p.maximumPulseWidth
  }

  /** The values a constructed PWMValues can hold. */
  type ValidPWMValues = p: PWMValues | WellOrdered(p) witness PWMValues(0, 0, 1)

  function PositiveRange(p: PWMValues): int { p.maximumPulseWidth - p.neutralPulseWidth }

  function NegativeRange(p: PWMValues): int { p.neutralPulseWidth - p.minimumPulseWidth }

  /** The three-argument constructor. */
  function NewPWMValues(minimum: int, neutral: int, maximum: int): (r: Result<ValidPWMValues>)
    ensures r.Ok? <==> !(maximum <= minimum || neutral < minimum || neutral > maximum)
    ensures r.Ok? ==> r.value == PWMValues(minimum, neutral, maximum)
    ensures r.Err? ==> r.failure == IllegalArgumentException
  {
    var p := PWMValues(minimum, neutral, maximum);
    if WellOrdered(p) then
      var v: ValidPWMValues := p;
      Ok(v)
    else Err(IllegalArgumentException)
  }

  /** The two-argument constructor: neutral is the truncated average. */
  function NewPWMValuesAveraged(minimum: int, maximum: int): (r: Result<ValidPWMValues>)
    ensures r.Ok? <==> minimum < maximum
    ensures r.Ok? ==> r.value.minimumPulseWidth == minimum && r.value.maximumPulseWidth == maximum
    ensures r.Ok? ==> r.value.neutralPulseWidth == JavaDiv(minimum + maximum, 2)
    ensures r.Err? ==> r.failure == IllegalArgumentException
  {
    var neutral := JavaDiv(minimum + maximum, 2);
    if minimum < maximum then
      AverageWithin(minimum, maximum);
      NewPWMValues(minimum, neutral, maximum)
    else NewPWMValues(minimum, neutral, maximum)
  }

  /** The truncated average of two bounds lies between them. */
  lemma AverageWithin(minimum: int, maximum: int)
    requires minimum < maximum
    ensures minimum <= JavaDiv(minimum + maximum, 2) <= maximum
  {
    JavaDivMonotone(minimum * 2, minimum + maximum, 2);
    JavaDivMonotone(minimum + maximum, maximum * 2, 2);
    JavaDivExact(minimum, 2);
    JavaDivExact(maximum, 2);
  }

  /** `isOutsideLimits`. */
  function IsOutsideLimits(p: PWMValues, pulseWidth: int): (r: bool)
    ensures r <==> pulseWidth < p.minimumPulseWidth || pulseWidth > p.maximumPulseWidth
  {
    pulseWidth < p.minimumPulseWidth || pulseWidth > p.maximumPulseWidth
  }

  /** `calculatePercentage`: the truncated share `percentage`% of `base`. */
  function ShareOf(percentage: int, base: int): (share: int)
    ensures var exact := base * percentage;
            Abs(exact) - PercentageDivider < Abs(PercentageDivider * share) <= Abs(exact)
            && (exact >= 0 ==> share >= 0) && (exact <= 0 ==> share <= 0)
  {
    JavaDivBounds(base * percentage, PercentageDivider);
    JavaDiv(base * percentage, PercentageDivider)
  }

  /** A share of at most 100% of a non-negative base lies between 0 and the base,
      on the side of the percentage's sign. */
  lemma {:induction false} ShareBounds(percentage: int, base: int)
    requires -100 <= percentage <= 100 && base >= 0
    ensures -base <= ShareOf(percentage, base) <= base
    ensures percentage >= 0 ==> ShareOf(percentage, base) >= 0
    ensures percentage <= 0 ==> ShareOf(percentage, base) <= 0
  {
    MulDivCancel(base, 100);
    if percentage >= 0 {
      ScaleBetween(base, percentage, 100);
      JavaDivPositive(base * percentage, 100);
      DivMonotone(base * percentage, base * 100, 100);
    } else {
      var m := base * (-percentage);
      ScaleBetween(base, -percentage, 100);
      assert base * percentage == -m;
      DivMonotone(m, base * 100, 100);
      if m > 0 {
        JavaDivNegative(-m, 100);
      }
    }
  }

  /** `getPulseWidthForPercentage`. */
  function PulseWidthForPercentage(p: ValidPWMValues, percentage: int): (r: Result<int>)
    ensures r.Ok? <==> -100 <= percentage <= 100
    ensures r.Err? ==> r.failure == IllegalArgumentException
    ensures r.Ok? ==> !IsOutsideLimits(p, r.value)
    ensures r.Ok? && percentage >= 0 ==> r.value >= p.neutralPulseWidth
    ensures r.Ok? && percentage <= 0 ==> r.value <= p.neutralPulseWidth
    ensures percentage == 0 ==> r == Ok(p.neutralPulseWidth)
    ensures percentage == 100 ==> r == Ok(p.maximumPulseWidth)
    ensures percentage == -100 ==> r == Ok(p.minimumPulseWidth)
  {
    if percentage > 100 || percentage < -100 then Err(IllegalArgumentException)
    else if percentage >= 0 then
      ShareBounds(percentage, PositiveRange(p));
      JavaDivExact(PositiveRange(p), 100);
      Ok(p.neutralPulseWidth + ShareOf(percentage, PositiveRange(p)))
    else
      ShareBounds(percentage, NegativeRange(p));
      JavaDivExact(-NegativeRange(p), 100);
      Ok(p.neutralPulseWidth + ShareOf(percentage, NegativeRange(p)))
  }

  /** `getPercentageForPulseWidth`. When neutral equals maximum the positive
      range is empty and the maximum pulse width divides by zero. */
  function PercentageForPulseWidth(p: ValidPWMValues, pulseWidth: int): (r: Result<int>)
    ensures IsOutsideLimits(p, pulseWidth) ==> r == Err(IllegalArgumentException)
    ensures r == Err(ArithmeticException)
            <==> !IsOutsideLimits(p, pulseWidth) && pulseWidth == p.neutralPulseWidth == p.maximumPulseWidth
    ensures r.Ok? <==> !IsOutsideLimits(p, pulseWidth) && !(pulseWidth == p.neutralPulseWidth == p.maximumPulseWidth)
    ensures r.Ok? ==> -100 <= r.value <= 100
    ensures r.Ok? ==> (r.value < 0 ==> pulseWidth < p.neutralPulseWidth) && (r.value > 0 ==> pulseWidth > p.neutralPulseWidth)
    ensures pulseWidth == p.neutralPulseWidth < p.maximumPulseWidth ==> r == Ok(0)
    ensures pulseWidth == p.maximumPulseWidth > p.neutralPulseWidth ==> r == Ok(100)
    ensures pulseWidth == p.minimumPulseWidth < p.neutralPulseWidth ==> r == Ok(-100)
  {
    if pulseWidth > p.maximumPulseWidth || pulseWidth < p.minimumPulseWidth then Err(IllegalArgumentException)
    else if pulseWidth >= p.neutralPulseWidth then
      var range := PositiveRange(p);
      if range == 0 then Err(ArithmeticException)
      else
        var d := pulseWidth - p.neutralPulseWidth;
        JavaDivPositive(PercentageDivider * d, range);
        DivMonotone(PercentageDivider * d, PercentageDivider * range, range);
        JavaDivExact(PercentageDivider, range);
        Ok(JavaDiv(PercentageDivider * d, range))
    else
      var range := NegativeRange(p);
      var d := p.neutralPulseWidth - pulseWidth;
      JavaDivNegative(-1 * PercentageDivider * d, range);
      DivMonotone(PercentageDivider * d, PercentageDivider * range, range);
      JavaDivExact(-PercentageDivider, range);
      Ok(JavaDiv(-1 * PercentageDivider * d, range))
  }

  /** When both half ranges are whole multiples of 100 microseconds, the two
      conversions are exact inverses on every percentage. */
  lemma {:induction false} PercentagePulseWidthRoundTrip(p: ValidPWMValues, percentage: int)
    requires -100 <= percentage <= 100
    requires PositiveRange(p) > 0 && PositiveRange(p) % 100 == 0
    requires NegativeRange(p) > 0 && NegativeRange(p) % 100 == 0
    ensures PercentageForPulseWidth(p, PulseWidthForPercentage(p, percentage).value) == Ok(percentage)
  {
    var pw := PulseWidthForPercentage(p, percentage).value;
    if percentage >= 0 {
      var k := PositiveRange(p) / 100;
      assert PositiveRange(p) == 100 * k;
      assert PositiveRange(p) * percentage == (k * percentage) * 100;
      JavaDivExact(k * percentage, 100);
      assert pw - p.neutralPulseWidth == k * percentage;
      assert PercentageDivider * (k * percentage) == percentage * PositiveRange(p);
      JavaDivExact(percentage, PositiveRange(p));
    } else {
      var k := NegativeRange(p) / 100;
      assert NegativeRange(p) == 100 * k;
      assert NegativeRange(p) * percentage == (k * percentage) * 100;
      JavaDivExact(k * percentage, 100);
      assert p.neutralPulseWidth - pw == -(k * percentage);
      assert k * percentage < 0;
      assert -1 * PercentageDivider * (-(k * percentage)) == percentage * NegativeRange(p);
      JavaDivExact(percentage, NegativeRange(p));
    }
  }

  /** The calibration of the PWMValues test cases: every listed pair converts
      exactly in both directions, and the averaged constructor gives 250 for
      (0, 500). */
  lemma CalibrationExamples()
    ensures NewPWMValuesAveraged(0, 500).Ok? && NewPWMValuesAveraged(0, 500).value == PWMValues(0, 250, 500)
    ensures var p: ValidPWMValues := PWMValues(500, 1000, 2000);
            && PulseWidthForPercentage(p, -25) == Ok(875) && PercentageForPulseWidth(p, 875) == Ok(-25)
            && PulseWidthForPercentage(p, -80) == Ok(600) && PercentageForPulseWidth(p, 600) == Ok(-80)
            && PulseWidthForPercentage(p, 25) == Ok(1250) && PercentageForPulseWidth(p, 1250) == Ok(25)
            && PulseWidthForPercentage(p, 60) == Ok(1600) && PercentageForPulseWidth(p, 1600) == Ok(60)
            && PulseWidthForPercentage(p, 90) == Ok(1900) && PercentageForPulseWidth(p, 1900) == Ok(90)
            && PulseWidthForPercentage(p, 110).Err? && PulseWidthForPercentage(p, -110).Err?
            && PercentageForPulseWidth(p, 490).Err? && PercentageForPulseWidth(p, 2010).Err?
  {
    var p: ValidPWMValues := PWMValues(500, 1000, 2000);
    PercentagePulseWidthRoundTrip(p, -25);
    PercentagePulseWidthRoundTrip(p, -80);
    PercentagePulseWidthRoundTrip(p, 25);
    PercentagePulseWidthRoundTrip(p, 60);
    PercentagePulseWidthRoundTrip(p, 90);
  }
}

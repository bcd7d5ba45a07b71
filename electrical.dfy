/** Full-load current of a three-phase motor,
    I = P * 1000 / (sqrt(3) * V * pf * eff), rounded to two decimals. */
module Electrical {
  import opened Parts

  /** The two floating-point primitives the calculation relies on, left
      abstract: `sqrt3` stands for math.sqrt(3) and `round(x, n)` for
      Python's round to n decimal places. */
  datatype Numerics = Numerics(sqrt3: real, round: (real, int) -> real)

  const WattsPerKilowatt: real := 1000.0
  const BreakerMargin: real := 1.5

  /** Python's round(x, digits). */
  function Round(num: Numerics, x: real, digits: int): real
  {
    num.round(x, digits)
  }

  /** Rounding to two decimals that lands within half a hundredth of its
      argument, as round-half-to-even does. */
  ghost predicate CentRounding(num: Numerics)
  {
    forall x: real :: -0.005 <= num.round(x, 2) - x <= 0.005
  }

  /** The circuit-breaker rating: FLC with a fixed 50% margin, rounded to
      two decimals. With a faithful rounding the rating is within half a
      hundredth of 1.5 times the FLC, so from 0.01 A up it is never below
      the FLC it protects. */
  function BreakerRating(num: Numerics, flc: real): (r: real)
    ensures CentRounding(num) ==> flc * BreakerMargin - 0.005 <= r <= flc * BreakerMargin + 0.005
    ensures CentRounding(num) && flc >= 0.01 ==> r >= flc
  {
    Round(num, flc * BreakerMargin, 2)
  }

  /** The denominator of the three-phase power formula. */
  function PhaseFactor(num: Numerics, voltage: real, powerFactor: real, efficiency: real): real
  {
    num.sqrt3 * voltage * powerFactor * efficiency
  }

  /** The full-load current before rounding: the current at which the
      three-phase formula gives back the motor's power in watts. */
  function RawFullLoadCurrent(num: Numerics, powerKw: real, voltage: real, powerFactor: real, efficiency: real): (i: real)
    requires PhaseFactor(num, voltage, powerFactor, efficiency) != 0.0
    ensures i * PhaseFactor(num, voltage, powerFactor, efficiency) == powerKw * WattsPerKilowatt
  {
    powerKw * WattsPerKilowatt / PhaseFactor(num, voltage, powerFactor, efficiency)
  }

  /** The full-load current rounded to two decimals, or None where the
      division by zero raises (a zero voltage, power factor or efficiency). */
  function FullLoadCurrent(num: Numerics, powerKw: real, voltage: real, powerFactor: real, efficiency: real): (r: Option<real>)
    ensures r.None? <==> PhaseFactor(num, voltage, powerFactor, efficiency) == 0.0
  {
    if PhaseFactor(num, voltage, powerFactor, efficiency) == 0.0 then None
    else Some(Round(num, RawFullLoadCurrent(num, powerKw, voltage, powerFactor, efficiency), 2))
  }

  /** Rounding that never reverses the order of two values. */
  ghost predicate MonotoneRounding(num: Numerics)
  {
    forall x: real, y: real, n: int :: x <= y ==> num.round(x, n) <= num.round(y, n)
  }

  lemma {:induction false} QuotientMonotone(a: real, b: real, d: real)
    requires d > 0.0 && a <= b
    ensures a / d <= b / d
  {
    assert b / d - a / d == (b - a) / d;
    assert (b - a) / d * d == b - a;
  }

  lemma {:induction false} QuotientAntitone(n: real, d1: real, d2: real)
    requires n >= 0.0 && 0.0 < d1 <= d2
    ensures n / d1 >= n / d2
  {
    var q1, q2 := n / d1, n / d2;
    assert q1 * d1 == n && q2 * d2 == n;
    assert q1 >= 0.0 && q2 >= 0.0;
  }

  /** Unrounded FLC grows with power, other inputs held fixed. */
  lemma {:induction false} RawFlcIncreasingInPower(num: Numerics, p1: real, p2: real, voltage: real, powerFactor: real, efficiency: real)
    requires num.sqrt3 > 0.0 && voltage > 0.0 && powerFactor > 0.0 && efficiency > 0.0
    requires p1 <= p2
    ensures PhaseFactor(num, voltage, powerFactor, efficiency) > 0.0
    ensures RawFullLoadCurrent(num, p1, voltage, powerFactor, efficiency) <= RawFullLoadCurrent(num, p2, voltage, powerFactor, efficiency)
  {
    var d := PhaseFactor(num, voltage, powerFactor, efficiency);
    PhaseFactorPositive(num, voltage, powerFactor, efficiency);
    QuotientMonotone(p1 * WattsPerKilowatt, p2 * WattsPerKilowatt, d);
  }

  lemma {:induction false} PhaseFactorPositive(num: Numerics, voltage: real, powerFactor: real, efficiency: real)
    requires num.sqrt3 > 0.0 && voltage > 0.0 && powerFactor > 0.0 && efficiency > 0.0
    ensures PhaseFactor(num, voltage, powerFactor, efficiency) > 0.0
  {
    assert num.sqrt3 * voltage > 0.0;
    assert num.sqrt3 * voltage * powerFactor > 0.0;
  }

  /** A larger denominator (with non-negative power) never gives a larger
      current; shared by the three "decreasing in" lemmas below. */
  lemma {:induction false} RawFlcAntitoneInDenominator(num: Numerics, powerKw: real, v1: real, pf1: real, e1: real, v2: real, pf2: real, e2: real)
    requires powerKw >= 0.0
    requires 0.0 < PhaseFactor(num, v1, pf1, e1) <= PhaseFactor(num, v2, pf2, e2)
    ensures RawFullLoadCurrent(num, powerKw, v1, pf1, e1) >= RawFullLoadCurrent(num, powerKw, v2, pf2, e2)
  {
    QuotientAntitone(powerKw * WattsPerKilowatt, PhaseFactor(num, v1, pf1, e1), PhaseFactor(num, v2, pf2, e2));
  }

  /** Unrounded FLC falls as the voltage rises. */
  lemma {:induction false} RawFlcDecreasingInVoltage(num: Numerics, powerKw: real, v1: real, v2: real, powerFactor: real, efficiency: real)
    requires num.sqrt3 > 0.0 && powerFactor > 0.0 && efficiency > 0.0 && powerKw >= 0.0
    requires 0.0 < v1 <= v2
    ensures PhaseFactor(num, v1, powerFactor, efficiency) > 0.0 && PhaseFactor(num, v2, powerFactor, efficiency) > 0.0
    ensures RawFullLoadCurrent(num, powerKw, v1, powerFactor, efficiency) >= RawFullLoadCurrent(num, powerKw, v2, powerFactor, efficiency)
  {
    PhaseFactorPositive(num, v1, powerFactor, efficiency);
    PhaseFactorPositive(num, v2, powerFactor, efficiency);
    var k := num.sqrt3 * powerFactor * efficiency;
    assert k > 0.0 by { assert num.sqrt3 * powerFactor > 0.0; }
    assert PhaseFactor(num, v1, powerFactor, efficiency) == v1 * k;
    assert PhaseFactor(num, v2, powerFactor, efficiency) == v2 * k;
    assert v1 * k <= v2 * k;
    RawFlcAntitoneInDenominator(num, powerKw, v1, powerFactor, efficiency, v2, powerFactor, efficiency);
  }

  /** Unrounded FLC falls as the power factor rises. */
  lemma {:induction false} RawFlcDecreasingInPowerFactor(num: Numerics, powerKw: real, voltage: real, pf1: real, pf2: real, efficiency: real)
    requires num.sqrt3 > 0.0 && voltage > 0.0 && efficiency > 0.0 && powerKw >= 0.0
    requires 0.0 < pf1 <= pf2
    ensures PhaseFactor(num, voltage, pf1, efficiency) > 0.0 && PhaseFactor(num, voltage, pf2, efficiency) > 0.0
    ensures RawFullLoadCurrent(num, powerKw, voltage, pf1, efficiency) >= RawFullLoadCurrent(num, powerKw, voltage, pf2, efficiency)
  {
    PhaseFactorPositive(num, voltage, pf1, efficiency);
    PhaseFactorPositive(num, voltage, pf2, efficiency);
    var k := num.sqrt3 * voltage * efficiency;
    assert k > 0.0 by { assert num.sqrt3 * voltage > 0.0; }
    assert PhaseFactor(num, voltage, pf1, efficiency) == pf1 * k;
    assert PhaseFactor(num, voltage, pf2, efficiency) == pf2 * k;
    assert pf1 * k <= pf2 * k;
    RawFlcAntitoneInDenominator(num, powerKw, voltage, pf1, efficiency, voltage, pf2, efficiency);
  }

  /** Unrounded FLC falls as the efficiency rises. */
  lemma {:induction false} RawFlcDecreasingInEfficiency(num: Numerics, powerKw: real, voltage: real, powerFactor: real, e1: real, e2: real)
    requires num.sqrt3 > 0.0 && voltage > 0.0 && powerFactor > 0.0 && powerKw >= 0.0
    requires 0.0 < e1 <= e2
    ensures PhaseFactor(num, voltage, powerFactor, e1) > 0.0 && PhaseFactor(num, voltage, powerFactor, e2) > 0.0
    ensures RawFullLoadCurrent(num, powerKw, voltage, powerFactor, e1) >= RawFullLoadCurrent(num, powerKw, voltage, powerFactor, e2)
  {
    PhaseFactorPositive(num, voltage, powerFactor, e1);
    PhaseFactorPositive(num, voltage, powerFactor, e2);
    var k := num.sqrt3 * voltage * powerFactor;
    assert k > 0.0 by { assert num.sqrt3 * voltage > 0.0; }
    assert PhaseFactor(num, voltage, powerFactor, e1) == e1 * k;
    assert PhaseFactor(num, voltage, powerFactor, e2) == e2 * k;
    assert e1 * k <= e2 * k;
    RawFlcAntitoneInDenominator(num, powerKw, voltage, powerFactor, e1, voltage, powerFactor, e2);
  }

  /** With a rounding that keeps order, the rounded FLC grows with power too. */
  lemma {:induction false} FlcIncreasingInPower(num: Numerics, p1: real, p2: real, voltage: real, powerFactor: real, efficiency: real)
    requires MonotoneRounding(num)
    requires num.sqrt3 > 0.0 && voltage > 0.0 && powerFactor > 0.0 && efficiency > 0.0
    requires p1 <= p2
    ensures FullLoadCurrent(num, p1, voltage, powerFactor, efficiency).Some?
    ensures FullLoadCurrent(num, p2, voltage, powerFactor, efficiency).Some?
    ensures FullLoadCurrent(num, p1, voltage, powerFactor, efficiency).value <= FullLoadCurrent(num, p2, voltage, powerFactor, efficiency).value
  {
    RawFlcIncreasingInPower(num, p1, p2, voltage, powerFactor, efficiency);
    var i1 := RawFullLoadCurrent(num, p1, voltage, powerFactor, efficiency);
    var i2 := RawFullLoadCurrent(num, p2, voltage, powerFactor, efficiency);
    assert Round(num, i1, 2) <= Round(num, i2, 2);
  }
}

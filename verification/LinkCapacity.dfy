/**
  The link capacity estimate: an average of the throughputs measured at overuse, with a
  normalised deviation. Square root and power are parameters of which only the facts in
  `ValidMath` are used.
 */
module LinkCapacity {
  import opened Units
  import opened Algebra

  const MIN_DEVIATION := 0.4
  const MAX_DEVIATION := 2.5
  const OVERUSE_WEIGHT := 0.05

  datatype Math = Math(sqrt: real -> real, growth: real -> real)

  /** `growth(x)` is 1.08 to the power of x. */
  ghost predicate ValidMath(m: Math) {
    && (forall x :: x >= 0.0 ==> m.sqrt(x) >= 0.0 && Times(m.sqrt(x), m.sqrt(x)) == x)
    && (forall x :: 0.0 <= x <= 1.0 ==> 1.0 <= m.growth(x) <= 1.08)
  }

  datatype Capacity = Capacity(estimate: Option<real>, deviation: real)

  const UNKNOWN := Capacity(None, 0.4)

  function Kbps(rate: nat): nat {
    DivRoundPositiveToNearest(rate, 1_000)
  }

  function Blend(value: real, sample: real, weight: real): real {
    Times(1.0 - weight, value) + Times(weight, sample)
  }

  function NormalisedError(estimate: real, sample: real): real {
    Times(estimate - sample, estimate - sample) / MaxReal(estimate, 1.0)
  }

  function Update(c: Capacity, rate: nat, weight: real): Capacity {
    var sample := Kbps(rate) as real;
    var estimate := match c.estimate case None => sample case Some(e) => Blend(e, sample, weight);
    var deviation := Blend(c.deviation, NormalisedError(estimate, sample), weight);
    Capacity(Some(estimate), ClampReal(deviation, MIN_DEVIATION, MAX_DEVIATION))
  }

  function Reset(c: Capacity): Capacity {
    c.(estimate := None)
  }

  /** Three deviations, in kbps. */
  function Margin(m: Math, c: Capacity): real
    requires c.estimate.Some?
  {
    3.0 * m.sqrt(Times(c.deviation, c.estimate.value))
  }

  function Bps(kbps: real): int {
    Truncate(kbps * 1000.0)
  }

  /** `None` is no upper bound. */
  function UpperBound(m: Math, c: Capacity): Option<int> {
    match c.estimate case None => None case Some(e) => Some(Bps(e + Margin(m, c)))
  }

  function LowerBound(m: Math, c: Capacity): int {
    match c.estimate case None => 0 case Some(e) => Bps(MaxReal(0.0, e - Margin(m, c)))
  }

  // ----- Over runs

  datatype Event = Overuse(rate: nat) | Forget

  function Run(es: seq<Event>): Capacity {
    if es == [] then UNKNOWN else
    match es[|es| - 1]
    case Overuse(rate) => Update(Run(es[..|es| - 1]), rate, OVERUSE_WEIGHT)
    case Forget => Reset(Run(es[..|es| - 1]))
  }

  /** The samples since the estimate was last forgotten. */
  function Samples(es: seq<Event>): seq<nat> {
    if es == [] then [] else
    match es[|es| - 1]
    case Overuse(rate) => Samples(es[..|es| - 1]) + [Kbps(rate)]
    case Forget => []
  }

  ghost predicate ValidCapacity(c: Capacity) {
    MIN_DEVIATION <= c.deviation <= MAX_DEVIATION && (c.estimate.Some? ==> c.estimate.value >= 0.0)
  }

  lemma BlendIsBetween(x: real, y: real, weight: real, low: real, high: real)
    requires 0.0 <= weight <= 1.0 && low <= x <= high && low <= y <= high
    ensures low <= Blend(x, y, weight) <= high
  {
    hide Times;
    var v := 1.0 - weight;
    ScaleRight(low, x, v);
    ScaleRight(x, high, v);
    ScaleRight(low, y, weight);
    ScaleRight(y, high, weight);
    WeightsAddUp(low, weight);
    WeightsAddUp(high, weight);
  }

  lemma WeightsAddUp(x: real, weight: real)
    ensures Times(1.0 - weight, x) + Times(weight, x) == x
  {
  }

  lemma UpdateIsValid(c: Capacity, rate: nat, weight: real)
    requires ValidCapacity(c) && 0.0 <= weight <= 1.0
    ensures ValidCapacity(Update(c, rate, weight))
  {
    hide Blend;
    var sample := Kbps(rate) as real;
    if c.estimate.Some? {
      BlendIsBetween(c.estimate.value, sample, weight, 0.0, MaxReal(c.estimate.value, sample));
    }
  }

  /** On every run the estimate exists as long as there are samples, and stays among them. */
  lemma {:induction false} EstimateStaysAmongSamples(es: seq<Event>, low: real, high: real)
    requires forall k | 0 <= k < |Samples(es)| :: low <= Samples(es)[k] as real <= high
    ensures Run(es).estimate.Some? <==> Samples(es) != []
    ensures Run(es).estimate.Some? ==> low <= Run(es).estimate.value <= high
    ensures ValidCapacity(Run(es))
  {
    if es == [] {
    } else {
      hide Blend, NormalisedError;
      var before := es[..|es| - 1];
      match es[|es| - 1]
      case Overuse(rate) =>
        var all := Samples(es);
        assert all[|all| - 1] == Kbps(rate);
        assert forall k | 0 <= k < |Samples(before)| :: Samples(before)[k] == all[k];
        EstimateStaysAmongSamples(before, low, high);
        UpdateIsValid(Run(before), rate, OVERUSE_WEIGHT);
        if Run(before).estimate.Some? {
          BlendIsBetween(Run(before).estimate.value, Kbps(rate) as real, OVERUSE_WEIGHT, low, high);
        }
      case Forget =>
        DeviationStaysInRange(before);
    }
  }

  lemma {:induction false} DeviationStaysInRange(es: seq<Event>)
    ensures ValidCapacity(Run(es))
  {
    if es == [] {
    } else {
      hide Update;
      DeviationStaysInRange(es[..|es| - 1]);
      match es[|es| - 1]
      case Overuse(rate) => UpdateIsValid(Run(es[..|es| - 1]), rate, OVERUSE_WEIGHT);
      case Forget =>
    }
  }

  function Repeated(c: Capacity, rate: nat, n: nat): Capacity {
    if n == 0 then c else Update(Repeated(c, rate, n - 1), rate, OVERUSE_WEIGHT)
  }

  /** Overuse at the same throughput again and again takes a twentieth off the distance each time. */
  lemma {:induction false} EstimateConverges(c: Capacity, rate: nat, n: nat)
    requires c.estimate.Some?
    ensures var sample, r := Kbps(rate) as real, Repeated(c, rate, n);
            r.estimate.Some? && r.estimate.value - sample == Times(Power(0.95, n), c.estimate.value - sample)
  {
    hide Times, Kbps;
    var sample := Kbps(rate) as real;
    Unit(c.estimate.value - sample);
    if n == 0 {
    } else {
      EstimateConverges(c, rate, n - 1);
      var e := Repeated(c, rate, n - 1).estimate.value;
      DistanceShrinks(e, sample);
      Associates(0.95, Power(0.95, n - 1), c.estimate.value - sample);
    }
  }

  lemma DistanceShrinks(e: real, sample: real)
    ensures Blend(e, sample, OVERUSE_WEIGHT) - sample == Times(0.95, e - sample)
  {
  }

  lemma Associates(x: real, y: real, z: real)
    ensures Times(Times(x, y), z) == Times(x, Times(y, z))
  {
  }

  /** The estimate lies between its bounds. */
  lemma BoundsEncloseEstimate(m: Math, c: Capacity)
    requires ValidMath(m) && ValidCapacity(c) && c.estimate.Some?
    ensures 0 <= LowerBound(m, c) <= Bps(c.estimate.value) <= UpperBound(m, c).value
  {
    hide Times;
    var e := c.estimate.value;
    ProductIsPositive(c.deviation, e);
    assert Margin(m, c) >= 0.0;
    TruncateIsMonotone(MaxReal(0.0, e - Margin(m, c)) * 1000.0, e * 1000.0);
    TruncateIsMonotone(e * 1000.0, (e + Margin(m, c)) * 1000.0);
  }

  /** One overuse takes the estimate a twentieth of the way; the deviation follows the square of what is left. */
  lemma OveruseExactly(c: Capacity, rate: nat)
    ensures var sample, t := DivRoundPositiveToNearest(rate, 1_000) as real, Update(c, rate, OVERUSE_WEIGHT);
            match c.estimate
            case None => t == Capacity(Some(sample), ClampReal(0.95 * c.deviation, 0.4, 2.5))
            case Some(e) =>
              var after := e + 0.05 * (sample - e);
              t == Capacity(Some(after),
                            ClampReal(0.95 * c.deviation + 0.05 * (Times(after - sample, after - sample) / MaxReal(after, 1.0)), 0.4, 2.5))
  {
    var sample := Kbps(rate) as real;
    var estimate := match c.estimate case None => sample case Some(e) => Blend(e, sample, OVERUSE_WEIGHT);
    BlendByTwentieth(c.deviation, NormalisedError(estimate, sample));
    match c.estimate
    case None =>
      Unit(sample - sample);
    case Some(e) => BlendByTwentieth(e, sample);
    hide Blend, Times;
  }

  lemma BlendByTwentieth(x: real, y: real)
    ensures Blend(x, y, OVERUSE_WEIGHT) == 0.95 * x + 0.05 * y
  {
  }

  /** The bounds are three deviations off, the deviation being relative to the estimate. */
  lemma MarginIsThreeDeviations(m: Math, c: Capacity)
    requires ValidMath(m) && ValidCapacity(c) && c.estimate.Some?
    ensures var e, margin := c.estimate.value, Margin(m, c);
            && margin >= 0.0 && Times(margin, margin) == 9.0 * Times(c.deviation, e)
            && UpperBound(m, c) == Some(Truncate((e + margin) * 1000.0))
            && LowerBound(m, c) == Truncate(MaxReal(0.0, e - margin) * 1000.0)
  {
    var x := Times(c.deviation, c.estimate.value);
    ProductIsPositive(c.deviation, c.estimate.value);
    TripledSquare(m.sqrt(x));
    hide Times;
  }

  lemma TripledSquare(r: real)
    ensures Times(3.0 * r, 3.0 * r) == 9.0 * Times(r, r)
  {
  }

  // ----- The program's object

  class LinkCapacityEstimator {
    var estimateKbps: Option<real>
    var deviationKbps: real

    ghost function Abs(): Capacity
      reads this
    {
      Capacity(estimateKbps, deviationKbps)
    }

    constructor ()
      ensures Abs() == UNKNOWN
    {
      estimateKbps, deviationKbps := None, 0.4;
    }

    method Clear()
      modifies this
      ensures Abs() == Reset(old(Abs()))
    {
      estimateKbps := None;
    }

    method OnOveruseDetected(acknowledgedRate: nat)
      modifies this
      ensures Abs() == Update(old(Abs()), acknowledgedRate, OVERUSE_WEIGHT)
    {
      UpdateWith(acknowledgedRate, OVERUSE_WEIGHT);
    }

    method UpdateWith(capacitySample: nat, alpha: real)
      modifies this
      ensures Abs() == Update(old(Abs()), capacitySample, alpha)
    {
      hide Times;
      var sampleKbps := Kbps(capacitySample) as real;
      if estimateKbps.None? {
        estimateKbps := Some(sampleKbps);
      } else {
        estimateKbps := Some(Times(1.0 - alpha, estimateKbps.value) + Times(alpha, sampleKbps));
      }
      var norm := MaxReal(estimateKbps.value, 1.0);
      var errorKbps := estimateKbps.value - sampleKbps;
      deviationKbps := Times(1.0 - alpha, deviationKbps) + Times(alpha, Times(errorKbps, errorKbps) / norm);
      deviationKbps := ClampReal(deviationKbps, MIN_DEVIATION, MAX_DEVIATION);
    }
  }
}

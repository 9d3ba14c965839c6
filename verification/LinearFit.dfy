/**
  The slope of the delay over the arrival time, by least squares. The loops compute
  centred sums; the lemmas say what their quotient is, in terms of lines and of pairs of
  points.
 */
module LinearFit {
  import opened Units
  import opened Algebra

  datatype PacketTiming = PacketTiming(arrival: real, smoothed: real, raw: real)

  function SumX(ps: seq<PacketTiming>): real {
    if ps == [] then 0.0 else SumX(ps[..|ps| - 1]) + ps[|ps| - 1].arrival
  }

  function SumY(ps: seq<PacketTiming>): real {
    if ps == [] then 0.0 else SumY(ps[..|ps| - 1]) + ps[|ps| - 1].smoothed
  }

  function Product(p: PacketTiming, a: real, b: real): real {
    Times(p.arrival - a, p.smoothed - b)
  }

  function SquareX(p: PacketTiming, a: real): real {
    Times(p.arrival - a, p.arrival - a)
  }

  function Cross(ps: seq<PacketTiming>, a: real, b: real): real {
    if ps == [] then 0.0 else Cross(ps[..|ps| - 1], a, b) + Product(ps[|ps| - 1], a, b)
  }

  function Square(ps: seq<PacketTiming>, a: real): real {
    if ps == [] then 0.0 else Square(ps[..|ps| - 1], a) + SquareX(ps[|ps| - 1], a)
  }

  function MeanX(ps: seq<PacketTiming>): real
    requires ps != []
  {
    SumX(ps) / |ps| as real
  }

  function MeanY(ps: seq<PacketTiming>): real
    requires ps != []
  {
    SumY(ps) / |ps| as real
  }

  function Slope(ps: seq<PacketTiming>): Option<real> {
    if ps == [] || Square(ps, MeanX(ps)) == 0.0 then None
    else Some(Cross(ps, MeanX(ps), MeanY(ps)) / Square(ps, MeanX(ps)))
  }

  /** The two accumulation loops. No packets have no slope. */
  method LinearFitSlope(packets: seq<PacketTiming>) returns (slope: Option<real>)
    ensures slope == Slope(packets)
  {
    if packets == [] {
      return None;
    }
    hide Product, SquareX;
    var sumX, sumY := 0.0, 0.0;
    for i := 0 to |packets|
      invariant sumX == SumX(packets[..i]) && sumY == SumY(packets[..i])
    {
      assert packets[..i + 1][..i] == packets[..i];
      sumX, sumY := sumX + packets[i].arrival, sumY + packets[i].smoothed;
    }
    assert packets[..|packets|] == packets;
    var xAvg, yAvg := sumX / |packets| as real, sumY / |packets| as real;
    var numerator, denominator := 0.0, 0.0;
    for i := 0 to |packets|
      invariant numerator == Cross(packets[..i], xAvg, yAvg)
      invariant denominator == Square(packets[..i], xAvg)
    {
      assert packets[..i + 1][..i] == packets[..i];
      numerator := numerator + Product(packets[i], xAvg, yAvg);
      denominator := denominator + SquareX(packets[i], xAvg);
    }
    if denominator == 0.0 {
      return None;
    }
    return Some(numerator / denominator);
  }

  // ----- When there is a slope

  lemma {:induction false} SquareIsZero(ps: seq<PacketTiming>, a: real)
    ensures Square(ps, a) >= 0.0
    ensures Square(ps, a) == 0.0 <==> forall p | p in ps :: p.arrival == a
  {
    hide Times;
    if ps == [] {
    } else {
      var n := |ps| - 1;
      SquareIsZero(ps[..n], a);
      assert forall p :: p in ps <==> p in ps[..n] || p == ps[n];
      SquareIsPositive(ps[n].arrival - a);
    }
  }

  lemma {:induction false} SumOfEqual(ps: seq<PacketTiming>, a: real)
    requires forall p | p in ps :: p.arrival == a
    ensures SumX(ps) == Times(|ps| as real, a)
  {
    Unit(a);
    if ps == [] {
    } else {
      var n := |ps| - 1;
      SumOfEqual(ps[..n], a);
      Distributes(n as real, 1.0, a);
      hide Times;
      assert |ps| as real == n as real + 1.0;
    }
  }

  /** There is none exactly when all packets arrived at the same time. */
  lemma NoSlopeExactlyWhen(ps: seq<PacketTiming>)
    ensures Slope(ps).None? <==> forall p, q | p in ps && q in ps :: p.arrival == q.arrival
  {
    hide SumX, SumY, Square, Cross;
    if ps != [] {
      SquareIsZero(ps, MeanX(ps));
      if forall p, q | p in ps && q in ps :: p.arrival == q.arrival {
        assert ps[0] in ps;
        SumOfEqual(ps, ps[0].arrival);
      }
    }
  }

  // ----- The best line

  function Distance(p: PacketTiming, c: real, k: real): real {
    Times(p.smoothed - c - Times(k, p.arrival), p.smoothed - c - Times(k, p.arrival))
  }

  /** The squared distance of the points from the line y = c + k x. */
  function Residual(ps: seq<PacketTiming>, c: real, k: real): real {
    if ps == [] then 0.0 else Residual(ps[..|ps| - 1], c, k) + Distance(ps[|ps| - 1], c, k)
  }

  function SquareY(p: PacketTiming, b: real): real {
    Times(p.smoothed - b, p.smoothed - b)
  }

  function SquareOfY(ps: seq<PacketTiming>, b: real): real {
    if ps == [] then 0.0 else SquareOfY(ps[..|ps| - 1], b) + SquareY(ps[|ps| - 1], b)
  }

  function SumAroundX(ps: seq<PacketTiming>, a: real): real {
    if ps == [] then 0.0 else SumAroundX(ps[..|ps| - 1], a) + (ps[|ps| - 1].arrival - a)
  }

  function SumAroundY(ps: seq<PacketTiming>, b: real): real {
    if ps == [] then 0.0 else SumAroundY(ps[..|ps| - 1], b) + (ps[|ps| - 1].smoothed - b)
  }

  /** A residual from the sums around (a, b), for a line that passes e below that point. */
  function FromSums(k: real, e: real, n: real, yy: real, xy: real, xx: real, y: real, x: real): real {
    yy - 2.0 * k * xy + k * k * xx + 2.0 * e * (y - k * x) + n * e * e
  }

  lemma OneMorePoint(k: real, e: real, n: real, yy: real, xy: real, xx: real, y: real, x: real, u: real, v: real)
    ensures FromSums(k, e, n + 1.0, yy + Times(v, v), xy + Times(u, v), xx + Times(u, u), y + v, x + u) ==
            FromSums(k, e, n, yy, xy, xx, y, x) + Times(v - Times(k, u) + e, v - Times(k, u) + e)
  {
  }

  lemma {:induction false} ResidualAround(ps: seq<PacketTiming>, c: real, k: real, a: real, b: real)
    ensures Residual(ps, c, k) ==
            FromSums(k, b - c - Times(k, a), |ps| as real, SquareOfY(ps, b), Cross(ps, a, b), Square(ps, a),
                     SumAroundY(ps, b), SumAroundX(ps, a))
  {
    if ps == [] {
    } else {
      hide FromSums, Times;
      var qs, p := ps[..|ps| - 1], ps[|ps| - 1];
      var u, v, e := p.arrival - a, p.smoothed - b, b - c - Times(k, a);
      ResidualAround(qs, c, k, a, b);
      OneMorePoint(k, e, |qs| as real, SquareOfY(qs, b), Cross(qs, a, b), Square(qs, a),
                   SumAroundY(qs, b), SumAroundX(qs, a), u, v);
      Distributes(p.arrival, a, k);
      assert v - Times(k, u) + e == p.smoothed - c - Times(k, p.arrival);
      assert |ps| as real == |qs| as real + 1.0;
    }
  }

  lemma {:induction false} SumAround(ps: seq<PacketTiming>, a: real, b: real)
    ensures SumAroundX(ps, a) == SumX(ps) - Times(|ps| as real, a)
    ensures SumAroundY(ps, b) == SumY(ps) - Times(|ps| as real, b)
  {
    hide Times;
    Unit(a);
    Unit(b);
    if ps == [] {
    } else {
      var n := |ps| - 1;
      SumAround(ps[..n], a, b);
      Distributes(n as real, 1.0, a);
      Distributes(n as real, 1.0, b);
      assert |ps| as real == n as real + 1.0;
    }
  }

  lemma MeansAreCentres(ps: seq<PacketTiming>)
    requires ps != []
    ensures SumAroundX(ps, MeanX(ps)) == 0.0 && SumAroundY(ps, MeanY(ps)) == 0.0
  {
    hide SumX, SumY, SumAroundX, SumAroundY, Times;
    SumAround(ps, MeanX(ps), MeanY(ps));
    QuotientTimes(SumX(ps), |ps| as real);
    QuotientTimes(SumY(ps), |ps| as real);
  }

  /** Completing the square. */
  lemma Parabola(k: real, best: real, e: real, n: real, yy: real, xx: real)
    ensures FromSums(k, e, n, yy, Times(best, xx), xx, 0.0, 0.0) ==
            FromSums(best, 0.0, n, yy, Times(best, xx), xx, 0.0, 0.0)
            + Times(xx, Times(k - best, k - best)) + Times(n, Times(e, e))
  {
  }

  /** The line through the centre with the computed slope. */
  function BestResidual(ps: seq<PacketTiming>): real
    requires Slope(ps).Some?
  {
    Residual(ps, MeanY(ps) - Times(Slope(ps).value, MeanX(ps)), Slope(ps).value)
  }

  lemma ResidualIsSquares(ps: seq<PacketTiming>, c: real, k: real)
    requires Slope(ps).Some?
    ensures var g, e := k - Slope(ps).value, MeanY(ps) - c - Times(k, MeanX(ps));
            Residual(ps, c, k) ==
            BestResidual(ps) + Times(Square(ps, MeanX(ps)), Times(g, g)) + Times(|ps| as real, Times(e, e))
  {
    hide Residual, FromSums, Square, Cross, MeanX, MeanY, Times;
    var a, b, best := MeanX(ps), MeanY(ps), Slope(ps).value;
    MeansAreCentres(ps);
    QuotientTimes(Cross(ps, a, b), Square(ps, a));
    ResidualAround(ps, c, k, a, b);
    ResidualAround(ps, b - Times(best, a), best, a, b);
    Parabola(k, best, b - c - Times(k, a), |ps| as real, SquareOfY(ps, b), Square(ps, a));
  }

  /** No line has a smaller residual, and only lines with this slope may reach it. */
  lemma SlopeMinimisesResidual(ps: seq<PacketTiming>, c: real, k: real)
    requires Slope(ps).Some?
    ensures BestResidual(ps) <= Residual(ps, c, k)
    ensures k != Slope(ps).value ==> BestResidual(ps) < Residual(ps, c, k)
  {
    hide Residual, BestResidual, Square, Cross, MeanX, MeanY, Times;
    ResidualIsSquares(ps, c, k);
    SquareIsZero(ps, MeanX(ps));
    var d, n := Square(ps, MeanX(ps)), |ps| as real;
    var e, g := MeanY(ps) - c - Times(k, MeanX(ps)), k - Slope(ps).value;
    SquareIsPositive(e);
    SquareIsPositive(g);
    ProductIsPositive(n, Times(e, e));
    ProductIsPositive(d, Times(g, g));
  }

  // ----- Pairs of points

  /** The sum over q in qs of the sum over p in ps of (q.x - p.x)(q.y - p.y). */
  function Pairs(ps: seq<PacketTiming>, qs: seq<PacketTiming>): real {
    if qs == [] then 0.0 else
    Pairs(ps, qs[..|qs| - 1]) + Cross(ps, qs[|qs| - 1].arrival, qs[|qs| - 1].smoothed)
  }

  function Shifted(xy: real, x: real, y: real, n: real, s: real, t: real): real {
    xy - s * y - t * x + n * (s * t)
  }

  lemma OneMoreShifted(xy: real, x: real, y: real, n: real, s: real, t: real, u: real, v: real)
    ensures Shifted(xy + Times(u, v), x + u, y + v, n + 1.0, s, t) == Shifted(xy, x, y, n, s, t) + Times(u - s, v - t)
  {
  }

  lemma NothingShifted(s: real, t: real)
    ensures Shifted(0.0, 0.0, 0.0, 0.0, s, t) == 0.0
  {
  }

  lemma {:induction false} CrossAround(ps: seq<PacketTiming>, a: real, b: real, c: real, d: real)
    ensures Cross(ps, c, d) == Shifted(Cross(ps, a, b), SumAroundX(ps, a), SumAroundY(ps, b), |ps| as real, c - a, d - b)
  {
    hide Shifted, Times;
    if ps == [] {
      NothingShifted(c - a, d - b);
    } else {
      var qs, p := ps[..|ps| - 1], ps[|ps| - 1];
      CrossAround(qs, a, b, c, d);
      OneMoreShifted(Cross(qs, a, b), SumAroundX(qs, a), SumAroundY(qs, b), |qs| as real, c - a, d - b,
                     p.arrival - a, p.smoothed - b);
      assert p.arrival - a - (c - a) == p.arrival - c && p.smoothed - b - (d - b) == p.smoothed - d;
      assert |ps| as real == |qs| as real + 1.0;
    }
  }

  lemma ShiftedFromCentre(xy: real, n: real, s: real, t: real)
    ensures Shifted(xy, 0.0, 0.0, n, s, t) == xy + Times(n, Times(s, t))
  {
  }

  lemma {:induction false} PairsAround(ps: seq<PacketTiming>, qs: seq<PacketTiming>)
    requires ps != []
    ensures var a, b := MeanX(ps), MeanY(ps);
            Pairs(ps, qs) == Times(|qs| as real, Cross(ps, a, b)) + Times(|ps| as real, Cross(qs, a, b))
  {
    hide Times, Shifted, MeanX, MeanY;
    var a, b, n := MeanX(ps), MeanY(ps), |ps| as real;
    Unit(Cross(ps, a, b));
    if qs == [] {
      TimesZero(n);
    } else {
      var m, q := |qs| - 1, qs[|qs| - 1];
      PairsAround(ps, qs[..m]);
      MeansAreCentres(ps);
      CrossAround(ps, a, b, q.arrival, q.smoothed);
      ShiftedFromCentre(Cross(ps, a, b), n, q.arrival - a, q.smoothed - b);
      Distributes(m as real, 1.0, Cross(ps, a, b));
      Distributes(Cross(qs[..m], a, b), Product(q, a, b), n);
      assert |qs| as real == m as real + 1.0;
    }
  }

  lemma TimesZero(x: real)
    ensures Times(x, 0.0) == 0.0
  {
  }

  ghost predicate Concordant(p: PacketTiming, q: PacketTiming) {
    p.arrival < q.arrival ==> p.smoothed <= q.smoothed
  }

  ghost predicate AllConcordant(ps: seq<PacketTiming>) {
    forall p, q | p in ps && q in ps :: Concordant(p, q)
  }

  lemma ConcordantProduct(p: PacketTiming, q: PacketTiming)
    requires Concordant(p, q) && Concordant(q, p)
    ensures Product(p, q.arrival, q.smoothed) >= 0.0
  {
    hide Times;
    var u, v := p.arrival - q.arrival, p.smoothed - q.smoothed;
    if u < 0.0 {
      ProductOfNegatives(u, v);
    } else {
      ProductIsPositive(u, v);
      Unit(v);
    }
  }

  lemma {:induction false} ConcordantCross(ps: seq<PacketTiming>, q: PacketTiming)
    requires forall p | p in ps :: Concordant(p, q) && Concordant(q, p)
    ensures Cross(ps, q.arrival, q.smoothed) >= 0.0
  {
    hide Product;
    if ps == [] {
    } else {
      ConcordantCross(ps[..|ps| - 1], q);
      ConcordantProduct(ps[|ps| - 1], q);
    }
  }

  lemma {:induction false} ConcordantPairs(ps: seq<PacketTiming>, qs: seq<PacketTiming>)
    requires forall p, q | p in ps && q in qs :: Concordant(p, q) && Concordant(q, p)
    ensures Pairs(ps, qs) >= 0.0
  {
    if qs == [] {
    } else {
      hide Cross;
      assert qs[|qs| - 1] in qs;
      ConcordantPairs(ps, qs[..|qs| - 1]);
      ConcordantCross(ps, qs[|qs| - 1]);
    }
  }

  /** Chebyshev's sum inequality. */
  lemma ConcordantSum(ps: seq<PacketTiming>)
    requires ps != [] && AllConcordant(ps)
    ensures Cross(ps, MeanX(ps), MeanY(ps)) >= 0.0
  {
    hide Times, Cross, MeanX, MeanY, Pairs;
    ConcordantPairs(ps, ps);
    PairsAround(ps, ps);
    if Cross(ps, MeanX(ps), MeanY(ps)) < 0.0 {
      ProductIsNegative(|ps| as real, Cross(ps, MeanX(ps), MeanY(ps)));
    }
  }

  lemma QuotientIsPositive(x: real, d: real)
    requires x >= 0.0 && d > 0.0
    ensures x / d >= 0.0
  {
  }

  /** Delays that are ordered like the arrivals do not fall. */
  lemma OrderedDelaysDoNotFall(ps: seq<PacketTiming>)
    requires Slope(ps).Some? && AllConcordant(ps)
    ensures Slope(ps).value >= 0.0
  {
    hide Square, Cross, MeanX, MeanY, AllConcordant;
    ConcordantSum(ps);
    SquareIsZero(ps, MeanX(ps));
    QuotientIsPositive(Cross(ps, MeanX(ps), MeanY(ps)), Square(ps, MeanX(ps)));
  }

  function Tilt(p: PacketTiming, sign: real, k: real): PacketTiming {
    p.(smoothed := Times(sign, p.smoothed) - Times(k, p.arrival))
  }

  /** The points with the line y = k x taken away, perhaps turned upside down first. */
  function Tilted(ps: seq<PacketTiming>, sign: real, k: real): (qs: seq<PacketTiming>)
    ensures |qs| == |ps|
    ensures forall i | 0 <= i < |ps| :: qs[i] == Tilt(ps[i], sign, k)
  {
    if ps == [] then [] else Tilted(ps[..|ps| - 1], sign, k) + [Tilt(ps[|ps| - 1], sign, k)]
  }

  lemma TiltedProduct(u: real, y: real, x: real, sign: real, k: real, a: real, b: real)
    requires u == x - a
    ensures Times(u, Times(sign, y) - Times(k, x) - (Times(sign, b) - Times(k, a))) ==
            Times(sign, Times(u, y - b)) - Times(k, Times(u, u))
  {
  }

  lemma {:induction false} TiltedSums(ps: seq<PacketTiming>, sign: real, k: real)
    ensures SumX(Tilted(ps, sign, k)) == SumX(ps)
    ensures SumY(Tilted(ps, sign, k)) == Times(sign, SumY(ps)) - Times(k, SumX(ps))
  {
    hide Times;
    TimesZero(sign);
    TimesZero(k);
    if ps == [] {
    } else {
      var n, qs := |ps| - 1, Tilted(ps, sign, k);
      assert qs[..n] == Tilted(ps[..n], sign, k);
      TiltedSums(ps[..n], sign, k);
      Distributes(SumY(ps[..n]), ps[n].smoothed, sign);
      Distributes(SumX(ps[..n]), ps[n].arrival, k);
    }
  }

  lemma {:induction false} TiltedCross(ps: seq<PacketTiming>, sign: real, k: real, a: real, b: real)
    ensures Cross(Tilted(ps, sign, k), a, Times(sign, b) - Times(k, a)) ==
            Times(sign, Cross(ps, a, b)) - Times(k, Square(ps, a))
  {
    hide Times;
    TimesZero(sign);
    TimesZero(k);
    if ps == [] {
    } else {
      var n, qs, p := |ps| - 1, Tilted(ps, sign, k), ps[|ps| - 1];
      assert qs[..n] == Tilted(ps[..n], sign, k);
      TiltedCross(ps[..n], sign, k, a, b);
      TiltedProduct(p.arrival - a, p.smoothed, p.arrival, sign, k, a, b);
      Distributes(Cross(ps[..n], a, b), Product(p, a, b), sign);
      Distributes(Square(ps[..n], a), SquareX(p, a), k);
    }
  }

  lemma MeanOfTilted(y: real, x: real, n: real, sign: real, k: real)
    requires n != 0.0
    ensures (Times(sign, y) - Times(k, x)) / n == Times(sign, y / n) - Times(k, x / n)
  {
  }

  lemma TiltedIsConcordant(ps: seq<PacketTiming>, sign: real, k: real)
    requires forall p, q | p in ps && q in ps && p.arrival < q.arrival ::
               Tilt(p, sign, k).smoothed <= Tilt(q, sign, k).smoothed
    ensures AllConcordant(Tilted(ps, sign, k))
  {
    hide Times;
    var qs := Tilted(ps, sign, k);
    forall q, r | q in qs && r in qs
      ensures Concordant(q, r)
    {
      var i :| 0 <= i < |qs| && qs[i] == q;
      var j :| 0 <= j < |qs| && qs[j] == r;
      assert ps[i] in ps && ps[j] in ps;
    }
  }

  /** A bound on the slope through any two points is a bound on the sums. */
  lemma PairBoundIsSumBound(ps: seq<PacketTiming>, sign: real, k: real)
    requires ps != []
    requires forall p, q | p in ps && q in ps && p.arrival < q.arrival ::
               Tilt(p, sign, k).smoothed <= Tilt(q, sign, k).smoothed
    ensures Times(sign, Cross(ps, MeanX(ps), MeanY(ps))) - Times(k, Square(ps, MeanX(ps))) >= 0.0
  {
    hide SumX, SumY, Cross, Square, Times, AllConcordant, Concordant, Tilt, Tilted;
    var qs := Tilted(ps, sign, k);
    TiltedIsConcordant(ps, sign, k);
    ConcordantSum(qs);
    TiltedSums(ps, sign, k);
    MeanOfTilted(SumY(ps), SumX(ps), |ps| as real, sign, k);
    TiltedCross(ps, sign, k, MeanX(ps), MeanY(ps));
  }

  /** The slope lies between the smallest and the largest slope through two points. */
  lemma SlopeIsBetweenPairSlopes(ps: seq<PacketTiming>, low: real, high: real)
    requires Slope(ps).Some?
    requires forall p, q | p in ps && q in ps && p.arrival < q.arrival ::
               Times(low, q.arrival - p.arrival) <= q.smoothed - p.smoothed <= Times(high, q.arrival - p.arrival)
    ensures low <= Slope(ps).value <= high
  {
    hide Times, Square, Cross, MeanX, MeanY;
    forall p, q | p in ps && q in ps && p.arrival < q.arrival
      ensures Tilt(p, 1.0, low).smoothed <= Tilt(q, 1.0, low).smoothed
      ensures Tilt(p, -1.0, -high).smoothed <= Tilt(q, -1.0, -high).smoothed
    {
      TiltIsOrdered(p, q, low, high);
    }
    PairBoundIsSumBound(ps, 1.0, low);
    PairBoundIsSumBound(ps, -1.0, -high);
    SquareIsZero(ps, MeanX(ps));
    var x, d := Cross(ps, MeanX(ps), MeanY(ps)), Square(ps, MeanX(ps));
    Unit(x);
    Negated(high, d);
    QuotientTimes(x, d);
    Cancel(low, x / d, d);
    Cancel(x / d, high, d);
  }

  lemma TiltIsOrdered(p: PacketTiming, q: PacketTiming, low: real, high: real)
    requires Times(low, q.arrival - p.arrival) <= q.smoothed - p.smoothed <= Times(high, q.arrival - p.arrival)
    ensures Tilt(p, 1.0, low).smoothed <= Tilt(q, 1.0, low).smoothed
    ensures Tilt(p, -1.0, -high).smoothed <= Tilt(q, -1.0, -high).smoothed
  {
    hide Times;
    Distributes(q.arrival, p.arrival, low);
    Distributes(q.arrival, p.arrival, high);
    Unit(p.smoothed);
    Unit(q.smoothed);
    Negated(high, p.arrival);
    Negated(high, q.arrival);
  }
}

/**
  The acknowledged bitrate: bytes are counted in windows, and each full window is a
  sample of a Bayesian average.
 */
module BitrateEstimator {
  import opened Units
  import opened Algebra

  const INITIAL_WINDOW := 500
  const WINDOW := 150
  const UNCERTAINTY_SCALE := 10.0
  const INITIAL_VARIANCE := 50.0
  const VARIANCE_GROWTH := 5.0

  /** `previous` is the last time in milliseconds, if there is one. */
  datatype State = State(sum: nat, window: int, previous: Option<nat>, estimate: Option<real>, variance: real)

  const INITIAL := State(0, 0, None, None, INITIAL_VARIANCE)

  // ----- The window

  /** Half a second for the first estimate, then 150 ms. */
  function WindowLength(s: State): (r: int)
    ensures r == 500 || r == 150
    ensures r == 500 <==> s.estimate.None?
  {
    if s.estimate.None? then INITIAL_WINDOW else WINDOW
  }

  /** A step backwards in time empties the window. */
  function Rewound(s: State, now: nat): State {
    if s.previous.Some? && now < s.previous.value then s.(previous := None, sum := 0, window := 0) else s
  }

  /** The window after the time since the last packet; a gap longer than it empties the sum. */
  function Elapsed(s: State, now: nat, length: int): State
    requires length > 0 && s.window >= 0 && (s.previous.Some? ==> s.previous.value <= now)
  {
    match s.previous
    case None => s
    case Some(p) =>
      var window := s.window + (now - p);
      if now - p > length then s.(sum := 0, window := window % length) else s.(window := window)
  }

  /** The bytes of the sample that is due, if one is. */
  function Due(s: State, length: int): Option<nat> {
    if s.window >= length then Some(s.sum) else None
  }

  function UpdateWindow(s: State, now: nat, bytes: nat, length: int): (State, Option<nat>)
    requires length > 0 && s.window >= 0
  {
    var t := Elapsed(Rewound(s, now), now, length);
    match Due(t, length)
    case None => (t.(previous := Some(now), sum := t.sum + bytes), None)
    case Some(full) => (t.(previous := Some(now), window := t.window - length, sum := bytes), Some(full))
  }

  // ----- The average

  /** Kilobits per second of so many bytes in a window. */
  function SampleRate(bytes: nat, length: int): real
    requires length > 0
  {
    8.0 * bytes as real / length as real
  }

  function SampleVariance(estimate: real, sample: real): real
    requires estimate > 0.0 && sample > 0.0
  {
    var uncertainty := UNCERTAINTY_SCALE * AbsReal(estimate - sample) / (estimate + MinReal(sample, 0.0));
    Times(uncertainty, uncertainty)
  }

  function Average(a: real, x: real, b: real, y: real): real
    requires a + b > 0.0
  {
    (Times(a, x) + Times(b, y)) / (a + b)
  }

  function Absorb(s: State, sample: real): State
    requires sample > 0.0 && s.variance >= 0.0 && (s.estimate.Some? ==> s.estimate.value > 0.0)
  {
    match s.estimate
    case None => s.(estimate := Some(sample))
    case Some(e) =>
      var v, p := SampleVariance(e, sample), s.variance + VARIANCE_GROWTH;
      SquareIsPositive(UNCERTAINTY_SCALE * AbsReal(e - sample) / (e + MinReal(sample, 0.0)));
      s.(estimate := Some(MaxReal(Average(v, e, p, sample), 0.0)), variance := Times(v, p) / (v + p))
  }

  /** In a valid state every sample that is due has bytes, so the update divides by no zero. */
  ghost predicate Valid(s: State) {
    && 0 <= s.window < INITIAL_WINDOW
    && (s.previous.Some? ==> s.sum > 0)
    && (s.previous.None? ==> s.window == 0 && s.sum == 0)
    && (s.estimate.Some? ==> s.estimate.value > 0.0)
    && s.variance >= 0.0
  }

  lemma WindowStaysShort(s: State, now: nat, bytes: nat, length: int)
    requires Valid(s) && bytes > 0 && (length == INITIAL_WINDOW || length == WINDOW)
    ensures var (t, full) := UpdateWindow(s, now, bytes, length);
            && 0 <= t.window < INITIAL_WINDOW && t.sum > 0 && t.previous == Some(now)
            && (full.Some? ==> full.value > 0)
            && t.estimate == s.estimate && t.variance == s.variance
            // Once below the short window, always below it.
            && (length == WINDOW && s.window < WINDOW ==> t.window < WINDOW)
            // Above it, the excess never grows.
            && (length == WINDOW ==> t.window < WINDOW || t.window <= s.window)
  {
  }

  function Update(s: State, now: nat, bytes: nat): State
    requires Valid(s) && bytes > 0
  {
    var length := WindowLength(s);
    WindowStaysShort(s, now, bytes, length);
    var (t, full) := UpdateWindow(s, now, bytes, length);
    match full
    case None => t
    case Some(b) => SampleIsPositive(b, length); Absorb(t, SampleRate(b, length))
  }

  lemma SampleIsPositive(bytes: nat, length: int)
    requires bytes > 0 && length > 0
    ensures SampleRate(bytes, length) > 0.0
  {
  }

  lemma AverageIsBetween(a: real, x: real, b: real, y: real, low: real, high: real)
    requires a >= 0.0 && b >= 0.0 && a + b > 0.0 && low <= x <= high && low <= y <= high
    ensures low <= Average(a, x, b, y) <= high
  {
    hide Times;
    Between(a, x, low, high);
    Between(b, y, low, high);
    Distributes(a, b, low);
    Distributes(a, b, high);
    QuotientTimes(Times(a, x) + Times(b, y), a + b);
    Swap(a + b, low);
    Swap(a + b, high);
    Cancel(low, Average(a, x, b, y), a + b);
    Cancel(Average(a, x, b, y), high, a + b);
  }

  lemma Between(a: real, x: real, low: real, high: real)
    requires a >= 0.0 && low <= x <= high
    ensures Times(a, low) <= Times(a, x) <= Times(a, high)
  {
    hide Times;
    Distributes(x, low, a);
    Distributes(high, x, a);
    ProductIsPositive(a, x - low);
    ProductIsPositive(a, high - x);
  }

  /** The average is strictly nearer to a value that has some weight. */
  lemma AverageMoves(a: real, x: real, b: real, y: real)
    requires a >= 0.0 && b > 0.0 && x != y
    ensures AbsReal(Average(a, x, b, y) - y) < AbsReal(x - y)
  {
    hide Times;
    var r := Average(a, x, b, y);
    AverageIsBetween(a, x, b, y, MinReal(x, y), MaxReal(x, y));
    if r == x {
      Distributes(a, b, x);
      QuotientTimes(Times(a, x) + Times(b, y), a + b);
      Swap(a + b, x);
      Distributes(x, y, b);
      if x > y {
        ProductIsPositive(b, x - y);
      } else {
        ProductIsNegative(b, x - y);
      }
    }
  }

  /** Two uncertain values together are at least as certain as either. */
  lemma HarmonicIsBelow(v: real, p: real)
    requires v >= 0.0 && p > 0.0
    ensures 0.0 <= Times(v, p) / (v + p) <= MinReal(v, p)
  {
    hide Times;
    var q := Times(v, p) / (v + p);
    ProductIsPositive(v, p);
    QuotientTimes(Times(v, p), v + p);
    Distributes(v, p, v);
    Distributes(v, p, p);
    SquareIsPositive(v);
    SquareIsPositive(p);
    Swap(v, p);
    Unit(v + p);
    Cancel(q, v, v + p);
    Cancel(q, p, v + p);
    Cancel(0.0, q, v + p);
  }

  // ----- One update

  lemma AbsorbBounds(s: State, sample: real)
    requires sample > 0.0 && s.variance >= 0.0 && (s.estimate.Some? ==> s.estimate.value > 0.0)
    ensures var t := Absorb(s, sample);
            && t.estimate.Some? && t.window == s.window && t.sum == s.sum && t.previous == s.previous
            && t.variance >= 0.0
            && (match s.estimate
                case None => t.estimate.value == sample && t.variance == s.variance
                case Some(e) =>
                  && MinReal(e, sample) <= t.estimate.value <= MaxReal(e, sample)
                  && (e != sample ==> AbsReal(t.estimate.value - sample) < AbsReal(e - sample))
                  && t.variance <= MinReal(SampleVariance(e, sample), s.variance + VARIANCE_GROWTH))
  {
    hide Times, SampleVariance, Average;
    if s.estimate.Some? {
      var e := s.estimate.value;
      var v, p := SampleVariance(e, sample), s.variance + VARIANCE_GROWTH;
      SampleVarianceIsPositive(e, sample);
      AverageIsBetween(v, e, p, sample, MinReal(e, sample), MaxReal(e, sample));
      if e != sample {
        AverageMoves(v, e, p, sample);
      }
      HarmonicIsBelow(v, p);
    }
  }

  lemma SampleVarianceIsPositive(estimate: real, sample: real)
    requires estimate > 0.0 && sample > 0.0
    ensures SampleVariance(estimate, sample) >= 0.0
  {
    SquareIsPositive(UNCERTAINTY_SCALE * AbsReal(estimate - sample) / (estimate + MinReal(sample, 0.0)));
    hide Times;
  }

  lemma UpdateStaysValid(s: State, now: nat, bytes: nat)
    requires Valid(s) && bytes > 0
    ensures Valid(Update(s, now, bytes))
    ensures s.estimate.Some? && s.window < WINDOW ==> Update(s, now, bytes).window < WINDOW
  {
    hide UpdateWindow, Absorb, SampleRate;
    var length := WindowLength(s);
    WindowStaysShort(s, now, bytes, length);
    var (t, full) := UpdateWindow(s, now, bytes, length);
    if full.Some? {
      SampleIsPositive(full.value, length);
      AbsorbBounds(t, SampleRate(full.value, length));
    }
  }

  // ----- Runs

  datatype Packet = Packet(now: nat, bytes: nat)

  ghost predicate Sized(ps: seq<Packet>) {
    forall p | p in ps :: p.bytes > 0
  }

  /** The bytes the packet makes the window forget, and the sample it completes. */
  function Discarded(s: State, now: nat): int
    requires s.window >= 0
  {
    s.sum - Elapsed(Rewound(s, now), now, WindowLength(s)).sum
  }

  function Completed(s: State, p: Packet): Option<nat>
    requires s.window >= 0
  {
    UpdateWindow(s, p.now, p.bytes, WindowLength(s)).1
  }

  /** The state, the samples as rates, and where the bytes went. */
  datatype Session = Session(state: State, rates: seq<real>, fed: nat, sampled: nat, discarded: int)

  const START := Session(INITIAL, [], 0, 0, 0)

  ghost function Next(x: Session, p: Packet): Session
    requires Valid(x.state) && p.bytes > 0
  {
    var full := Completed(x.state, p);
    Session(Update(x.state, p.now, p.bytes),
            x.rates + (if full.Some? then [SampleRate(full.value, WindowLength(x.state))] else []),
            x.fed + p.bytes, x.sampled + full.GetOr(0), x.discarded + Discarded(x.state, p.now))
  }

  /** All bytes fed are in a sample, in the window, or were discarded at a reset. */
  ghost predicate Conserved(x: Session) {
    x.discarded >= 0 && x.fed == x.sampled + x.discarded + x.state.sum
  }

  ghost predicate AmongSamples(x: Session) {
    && (x.state.estimate.Some? <==> x.rates != [])
    && (forall low, high {:trigger Bounds(x.rates, low, high)} ::
          Bounds(x.rates, low, high) && x.state.estimate.Some? ==> low <= x.state.estimate.value <= high)
  }

  ghost predicate Bounds(rates: seq<real>, low: real, high: real) {
    forall k | 0 <= k < |rates| :: low <= rates[k] <= high
  }

  lemma WindowConserves(s: State, p: Packet)
    requires Valid(s) && p.bytes > 0
    ensures Discarded(s, p.now) >= 0
    ensures s.sum + p.bytes == Update(s, p.now, p.bytes).sum + Discarded(s, p.now) + Completed(s, p).GetOr(0)
  {
    hide Absorb, SampleRate;
    var length := WindowLength(s);
    WindowStaysShort(s, p.now, p.bytes, length);
    var (t, full) := UpdateWindow(s, p.now, p.bytes, length);
    if full.Some? {
      SampleIsPositive(full.value, length);
      AbsorbBounds(t, SampleRate(full.value, length));
    }
  }

  lemma UpdateAbsorbs(s: State, p: Packet)
    requires Valid(s) && p.bytes > 0
    ensures var t, full := Update(s, p.now, p.bytes), Completed(s, p);
            if full.None? then t.estimate == s.estimate
            else
              && t.estimate.Some?
              && (s.estimate.None? ==> t.estimate.value == SampleRate(full.value, WindowLength(s)))
              && (s.estimate.Some? ==>
                    var e, r := s.estimate.value, SampleRate(full.value, WindowLength(s));
                    MinReal(e, r) <= t.estimate.value <= MaxReal(e, r))
  {
    hide UpdateWindow, Absorb, SampleRate;
    var length := WindowLength(s);
    WindowStaysShort(s, p.now, p.bytes, length);
    var (t, full) := UpdateWindow(s, p.now, p.bytes, length);
    if full.Some? {
      SampleIsPositive(full.value, length);
      AbsorbBounds(t, SampleRate(full.value, length));
    }
  }

  lemma NextStaysAmongSamples(x: Session, p: Packet)
    requires Valid(x.state) && p.bytes > 0 && AmongSamples(x)
    ensures AmongSamples(Next(x, p))
  {
    hide Update, Completed, SampleRate, WindowLength, Discarded;
    UpdateAbsorbs(x.state, p);
    var y := Next(x, p);
    forall low, high | Bounds(y.rates, low, high) && y.state.estimate.Some?
      ensures low <= y.state.estimate.value <= high
    {
      assert forall k | 0 <= k < |x.rates| :: x.rates[k] == y.rates[k];
      assert Bounds(x.rates, low, high);
      if Completed(x.state, p).Some? {
        assert y.rates[|x.rates|] == SampleRate(Completed(x.state, p).value, WindowLength(x.state));
      }
    }
  }

  ghost function Run(ps: seq<Packet>): (x: Session)
    requires Sized(ps)
    ensures Valid(x.state)
  {
    if ps == [] then START else
    assert ps[|ps| - 1] in ps;
    var before := Run(ps[..|ps| - 1]);
    UpdateStaysValid(before.state, ps[|ps| - 1].now, ps[|ps| - 1].bytes);
    Next(before, ps[|ps| - 1])
  }

  /**
    Over every run of packets with bytes, whatever the clock does: no byte is lost or
    counted twice, and the estimate stays among the samples.
   */
  lemma {:induction false} RunIsConserved(ps: seq<Packet>)
    requires Sized(ps)
    ensures Conserved(Run(ps)) && AmongSamples(Run(ps))
  {
    if ps == [] {
    } else {
      hide Valid, Update, Completed, SampleRate, WindowLength, Discarded, AmongSamples;
      var p, x := ps[|ps| - 1], Run(ps[..|ps| - 1]);
      assert p in ps;
      RunIsConserved(ps[..|ps| - 1]);
      WindowConserves(x.state, p);
      NextStaysAmongSamples(x, p);
    }
  }

  lemma RunOfMore(ps: seq<Packet>, p: Packet)
    requires Sized(ps) && p.bytes > 0
    ensures Sized(ps + [p]) && Run(ps + [p]) == Next(Run(ps), p)
  {
    hide Next;
    var all := ps + [p];
    assert all[..|all| - 1] == ps && all[|all| - 1] == p;
  }

  lemma ShortStep(x: Session, p: Packet)
    requires Valid(x.state) && p.bytes > 0 && x.state.estimate.Some? && x.state.window < WINDOW
    ensures Next(x, p).state.estimate.Some? && Next(x, p).state.window < WINDOW
  {
    hide Valid, Update, Completed, SampleRate, WindowLength, Discarded;
    UpdateStaysValid(x.state, p.now, p.bytes);
    UpdateAbsorbs(x.state, p);
  }

  /** Once there is an estimate and the window is short, it is short forever. */
  lemma {:induction false} ShortWindowStaysShort(ps: seq<Packet>, qs: seq<Packet>)
    requires Sized(ps + qs)
    requires Sized(ps) && Run(ps).state.estimate.Some? && Run(ps).state.window < WINDOW
    ensures Run(ps + qs).state.estimate.Some? && Run(ps + qs).state.window < WINDOW
  {
    if qs == [] {
      assert ps + qs == ps;
    } else {
      var n := |qs| - 1;
      var before := ps + qs[..n];
      assert ps + qs == before + [qs[n]];
      assert qs[n] in ps + qs && Sized(before);
      hide Run, Next, Valid;
      ShortWindowStaysShort(ps, qs[..n]);
      RunOfMore(before, qs[n]);
      ShortStep(Run(before), qs[n]);
    }
  }

  // ----- When there is a sample, and what it says

  /** No bytes since the last packet count if the clock went back or was silent for a window. */
  predicate StartsOver(s: State, now: nat, length: int) {
    s.previous.None? || now < s.previous.value || now - s.previous.value > length
  }

  /**
    A packet completes a sample exactly if the window it continues is full then; the
    sample is what came before it in the window, and what exceeds the window stays.
   */
  lemma WindowExactly(s: State, now: nat, bytes: nat, length: int)
    requires Valid(s) && bytes > 0 && (length == 500 || length == 150)
    ensures var (t, full) := UpdateWindow(s, now, bytes, length);
            var over := StartsOver(s, now, length);
            var elapsed := if s.previous.None? || now < s.previous.value then 0 else now - s.previous.value;
            var fills := !over && s.window + elapsed >= length;
            && t == s.(previous := Some(now), window := t.window, sum := t.sum)
            && full == (if fills then Some(s.sum) else None)
            && t.sum == (if over || fills then bytes else s.sum + bytes)
            && t.window == (if s.previous.None? || now < s.previous.value then 0
                            else if over then (s.window + elapsed) % length
                            else s.window + elapsed - if fills then length else 0)
  {
  }

  /** Bytes in a window of milliseconds are eight times as many bits, in kilobits per second. */
  lemma SampleIsBits(bytes: nat, length: int)
    requires length > 0
    ensures Times(SampleRate(bytes, length), length as real) == 8.0 * bytes as real
  {
    QuotientTimes(8.0 * bytes as real, length as real);
  }

  /**
    The update is that of two normal distributions: precisions add up, and estimates are
    weighted by them. The old variance grows by five; the deviation of the sample is ten
    times its relative distance from the estimate.
   */
  lemma AbsorbIsBayesian(s: State, sample: real)
    requires sample > 0.0 && s.variance >= 0.0 && s.estimate.Some? && s.estimate.value > 0.0
    ensures var e, t := s.estimate.value, Absorb(s, sample);
            var uncertainty := 10.0 * AbsReal(e - sample) / e;
            var v, p := Times(uncertainty, uncertainty), s.variance + 5.0;
            && t == s.(estimate := t.estimate, variance := t.variance) && t.estimate.Some?
            && v >= 0.0
            && Times(t.variance, v + p) == Times(v, p)
            && Times(t.estimate.value, v + p) == Times(v, e) + Times(p, sample)
  {
    var e := s.estimate.value;
    var v, p := SampleVariance(e, sample), s.variance + VARIANCE_GROWTH;
    SampleVarianceIsPositive(e, sample);
    assert e + MinReal(sample, 0.0) == e;
    QuotientTimes(Times(v, p), v + p);
    QuotientTimes(Times(v, e) + Times(p, sample), v + p);
    AverageIsBetween(v, e, p, sample, MinReal(e, sample), MaxReal(e, sample));
    hide Times;
  }

  /** Until the second sample the variance is 50, and the first sample is the estimate. */
  lemma {:induction false} FirstSampleIsEstimate(ps: seq<Packet>)
    requires Sized(ps) && |Run(ps).rates| <= 1
    ensures Run(ps).state.variance == 50.0
    ensures |Run(ps).rates| == 1 ==> Run(ps).state.estimate == Some(Run(ps).rates[0])
    ensures Run(ps).rates == [] ==> Run(ps).state.estimate == None
  {
    if ps == [] {
    } else {
      hide Valid, Update, Completed, SampleRate, WindowLength, Discarded;
      var n := |ps| - 1;
      assert ps[n] in ps;
      var x := Run(ps[..n]);
      FirstSampleIsEstimate(ps[..n]);
      FirstUpdate(x.state, ps[n]);
    }
  }

  lemma FirstUpdate(s: State, p: Packet)
    requires Valid(s) && p.bytes > 0
    ensures var t, full := Update(s, p.now, p.bytes), Completed(s, p);
            && (full.None? ==> t.estimate == s.estimate && t.variance == s.variance)
            && (full.Some? && s.estimate.None? ==>
                  t.estimate == Some(SampleRate(full.value, WindowLength(s))) && t.variance == s.variance)
  {
    hide UpdateWindow, SampleRate;
    var length := WindowLength(s);
    WindowStaysShort(s, p.now, p.bytes, length);
    var (t, full) := UpdateWindow(s, p.now, p.bytes, length);
    if full.Some? {
      SampleIsPositive(full.value, length);
      AbsorbBounds(t, SampleRate(full.value, length));
    }
    hide Absorb;
  }

  // ----- Time is conserved

  /** Packets at most 150 ms apart, by a clock that does not go back. */
  ghost predicate Steady(ps: seq<Packet>) {
    forall k | 0 < k < |ps| :: ps[k - 1].now <= ps[k].now <= ps[k - 1].now + WINDOW
  }

  /** The time covered by all samples. */
  ghost function Spanned(ps: seq<Packet>): int
    requires Sized(ps)
  {
    if ps == [] then 0 else
    var n := |ps| - 1;
    var s := Run(ps[..n]).state;
    Spanned(ps[..n]) + if Completed(s, ps[n]).Some? then WindowLength(s) else 0
  }

  lemma UpdateKeepsTime(s: State, p: Packet)
    requires Valid(s) && p.bytes > 0
    ensures var t := Update(s, p.now, p.bytes);
            && t.previous == Some(p.now)
            && (s.previous.None? ==> t.window == 0 && Completed(s, p).None?)
            && (s.previous.Some? && s.previous.value <= p.now <= s.previous.value + WINDOW ==>
                  t.window + (if Completed(s, p).Some? then WindowLength(s) else 0) == s.window + (p.now - s.previous.value))
  {
    hide Absorb, SampleRate;
    var length := WindowLength(s);
    WindowStaysShort(s, p.now, p.bytes, length);
    var (t, full) := UpdateWindow(s, p.now, p.bytes, length);
    if full.Some? {
      SampleIsPositive(full.value, length);
      AbsorbBounds(t, SampleRate(full.value, length));
    }
  }

  /** On every steady run the time that passed is that of the samples and of the window. */
  lemma {:induction false} TimeIsConserved(ps: seq<Packet>)
    requires Sized(ps) && Steady(ps) && ps != []
    ensures var s := Run(ps).state;
            s.previous == Some(ps[|ps| - 1].now) && ps[|ps| - 1].now - ps[0].now == Spanned(ps) + s.window
  {
    hide Valid, Update, Completed, WindowLength, Discarded, SampleRate;
    var n := |ps| - 1;
    assert ps[n] in ps;
    var s := Run(ps[..n]).state;
    UpdateKeepsTime(s, ps[n]);
    if n == 0 {
      assert ps[..0] == [];
    } else {
      TimeIsConserved(ps[..n]);
      assert ps[n - 1].now <= ps[n].now;
    }
  }

  // ----- The program's object

  class BitrateEstimator {
    var sum: nat
    var currentWindowMs: int
    var prevTimeMs: Option<nat>
    var bitrateEstimateKbps: Option<real>
    var bitrateEstimateVar: real

    ghost function Abs(): State
      reads this
    {
      State(sum, currentWindowMs, prevTimeMs, bitrateEstimateKbps, bitrateEstimateVar)
    }

    constructor ()
      ensures Abs() == INITIAL
    {
      sum, currentWindowMs, prevTimeMs := 0, 0, None;
      bitrateEstimateKbps, bitrateEstimateVar := None, INITIAL_VARIANCE;
    }

    method UpdateWindowAt(nowMs: nat, bytes: nat, rateWindowMs: int) returns (full: Option<nat>)
      requires rateWindowMs > 0 && currentWindowMs >= 0
      modifies this
      ensures (Abs(), full) == UpdateWindow(old(Abs()), nowMs, bytes, rateWindowMs)
    {
      if prevTimeMs.Some? && nowMs < prevTimeMs.value {
        prevTimeMs := None;
        sum := 0;
        currentWindowMs := 0;
      }
      if prevTimeMs.Some? {
        currentWindowMs := currentWindowMs + (nowMs - prevTimeMs.value);
        if nowMs - prevTimeMs.value > rateWindowMs {
          sum := 0;
          currentWindowMs := currentWindowMs % rateWindowMs;
        }
      }
      prevTimeMs := Some(nowMs);
      full := None;
      if currentWindowMs >= rateWindowMs {
        full := Some(sum);
        currentWindowMs := currentWindowMs - rateWindowMs;
        sum := 0;
      }
      sum := sum + bytes;
    }

    method UpdateAt(atTime: nat, amount: nat)
      requires Valid(Abs()) && amount > 0
      modifies this
      ensures Valid(Abs()) && Abs() == Update(old(Abs()), DivRoundPositiveToNearest(atTime, 1_000), amount)
    {
      hide Times, UpdateWindow;
      var nowMs := DivRoundPositiveToNearest(atTime, 1_000);
      ghost var s := Abs();
      UpdateStaysValid(s, nowMs, amount);
      WindowStaysShort(s, nowMs, amount, WindowLength(s));
      var rateWindowMs := WINDOW;
      if bitrateEstimateKbps.None? {
        rateWindowMs := INITIAL_WINDOW;
      }
      var full := UpdateWindowAt(nowMs, amount, rateWindowMs);
      if full.None? {
        return;
      }
      SampleIsPositive(full.value, rateWindowMs);
      var bitrateSampleKbps := 8.0 * full.value as real / rateWindowMs as real;
      if bitrateEstimateKbps.None? {
        bitrateEstimateKbps := Some(bitrateSampleKbps);
        return;
      }
      var estimate := bitrateEstimateKbps.value;
      var sampleUncertainty :=
        UNCERTAINTY_SCALE * AbsReal(estimate - bitrateSampleKbps) / (estimate + MinReal(bitrateSampleKbps, 0.0));
      var sampleVar := Times(sampleUncertainty, sampleUncertainty);
      SampleVarianceIsPositive(estimate, bitrateSampleKbps);
      var predVar := bitrateEstimateVar + VARIANCE_GROWTH;
      var average := (Times(sampleVar, estimate) + Times(predVar, bitrateSampleKbps)) / (sampleVar + predVar);
      bitrateEstimateKbps := Some(MaxReal(average, 0.0));
      bitrateEstimateVar := Times(sampleVar, predVar) / (sampleVar + predVar);
    }
  }
}

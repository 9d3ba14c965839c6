/**
  The trendline estimator (section 5.4 of draft-ietf-rmcat-gcc-02): the slope of the
  smoothed delay over the last twenty groups is compared with an adaptive threshold.
 */
module Trendline {
  import opened Units
  import opened Algebra
  import opened LinearFit
  import opened NetworkState

  const WINDOW_SIZE := 20
  const SMOOTHING_COEF := 0.9
  const THRESHOLD_GAIN := 4.0
  const OVERUSING_TIME_THRESHOLD := 10.0
  const MIN_NUM_DELTAS := 60
  const DELTA_COUNTER_MAX := 1_000
  const K_UP := 0.0087
  const K_DOWN := 0.039
  const MAX_ADAPT_OFFSET := 15.0
  const MAX_TIME_DELTA := 100
  const MIN_THRESHOLD := 6.0
  const MAX_THRESHOLD := 600.0

  /** `timer` is -1 while there is no overuse to time. */
  datatype Detector = Detector(
    threshold: real,
    lastUpdate: Option<int>,
    prevTrend: real,
    timer: real,
    counter: nat,
    usage: Usage)

  datatype State = State(
    deltas: nat,
    firstArrival: Option<int>,
    accumulated: real,
    smoothed: real,
    history: seq<PacketTiming>,
    detector: Detector)

  const INITIAL := State(0, None, 0.0, 0.0, [], Detector(12.5, None, 0.0, -1.0, 0, Normal))

  /** The differences between two groups, in milliseconds, and when the packet arrived. */
  datatype Sample = Sample(recvDelta: real, sendDelta: real, arrival: int)

  // ----- The threshold

  function AdaptationGain(threshold: real, modified: real): real {
    if AbsReal(modified) < threshold then K_DOWN else K_UP
  }

  function UpdateThreshold(d: Detector, modified: real, now: int): Detector {
    if AbsReal(modified) > d.threshold + MAX_ADAPT_OFFSET then d.(lastUpdate := Some(now))
    else
      var elapsed := Min(now - d.lastUpdate.GetOr(now), MAX_TIME_DELTA);
      var step := Times(Times(AdaptationGain(d.threshold, modified), AbsReal(modified) - d.threshold), elapsed as real);
      d.(threshold := ClampReal(d.threshold + step, MIN_THRESHOLD, MAX_THRESHOLD), lastUpdate := Some(now))
  }

  // ----- The detector

  function ModifiedTrend(deltas: nat, trend: real): real {
    Times(Min(deltas, MIN_NUM_DELTAS) as real, Times(trend, THRESHOLD_GAIN))
  }

  predicate IsAbove(d: Detector, modified: real) {
    modified > d.threshold
  }

  function TimerAfter(timer: real, sendDelta: real): real {
    if timer == -1.0 then sendDelta / 2.0 else timer + sendDelta
  }

  predicate Signals(d: Detector, modified: real, trend: real, sendDelta: real) {
    && IsAbove(d, modified)
    && TimerAfter(d.timer, sendDelta) > OVERUSING_TIME_THRESHOLD
    && d.counter + 1 > 1
    && trend >= d.prevTrend
  }

  function Judge(d: Detector, modified: real, trend: real, sendDelta: real): Detector {
    if Signals(d, modified, trend, sendDelta) then d.(timer := 0.0, counter := 0, usage := Overusing)
    else if IsAbove(d, modified) then d.(timer := TimerAfter(d.timer, sendDelta), counter := d.counter + 1)
    else d.(timer := -1.0, counter := 0, usage := if modified < -d.threshold then Underusing else Normal)
  }

  function Detect(d: Detector, deltas: nat, trend: real, sendDelta: real, now: int): Detector {
    if deltas < 2 then d.(usage := Normal)
    else
      var modified := ModifiedTrend(deltas, trend);
      UpdateThreshold(Judge(d, modified, trend, sendDelta).(prevTrend := trend), modified, now)
  }

  // ----- One sample

  function Windowed(h: seq<PacketTiming>): seq<PacketTiming> {
    if |h| > WINDOW_SIZE then h[1..] else h
  }

  function TrendOf(s: State, history: seq<PacketTiming>): real {
    if |history| == WINDOW_SIZE then Slope(history).GetOr(s.detector.prevTrend) else s.detector.prevTrend
  }

  function UpdateTrendline(s: State, x: Sample): State {
    var deltas := Min(s.deltas + 1, DELTA_COUNTER_MAX);
    var first := s.firstArrival.GetOr(x.arrival);
    var accumulated := s.accumulated + (x.recvDelta - x.sendDelta);
    var smoothed := SMOOTHING_COEF * s.smoothed + (1.0 - SMOOTHING_COEF) * accumulated;
    var history := Windowed(s.history + [PacketTiming((x.arrival - first) as real, smoothed, accumulated)]);
    State(deltas, Some(first), accumulated, smoothed, history,
          Detect(s.detector, deltas, TrendOf(s, history), x.sendDelta, x.arrival))
  }

  function Run(xs: seq<Sample>): State {
    if xs == [] then INITIAL else UpdateTrendline(Run(xs[..|xs| - 1]), xs[|xs| - 1])
  }

  // ----- What was observed: a list without timers and counters

  datatype Observation = Observation(above: bool, signalled: bool, trend: real, sendDelta: real)

  function Observe(s: State, x: Sample): Observation {
    var t := UpdateTrendline(s, x);
    var trend := TrendOf(s, t.history);
    var modified := ModifiedTrend(t.deltas, trend);
    Observation(IsAbove(s.detector, modified), Signals(s.detector, modified, trend, x.sendDelta), trend, x.sendDelta)
  }

  /** One observation per sample from the second on: the first is not judged. */
  function Observations(xs: seq<Sample>): seq<Observation> {
    if |xs| <= 1 then [] else Observations(xs[..|xs| - 1]) + [Observe(Run(xs[..|xs| - 1]), xs[|xs| - 1])]
  }

  /** The samples above their thresholds since the last other sample or the last signal. */
  function Streak(obs: seq<Observation>): seq<Observation> {
    if obs == [] then [] else
    var last := obs[|obs| - 1];
    if last.above && !last.signalled then Streak(obs[..|obs| - 1]) + [last] else []
  }

  /** The time over the threshold, counting half of a first sample that follows no signal. */
  function OveruseTime(obs: seq<Observation>): Option<real> {
    if obs == [] then None else
    var last := obs[|obs| - 1];
    if !last.above then None
    else if last.signalled then Some(0.0)
    else Some(Extended(OveruseTime(obs[..|obs| - 1]), last.sendDelta))
  }

  function Extended(time: Option<real>, sendDelta: real): real {
    match time case None => sendDelta / 2.0 case Some(t) => t + sendDelta
  }

  function LastTrend(obs: seq<Observation>): real {
    if obs == [] then 0.0 else obs[|obs| - 1].trend
  }

  /** The same as the program keeps it: a time of -1 looks like none at all. */
  function MeasuredTime(obs: seq<Observation>): Option<real> {
    if obs == [] then None else
    var last := obs[|obs| - 1];
    if !last.above then None
    else if last.signalled then Some(0.0)
    else Some(Extended(Seen(MeasuredTime(obs[..|obs| - 1])), last.sendDelta))
  }

  function Seen(time: Option<real>): Option<real> {
    if time == Some(-1.0) then None else time
  }

  /**
    How far the program's time has slipped since the last other sample or signal: at every
    sample that follows a time of -1, that is dropped and half of the difference taken.
   */
  function Slip(obs: seq<Observation>): real {
    if obs == [] then 0.0 else
    var before, last := obs[..|obs| - 1], obs[|obs| - 1];
    if !last.above || last.signalled then 0.0
    else Slip(before) + SlipAt(before, last)
  }

  function SlipAt(obs: seq<Observation>, o: Observation): real {
    if MeasuredTime(obs) == Some(-1.0) then 1.0 - o.sendDelta / 2.0 else 0.0
  }

  ghost predicate CounterAgrees(d: Detector, obs: seq<Observation>) {
    d.counter == |Streak(obs)| && d.prevTrend == LastTrend(obs)
  }

  ghost predicate TimerAgrees(d: Detector, obs: seq<Observation>) {
    d.timer == OveruseTime(obs).GetOr(-1.0)
  }

  /** A signal, were the overuse time `time`. */
  predicate IsSignalAt(obs: seq<Observation>, o: Observation, time: real) {
    && o.above
    && |Streak(obs)| >= 1
    && time > OVERUSING_TIME_THRESHOLD
    && o.trend >= LastTrend(obs)
  }

  /** What the definition of an overuse signal asks of the observations before it. */
  predicate IsSignal(obs: seq<Observation>, o: Observation) {
    IsSignalAt(obs, o, Extended(OveruseTime(obs), o.sendDelta))
  }

  lemma StepDetector(s: State, x: Sample)
    ensures var t, o := UpdateTrendline(s, x), Observe(s, x);
            if t.deltas < 2 then t.detector == s.detector.(usage := Normal)
            else
              && t.detector.counter == (if o.above && !o.signalled then s.detector.counter + 1 else 0)
              && t.detector.timer == (if !o.above then -1.0 else if o.signalled then 0.0
                                      else TimerAfter(s.detector.timer, x.sendDelta))
              && t.detector.prevTrend == o.trend
              && (o.signalled ==> t.detector.usage == Overusing)
              && (t.detector.usage == Overusing ==> o.signalled || (o.above && s.detector.usage == Overusing))
    ensures Observe(s, x).signalled ==> Observe(s, x).above
  {
    hide ModifiedTrend, Slope, Times, Windowed;
  }

  lemma {:induction false} DeltasCount(xs: seq<Sample>)
    ensures Run(xs).deltas == Min(|xs|, DELTA_COUNTER_MAX)
  {
    if xs == [] {
    } else {
      hide Detect, Slope;
      DeltasCount(xs[..|xs| - 1]);
    }
  }

  /** On every run the counter is the length of the streak, whatever the timer does. */
  lemma {:induction false} CounterIsStreak(xs: seq<Sample>)
    ensures CounterAgrees(Run(xs).detector, Observations(xs))
  {
    if xs == [] {
    } else {
      var n := |xs| - 1;
      CounterIsStreak(xs[..n]);
      DeltasCount(xs);
      StepDetector(Run(xs[..n]), xs[n]);
      hide UpdateTrendline, Observe, Signals;
      if n > 0 {
        AppendObservation(Observations(xs[..n]), Observe(Run(xs[..n]), xs[n]));
      }
    }
  }

  lemma AppendObservation(obs: seq<Observation>, o: Observation)
    ensures Streak(obs + [o]) == if o.above && !o.signalled then Streak(obs) + [o] else []
    ensures MeasuredTime(obs + [o]) ==
            if !o.above then None else if o.signalled then Some(0.0)
            else Some(Extended(Seen(MeasuredTime(obs)), o.sendDelta))
    ensures LastTrend(obs + [o]) == o.trend
  {
    assert (obs + [o])[..|obs|] == obs;
  }

  /** On every run the timer is the time as the program takes it. */
  lemma {:induction false} TimerIsMeasuredTime(xs: seq<Sample>)
    ensures Run(xs).detector.timer == MeasuredTime(Observations(xs)).GetOr(-1.0)
  {
    if xs == [] {
    } else {
      var n := |xs| - 1;
      DeltasCount(xs);
      StepDetector(Run(xs[..n]), xs[n]);
      hide UpdateTrendline, Observe, Signals, MeasuredTime, Streak;
      var before := Observations(xs[..n]);
      if n > 0 {
        AppendObservation(before, Observe(Run(xs[..n]), xs[n]));
      } else {
        NothingMeasured();
      }
      TimerIsMeasuredTime(xs[..n]);
    }
  }

  lemma NothingMeasured()
    ensures MeasuredTime([]) == None
  {
  }

  /** The time as the program takes it is the time over the threshold, but for the slip. */
  lemma {:induction false} MeasuredTimeSlips(obs: seq<Observation>)
    ensures OveruseTime(obs).None? <==> MeasuredTime(obs).None?
    ensures OveruseTime(obs).None? ==> Slip(obs) == 0.0
    ensures OveruseTime(obs).Some? ==> MeasuredTime(obs).value == OveruseTime(obs).value + Slip(obs)
  {
    if obs == [] {
    } else {
      MeasuredTimeSlips(obs[..|obs| - 1]);
    }
  }

  /**
    On every run: the timer is the time over the threshold, or -1 if there is none, if
    and only if the slips since the last other sample or signal cancel out.
   */
  lemma MistakenTimerExactly(xs: seq<Sample>)
    ensures TimerAgrees(Run(xs).detector, Observations(xs)) <==> Slip(Observations(xs)) == 0.0
  {
    TimerIsMeasuredTime(xs);
    MeasuredTimeSlips(Observations(xs));
    hide Run, Observations, OveruseTime, MeasuredTime, Slip;
  }

  /**
    On every run the estimator signals overuse exactly when at least one sample before
    was above its threshold since the last other sample or signal, the time above exceeds
    10 ms as the program takes it, and the trend did not fall.
   */
  lemma SignalsExactlyWhen(xs: seq<Sample>, x: Sample)
    requires xs != []
    ensures var obs, o := Observations(xs), Observe(Run(xs), x);
            o.signalled <==> IsSignalAt(obs, o, Extended(Seen(MeasuredTime(obs)), o.sendDelta))
  {
    CounterIsStreak(xs);
    TimerIsMeasuredTime(xs);
    SignalledWhen(Run(xs), x);
    hide Observe, Streak, MeasuredTime, Run, Observations, Signals;
  }

  /** And as the definition asks exactly when no slip moves the time across the 10 ms of a candidate. */
  lemma SignalsAsDefinedExactlyWhen(xs: seq<Sample>, x: Sample)
    requires xs != []
    ensures var obs, o := Observations(xs), Observe(Run(xs), x);
            var time := Extended(OveruseTime(obs), o.sendDelta);
            (o.signalled <==> IsSignal(obs, o)) <==>
            (o.above && |Streak(obs)| >= 1 && o.trend >= LastTrend(obs) ==>
               (time > OVERUSING_TIME_THRESHOLD <==> time + Slip(obs) + SlipAt(obs, o) > OVERUSING_TIME_THRESHOLD))
  {
    SignalsExactlyWhen(xs, x);
    MeasuredTimeSlips(Observations(xs));
    hide Observe, Streak, MeasuredTime, OveruseTime, Slip, Run, Observations, Signals;
  }

  lemma SignalledWhen(s: State, x: Sample)
    ensures var o, d := Observe(s, x), s.detector;
            o.sendDelta == x.sendDelta &&
            (o.signalled <==>
             && o.above && TimerAfter(d.timer, x.sendDelta) > OVERUSING_TIME_THRESHOLD
             && d.counter >= 1 && o.trend >= d.prevTrend)
  {
    hide UpdateTrendline, ModifiedTrend, TrendOf;
  }

  /** Send times that do not go back never slip. */
  lemma {:induction false} ForwardDeltasAreNeverMistaken(obs: seq<Observation>)
    requires forall o | o in obs :: o.sendDelta >= 0.0
    ensures MeasuredTime(obs).Some? ==> MeasuredTime(obs).value >= 0.0
    ensures Slip(obs) == 0.0
  {
    if obs == [] {
    } else {
      var n := |obs| - 1;
      ForwardDeltasAreNeverMistaken(obs[..n]);
      assert obs[n] in obs;
    }
  }

  // ----- A run whose timer is mistaken

  function Still(n: nat): (xs: seq<Sample>)
    ensures |xs| == n
  {
    seq(n, _ => Sample(0.0, 0.0, 0))
  }

  const BACK := Sample(8.0, -2.0, 1)
  const FORTH := Sample(13.0, 12.0, 2)

  /** Nineteen groups without any delay, and then one sent 2 ms before the group before it. */
  function Backward(): seq<Sample> {
    Still(19) + [BACK]
  }

  lemma NothingTimes(x: real)
    ensures Times(0.0, x) == 0.0 && Times(x, 0.0) == 0.0
  {
  }

  function Zeros(n: nat): (ps: seq<PacketTiming>)
    ensures |ps| == n
  {
    seq(n, _ => PacketTiming(0.0, 0.0, 0.0))
  }

  ghost predicate IsStill(s: State, n: nat) {
    && s.deltas == n && s.firstArrival == (if n == 0 then None else Some(0))
    && s.accumulated == 0.0 && s.smoothed == 0.0
    && s.history == Zeros(n)
    && s.detector.threshold == 12.5 && s.detector.lastUpdate.GetOr(0) == 0
    && s.detector.timer == -1.0 && s.detector.counter == 0 && s.detector.prevTrend == 0.0
  }

  lemma StillStep(s: State, n: nat)
    requires n < 19 && IsStill(s, n)
    ensures IsStill(UpdateTrendline(s, Sample(0.0, 0.0, 0)), n + 1)
  {
    hide Times, Slope;
    assert Zeros(n) + [PacketTiming(0.0, 0.0, 0.0)] == Zeros(n + 1);
    NothingTimes(THRESHOLD_GAIN);
    NothingTimes((n + 1) as real);
    NothingTimes(Times(K_DOWN, -12.5));
  }

  lemma {:induction false} StillRun(n: nat)
    requires n <= 19
    ensures IsStill(Run(Still(n)), n)
  {
    if n == 0 {
    } else {
      hide IsStill, UpdateTrendline;
      StillRun(n - 1);
      assert Still(n)[..n - 1] == Still(n - 1);
      StillStep(Run(Still(n - 1)), n - 1);
    }
  }

  lemma SlopeOfLine(ps: seq<PacketTiming>)
    requires exists p, q | p in ps && q in ps :: p.arrival != q.arrival
    requires forall p | p in ps :: p.smoothed == p.arrival
    ensures Slope(ps) == Some(1.0)
  {
    hide Slope, Times;
    forall p, q | p in ps && q in ps && p.arrival < q.arrival
      ensures Times(1.0, q.arrival - p.arrival) == q.smoothed - p.smoothed
    {
      Unit(q.arrival - p.arrival);
    }
    NoSlopeExactlyWhen(ps);
    SlopeIsBetweenPairSlopes(ps, 1.0, 1.0);
  }

  /** Two further points on a line with the still ones. */
  const UP := PacketTiming(1.0, 1.0, 10.0)
  const FURTHER_UP := PacketTiming(2.0, 2.0, 11.0)

  lemma TrendsAreOne()
    ensures Slope(Zeros(19) + [UP]) == Some(1.0) == Slope(Zeros(18) + [UP] + [FURTHER_UP])
    ensures ModifiedTrend(20, 1.0) == 80.0 && ModifiedTrend(21, 1.0) == 84.0
  {
    var ps, qs := Zeros(19) + [UP], Zeros(18) + [UP] + [FURTHER_UP];
    assert ps[0].arrival != ps[19].arrival && ps[0] in ps && ps[19] in ps;
    assert qs[0].arrival != qs[19].arrival && qs[0] in qs && qs[19] in qs;
    SlopeOfLine(ps);
    SlopeOfLine(qs);
  }

  lemma BackStep(s: State)
    requires IsStill(s, 19)
    ensures var t, o := UpdateTrendline(s, BACK), Observe(s, BACK);
            && o == Observation(true, false, 1.0, -2.0)
            && t.deltas == 20 && t.firstArrival == Some(0) && t.accumulated == 10.0 && t.smoothed == 1.0
            && t.history == Zeros(19) + [UP]
            && t.detector == Detector(12.5, Some(1), 1.0, -1.0, 1, s.detector.usage)
  {
    TrendsAreOne();
    hide Times, Slope, ModifiedTrend;
  }

  lemma ForthStep(s: State)
    requires s.deltas == 20 && s.firstArrival == Some(0) && s.accumulated == 10.0 && s.smoothed == 1.0
    requires s.history == Zeros(19) + [UP]
    requires s.detector.threshold == 12.5 && s.detector.timer == -1.0 && s.detector.counter == 1 && s.detector.prevTrend == 1.0
    ensures Observe(s, FORTH) == Observation(true, false, 1.0, 12.0)
    ensures UpdateTrendline(s, FORTH).detector.timer == 6.0
  {
    assert (Zeros(19) + [UP] + [FURTHER_UP])[1..] == Zeros(18) + [UP] + [FURTHER_UP];
    TrendsAreOne();
    hide Times, Slope, ModifiedTrend;
  }

  /** No sample of a still run was above its threshold. */
  lemma StillTime()
    ensures var obs := Observations(Still(19));
            OveruseTime(obs) == None == MeasuredTime(obs) && LastTrend(obs) == 0.0
  {
    hide Observe, Run;
    StillRun(19);
    CounterIsStreak(Still(19));
    TimerIsMeasuredTime(Still(19));
  }

  lemma BackwardRun()
    ensures Run(Backward()) == UpdateTrendline(Run(Still(19)), BACK)
    ensures Observations(Backward()) == Observations(Still(19)) + [Observation(true, false, 1.0, -2.0)]
  {
    assert Backward()[..19] == Still(19);
    StillRun(19);
    BackStep(Run(Still(19)));
    hide UpdateTrendline, Observe, Still, IsStill;
  }

  lemma ForthRun()
    ensures Observe(Run(Backward()), FORTH) == Observation(true, false, 1.0, 12.0)
    ensures Observations(Backward() + [FORTH]) == Observations(Backward()) + [Observation(true, false, 1.0, 12.0)]
    ensures Run(Backward() + [FORTH]).detector.timer == 6.0
  {
    assert (Backward() + [FORTH])[..20] == Backward();
    StillRun(19);
    BackStep(Run(Still(19)));
    BackwardRun();
    ForthStep(Run(Backward()));
    hide UpdateTrendline, Observe, Backward, IsStill;
  }

  lemma TimesOf(obs: seq<Observation>, a: Observation, b: Observation)
    requires OveruseTime(obs).None? && a.above && !a.signalled && b.above && !b.signalled
    ensures OveruseTime(obs + [a]) == Some(a.sendDelta / 2.0) && |Streak(obs + [a])| >= 1 && LastTrend(obs + [a]) == a.trend
    ensures OveruseTime(obs + [a] + [b]) == Some(a.sendDelta / 2.0 + b.sendDelta)
  {
    assert (obs + [a])[..|obs|] == obs && (obs + [a] + [b])[..|obs + [a]|] == obs + [a];
  }

  /**
    The run: its time above the threshold is half of -2 ms, taken for idle; then 12 ms
    more should signal overuse, by the definition, and do not.
   */
  lemma BackwardDeltaIsMistaken()
    ensures var obs, o := Observations(Backward()), Observe(Run(Backward()), FORTH);
            OveruseTime(obs) == Some(-1.0) && IsSignal(obs, o) && !o.signalled
    ensures !TimerAgrees(Run(Backward() + [FORTH]).detector, Observations(Backward() + [FORTH]))
  {
    hide Run, Observe, UpdateTrendline, Observations, Still, Backward, OveruseTime, Streak, LastTrend;
    StillTime();
    BackwardRun();
    ForthRun();
    TimesOf(Observations(Still(19)), Observation(true, false, 1.0, -2.0), Observation(true, false, 1.0, 12.0));
  }

  // ----- The threshold over runs

  ghost predicate InRange(d: Detector) {
    MIN_THRESHOLD <= d.threshold <= MAX_THRESHOLD
  }

  ghost predicate MonotoneClock(xs: seq<Sample>) {
    forall i, j | 0 <= i < j < |xs| :: xs[i].arrival <= xs[j].arrival
  }

  /** What one update may do to the threshold, whichever way it goes. */
  ghost predicate Adapts(before: real, after: real, modified: real, elapsed: real) {
    && MIN_THRESHOLD <= after <= MAX_THRESHOLD
    && (AbsReal(modified) > before + MAX_ADAPT_OFFSET ==> after == before)
    && (after > before ==> after <= AbsReal(modified) && after - before <= Times(K_UP * MAX_ADAPT_OFFSET, elapsed))
    && (after < before ==> AbsReal(modified) < before)
  }

  lemma UpdateAdapts(d: Detector, modified: real, now: int)
    requires InRange(d) && d.lastUpdate.GetOr(now) <= now
    ensures Adapts(d.threshold, UpdateThreshold(d, modified, now).threshold, modified,
                   Min(now - d.lastUpdate.GetOr(now), MAX_TIME_DELTA) as real)
  {
    hide Times;
    var gain, gap := AdaptationGain(d.threshold, modified), AbsReal(modified) - d.threshold;
    var elapsed := Min(now - d.lastUpdate.GetOr(now), MAX_TIME_DELTA) as real;
    if gap <= MAX_ADAPT_OFFSET {
      if gap >= 0.0 {
        RisesAtMost(gap, elapsed);
      } else {
        Falls(gain, gap, elapsed);
      }
    }
  }

  lemma RisesAtMost(gap: real, elapsed: real)
    requires 0.0 <= gap <= MAX_ADAPT_OFFSET && 0.0 <= elapsed <= 100.0
    ensures 0.0 <= Times(Times(K_UP, gap), elapsed) <= gap
    ensures Times(Times(K_UP, gap), elapsed) <= Times(K_UP * MAX_ADAPT_OFFSET, elapsed)
  {
    var g := Times(K_UP, gap);
    assert g == K_UP * gap;
    hide Times;
    ProductIsPositive(g, elapsed);
    Scale(g, K_UP * MAX_ADAPT_OFFSET, elapsed);
    Scale(elapsed, 100.0, g);
    Swap(elapsed, g);
    Swap(100.0, g);
    Hundred(g);
  }

  lemma Hundred(g: real)
    ensures Times(g, 100.0) == 100.0 * g
  {
  }

  lemma Falls(gain: real, gap: real, elapsed: real)
    requires gain > 0.0 && gap < 0.0 && elapsed >= 0.0
    ensures Times(Times(gain, gap), elapsed) <= 0.0
  {
    hide Times;
    ProductIsNegative(gain, gap);
    ProductIsPositive(-Times(gain, gap), elapsed);
    Negated(Times(gain, gap), elapsed);
  }

  /** On every run, whatever the clock does, the threshold stays between 6 and 600. */
  lemma {:induction false} ThresholdStaysInRange(xs: seq<Sample>)
    ensures InRange(Run(xs).detector)
  {
    if xs == [] {
    } else {
      ThresholdStaysInRange(xs[..|xs| - 1]);
      hide Times, Slope, ModifiedTrend, TrendOf, Signals, Windowed;
    }
  }

  /** With a monotone clock it was last updated in the past, as `UpdateAdapts` asks. */
  lemma {:induction false} UpdatesArePast(xs: seq<Sample>)
    requires MonotoneClock(xs)
    ensures Run(xs).detector.lastUpdate.Some? ==> xs != [] && Run(xs).detector.lastUpdate.value <= xs[|xs| - 1].arrival
  {
    if xs == [] {
    } else {
      UpdatesArePast(xs[..|xs| - 1]);
      hide Times, Slope, ModifiedTrend, TrendOf, Signals, Windowed;
    }
  }

  /** So every update of a run rises slowly, and never past the trend. */
  lemma EveryUpdateAdapts(xs: seq<Sample>, x: Sample)
    requires MonotoneClock(xs + [x])
    ensures Run(xs).detector.lastUpdate.GetOr(x.arrival) <= x.arrival
    ensures var s, t := Run(xs), UpdateTrendline(Run(xs), x);
            t.deltas >= 2 ==>
              Adapts(s.detector.threshold, t.detector.threshold, ModifiedTrend(t.deltas, TrendOf(s, t.history)),
                     Min(x.arrival - s.detector.lastUpdate.GetOr(x.arrival), MAX_TIME_DELTA) as real)
  {
    assert forall i | 0 <= i < |xs| :: (xs + [x])[i] == xs[i];
    assert (xs + [x])[|xs|] == x;
    ThresholdStaysInRange(xs);
    UpdatesArePast(xs);
    StepThreshold(Run(xs), x);
    hide UpdateTrendline, Adapts, Run, ModifiedTrend, TrendOf;
  }

  lemma StepThreshold(s: State, x: Sample)
    requires InRange(s.detector) && s.detector.lastUpdate.GetOr(x.arrival) <= x.arrival
    ensures var t := UpdateTrendline(s, x);
            var modified := ModifiedTrend(t.deltas, TrendOf(s, t.history));
            if t.deltas < 2 then t.detector.threshold == s.detector.threshold && t.detector.lastUpdate == s.detector.lastUpdate
            else
              && Adapts(s.detector.threshold, t.detector.threshold, modified,
                        Min(x.arrival - s.detector.lastUpdate.GetOr(x.arrival), MAX_TIME_DELTA) as real)
              && t.detector.lastUpdate == Some(x.arrival)
  {
    var t := UpdateTrendline(s, x);
    var trend := TrendOf(s, t.history);
    var modified := ModifiedTrend(t.deltas, trend);
    UpdateAdapts(Judge(s.detector, modified, trend, x.sendDelta).(prevTrend := trend), modified, x.arrival);
    hide Times, Slope, ModifiedTrend, TrendOf, Adapts, Signals, Windowed;
  }

  // ----- The accumulated delay and the window over runs

  function TotalDelay(xs: seq<Sample>): real {
    if xs == [] then 0.0 else TotalDelay(xs[..|xs| - 1]) + (xs[|xs| - 1].recvDelta - xs[|xs| - 1].sendDelta)
  }

  /** Nine tenths of the average before, and a tenth of the accumulated delay. */
  function AverageDelay(xs: seq<Sample>): real {
    if xs == [] then 0.0 else 0.9 * AverageDelay(xs[..|xs| - 1]) + 0.1 * TotalDelay(xs)
  }

  /** The points of all samples, none forgotten. */
  function Timings(xs: seq<Sample>): (ts: seq<PacketTiming>)
    ensures |ts| == |xs|
  {
    if xs == [] then [] else
    var n := |xs| - 1;
    Timings(xs[..n]) + [PacketTiming((xs[n].arrival - xs[0].arrival) as real, AverageDelay(xs), TotalDelay(xs))]
  }

  /** The accumulated delay of every run is the sum of the differences. */
  lemma {:induction false} AccumulatedIsTotal(xs: seq<Sample>)
    ensures Run(xs).accumulated == TotalDelay(xs)
  {
    hide Detect, Slope;
    if xs == [] {
    } else {
      AccumulatedIsTotal(xs[..|xs| - 1]);
    }
  }

  /** And the smoothed delay is their exponential average. */
  lemma {:induction false} SmoothedIsAverage(xs: seq<Sample>)
    ensures Run(xs).smoothed == AverageDelay(xs)
  {
    hide Detect, Slope;
    if xs == [] {
    } else {
      SmoothedIsAverage(xs[..|xs| - 1]);
      AccumulatedIsTotal(xs);
    }
  }

  /** The smoothed delay stays among the accumulated delays, which start from zero. */
  lemma {:induction false} SmoothedStaysAmongDelays(xs: seq<Sample>, low: real, high: real)
    requires low <= 0.0 <= high
    requires forall n | 0 <= n <= |xs| :: low <= TotalDelay(xs[..n]) <= high
    ensures low <= Run(xs).smoothed <= high
  {
    hide Detect, Slope;
    if xs == [] {
    } else {
      var m := |xs| - 1;
      assert xs[..|xs|] == xs;
      assert forall n | 0 <= n <= m :: xs[..m][..n] == xs[..n];
      SmoothedStaysAmongDelays(xs[..m], low, high);
      AccumulatedIsTotal(xs);
    }
  }

  lemma StepWindow(s: State, x: Sample)
    ensures var t := UpdateTrendline(s, x);
            t.history == Windowed(s.history + [PacketTiming((x.arrival - s.firstArrival.GetOr(x.arrival)) as real,
                                                            t.smoothed, t.accumulated)])
  {
    hide Detect, Slope;
  }

  /** The window of every run is the end of the list of all points. */
  lemma {:induction false} WindowIsEndOfTimings(xs: seq<Sample>)
    ensures Run(xs).history == Timings(xs)[|xs| - Min(|xs|, WINDOW_SIZE)..]
  {
    if xs == [] {
    } else {
      var n := |xs| - 1;
      WindowIsEndOfTimings(xs[..n]);
      AccumulatedIsTotal(xs);
      SmoothedIsAverage(xs);
      StepWindow(Run(xs[..n]), xs[n]);
      if n > 0 {
        FirstArrival(xs[..n]);
      }
      hide UpdateTrendline, TotalDelay, AverageDelay;
      var all := Timings(xs);
      assert all[..n] == Timings(xs[..n]);
      assert Run(xs).history == Windowed(Run(xs[..n]).history + [all[n]]);
    }
  }

  lemma {:induction false} FirstArrival(xs: seq<Sample>)
    requires xs != []
    ensures Run(xs).firstArrival == Some(xs[0].arrival)
  {
    hide Detect, Slope;
    if |xs| > 1 {
      FirstArrival(xs[..|xs| - 1]);
    } else {
      assert xs[..0] == [];
    }
  }

  // ----- Trend, threshold and verdict from the history alone

  /** The slope of the last twenty points, or the trend before if there is none. */
  function Trend(xs: seq<Sample>): real {
    if |xs| < 20 then 0.0 else Slope(Timings(xs)[|xs| - 20..]).GetOr(Trend(xs[..|xs| - 1]))
  }

  /** What is compared with the threshold. */
  function Modified(xs: seq<Sample>): real {
    Times(Min(|xs|, 60) as real, Times(Trend(xs), 4.0))
  }

  /** Towards the size of the modified trend, slowly up and faster down, unless that is a spike. */
  function Adapted(threshold: real, modified: real, elapsed: int): real {
    var size := AbsReal(modified);
    if size > threshold + 15.0 then threshold
    else
      var gain := if size < threshold then 0.039 else 0.0087;
      ClampReal(threshold + Times(Times(gain, size - threshold), Min(elapsed, 100) as real), 6.0, 600.0)
  }

  /** The threshold after the samples; the first only starts the clock, the second takes no time. */
  function Threshold(xs: seq<Sample>): real {
    if |xs| <= 1 then 12.5 else
    var n := |xs| - 1;
    Adapted(Threshold(xs[..n]), Modified(xs), if n == 1 then 0 else xs[n].arrival - xs[n - 1].arrival)
  }

  lemma StepTrend(s: State, x: Sample)
    ensures var t := UpdateTrendline(s, x);
            && t.detector.prevTrend == (if t.deltas < 2 then s.detector.prevTrend else TrendOf(s, t.history))
            && Observe(s, x).trend == TrendOf(s, t.history)
  {
    hide Slope, Times, Windowed, ModifiedTrend, UpdateTrendline, TrendOf;
    StepDetector(s, x);
    hide Observe;
    ObserveTrend(s, x);
  }

  lemma ObserveTrend(s: State, x: Sample)
    ensures var t := UpdateTrendline(s, x);
            var trend, o := TrendOf(s, t.history), Observe(s, x);
            o.trend == trend && o.above == (ModifiedTrend(t.deltas, trend) > s.detector.threshold)
  {
    hide UpdateTrendline, TrendOf, ModifiedTrend, Signals;
  }

  lemma {:induction false} TrendIsSlope(xs: seq<Sample>)
    ensures Run(xs).detector.prevTrend == Trend(xs)
    ensures xs != [] ==> TrendOf(Run(xs[..|xs| - 1]), Run(xs).history) == Trend(xs)
  {
    if xs == [] {
    } else {
      var n := |xs| - 1;
      TrendIsSlope(xs[..n]);
      WindowIsEndOfTimings(xs);
      DeltasCount(xs);
      StepTrend(Run(xs[..n]), xs[n]);
      hide UpdateTrendline, Observe, Slope, Timings;
    }
  }

  /** On every run the trend is the slope over the last twenty points, scaled as the comparison asks. */
  lemma ModifiedIsScaledSlope(xs: seq<Sample>)
    requires xs != []
    ensures ModifiedTrend(Run(xs).deltas, TrendOf(Run(xs[..|xs| - 1]), Run(xs).history)) == Modified(xs)
  {
    TrendIsSlope(xs);
    DeltasCount(xs);
    hide TrendOf, Run, Trend, Times;
  }

  lemma UpdateIsAdapted(d: Detector, modified: real, now: int)
    ensures UpdateThreshold(d, modified, now).threshold == Adapted(d.threshold, modified, now - d.lastUpdate.GetOr(now))
    ensures UpdateThreshold(d, modified, now).lastUpdate == Some(now)
  {
    hide Times;
  }

  lemma StepAdapts(s: State, x: Sample)
    ensures var t := UpdateTrendline(s, x);
            var modified := ModifiedTrend(t.deltas, TrendOf(s, t.history));
            if t.deltas < 2 then t.detector.threshold == s.detector.threshold && t.detector.lastUpdate == s.detector.lastUpdate
            else
              && t.detector.threshold ==
                 Adapted(s.detector.threshold, modified, x.arrival - s.detector.lastUpdate.GetOr(x.arrival))
              && t.detector.lastUpdate == Some(x.arrival)
  {
    var t := UpdateTrendline(s, x);
    var trend := TrendOf(s, t.history);
    var modified := ModifiedTrend(t.deltas, trend);
    UpdateIsAdapted(Judge(s.detector, modified, trend, x.sendDelta).(prevTrend := trend), modified, x.arrival);
    hide Times, Slope, ModifiedTrend, TrendOf, Adapted, UpdateThreshold, Signals, Windowed;
  }

  /** On every run the threshold is that of the history. */
  lemma {:induction false} ThresholdIsAdapted(xs: seq<Sample>)
    ensures Run(xs).detector.threshold == Threshold(xs)
    ensures Run(xs).detector.lastUpdate == if |xs| <= 1 then None else Some(xs[|xs| - 1].arrival)
  {
    if xs == [] {
    } else {
      var n := |xs| - 1;
      ThresholdIsAdapted(xs[..n]);
      DeltasCount(xs);
      ModifiedIsScaledSlope(xs);
      StepAdapts(Run(xs[..n]), xs[n]);
      hide UpdateTrendline, TrendOf, ModifiedTrend, Modified, Adapted;
    }
  }

  /** A sample above its threshold is a signal if one was before it, for long enough, and the trend did not fall. */
  predicate SignalDue(xs: seq<Sample>, x: Sample) {
    var obs := Observations(xs);
    && Modified(xs + [x]) > Threshold(xs)
    && |Streak(obs)| >= 1
    && Extended(Seen(MeasuredTime(obs)), x.sendDelta) > 10.0
    && Trend(xs + [x]) >= Trend(xs)
  }

  /** Every observation is one of the history. */
  lemma ObservationIsOfHistory(xs: seq<Sample>, x: Sample)
    requires xs != []
    ensures Observe(Run(xs), x) ==
            Observation(Modified(xs + [x]) > Threshold(xs), SignalDue(xs, x), Trend(xs + [x]), x.sendDelta)
  {
    var ys := xs + [x];
    assert ys[..|xs|] == xs;
    assert Run(ys) == UpdateTrendline(Run(xs), x);
    hide Run, UpdateTrendline, Modified, Threshold, Trend, TrendOf, ModifiedTrend, Observe, Streak, MeasuredTime, Observations, LastTrend;
    TrendIsSlope(ys);
    TrendIsSlope(xs);
    ModifiedIsScaledSlope(ys);
    ThresholdIsAdapted(xs);
    ObserveTrend(Run(xs), x);
    SignalsExactlyWhen(xs, x);
    SignalledWhen(Run(xs), x);
    CounterIsStreak(xs);
  }

  lemma JudgeVerdict(s: State, x: Sample)
    ensures var t, o := UpdateTrendline(s, x), Observe(s, x);
            var modified := ModifiedTrend(t.deltas, TrendOf(s, t.history));
            t.detector.usage ==
            if t.deltas < 2 then Normal
            else if o.signalled then Overusing
            else if modified > s.detector.threshold then s.detector.usage
            else if modified < -s.detector.threshold then Underusing
            else Normal
  {
    hide Times, Slope, ModifiedTrend, TrendOf, Windowed;
  }

  /**
    On every run the verdict is normal for the first sample; after that underuse below the
    negative threshold, normal use between, and above the threshold overuse on a signal
    and what it was before without one.
   */
  lemma VerdictExactlyWhen(xs: seq<Sample>, x: Sample)
    ensures var before, after, m, t := Run(xs).detector.usage, Run(xs + [x]).detector.usage, Modified(xs + [x]), Threshold(xs);
            && (xs == [] ==> after == Normal)
            && (xs != [] && m < -t ==> after == Underusing)
            && (xs != [] && -t <= m <= t ==> after == Normal)
            && (xs != [] && m > t ==> after == if SignalDue(xs, x) then Overusing else before)
  {
    var ys := xs + [x];
    assert ys[..|xs|] == xs;
    assert Run(ys) == UpdateTrendline(Run(xs), x);
    hide Run, UpdateTrendline, Modified, Threshold, Trend, TrendOf, ModifiedTrend, Observe, Streak, MeasuredTime, Observations;
    DeltasCount(ys);
    ModifiedIsScaledSlope(ys);
    ThresholdIsAdapted(xs);
    ThresholdStaysInRange(xs);
    JudgeVerdict(Run(xs), x);
    if xs != [] {
      ObservationIsOfHistory(xs, x);
    }
  }

  // ----- The program's object

  class TrendlineEstimator {
    var numOfDeltas: nat
    var firstArrivalTimeMs: Option<int>
    var accumulatedDelay: real
    var smoothedDelay: real
    var delayHist: seq<PacketTiming>
    var threshold: real
    var lastUpdateMs: Option<int>
    var prevTrend: real
    var timeOverUsing: real
    var overuseCounter: nat
    var hypothesis: Usage

    ghost function Detecting(): Detector
      reads this
    {
      Detector(threshold, lastUpdateMs, prevTrend, timeOverUsing, overuseCounter, hypothesis)
    }

    ghost function Abs(): State
      reads this
    {
      State(numOfDeltas, firstArrivalTimeMs, accumulatedDelay, smoothedDelay, delayHist, Detecting())
    }

    constructor ()
      ensures Abs() == INITIAL
    {
      numOfDeltas, firstArrivalTimeMs := 0, None;
      accumulatedDelay, smoothedDelay, delayHist := 0.0, 0.0, [];
      threshold, lastUpdateMs, prevTrend := 12.5, None, 0.0;
      timeOverUsing, overuseCounter, hypothesis := -1.0, 0, Normal;
    }

    method AdaptThreshold(modifiedTrend: real, nowMs: int)
      modifies this`threshold, this`lastUpdateMs
      ensures Detecting() == UpdateThreshold(old(Detecting()), modifiedTrend, nowMs)
    {
      hide Times;
      if lastUpdateMs.None? {
        lastUpdateMs := Some(nowMs);
      }
      if AbsReal(modifiedTrend) > threshold + MAX_ADAPT_OFFSET {
        lastUpdateMs := Some(nowMs);
        return;
      }
      var k := if AbsReal(modifiedTrend) < threshold then K_DOWN else K_UP;
      var timeDeltaMs := Min(nowMs - lastUpdateMs.value, MAX_TIME_DELTA);
      threshold := threshold + Times(Times(k, AbsReal(modifiedTrend) - threshold), timeDeltaMs as real);
      threshold := ClampReal(threshold, MIN_THRESHOLD, MAX_THRESHOLD);
      lastUpdateMs := Some(nowMs);
    }

    method DetectUsage(trend: real, tsDelta: real, nowMs: int)
      modifies this
      ensures Detecting() == Detect(old(Detecting()), old(numOfDeltas), trend, tsDelta, nowMs)
      ensures Abs() == old(Abs()).(detector := Detecting())
    {
      hide Times, UpdateThreshold;
      if numOfDeltas < 2 {
        hypothesis := Normal;
        return;
      }
      var modifiedTrend := ModifiedTrend(numOfDeltas, trend);
      if modifiedTrend > threshold {
        if timeOverUsing == -1.0 {
          timeOverUsing := tsDelta / 2.0;
        } else {
          timeOverUsing := timeOverUsing + tsDelta;
        }
        overuseCounter := overuseCounter + 1;
        if timeOverUsing > OVERUSING_TIME_THRESHOLD && overuseCounter > 1 {
          if trend >= prevTrend {
            timeOverUsing := 0.0;
            overuseCounter := 0;
            hypothesis := Overusing;
          }
        }
      } else if modifiedTrend < -threshold {
        timeOverUsing := -1.0;
        overuseCounter := 0;
        hypothesis := Underusing;
      } else {
        timeOverUsing := -1.0;
        overuseCounter := 0;
        hypothesis := Normal;
      }
      prevTrend := trend;
      AdaptThreshold(modifiedTrend, nowMs);
    }

    method Update(x: Sample)
      modifies this
      ensures Abs() == UpdateTrendline(old(Abs()), x)
    {
      hide Detect, Slope;
      ghost var s := Abs();
      numOfDeltas := Min(numOfDeltas + 1, DELTA_COUNTER_MAX);
      if firstArrivalTimeMs.None? {
        firstArrivalTimeMs := Some(x.arrival);
      }
      accumulatedDelay := accumulatedDelay + (x.recvDelta - x.sendDelta);
      smoothedDelay := SMOOTHING_COEF * smoothedDelay + (1.0 - SMOOTHING_COEF) * accumulatedDelay;
      delayHist := delayHist + [PacketTiming((x.arrival - firstArrivalTimeMs.value) as real, smoothedDelay, accumulatedDelay)];
      if |delayHist| > WINDOW_SIZE {
        delayHist := delayHist[1..];
      }
      var trend := prevTrend;
      if |delayHist| == WINDOW_SIZE {
        var slope := LinearFitSlope(delayHist);
        trend := slope.GetOr(trend);
      }
      assert trend == TrendOf(s, delayHist);
      hide TrendOf;
      DetectUsage(trend, x.sendDelta, x.arrival);
    }
  }
}

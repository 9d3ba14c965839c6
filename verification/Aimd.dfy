/**
  The rate controller (section 5.5 of draft-ietf-rmcat-gcc-02): additive or
  multiplicative increase while the link is used normally, a cut below the measured
  throughput on overuse, and a pause after it.
 */
module Aimd {
  import opened Algebra
  import opened Units
  import opened LinkCapacity
  import opened NetworkState

  const MIN_BITRATE := 5_000
  const MAX_BITRATE := 30_000_000
  const DEFAULT_RTT := 200 * MILLISECOND
  const BETA := 0.85
  const INITIALIZATION_TIME := 5 * SECOND
  const FRAME_INTERVAL := SECOND / 30
  const PACKET_SIZE := 1_200
  const MICROBITS_PER_BYTE := 8_000_000

  datatype Mode = Hold | Increase | Decrease

  datatype State = State(
    minRate: nat,
    rate: nat,
    latestThroughput: nat,
    capacity: Capacity,
    mode: Mode,
    lastChange: Option<int>,
    lastDecrease: Option<int>,
    firstThroughput: Option<int>,
    initialized: bool,
    rtt: nat)

  const INITIAL := State(MIN_BITRATE, MAX_BITRATE, MAX_BITRATE, UNKNOWN, Hold, None, None, None, false, DEFAULT_RTT)

  datatype Input = Input(usage: Usage, throughput: Option<nat>)

  /** Between calls; in particular the state is never `Decrease`. */
  ghost predicate Valid(s: State) {
    && MIN_BITRATE <= s.minRate <= s.rate
    && s.mode != Decrease
    && (s.mode == Increase ==> s.lastChange.Some?)
    && (!s.initialized ==> s.mode == Hold && s.capacity.estimate.None?)
    && ValidCapacity(s.capacity)
  }

  /** No time the state remembers is in the future. */
  ghost predicate Past(s: State, now: int) {
    && (s.lastChange.Some? ==> s.lastChange.value <= now)
    && (s.firstThroughput.Some? ==> s.firstThroughput.value <= now)
  }

  // ----- How far to go

  /** One packet of the average size in a response time, in bits per second. */
  function NearMaxIncreaseRate(rate: nat, rtt: nat): (r: nat)
    requires rate >= MIN_BITRATE
    ensures r >= 4_000
  {
    var frame := (rate * FRAME_INTERVAL + MICROBITS_PER_BYTE / 2) / MICROBITS_PER_BYTE;
    var packets := (frame + PACKET_SIZE - 1) / PACKET_SIZE;
    FrameIsNotEmpty(rate);
    var packet := Round(frame as real / packets as real);
    Max(4_000, packet * MICROBITS_PER_BYTE / (rtt + 100 * MILLISECOND))
  }

  /** So the average packet size is defined. */
  lemma FrameIsNotEmpty(rate: nat)
    requires rate >= MIN_BITRATE
    ensures (rate * FRAME_INTERVAL + MICROBITS_PER_BYTE / 2) / MICROBITS_PER_BYTE >= 1
  {
  }

  /** At most one full packet per response time of at least 100 ms. */
  lemma AdditiveIncreaseIsSlow(rate: nat, rtt: nat)
    requires rate >= MIN_BITRATE
    ensures NearMaxIncreaseRate(rate, rtt) <= 96_000
  {
    var frame := (rate * FRAME_INTERVAL + MICROBITS_PER_BYTE / 2) / MICROBITS_PER_BYTE;
    FrameIsNotEmpty(rate);
    PacketIsSmall(frame);
    var packet := Round(frame as real / ((frame + PACKET_SIZE - 1) / PACKET_SIZE) as real);
    hide Round;
    SmallQuotient(packet * MICROBITS_PER_BYTE, rtt + 100 * MILLISECOND);
  }

  lemma SmallQuotient(x: nat, d: nat)
    requires x <= PACKET_SIZE * MICROBITS_PER_BYTE && d >= 100 * MILLISECOND
    ensures x / d <= 96_000
  {
  }

  lemma PacketIsSmall(frame: nat)
    requires frame >= 1
    ensures 0 <= Round(frame as real / ((frame + PACKET_SIZE - 1) / PACKET_SIZE) as real) <= PACKET_SIZE
  {
    var packets := (frame + PACKET_SIZE - 1) / PACKET_SIZE;
    assert 1 <= packets && frame <= packets * PACKET_SIZE;
    var x := frame as real / packets as real;
    QuotientTimes(frame as real, packets as real);
    Cancel(x, PACKET_SIZE as real, packets as real);
    RoundIsMonotone(x, PACKET_SIZE as real);
  }

  function AdditiveIncrease(rate: nat, rtt: nat, elapsed: nat): nat
    requires rate >= MIN_BITRATE
  {
    NearMaxIncreaseRate(rate, rtt) * elapsed / SECOND
  }

  function MultiplicativeIncrease(m: Math, rate: nat, elapsed: nat): int {
    var alpha := m.growth(MinReal(elapsed as real / SECOND as real, 1.0));
    Max(Round(Times(rate as real, alpha - 1.0)), 1_000)
  }

  function ThroughputLimit(throughput: nat): nat {
    Round(throughput as real * 1.5) + 10_000
  }

  function Backoff(throughput: nat): nat {
    Round(throughput as real * BETA)
  }

  predicate Exceeds(rate: nat, bound: Option<int>) {
    bound.Some? && rate > bound.value
  }

  // ----- One update

  function ChangeState(s: State, usage: Usage, now: int): State {
    match usage
    case Normal => if s.mode == Hold then s.(lastChange := Some(now), mode := Increase) else s
    case Overusing => s.(mode := Decrease)
    case Underusing => s.(mode := Hold)
  }

  function Clamped(s: State, rate: int): nat {
    Max(rate, s.minRate)
  }

  /** In state `Increase`: towards the throughput limit. */
  function IncreaseRate(m: Math, s: State, throughput: nat, now: int): State
    requires s.lastChange.Some? && s.lastChange.value <= now
    requires s.capacity.estimate.Some? ==> s.rate >= MIN_BITRATE
  {
    var t := if Exceeds(throughput, UpperBound(m, s.capacity)) then s.(capacity := Reset(s.capacity)) else s;
    var limit, elapsed := ThroughputLimit(throughput), now - s.lastChange.value;
    var rate :=
      if s.rate >= limit then s.rate
      else if t.capacity.estimate.Some? then Min(s.rate + AdditiveIncrease(s.rate, s.rtt, elapsed), limit)
      else Min(s.rate + MultiplicativeIncrease(m, s.rate, elapsed), limit);
    t.(rate := Clamped(s, rate), lastChange := Some(now))
  }

  /** The rate overuse asks for: below the throughput, or below an older estimate of the capacity. */
  function BackoffRate(s: State, throughput: nat): int {
    if Backoff(throughput) > s.rate && s.capacity.estimate.Some?
    then Round(Bps(s.capacity.estimate.value) as real * BETA) else Backoff(throughput)
  }

  /** In state `Decrease`: never upwards, and then on hold. */
  function DecreaseRate(m: Math, s: State, throughput: nat, now: int): State {
    var rate := Min(BackoffRate(s, throughput), s.rate);
    var capacity := if throughput < LowerBound(m, s.capacity) then Reset(s.capacity) else s.capacity;
    s.(rate := Clamped(s, rate), capacity := Update(capacity, throughput, OVERUSE_WEIGHT), initialized := true,
       mode := Hold, lastChange := Some(now), lastDecrease := Some(now))
  }

  /** The first five seconds only wait for a throughput. */
  function Initialize(s: State, i: Input, now: int): State {
    if s.initialized || i.throughput.None? then s
    else
      match s.firstThroughput
      case None => s.(firstThroughput := Some(now))
      case Some(first) =>
        if now - first > INITIALIZATION_TIME then s.(rate := i.throughput.value, initialized := true) else s
  }

  function ChangeBitrate(m: Math, s: State, i: Input, now: int): State
    requires s.mode == Increase ==> s.lastChange.Some?
    requires s.lastChange.Some? ==> s.lastChange.value <= now
    requires s.capacity.estimate.Some? ==> s.rate >= MIN_BITRATE
    requires s.mode != Decrease
  {
    var throughput := i.throughput.GetOr(s.latestThroughput);
    var t := s.(latestThroughput := throughput);
    if !s.initialized && i.usage != Overusing then t
    else
      var u := ChangeState(t, i.usage, now);
      match u.mode
      case Hold => u.(rate := Clamped(u, u.rate))
      case Increase => IncreaseRate(m, u, throughput, now)
      case Decrease => DecreaseRate(m, u, throughput, now)
  }

  function UpdateRate(m: Math, s: State, i: Input, now: int): State
    requires Valid(s) && Past(s, now)
  {
    ChangeBitrate(m, Initialize(s, i, now), i, now)
  }

  predicate TimeToReduceFurther(s: State, now: int, throughput: nat) {
    || s.lastChange.None?
    || now - s.lastChange.value >= Clamp(s.rtt, 10 * MILLISECOND, 200 * MILLISECOND)
    || (s.initialized && throughput < Round(s.rate as real * 0.5))
  }

  /** Half of the estimate, when overuse comes before any throughput. */
  function SetEstimate(s: State, rate: nat, now: int): State {
    var clamped := Clamped(s, rate);
    s.(rate := clamped, initialized := true, lastChange := Some(now),
       lastDecrease := if clamped < s.rate then Some(now) else s.lastDecrease)
  }

  // ----- Every call keeps the state valid

  lemma IncreasesAreIncreases(m: Math, rate: nat, elapsed: nat)
    requires ValidMath(m)
    ensures 1_000 <= MultiplicativeIncrease(m, rate, elapsed) <= Max(1_000, Round(Times(rate as real, 0.08)))
  {
    hide Times, Round;
    var x := MinReal(elapsed as real / SECOND as real, 1.0);
    assert 1.0 <= m.growth(x) <= 1.08;
    ScaleRight(m.growth(x) - 1.0, 0.08, rate as real);
    RoundIsMonotone(Times(rate as real, m.growth(x) - 1.0), Times(rate as real, 0.08));
  }

  lemma LimitCoversThroughput(throughput: nat, bound: nat)
    requires throughput <= bound
    ensures throughput <= ThroughputLimit(throughput) <= ThroughputLimit(bound)
  {
    RoundIsMonotone(throughput as real, throughput as real * 1.5);
    RoundIsMonotone(throughput as real * 1.5, bound as real * 1.5);
  }

  lemma IncreaseStaysValid(m: Math, s: State, throughput: nat, now: int)
    requires s.mode == Increase && s.initialized && s.lastChange.Some? && s.lastChange.value <= now
    requires MIN_BITRATE <= s.minRate && (s.capacity.estimate.Some? ==> s.rate >= MIN_BITRATE) && ValidCapacity(s.capacity)
    ensures Valid(IncreaseRate(m, s, throughput, now))
    ensures IncreaseRate(m, s, throughput, now).lastChange == Some(now)
    ensures IncreaseRate(m, s, throughput, now).minRate == s.minRate
    ensures IncreaseRate(m, s, throughput, now).firstThroughput == s.firstThroughput
    ensures IncreaseRate(m, s, throughput, now).latestThroughput == s.latestThroughput
    ensures IncreaseRate(m, s, throughput, now).lastDecrease == s.lastDecrease
    ensures IncreaseRate(m, s, throughput, now).initialized
    ensures s.rate <= IncreaseRate(m, s, throughput, now).rate <= Max(s.minRate, Max(s.rate, ThroughputLimit(throughput)))
  {
    hide ThroughputLimit, AdditiveIncrease, UpperBound, Times, Round;
  }

  lemma DecreaseStaysValid(m: Math, s: State, throughput: nat, now: int)
    requires MIN_BITRATE <= s.minRate && ValidCapacity(s.capacity)
    ensures Valid(DecreaseRate(m, s, throughput, now))
    ensures DecreaseRate(m, s, throughput, now).lastChange == Some(now)
    ensures DecreaseRate(m, s, throughput, now).minRate == s.minRate
    ensures DecreaseRate(m, s, throughput, now).firstThroughput == s.firstThroughput
    ensures DecreaseRate(m, s, throughput, now).latestThroughput == s.latestThroughput
    ensures Min(BackoffRate(s, throughput), s.rate) <= DecreaseRate(m, s, throughput, now).rate
    ensures DecreaseRate(m, s, throughput, now).rate <= Max(s.minRate, Min(BackoffRate(s, throughput), s.rate))
  {
    hide Update, LowerBound, BackoffRate;
    UpdateIsValid(s.capacity, throughput, OVERUSE_WEIGHT);
    UpdateIsValid(Reset(s.capacity), throughput, OVERUSE_WEIGHT);
  }

  lemma UpdateStaysValid(m: Math, s: State, i: Input, now: int)
    requires Valid(s) && Past(s, now)
    ensures Valid(UpdateRate(m, s, i, now)) && Past(UpdateRate(m, s, i, now), now)
    ensures UpdateRate(m, s, i, now).minRate == s.minRate
    ensures UpdateRate(m, s, i, now).latestThroughput == i.throughput.GetOr(s.latestThroughput)
    ensures UpdateRate(m, s, i, now).rate <=
            Max(Max(s.rate, i.throughput.GetOr(0)), ThroughputLimit(i.throughput.GetOr(s.latestThroughput)))
  {
    hide ThroughputLimit, IncreaseRate, DecreaseRate;
    var throughput := i.throughput.GetOr(s.latestThroughput);
    var u := ChangeState(Initialize(s, i, now).(latestThroughput := throughput), i.usage, now);
    if u.mode == Increase && u.initialized {
      IncreaseStaysValid(m, u, throughput, now);
    } else if u.mode == Decrease {
      DecreaseStaysValid(m, u, throughput, now);
    }
  }

  /** Once there is an estimate: overuse never raises it, normal use never lowers it, underuse keeps it. */
  lemma UpdateDirection(m: Math, s: State, i: Input, now: int)
    requires ValidMath(m) && Valid(s) && Past(s, now) && s.initialized
    ensures var r := UpdateRate(m, s, i, now).rate;
            match i.usage case Overusing => r <= s.rate case Normal => r >= s.rate case Underusing => r == s.rate
  {
    hide ThroughputLimit, Backoff, MultiplicativeIncrease, AdditiveIncrease, Update, UpperBound, LowerBound;
    IncreasesAreIncreases(m, s.rate, now - s.lastChange.GetOr(now));
    IncreasesAreIncreases(m, s.rate, 0);
  }

  // ----- Runs

  datatype Event =
    | Feedback(input: Input)
    | Halve
    | Constraints(start: Option<nat>, low: nat)
    | SetRtt(rtt: nat)

  datatype Timed = Timed(now: int, event: Event)

  /** The caller raises both rates to the global minimum, and the start rate to the other. */
  predicate Legal(e: Event) {
    e.Constraints? ==> MIN_BITRATE <= e.low && (e.start.Some? ==> e.low <= e.start.value)
  }

  /** Start rate, then minimum, as on new constraints. */
  function SetConstraints(s: State, start: Option<nat>, low: nat): State {
    var t := if start.Some? then s.(rate := start.value, latestThroughput := start.value, initialized := true) else s;
    t.(minRate := low, rate := Max(low, t.rate))
  }

  function Step(m: Math, s: State, e: Timed): State
    requires Valid(s) && Past(s, e.now)
  {
    match e.event
    case Feedback(input) => UpdateRate(m, s, input, e.now)
    case Halve => SetEstimate(s, s.rate / 2, e.now)
    case Constraints(start, low) => SetConstraints(s, start, low)
    case SetRtt(rtt) => s.(rtt := rtt)
  }

  lemma StepStaysValid(m: Math, s: State, e: Timed)
    requires ValidMath(m) && Valid(s) && Past(s, e.now) && Legal(e.event)
    ensures Valid(Step(m, s, e)) && Past(Step(m, s, e), e.now)
  {
    match e.event
    case Feedback(input) => UpdateStaysValid(m, s, input, e.now);
    case _ =>
  }

  ghost predicate Ordered(es: seq<Timed>, start: int) {
    && (forall e | e in es :: start <= e.now && Legal(e.event))
    && (forall i, j | 0 <= i < j < |es| :: es[i].now <= es[j].now)
  }

  lemma OrderedPrefix(es: seq<Timed>, start: int)
    requires Ordered(es, start) && es != []
    ensures Ordered(es[..|es| - 1], start)
    ensures Clock(es[..|es| - 1], start) <= es[|es| - 1].now == Clock(es, start)
    ensures Legal(es[|es| - 1].event)
  {
    assert es[|es| - 1] in es;
  }

  function Clock(es: seq<Timed>, start: int): int {
    if es == [] then start else es[|es| - 1].now
  }

  ghost function Run(m: Math, s: State, es: seq<Timed>, start: int): (r: State)
    requires ValidMath(m) && Valid(s) && Past(s, start) && Ordered(es, start)
    ensures Valid(r) && Past(r, Clock(es, start))
  {
    if es == [] then s else
    OrderedPrefix(es, start);
    var n := |es| - 1;
    var t := Run(m, s, es[..n], start);
    StepStaysValid(m, t, es[n]);
    Step(m, t, es[n])
  }

  /**
    What a caller may ask before there is an estimate: a cut only below a measured
    throughput, and no cut by half.
   */
  predicate Informed(s: State, e: Event) {
    s.initialized ||
    match e
    case Feedback(input) => input.usage == Overusing ==> input.throughput.Some?
    case Halve => false
    case _ => true
  }

  ghost predicate InformedRun(m: Math, s: State, es: seq<Timed>, start: int)
    requires ValidMath(m) && Valid(s) && Past(s, start) && Ordered(es, start)
  {
    es == [] ||
    (OrderedPrefix(es, start);
     var n := |es| - 1;
     InformedRun(m, s, es[..n], start) && Informed(Run(m, s, es[..n], start), es[n].event))
  }

  // ----- How far up a run can go

  /** Measured and configured rates are at most `bound`. */
  ghost predicate Measured(e: Event, bound: nat) {
    match e
    case Feedback(input) => input.throughput.Some? ==> input.throughput.value <= bound
    case Constraints(start, low) => low <= bound && (start.Some? ==> start.value <= bound)
    case _ => true
  }

  /** Until there is an estimate, the rate and the throughput of the start mean nothing. */
  ghost predicate Bounded(s: State, bound: nat, top: nat) {
    && ThroughputLimit(bound) <= top && s.minRate <= top
    && (s.initialized ==> s.rate <= top && s.latestThroughput <= bound)
  }

  lemma BackoffIsBelow(throughput: nat, bound: nat)
    requires throughput <= bound
    ensures Backoff(throughput) <= bound && Backoff(throughput) <= Backoff(bound)
  {
    RoundIsMonotone(throughput as real * BETA, throughput as real);
    RoundIsMonotone(throughput as real * BETA, bound as real * BETA);
  }

  lemma UpdateIsBounded(m: Math, s: State, i: Input, now: int, bound: nat, top: nat)
    requires Valid(s) && Past(s, now) && Bounded(s, bound, top) && Informed(s, Feedback(i)) && Measured(Feedback(i), bound)
    ensures Bounded(UpdateRate(m, s, i, now), bound, top)
  {
    hide ThroughputLimit, IncreaseRate, DecreaseRate, Backoff, Round;
    var throughput := i.throughput.GetOr(s.latestThroughput);
    var t := Initialize(s, i, now).(latestThroughput := throughput);
    var u := ChangeState(t, i.usage, now);
    LimitCoversThroughput(bound, bound);
    if t.initialized {
      LimitCoversThroughput(throughput, bound);
    }
    if u.mode == Increase && u.initialized {
      IncreaseStaysValid(m, u, throughput, now);
    } else if u.mode == Decrease {
      DecreaseStaysValid(m, u, throughput, now);
      BackoffIsBelow(throughput, bound);
    }
  }

  lemma StepStaysBelow(m: Math, s: State, e: Timed, bound: nat, top: nat)
    requires ValidMath(m) && Valid(s) && Past(s, e.now) && Legal(e.event) && Informed(s, e.event)
    requires Measured(e.event, bound) && Bounded(s, bound, top)
    ensures Bounded(Step(m, s, e), bound, top)
  {
    hide ThroughputLimit, UpdateRate;
    LimitCoversThroughput(bound, bound);
    match e.event
    case Feedback(input) => UpdateIsBounded(m, s, input, e.now, bound, top);
    case _ =>
  }

  /**
    If all measured throughputs stay at most `bound`, no estimate ever leaves the larger of
    where it began, if it had, and one and a half times that plus 10 kbps.
   */
  lemma {:induction false} RateStaysBelow(m: Math, s: State, es: seq<Timed>, start: int, bound: nat, top: nat)
    requires ValidMath(m) && Valid(s) && Past(s, start) && Ordered(es, start) && InformedRun(m, s, es, start)
    requires Bounded(s, bound, top) && forall e | e in es :: Measured(e.event, bound)
    ensures Bounded(Run(m, s, es, start), bound, top)
  {
    if es == [] {
    } else {
      hide Valid, Past, Step, Ordered, Measured, ValidMath, Bounded, Informed;
      OrderedPrefix(es, start);
      var n := |es| - 1;
      assert es[n] in es;
      RateStaysBelow(m, s, es[..n], start, bound, top);
      StepStaysBelow(m, Run(m, s, es[..n], start), es[n], bound, top);
    }
  }

  // ----- How far down a run can go

  /** Measured and start rates are at least `low`. */
  ghost predicate MeasuredAbove(e: Event, low: nat) {
    match e
    case Feedback(input) => input.throughput.Some? ==> input.throughput.value >= low
    case Constraints(start, _) => start.Some? ==> start.value >= low
    case _ => true
  }

  /** The least that a cut leaves: below the throughput or, in whole kbps, below the capacity. */
  function CutFloor(low: nat): int {
    Min(Backoff(low), Round(Bps(Kbps(low) as real) as real * BETA))
  }

  ghost predicate Floored(s: State, low: nat, floor: int) {
    && floor <= CutFloor(low) && floor <= s.rate
    && (s.initialized ==> low <= s.latestThroughput)
    && (s.capacity.estimate.Some? ==> Kbps(low) as real <= s.capacity.estimate.value)
  }

  lemma BackoffIsAbove(s: State, throughput: nat, low: nat)
    requires low <= throughput && (s.capacity.estimate.Some? ==> Kbps(low) as real <= s.capacity.estimate.value)
    ensures CutFloor(low) <= BackoffRate(s, throughput)
  {
    hide Kbps, Round;
    BackoffIsBelow(low, throughput);
    if s.capacity.estimate.Some? {
      TruncateIsMonotone(Kbps(low) as real * 1000.0, s.capacity.estimate.value * 1000.0);
      RoundIsMonotone(Bps(Kbps(low) as real) as real * BETA, Bps(s.capacity.estimate.value) as real * BETA);
    }
  }

  lemma CapacityIsAbove(c: Capacity, throughput: nat, low: nat)
    requires low <= throughput && (c.estimate.Some? ==> Kbps(low) as real <= c.estimate.value)
    ensures Kbps(low) as real <= Update(c, throughput, OVERUSE_WEIGHT).estimate.value
  {
    hide Blend, NormalisedError, Times;
    var sample := Kbps(throughput) as real;
    assert Kbps(low) as real <= sample;
    if c.estimate.Some? {
      BlendIsBetween(c.estimate.value, sample, OVERUSE_WEIGHT, Kbps(low) as real, MaxReal(c.estimate.value, sample));
    }
  }

  lemma UpdateIsFloored(m: Math, s: State, i: Input, now: int, low: nat, floor: int)
    requires Valid(s) && Past(s, now) && Floored(s, low, floor) && Informed(s, Feedback(i)) && MeasuredAbove(Feedback(i), low)
    ensures Floored(UpdateRate(m, s, i, now), low, floor)
  {
    hide ThroughputLimit, AdditiveIncrease, MultiplicativeIncrease, Update, Kbps, CutFloor, BackoffRate, LowerBound, UpperBound;
    var throughput := i.throughput.GetOr(s.latestThroughput);
    var t := Initialize(s, i, now).(latestThroughput := throughput);
    var u := ChangeState(t, i.usage, now);
    CutIsBelow(low);
    if u.mode == Increase && u.initialized {
      IncreaseStaysValid(m, u, throughput, now);
    } else if u.mode == Decrease {
      DecreaseStaysValid(m, u, throughput, now);
      BackoffIsAbove(u, throughput, low);
      CapacityIsAbove(u.capacity, throughput, low);
      CapacityIsAbove(Reset(u.capacity), throughput, low);
    }
  }

  lemma CutIsBelow(low: nat)
    ensures CutFloor(low) <= low
  {
    BackoffIsBelow(low, low);
  }

  lemma StepStaysAbove(m: Math, s: State, e: Timed, low: nat, floor: nat)
    requires ValidMath(m) && Valid(s) && Past(s, e.now) && Legal(e.event) && Informed(s, e.event)
    requires MeasuredAbove(e.event, low) && Floored(s, low, floor)
    ensures Floored(Step(m, s, e), low, if e.event.Halve? then floor / 2 else floor)
  {
    hide CutFloor, UpdateRate, Kbps;
    CutIsBelow(low);
    match e.event
    case Feedback(input) => UpdateIsFloored(m, s, input, e.now, low, floor);
    case _ =>
  }

  // ----- What a decrease leaves behind

  lemma StepKeepsDecrease(m: Math, s: State, e: Timed)
    requires Valid(s) && Past(s, e.now) && s.lastDecrease.Some?
    ensures Step(m, s, e).lastDecrease.Some?
  {
    hide ThroughputLimit, AdditiveIncrease, MultiplicativeIncrease, UpperBound, LowerBound, Update, BackoffRate;
  }

  // ----- The program's object

  class AimdRateControl {
    const math: Math
    var minConfiguredBitrate: nat
    var currentBitrate: nat
    var latestEstimatedThroughput: nat
    const linkCapacity: LinkCapacityEstimator
    var rateControlState: Mode
    var timeLastBitrateChange: Option<int>
    var timeLastBitrateDecrease: Option<int>
    var timeFirstThroughputEstimate: Option<int>
    var bitrateIsInitialized: bool
    var roundTripTime: nat

    ghost function Abs(): State
      reads this, linkCapacity
    {
      State(minConfiguredBitrate, currentBitrate, latestEstimatedThroughput, linkCapacity.Abs(), rateControlState,
            timeLastBitrateChange, timeLastBitrateDecrease, timeFirstThroughputEstimate, bitrateIsInitialized, roundTripTime)
    }

    /** The fields as a value, for the const time check. */
    function Value(): State
      reads this, linkCapacity
      ensures Value() == Abs()
    {
      State(minConfiguredBitrate, currentBitrate, latestEstimatedThroughput,
            Capacity(linkCapacity.estimateKbps, linkCapacity.deviationKbps), rateControlState,
            timeLastBitrateChange, timeLastBitrateDecrease, timeFirstThroughputEstimate, bitrateIsInitialized, roundTripTime)
    }

    constructor (m: Math)
      ensures math == m && fresh(linkCapacity)
      ensures Abs() == INITIAL
    {
      math := m;
      minConfiguredBitrate, currentBitrate, latestEstimatedThroughput := MIN_BITRATE, MAX_BITRATE, MAX_BITRATE;
      linkCapacity := new LinkCapacityEstimator();
      rateControlState := Hold;
      timeLastBitrateChange, timeLastBitrateDecrease, timeFirstThroughputEstimate := None, None, None;
      bitrateIsInitialized, roundTripTime := false, DEFAULT_RTT;
    }

    method ChangeControlState(usage: Usage, now: int)
      modifies this`rateControlState, this`timeLastBitrateChange
      ensures Abs() == ChangeState(old(Abs()), usage, now)
    {
      match usage
      case Normal =>
        if rateControlState == Hold {
          timeLastBitrateChange := Some(now);
          rateControlState := Increase;
        }
      case Overusing =>
        if rateControlState != Decrease {
          rateControlState := Decrease;
        }
      case Underusing =>
        rateControlState := Hold;
    }

    method ClampTo(newBitrate: Option<int>)
      modifies this`currentBitrate
      ensures Abs() == old(Abs()).(rate := Clamped(old(Abs()), newBitrate.GetOr(old(currentBitrate))))
    {
      currentBitrate := Max(newBitrate.GetOr(currentBitrate), minConfiguredBitrate);
    }

    /** The increase branch of the program's switch, with the clamp that follows it. */
    method IncreaseBitrate(estimatedThroughput: nat, now: int)
      requires timeLastBitrateChange.Some? && timeLastBitrateChange.value <= now
      requires linkCapacity.estimateKbps.Some? ==> currentBitrate >= MIN_BITRATE
      modifies this, linkCapacity
      ensures Abs() == IncreaseRate(math, old(Abs()), estimatedThroughput, now)
    {
      hide ThroughputLimit, MultiplicativeIncrease, AdditiveIncrease, UpperBound;
      var newBitrate: Option<int> := None;
      var limit, elapsed := ThroughputLimit(estimatedThroughput), now - timeLastBitrateChange.value;
      if Exceeds(estimatedThroughput, UpperBound(math, Capacity(linkCapacity.estimateKbps, linkCapacity.deviationKbps))) {
        linkCapacity.Clear();
      }
      if currentBitrate < limit {
        var increasedBitrate: int;
        if linkCapacity.estimateKbps.Some? {
          increasedBitrate := currentBitrate + AdditiveIncrease(currentBitrate, roundTripTime, elapsed);
        } else {
          increasedBitrate := currentBitrate + MultiplicativeIncrease(math, currentBitrate, elapsed);
        }
        newBitrate := Some(Min(increasedBitrate, limit));
      }
      timeLastBitrateChange := Some(now);
      ClampTo(newBitrate);
    }

    /** The decrease branch of the program's switch, with the clamp that follows it. */
    method DecreaseBitrate(estimatedThroughput: nat, now: int)
      modifies this, linkCapacity
      ensures Abs() == DecreaseRate(math, old(Abs()), estimatedThroughput, now)
    {
      hide Backoff, Update, LowerBound, Bps, Round;
      var newBitrate: Option<int> := None;
      var decreasedBitrate: int := Backoff(estimatedThroughput);
      if decreasedBitrate > currentBitrate {
        if linkCapacity.estimateKbps.Some? {
          decreasedBitrate := Round(Bps(linkCapacity.estimateKbps.value) as real * BETA);
        }
      }
      if decreasedBitrate < currentBitrate {
        newBitrate := Some(decreasedBitrate);
      }
      assert newBitrate.GetOr(currentBitrate) == Min(BackoffRate(Abs(), estimatedThroughput), currentBitrate);
      if estimatedThroughput < LowerBound(math, Capacity(linkCapacity.estimateKbps, linkCapacity.deviationKbps)) {
        linkCapacity.Clear();
      }
      bitrateIsInitialized := true;
      linkCapacity.OnOveruseDetected(estimatedThroughput);
      rateControlState := Hold;
      timeLastBitrateChange := Some(now);
      timeLastBitrateDecrease := Some(now);
      ClampTo(newBitrate);
    }

    method Change(input: Input, now: int)
      requires rateControlState == Increase ==> timeLastBitrateChange.Some?
      requires timeLastBitrateChange.Some? ==> timeLastBitrateChange.value <= now
      requires linkCapacity.estimateKbps.Some? ==> currentBitrate >= MIN_BITRATE
      requires rateControlState != Decrease
      modifies this, linkCapacity
      ensures Abs() == ChangeBitrate(math, old(Abs()), input, now)
    {
      hide IncreaseRate, DecreaseRate;
      var estimatedThroughput := input.throughput.GetOr(latestEstimatedThroughput);
      if input.throughput.Some? {
        latestEstimatedThroughput := input.throughput.value;
      }
      if !bitrateIsInitialized && input.usage != Overusing {
        return;
      }
      ChangeControlState(input.usage, now);
      match rateControlState {
        case Hold => ClampTo(None);
        case Increase => IncreaseBitrate(estimatedThroughput, now);
        case Decrease => DecreaseBitrate(estimatedThroughput, now);
      }
    }

    method UpdateTarget(input: Input, now: int) returns (bitrate: nat)
      requires Valid(Abs()) && Past(Abs(), now)
      modifies this, linkCapacity
      ensures Abs() == UpdateRate(math, old(Abs()), input, now) && bitrate == currentBitrate
    {
      if !bitrateIsInitialized {
        if timeFirstThroughputEstimate.None? {
          if input.throughput.Some? {
            timeFirstThroughputEstimate := Some(now);
          }
        } else if now - timeFirstThroughputEstimate.value > INITIALIZATION_TIME && input.throughput.Some? {
          currentBitrate := input.throughput.value;
          bitrateIsInitialized := true;
        }
      }
      Change(input, now);
      bitrate := currentBitrate;
    }

    method SetEstimateTo(bitrate: nat, now: int)
      modifies this
      ensures Abs() == SetEstimate(old(Abs()), bitrate, now)
    {
      bitrateIsInitialized := true;
      var prevBitrate := currentBitrate;
      currentBitrate := Max(bitrate, minConfiguredBitrate);
      timeLastBitrateChange := Some(now);
      if currentBitrate < prevBitrate {
        timeLastBitrateDecrease := Some(now);
      }
    }

    method SetRtt(rtt: nat)
      modifies this`roundTripTime
      ensures Abs() == old(Abs()).(rtt := rtt)
    {
      roundTripTime := rtt;
    }

    method SetStartAndMinimum(start: Option<nat>, low: nat)
      modifies this
      ensures Abs() == SetConstraints(old(Abs()), start, low)
    {
      if start.Some? {
        currentBitrate := start.value;
        latestEstimatedThroughput := start.value;
        bitrateIsInitialized := true;
      }
      minConfiguredBitrate := low;
      currentBitrate := Max(low, currentBitrate);
    }
  }
}

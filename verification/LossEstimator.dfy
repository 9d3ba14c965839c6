/**
  The send-side bandwidth estimator: loss fractions in units of 1/256 (section 6.4.1
  of RFC 3550) move the target rate by the 2% / 10% rule of section 6 of
  draft-ietf-rmcat-gcc-02. The functions say what one call does to the state; the
  class does it in place.
 */
module LossEstimator {
  import opened Units
  import opened MinHistory

  const MIN_BITRATE := 5_000
  const DEFAULT_MAX_BITRATE := 1_000_000_000
  const INITIAL_TARGET := 500_000
  const LIMIT_NUM_PACKETS := 20
  const DECREASE_INTERVAL := 300 * MILLISECOND
  const START_PHASE := 2_000 * MILLISECOND
  /** 1.2 times the largest expected feedback interval of five seconds. */
  const FEEDBACK_TIMEOUT := 6_000 * MILLISECOND

  datatype State = State(
    lost: int,
    expected: int,
    target: int,
    minRate: int,
    maxRate: int,
    hasDecreased: bool,
    lastReport: Option<int>,
    fraction: nat,
    rtt: int,
    receiverLimit: Option<int>,
    delayLimit: Option<int>,
    lastDecrease: Option<int>,
    firstReport: Option<int>,
    history: seq<Sample>)

  const INITIAL := State(0, 0, INITIAL_TARGET, MIN_BITRATE, DEFAULT_MAX_BITRATE, false,
                         None, 0, 0, None, None, None, None, [])

  // ----- Limits on the target

  function UpperLimit(s: State): int {
    match s.delayLimit
    case None => s.maxRate
    case Some(d) => Min(d, s.maxRate)
  }

  function Limited(s: State, rate: int): int {
    var capped := Min(rate, UpperLimit(s));
    if capped < s.minRate then s.minRate else capped
  }

  function WithTarget(s: State, rate: int): State {
    s.(target := Limited(s, rate))
  }

  /** The rate handed to the pacer. */
  function TargetRate(s: State): int {
    var t := match s.receiverLimit case None => s.target case Some(r) => Min(s.target, r);
    Max(s.minRate, t)
  }

  // ----- One update of the estimate

  predicate InStartPhase(s: State, now: int) {
    s.firstReport.None? || now - s.firstReport.value < START_PHASE
  }

  /** The highest finite limit, if that is above the target. */
  function StartRate(s: State): int {
    var r := match s.receiverLimit case None => s.target case Some(l) => Max(l, s.target);
    match s.delayLimit case None => r case Some(l) => Max(l, r)
  }

  predicate Jumps(s: State, now: int) {
    s.fraction == 0 && InStartPhase(s, now) && StartRate(s) != s.target
  }

  predicate ReportRecent(s: State, now: int) {
    s.lastReport.Some? && now - s.lastReport.value < FEEDBACK_TIMEOUT
  }

  function LossRatio(fraction: nat): real {
    fraction as real / 256.0
  }

  predicate LowLoss(s: State) {
    s.target < 0 || LossRatio(s.fraction) <= 0.02
  }

  predicate HighLoss(s: State) {
    s.target > 0 && LossRatio(s.fraction) > 0.1
  }

  predicate MayDecrease(s: State, now: int) {
    && !s.hasDecreased
    && (s.lastDecrease.None? || now - s.lastDecrease.value >= DECREASE_INTERVAL + s.rtt)
  }

  predicate Increases(s: State, now: int) {
    !Jumps(s, now) && ReportRecent(s, now) && LowLoss(s)
  }

  predicate Decreases(s: State, now: int) {
    !Jumps(s, now) && ReportRecent(s, now) && !LowLoss(s) && HighLoss(s) && MayDecrease(s, now)
  }

  /** Eight percent, rounded, and 1 kbps so as not to get stuck. */
  function Increased(rate: int): int {
    Truncate(rate as real * 1.08 + 0.5) + 1_000
  }

  /** rate * (1 - lossRatio / 2) */
  function Reduced(rate: int, fraction: nat): int {
    Truncate((rate * (512 - fraction)) as real / 512.0)
  }

  function Sampled(s: State, now: int): (r: State)
    ensures r.history != []
  {
    s.(history := Push(s.history, now, s.target))
  }

  function UpdateEstimate(s: State, now: int): (r: State)
    ensures r == s.(target := r.target, history := r.history, lastDecrease := r.lastDecrease, hasDecreased := r.hasDecreased)
  {
    if Jumps(s, now) then
      WithTarget(s.(history := [Sample(now, s.target)]), StartRate(s))
    else
      var t := Sampled(s, now);
      if Increases(s, now) then
        WithTarget(t, Increased(t.history[0].rate))
      else if Decreases(s, now) then
        WithTarget(t.(lastDecrease := Some(now), hasDecreased := true), Reduced(s.target, s.fraction))
      else
        WithTarget(t, t.target)
  }

  // ----- Receiver reports

  function FractionOf(lost: int, total: int): (f: nat)
    requires 0 <= lost && 0 < total
    ensures f <= 255
  {
    Min(lost * 256 / total, 255)
  }

  predicate Flushes(s: State, total: int) {
    total > 0 && s.expected + total >= LIMIT_NUM_PACKETS
  }

  /** The state in which a flushing report updates the estimate. */
  function WithFraction(s: State, lost: nat, total: nat, now: int): State
    requires s.lost >= 0 && s.expected >= 0 && total > 0
  {
    s.(hasDecreased := false, fraction := FractionOf(s.lost + lost, s.expected + total),
       lost := 0, expected := 0, lastReport := Some(now), firstReport := Some(s.firstReport.GetOr(now)))
  }

  function UpdatePacketsLost(s: State, lost: nat, total: nat, now: int): State
    requires s.lost >= 0 && s.expected >= 0
  {
    if Flushes(s, total) then
      UpdateEstimate(WithFraction(s, lost, total, now), now)
    else
      var t := s.(firstReport := Some(s.firstReport.GetOr(now)));
      if total > 0 then t.(lost := s.lost + lost, expected := s.expected + total) else t
  }

  // ----- The other inputs

  function FiniteUnlessZero(rate: nat): Option<int> {
    if rate == 0 then None else Some(rate)
  }

  function UpdateReceiverEstimate(s: State, bandwidth: nat): State {
    var t := s.(receiverLimit := FiniteUnlessZero(bandwidth));
    WithTarget(t, t.target)
  }

  function UpdateDelayBasedEstimate(s: State, bitrate: nat): State {
    var t := s.(delayLimit := FiniteUnlessZero(bitrate));
    WithTarget(t, t.target)
  }

  function SetMinMaxBitrate(s: State, low: nat, high: Option<nat>): State {
    var minRate := Max(low, MIN_BITRATE);
    s.(minRate := minRate,
       maxRate := if high.Some? && high.value > 0 then Max(minRate, high.value) else DEFAULT_MAX_BITRATE)
  }

  function SetSendBitrate(s: State, rate: nat): State {
    WithTarget(s.(delayLimit := None), rate).(history := [])
  }

  function SetBitrates(s: State, send: Option<nat>, low: nat, high: Option<nat>): State {
    var t := SetMinMaxBitrate(s, low, high);
    match send case None => t case Some(rate) => SetSendBitrate(t, rate)
  }

  function UpdateRtt(s: State, rtt: int): State {
    if rtt > 0 then s.(rtt := rtt) else s
  }

  // ----- Runs

  datatype Event =
    | LossReport(received: nat, lost: nat)
    | RemoteBitrate(bandwidth: nat)
    | DelayEstimate(bitrate: nat)
    | Constraints(send: Option<nat>, low: nat, high: Option<nat>)
    | RttUpdate(rtt: int)
    | Process

  datatype Input = Input(now: int, event: Event)

  predicate Sane(s: State) {
    0 <= s.lost <= s.expected < LIMIT_NUM_PACKETS && s.fraction <= 255 && s.rtt >= 0
  }

  function Step(s: State, i: Input): State
    requires Sane(s)
  {
    match i.event
    case LossReport(received, lost) => UpdatePacketsLost(s, lost, received + lost, i.now)
    case RemoteBitrate(bandwidth) => UpdateReceiverEstimate(s, bandwidth)
    case DelayEstimate(bitrate) => UpdateDelayBasedEstimate(s, bitrate)
    case Constraints(send, low, high) => SetBitrates(s, send, low, high)
    case RttUpdate(rtt) => UpdateRtt(s, rtt)
    case Process => UpdateEstimate(s, i.now)
  }

  function Run(s: State, inputs: seq<Input>): (r: State)
    requires Sane(s)
    ensures Sane(r)
  {
    if inputs == [] then s else
    var before := Run(s, inputs[..|inputs| - 1]);
    StepIsSane(before, inputs[|inputs| - 1]);
    Step(before, inputs[|inputs| - 1])
  }

  ghost predicate TimeOrderedInputs(inputs: seq<Input>) {
    forall i, j | 0 <= i < j < |inputs| :: inputs[i].now <= inputs[j].now
  }

  /** Fewer than twenty packets are ever pending, and no more lost than expected. */
  lemma StepIsSane(s: State, i: Input)
    requires Sane(s)
    ensures Sane(Step(s, i))
  {
  }

  /** The state in which `i` calls UpdateEstimate, if it does. */
  function Estimating(s: State, i: Input): Option<State>
    requires Sane(s)
  {
    match i.event
    case LossReport(received, lost) =>
      if Flushes(s, received + lost) then Some(WithFraction(s, lost, received + lost, i.now)) else None
    case Process => Some(s)
    case _ => None
  }

  lemma EstimatingStep(s: State, i: Input)
    requires Sane(s) && Estimating(s, i).Some?
    ensures Step(s, i) == UpdateEstimate(Estimating(s, i).value, i.now)
  {
  }

  // ----- The thresholds on the loss ratio, as numbers of 256ths

  lemma LossBands(s: State)
    requires s.target > 0
    ensures LowLoss(s) <==> s.fraction <= 5
    ensures HighLoss(s) <==> s.fraction >= 26
  {
  }

  /** Eight percent to the nearest bit, and 1000. */
  lemma IncreasedIsEightPercent(rate: nat)
    ensures -50 <= 100 * (Increased(rate) - 1_000) - 108 * rate <= 50
  {
  }

  lemma IncreasedIsMonotone(a: int, b: int)
    requires 0 <= a <= b
    ensures Increased(a) <= Increased(b) && a + 1_000 <= Increased(a)
  {
    TruncateIsMonotone(a as real * 1.08 + 0.5, b as real * 1.08 + 0.5);
    TruncateIsMonotone(a as real, a as real * 1.08 + 0.5);
  }

  /** Loss never takes more than half, and always takes something. */
  lemma ReducedBounds(rate: int, fraction: nat)
    requires 0 <= rate && fraction <= 255
    ensures rate * 257 / 512 <= Reduced(rate, fraction) <= rate
  {
    var t := rate * (512 - fraction);
    assert rate * 257 <= t <= rate * 512;
    assert t / 512 <= Reduced(rate, fraction) <= t / 512;
  }

  // ----- The program's object

  class SendSideBandwidthEstimation {
    var lostPackets: int
    var expectedPackets: int
    var currentTarget: int
    var minBitrateConfigured: int
    var maxBitrateConfigured: int
    var hasDecreasedSinceLastFractionLoss: bool
    var lastLossPacketReport: Option<int>
    var lastFractionLoss: nat
    var lastRoundTripTime: int
    var receiverLimit: Option<int>
    var delayBasedLimit: Option<int>
    var timeLastDecrease: Option<int>
    var firstReportTime: Option<int>
    var minBitrateHistory: seq<Sample>

    ghost function Abs(): State
      reads this
    {
      State(lostPackets, expectedPackets, currentTarget, minBitrateConfigured, maxBitrateConfigured,
            hasDecreasedSinceLastFractionLoss, lastLossPacketReport, lastFractionLoss, lastRoundTripTime,
            receiverLimit, delayBasedLimit, timeLastDecrease, firstReportTime, minBitrateHistory)
    }

    constructor ()
      ensures Abs() == INITIAL
    {
      lostPackets, expectedPackets := 0, 0;
      currentTarget := INITIAL_TARGET;
      minBitrateConfigured, maxBitrateConfigured := MIN_BITRATE, DEFAULT_MAX_BITRATE;
      hasDecreasedSinceLastFractionLoss := false;
      lastLossPacketReport, lastFractionLoss := None, 0;
      lastRoundTripTime := 0;
      receiverLimit, delayBasedLimit := None, None;
      timeLastDecrease, firstReportTime := None, None;
      minBitrateHistory := [];
    }

    method GetTargetRate() returns (target: int)
      ensures target == TargetRate(Abs())
    {
      target := currentTarget;
      if receiverLimit.Some? && receiverLimit.value < target {
        target := receiverLimit.value;
      }
      if target < minBitrateConfigured {
        target := minBitrateConfigured;
      }
    }

    method UpdateTargetBitrate(newBitrate: int)
      modifies this`currentTarget
      ensures Abs() == WithTarget(old(Abs()), newBitrate)
    {
      var bitrate := newBitrate;
      if delayBasedLimit.Some? && delayBasedLimit.value < bitrate {
        bitrate := delayBasedLimit.value;
      }
      if maxBitrateConfigured < bitrate {
        bitrate := maxBitrateConfigured;
      }
      if bitrate < minBitrateConfigured {
        bitrate := minBitrateConfigured;
      }
      currentTarget := bitrate;
    }

    method ApplyTargetLimits()
      modifies this`currentTarget
      ensures Abs() == WithTarget(old(Abs()), old(currentTarget))
    {
      UpdateTargetBitrate(currentTarget);
    }

    method UpdateMinHistory(now: int)
      modifies this`minBitrateHistory
      ensures Abs() == Sampled(old(Abs()), now)
    {
      ghost var before := minBitrateHistory;
      while minBitrateHistory != [] && now - minBitrateHistory[0].time + HISTORY_PRECISION > INCREASE_INTERVAL
        invariant DropStale(minBitrateHistory, now) == DropStale(before, now)
        decreases |minBitrateHistory|
      {
        minBitrateHistory := minBitrateHistory[1..];
      }
      while minBitrateHistory != [] && currentTarget <= minBitrateHistory[|minBitrateHistory| - 1].rate
        invariant DropDominated(minBitrateHistory, currentTarget) == DropDominated(DropStale(before, now), currentTarget)
        decreases |minBitrateHistory|
      {
        minBitrateHistory := minBitrateHistory[..|minBitrateHistory| - 1];
      }
      minBitrateHistory := minBitrateHistory + [Sample(now, currentTarget)];
    }

    method UpdateEstimateAt(now: int)
      modifies this
      ensures Abs() == UpdateEstimate(old(Abs()), now)
    {
      hide Increased, Reduced, LossRatio, Push, Limited;
      ghost var s := Abs();
      if lastFractionLoss == 0 && (firstReportTime.None? || now - firstReportTime.value < START_PHASE) {
        var newBitrate := currentTarget;
        if receiverLimit.Some? {
          newBitrate := Max(receiverLimit.value, newBitrate);
        }
        if delayBasedLimit.Some? {
          newBitrate := Max(delayBasedLimit.value, newBitrate);
        }
        if newBitrate != currentTarget {
          minBitrateHistory := [];
          minBitrateHistory := minBitrateHistory + [Sample(now, currentTarget)];
          assert minBitrateHistory == [Sample(now, currentTarget)] && Jumps(s, now);
          UpdateTargetBitrate(newBitrate);
          return;
        }
      }
      assert !Jumps(s, now);
      UpdateMinHistory(now);
      if lastLossPacketReport.None? {
        ApplyTargetLimits();
        return;
      }
      if now - lastLossPacketReport.value < FEEDBACK_TIMEOUT {
        var loss := LossRatio(lastFractionLoss);
        if currentTarget < 0 || loss <= 0.02 {
          assert Increases(s, now);
          UpdateTargetBitrate(Increased(minBitrateHistory[0].rate));
          return;
        } else if currentTarget > 0 {
          if loss > 0.1 {
            if !hasDecreasedSinceLastFractionLoss
               && (timeLastDecrease.None? || now - timeLastDecrease.value >= DECREASE_INTERVAL + lastRoundTripTime)
            {
              assert Decreases(s, now);
              timeLastDecrease := Some(now);
              var newBitrate := Reduced(currentTarget, lastFractionLoss);
              hasDecreasedSinceLastFractionLoss := true;
              UpdateTargetBitrate(newBitrate);
              return;
            }
          }
        }
      }
      assert !Increases(s, now) && !Decreases(s, now);
      ApplyTargetLimits();
    }

    method UpdatePacketsLostAt(packetsLost: nat, numberOfPackets: nat, now: int)
      requires Sane(Abs()) && packetsLost <= numberOfPackets
      modifies this
      ensures Sane(Abs()) && Abs() == UpdatePacketsLost(old(Abs()), packetsLost, numberOfPackets, now)
    {
      hide UpdateEstimate, Limited, FractionOf;
      ghost var s := Abs();
      if firstReportTime.None? {
        firstReportTime := Some(now);
      }
      if numberOfPackets > 0 {
        var expected := expectedPackets + numberOfPackets;
        if expected < LIMIT_NUM_PACKETS {
          expectedPackets := expected;
          lostPackets := lostPackets + packetsLost;
          return;
        }
        hasDecreasedSinceLastFractionLoss := false;
        lastFractionLoss := FractionOf(lostPackets + packetsLost, expected);
        lostPackets, expectedPackets := 0, 0;
        lastLossPacketReport := Some(now);
        assert Abs() == WithFraction(s, packetsLost, numberOfPackets, now);
        UpdateEstimateAt(now);
      }
    }

    /** The controller's handler: it adds the two counters of a receiver report. */
    method OnTransportLossReport(received: nat, lost: nat, now: int)
      requires Sane(Abs())
      modifies this
      ensures Abs() == Step(old(Abs()), Input(now, LossReport(received, lost)))
    {
      UpdatePacketsLostAt(lost, received + lost, now);
    }

    method UpdateReceiverEstimateAt(bandwidth: nat)
      modifies this
      ensures Abs() == UpdateReceiverEstimate(old(Abs()), bandwidth)
    {
      receiverLimit := if bandwidth == 0 then None else Some(bandwidth);
      ApplyTargetLimits();
    }

    method UpdateDelayBasedEstimateAt(bitrate: nat)
      modifies this
      ensures Abs() == UpdateDelayBasedEstimate(old(Abs()), bitrate)
    {
      delayBasedLimit := if bitrate == 0 then None else Some(bitrate);
      ApplyTargetLimits();
    }

    method SetBitratesAt(send: Option<nat>, low: nat, high: Option<nat>)
      modifies this
      ensures Abs() == SetBitrates(old(Abs()), send, low, high)
    {
      hide Limited;
      minBitrateConfigured := Max(low, MIN_BITRATE);
      if high.Some? && high.value > 0 {
        maxBitrateConfigured := Max(minBitrateConfigured, high.value);
      } else {
        maxBitrateConfigured := DEFAULT_MAX_BITRATE;
      }
      if send.Some? {
        delayBasedLimit := None;
        UpdateTargetBitrate(send.value);
        minBitrateHistory := [];
      }
    }

    method UpdateRttSample(rtt: int)
      modifies this
      ensures Abs() == UpdateRtt(old(Abs()), rtt)
    {
      if rtt > 0 {
        lastRoundTripTime := rtt;
      }
    }
  }
}

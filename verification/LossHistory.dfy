/**
  What every input does to the target, from the history of the inputs alone: the batches
  of reports, the times of reports and decreases, and the limits announced last.
 */
module LossHistory {
  import opened Units
  import opened MinHistory
  import opened LossEstimator
  import opened LossAccounting
  import opened LossControl

  // ----- What the estimator remembers

  function Batches(inputs: seq<Input>): seq<seq<Report>> {
    Cut(Reports(inputs)).batches
  }

  predicate CompletesBatch(inputs: seq<Input>, i: Input) {
    |Batches(inputs + [i])| > |Batches(inputs)|
  }

  /** The lost share of the last batch in 256ths, at most 255; zero before the first. */
  function LatestFraction(inputs: seq<Input>): nat {
    var bs := Batches(inputs);
    if bs == [] || Total(bs[|bs| - 1]) == 0 then 0
    else Min(255, 256 * Lost(bs[|bs| - 1]) / Total(bs[|bs| - 1]))
  }

  /** When the last batch was completed. */
  function LastBatch(inputs: seq<Input>): Option<int> {
    if inputs == [] then None else
    var n := |inputs| - 1;
    if CompletesBatch(inputs[..n], inputs[n]) then Some(inputs[n].now) else LastBatch(inputs[..n])
  }

  /** When the first report came, whether it carried packets or not. */
  function FirstReport(inputs: seq<Input>): Option<int> {
    if inputs == [] then None else
    var n := |inputs| - 1;
    var before := FirstReport(inputs[..n]);
    if before.None? && inputs[n].event.LossReport? then Some(inputs[n].now) else before
  }

  ghost predicate Remembers(s: State, inputs: seq<Input>) {
    && s.fraction == LatestFraction(inputs)
    && s.lastReport == LastBatch(inputs)
    && s.firstReport == FirstReport(inputs)
  }

  lemma StepMemory(s: State, i: Input)
    requires Sane(s)
    ensures var t := Step(s, i);
            && t.firstReport == (if i.event.LossReport? then Some(s.firstReport.GetOr(i.now)) else s.firstReport)
            && t.lastReport == (if IsFlush(s, i) then Some(i.now) else s.lastReport)
            && (!IsFlush(s, i) ==> t.fraction == s.fraction)
  {
    hide Push, Limited, StartRate, Increased, Reduced;
  }

  lemma FlushCompletesBatch(inputs: seq<Input>, i: Input)
    ensures IsFlush(Run(INITIAL, inputs), i) <==> CompletesBatch(inputs, i)
  {
    var all := inputs + [i];
    assert all[..|inputs|] == inputs;
    FractionsAreBatchRatios(inputs);
    FractionsAreBatchRatios(all);
    FractionsStep(INITIAL, all);
    BatchesGrow(inputs, i);
    hide Run, IsFlush, Fractions, FractionOfBatch, Cut, Reports;
  }

  lemma BatchesGrow(inputs: seq<Input>, i: Input)
    ensures Batches(inputs + [i]) == Batches(inputs) || |Batches(inputs + [i])| == |Batches(inputs)| + 1
  {
    ReportsStep(inputs, i);
  }

  lemma FractionIsLatest(inputs: seq<Input>)
    requires Batches(inputs) != []
    ensures Run(INITIAL, inputs).fraction == LatestFraction(inputs)
  {
    FractionsAreBatchRatios(inputs);
    hide Run, Fractions, Cut, Reports, Lost, Total;
  }

  lemma {:induction false} RunRemembers(inputs: seq<Input>)
    ensures Remembers(Run(INITIAL, inputs), inputs)
  {
    if inputs == [] {
    } else {
      var n := |inputs| - 1;
      assert inputs == inputs[..n] + [inputs[n]];
      assert Run(INITIAL, inputs) == Step(Run(INITIAL, inputs[..n]), inputs[n]);
      RunRemembers(inputs[..n]);
      StepMemory(Run(INITIAL, inputs[..n]), inputs[n]);
      FlushCompletesBatch(inputs[..n], inputs[n]);
      BatchesGrow(inputs[..n], inputs[n]);
      if Batches(inputs) != [] {
        FractionIsLatest(inputs);
      }
      hide Run, Step, IsFlush, Batches;
    }
  }

  // ----- What every update does

  /** The target with the limits applied, the minimum winning. */
  function Within(s: State, rate: int): int {
    var capped := if s.delayLimit.Some? && s.delayLimit.value < rate then s.delayLimit.value else rate;
    Max(s.minRate, Min(capped, s.maxRate))
  }

  /** The highest of the target and the limits announced. */
  function Highest(s: State): int {
    Max(s.target, Max(s.receiverLimit.GetOr(s.target), s.delayLimit.GetOr(s.target)))
  }

  /** A completed batch, or the regular update. */
  predicate Updates(inputs: seq<Input>, i: Input) {
    i.event.Process? || CompletesBatch(inputs, i)
  }

  /** In the first two seconds of reports, without loss, below a limit. */
  predicate StartsHigh(inputs: seq<Input>, i: Input) {
    var first := FirstReport(inputs + [i]);
    && LatestFraction(inputs + [i]) == 0
    && (first.None? || i.now - first.value < 2 * SECOND)
    && Highest(Run(INITIAL, inputs)) != Run(INITIAL, inputs).target
  }

  /** The last batch is less than six seconds old. */
  predicate IsRecent(inputs: seq<Input>, i: Input) {
    var last := LastBatch(inputs + [i]);
    last.Some? && i.now - last.value < 6 * SECOND
  }

  /** The last decrease is 300 ms and a round-trip time ago, and answered an earlier batch. */
  predicate CutIsDue(inputs: seq<Input>, i: Input) {
    var ds := Decreasing(INITIAL, inputs);
    ds == [] ||
    (&& i.now - ds[|ds| - 1].time >= 300 * MILLISECOND + Run(INITIAL, inputs).rtt
     && ds[|ds| - 1].flush < |Batches(inputs + [i])|)
  }

  lemma ReducedIsFloor(rate: nat, fraction: nat)
    requires fraction <= 255
    ensures Reduced(rate, fraction) == rate * (512 - fraction) / 512
  {
    var t := rate * (512 - fraction);
    assert t >= 0;
  }

  /** One update in terms of what the estimator remembers. */
  lemma UpdateInParts(s: State, now: int)
    requires 0 < s.target && s.fraction <= 255 && 0 <= s.rtt
    ensures var t := UpdateEstimate(s, now);
            var recent := s.lastReport.Some? && now - s.lastReport.value < 6 * SECOND;
            var starting := s.firstReport.None? || now - s.firstReport.value < 2 * SECOND;
            var due := !s.hasDecreased && (s.lastDecrease.None? || now - s.lastDecrease.value >= 300 * MILLISECOND + s.rtt);
            var cuts := recent && s.fraction >= 26 && due;
            if s.fraction == 0 && starting && Highest(s) != s.target then
              t.target == Within(s, Highest(s)) && t.lastDecrease == s.lastDecrease
            else if recent && s.fraction <= 5 then
              t.target == Within(s, Increased(Push(s.history, now, s.target)[0].rate)) && t.lastDecrease == s.lastDecrease
            else
              && t.target == Within(s, if cuts then s.target * (512 - s.fraction) / 512 else s.target)
              && t.lastDecrease == if cuts then Some(now) else s.lastDecrease
  {
    LossBands(s);
    ReducedIsFloor(s.target, s.fraction);
    hide Increased, Reduced, Push;
  }

  lemma EstimatingKeeps(s: State, i: Input)
    requires Sane(s) && Estimating(s, i).Some?
    ensures var t := Estimating(s, i).value;
            && t == s.(hasDecreased := t.hasDecreased, fraction := t.fraction, lost := t.lost, expected := t.expected,
                       lastReport := t.lastReport, firstReport := t.firstReport)
            && t.fraction == Step(s, i).fraction && t.lastReport == Step(s, i).lastReport
            && t.firstReport == Step(s, i).firstReport
            && t.hasDecreased == (s.hasDecreased && !IsFlush(s, i))
            && t.fraction <= 255
  {
    EstimatingStep(s, i);
    EstimateKeeps(Estimating(s, i).value, i.now);
  }

  lemma EstimateKeeps(s: State, now: int)
    ensures var t := UpdateEstimate(s, now);
            t.fraction == s.fraction && t.lastReport == s.lastReport && t.firstReport == s.firstReport
  {
  }

  /** What the remembered decreases say about the next cut. */
  lemma DueIsDue(inputs: seq<Input>, i: Input)
    requires Updates(inputs, i)
    ensures var s := Run(INITIAL, inputs);
            CutIsDue(inputs, i) <==>
            && !(s.hasDecreased && !IsFlush(s, i))
            && (s.lastDecrease.None? || i.now - s.lastDecrease.value >= 300 * MILLISECOND + s.rtt)
  {
    DecreasesAreSpaced(inputs);
    FlushCompletesBatch(inputs, i);
    FractionsAreBatchRatios(inputs);
    BatchesGrow(inputs, i);
    hide Run, IsFlush, Decreasing, Fractions, Spaced, FractionOfBatch, Cut, Reports;
  }

  /**
    On every run, a completed batch or a regular update sets the target, within the limits,
    to: the highest limit, in the start phase; an increase of the smallest target of the
    last second, if the last batch lost at most 5/256; f/512 less, if it lost f/256 of at
    least 26 and a cut is due; and else what it was. The last but one is a decrease, nothing else is.
   */
  lemma EveryUpdateExactly(inputs: seq<Input>, i: Input)
    requires TimeOrderedInputs(inputs + [i]) && Updates(inputs, i)
    ensures var s, t := Run(INITIAL, inputs), Run(INITIAL, inputs + [i]);
            var f := LatestFraction(inputs + [i]);
            var cuts := !StartsHigh(inputs, i) && IsRecent(inputs, i) && f >= 26 && CutIsDue(inputs, i);
            && (if StartsHigh(inputs, i) then t.target == Within(s, Highest(s))
                else if IsRecent(inputs, i) && f <= 5 then
                  exists m :: && IsWindowMinimum(m, SampleLog(inputs) + [Sample(i.now, s.target)], i.now)
                              && t.target == Within(s, Increased(m))
                else if cuts then t.target == Within(s, s.target * (512 - f) / 512)
                else t.target == Within(s, s.target))
            && Decreasing(INITIAL, inputs + [i]) ==
               Decreasing(INITIAL, inputs) + if cuts then [Decrease(i.now, s.rtt, |Batches(inputs + [i])|)] else []
  {
    hide Run, Increased, Push, SampleLog, StartsHigh, IsRecent, CutIsDue, Decreasing, Fractions, Batches, Within, Updates,
         LatestFraction, IsWindowMinimum, Highest, TimeOrderedInputs;
    var s, all := Run(INITIAL, inputs), inputs + [i];
    assert all[..|inputs|] == inputs;
    UpdateFromMemory(inputs, i);
    WindowFront(inputs, i);
    DecreasingStep(INITIAL, all);
    OneFractionPerBatch(all);
    assert all[..|all| - 1] == inputs && all[|inputs|] == i;
    assert Decreasing(INITIAL, inputs) + [] == Decreasing(INITIAL, inputs);
  }

  lemma OneFractionPerBatch(inputs: seq<Input>)
    ensures |Fractions(INITIAL, inputs)| == |Batches(inputs)|
  {
    FractionsAreBatchRatios(inputs);
    hide Run, Fractions, FractionOfBatch, Cut, Reports;
  }

  lemma WindowFront(inputs: seq<Input>, i: Input)
    requires TimeOrderedInputs(inputs + [i])
    ensures var s := Run(INITIAL, inputs);
            IsWindowMinimum(Push(s.history, i.now, s.target)[0].rate, SampleLog(inputs) + [Sample(i.now, s.target)], i.now)
  {
    var s := Run(INITIAL, inputs);
    assert forall j | 0 <= j < |inputs| :: inputs[j] == (inputs + [i])[j] && inputs[j].now <= (inputs + [i])[|inputs|].now;
    HistoryRepresentsLog(inputs, i.now);
    PushRepresents(s.history, SampleLog(inputs), i.now, i.now, s.target);
  }

  lemma RunOfMore(inputs: seq<Input>, i: Input)
    ensures Run(INITIAL, inputs + [i]) == Step(Run(INITIAL, inputs), i)
  {
    hide Step;
    assert (inputs + [i])[..|inputs|] == inputs;
  }

  lemma UpdateIsEstimating(inputs: seq<Input>, i: Input)
    requires Updates(inputs, i)
    ensures Estimating(Run(INITIAL, inputs), i).Some?
  {
    hide Run, Flushes;
    FlushCompletesBatch(inputs, i);
  }

  lemma UpdateFromMemory(inputs: seq<Input>, i: Input)
    requires Updates(inputs, i)
    ensures var s, t := Run(INITIAL, inputs), Run(INITIAL, inputs + [i]);
            var f := LatestFraction(inputs + [i]);
            var cuts := !StartsHigh(inputs, i) && IsRecent(inputs, i) && f >= 26 && CutIsDue(inputs, i);
            && (if StartsHigh(inputs, i) then t.target == Within(s, Highest(s))
                else if IsRecent(inputs, i) && f <= 5 then
                  t.target == Within(s, Increased(Push(s.history, i.now, s.target)[0].rate))
                else if cuts then t.target == Within(s, s.target * (512 - f) / 512)
                else t.target == Within(s, s.target))
            && t.lastDecrease == (if cuts then Some(i.now) else s.lastDecrease)
            && (cuts ==> s.lastDecrease != Some(i.now))
  {
    hide Run, Step, UpdateEstimate, Increased, Push, Estimating, IsFlush, Updates, CutIsDue,
         LatestFraction, LastBatch, FirstReport;
    var s, all := Run(INITIAL, inputs), inputs + [i];
    RunOfMore(inputs, i);
    RunIsPositive(inputs);
    RunRemembers(all);
    DueIsDue(inputs, i);
    UpdateIsEstimating(inputs, i);
    EstimatingStep(s, i);
    EstimatingKeeps(s, i);
    UpdateInParts(Estimating(s, i).value, i.now);
  }

  lemma DecisionsInParts(s: State, now: int)
    requires 0 < s.target && s.fraction <= 255
    ensures var recent := s.lastReport.Some? && now - s.lastReport.value < 6 * SECOND;
            var starting := s.firstReport.None? || now - s.firstReport.value < 2 * SECOND;
            var due := !s.hasDecreased && (s.lastDecrease.None? || now - s.lastDecrease.value >= 300 * MILLISECOND + s.rtt);
            var jumps := s.fraction == 0 && starting && Highest(s) != s.target;
            && (Jumps(s, now) <==> jumps)
            && (Increases(s, now) <==> !jumps && recent && s.fraction <= 5)
            && (Decreases(s, now) <==> !jumps && recent && s.fraction >= 26 && due)
  {
    LossBands(s);
  }

  /** On every run, when an update jumps, increases or decreases, in terms of the history. */
  lemma DecisionsExactlyWhen(inputs: seq<Input>, i: Input)
    requires Updates(inputs, i) && Estimating(Run(INITIAL, inputs), i).Some?
    ensures var t, f := Estimating(Run(INITIAL, inputs), i).value, LatestFraction(inputs + [i]);
            && (Jumps(t, i.now) <==> StartsHigh(inputs, i))
            && (Increases(t, i.now) <==> !StartsHigh(inputs, i) && IsRecent(inputs, i) && f <= 5)
            && (Decreases(t, i.now) <==> !StartsHigh(inputs, i) && IsRecent(inputs, i) && f >= 26 && CutIsDue(inputs, i))
  {
    hide Run, Step, UpdateEstimate, Estimating, IsFlush, Updates, CutIsDue, LatestFraction, LastBatch, FirstReport,
         Jumps, Increases, Decreases;
    var s := Run(INITIAL, inputs);
    RunOfMore(inputs, i);
    RunIsPositive(inputs);
    RunRemembers(inputs + [i]);
    DueIsDue(inputs, i);
    EstimatingStep(s, i);
    EstimatingKeeps(s, i);
    DecisionsInParts(Estimating(s, i).value, i.now);
  }

  // ----- The limits, and every other input

  /** Limits on the rate and the round-trip time, as announced last. */
  datatype Announced = Announced(receiver: Option<int>, delay: Option<int>, low: int, high: int, rtt: int)

  /** A limit of zero is none, and a new rate forgets the limit of the delay estimate. */
  function LatestLimits(inputs: seq<Input>): Announced {
    if inputs == [] then Announced(None, None, 5_000, 1_000_000_000, 0) else
    var n := |inputs| - 1;
    var a := LatestLimits(inputs[..n]);
    match inputs[n].event
    case RemoteBitrate(b) => a.(receiver := if b == 0 then None else Some(b))
    case DelayEstimate(b) => a.(delay := if b == 0 then None else Some(b))
    case RttUpdate(rtt) => if rtt > 0 then a.(rtt := rtt) else a
    case Constraints(send, low, high) =>
      var min := Max(low, 5_000);
      a.(delay := if send.Some? then None else a.delay,
         low := min,
         high := if high.GetOr(0) > 0 then Max(min, high.value) else 1_000_000_000)
    case _ => a
  }

  function LimitsOf(s: State): Announced {
    Announced(s.receiverLimit, s.delayLimit, s.minRate, s.maxRate, s.rtt)
  }

  lemma StepLimits(s: State, i: Input)
    requires Sane(s) && (i.event.LossReport? || i.event.Process?)
    ensures LimitsOf(Step(s, i)) == LimitsOf(s)
  {
    hide Push, Increased, Reduced, StartRate;
  }

  /** On every run the limits are the ones announced last. */
  lemma {:induction false} LimitsAreLatest(inputs: seq<Input>)
    ensures LimitsOf(Run(INITIAL, inputs)) == LatestLimits(inputs)
  {
    if inputs == [] {
    } else {
      var n := |inputs| - 1;
      LimitsAreLatest(inputs[..n]);
      if inputs[n].event.LossReport? || inputs[n].event.Process? {
        StepLimits(Run(INITIAL, inputs[..n]), inputs[n]);
        hide Step;
      }
    }
  }

  /** The rate handed out is the target, or the receiver's limit if that is lower, or the minimum if both are. */
  lemma HandedOutExactly(inputs: seq<Input>)
    ensures var s, a := Run(INITIAL, inputs), LatestLimits(inputs);
            TargetRate(s) == Max(a.low, if a.receiver.Some? && a.receiver.value < s.target then a.receiver.value else s.target)
  {
    LimitsAreLatest(inputs);
    hide Run, LatestLimits;
  }

  lemma StepTarget(s: State, i: Input)
    requires Sane(s) && Estimating(s, i).None?
    ensures var t := Step(s, i);
            t.lastDecrease == s.lastDecrease &&
            match i.event
            case RemoteBitrate(_) => t.target == Within(t, s.target)
            case DelayEstimate(_) => t.target == Within(t, s.target)
            case Constraints(send, _, _) => t.target == if send.Some? then Within(t, send.value) else s.target
            case _ => t.target == s.target
  {
  }

  lemma NoUpdateIsNotEstimating(inputs: seq<Input>, i: Input)
    requires !Updates(inputs, i)
    ensures Estimating(Run(INITIAL, inputs), i).None?
  {
    hide Run, Flushes, Cut, Reports;
    FlushCompletesBatch(inputs, i);
  }

  /** On every run, every other input applies the new limits, or sets a new rate within them, or leaves the target. */
  lemma OtherInputsExactly(inputs: seq<Input>, i: Input)
    requires !Updates(inputs, i)
    ensures var s, t := Run(INITIAL, inputs), Run(INITIAL, inputs + [i]);
            match i.event
            case RemoteBitrate(_) => t.target == Within(t, s.target)
            case DelayEstimate(_) => t.target == Within(t, s.target)
            case Constraints(send, _, _) => t.target == if send.Some? then Within(t, send.value) else s.target
            case _ => t.target == s.target
    ensures Decreasing(INITIAL, inputs + [i]) == Decreasing(INITIAL, inputs)
  {
    hide Run, Step, Within, Updates, Decreasing, Estimating;
    var all := inputs + [i];
    assert all[..|all| - 1] == inputs && all[|inputs|] == i;
    RunOfMore(inputs, i);
    NoUpdateIsNotEstimating(inputs, i);
    StepTarget(Run(INITIAL, inputs), i);
    DecreasingStep(INITIAL, all);
  }

  lemma HalfLostCuts(s: State, now: int)
    requires 0 < s.target && s.rtt == 0 && s.lost == 0 && s.expected == 0 && Sane(s)
    requires s.lastDecrease.None? || now - s.lastDecrease.value >= 300 * MILLISECOND
    ensures var t := Step(s, Input(now, LossReport(10, 10)));
            && t.target == Within(s, s.target * 384 / 512) && LimitsOf(t) == LimitsOf(s)
            && t.lost == 0 && t.expected == 0 && t.lastDecrease == Some(now)
  {
    var t := WithFraction(s, 10, 20, now);
    UpdateInParts(t, now);
    hide UpdateEstimate;
  }

  /** Two reports of high loss, ten seconds apart, from the start: 500, 375 and 281 kbps. */
  lemma HighLossCutsAgain()
    ensures var inputs := [Input(0, LossReport(10, 10))];
            && Run(INITIAL, inputs).target == 375_000
            && Run(INITIAL, inputs + [Input(10 * SECOND, LossReport(10, 10))]).target == 281_250
  {
    var a, b := Input(0, LossReport(10, 10)), Input(10 * SECOND, LossReport(10, 10));
    assert [a][..0] == [] && Run(INITIAL, [a]) == Step(INITIAL, a);
    hide Step, Run;
    RunOfMore([a], b);
    HalfLostCuts(INITIAL, 0);
    StepIsSane(INITIAL, a);
    HalfLostCuts(Step(INITIAL, a), 10 * SECOND);
  }
}

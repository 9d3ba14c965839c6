/**
  What the loss controller does to the target over whole runs.
 */
module LossControl {
  import opened Units
  import opened MinHistory
  import opened LossEstimator
  import opened LossAccounting
  import opened Algebra

  // ----- The deque against the plain list of samples

  /** Every target sampled since the history was last cleared. */
  function SampleLog(inputs: seq<Input>): seq<Sample> {
    if inputs == [] then [] else
    var n := |inputs| - 1;
    LogAfter(SampleLog(inputs[..n]), Run(INITIAL, inputs[..n]), inputs[n])
  }

  function LogAfter(log: seq<Sample>, s: State, i: Input): seq<Sample>
    requires Sane(s)
  {
    match Estimating(s, i)
    case Some(t) => (if Jumps(t, i.now) then [] else log) + [Sample(i.now, t.target)]
    case None => if i.event.Constraints? && i.event.send.Some? then [] else log
  }

  /** What a step does to the history, and that sampling sees the unchanged target. */
  lemma StepHistory(s: State, i: Input)
    requires Sane(s)
    ensures match Estimating(s, i)
            case Some(t) =>
              && t.history == s.history && t.target == s.target
              && Step(s, i).history == if Jumps(t, i.now) then [Sample(i.now, t.target)] else Push(s.history, i.now, t.target)
            case None =>
              Step(s, i).history == if i.event.Constraints? && i.event.send.Some? then [] else s.history
  {
  }

  lemma StepRepresents(log: seq<Sample>, s: State, i: Input, last: int)
    requires Sane(s) && last <= i.now && Represents(s.history, log, last)
    ensures Represents(Step(s, i).history, LogAfter(log, s, i), i.now)
    ensures Estimating(s, i).Some? && !IsJump(s, i) ==>
              && Step(s, i).history != []
              && IsWindowMinimum(Step(s, i).history[0].rate, LogAfter(log, s, i), i.now)
  {
    StepHistory(s, i);
    PushRepresents(s.history, log, last, i.now, s.target);
    ClearedRepresents(Sample(i.now, s.target), i.now);
  }

  /**
    On every run with a monotone clock the deque represents the list, through both of
    the places that clear it.
   */
  lemma {:induction false} HistoryRepresentsLog(inputs: seq<Input>, last: int)
    requires TimeOrderedInputs(inputs) && forall i | i in inputs :: i.now <= last
    ensures Represents(Run(INITIAL, inputs).history, SampleLog(inputs), last)
  {
    if inputs == [] {
    } else {
      var n := |inputs| - 1;
      HistoryRepresentsLog(inputs[..n], inputs[n].now);
      StepRepresents(SampleLog(inputs[..n]), Run(INITIAL, inputs[..n]), inputs[n], inputs[n].now);
    }
  }

  /** An increase starts from the smallest target of the last second. */
  lemma IncreaseUsesWindowMinimum(inputs: seq<Input>, i: Input)
    requires TimeOrderedInputs(inputs + [i])
    requires var s := Run(INITIAL, inputs);
             Estimating(s, i).Some? && Increases(Estimating(s, i).value, i.now)
    ensures exists m :: && IsWindowMinimum(m, SampleLog(inputs) + [Sample(i.now, Run(INITIAL, inputs).target)], i.now)
                        && Step(Run(INITIAL, inputs), i).target == Limited(Run(INITIAL, inputs), Increased(m))
  {
    var s, log := Run(INITIAL, inputs), SampleLog(inputs);
    assert forall j | 0 <= j < |inputs| :: inputs[j] == (inputs + [i])[j] && inputs[j].now <= (inputs + [i])[|inputs|].now;
    HistoryRepresentsLog(inputs, i.now);
    PushRepresents(s.history, log, i.now, i.now, s.target);
    IncreaseStep(s, i);
  }

  lemma IncreaseStep(s: State, i: Input)
    requires Sane(s) && Estimating(s, i).Some? && Increases(Estimating(s, i).value, i.now)
    ensures Step(s, i).target == Limited(s, Increased(Push(s.history, i.now, s.target)[0].rate))
  {
  }

  // ----- The target against the samples

  ghost predicate Settled(s: State) {
    MIN_BITRATE <= s.minRate && s.target == Limited(s, s.target)
  }

  ghost predicate Capped(s: State) {
    Settled(s) && RateOrdered(s.history) && forall x | x in s.history :: s.minRate <= x.rate && s.target <= Increased(x.rate)
  }

  /** Not a new range of rates without a new rate. */
  predicate KeepsLimits(i: Input) {
    i.event.Constraints? ==> i.event.send.Some?
  }

  predicate IsJump(s: State, i: Input)
    requires Sane(s)
  {
    Estimating(s, i).Some? && Jumps(Estimating(s, i).value, i.now)
  }

  lemma StepIsSettled(s: State, i: Input)
    requires Sane(s) && Settled(s) && KeepsLimits(i)
    ensures Settled(Step(s, i))
  {
    match i.event
    case LossReport(received, lost) =>
      if Flushes(s, received + lost) {
        EstimateIsLimited(WithFraction(s, lost, received + lost, i.now), i.now);
      }
    case Process =>
      EstimateIsLimited(s, i.now);
    case _ =>
  }

  lemma EstimateIsLimited(s: State, now: int)
    requires MIN_BITRATE <= s.minRate
    ensures Settled(UpdateEstimate(s, now))
  {
    var t := Sampled(s, now);
    if Jumps(s, now) {
      WithTargetIsSettled(s.(history := [Sample(now, s.target)]), StartRate(s));
    } else if Increases(s, now) {
      WithTargetIsSettled(t, Increased(t.history[0].rate));
    } else if Decreases(s, now) {
      WithTargetIsSettled(t.(lastDecrease := Some(now), hasDecreased := true), Reduced(s.target, s.fraction));
    } else {
      WithTargetIsSettled(t, t.target);
    }
  }

  lemma WithTargetIsSettled(s: State, rate: int)
    requires MIN_BITRATE <= s.minRate
    ensures Settled(WithTarget(s, rate))
  {
  }

  lemma EstimateIsCapped(s: State, now: int)
    requires Capped(s) && s.fraction <= 255 && !Jumps(s, now)
    ensures Capped(UpdateEstimate(s, now))
    ensures Increases(s, now) ==> UpdateEstimate(s, now).target >= s.target
    ensures !Increases(s, now) && !Decreases(s, now) ==> UpdateEstimate(s, now).target == s.target
    ensures Decreases(s, now) ==>
              UpdateEstimate(s, now).target == Max(s.minRate, Reduced(s.target, s.fraction)) <= s.target
  {
    var h := Sampled(s, now).history;
    PushStaysOrdered(s.history, now, s.target);
    IncreasedIsMonotone(s.target, s.target);
    ReducedBounds(s.target, s.fraction);
    assert h[0] in h;
    forall x | x in h
      ensures s.minRate <= x.rate && s.target <= Increased(x.rate) && Increased(h[0].rate) <= Increased(x.rate)
    {
      IncreasedIsMonotone(h[0].rate, x.rate);
    }
  }

  lemma StepIsCapped(s: State, i: Input)
    requires Sane(s) && Capped(s) && KeepsLimits(i) && !IsJump(s, i)
    ensures Capped(Step(s, i))
  {
    match Estimating(s, i)
    case Some(t) =>
      EstimatingStep(s, i);
      EstimateIsCapped(t, i.now);
    case None =>
      StepIsSettled(s, i);
      StepHistory(s, i);
      assert i.event.Constraints? || (Step(s, i).minRate == s.minRate && Step(s, i).target <= s.target);
  }

  /** No start-phase jump, and no change of the configured range alone. */
  predicate Smooth(s: State, inputs: seq<Input>)
    requires Sane(s)
  {
    inputs == [] ||
    var n := |inputs| - 1;
    Smooth(s, inputs[..n]) && KeepsLimits(inputs[n]) && !IsJump(Run(s, inputs[..n]), inputs[n])
  }

  lemma {:induction false} RunIsCapped(s: State, inputs: seq<Input>)
    requires Sane(s) && Capped(s) && Smooth(s, inputs)
    ensures Capped(Run(s, inputs))
  {
    if inputs == [] {
    } else {
      var n := |inputs| - 1;
      RunIsCapped(s, inputs[..n]);
      StepIsCapped(Run(s, inputs[..n]), inputs[n]);
    }
  }

  /** The target is within the limits on every run that sets a new rate with a new range. */
  lemma {:induction false} RunStaysWithinLimits(inputs: seq<Input>)
    requires forall i | i in inputs :: KeepsLimits(i)
    ensures Settled(Run(INITIAL, inputs))
    ensures var s := Run(INITIAL, inputs);
            s.minRate <= s.target <= Max(s.minRate, UpperLimit(s))
  {
    hide Step, KeepsLimits;
    if inputs == [] {
    } else {
      var n := |inputs| - 1;
      assert inputs[n] in inputs;
      RunStaysWithinLimits(inputs[..n]);
      StepIsSettled(Run(INITIAL, inputs[..n]), inputs[n]);
    }
  }

  // ----- The rates never leave the range the program relies on

  ghost predicate Positive(s: State) {
    MIN_BITRATE <= s.minRate && MIN_BITRATE <= s.target
  }

  lemma {:induction false} RunIsPositive(inputs: seq<Input>)
    ensures Positive(Run(INITIAL, inputs))
    ensures forall x | x in SampleLog(inputs) :: MIN_BITRATE <= x.rate
    ensures var s := Run(INITIAL, inputs);
            && MIN_BITRATE <= s.minRate <= TargetRate(s)
            && (s.receiverLimit.Some? ==> TargetRate(s) <= Max(s.minRate, s.receiverLimit.value))
  {
    if inputs == [] {
    } else {
      var n := |inputs| - 1;
      RunIsPositive(inputs[..n]);
      StepIsPositive(Run(INITIAL, inputs[..n]), inputs[n]);
      StepHistory(Run(INITIAL, inputs[..n]), inputs[n]);
    }
  }

  lemma StepIsPositive(s: State, i: Input)
    requires Sane(s) && Positive(s)
    ensures Positive(Step(s, i))
  {
    match Estimating(s, i)
    case Some(t) =>
      EstimatingStep(s, i);
      EstimateIsLimited(t, i.now);
    case None =>
  }

  /**
    Between jumps the target stays within one increase of every target of the last
    second.
   */
  lemma TargetIsCappedByWindow(inputs: seq<Input>, last: int)
    requires TimeOrderedInputs(inputs) && forall i | i in inputs :: i.now <= last
    requires Smooth(INITIAL, inputs)
    ensures forall x | x in SampleLog(inputs) && Fresh(x, last) :: Run(INITIAL, inputs).target <= Increased(x.rate)
  {
    var s := Run(INITIAL, inputs);
    HistoryRepresentsLog(inputs, last);
    RunIsCapped(INITIAL, inputs);
    forall x | x in SampleLog(inputs) && Fresh(x, last)
      ensures s.target <= Increased(x.rate)
    {
      assert Covered(x, s.history);
      var k :| 0 <= k < |s.history| && s.history[k].rate <= x.rate;
      assert s.history[k] in s.history;
      IncreasedIsMonotone(s.history[k].rate, x.rate);
    }
  }

  /** So, between jumps, an update with low loss never lowers the target. */
  lemma LowLossNeverLowers(inputs: seq<Input>, i: Input)
    requires Smooth(INITIAL, inputs)
    requires var s := Run(INITIAL, inputs);
             Estimating(s, i).Some? && Increases(Estimating(s, i).value, i.now)
    ensures Step(Run(INITIAL, inputs), i).target >= Run(INITIAL, inputs).target
  {
    var s := Run(INITIAL, inputs);
    RunIsCapped(INITIAL, inputs);
    EstimatingStep(s, i);
    EstimateIsCapped(Estimating(s, i).value, i.now);
  }

  /**
    On every run, jumps and new limits included, a low-loss update lowers the target
    exactly when the target is above a changed limit or above one increase of some
    target of the last second.
   */
  lemma LowLossLowersExactlyWhen(inputs: seq<Input>, i: Input)
    requires TimeOrderedInputs(inputs + [i])
    requires var s := Run(INITIAL, inputs);
             Estimating(s, i).Some? && Increases(Estimating(s, i).value, i.now)
    ensures var s := Run(INITIAL, inputs);
            Step(s, i).target < s.target <==>
            && s.minRate < s.target
            && (|| UpperLimit(s) < s.target
                || exists x | x in SampleLog(inputs) :: Fresh(x, i.now) && Increased(x.rate) < s.target)
  {
    var s, log := Run(INITIAL, inputs), SampleLog(inputs);
    RunIsPositive(inputs);
    IncreaseUsesWindowMinimum(inputs, i);
    var all := log + [Sample(i.now, s.target)];
    var m :| IsWindowMinimum(m, all, i.now) && Step(s, i).target == Limited(s, Increased(m));
    IncreasedIsMonotone(s.target, s.target);
    forall x | x in log && Fresh(x, i.now)
      ensures Increased(m) <= Increased(x.rate)
    {
      assert x in all;
      IncreasedIsMonotone(m, x.rate);
    }
  }

  /** A jump to the receiver's limit is undone by the very next report without loss. */
  lemma JumpThenLowLossLowers()
    ensures var inputs := [Input(0, RemoteBitrate(1_000_000)), Input(0, LossReport(20, 0))];
            var s := Run(INITIAL, inputs);
            && s.target == 1_000_000
            && Step(s, Input(100_000, LossReport(20, 0))).target == 541_000
  {
    var a, b := Input(0, RemoteBitrate(1_000_000)), Input(0, LossReport(20, 0));
    assert [a, b][..1] == [a] && [a][..0] == [];
    var start := Step(INITIAL, a);
    assert Run(INITIAL, [a]) == start;
    var s := Run(INITIAL, [a, b]);
    assert s == Step(start, b);
    var t := WithFraction(start, 0, 20, 0);
    assert t.target == 500_000 && StartRate(t) == 1_000_000 && Jumps(t, 0);
    assert s == UpdateEstimate(t, 0);
    var u := WithFraction(s, 0, 20, 100_000);
    assert !Jumps(u, 100_000) && Increases(u, 100_000);
    assert DropStale(s.history, 100_000) == s.history;
    assert DropDominated(s.history, 1_000_000) == s.history;
  }

  // ----- Decreases

  datatype Decrease = Decrease(time: int, rtt: int, flush: nat)

  /** When the target was cut for loss, and after how many fractions. */
  function Decreasing(s: State, inputs: seq<Input>): seq<Decrease>
    requires Sane(s)
  {
    if inputs == [] then [] else
    var n := |inputs| - 1;
    var t := Run(s, inputs[..n]);
    Decreasing(s, inputs[..n]) +
    if Step(t, inputs[n]).lastDecrease == t.lastDecrease then []
    else [Decrease(inputs[n].now, t.rtt, |Fractions(s, inputs)|)]
  }

  ghost predicate Spaced(ds: seq<Decrease>) {
    forall k | 0 < k < |ds| ::
      && ds[k].time - ds[k - 1].time >= DECREASE_INTERVAL + ds[k].rtt
      && ds[k - 1].flush < ds[k].flush
  }

  ghost predicate Tracked(s: State, ds: seq<Decrease>, fractions: seq<nat>) {
    && Spaced(ds)
    && (forall d | d in ds :: 0 < d.flush <= |fractions| && fractions[d.flush - 1] >= 26)
    && s.lastDecrease == (if ds == [] then None else Some(ds[|ds| - 1].time))
    && (s.hasDecreased <==> ds != [] && ds[|ds| - 1].flush == |fractions|)
    && (fractions == [] ==> s.lastReport.None?)
    && (fractions != [] ==> s.fraction == fractions[|fractions| - 1])
  }

  lemma EstimateDecrease(s: State, now: int)
    requires s.rtt >= 0
    ensures var r := UpdateEstimate(s, now);
            && r.fraction == s.fraction && r.lastReport == s.lastReport && r.rtt == s.rtt && r.minRate == s.minRate
            && r.lastDecrease == (if Decreases(s, now) then Some(now) else s.lastDecrease)
            && r.hasDecreased == (Decreases(s, now) || s.hasDecreased)
    ensures Decreases(s, now) ==> s.lastDecrease != Some(now)
  {
  }

  lemma StepDecrease(s: State, i: Input)
    requires Sane(s)
    ensures Estimating(s, i).None? ==>
              && Step(s, i).lastDecrease == s.lastDecrease && Step(s, i).hasDecreased == s.hasDecreased
              && Step(s, i).fraction == s.fraction && Step(s, i).lastReport == s.lastReport && !IsFlush(s, i)
    ensures Estimating(s, i).Some? ==>
              var t := Estimating(s, i).value;
              && t.lastDecrease == s.lastDecrease && t.rtt == s.rtt && t.minRate == s.minRate && t.target == s.target
              && t.fraction <= 255
              && (IsFlush(s, i) ==> !t.hasDecreased && t.fraction == Step(s, i).fraction)
              && (!IsFlush(s, i) ==> t == s)
  {
    if Estimating(s, i).Some? {
      EstimatingStep(s, i);
      EstimateDecrease(Estimating(s, i).value, i.now);
    }
  }

  lemma EstimateIsTracked(s: State, now: int, ds: seq<Decrease>, fractions: seq<nat>)
    requires Positive(s) && s.rtt >= 0 && Tracked(s, ds, fractions)
    ensures var r := UpdateEstimate(s, now);
            Tracked(r, if r.lastDecrease == s.lastDecrease then ds else ds + [Decrease(now, s.rtt, |fractions|)], fractions)
  {
    EstimateDecrease(s, now);
    hide UpdateEstimate, Tracked, Jumps, ReportRecent;
    if Decreases(s, now) {
      LossBands(s);
      DecreaseIsTracked(s, UpdateEstimate(s, now), now, ds, fractions);
    } else {
      QuietIsTracked(s, UpdateEstimate(s, now), ds, fractions);
    }
  }

  lemma DecreaseIsTracked(s: State, r: State, now: int, ds: seq<Decrease>, fractions: seq<nat>)
    requires Tracked(s, ds, fractions) && s.lastReport.Some? && s.fraction >= 26 && MayDecrease(s, now)
    requires r.lastDecrease == Some(now) && r.hasDecreased && r.fraction == s.fraction && r.lastReport == s.lastReport
    ensures Tracked(r, ds + [Decrease(now, s.rtt, |fractions|)], fractions)
  {
  }

  lemma FlushIsTracked(s: State, t: State, ds: seq<Decrease>, fractions: seq<nat>)
    requires Tracked(s, ds, fractions) && !t.hasDecreased && t.lastDecrease == s.lastDecrease
    ensures Tracked(t, ds, fractions + [t.fraction])
  {
  }

  lemma StepIsTracked(s: State, i: Input, ds: seq<Decrease>, fractions: seq<nat>)
    requires Sane(s) && Positive(s) && Tracked(s, ds, fractions)
    ensures var r := Step(s, i);
            var fs := fractions + if IsFlush(s, i) then [r.fraction] else [];
            Tracked(r, if r.lastDecrease == s.lastDecrease then ds else ds + [Decrease(i.now, s.rtt, |fs|)], fs)
  {
    hide UpdateEstimate, Step, Tracked;
    StepDecrease(s, i);
    match Estimating(s, i)
    case Some(t) =>
      EstimatingStep(s, i);
      var fs := fractions + if IsFlush(s, i) then [t.fraction] else [];
      if IsFlush(s, i) {
        FlushIsTracked(s, t, ds, fractions);
      } else {
        assert fs == fractions;
      }
      EstimateIsTracked(t, i.now, ds, fs);
    case None =>
      assert fractions + [] == fractions;
      QuietIsTracked(s, Step(s, i), ds, fractions);
  }

  lemma QuietIsTracked(s: State, r: State, ds: seq<Decrease>, fractions: seq<nat>)
    requires Tracked(s, ds, fractions) && r.lastDecrease == s.lastDecrease && r.hasDecreased == s.hasDecreased
    requires r.fraction == s.fraction && r.lastReport == s.lastReport
    ensures Tracked(r, ds, fractions)
  {
  }

  /**
    Over every run: consecutive loss-driven decreases are at least 300 ms and the
    current round-trip time apart, and no two answer the same loss fraction.
   */
  lemma {:induction false} DecreasesAreSpaced(inputs: seq<Input>)
    ensures Tracked(Run(INITIAL, inputs), Decreasing(INITIAL, inputs), Fractions(INITIAL, inputs))
  {
    if inputs == [] {
    } else {
      var n := |inputs| - 1;
      var before := inputs[..n];
      var s, ds, fractions := Run(INITIAL, before), Decreasing(INITIAL, before), Fractions(INITIAL, before);
      DecreasesAreSpaced(before);
      RunIsPositive(before);
      StepIsTracked(s, inputs[n], ds, fractions);
      DecreasingStep(INITIAL, inputs);
    }
  }

  lemma DecreasingStep(s: State, inputs: seq<Input>)
    requires Sane(s) && inputs != []
    ensures var n := |inputs| - 1;
            var t := Run(s, inputs[..n]);
            Decreasing(s, inputs) ==
            if Run(s, inputs).lastDecrease == t.lastDecrease then Decreasing(s, inputs[..n])
            else Decreasing(s, inputs[..n]) + [Decrease(inputs[n].now, t.rtt, |Fractions(s, inputs)|)]
  {
  }

  /** What the largest cut leaves. */
  function AfterCut(rate: nat): nat {
    rate * 257 / 512
  }

  function Decayed(rate: nat, n: nat): nat {
    if n == 0 then rate else AfterCut(Decayed(rate, n - 1))
  }

  lemma {:induction false} DecayIsGeometric(rate: nat, n: nat)
    ensures Decayed(rate, n) as real >= Times(rate as real, Power(257.0 / 512.0, n)) - 512.0 / 255.0
  {
    if n == 0 {
    } else {
      DecayIsGeometric(rate, n - 1);
      var q, before := 257.0 / 512.0, Decayed(rate, n - 1);
      var p := Power(q, n - 1);
      assert AfterCut(before) as real >= before as real * q - 1.0;
      assert rate as real * (q * p) == rate as real * p * q;
    }
  }

  lemma AfterCutIsMonotone(a: nat, b: nat)
    requires a <= b
    ensures AfterCut(a) <= AfterCut(b)
  {
  }

  predicate KeepsRates(i: Input) {
    !i.event.Constraints? && !i.event.DelayEstimate?
  }

  /** Neither the target nor one increase of any sample is below `floor`. */
  ghost predicate Above(s: State, floor: int) {
    && Settled(s) && RateOrdered(s.history)
    && floor <= s.target
    && forall x | x in s.history :: 0 <= x.rate && floor <= Increased(x.rate)
  }

  lemma NewTargetStaysAbove(s: State, rate: int, floor: int)
    requires MIN_BITRATE <= s.minRate && RateOrdered(s.history)
    requires forall x | x in s.history :: 0 <= x.rate && floor <= Increased(x.rate)
    requires floor <= rate && floor <= Max(s.minRate, UpperLimit(s))
    ensures Above(WithTarget(s, rate), floor)
  {
    WithTargetIsSettled(s, rate);
    hide Increased, RateOrdered;
  }

  lemma EstimateStaysAbove(s: State, now: int, floor: nat)
    requires Above(s, floor) && s.fraction <= 255
    ensures Above(UpdateEstimate(s, now), if Decreases(s, now) then AfterCut(floor) else floor)
  {
    var t, cut := Sampled(s, now), AfterCut(floor);
    PushStaysOrdered(s.history, now, s.target);
    IncreasedIsMonotone(s.target, s.target);
    ReducedBounds(s.target, s.fraction);
    AfterCutIsMonotone(floor, s.target);
    assert cut <= floor;
    assert t.history[0] in t.history;
    hide Increased, Reduced, Push, RateOrdered, AfterCut;
    if Jumps(s, now) {
      var x := Sample(now, s.target);
      OneIsOrdered(x);
      NewTargetStaysAbove(s.(history := [x]), StartRate(s), floor);
    } else if Increases(s, now) {
      NewTargetStaysAbove(t, Increased(t.history[0].rate), floor);
    } else if Decreases(s, now) {
      NewTargetStaysAbove(t.(lastDecrease := Some(now), hasDecreased := true), Reduced(s.target, s.fraction), cut);
    } else {
      NewTargetStaysAbove(t, t.target, floor);
    }
  }

  lemma OneIsOrdered(x: Sample)
    ensures RateOrdered([x])
  {
  }

  lemma StepStaysAbove(s: State, i: Input, floor: nat)
    requires Sane(s) && Above(s, floor) && KeepsRates(i)
    ensures Step(s, i).minRate == s.minRate && UpperLimit(Step(s, i)) == UpperLimit(s)
    ensures Above(Step(s, i), if Step(s, i).lastDecrease == s.lastDecrease then floor else AfterCut(floor))
  {
    StepDecrease(s, i);
    match Estimating(s, i) {
      case Some(t) =>
        EstimatingStep(s, i);
        EstimateDecrease(t, i.now);
        EstimateStaysAbove(t, i.now, floor);
        assert UpperLimit(UpdateEstimate(t, i.now)) == UpperLimit(t);
      case None =>
        StepHistory(s, i);
        StepIsSettled(s, i);
    }
  }

  /**
    While the limits stay, the target after n loss-driven decreases is at least what n
    cuts of 255/512 leave of it: everything else, jumps included, only raises it.
   */
  lemma {:induction false} TargetAfterDecreases(s: State, inputs: seq<Input>, floor: nat)
    requires Sane(s) && Above(s, floor) && forall i | i in inputs :: KeepsRates(i)
    ensures Above(Run(s, inputs), Decayed(floor, |Decreasing(s, inputs)|))
    ensures s.minRate == Run(s, inputs).minRate <= Run(s, inputs).target
  {
    if inputs == [] {
    } else {
      var n := |inputs| - 1;
      var before := Decayed(floor, |Decreasing(s, inputs[..n])|);
      assert Decayed(floor, |Decreasing(s, inputs[..n])| + 1) == AfterCut(before);
      assert inputs[n] in inputs;
      assert Run(s, inputs) == Step(Run(s, inputs[..n]), inputs[n]);
      hide *;
      TargetAfterDecreases(s, inputs[..n], floor);
      DecreasingStep(s, inputs);
      StepStaysAbove(Run(s, inputs[..n]), inputs[n], before);
      AboveIsAtMinimum(Run(s, inputs), Decayed(floor, |Decreasing(s, inputs)|));
    }
  }

  lemma AboveIsAtMinimum(s: State, floor: int)
    requires Above(s, floor)
    ensures s.minRate <= s.target && floor <= s.target
  {
  }

  /** From the start: n decreases leave at least (257/512)^n of the initial 500 kbps. */
  lemma InitialTargetDecays(inputs: seq<Input>)
    requires forall i | i in inputs :: KeepsRates(i)
    ensures Run(INITIAL, inputs).target as real >=
            Times(INITIAL_TARGET as real, Power(257.0 / 512.0, |Decreasing(INITIAL, inputs)|)) - 512.0 / 255.0
  {
    assert Above(INITIAL, INITIAL_TARGET);
    hide Above, Decayed, Power, Times, Run, Decreasing, KeepsRates;
    var n := |Decreasing(INITIAL, inputs)|;
    TargetAfterDecreases(INITIAL, inputs, INITIAL_TARGET);
    AboveIsAtMinimum(Run(INITIAL, inputs), Decayed(INITIAL_TARGET, n));
    DecayIsGeometric(INITIAL_TARGET, n);
  }

  // ----- Increases

  /** Low-loss updates, each longer than the window after the one counted before it; and when the last was. */
  datatype Climb = Climb(count: nat, last: int)

  predicate Climbs(s: State, i: Input, last: int)
    requires Sane(s)
  {
    && Estimating(s, i).Some? && Increases(Estimating(s, i).value, i.now)
    && i.now - last + HISTORY_PRECISION > INCREASE_INTERVAL
  }

  function Climbing(s: State, inputs: seq<Input>, start: int): Climb
    requires Sane(s)
  {
    if inputs == [] then Climb(0, start) else
    var n := |inputs| - 1;
    var c := Climbing(s, inputs[..n], start);
    if Climbs(Run(s, inputs[..n]), inputs[n], c.last) then Climb(c.count + 1, inputs[n].now) else c
  }

  function Grown(rate: int, n: nat): int {
    if n == 0 then rate else Increased(Grown(rate, n - 1))
  }

  /** Samples newer than the last counted update are no lower than what it reached. */
  ghost predicate Climbed(s: State, goal: int, last: int, now: int) {
    && Above(s, goal) && goal <= UpperLimit(s)
    && last <= now
    && TimeOrdered(s.history)
    && forall x | x in s.history :: x.time <= now && (x.time <= last || goal <= x.rate)
  }

  /** Once the last counted update is out of the window, only what came after is in it. */
  lemma WindowAfterClimb(s: State, goal: nat, last: int, now: int, later: int)
    requires Climbed(s, goal, last, now) && now <= later && later - last + HISTORY_PRECISION > INCREASE_INTERVAL
    ensures var h := Push(s.history, later, s.target);
            && RateOrdered(h) && TimeOrdered(h) && goal <= h[0].rate
            && forall x | x in h :: x.time <= later && 0 <= x.rate && Increased(goal) <= Increased(h[0].rate) <= Increased(x.rate)
  {
    var h := Push(s.history, later, s.target);
    PushForgets(s.history, later, s.target);
    PushStaysOrdered(s.history, later, s.target);
    assert h[0] in h && goal <= h[0].rate;
    IncreasedIsMonotone(goal, h[0].rate);
    forall x | x in h
      ensures 0 <= x.rate && Increased(h[0].rate) <= Increased(x.rate)
    {
      IncreasedIsMonotone(h[0].rate, x.rate);
    }
    hide Increased, Push, Settled;
  }

  lemma CountedStep(s: State, i: Input, goal: nat, last: int, now: int)
    requires Sane(s) && Climbed(s, goal, last, now) && now <= i.now && Climbs(s, i, last)
    ensures Climbed(Step(s, i), Min(UpperLimit(s), Increased(goal)), i.now, i.now) && UpperLimit(Step(s, i)) == UpperLimit(s)
  {
    hide Increased, Push, RateOrdered, TimeOrdered, Step, ReportRecent, LowLoss;
    var t := Estimating(s, i).value;
    EstimatingStep(s, i);
    WindowAfterClimb(s, goal, last, now, i.now);
    EstimateIsLimited(t, i.now);
  }

  lemma UncountedStep(s: State, i: Input, goal: nat, last: int, now: int)
    requires Sane(s) && Climbed(s, goal, last, now) && now <= i.now && KeepsRates(i)
    requires Step(s, i).lastDecrease == s.lastDecrease
    ensures Climbed(Step(s, i), goal, last, i.now) && UpperLimit(Step(s, i)) == UpperLimit(s)
  {
    StepStaysAbove(s, i, goal);
    StepHistory(s, i);
    PushForgets(s.history, i.now, s.target);
    PushStaysOrdered(s.history, i.now, s.target);
    hide Increased, Push, Step;
  }

  lemma ClimbStep(s: State, i: Input, goal: nat, last: int, now: int)
    requires Sane(s) && Climbed(s, goal, last, now) && now <= i.now && KeepsRates(i)
    requires Step(s, i).lastDecrease == s.lastDecrease
    ensures UpperLimit(Step(s, i)) == UpperLimit(s)
    ensures if Climbs(s, i, last) then Climbed(Step(s, i), Min(UpperLimit(s), Increased(goal)), i.now, i.now)
            else Climbed(Step(s, i), goal, last, i.now)
  {
    hide Climbed, Step, Climbs, UpperLimit, Increased, KeepsRates;
    if Climbs(s, i, last) {
      CountedStep(s, i, goal, last, now);
    } else {
      UncountedStep(s, i, goal, last, now);
    }
  }

  lemma ClimbingStep(s: State, inputs: seq<Input>, start: int)
    requires Sane(s) && inputs != []
    ensures var n := |inputs| - 1;
            var c, t := Climbing(s, inputs[..n], start), Run(s, inputs[..n]);
            && Run(s, inputs) == Step(t, inputs[n])
            && Climbing(s, inputs, start) == if Climbs(t, inputs[n], c.last) then Climb(c.count + 1, inputs[n].now) else c
  {
    hide Step, Climbs;
  }

  function Clock(inputs: seq<Input>, start: int): int {
    if inputs == [] then start else inputs[|inputs| - 1].now
  }

  lemma NothingDecreases(s: State, inputs: seq<Input>)
    requires Sane(s) && inputs != [] && Decreasing(s, inputs) == []
    ensures var before := inputs[..|inputs| - 1];
            Decreasing(s, before) == [] && Run(s, inputs).lastDecrease == Run(s, before).lastDecrease
  {
    DecreasingStep(s, inputs);
    hide Run, Decreasing;
  }

  lemma PrefixIsOrdered(inputs: seq<Input>, start: int)
    requires inputs != [] && TimeOrderedInputs(inputs) && forall i | i in inputs :: start <= i.now && KeepsRates(i)
    ensures var n := |inputs| - 1;
            && TimeOrderedInputs(inputs[..n]) && KeepsRates(inputs[n])
            && (forall i | i in inputs[..n] :: start <= i.now && KeepsRates(i))
            && Clock(inputs[..n], start) <= inputs[n].now == Clock(inputs, start)
  {
    hide KeepsRates;
    assert inputs[|inputs| - 1] in inputs && forall j | j in inputs[..|inputs| - 1] :: j in inputs;
  }

  lemma {:induction false} GrownIsPositive(s: State, rate: nat, n: nat, now: int)
    requires Climbed(s, rate, now, now)
    ensures 0 <= Grown(rate, n) && 0 <= UpperLimit(s) && 0 <= Min(UpperLimit(s), Grown(rate, n))
  {
    if n == 0 {
    } else {
      GrownIsPositive(s, rate, n - 1, now);
    }
  }

  lemma LimitedGoal(limit: int, goal: nat)
    requires 0 <= limit
    ensures Min(limit, Increased(Min(limit, goal))) == Min(limit, Increased(goal))
  {
    IncreasedIsMonotone(Min(limit, goal), goal);
    IncreasedIsMonotone(limit, limit);
    hide Increased;
  }

  /**
    While the limits stay and nothing is cut, n low-loss updates, each more than 999 ms
    after the one before, take the target to n increases of where it began, or to the
    upper limit. Updates between them, jumps included, take nothing back.
   */
  lemma {:induction false} TargetAfterIncreases(s: State, inputs: seq<Input>, start: int, floor: nat)
    requires Sane(s) && Climbed(s, floor, start, start)
    requires TimeOrderedInputs(inputs) && forall i | i in inputs :: start <= i.now && KeepsRates(i)
    requires Decreasing(s, inputs) == []
    ensures var c := Climbing(s, inputs, start);
            && UpperLimit(Run(s, inputs)) == UpperLimit(s)
            && Climbed(Run(s, inputs), Min(UpperLimit(s), Grown(floor, c.count)), c.last, Clock(inputs, start))
  {
    if inputs == [] {
    } else {
      var n := |inputs| - 1;
      var i, c, t := inputs[n], Climbing(s, inputs[..n], start), Run(s, inputs[..n]);
      var goal := Min(UpperLimit(s), Grown(floor, c.count));
      assert Grown(floor, c.count + 1) == Increased(Grown(floor, c.count));
      hide *;
      GrownIsPositive(s, floor, c.count, start);
      PrefixIsOrdered(inputs, start);
      NothingDecreases(s, inputs);
      ClimbingStep(s, inputs, start);
      TargetAfterIncreases(s, inputs[..n], start, floor);
      ClimbStep(t, i, goal, c.last, Clock(inputs[..n], start));
      LimitedGoal(UpperLimit(s), Grown(floor, c.count));
    }
  }

  lemma {:induction false} GrowthIsGeometric(rate: nat, n: nat)
    ensures Grown(rate, n) as real >= Times(rate as real, Power(1.08, n))
  {
    if n == 0 {
    } else {
      GrowthIsGeometric(rate, n - 1);
    }
  }

  /** From the start: n such updates reach at least 1.08^n of the initial 500 kbps, or the default limit. */
  lemma InitialTargetGrows(inputs: seq<Input>, start: int)
    requires TimeOrderedInputs(inputs) && forall i | i in inputs :: start <= i.now && KeepsRates(i)
    requires Decreasing(INITIAL, inputs) == []
    ensures var n := Climbing(INITIAL, inputs, start).count;
            Run(INITIAL, inputs).target as real >=
            MinReal(DEFAULT_MAX_BITRATE as real, Times(INITIAL_TARGET as real, Power(1.08, n)))
  {
    assert Climbed(INITIAL, INITIAL_TARGET, start, start);
    hide Times, Power, Run, Decreasing, Climbing, KeepsRates, Grown, Increased;
    TargetAfterIncreases(INITIAL, inputs, start, INITIAL_TARGET);
    GrowthIsGeometric(INITIAL_TARGET, Climbing(INITIAL, inputs, start).count);
  }
}

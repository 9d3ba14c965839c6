/**
  Which receiver reports each loss fraction is made of. `Cut` groups a list of reports
  without looking at the estimator: a batch is closed as soon as it covers twenty packets.
 */
module LossAccounting {
  import opened Units
  import opened LossEstimator
  import opened Sequences

  datatype Report = Report(lost: nat, total: nat)

  function Lost(rs: seq<Report>): nat {
    if rs == [] then 0 else Lost(rs[..|rs| - 1]) + rs[|rs| - 1].lost
  }

  function Total(rs: seq<Report>): nat {
    if rs == [] then 0 else Total(rs[..|rs| - 1]) + rs[|rs| - 1].total
  }

  datatype Cutting = Cutting(batches: seq<seq<Report>>, pending: seq<Report>)

  function Add(c: Cutting, r: Report): Cutting {
    var open := c.pending + [r];
    if Total(open) >= LIMIT_NUM_PACKETS then Cutting(c.batches + [open], []) else Cutting(c.batches, open)
  }

  function Cut(rs: seq<Report>): Cutting {
    if rs == [] then Cutting([], []) else Add(Cut(rs[..|rs| - 1]), rs[|rs| - 1])
  }

  /** Enough packets, and without the last report not enough. */
  ghost predicate IsBatch(b: seq<Report>) {
    b != [] && Total(b) >= LIMIT_NUM_PACKETS && Total(b[..|b| - 1]) < LIMIT_NUM_PACKETS
  }

  ghost predicate IsPartition(c: Cutting, rs: seq<Report>) {
    && Flatten(c.batches) + c.pending == rs
    && (forall b | b in c.batches :: IsBatch(b))
    && Total(c.pending) < LIMIT_NUM_PACKETS
  }

  lemma AddIsPartition(c: Cutting, rs: seq<Report>, r: Report)
    requires IsPartition(c, rs)
    ensures IsPartition(Add(c, r), rs + [r])
  {
    hide Lost;
    var open := c.pending + [r];
    assert open[..|open| - 1] == c.pending;
    assert Flatten(c.batches) + open == rs + [r];
    if Total(open) >= LIMIT_NUM_PACKETS {
      assert IsBatch(open);
      assert (c.batches + [open])[..|c.batches|] == c.batches;
      assert Flatten(c.batches + [open]) == Flatten(c.batches) + open;
    }
  }

  lemma CutOfMore(rs: seq<Report>, r: Report)
    ensures Cut(rs + [r]) == Add(Cut(rs), r)
  {
    hide Add;
    assert (rs + [r])[..|rs|] == rs;
  }

  lemma {:induction false} CutIsPartition(rs: seq<Report>)
    ensures IsPartition(Cut(rs), rs)
  {
    if rs == [] {
    } else {
      hide Cut, Add, IsPartition;
      var before, r := rs[..|rs| - 1], rs[|rs| - 1];
      assert rs == before + [r];
      CutIsPartition(before);
      CutOfMore(before, r);
      AddIsPartition(Cut(before), before, r);
    }
  }

  /** The reports that carry packets, in order of arrival. */
  function Reports(inputs: seq<Input>): seq<Report> {
    if inputs == [] then [] else
    var rest := Reports(inputs[..|inputs| - 1]);
    match inputs[|inputs| - 1].event
    case LossReport(received, lost) => if received + lost > 0 then rest + [Report(lost, received + lost)] else rest
    case _ => rest
  }

  predicate IsFlush(s: State, i: Input) {
    i.event.LossReport? && Flushes(s, i.event.received + i.event.lost)
  }

  /** The fractions the estimator produced, in order, when started in `s`. */
  function Fractions(s: State, inputs: seq<Input>): seq<nat>
    requires Sane(s)
  {
    if inputs == [] then [] else
    var n := |inputs| - 1;
    var t := Run(s, inputs[..n]);
    Fractions(s, inputs[..n]) + if IsFlush(t, inputs[n]) then [Step(t, inputs[n]).fraction] else []
  }

  ghost predicate FractionOfBatch(f: nat, b: seq<Report>) {
    Total(b) > 0 && f == Min(255, 256 * Lost(b) / Total(b))
  }

  ghost predicate Accounted(s: State, fractions: seq<nat>, c: Cutting) {
    && s.expected == Total(c.pending)
    && s.lost == Lost(c.pending)
    && |fractions| == |c.batches|
    && (forall k | 0 <= k < |fractions| :: FractionOfBatch(fractions[k], c.batches[k]))
    && (fractions != [] ==> s.fraction == fractions[|fractions| - 1])
  }

  lemma AddOpen(c: Cutting, r: Report)
    ensures Total(c.pending + [r]) == Total(c.pending) + r.total
    ensures Lost(c.pending + [r]) == Lost(c.pending) + r.lost
  {
    assert (c.pending + [r])[..|c.pending|] == c.pending;
  }

  lemma FractionIsRatio(c: Cutting, r: Report, s: State, now: int)
    requires r.total > 0 && s.expected == Total(c.pending) && s.lost == Lost(c.pending)
    ensures FractionOfBatch(WithFraction(s, r.lost, r.total, now).fraction, c.pending + [r])
  {
    hide Total, Lost;
    AddOpen(c, r);
  }

  lemma ReportIsAccounted(s: State, lost: nat, total: nat, now: int, fractions: seq<nat>, c: Cutting)
    requires s.lost >= 0 && s.expected >= 0 && total > 0 && Accounted(s, fractions, c)
    ensures var t, flush := UpdatePacketsLost(s, lost, total, now), Flushes(s, total);
            Accounted(t, if flush then fractions + [t.fraction] else fractions, Add(c, Report(lost, total)))
  {
    hide UpdateEstimate, Total, Lost, FractionOfBatch;
    var r := Report(lost, total);
    AddOpen(c, r);
    FractionIsRatio(c, r, s, now);
    NothingTotals();
    if Flushes(s, total) {
      var t := WithFraction(s, lost, total, now);
      assert UpdatePacketsLost(s, lost, total, now).fraction == t.fraction;
    }
  }

  lemma NothingTotals()
    ensures Total([]) == 0 && Lost([]) == 0
  {
  }

  lemma StepIsAccounted(s: State, i: Input, fractions: seq<nat>, c: Cutting)
    requires Sane(s) && Accounted(s, fractions, c)
    ensures !i.event.LossReport? || i.event.received + i.event.lost == 0 ==>
              Accounted(Step(s, i), fractions, c) && !IsFlush(s, i)
    ensures i.event.LossReport? && i.event.received + i.event.lost > 0 ==>
              Accounted(Step(s, i),
                        if IsFlush(s, i) then fractions + [Step(s, i).fraction] else fractions,
                        Add(c, Report(i.event.lost, i.event.received + i.event.lost)))
  {
    hide UpdateEstimate, Add, Total, Lost, FractionOfBatch;
    match i.event
    case LossReport(received, lost) =>
      if received + lost > 0 {
        hide UpdatePacketsLost, Accounted;
        ReportIsAccounted(s, lost, received + lost, i.now, fractions, c);
      }
    case _ =>
  }

  /**
    Over every run, whatever the other inputs do: the k-th fraction is that of the k-th
    batch, and the two accumulators hold exactly the reports not yet in a batch.
   */
  lemma {:induction false} FractionsAreBatchRatios(inputs: seq<Input>)
    ensures Accounted(Run(INITIAL, inputs), Fractions(INITIAL, inputs), Cut(Reports(inputs)))
  {
    hide Run, Step, Fractions, Reports, Cut, Add, Accounted, IsFlush;
    if inputs == [] {
      StartIsAccounted();
    } else {
      var n := |inputs| - 1;
      var i, before := inputs[n], inputs[..n];
      assert inputs == before + [i];
      FractionsAreBatchRatios(before);
      ReportsStep(before, i);
      FractionsStep(INITIAL, inputs);
      StepIsAccounted(Run(INITIAL, before), i, Fractions(INITIAL, before), Cut(Reports(before)));
    }
  }

  lemma StartIsAccounted()
    ensures Accounted(Run(INITIAL, []), Fractions(INITIAL, []), Cut(Reports([])))
  {
    NothingTotals();
  }

  lemma FractionsStep(s: State, inputs: seq<Input>)
    requires Sane(s) && inputs != []
    ensures var n := |inputs| - 1;
            var t := Run(s, inputs[..n]);
            && Run(s, inputs) == Step(t, inputs[n])
            && Fractions(s, inputs) ==
               if IsFlush(t, inputs[n]) then Fractions(s, inputs[..n]) + [Step(t, inputs[n]).fraction] else Fractions(s, inputs[..n])
  {
    hide Step, IsFlush;
  }

  lemma ReportsStep(inputs: seq<Input>, i: Input)
    ensures Cut(Reports(inputs + [i])) ==
            if i.event.LossReport? && i.event.received + i.event.lost > 0
            then Add(Cut(Reports(inputs)), Report(i.event.lost, i.event.received + i.event.lost))
            else Cut(Reports(inputs))
  {
    assert (inputs + [i])[..|inputs|] == inputs;
    var rs := Reports(inputs);
    if i.event.LossReport? && i.event.received + i.event.lost > 0 {
      var r := Report(i.event.lost, i.event.received + i.event.lost);
      assert (rs + [r])[..|rs|] == rs;
    }
  }

  lemma {:induction false} FlattenCounts(bs: seq<seq<Report>>)
    ensures Total(Flatten(bs)) == SumOfTotals(bs)
    ensures Lost(Flatten(bs)) == SumOfLosses(bs)
  {
    if bs == [] {
    } else {
      FlattenCounts(bs[..|bs| - 1]);
      TotalOfConcat(Flatten(bs[..|bs| - 1]), bs[|bs| - 1]);
    }
  }

  function SumOfTotals(bs: seq<seq<Report>>): nat {
    if bs == [] then 0 else SumOfTotals(bs[..|bs| - 1]) + Total(bs[|bs| - 1])
  }

  function SumOfLosses(bs: seq<seq<Report>>): nat {
    if bs == [] then 0 else SumOfLosses(bs[..|bs| - 1]) + Lost(bs[|bs| - 1])
  }

  lemma {:induction false} TotalOfConcat(a: seq<Report>, b: seq<Report>)
    ensures Total(a + b) == Total(a) + Total(b) && Lost(a + b) == Lost(a) + Lost(b)
  {
    if b == [] {
      assert a + b == a;
    } else {
      TotalOfConcat(a, b[..|b| - 1]);
      assert (a + b)[..|a + b| - 1] == a + b[..|b| - 1];
    }
  }

  /** Conservation: every reported packet is in one fraction or still pending. */
  lemma EveryPacketIsCountedOnce(inputs: seq<Input>)
    ensures var c := Cut(Reports(inputs));
            && SumOfTotals(c.batches) + Run(INITIAL, inputs).expected == Total(Reports(inputs))
            && SumOfLosses(c.batches) + Run(INITIAL, inputs).lost == Lost(Reports(inputs))
  {
    var c := Cut(Reports(inputs));
    FractionsAreBatchRatios(inputs);
    CutIsPartition(Reports(inputs));
    TotalOfConcat(Flatten(c.batches), c.pending);
    FlattenCounts(c.batches);
  }
}

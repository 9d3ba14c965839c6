/**
  The loss reports from end to end: counted by the receiver, written and read as
  packets, and turned into loss fractions by the sender.
 */
module FeedbackLoop {
  import opened Units
  import Codec
  import LossEstimator
  import LossControl
  import Pacer
  import Accounting = LossAccounting
  import Receiver = ReceiverAccounting
  import ReceiverLoss
  import opened Sequences

  /** What the fields of a receiver report packet can carry. */
  predicate Fits(r: ReceiverLoss.Report) {
    && 0 <= r.start < Codec.Power10(Codec.TIME_LENGTH) && 0 <= r.end < Codec.Power10(Codec.TIME_LENGTH)
    && r.received < Codec.Power10(Codec.NUMBER_LENGTH) && r.lost < Codec.Power10(Codec.NUMBER_LENGTH)
  }

  function Sent(r: ReceiverLoss.Report): string
    requires 0 <= r.start && 0 <= r.end
  {
    Codec.SerializeReport(Codec.ReportPacket(r.start, r.end, r.lost, r.received))
  }

  /** The two counters the sender hands to the estimator, after reading the packet. */
  function Delivered(data: string): Option<Accounting.Report> {
    match Codec.ParseReport(data, Codec.ReportPacket(0, 0, 0, 0))
    case None => None
    case Some(q) => Some(Accounting.Report(q.lost, q.received + q.lost))
  }

  lemma DeliveredIsSent(r: ReceiverLoss.Report)
    requires Fits(r)
    ensures Delivered(Sent(r)) == Some(Accounting.Report(r.lost, r.received + r.lost))
  {
    hide Codec.SerializeReport, Codec.ParseReport, Codec.Power10;
    Codec.ReportRoundTrip(Codec.ReportPacket(r.start, r.end, r.lost, r.received), Codec.ReportPacket(0, 0, 0, 0));
  }

  /** The estimator got each report packet once, in order. */
  ghost predicate AllArrive(rs: seq<ReceiverLoss.Report>, inputs: seq<LossEstimator.Input>) {
    && |Accounting.Reports(inputs)| == |rs|
    && forall k | 0 <= k < |rs| :: Fits(rs[k]) && Delivered(Sent(rs[k])) == Some(Accounting.Reports(inputs)[k])
  }

  /** The lengths of the reported windows, and how many of their packets did not arrive. */
  function Covered(ws: seq<Receiver.Span>): int {
    if ws == [] then 0 else
    var w := ws[|ws| - 1];
    Covered(ws[..|ws| - 1]) + (w.largest - w.first + 1)
  }

  /** What a window should count: its length, and the packets of it that did not arrive. */
  function Counts(w: Receiver.Span): Accounting.Report
    requires Receiver.ValidSpan(w)
  {
    ReceiverLoss.CountsAddUp(w.received);
    Accounting.Report(ReceiverLoss.Count(w.received, false), |w.received|)
  }

  /** The counts of each window, in order. */
  ghost predicate CountsOf(bs: seq<Accounting.Report>, ws: seq<Receiver.Span>) {
    && |bs| == |ws|
    && forall k | 0 <= k < |ws| :: Receiver.ValidSpan(ws[k]) && bs[k] == Counts(ws[k])
  }

  lemma {:induction false} CountsCoverWindows(bs: seq<Accounting.Report>, ws: seq<Receiver.Span>)
    requires CountsOf(bs, ws)
    ensures Accounting.Total(bs) == Covered(ws)
    ensures Accounting.Lost(bs) == Covered(ws) - Receiver.Received(ws)
  {
    if ws == [] {
    } else {
      var n := |ws| - 1;
      CountsCoverWindows(bs[..n], ws[..n]);
      assert Receiver.ValidSpan(ws[n]);
      ReceiverLoss.CountsAddUp(ws[n].received);
    }
  }

  lemma ReportedCounts(w: Receiver.Span, r: ReceiverLoss.Report)
    requires Receiver.ValidSpan(w) && Receiver.Reported(w, r)
    ensures Counts(w) == Accounting.Report(r.lost, r.received + r.lost)
  {
    ReceiverLoss.CountsAddUp(w.received);
  }

  lemma ReportedWindowsAreValid(x: Receiver.Session, k: nat)
    requires Receiver.Tallied(x) && k < |x.reported|
    ensures Receiver.ValidSpan(x.reported[k])
  {
    assert Receiver.Spans(x)[k] == x.reported[k];
  }

  lemma ArrivedCounts(x: Receiver.Session, inputs: seq<LossEstimator.Input>)
    requires Receiver.Tallied(x) && AllArrive(x.reports, inputs)
    ensures CountsOf(Accounting.Reports(inputs), x.reported)
  {
    hide Delivered, Sent, Receiver.Spans, Accounting.Reports, Receiver.Ordered, Receiver.Reported, Receiver.ValidSpan;
    forall k | 0 <= k < |x.reports|
      ensures Receiver.ValidSpan(x.reported[k]) && Accounting.Reports(inputs)[k] == Counts(x.reported[k])
    {
      DeliveredIsSent(x.reports[k]);
      ReportedWindowsAreValid(x, k);
      ReportedCounts(x.reported[k], x.reports[k]);
    }
  }

  /**
    On every run of the receiver, if every report packet arrives: the counts of the windows
    it reported are cut, in order and each once, into the batches of the loss fractions
    and what is pending, and every fraction is the ratio of its batch. So all their
    numbers are counted, lost exactly if not received, but for fewer than twenty pending.
   */
  lemma EveryReportedPacketIsCounted(ps: seq<ReceiverLoss.Packet>, inputs: seq<LossEstimator.Input>)
    requires Receiver.Clocked(ps) && Receiver.Run(ps).Some?
    requires AllArrive(Receiver.Run(ps).value.reports, inputs)
    ensures var rs, ws := Accounting.Reports(inputs), Receiver.Run(ps).value.reported;
            var c, s := Accounting.Cut(rs), LossEstimator.Run(LossEstimator.INITIAL, inputs);
            var fractions := Accounting.Fractions(LossEstimator.INITIAL, inputs);
            && CountsOf(rs, ws)
            && Flatten(c.batches) + c.pending == rs
            && (forall b | b in c.batches :: Accounting.IsBatch(b))
            && |fractions| == |c.batches|
            && (forall k | 0 <= k < |fractions| :: Accounting.FractionOfBatch(fractions[k], c.batches[k]))
            && Accounting.SumOfTotals(c.batches) + s.expected == Covered(ws)
            && Accounting.SumOfLosses(c.batches) + s.lost == Covered(ws) - Receiver.Received(ws)
            && s.expected < LossEstimator.LIMIT_NUM_PACKETS
  {
    hide Receiver.Run, Receiver.Clocked, Receiver.Tallied, Receiver.Received, Covered, CountsOf, AllArrive, Flatten,
         Accounting.Cut, Accounting.Reports, Accounting.Fractions, Accounting.FractionOfBatch, Accounting.IsBatch,
         Accounting.SumOfTotals, Accounting.SumOfLosses, LossEstimator.Run, ReceiverLoss.Valid;
    Receiver.SurvivingRunIsTallied(ps);
    ArrivedCounts(Receiver.Run(ps).value, inputs);
    CountsCoverWindows(Accounting.Reports(inputs), Receiver.Run(ps).value.reported);
    Accounting.CutIsPartition(Accounting.Reports(inputs));
    Accounting.FractionsAreBatchRatios(inputs);
    Accounting.EveryPacketIsCountedOnce(inputs);
  }

  // ----- The receiver's estimate and the pacing rate

  /** The bandwidth the sender reads when the receiver sends its estimate. */
  function Announced(estimate: nat): nat {
    match Codec.ParseRemb(Codec.SerializeRemb(Codec.RembPacket(estimate)), Codec.RembPacket(0))
    case Some(q) => q.bandwidth
    case None => 0
  }

  lemma AnnouncedIsEstimate(estimate: nat)
    ensures Announced(estimate) == if estimate < Codec.Power10(Codec.NUMBER_LENGTH) then estimate else 0
  {
    hide Codec.SerializeRemb, Codec.ParseRemb;
    Codec.RembRoundTrip(Codec.RembPacket(estimate), Codec.RembPacket(0));
  }

  function PacingRate(s: LossEstimator.State): int {
    Max(LossEstimator.TargetRate(s), Pacer.MIN_PACING_RATE)
  }

  /** On every run it is what the pacer makes of the target handed out, whatever the pacer did before. */
  lemma PacingIsTarget(inputs: seq<LossEstimator.Input>, es: seq<Pacer.Event>)
    ensures var s := LossEstimator.Run(LossEstimator.INITIAL, inputs);
            LossEstimator.TargetRate(s) >= LossEstimator.MIN_BITRATE
            && PacingRate(s) == Pacer.Run(es + [Pacer.RateUpdate(LossEstimator.TargetRate(s))]).rate
            && PacingRate(s) >= LossEstimator.TargetRate(s)
  {
    var s := LossEstimator.Run(LossEstimator.INITIAL, inputs);
    LossControl.RunIsPositive(inputs);
    var all := es + [Pacer.RateUpdate(LossEstimator.TargetRate(s))];
    assert all[|all| - 1] == Pacer.RateUpdate(LossEstimator.TargetRate(s));
    Pacer.RateIsLatest(all);
    hide LossEstimator.Run, LossEstimator.TargetRate, Pacer.Run;
  }

  lemma {:induction false} LimitPersists(s: LossEstimator.State, more: seq<LossEstimator.Input>)
    requires LossEstimator.Sane(s) && forall i | i in more :: !i.event.RemoteBitrate?
    ensures LossEstimator.Run(s, more).receiverLimit == s.receiverLimit
  {
    if more == [] {
    } else {
      hide LossEstimator.UpdateEstimate, LossEstimator.Limited;
      assert more[|more| - 1] in more;
      LimitPersists(s, more[..|more| - 1]);
    }
  }

  lemma {:induction false} RunInTwo(s: LossEstimator.State, a: seq<LossEstimator.Input>, b: seq<LossEstimator.Input>)
    requires LossEstimator.Sane(s)
    ensures LossEstimator.Run(s, a + b) == LossEstimator.Run(LossEstimator.Run(s, a), b)
  {
    hide LossEstimator.Step, LossEstimator.Sane;
    if b == [] {
      assert a + b == a;
    } else {
      var n := |b| - 1;
      RunInTwo(s, a, b[..n]);
      assert a + b == a + b[..n] + [b[n]] && b == b[..n] + [b[n]];
      RunOfMore(s, a + b[..n], b[n]);
      RunOfMore(LossEstimator.Run(s, a), b[..n], b[n]);
    }
  }

  lemma RunOfMore(s: LossEstimator.State, inputs: seq<LossEstimator.Input>, i: LossEstimator.Input)
    requires LossEstimator.Sane(s)
    ensures LossEstimator.Run(s, inputs + [i]) == LossEstimator.Step(LossEstimator.Run(s, inputs), i)
  {
    hide LossEstimator.Step, LossEstimator.Sane;
    assert (inputs + [i])[..|inputs|] == inputs;
  }

  /**
    Once an estimate is announced, and until the next is, the sender paces at most at it
    - or at the larger of its two minimum rates - whatever reports and limits arrive. An
    estimate that does not fit its field, and only that, announces no limit.
   */
  lemma PacingFollowsEstimate(before: seq<LossEstimator.Input>, estimate: nat, now: int, more: seq<LossEstimator.Input>)
    requires estimate > 0 && forall i | i in more :: !i.event.RemoteBitrate?
    ensures var s := LossEstimator.Run(LossEstimator.INITIAL,
                                       before + [LossEstimator.Input(now, LossEstimator.RemoteBitrate(Announced(estimate)))] + more);
            && Pacer.MIN_PACING_RATE <= PacingRate(s)
            && (s.receiverLimit.None? <==> estimate >= Codec.Power10(Codec.NUMBER_LENGTH))
            && (s.receiverLimit.Some? ==> PacingRate(s) <= Max(estimate, Max(s.minRate, Pacer.MIN_PACING_RATE)))
  {
    hide LossEstimator.Run, LossEstimator.UpdateEstimate, LossEstimator.Limited, Announced, Codec.Power10;
    var i := LossEstimator.Input(now, LossEstimator.RemoteBitrate(Announced(estimate)));
    var s := LossEstimator.Run(LossEstimator.INITIAL, before);
    AnnouncedIsEstimate(estimate);
    RunInTwo(LossEstimator.INITIAL, before + [i], more);
    RunInTwo(LossEstimator.INITIAL, before, [i]);
    RunOfOne(s, i);
    LimitPersists(LossEstimator.Run(LossEstimator.INITIAL, before + [i]), more);
    LossControl.RunIsPositive(before + [i] + more);
  }

  lemma RunOfOne(s: LossEstimator.State, i: LossEstimator.Input)
    requires LossEstimator.Sane(s)
    ensures LossEstimator.Run(s, [i]) == LossEstimator.Step(s, i)
  {
    hide LossEstimator.Step;
    assert [i][..0] == [];
  }
}

/**
  The delay path: packets are grouped, the differences between groups feed the trendline
  estimator, and what it detects drives the rate controller.
 */
module DelayBwe {
  import opened Units
  import opened NetworkState
  import opened LinkCapacity
  import InterArrival
  import Trendline
  import Aimd
  import AimdOutcomes

  const STREAM_TIME_OUT := 2 * SECOND
  const SEND_TIME_GROUP_LENGTH := 5 * MILLISECOND

  datatype Path = Path(groups: InterArrival.State, detector: Trendline.State, lastSeen: Option<int>)

  const IDLE := Path(InterArrival.Fresh(SEND_TIME_GROUP_LENGTH), Trendline.INITIAL, None)

  function Milliseconds(us: int): int {
    DivRoundToNearest(us, 1_000)
  }

  function SampleOf(d: InterArrival.Delta, p: InterArrival.Packet): Trendline.Sample
    requires p.arrival >= 0
  {
    Trendline.Sample(Milliseconds(d.arrival) as real, Milliseconds(d.send) as real,
                     DivRoundPositiveToNearest(p.arrival, 1_000))
  }

  predicate TimedOut(s: Path, now: int) {
    s.lastSeen.None? || now - s.lastSeen.value > STREAM_TIME_OUT
  }

  /** After two seconds of silence both stages start again. */
  function Awake(s: Path, now: int): Path {
    (if TimedOut(s, now) then IDLE else s).(lastSeen := Some(now))
  }

  function Feed(s: Path, p: InterArrival.Packet): Path
    requires p.arrival >= 0
  {
    var t := Awake(s, p.system);
    var detector :=
      match InterArrival.Classify(t.groups, p)
      case Emit(d) => Trendline.UpdateTrendline(t.detector, SampleOf(d, p))
      case _ => t.detector;
    t.(groups := InterArrival.Step(t.groups, p), detector := detector)
  }

  // ----- The accumulated delay against the groups

  /** `base` is the accumulated delay when the grouping last started again. */
  datatype Session = Session(path: Path, ledger: InterArrival.Ledger, base: real)

  function Next(x: Session, p: InterArrival.Packet): Session
    requires p.arrival >= 0
  {
    var t := Awake(x.path, p.system);
    var l := if TimedOut(x.path, p.system) then InterArrival.NOTHING else x.ledger;
    var a := InterArrival.Classify(t.groups, p);
    Session(Feed(x.path, p), InterArrival.Record(l, a, p),
            if a.Reset? || TimedOut(x.path, p.system) then t.detector.accumulated else x.base)
  }

  function Run(ps: seq<InterArrival.Packet>): Session
    requires forall p | p in ps :: p.arrival >= 0
  {
    if ps == [] then Session(IDLE, InterArrival.NOTHING, 0.0)
    else assert ps[|ps| - 1] in ps; Next(Run(ps[..|ps| - 1]), ps[|ps| - 1])
  }

  /** The change of the one-way delay, in microseconds. */
  function OneWay(d: InterArrival.Delta): int {
    d.arrival - d.send
  }

  ghost predicate Near(change: real, us: int, steps: nat) {
    AbsReal(change - us as real / 1_000.0) <= steps as real
  }

  ghost predicate Follows(x: Session) {
    && InterArrival.Agrees(x.path.groups, x.ledger)
    && x.path.groups.length == SEND_TIME_GROUP_LENGTH
    && Near(x.path.detector.accumulated - x.base, OneWay(InterArrival.Sum(x.ledger.emitted)), |x.ledger.emitted|)
  }

  /** Rounding both differences to milliseconds moves their difference by at most one. */
  lemma RoundingIsNear(d: InterArrival.Delta)
    ensures Near(Milliseconds(d.arrival) as real - Milliseconds(d.send) as real, OneWay(d), 1)
  {
  }

  lemma NearAddsUp(x: real, us: int, steps: nat, y: real, more: int)
    requires Near(x, us, steps) && Near(y, more, 1)
    ensures Near(x + y, us + more, steps + 1)
  {
  }

  lemma EmittedSum(ds: seq<InterArrival.Delta>, d: InterArrival.Delta)
    ensures OneWay(InterArrival.Sum(ds + [d])) == OneWay(InterArrival.Sum(ds)) + OneWay(d)
  {
    assert (ds + [d])[..|ds|] == ds;
  }

  lemma FeedAccumulates(s: Path, p: InterArrival.Packet)
    requires p.arrival >= 0
    ensures var t := Awake(s, p.system);
            Feed(s, p).detector.accumulated ==
            match InterArrival.Classify(t.groups, p)
            case Emit(d) => t.detector.accumulated + (Milliseconds(d.arrival) as real - Milliseconds(d.send) as real)
            case _ => t.detector.accumulated
  {
    hide InterArrival.Classify, InterArrival.Step, Trendline.Detect, Awake, Milliseconds;
  }

  /** The same session, restarted if the stream timed out. */
  function AwakeSession(x: Session, now: int): Session {
    if TimedOut(x.path, now) then Session(Awake(x.path, now), InterArrival.NOTHING, 0.0)
    else x.(path := Awake(x.path, now))
  }

  lemma AwakeFollows(x: Session, now: int)
    requires Follows(x)
    ensures Follows(AwakeSession(x, now)) && !TimedOut(AwakeSession(x, now).path, now)
    ensures Awake(AwakeSession(x, now).path, now) == AwakeSession(x, now).path
  {
    hide InterArrival.Agrees, InterArrival.Sum, Near, OneWay;
    InterArrival.NothingAgrees(SEND_TIME_GROUP_LENGTH);
    NothingSums();
    NearZero(0.0);
  }

  lemma AwakeNextFollows(x: Session, p: InterArrival.Packet)
    requires Follows(x) && p.arrival >= 0 && !TimedOut(x.path, p.system) && Awake(x.path, p.system) == x.path
    ensures Follows(Next(x, p))
  {
    hide InterArrival.Agrees, InterArrival.Classify, InterArrival.Step, InterArrival.Sum;
    hide Feed, Awake, TimedOut, Near, OneWay, Milliseconds;
    InterArrival.StepAgrees(x.path.groups, x.ledger, p);
    FeedAccumulates(x.path, p);
    FeedGroups(x.path, p);
    NearZero(0.0);
    match InterArrival.Classify(x.path.groups, p)
    case Emit(d) =>
      EmittedSum(x.ledger.emitted, d);
      RoundingIsNear(d);
      NearAddsUp(x.path.detector.accumulated - x.base, OneWay(InterArrival.Sum(x.ledger.emitted)), |x.ledger.emitted|,
                 Milliseconds(d.arrival) as real - Milliseconds(d.send) as real, OneWay(d));
    case Reset => NothingSums();
    case _ =>
  }

  lemma NothingSums()
    ensures OneWay(InterArrival.Sum([])) == 0
  {
  }

  lemma FeedGroups(s: Path, p: InterArrival.Packet)
    requires p.arrival >= 0
    ensures Feed(s, p).groups == InterArrival.Step(Awake(s, p.system).groups, p)
  {
  }

  lemma NextFollows(x: Session, p: InterArrival.Packet)
    requires Follows(x) && p.arrival >= 0
    ensures Follows(Next(x, p))
  {
    hide Follows, InterArrival.Classify, InterArrival.Step;
    AwakeFollows(x, p.system);
    var y := AwakeSession(x, p.system);
    AwakeNextFollows(y, p);
    assert Next(y, p) == Next(x, p);
  }

  lemma NearZero(x: real)
    requires x == 0.0
    ensures Near(x, 0, 0)
  {
  }

  lemma StartFollows()
    ensures Follows(Session(IDLE, InterArrival.NOTHING, 0.0))
  {
    hide InterArrival.Agrees, InterArrival.Sum, Near;
    InterArrival.NothingAgrees(SEND_TIME_GROUP_LENGTH);
    NothingSums();
    NearZero(0.0);
  }

  lemma {:induction false} RunFollows(ps: seq<InterArrival.Packet>)
    requires forall p | p in ps :: p.arrival >= 0
    ensures Follows(Run(ps))
  {
    hide Follows, Next;
    if ps == [] {
      StartFollows();
    } else {
      assert ps[|ps| - 1] in ps;
      RunFollows(ps[..|ps| - 1]);
      NextFollows(Run(ps[..|ps| - 1]), ps[|ps| - 1]);
    }
  }

  /** The one-way delay of a group: when it was complete against when it was sent. */
  function Delay(g: InterArrival.Group): int {
    g.complete - g.send
  }

  /**
    Over every run, since the grouping last started: the accumulated delay has changed by
    the one-way delay of the last closed group over the first, up to a millisecond for
    every group closed after the first.
   */
  lemma AccumulatedDelayIsOneWayDelay(ps: seq<InterArrival.Packet>)
    requires forall p | p in ps :: p.arrival >= 0
    requires Run(ps).ledger.closed != []
    ensures var x := Run(ps);
            var gs := x.ledger.closed;
            && InterArrival.NonEmpty(gs)
            && Near(x.path.detector.accumulated - x.base,
                    Delay(InterArrival.Summary(gs[|gs| - 1])) - Delay(InterArrival.Summary(gs[0])), |gs| - 1)
  {
    hide Run, Near;
    hide InterArrival.Remembers, InterArrival.Partition, InterArrival.GroupsOf, InterArrival.Summary, InterArrival.Sum;
    RunFollows(ps);
    var l := Run(ps).ledger;
    var gs := seq(|l.closed|, k requires 0 <= k < |l.closed| => InterArrival.Summary(l.closed[k]));
    InterArrival.DifferencesTelescope(l.emitted, gs);
  }

  // ----- What is grouped

  /** The stream was silent for more than two seconds, or has only begun. */
  predicate Silent(ps: seq<InterArrival.Packet>, p: InterArrival.Packet) {
    ps == [] || p.system - ps[|ps| - 1].system > 2 * SECOND
  }

  function SinceSilence(ps: seq<InterArrival.Packet>): seq<InterArrival.Packet> {
    if ps == [] then [] else
    var n := |ps| - 1;
    (if Silent(ps[..n], ps[n]) then [] else SinceSilence(ps[..n])) + [ps[n]]
  }

  /** One packet is grouped, by 5 ms, after what came since the last silence. */
  lemma NextGroups(x: Session, p: InterArrival.Packet, qs: seq<InterArrival.Packet>)
    requires p.arrival >= 0
    requires TimedOut(x.path, p.system) ==> qs == []
    requires !TimedOut(x.path, p.system) ==> (x.path.groups, x.ledger) == InterArrival.Run(5 * MILLISECOND, qs)
    ensures (Next(x, p).path.groups, Next(x, p).ledger) == InterArrival.Run(5 * MILLISECOND, qs + [p])
  {
    assert (qs + [p])[..|qs|] == qs;
    FeedGroups(x.path, p);
    hide Feed, InterArrival.Classify, InterArrival.Step, InterArrival.Record, SampleOf;
  }

  /** On every run of packets the groups are those of the packets since the last silence. */
  lemma {:induction false} GroupingIsOfPackets(ps: seq<InterArrival.Packet>)
    requires forall p | p in ps :: p.arrival >= 0
    ensures (Run(ps).path.groups, Run(ps).ledger) == InterArrival.Run(5 * MILLISECOND, SinceSilence(ps))
  {
    if ps == [] {
    } else {
      hide Next, TimedOut, Silent, InterArrival.Run;
      var n := |ps| - 1;
      assert ps[n] in ps;
      GroupingIsOfPackets(ps[..n]);
      TimeOutIsSilence(ps[..n], ps[n]);
      NextGroups(Run(ps[..n]), ps[n], if Silent(ps[..n], ps[n]) then [] else SinceSilence(ps[..n]));
    }
  }

  lemma {:induction false} LastSeenIsLast(ps: seq<InterArrival.Packet>)
    requires forall p | p in ps :: p.arrival >= 0
    ensures Run(ps).path.lastSeen == if ps == [] then None else Some(ps[|ps| - 1].system)
  {
    if ps == [] {
    } else {
      assert ps[|ps| - 1] in ps;
      hide InterArrival.Step, InterArrival.Classify, Trendline.UpdateTrendline, InterArrival.Record, SampleOf;
    }
  }

  lemma TimeOutIsSilence(ps: seq<InterArrival.Packet>, p: InterArrival.Packet)
    requires forall q | q in ps :: q.arrival >= 0
    ensures TimedOut(Run(ps).path, p.system) <==> Silent(ps, p)
  {
    LastSeenIsLast(ps);
    hide Run;
  }

  // ----- What the detector is fed

  /** The groups so far, started again after silence. */
  function LedgerBefore(ps: seq<InterArrival.Packet>, p: InterArrival.Packet): InterArrival.Ledger
    requires forall q | q in ps :: q.arrival >= 0
  {
    if Silent(ps, p) then InterArrival.NOTHING else Run(ps).ledger
  }

  /** The differences emitted since the last silence, in milliseconds, and when the packet that closed the group arrived. */
  function Samples(ps: seq<InterArrival.Packet>): seq<Trendline.Sample>
    requires forall p | p in ps :: p.arrival >= 0
  {
    if ps == [] then [] else
    var n := |ps| - 1;
    assert ps[n] in ps;
    var before := if Silent(ps[..n], ps[n]) then [] else Samples(ps[..n]);
    var emitted := Run(ps).ledger.emitted;
    if |emitted| > |LedgerBefore(ps[..n], ps[n]).emitted| then
      var d := emitted[|emitted| - 1];
      before + [Trendline.Sample(DivRoundToNearest(d.arrival, 1_000) as real, DivRoundToNearest(d.send, 1_000) as real,
                                 DivRoundPositiveToNearest(ps[n].arrival, 1_000))]
    else before
  }

  lemma TrendlineOfMore(xs: seq<Trendline.Sample>, x: Trendline.Sample)
    ensures Trendline.Run(xs + [x]) == Trendline.UpdateTrendline(Trendline.Run(xs), x)
  {
    assert (xs + [x])[..|xs|] == xs;
    hide Trendline.UpdateTrendline;
  }

  /** One packet feeds its difference to the detector, if it yields one. */
  lemma NextFeeds(x: Session, p: InterArrival.Packet)
    requires p.arrival >= 0
    ensures var y := Next(x, p);
            var l := if TimedOut(x.path, p.system) then InterArrival.NOTHING else x.ledger;
            var detector := if TimedOut(x.path, p.system) then Trendline.INITIAL else x.path.detector;
            y.path.detector ==
            if |y.ledger.emitted| > |l.emitted|
            then Trendline.UpdateTrendline(detector, SampleOf(y.ledger.emitted[|y.ledger.emitted| - 1], p))
            else detector
  {
    hide InterArrival.Step, InterArrival.Classify, Trendline.UpdateTrendline, SampleOf;
  }

  /** The sample a packet adds, if it yields a difference. */
  function Fed(before: seq<InterArrival.Delta>, after: seq<InterArrival.Delta>, p: InterArrival.Packet): seq<Trendline.Sample>
    requires p.arrival >= 0
  {
    if |after| > |before| then [SampleOf(after[|after| - 1], p)] else []
  }

  lemma SamplesStep(ps: seq<InterArrival.Packet>, p: InterArrival.Packet)
    requires p.arrival >= 0 && forall q | q in ps :: q.arrival >= 0
    ensures forall q | q in ps + [p] :: q.arrival >= 0
    ensures Run(ps + [p]) == Next(Run(ps), p)
    ensures Samples(ps + [p]) ==
            (if Silent(ps, p) then [] else Samples(ps))
            + Fed(LedgerBefore(ps, p).emitted, Next(Run(ps), p).ledger.emitted, p)
  {
    var all := ps + [p];
    assert all[..|all| - 1] == ps && all[|all| - 1] == p;
    hide Next, LedgerBefore, Silent;
  }

  lemma SilenceIsTimeOut(ps: seq<InterArrival.Packet>, p: InterArrival.Packet)
    requires forall q | q in ps :: q.arrival >= 0
    ensures TimedOut(Run(ps).path, p.system) <==> Silent(ps, p)
    ensures LedgerBefore(ps, p) == if TimedOut(Run(ps).path, p.system) then InterArrival.NOTHING else Run(ps).ledger
  {
    TimeOutIsSilence(ps, p);
    hide Run, TimedOut, Silent;
  }

  lemma NothingDetected()
    ensures Trendline.Run([]) == Trendline.INITIAL
  {
  }

  /** The samples before the packet, and the detector they lead to. */
  lemma FedBefore(ps: seq<InterArrival.Packet>, p: InterArrival.Packet)
    requires forall q | q in ps :: q.arrival >= 0
    requires Run(ps).path.detector == Trendline.Run(Samples(ps))
    ensures (if TimedOut(Run(ps).path, p.system) then Trendline.INITIAL else Run(ps).path.detector) ==
            Trendline.Run(if Silent(ps, p) then [] else Samples(ps))
  {
    hide Run, Samples, TimedOut, Silent, Trendline.Run;
    SilenceIsTimeOut(ps, p);
    NothingDetected();
  }

  lemma FedStep(ps: seq<InterArrival.Packet>, p: InterArrival.Packet)
    requires p.arrival >= 0 && forall q | q in ps :: q.arrival >= 0
    requires Run(ps).path.detector == Trendline.Run(Samples(ps))
    ensures Next(Run(ps), p).path.detector ==
            Trendline.Run((if Silent(ps, p) then [] else Samples(ps))
                          + Fed(LedgerBefore(ps, p).emitted, Next(Run(ps), p).ledger.emitted, p))
  {
    hide Run, Samples, Next, TimedOut, Silent, LedgerBefore, SampleOf, Trendline.Run, Trendline.UpdateTrendline;
    var before := if Silent(ps, p) then [] else Samples(ps);
    var emitted := Next(Run(ps), p).ledger.emitted;
    FedBefore(ps, p);
    SilenceIsTimeOut(ps, p);
    NextFeeds(Run(ps), p);
    if |emitted| > |LedgerBefore(ps, p).emitted| {
      TrendlineOfMore(before, SampleOf(emitted[|emitted| - 1], p));
    } else {
      assert before + [] == before;
    }
  }

  /** On every run of packets the detector is that of the samples since the last silence. */
  lemma {:induction false} DetectorIsFedSamples(ps: seq<InterArrival.Packet>)
    requires forall p | p in ps :: p.arrival >= 0
    ensures Run(ps).path.detector == Trendline.Run(Samples(ps))
  {
    if ps == [] {
    } else {
      hide Run, Samples, Trendline.Run, Next, Silent, LedgerBefore, Fed;
      var n := |ps| - 1;
      assert ps[n] in ps && ps == ps[..n] + [ps[n]];
      DetectorIsFedSamples(ps[..n]);
      SamplesStep(ps[..n], ps[n]);
      FedStep(ps[..n], ps[n]);
    }
  }

  // ----- From detection to rate

  datatype State = State(path: Path, rate: Aimd.State, hasOverused: bool, prevBitrate: nat, prevState: Usage)

  const INITIAL := State(IDLE, Aimd.INITIAL, false, 0, Normal)

  datatype Result = Result(updated: bool, target: nat, recovered: bool)

  function Detected(s: State): Usage {
    s.path.detector.detector.usage
  }

  function FeedAll(s: Path, ps: seq<InterArrival.Packet>): Path
    requires forall p | p in ps :: p.arrival >= 0
  {
    if ps == [] then s
    else assert ps[|ps| - 1] in ps; Feed(FeedAll(s, ps[..|ps| - 1]), ps[|ps| - 1])
  }

  /** Whether underuse turned to normal use at one of the packets. */
  function Recovers(s: Path, ps: seq<InterArrival.Packet>): bool
    requires forall p | p in ps :: p.arrival >= 0
  {
    ps != [] &&
    (assert ps[|ps| - 1] in ps;
     var before := FeedAll(s, ps[..|ps| - 1]);
     || Recovers(s, ps[..|ps| - 1])
     || (before.detector.detector.usage == Underusing && Feed(before, ps[|ps| - 1]).detector.detector.usage == Normal))
  }

  /** The k-th packet turned underuse to normal use. */
  ghost predicate RecoversAt(s: Path, ps: seq<InterArrival.Packet>, k: nat)
    requires k < |ps| && forall p | p in ps :: p.arrival >= 0
  {
    && FeedAll(s, ps[..k]).detector.detector.usage == Underusing
    && FeedAll(s, ps[..k + 1]).detector.detector.usage == Normal
  }

  lemma RecoversAtPrefix(s: Path, ps: seq<InterArrival.Packet>, k: nat)
    requires k < |ps| - 1 && forall p | p in ps :: p.arrival >= 0
    ensures RecoversAt(s, ps[..|ps| - 1], k) <==> RecoversAt(s, ps, k)
  {
    hide FeedAll;
    assert ps[..|ps| - 1][..k] == ps[..k] && ps[..|ps| - 1][..k + 1] == ps[..k + 1];
  }

  lemma RecoversStep(s: Path, ps: seq<InterArrival.Packet>)
    requires ps != [] && forall p | p in ps :: p.arrival >= 0
    ensures Recovers(s, ps) <==> Recovers(s, ps[..|ps| - 1]) || RecoversAt(s, ps, |ps| - 1)
  {
    hide Feed;
    assert ps[..|ps| - 1 + 1] == ps;
  }

  lemma {:induction false} RecoversExactlyWhen(s: Path, ps: seq<InterArrival.Packet>)
    requires forall p | p in ps :: p.arrival >= 0
    ensures Recovers(s, ps) <==> exists k | 0 <= k < |ps| :: RecoversAt(s, ps, k)
  {
    if ps == [] {
    } else {
      var n := |ps| - 1;
      RecoversStep(s, ps);
      hide Recovers, RecoversAt;
      RecoversExactlyWhen(s, ps[..n]);
      forall k | 0 <= k < n
        ensures RecoversAt(s, ps[..n], k) <==> RecoversAt(s, ps, k)
      {
        RecoversAtPrefix(s, ps, k);
      }
    }
  }

  /** What the rate controller is asked, given the detected usage. */
  function ChangeRate(m: Math, r: Aimd.State, usage: Usage, acked: Option<nat>, now: int): (Aimd.State, bool, nat)
    requires Aimd.Valid(r) && Aimd.Past(r, now)
  {
    if usage == Overusing then
      if acked.Some? && Aimd.TimeToReduceFurther(r, now, acked.value) then
        var t := Aimd.UpdateRate(m, r, Aimd.Input(usage, acked), now);
        (t, t.initialized, t.rate)
      else if acked.None? && r.initialized && r.lastDecrease.None? then
        var t := Aimd.SetEstimate(r, r.rate / 2, now);
        (t, true, t.rate)
      else (r, false, 0)
    else
      var t := Aimd.UpdateRate(m, r, Aimd.Input(usage, acked), now);
      (t, t.initialized, t.rate)
  }

  function MaybeUpdateEstimate(m: Math, s: State, acked: Option<nat>, recovered: bool, now: int): (State, Result)
    requires Aimd.Valid(s.rate) && Aimd.Past(s.rate, now)
  {
    var usage := Detected(s);
    var (rate, updated, target) := ChangeRate(m, s.rate, usage, acked, now);
    var changed := (updated && s.prevBitrate != target) || usage != s.prevState;
    (s.(rate := rate,
        hasOverused := s.hasOverused || usage == Overusing,
        prevBitrate := if changed && updated then target else s.prevBitrate,
        prevState := if changed then usage else s.prevState),
     Result(updated, target, usage != Overusing && recovered))
  }

  /** The feedback for some packets, in the order they arrived, and when it was given. */
  datatype Message = Message(packets: seq<InterArrival.Packet>, acked: Option<nat>, now: int)

  ghost predicate Valid(s: State, now: int) {
    Aimd.Valid(s.rate) && Aimd.Past(s.rate, now)
  }

  ghost predicate Arrived(msg: Message) {
    forall p | p in msg.packets :: p.arrival >= 0
  }

  /** Feedback for no packets changes nothing. */
  function OnFeedback(m: Math, s: State, msg: Message): (State, Result)
    requires Valid(s, msg.now) && Arrived(msg)
  {
    if msg.packets == [] then (s, Result(false, 0, false))
    else
      MaybeUpdateEstimate(m, s.(path := FeedAll(s.path, msg.packets)), msg.acked, Recovers(s.path, msg.packets), msg.now)
  }

  // ----- What a feedback asks of the rate controller

  /** The rate controller's event, or none. */
  function Asked(r: Aimd.State, usage: Usage, acked: Option<nat>, now: int): Option<Aimd.Event> {
    if usage == Overusing && acked.Some? && !Aimd.TimeToReduceFurther(r, now, acked.value) then None
    else if usage == Overusing && acked.None? then
      if r.initialized && r.lastDecrease.None? then Some(Aimd.Halve) else None
    else Some(Aimd.Feedback(Aimd.Input(usage, acked)))
  }

  /** It is asked nothing that needs an estimate before there is one. */
  lemma ChangeRateIsStep(m: Math, r: Aimd.State, usage: Usage, acked: Option<nat>, now: int)
    requires Aimd.Valid(r) && Aimd.Past(r, now)
    ensures var (t, updated, target) := ChangeRate(m, r, usage, acked, now);
            && (match Asked(r, usage, acked, now)
                case None => t == r
                case Some(e) => Aimd.Informed(r, e) && t == Aimd.Step(m, r, Aimd.Timed(now, e)))
            && (updated ==> target == t.rate && t.initialized)
  {
    hide Aimd.UpdateRate;
  }

  function DetectedAfter(s: State, msg: Message): Usage
    requires Arrived(msg)
  {
    FeedAll(s.path, msg.packets).detector.detector.usage
  }

  function AskedBy(s: State, msg: Message): Option<Aimd.Event>
    requires Arrived(msg)
  {
    if msg.packets == [] then None else Asked(s.rate, DetectedAfter(s, msg), msg.acked, msg.now)
  }

  lemma FeedbackIsStep(m: Math, s: State, msg: Message)
    requires Valid(s, msg.now) && Arrived(msg)
    ensures var (t, result) := OnFeedback(m, s, msg);
            && (match AskedBy(s, msg)
                case None => t.rate == s.rate
                case Some(e) => Aimd.Informed(s.rate, e) && t.rate == Aimd.Step(m, s.rate, Aimd.Timed(msg.now, e)))
            && (result.updated ==> result.target == t.rate.rate && t.rate.initialized)
  {
    hide Aimd.UpdateRate, Aimd.Step, Aimd.Informed, Aimd.Valid, Aimd.Past, FeedAll, Recovers, Asked, ChangeRate;
    if msg.packets != [] {
      ChangeRateIsStep(m, s.rate, DetectedAfter(s, msg), msg.acked, msg.now);
    }
  }

  /**
    After every feedback the estimate moved the way the detector says: not up on
    overuse, not down in normal use, not at all on underuse.
   */
  lemma RateFollowsDetector(m: Math, s: State, msg: Message)
    requires ValidMath(m) && Valid(s, msg.now) && Arrived(msg) && msg.packets != [] && s.rate.initialized
    ensures var t := OnFeedback(m, s, msg).0;
            match Detected(t)
            case Overusing => t.rate.rate <= s.rate.rate
            case Normal => t.rate.rate >= s.rate.rate
            case Underusing => t.rate.rate == s.rate.rate
  {
    hide Aimd.UpdateRate, FeedAll, Recovers;
    var usage := Detected(OnFeedback(m, s, msg).0);
    Aimd.UpdateDirection(m, s.rate, Aimd.Input(usage, msg.acked), msg.now);
  }

  /**
    What a feedback with packets leaves behind: the verdict, the rate announced last, and whether
    there was ever overuse; and it recovers if underuse turned to normal use without overuse in the end.
   */
  lemma FeedbackRemembers(m: Math, s: State, msg: Message)
    requires Valid(s, msg.now) && Arrived(msg) && msg.packets != []
    ensures var (t, result) := OnFeedback(m, s, msg);
            var usage := DetectedAfter(s, msg);
            && t.prevState == usage && Detected(t) == usage
            && t.prevBitrate == (if result.updated then result.target else s.prevBitrate)
            && (t.hasOverused <==> s.hasOverused || usage == Overusing)
            && (result.recovered <==> usage != Overusing && Recovers(s.path, msg.packets))
            && t.rate == ChangeRate(m, s.rate, usage, msg.acked, msg.now).0
  {
    hide ChangeRate, FeedAll, Recovers;
  }

  // ----- The rate over runs

  /** A feedback message, or a new round-trip time or new limits for the rate controller. */
  datatype Event = Feedback(msg: Message) | Setting(at: int, event: Aimd.Event) {
    function Time(): int {
      match this case Feedback(msg) => msg.now case Setting(at, _) => at
    }
  }

  ghost predicate Legal(e: Event) {
    match e
    case Feedback(msg) => Arrived(msg)
    case Setting(_, event) => (event.Constraints? || event.SetRtt?) && Aimd.Legal(event)
  }

  function Step(m: Math, s: State, e: Event): (State, Result)
    requires Valid(s, e.Time()) && Legal(e)
  {
    match e
    case Feedback(msg) => OnFeedback(m, s, msg)
    case Setting(at, event) => (s.(rate := Aimd.Step(m, s.rate, Aimd.Timed(at, event))), Result(false, 0, false))
  }

  /** The rate controller's event in any event. */
  function EventOf(s: State, e: Event): Option<Aimd.Event>
    requires Legal(e)
  {
    match e case Feedback(msg) => AskedBy(s, msg) case Setting(_, event) => Some(event)
  }

  lemma StepIsStep(m: Math, s: State, e: Event)
    requires Valid(s, e.Time()) && Legal(e)
    ensures var (t, result) := Step(m, s, e);
            && (match EventOf(s, e)
                case None => t.rate == s.rate
                case Some(a) =>
                  Aimd.Informed(s.rate, a) && Aimd.Legal(a) && t.rate == Aimd.Step(m, s.rate, Aimd.Timed(e.Time(), a)))
            && (result.updated ==> result.target == t.rate.rate && t.rate.initialized)
  {
    hide Aimd.Step, OnFeedback;
    match e
    case Feedback(msg) => FeedbackIsStep(m, s, msg);
    case Setting(_, _) =>
  }

  lemma StepStaysValid(m: Math, s: State, e: Event)
    requires ValidMath(m) && Valid(s, e.Time()) && Legal(e)
    ensures Valid(Step(m, s, e).0, e.Time())
  {
    hide Aimd.Step, Step, EventOf, Aimd.Informed, Aimd.Legal;
    StepIsStep(m, s, e);
    if EventOf(s, e).Some? {
      Aimd.StepStaysValid(m, s.rate, Aimd.Timed(e.Time(), EventOf(s, e).value));
    }
  }

  /** A clock that starts at `start` and does not go back. */
  ghost predicate Timely(es: seq<Event>, start: int) {
    es == [] ||
    var n := |es| - 1;
    Timely(es[..n], start) && Legal(es[n]) && Clock(es[..n], start) <= es[n].Time()
  }

  function Clock(es: seq<Event>, start: int): int {
    if es == [] then start else es[|es| - 1].Time()
  }

  lemma LaterIsValid(s: State, now: int, later: int)
    requires Valid(s, now) && now <= later
    ensures Valid(s, later)
  {
  }

  ghost function RateRun(m: Math, s: State, es: seq<Event>, start: int): (r: State)
    requires ValidMath(m) && Valid(s, start) && Timely(es, start)
    ensures Valid(r, Clock(es, start))
  {
    if es == [] then s else
    var n := |es| - 1;
    var t := RateRun(m, s, es[..n], start);
    LaterIsValid(t, Clock(es[..n], start), es[n].Time());
    StepStaysValid(m, t, es[n]);
    Step(m, t, es[n]).0
  }

  /** What the last event of a run answered. */
  ghost function LastResult(m: Math, s: State, es: seq<Event>, start: int): Result
    requires ValidMath(m) && Valid(s, start) && Timely(es, start) && es != []
  {
    var n := |es| - 1;
    LaterIsValid(RateRun(m, s, es[..n], start), Clock(es[..n], start), es[n].Time());
    Step(m, RateRun(m, s, es[..n], start), es[n]).1
  }

  // ----- From packets to rates

  /** All packets fed back, in order. */
  function PacketsOf(es: seq<Event>): seq<InterArrival.Packet> {
    if es == [] then [] else
    var e := es[|es| - 1];
    PacketsOf(es[..|es| - 1]) + if e.Feedback? then e.msg.packets else []
  }

  lemma {:induction false} FeedAllOfMore(s: Path, ps: seq<InterArrival.Packet>, qs: seq<InterArrival.Packet>)
    requires forall p | p in ps + qs :: p.arrival >= 0
    ensures forall p | p in ps :: p in ps + qs
    ensures forall p | p in qs :: p in ps + qs
    ensures FeedAll(s, ps + qs) == FeedAll(FeedAll(s, ps), qs)
  {
    hide Feed;
    if qs == [] {
      assert ps + qs == ps;
    } else {
      var n := |qs| - 1;
      assert (ps + qs)[..|ps + qs| - 1] == ps + qs[..n];
      FeedAllOfMore(s, ps, qs[..n]);
    }
  }

  lemma {:induction false} RunIsFeedAll(ps: seq<InterArrival.Packet>)
    requires forall p | p in ps :: p.arrival >= 0
    ensures Run(ps).path == FeedAll(IDLE, ps)
  {
    hide Feed, InterArrival.Classify, InterArrival.Record;
    if ps == [] {
    } else {
      assert ps[|ps| - 1] in ps;
      RunIsFeedAll(ps[..|ps| - 1]);
    }
  }

  lemma StepPath(m: Math, s: State, e: Event)
    requires Valid(s, e.Time()) && Legal(e)
    ensures Step(m, s, e).0.path == match e case Feedback(msg) => FeedAll(s.path, msg.packets) case Setting(_, _) => s.path
  {
    hide ChangeRate, Recovers, Aimd.Step;
    match e
    case Feedback(msg) => assert msg.packets == [] ==> FeedAll(s.path, msg.packets) == s.path;
    case Setting(_, _) =>
  }

  /**
    On every run the verdict that drives the rate is that of the trendline estimator on
    the differences between the groups of all packets fed back.
   */
  lemma {:induction false} DetectionIsOfAllPackets(m: Math, es: seq<Event>, start: int)
    requires ValidMath(m) && Timely(es, start)
    ensures forall p | p in PacketsOf(es) :: p.arrival >= 0
    ensures RateRun(m, INITIAL, es, start).path == Run(PacketsOf(es)).path
    ensures RateRun(m, INITIAL, es, start).path.detector == Trendline.Run(Samples(PacketsOf(es)))
  {
    if es == [] {
    } else {
      hide Step, Valid, Run, FeedAll, Samples, ValidMath;
      var n := |es| - 1;
      DetectionIsOfAllPackets(m, es[..n], start);
      var t, ps := RateRun(m, INITIAL, es[..n], start), PacketsOf(es[..n]);
      LaterIsValid(t, Clock(es[..n], start), es[n].Time());
      StepPath(m, t, es[n]);
      RunIsFeedAll(ps);
      if es[n].Feedback? {
        FeedAllOfMore(IDLE, ps, es[n].msg.packets);
      } else {
        assert ps + [] == ps;
      }
      RunIsFeedAll(PacketsOf(es));
    }
    DetectorIsFedSamples(PacketsOf(es));
  }

  // ----- How far the estimate can go

  ghost predicate Measured(e: Event, bound: nat) {
    match e
    case Feedback(msg) => msg.acked.Some? ==> msg.acked.value <= bound
    case Setting(_, event) => Aimd.Measured(event, bound)
  }

  /** One feedback keeps the bound, and what it announces is the controller's rate. */
  lemma FeedbackStaysBelow(m: Math, s: State, e: Event, bound: nat, top: nat)
    requires ValidMath(m) && Valid(s, e.Time()) && Legal(e) && Measured(e, bound)
    requires Aimd.Bounded(s.rate, bound, top)
    ensures var (t, result) := Step(m, s, e);
            && Aimd.Bounded(t.rate, bound, top)
            && (result.updated ==> Aimd.MIN_BITRATE <= result.target == t.rate.rate <= top)
  {
    hide Aimd.Step, Step, Aimd.Informed, Aimd.ThroughputLimit;
    StepIsStep(m, s, e);
    StepStaysValid(m, s, e);
    if EventOf(s, e).Some? {
      hide Aimd.Bounded, Aimd.Valid;
      Aimd.StepStaysBelow(m, s.rate, Aimd.Timed(e.Time(), EventOf(s, e).value), bound, top);
    }
  }

  /**
    If the acknowledged rate is never measured above `bound`, no run takes an estimate
    above the larger of where it began, if there was one, and one and a half times that
    plus 10 kbps; nor is more ever announced.
   */
  lemma {:induction false} EstimateStaysBelow(m: Math, s: State, es: seq<Event>, start: int, bound: nat, top: nat)
    requires ValidMath(m) && Valid(s, start) && Timely(es, start)
    requires Aimd.Bounded(s.rate, bound, top) && forall e | e in es :: Measured(e, bound)
    ensures Aimd.Bounded(RateRun(m, s, es, start).rate, bound, top)
    ensures es != [] && LastResult(m, s, es, start).updated ==>
              Aimd.MIN_BITRATE <= LastResult(m, s, es, start).target <= top
  {
    if es == [] {
    } else {
      hide Step, Valid, Legal, Measured, ValidMath, Aimd.Bounded;
      var n := |es| - 1;
      assert es[n] in es;
      EstimateStaysBelow(m, s, es[..n], start, bound, top);
      var t := RateRun(m, s, es[..n], start);
      LaterIsValid(t, Clock(es[..n], start), es[n].Time());
      FeedbackStaysBelow(m, t, es[n], bound, top);
    }
  }

  /** From the program's own start nothing but the measured rates counts. */
  lemma FirstEstimatesStayBelow(m: Math, es: seq<Event>, start: int, bound: nat)
    requires ValidMath(m) && Timely(es, start) && forall e | e in es :: Measured(e, bound)
    ensures var top, r := Aimd.ThroughputLimit(bound), RateRun(m, INITIAL, es, start).rate;
            && (r.initialized ==> r.rate <= top)
            && (es != [] && LastResult(m, INITIAL, es, start).updated ==>
                  Aimd.MIN_BITRATE <= LastResult(m, INITIAL, es, start).target <= top)
  {
    hide RateRun, LastResult, Measured;
    EstimateStaysBelow(m, INITIAL, es, start, bound, Aimd.ThroughputLimit(bound));
  }

  ghost predicate MeasuredAbove(e: Event, low: nat) {
    match e
    case Feedback(msg) => msg.acked.Some? ==> msg.acked.value >= low
    case Setting(_, event) => Aimd.MeasuredAbove(event, low)
  }

  /** What is left of a floor by the one cut that needs no measured rate. */
  function Left(floor: nat, r: Aimd.State): nat {
    if r.lastDecrease.None? then floor else floor / 2
  }

  lemma StepStaysAbove(m: Math, s: State, e: Event, low: nat, floor: nat)
    requires ValidMath(m) && Valid(s, e.Time()) && Legal(e) && MeasuredAbove(e, low)
    requires Aimd.Floored(s.rate, low, Left(floor, s.rate))
    ensures var t := Step(m, s, e).0;
            Aimd.Floored(t.rate, low, Left(floor, t.rate))
  {
    hide Aimd.CutFloor, Step, Kbps, Aimd.Floored, Aimd.Legal, Aimd.MeasuredAbove, Aimd.UpdateRate;
    StepIsStep(m, s, e);
    match EventOf(s, e)
    case None =>
    case Some(a) =>
      var timed := Aimd.Timed(e.Time(), a);
      EventIsMeasuredAbove(s, e, low);
      Aimd.StepStaysAbove(m, s.rate, timed, low, Left(floor, s.rate));
      if a.Halve? && s.rate.lastDecrease.None? {
        HalvingStaysAbove(s.rate, e.Time(), low, floor);
      } else if s.rate.lastDecrease.Some? {
        DecreaseIsKept(m, s, e);
      } else {
        FloorMayFall(Step(m, s, e).0.rate, low, floor);
      }
  }

  lemma HalvingStaysAbove(r: Aimd.State, now: int, low: nat, floor: nat)
    requires Aimd.Floored(r, low, floor) && r.initialized && r.lastDecrease.None?
    ensures var t := Aimd.SetEstimate(r, r.rate / 2, now);
            Aimd.Floored(t, low, Left(floor, t))
  {
    hide Aimd.CutFloor, Kbps;
  }

  lemma EventIsMeasuredAbove(s: State, e: Event, low: nat)
    requires Legal(e) && MeasuredAbove(e, low) && EventOf(s, e).Some?
    ensures Aimd.MeasuredAbove(EventOf(s, e).value, low)
  {
    hide Aimd.TimeToReduceFurther, FeedAll;
  }

  lemma FloorMayFall(r: Aimd.State, low: nat, floor: nat)
    requires Aimd.Floored(r, low, floor)
    ensures Aimd.Floored(r, low, Left(floor, r))
  {
    hide Aimd.CutFloor, Kbps;
  }

  /**
    If the acknowledged rate is never measured below `low`, no run takes the rate below half
    of where it began or of what a cut from `low` leaves.
   */
  lemma {:induction false} EstimateStaysAbove(m: Math, s: State, es: seq<Event>, start: int, low: nat, floor: nat)
    requires ValidMath(m) && Valid(s, start) && Timely(es, start)
    requires Aimd.Floored(s.rate, low, Left(floor, s.rate)) && forall e | e in es :: MeasuredAbove(e, low)
    ensures var r := RateRun(m, s, es, start).rate;
            Aimd.Floored(r, low, Left(floor, r))
  {
    if es == [] {
    } else {
      hide Step, Valid, Legal, MeasuredAbove, ValidMath, Aimd.Floored;
      var n := |es| - 1;
      assert es[n] in es;
      EstimateStaysAbove(m, s, es[..n], start, low, floor);
      var t := RateRun(m, s, es[..n], start);
      LaterIsValid(t, Clock(es[..n], start), es[n].Time());
      StepStaysAbove(m, t, es[n], low, floor);
    }
  }

  lemma FirstEstimatesStayAbove(m: Math, es: seq<Event>, start: int, low: nat)
    requires ValidMath(m) && Timely(es, start) && forall e | e in es :: MeasuredAbove(e, low)
    ensures RateRun(m, INITIAL, es, start).rate.rate >= Min(Aimd.CutFloor(low), Aimd.MAX_BITRATE) / 2
  {
    hide RateRun, MeasuredAbove, Aimd.CutFloor, Kbps;
    var floor := Min(Aimd.CutFloor(low), Aimd.MAX_BITRATE);
    if floor >= 0 {
      EstimateStaysAbove(m, INITIAL, es, start, low, floor);
    }
  }

  // ----- Overuse without an acknowledged rate

  /** Such a rate is cut in half, or to the minimum, exactly if no decrease came before. */
  lemma HalvesExactlyWhen(m: Math, r: Aimd.State, now: int)
    requires Aimd.Valid(r) && Aimd.Past(r, now)
    ensures var t, cuts := ChangeRate(m, r, Overusing, None, now).0,
                           r.initialized && r.lastDecrease.None? && r.minRate < r.rate;
            && (t.rate != r.rate <==> cuts)
            && t.rate == (if cuts then Max(r.rate / 2, r.minRate) else r.rate)
            && t == (if r.initialized && r.lastDecrease.None?
                     then r.(rate := t.rate, lastChange := Some(now), lastDecrease := if cuts then Some(now) else None) else r)
  {
  }

  /**
    With an acknowledged rate, overuse cuts if there was no change yet, or the last one is
    a round-trip time ago, of 10 to 200 ms, or less than half of the estimate arrives; and
    else changes nothing.
   */
  predicate MeasuredCutIsDue(r: Aimd.State, acked: nat, now: int) {
    || r.lastChange.None?
    || now - r.lastChange.value >= Max(10_000, Min(r.rtt, 200_000))
    || (r.initialized && acked < Round(r.rate as real / 2.0))
  }

  lemma MeasuredCutExactlyWhen(m: Math, r: Aimd.State, acked: nat, now: int)
    requires Aimd.Valid(r) && Aimd.Past(r, now)
    ensures var (t, updated, target) := ChangeRate(m, r, Overusing, Some(acked), now);
            var rate := AimdOutcomes.Base(r, Some(acked), now);
            if MeasuredCutIsDue(r, acked, now) then
              && t.rate == Max(r.minRate, Min(rate, AimdOutcomes.Cut(r, rate, acked)))
              && updated && target == t.rate && t.initialized
              && t.lastDecrease == Some(now) && t.lastChange == Some(now) && t.latestThroughput == acked
            else t == r && !updated
  {
    hide Aimd.UpdateRate, Round, AimdOutcomes.Cut;
    assert r.rate as real * 0.5 == r.rate as real / 2.0;
    AimdOutcomes.OveruseExactly(m, r, Some(acked), now);
  }

  /** Without overuse the rate controller is always asked, and its rate announced once there is an estimate. */
  lemma OtherUseAnnounces(m: Math, r: Aimd.State, usage: Usage, acked: Option<nat>, now: int)
    requires Aimd.Valid(r) && Aimd.Past(r, now) && usage != Overusing
    ensures var (t, updated, target) := ChangeRate(m, r, usage, acked, now);
            && t == Aimd.UpdateRate(m, r, Aimd.Input(usage, acked), now)
            && (updated <==> r.initialized || AimdOutcomes.StartsNow(r, acked, now))
            && (updated ==> target == t.rate)
  {
    if r.initialized || AimdOutcomes.StartsNow(r, acked, now) {
      if usage == Normal {
        AimdOutcomes.NormalUseExactly(m, r, acked, now);
      } else {
        AimdOutcomes.UnderuseExactly(m, r, acked, now);
      }
    } else {
      AimdOutcomes.WaitingExactly(m, r, Aimd.Input(usage, acked), now);
    }
    hide Aimd.UpdateRate, AimdOutcomes.Ceiling, AimdOutcomes.Added, AimdOutcomes.Surviving;
  }

  /** An event that lowers the rate although no rate was acknowledged. */
  predicate CutsUnmeasured(m: Math, s: State, e: Event)
    requires Valid(s, e.Time()) && Legal(e)
  {
    && e.Feedback? && e.msg.packets != [] && DetectedAfter(s, e.msg) == Overusing && e.msg.acked.None?
    && Step(m, s, e).0.rate.rate != s.rate.rate
  }

  ghost function UnmeasuredCuts(m: Math, s: State, es: seq<Event>, start: int): nat
    requires ValidMath(m) && Valid(s, start) && Timely(es, start)
  {
    if es == [] then 0 else
    var n := |es| - 1;
    LaterIsValid(RateRun(m, s, es[..n], start), Clock(es[..n], start), es[n].Time());
    UnmeasuredCuts(m, s, es[..n], start) + if CutsUnmeasured(m, RateRun(m, s, es[..n], start), es[n]) then 1 else 0
  }

  lemma CutIsDecrease(m: Math, s: State, e: Event)
    requires Valid(s, e.Time()) && Legal(e) && CutsUnmeasured(m, s, e)
    ensures s.rate.lastDecrease.None? && Step(m, s, e).0.rate.lastDecrease.Some?
  {
    hide Recovers, FeedAll, ChangeRate, Aimd.Valid, Aimd.Past;
    HalvesExactlyWhen(m, s.rate, e.Time());
  }

  lemma DecreaseIsKept(m: Math, s: State, e: Event)
    requires Valid(s, e.Time()) && Legal(e) && s.rate.lastDecrease.Some?
    ensures Step(m, s, e).0.rate.lastDecrease.Some?
  {
    hide Step, Aimd.Step, EventOf, Aimd.Informed, Aimd.Legal;
    StepIsStep(m, s, e);
    if EventOf(s, e).Some? {
      Aimd.StepKeepsDecrease(m, s.rate, Aimd.Timed(e.Time(), EventOf(s, e).value));
    }
  }

  /**
    On every run, whatever else comes between, overuse without an acknowledged rate lowers
    the rate at most once, and never after a decrease.
   */
  lemma {:induction false} HalvesOnlyOnce(m: Math, s: State, es: seq<Event>, start: int)
    requires ValidMath(m) && Valid(s, start) && Timely(es, start)
    ensures UnmeasuredCuts(m, s, es, start) <= if s.rate.lastDecrease.Some? then 0 else 1
    ensures s.rate.lastDecrease.Some? || UnmeasuredCuts(m, s, es, start) > 0 ==>
              RateRun(m, s, es, start).rate.lastDecrease.Some?
  {
    if es == [] {
    } else {
      hide Step, Valid, Legal, ValidMath, CutsUnmeasured;
      var n := |es| - 1;
      HalvesOnlyOnce(m, s, es[..n], start);
      var t := RateRun(m, s, es[..n], start);
      LaterIsValid(t, Clock(es[..n], start), es[n].Time());
      if t.rate.lastDecrease.Some? {
        DecreaseIsKept(m, t, es[n]);
      }
      if CutsUnmeasured(m, t, es[n]) {
        CutIsDecrease(m, t, es[n]);
      }
    }
  }

  /**
    From the start: two measurements of 1 Mbps set the rate, overuse without one cuts
    it in half, and 300 ms later another does nothing.
   */
  lemma SecondHalvingFails(m: Math)
    ensures var a := ChangeRate(m, Aimd.INITIAL, Underusing, Some(1_000_000), 0).0;
            Aimd.Valid(a) && Aimd.Past(a, 5_000_001)
            && var b := ChangeRate(m, a, Underusing, Some(1_000_000), 5_000_001).0;
            Aimd.Valid(b) && Aimd.Past(b, 6_000_000) && b.rate == 1_000_000
            && var c := ChangeRate(m, b, Overusing, None, 6_000_000).0;
            Aimd.Valid(c) && Aimd.Past(c, 6_300_000) && c.rate == 500_000
            && ChangeRate(m, c, Overusing, None, 6_300_000) == (c, false, 0)
  {
    hide Aimd.IncreaseRate, Aimd.DecreaseRate;
  }

  // ----- The program's object

  class DelayBasedBwe {
    var interArrivalDelta: InterArrival.InterArrivalDelta
    var delayDetector: Trendline.TrendlineEstimator
    const rateControl: Aimd.AimdRateControl
    var lastSeenPacket: Option<int>
    var hasOnceDetectedOveruse: bool
    var prevBitrate: nat
    var prevState: Usage

    ghost function AbsPath(): Path
      reads this, interArrivalDelta, delayDetector
    {
      Path(interArrivalDelta.Abs(), delayDetector.Abs(), lastSeenPacket)
    }

    ghost function Abs(): State
      reads this, interArrivalDelta, delayDetector, rateControl, rateControl.linkCapacity
    {
      State(AbsPath(), rateControl.Abs(), hasOnceDetectedOveruse, prevBitrate, prevState)
    }

    constructor (m: Math)
      ensures Abs() == INITIAL && rateControl.math == m
      ensures fresh(interArrivalDelta) && fresh(delayDetector) && fresh(rateControl) && fresh(rateControl.linkCapacity)
    {
      interArrivalDelta := new InterArrival.InterArrivalDelta(SEND_TIME_GROUP_LENGTH);
      delayDetector := new Trendline.TrendlineEstimator();
      rateControl := new Aimd.AimdRateControl(m);
      lastSeenPacket, hasOnceDetectedOveruse, prevBitrate, prevState := None, false, 0, Normal;
    }

    method IncomingPacket(p: InterArrival.Packet)
      requires p.arrival >= 0
      modifies this`interArrivalDelta, this`delayDetector, this`lastSeenPacket, interArrivalDelta, delayDetector
      ensures AbsPath() == Feed(old(AbsPath()), p)
      ensures interArrivalDelta == old(interArrivalDelta) || fresh(interArrivalDelta)
      ensures delayDetector == old(delayDetector) || fresh(delayDetector)
    {
      hide InterArrival.Step, InterArrival.Classify, Trendline.UpdateTrendline, SampleOf;
      if lastSeenPacket.None? || p.system - lastSeenPacket.value > STREAM_TIME_OUT {
        interArrivalDelta := new InterArrival.InterArrivalDelta(SEND_TIME_GROUP_LENGTH);
        delayDetector := new Trendline.TrendlineEstimator();
      }
      lastSeenPacket := Some(p.system);
      assert AbsPath() == Awake(old(AbsPath()), p.system);
      var delta := interArrivalDelta.ComputeDeltas(p);
      if delta.Some? {
        delayDetector.Update(SampleOf(delta.value, p));
      }
    }

    /** The loop over the packets of one feedback message. */
    method IncomingPackets(packets: seq<InterArrival.Packet>) returns (recovered: bool)
      requires forall p | p in packets :: p.arrival >= 0
      modifies this`interArrivalDelta, this`delayDetector, this`lastSeenPacket, interArrivalDelta, delayDetector
      ensures AbsPath() == FeedAll(old(AbsPath()), packets)
      ensures recovered == Recovers(old(AbsPath()), packets)
      ensures interArrivalDelta == old(interArrivalDelta) || fresh(interArrivalDelta)
      ensures delayDetector == old(delayDetector) || fresh(delayDetector)
    {
      hide Feed;
      recovered := false;
      ghost var s := AbsPath();
      var prevDetectorState := delayDetector.hypothesis;
      for i := 0 to |packets|
        invariant AbsPath() == FeedAll(s, packets[..i])
        invariant recovered == Recovers(s, packets[..i])
        invariant prevDetectorState == delayDetector.hypothesis
        invariant interArrivalDelta == old(interArrivalDelta) || fresh(interArrivalDelta)
        invariant delayDetector == old(delayDetector) || fresh(delayDetector)
      {
        assert packets[..i + 1][..i] == packets[..i];
        IncomingPacket(packets[i]);
        if prevDetectorState == Underusing && delayDetector.hypothesis == Normal {
          recovered := true;
        }
        prevDetectorState := delayDetector.hypothesis;
      }
      assert packets[..|packets|] == packets;
    }

    method IncomingPacketFeedbackVector(msg: Message) returns (result: Result)
      requires Valid(Abs(), msg.now) && Arrived(msg)
      modifies this, interArrivalDelta, delayDetector, rateControl, rateControl.linkCapacity
      ensures (Abs(), result) == OnFeedback(rateControl.math, old(Abs()), msg)
    {
      hide FeedAll, Recovers, Aimd.Valid, Aimd.Past, MaybeUpdateEstimate;
      if msg.packets == [] {
        return Result(false, 0, false);
      }
      var recovered := IncomingPackets(msg.packets);
      result := MaybeUpdate(msg.acked, recovered, msg.now);
    }

    method OnRttUpdate(rtt: nat)
      modifies rateControl
      ensures Abs() == old(Abs()).(rate := old(Abs().rate).(rtt := rtt))
    {
      rateControl.SetRtt(rtt);
    }

    method SetStartAndMinimum(start: Option<nat>, low: nat)
      modifies rateControl
      ensures Abs() == old(Abs()).(rate := Aimd.SetConstraints(old(Abs().rate), start, low))
    {
      rateControl.SetStartAndMinimum(start, low);
    }

    method MaybeUpdate(acked: Option<nat>, recovered: bool, now: int) returns (result: Result)
      requires Valid(Abs(), now)
      modifies this`hasOnceDetectedOveruse, this`prevBitrate, this`prevState, rateControl, rateControl.linkCapacity
      ensures (Abs(), result) == MaybeUpdateEstimate(rateControl.math, old(Abs()), acked, recovered, now)
    {
      hide Aimd.UpdateRate, Aimd.SetEstimate, Aimd.Valid, Aimd.Past, Aimd.TimeToReduceFurther;
      result := Result(false, 0, false);
      if delayDetector.hypothesis == Overusing {
        if acked.Some? && Aimd.TimeToReduceFurther(rateControl.Value(), now, acked.value) {
          var target := rateControl.UpdateTarget(Aimd.Input(Overusing, acked), now);
          result := Result(rateControl.bitrateIsInitialized, target, false);
        } else if acked.None? && rateControl.bitrateIsInitialized && rateControl.timeLastBitrateDecrease.None? {
          rateControl.SetEstimateTo(rateControl.currentBitrate / 2, now);
          result := Result(true, rateControl.currentBitrate, false);
        }
        hasOnceDetectedOveruse := true;
      } else {
        var target := rateControl.UpdateTarget(Aimd.Input(delayDetector.hypothesis, acked), now);
        result := Result(rateControl.bitrateIsInitialized, target, recovered);
      }
      if (result.updated && prevBitrate != result.target) || delayDetector.hypothesis != prevState {
        prevBitrate := if result.updated then result.target else prevBitrate;
        prevState := delayDetector.hypothesis;
      }
    }
  }
}

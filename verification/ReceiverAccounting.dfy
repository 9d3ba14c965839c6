/**
  Runs of the receiver's loss collection, together with the numbers processed and the
  windows reported so far.
 */
module ReceiverAccounting {
  import opened Units
  import opened ReceiverLoss

  datatype Span = Span(first: nat, largest: nat, received: seq<bool>)

  function SpanOf(w: Window): Span {
    Span(w.first, w.largest, w.received)
  }

  datatype Session = Session(state: State, reported: seq<Span>, reports: seq<Report>, numbers: set<nat>)

  const START := Session(INITIAL, [], [], {})

  function Next(x: Session, p: Packet): Option<Session> {
    match Step(x.state, p)
    case Fault => None
    case Ok(state, report) =>
      Some(Session(
             state,
             x.reported + if report.Some? then [SpanOf(Waiting(x.state, p))] else [],
             x.reports + if report.Some? then [report.value] else [],
             x.numbers + {p.number}))
  }

  function Run(ps: seq<Packet>): Option<Session> {
    if ps == [] then Some(START) else
    var before := Run(ps[..|ps| - 1]);
    if before.None? then None else Next(before.value, ps[|ps| - 1])
  }

  function Clock(ps: seq<Packet>): int {
    if ps == [] then 0 else ps[|ps| - 1].receiveTime
  }

  /** A monotone clock that starts at zero. */
  predicate Clocked(ps: seq<Packet>) {
    ps == [] || (Clocked(ps[..|ps| - 1]) && Clock(ps[..|ps| - 1]) <= ps[|ps| - 1].receiveTime)
  }

  /** A monotone clock, and every packet admissible when it arrives. */
  predicate Legal(ps: seq<Packet>) {
    ps == [] ||
    var n := |ps| - 1;
    && Legal(ps[..n])
    && Run(ps[..n]).Some?
    && Clock(ps[..n]) <= ps[n].receiveTime
    && Admissible(Run(ps[..n]).value.state, ps[n])
  }

  /** The windows with packets, oldest first. */
  function Spans(x: Session): seq<Span> {
    x.reported
    + (if x.state.waiting.received == [] then [] else [SpanOf(x.state.waiting)])
    + (if x.state.inEffect.received == [] then [] else [SpanOf(x.state.inEffect)])
  }

  ghost predicate ValidSpan(w: Span) {
    |w.received| == w.largest - w.first + 1 && w.received != []
  }

  function Marks(w: Span): set<nat> {
    set i | 0 <= i < |w.received| && w.received[i] :: w.first + i
  }

  function Marked(ws: seq<Span>): set<nat> {
    if ws == [] then {} else Marked(ws[..|ws| - 1]) + Marks(ws[|ws| - 1])
  }

  function Received(ws: seq<Span>): nat {
    if ws == [] then 0 else Received(ws[..|ws| - 1]) + Count(ws[|ws| - 1].received, true)
  }

  /** The windows are disjoint and in order. */
  ghost predicate Ordered(ws: seq<Span>) {
    && (forall k | 0 <= k < |ws| :: ValidSpan(ws[k]))
    && (forall j, k | 0 <= j < k < |ws| :: ws[j].largest < ws[k].first)
  }

  ghost predicate Reported(w: Span, r: Report) {
    && r.received == Count(w.received, true) > 0
    && r.received + r.lost == w.largest - w.first + 1
    && r.end > r.start + RECEIVE_DURATION + MIN_WAIT
  }

  /** All of the account but the numbers. */
  ghost predicate Tallied(x: Session) {
    && Ordered(Spans(x))
    && (forall w | w in x.reported :: w.largest < x.state.inEffect.first)
    && |x.reported| == |x.reports|
    && (forall k | 0 <= k < |x.reports| :: Reported(x.reported[k], x.reports[k]))
  }

  /** And exactly the packets processed are marked. */
  ghost predicate Balanced(x: Session) {
    Tallied(x) && x.numbers == Marked(Spans(x))
  }

  lemma MarksStepwise(w: Span, n: nat)
    requires |w.received| == n + 1
    ensures Marks(w) == Marks(w.(received := w.received[..n])) + if w.received[n] then {w.first + n} else {}
    ensures w.first + n !in Marks(w.(received := w.received[..n]))
  {
    assert forall i | 0 <= i < n :: w.received[..n][i] == w.received[i];
  }

  lemma {:induction false} MarksAreCounted(w: Span)
    ensures |Marks(w)| == Count(w.received, true)
    decreases |w.received|
  {
    if w.received == [] {
    } else {
      var n := |w.received| - 1;
      MarksAreCounted(w.(received := w.received[..n]));
      MarksStepwise(w, n);
      hide Marks;
    }
  }

  lemma {:induction false} MarkedAreCounted(ws: seq<Span>)
    requires Ordered(ws)
    ensures |Marked(ws)| == Received(ws)
    ensures forall n | n in Marked(ws) :: ws != [] && n <= ws[|ws| - 1].largest
  {
    if ws == [] {
    } else {
      var n := |ws| - 1;
      MarkedAreCounted(ws[..n]);
      MarksAreCounted(ws[n]);
      assert Marked(ws[..n]) !! Marks(ws[n]);
    }
  }

  lemma {:induction false} MarkedAfterUpdate(ws: seq<Span>, k: nat, w: Span, n: nat)
    requires k < |ws| && Marks(w) == Marks(ws[k]) + {n}
    ensures Marked(ws[k := w]) == Marked(ws) + {n}
  {
    var last := |ws| - 1;
    if k < last {
      MarkedAfterUpdate(ws[..last], k, w, n);
      assert ws[k := w][..last] == ws[..last][k := w];
    } else {
      assert ws[k := w][..last] == ws[..last];
    }
  }

  lemma MarkAddsOne(w: Window, n: nat)
    requires w.first <= n && n - w.first < |w.received|
    ensures Marks(SpanOf(Mark(w, n - w.first))) == Marks(SpanOf(w)) + {n}
  {
    var marked := Mark(w, n - w.first);
    assert marked.received[n - w.first];
    forall i | 0 <= i < |w.received| && w.received[i]
      ensures w.first + i in Marks(SpanOf(marked))
    {
      assert marked.received[i];
    }
  }

  lemma ExtensionAddsOne(w: Window, p: Packet)
    requires ValidWindow(w) && w.largest < p.number
    ensures Marks(SpanOf(Extended(w, p))) == Marks(SpanOf(w)) + {p.number}
  {
    var x := Extended(w, p).received;
    assert x[p.number - w.first];
    assert forall i | 0 <= i < |w.received| :: x[i] == w.received[i];
    assert forall i | |w.received| <= i < p.number - w.first :: !x[i];
  }

  lemma MarksOfOne(n: nat)
    ensures Marks(Span(n, n, [true])) == {n}
  {
    var w := Span(n, n, [true]);
    assert w.received[0] && w.first + 0 in Marks(w);
  }

  lemma MarkedOfMore(ws: seq<Span>, w: Span)
    ensures Marked(ws + [w]) == Marked(ws) + Marks(w)
  {
    hide Marks;
    assert (ws + [w])[..|ws|] == ws;
  }

  lemma OneMoreIsOrdered(ws: seq<Span>, w: Span)
    requires Ordered(ws) && ValidSpan(w) && forall k | 0 <= k < |ws| :: ws[k].largest < w.first
    ensures Ordered(ws + [w])
  {
    hide ValidSpan;
  }

  lemma OpeningAddsOne(ws: seq<Span>, n: nat)
    requires Ordered(ws) && forall k | 0 <= k < |ws| :: ws[k].largest < n
    ensures Ordered(ws + [Span(n, n, [true])]) && Marked(ws + [Span(n, n, [true])]) == Marked(ws) + {n}
  {
    hide Marks, Marked, Ordered;
    MarksOfOne(n);
    MarkedOfMore(ws, Span(n, n, [true]));
    OneMoreIsOrdered(ws, Span(n, n, [true]));
  }

  lemma SameBoundsStayOrdered(ws: seq<Span>, k: nat, w: Span)
    requires Ordered(ws) && k < |ws| && |w.received| == |ws[k].received|
    requires w.first == ws[k].first && w.largest == ws[k].largest
    ensures Ordered(ws[k := w])
  {
  }

  lemma LateIsBalanced(x: Session, p: Packet, clock: int)
    requires Valid(x.state, clock) && Balanced(x) && IsLate(x.state, p) && Admissible(x.state, p)
    ensures Balanced(x.(state := x.state.(waiting := Waiting(x.state, p)), numbers := x.numbers + {p.number}))
  {
    var w, k, v := x.state.waiting, |x.reported|, Waiting(x.state, p);
    var y := x.(state := x.state.(waiting := v));
    assert v == Mark(w, p.number - w.first);
    MarkAddsOne(w, p.number);
    assert Spans(x)[k] == SpanOf(w);
    assert Spans(y) == Spans(x)[k := SpanOf(v)];
    MarkedAfterUpdate(Spans(x), k, SpanOf(v), p.number);
    SameBoundsStayOrdered(Spans(x), k, SpanOf(v));
    hide Spans, Marked, Ordered, Marks, Valid;
  }

  lemma ReportIsBalanced(x: Session, now: int, clock: int)
    requires Valid(x.state, clock) && Balanced(x) && IsDue(x.state.waiting, now)
    requires x.state.waiting.received != []
    ensures Balanced(x.(state := x.state.(waiting := EMPTY),
                        reported := x.reported + [SpanOf(x.state.waiting)],
                        reports := x.reports + [ReportOf(x.state.waiting, now)]))
  {
    CountsAddUp(x.state.waiting.received);
    var y := x.(state := x.state.(waiting := EMPTY), reported := x.reported + [SpanOf(x.state.waiting)],
                reports := x.reports + [ReportOf(x.state.waiting, now)]);
    assert Spans(y) == Spans(x);
  }

  lemma OpenedIsBalanced(x: Session, p: Packet, clock: int)
    requires Valid(x.state, clock) && Balanced(x) && !IsLate(x.state, p) && x.state.inEffect.received == []
    ensures Balanced(x.(state := x.state.(inEffect := Opened(p, x.state.inEffect.wait)), numbers := x.numbers + {p.number}))
  {
    var ws := Spans(x);
    var y := x.(state := x.state.(inEffect := Opened(p, x.state.inEffect.wait)));
    assert Spans(y) == ws + [Span(p.number, p.number, [true])];
    assert forall k | 0 <= k < |x.reported| :: ws[k] == x.reported[k];
    OpeningAddsOne(ws, p.number);
  }

  lemma ExtendedIsBalanced(x: Session, p: Packet)
    requires ValidWindow(x.state.inEffect) && Balanced(x) && p.number > x.state.inEffect.largest
    ensures Balanced(x.(state := x.state.(inEffect := Extended(x.state.inEffect, p)), numbers := x.numbers + {p.number}))
  {
    var w, v, ws := x.state.inEffect, Extended(x.state.inEffect, p), Spans(x);
    var y := x.(state := x.state.(inEffect := v));
    var k := |ws| - 1;
    assert ws[k] == SpanOf(w);
    assert Spans(y) == ws[k := SpanOf(v)];
    ExtensionAddsOne(w, p);
    MarkedAfterUpdate(ws, k, SpanOf(v), p.number);
    LastMayGrow(ws, SpanOf(v));
  }

  lemma LastMayGrow(ws: seq<Span>, w: Span)
    requires Ordered(ws) && ws != [] && ValidSpan(w) && w.first == ws[|ws| - 1].first
    ensures Ordered(ws[|ws| - 1 := w])
  {
  }

  lemma ClosingIsBalanced(x: Session, rtt: int)
    requires Balanced(x) && x.state.waiting == EMPTY && x.state.inEffect.received != []
    ensures var closed := x.state.inEffect.(wait := WaitDuration(rtt));
            Balanced(x.(state := State(0, EMPTY.(first := closed.largest + 1), closed)))
  {
    var closed := x.state.inEffect.(wait := WaitDuration(rtt));
    var y := x.(state := State(0, EMPTY.(first := closed.largest + 1), closed));
    assert Spans(y) == Spans(x);
    assert Spans(x)[|x.reported|] == SpanOf(x.state.inEffect);
    assert forall w | w in x.reported :: w.largest < closed.largest + 1 by {
      assert forall k | 0 <= k < |x.reported| :: Spans(x)[k] == x.reported[k];
    }
  }

  lemma RttIsIrrelevant(x: Session, rtt: int)
    requires Balanced(x)
    ensures Balanced(x.(state := x.state.(rtt := rtt)))
  {
    assert Spans(x.(state := x.state.(rtt := rtt))) == Spans(x);
  }

  /** The session after the packet's first half: marked if late, and reported if due. */
  function Prepared(x: Session, p: Packet): Session {
    var s := x.state.(waiting := Waiting(x.state, p));
    var numbers := if IsLate(x.state, p) then x.numbers + {p.number} else x.numbers;
    if IsDue(s.waiting, p.receiveTime)
    then Session(s.(waiting := EMPTY), x.reported + [SpanOf(s.waiting)],
                 x.reports + [ReportOf(s.waiting, p.receiveTime)], numbers)
    else Session(s, x.reported, x.reports, numbers)
  }

  lemma PreparedIsBalanced(x: Session, p: Packet, clock: int)
    requires Valid(x.state, clock) && clock <= p.receiveTime && Balanced(x) && Admissible(x.state, p)
    ensures Balanced(Prepared(x, p)) && Valid(Prepared(x, p).state, p.receiveTime)
    ensures var t := Prepared(x, p).state;
            t.waiting.received == [] || p.receiveTime <= t.waiting.firstTime + RECEIVE_DURATION + t.waiting.wait
  {
    var y := x;
    if IsLate(x.state, p) {
      LateIsBalanced(x, p, clock);
      y := x.(state := x.state.(waiting := Waiting(x.state, p)), numbers := x.numbers + {p.number});
    }
    if y.state.waiting.received != [] {
      WaitingIsMarked(x.state, p, clock);
      if IsDue(y.state.waiting, p.receiveTime) {
        ReportIsBalanced(y, p.receiveTime, clock);
      }
    }
  }

  /** The second half: the window in effect grows, and closes if it is old. */
  function Finished(x: Session, p: Packet): Session
    requires p.number > x.state.inEffect.largest
  {
    var v := Grown(x.state.inEffect, p);
    var rtt := SmoothedRtt(x.state.rtt, p.receiveTime - p.sendTime);
    var state :=
      if p.receiveTime > v.firstTime + RECEIVE_DURATION
      then State(0, EMPTY.(first := v.largest + 1), v.(wait := WaitDuration(rtt)))
      else State(rtt, v, x.state.waiting);
    Session(state, x.reported, x.reports, x.numbers + {p.number})
  }

  lemma FinishedIsStep(x: Session, p: Packet)
    requires !IsLate(x.state, p) && p.number > x.state.inEffect.largest
    requires p.receiveTime > Grown(x.state.inEffect, p).firstTime + RECEIVE_DURATION ==> x.state.waiting == EMPTY
    ensures UpdateEffectVector(x.state, p) == Ok(Finished(x, p).state, None)
  {
  }

  lemma FinishedIsBalanced(x: Session, p: Packet)
    requires Valid(x.state, p.receiveTime) && Balanced(x) && !IsLate(x.state, p) && p.number > x.state.inEffect.largest
    requires p.receiveTime > Grown(x.state.inEffect, p).firstTime + RECEIVE_DURATION ==> x.state.waiting == EMPTY
    ensures Balanced(Finished(x, p))
  {
    hide Balanced;
    var v, rtt := Grown(x.state.inEffect, p), SmoothedRtt(x.state.rtt, p.receiveTime - p.sendTime);
    if x.state.inEffect.received == [] {
      OpenedIsBalanced(x, p, p.receiveTime);
    } else {
      ExtendedIsBalanced(x, p);
    }
    var y := x.(state := x.state.(inEffect := v), numbers := x.numbers + {p.number});
    if p.receiveTime > v.firstTime + RECEIVE_DURATION {
      ClosingIsBalanced(y, rtt);
    } else {
      RttIsIrrelevant(y, rtt);
    }
  }

  lemma ClosingFindsNothingWaiting(s: State, p: Packet)
    requires Valid(s, p.receiveTime) && p.number > s.inEffect.largest
    requires s.waiting.received == [] || p.receiveTime <= s.waiting.firstTime + RECEIVE_DURATION + s.waiting.wait
    ensures p.receiveTime > Grown(s.inEffect, p).firstTime + RECEIVE_DURATION ==> s.waiting == EMPTY
  {
  }

  lemma NextIsPrepared(x: Session, p: Packet, clock: int)
    requires Valid(x.state, clock) && clock <= p.receiveTime && Admissible(x.state, p)
    ensures var w := Waiting(x.state, p);
            MaybeGenerateReport(x.state.(waiting := w), p.receiveTime) ==
            Ok(Prepared(x, p).state, if IsDue(w, p.receiveTime) then Some(ReportOf(w, p.receiveTime)) else None)
    ensures Prepared(x, p).state.inEffect == x.state.inEffect
    ensures !IsLate(x.state, p) ==> Waiting(x.state, p) == x.state.waiting
    ensures IsLate(x.state, p) ==> UpdateWaitVector(x.state, p) == Ok(x.state.(waiting := Waiting(x.state, p)), None)
  {
    if x.state.waiting.received != [] {
      WaitingIsMarked(x.state, p, clock);
    }
    GenerateIsSafe(x.state.(waiting := Waiting(x.state, p)), p.receiveTime, clock);
  }

  lemma NextLate(x: Session, p: Packet, clock: int)
    requires Valid(x.state, clock) && clock <= p.receiveTime && Admissible(x.state, p) && IsLate(x.state, p)
    ensures Next(x, p) == Some(Prepared(x, p))
  {
    NextIsPrepared(x, p, clock);
    assert x.reported + [] == x.reported && x.reports + [] == x.reports;
    hide Valid, Waiting, UpdateWaitVector, MaybeGenerateReport;
  }

  lemma NextNew(x: Session, p: Packet, clock: int)
    requires Valid(x.state, clock) && clock <= p.receiveTime && Admissible(x.state, p) && !IsLate(x.state, p)
    requires UpdateEffectVector(Prepared(x, p).state, p) == Ok(Finished(Prepared(x, p), p).state, None)
    ensures Next(x, p) == Some(Finished(Prepared(x, p), p))
  {
    NextIsPrepared(x, p, clock);
    assert x.reported + [] == x.reported && x.reports + [] == x.reports;
    assert x.state.(waiting := x.state.waiting) == x.state;
    hide Valid, Waiting, UpdateEffectVector, MaybeGenerateReport;
  }

  lemma NextIsBalanced(x: Session, p: Packet, clock: int)
    requires Valid(x.state, clock) && clock <= p.receiveTime && 0 <= p.receiveTime && Balanced(x) && Admissible(x.state, p)
    ensures Next(x, p).Some? && Balanced(Next(x, p).value) && Valid(Next(x, p).value.state, p.receiveTime)
  {
    hide Valid, Balanced, Waiting, Prepared, UpdateWaitVector, UpdateEffectVector, MaybeGenerateReport;
    StepIsSafe(x.state, p, clock);
    PreparedIsBalanced(x, p, clock);
    if IsLate(x.state, p) {
      NextLate(x, p, clock);
    } else {
      var y := Prepared(x, p);
      NextIsPrepared(x, p, clock);
      ClosingFindsNothingWaiting(y.state, p);
      FinishedIsBalanced(y, p);
      FinishedIsStep(y, p);
      NextNew(x, p, clock);
    }
  }

  /**
    On every legal run no step faults, and the windows - reported, waiting, in effect -
    are disjoint, in order, and mark exactly the packets processed.
   */
  lemma {:induction false} LegalRunsAreBalanced(ps: seq<Packet>)
    requires Legal(ps)
    ensures Clock(ps) >= 0 && Run(ps).Some?
    ensures Balanced(Run(ps).value) && Valid(Run(ps).value.state, Clock(ps))
  {
    if ps == [] {
    } else {
      var n := |ps| - 1;
      LegalRunsAreBalanced(ps[..n]);
      NextIsBalanced(Run(ps[..n]).value, ps[n], Clock(ps[..n]));
    }
  }

  // ----- Every run the program survives

  /** The number that a packet out of order inside the window in effect marks instead. */
  function Alias(s: State, p: Packet): int {
    s.waiting.first + (p.number - s.inEffect.first)
  }

  /** Admissible; or a repetition, whose alias had arrived as well. */
  predicate Harmless(x: Session, p: Packet) {
    Admissible(x.state, p) || (p.number in x.numbers && Alias(x.state, p) in x.numbers)
  }

  lemma AliasIsMarked(x: Session, p: Packet, clock: int)
    requires Valid(x.state, clock) && clock <= p.receiveTime && 0 <= p.receiveTime && Tallied(x)
    requires Next(x, p).Some? && !Admissible(x.state, p)
    ensures var y := Next(x, p).value;
            && Tallied(y) && y.numbers == x.numbers + {p.number}
            && Marked(Spans(y)) == Marked(Spans(x)) + {Alias(x.state, p)}
    ensures 0 <= Alias(x.state, p) < p.number
  {
    var w, k, y := x.state.waiting, |x.reported|, Next(x, p).value;
    FaultsExactlyWhen(x.state, p, clock);
    ReorderingMarksAnotherPacket(x.state, p, clock);
    var n := Alias(x.state, p);
    var v := Mark(w, n - w.first);
    NextReordered(x, p, clock);
    MarkAddsOne(w, n);
    assert Spans(x)[k] == SpanOf(w);
    assert Spans(y) == Spans(x)[k := SpanOf(v)];
    MarkedAfterUpdate(Spans(x), k, SpanOf(v), n);
    SameBoundsStayOrdered(Spans(x), k, SpanOf(v));
    hide Spans, Marked, Ordered, Marks;
  }

  lemma NextReordered(x: Session, p: Packet, clock: int)
    requires Valid(x.state, clock) && clock <= p.receiveTime && 0 <= p.receiveTime
    requires Next(x, p).Some? && x.state.inEffect.first <= p.number <= x.state.inEffect.largest
    ensures Next(x, p).value.reported == x.reported && Next(x, p).value.reports == x.reports
    ensures Next(x, p).value.numbers == x.numbers + {p.number}
  {
    if x.state.waiting.received != [] {
      WaitingIsMarked(x.state, p, clock);
    }
  }

  /** What a packet does to the account does not depend on the numbers processed. */
  lemma NumbersDoNotMatter(x: Session, p: Packet, numbers: set<nat>)
    ensures Next(x, p).Some? <==> Next(x.(numbers := numbers), p).Some?
    ensures Next(x, p).Some? ==>
              Next(x, p).value.(numbers := {}) == Next(x.(numbers := numbers), p).value.(numbers := {})
  {
    hide Step;
  }

  lemma TallyIgnoresNumbers(x: Session, numbers: set<nat>)
    ensures Spans(x.(numbers := numbers)) == Spans(x)
    ensures Tallied(x) <==> Tallied(x.(numbers := numbers))
  {
    assert Spans(x.(numbers := numbers)) == Spans(x);
  }

  lemma TallyIsKept(x: Session, p: Packet, clock: int)
    requires Valid(x.state, clock) && clock <= p.receiveTime && 0 <= p.receiveTime && Tallied(x) && Next(x, p).Some?
    ensures Tallied(Next(x, p).value) && Valid(Next(x, p).value.state, p.receiveTime)
  {
    SurvivingStepStaysValid(x.state, p, clock);
    if Admissible(x.state, p) {
      var y := x.(numbers := Marked(Spans(x)));
      TallyIgnoresNumbers(x, y.numbers);
      NextIsBalanced(y, p, clock);
      NumbersDoNotMatter(x, p, y.numbers);
      TallyIgnoresNumbers(Next(x, p).value, {});
      TallyIgnoresNumbers(Next(y, p).value, {});
      hide Tallied, Valid, Next, Spans, Marked;
    } else {
      AliasIsMarked(x, p, clock);
    }
  }

  /** A packet that the program takes keeps the balance if and only if it is harmless. */
  lemma BalanceIsKeptExactlyWhen(x: Session, p: Packet, clock: int)
    requires Valid(x.state, clock) && clock <= p.receiveTime && 0 <= p.receiveTime && Balanced(x) && Next(x, p).Some?
    ensures Balanced(Next(x, p).value) <==> Harmless(x, p)
  {
    if Admissible(x.state, p) {
      NextIsBalanced(x, p, clock);
    } else {
      AliasIsMarked(x, p, clock);
      hide Tallied, Valid, Next, Spans, Marked, Admissible, Alias;
      SameAdditions(x.numbers, p.number, Alias(x.state, p));
    }
  }

  lemma SameAdditions(ns: set<nat>, a: nat, b: nat)
    requires a != b
    ensures ns + {a} == ns + {b} <==> a in ns && b in ns
  {
    assert a in ns + {a} && b in ns + {b};
  }

  /** Every run with a monotone clock that has not faulted is valid, and its reports add up. */
  lemma {:induction false} SurvivingRunIsTallied(ps: seq<Packet>)
    requires Clocked(ps) && Run(ps).Some?
    ensures Clock(ps) >= 0 && Valid(Run(ps).value.state, Clock(ps)) && Tallied(Run(ps).value)
  {
    if ps == [] {
    } else {
      hide Valid, Tallied, Next;
      var n := |ps| - 1;
      SurvivingRunIsTallied(ps[..n]);
      TallyIsKept(Run(ps[..n]).value, ps[n], Clock(ps[..n]));
    }
  }

  /** On every run: the packet that ends it is one that breaks an assertion or a bound, and any such does. */
  lemma RunFaultsExactlyWhen(ps: seq<Packet>, p: Packet)
    requires Clocked(ps + [p]) && Run(ps).Some?
    ensures Run(ps + [p]).None? <==> Breaks(Run(ps).value.state, p)
  {
    assert (ps + [p])[..|ps|] == ps;
    SurvivingRunIsTallied(ps);
    FaultsExactlyWhen(Run(ps).value.state, p, Clock(ps));
    hide Valid, Tallied, Breaks;
  }

  predicate AllHarmless(ps: seq<Packet>) {
    ps == [] ||
    var n := |ps| - 1;
    AllHarmless(ps[..n]) && Run(ps[..n]).Some? && Harmless(Run(ps[..n]).value, ps[n])
  }

  ghost predicate AlwaysBalanced(ps: seq<Packet>) {
    && Run(ps).Some? && Balanced(Run(ps).value)
    && (ps == [] || AlwaysBalanced(ps[..|ps| - 1]))
  }

  /**
    On every run that has not faulted the windows marked exactly the packets processed,
    all along, if and only if every packet was harmless.
   */
  lemma {:induction false} AlwaysBalancedExactlyWhen(ps: seq<Packet>)
    requires Clocked(ps) && Run(ps).Some?
    ensures AlwaysBalanced(ps) <==> AllHarmless(ps)
  {
    if ps == [] {
      StartIsBalanced();
    } else {
      hide Valid, Balanced, Next, Harmless;
      var n := |ps| - 1;
      AlwaysBalancedExactlyWhen(ps[..n]);
      SurvivingRunIsTallied(ps[..n]);
      if Balanced(Run(ps[..n]).value) {
        BalanceIsKeptExactlyWhen(Run(ps[..n]).value, ps[n], Clock(ps[..n]));
      } else {
        NotAlways(ps[..n]);
      }
    }
  }

  lemma NotAlways(ps: seq<Packet>)
    requires Run(ps).Some? && !Balanced(Run(ps).value)
    ensures !AlwaysBalanced(ps)
  {
    hide Balanced;
  }

  lemma StartIsBalanced()
    ensures Balanced(START)
  {
  }

  /** Conservation: reported counts and pending marks add up to the packets processed. */
  lemma ReportsAddUp(ps: seq<Packet>)
    requires Clocked(ps) && Run(ps).Some? && AllHarmless(ps)
    ensures var x := Run(ps).value;
            |x.numbers| == Received(Spans(x))
    ensures forall n :: n in Run(ps).value.numbers <==> exists p | p in ps :: p.number == n
  {
    AlwaysBalancedExactlyWhen(ps);
    MarkedAreCounted(Spans(Run(ps).value));
    NumbersAreProcessed(ps);
    hide Clocked, AllHarmless, Spans, Marked, Ordered;
  }

  lemma {:induction false} NumbersAreProcessed(ps: seq<Packet>)
    requires Run(ps).Some?
    ensures Run(ps).value.numbers == set p | p in ps :: p.number
  {
    if ps == [] {
    } else {
      var n := |ps| - 1;
      NumbersAreProcessed(ps[..n]);
      assert forall p :: p in ps <==> p in ps[..n] || p == ps[n];
    }
  }
}

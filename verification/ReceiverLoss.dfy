/**
  The receiver's loss collection. Two receive windows take turns: one is in effect and
  grows, the other waits for late packets until it is reported and emptied. Where the
  program asserts, or writes outside a vector, a step of the model is a `Fault`.
 */
module ReceiverLoss {
  import opened Units

  const RECEIVE_DURATION := 200 * MILLISECOND
  const MIN_WAIT := 100 * MILLISECOND
  const MAX_WAIT := RECEIVE_DURATION - 10 * MILLISECOND

  datatype Packet = Packet(number: nat, sendTime: int, receiveTime: int)

  datatype Report = Report(start: int, end: int, received: nat, lost: nat)

  datatype Window = Window(firstTime: int, largestTime: int, wait: int, first: nat, largest: nat, received: seq<bool>)

  const EMPTY := Window(0, 0, 0, 0, 0, [])

  datatype State = State(rtt: int, inEffect: Window, waiting: Window)

  const INITIAL := State(0, EMPTY, EMPTY)

  datatype Outcome = Ok(state: State, report: Option<Report>) | Fault

  function Count(marks: seq<bool>, mark: bool): nat {
    if marks == [] then 0 else Count(marks[..|marks| - 1], mark) + if marks[|marks| - 1] == mark then 1 else 0
  }

  function Repeat(n: nat): (r: seq<bool>)
    ensures |r| == n && forall i | 0 <= i < n :: !r[i]
  {
    seq(n, _ => false)
  }

  /** The exponentially weighted round-trip time; zero restarts it. */
  function SmoothedRtt(rtt: int, sample: int): int {
    if rtt == 0 then sample else Round(rtt as real * 0.875) + Round(sample as real * 0.125)
  }

  /** A zero round-trip time aside, seven parts of the old and one of the new, up to rounding. */
  lemma SmoothedRttIsAverage(rtt: int, sample: int)
    requires rtt != 0
    ensures -8 <= 8 * SmoothedRtt(rtt, sample) - (7 * rtt + sample) <= 8
  {
  }

  function WaitDuration(rtt: int): int {
    Max(Min(rtt, MAX_WAIT), MIN_WAIT)
  }

  function Mark(w: Window, index: nat): Window
    requires index < |w.received|
  {
    w.(received := w.received[index := true])
  }

  // ----- One packet

  function IsDue(w: Window, now: int): bool {
    now > w.firstTime + RECEIVE_DURATION + w.wait && Count(w.received, true) != 0
  }

  function ReportOf(w: Window, now: int): Report {
    Report(w.firstTime, now, Count(w.received, true), Count(w.received, false))
  }

  function MaybeGenerateReport(s: State, now: int): Outcome {
    if !IsDue(s.waiting, now) then Ok(s, None)
    else if s.inEffect.largestTime >= s.inEffect.firstTime + RECEIVE_DURATION then Fault
    else Ok(s.(waiting := EMPTY), Some(ReportOf(s.waiting, now)))
  }

  function UpdateWaitVector(s: State, p: Packet): Outcome {
    if s.waiting.first <= p.number < s.waiting.largest && p.number - s.waiting.first < |s.waiting.received|
    then Ok(s.(waiting := Mark(s.waiting, p.number - s.waiting.first)), None)
    else Fault
  }

  function Opened(p: Packet, wait: int): Window {
    Window(p.receiveTime, p.receiveTime, wait, p.number, p.number, [true])
  }

  function Extended(w: Window, p: Packet): Window
    requires w.largest < p.number
  {
    w.(received := w.received + Repeat(p.number - w.largest - 1) + [true], largest := p.number, largestTime := p.receiveTime)
  }

  /** The window in effect after a packet above its largest number. */
  function Grown(w: Window, p: Packet): Window
    requires p.number > w.largest
  {
    if w.received == [] then Opened(p, w.wait) else Extended(w, p)
  }

  function OnReceiveDurationEnd(s: State): Outcome {
    if s.waiting.received != [] then Fault
    else
      var closed := s.inEffect.(wait := WaitDuration(s.rtt));
      Ok(State(0, s.waiting.(first := closed.largest + 1), closed), None)
  }

  /** The number is not below the window: marked there, and the window closed if it is old. */
  function UpdateEffectVector(s: State, p: Packet): Outcome
    requires s.inEffect.first <= p.number
  {
    var t :=
      if p.number > s.inEffect.largest then
        Some(s.(inEffect := Grown(s.inEffect, p)))
      else if p.number - s.inEffect.first < |s.waiting.received| then
        Some(s.(waiting := Mark(s.waiting, p.number - s.inEffect.first)))
      else None;
    if t.None? then Fault else
    var u := t.value.(rtt := SmoothedRtt(s.rtt, p.receiveTime - p.sendTime));
    if p.receiveTime > u.inEffect.firstTime + RECEIVE_DURATION then OnReceiveDurationEnd(u) else Ok(u, None)
  }

  function Step(s: State, p: Packet): Outcome {
    if p.number < s.inEffect.first then
      var late := UpdateWaitVector(s, p);
      if late.Fault? then Fault else MaybeGenerateReport(late.state, p.receiveTime)
    else
      var reported := MaybeGenerateReport(s, p.receiveTime);
      if reported.Fault? then Fault else
      var updated := UpdateEffectVector(reported.state, p);
      if updated.Fault? then Fault else Ok(updated.state, reported.report)
  }

  // ----- What every run keeps

  ghost predicate ValidWindow(w: Window) {
    w.received != [] && |w.received| == w.largest - w.first + 1 && w.received[0]
  }

  ghost predicate ValidInEffect(w: Window, clock: int) {
    && (if w.received == [] then w.largest == 0 && w.firstTime == w.largestTime == 0
        else ValidWindow(w) && 0 <= w.firstTime <= w.largestTime <= clock)
    && w.largestTime <= w.firstTime + RECEIVE_DURATION
  }

  /** The timing argument: nothing in effect is received after the waiting window is due. */
  ghost predicate Valid(s: State, clock: int) {
    && ValidInEffect(s.inEffect, clock)
    && (if s.waiting.received == [] then s.waiting == EMPTY else ValidWindow(s.waiting))
    && (s.waiting.received != [] ==>
          && MIN_WAIT <= s.waiting.wait <= MAX_WAIT
          && 0 <= s.waiting.firstTime
          && s.waiting.firstTime + RECEIVE_DURATION < clock
          && s.waiting.largest < s.inEffect.first
          && (s.inEffect.received != [] ==>
                && s.waiting.firstTime + RECEIVE_DURATION < s.inEffect.firstTime
                && s.inEffect.largestTime <= s.waiting.firstTime + RECEIVE_DURATION + s.waiting.wait))
  }

  predicate IsLate(s: State, p: Packet) {
    p.number < s.inEffect.first
  }

  /** A late packet belongs to the waiting window, and any other is new. */
  predicate Admissible(s: State, p: Packet) {
    if IsLate(s, p) then s.waiting.first <= p.number < s.waiting.largest else p.number > s.inEffect.largest
  }

  lemma {:induction false} MarkedCounts(marks: seq<bool>, i: nat)
    requires i < |marks| && marks[i]
    ensures Count(marks, true) > 0
  {
    var n := |marks| - 1;
    if i < n {
      MarkedCounts(marks[..n], i);
    }
  }

  lemma {:induction false} CountsAddUp(marks: seq<bool>)
    ensures Count(marks, true) + Count(marks, false) == |marks|
  {
    if marks == [] {
    } else {
      CountsAddUp(marks[..|marks| - 1]);
    }
  }

  /** The waiting window as it is when the step decides whether to report it. */
  function Waiting(s: State, p: Packet): Window
  {
    if IsLate(s, p) && s.waiting.first <= p.number && p.number - s.waiting.first < |s.waiting.received|
    then Mark(s.waiting, p.number - s.waiting.first) else s.waiting
  }

  lemma WaitingIsMarked(s: State, p: Packet, clock: int)
    requires Valid(s, clock) && s.waiting.received != []
    ensures ValidWindow(Waiting(s, p)) && Count(Waiting(s, p).received, true) > 0
  {
    MarkedCounts(Waiting(s, p).received, 0);
  }

  lemma GenerateIsSafe(s: State, now: int, clock: int)
    requires Valid(s, clock) && clock <= now && (s.waiting.received != [] ==> Count(s.waiting.received, true) > 0)
    ensures MaybeGenerateReport(s, now).Ok?
    ensures var t := MaybeGenerateReport(s, now).state;
            && Valid(t, now) && t.inEffect == s.inEffect && t.rtt == s.rtt
            && (t.waiting == s.waiting || t.waiting == EMPTY)
            && (t.waiting.received == [] || now <= t.waiting.firstTime + RECEIVE_DURATION + t.waiting.wait)
  {
  }

  lemma EffectIsSafe(s: State, p: Packet)
    requires Valid(s, p.receiveTime) && 0 <= p.receiveTime && !IsLate(s, p) && p.number > s.inEffect.largest
    requires s.waiting.received == [] || p.receiveTime <= s.waiting.firstTime + RECEIVE_DURATION + s.waiting.wait
    ensures UpdateEffectVector(s, p).Ok? && Valid(UpdateEffectVector(s, p).state, p.receiveTime)
  {
  }

  /**
    No assertion fails and no write is out of bounds: a waiting window is reported
    before the window in effect closes.
   */
  lemma StepIsSafe(s: State, p: Packet, clock: int)
    requires Valid(s, clock) && clock <= p.receiveTime && 0 <= p.receiveTime && Admissible(s, p)
    ensures Step(s, p).Ok? && Valid(Step(s, p).state, p.receiveTime)
  {
    if s.waiting.received != [] {
      WaitingIsMarked(s, p, clock);
    }
    GenerateIsSafe(s.(waiting := Waiting(s, p)), p.receiveTime, clock);
    if !IsLate(s, p) {
      EffectIsSafe(MaybeGenerateReport(s, p.receiveTime).state, p);
    }
  }

  /** No window waits longer than 390 ms: the next packet after that reports it. */
  lemma WaitingIsReportedInTime(s: State, p: Packet, clock: int)
    requires Valid(s, clock) && clock <= p.receiveTime && 0 <= p.receiveTime && Admissible(s, p)
    requires s.waiting.received != [] && p.receiveTime > s.waiting.firstTime + RECEIVE_DURATION + MAX_WAIT
    ensures Step(s, p).Ok? && Step(s, p).report == Some(ReportOf(Waiting(s, p), p.receiveTime))
  {
    StepIsSafe(s, p, clock);
    WaitingIsMarked(s, p, clock);
    GenerateIsSafe(s.(waiting := Waiting(s, p)), p.receiveTime, clock);
  }

  /** A late packet outside the waiting window, or one out of order whose mark finds no place there. */
  predicate Breaks(s: State, p: Packet) {
    if IsLate(s, p) then !(s.waiting.first <= p.number < s.waiting.largest)
    else
      && p.number <= s.inEffect.largest
      && p.number - s.inEffect.first >= if IsDue(s.waiting, p.receiveTime) then 0 else |s.waiting.received|
  }

  /** The packets the program cannot take. */
  lemma FaultsExactlyWhen(s: State, p: Packet, clock: int)
    requires Valid(s, clock) && clock <= p.receiveTime && 0 <= p.receiveTime
    ensures Step(s, p).Fault? <==> Breaks(s, p)
  {
    if Admissible(s, p) {
      StepIsSafe(s, p, clock);
    } else if !IsLate(s, p) {
      if s.waiting.received != [] {
        WaitingIsMarked(s, p, clock);
      }
      GenerateIsSafe(s, p.receiveTime, clock);
    }
  }

  /**
    A packet that arrives out of order inside the window in effect is never recorded as
    received; if the step survives, it marks another number, in the waiting window.
   */
  lemma ReorderingMarksAnotherPacket(s: State, p: Packet, clock: int)
    requires Valid(s, clock) && clock <= p.receiveTime && 0 <= p.receiveTime
    requires s.inEffect.first <= p.number <= s.inEffect.largest && Step(s, p).Ok?
    ensures Step(s, p).state.inEffect == s.inEffect
    ensures p.number - s.inEffect.first < |s.waiting.received|
    ensures Step(s, p).state.waiting == Mark(s.waiting, p.number - s.inEffect.first)
  {
    if s.waiting.received != [] {
      WaitingIsMarked(s, p, clock);
    }
    GenerateIsSafe(s, p.receiveTime, clock);
  }

  /** Every packet the program takes, admissible or not, keeps the invariant. */
  lemma SurvivingStepStaysValid(s: State, p: Packet, clock: int)
    requires Valid(s, clock) && clock <= p.receiveTime && 0 <= p.receiveTime && Step(s, p).Ok?
    ensures Valid(Step(s, p).state, p.receiveTime)
  {
    if Admissible(s, p) {
      StepIsSafe(s, p, clock);
    } else if !IsLate(s, p) {
      ReorderingMarksAnotherPacket(s, p, clock);
      hide Step;
    }
  }

  /**
    A single swap is enough for a late packet to fail the assertion: 3 and 4 around the
    end of a window, while 1 and 2 wait.
   */
  lemma LatePacketFaults()
    ensures var waiting := Window(10, 250_000, MIN_WAIT, 1, 2, [true, true]);
            var a := State(10, Window(10, 10, 0, 1, 1, [true]), EMPTY);
            var b := State(0, EMPTY.(first := 3), waiting);
            var c := State(10, Window(260_000, 260_000, 0, 4, 4, [true]), waiting);
            && Step(INITIAL, Packet(1, 0, 10)) == Ok(a, None)
            && Step(a, Packet(2, 249_990, 250_000)) == Ok(b, None)
            && Step(b, Packet(4, 259_990, 260_000)) == Ok(c, None)
            && Step(c, Packet(3, 259_980, 270_000)) == Fault
  {
    assert [true] + Repeat(0) + [true] == [true, true];
  }

  /** Already the third packet of a stream can write outside the empty waiting window. */
  lemma ReorderingFaults()
    ensures var s := Step(Step(INITIAL, Packet(1, 0, 10)).state, Packet(3, 0, 20)).state;
            Step(s, Packet(2, 0, 30)).Fault?
  {
  }

  // ----- When windows are reported and closed

  /**
    A packet that the program takes yields a report exactly if a window waits and its 200 ms
    and its waiting time are over; the report has its times and its counts.
   */
  lemma ReportsExactlyWhen(s: State, p: Packet, clock: int)
    requires Valid(s, clock) && clock <= p.receiveTime && 0 <= p.receiveTime && Step(s, p).Ok?
    ensures var w, r := Waiting(s, p), Step(s, p);
            && (r.report.Some? <==>
                  s.waiting.received != [] && p.receiveTime > s.waiting.firstTime + 200_000 + s.waiting.wait)
            && (r.report.Some? ==>
                  r.report.value == Report(w.firstTime, p.receiveTime, Count(w.received, true), Count(w.received, false)))
  {
    if s.waiting.received != [] {
      WaitingIsMarked(s, p, clock);
    }
    FaultsExactlyWhen(s, p, clock);
  }

  /**
    An admissible packet that is not late closes the window in effect exactly if it comes
    more than 200 ms after the first of that window; the window then waits for the smoothed
    round-trip time, but at least 100 and at most 190 ms, and the next one starts above it.
   */
  lemma ClosesExactlyWhen(s: State, p: Packet, clock: int)
    requires Valid(s, clock) && clock <= p.receiveTime && 0 <= p.receiveTime && Admissible(s, p) && !IsLate(s, p)
    ensures Step(s, p).Ok?
    ensures var t, opens := Step(s, p).state, s.inEffect.received == [];
            var start := if opens then p.receiveTime else s.inEffect.firstTime;
            var rtt := SmoothedRtt(s.rtt, p.receiveTime - p.sendTime);
            var w := if p.receiveTime > start + 200_000 then t.waiting else t.inEffect;
            && w.first == (if opens then p.number else s.inEffect.first) && w.largest == p.number
            && w.firstTime == start && w.largestTime == p.receiveTime
            && (if p.receiveTime > start + 200_000 then
                  && t.rtt == 0 && t.inEffect == EMPTY.(first := p.number + 1)
                  && t.waiting.wait == (if rtt < 100_000 then 100_000 else if rtt > 190_000 then 190_000 else rtt)
                else t.rtt == rtt && (t.waiting == s.waiting || (Step(s, p).report.Some? && t.waiting == EMPTY)))
  {
    StepIsSafe(s, p, clock);
    if s.waiting.received != [] {
      WaitingIsMarked(s, p, clock);
    }
    GenerateIsSafe(s, p.receiveTime, clock);
    hide SmoothedRtt;
  }

  // ----- The program's objects

  class ReceiveVector {
    var firstReceivedTime: int
    var largestReceivedTime: int
    var waitDuration: int
    var firstPacketNumber: nat
    var largestPacketNumber: nat
    var received: seq<bool>

    ghost function Abs(): Window
      reads this
    {
      Window(firstReceivedTime, largestReceivedTime, waitDuration, firstPacketNumber, largestPacketNumber, received)
    }

    constructor ()
      ensures Abs() == EMPTY
    {
      firstReceivedTime, largestReceivedTime, waitDuration := 0, 0, 0;
      firstPacketNumber, largestPacketNumber, received := 0, 0, [];
    }

    method Reset()
      modifies this
      ensures Abs() == EMPTY
    {
      received := [];
      firstReceivedTime, largestReceivedTime, waitDuration := 0, 0, 0;
      firstPacketNumber, largestPacketNumber := 0, 0;
    }
  }

  class ReceiverLossCollection {
    var smoothRtt: int
    var inEffect: ReceiveVector
    var waiting: ReceiveVector

    ghost predicate Distinct()
      reads this
    {
      inEffect != waiting
    }

    ghost function Abs(): State
      reads this, inEffect, waiting
    {
      State(smoothRtt, inEffect.Abs(), waiting.Abs())
    }

    constructor ()
      ensures Distinct() && Abs() == INITIAL
    {
      smoothRtt := 0;
      inEffect := new ReceiveVector();
      waiting := new ReceiveVector();
    }

    method UpdateWaiting(p: Packet)
      requires Distinct() && UpdateWaitVector(Abs(), p).Ok?
      modifies waiting
      ensures Abs() == UpdateWaitVector(old(Abs()), p).state
    {
      assert p.number < waiting.largestPacketNumber;
      var index := p.number - waiting.firstPacketNumber;
      waiting.received := waiting.received[index := true];
    }

    method GenerateReport(now: int) returns (report: Option<Report>)
      requires Distinct() && MaybeGenerateReport(Abs(), now).Ok?
      modifies waiting
      ensures Ok(Abs(), report) == MaybeGenerateReport(old(Abs()), now)
    {
      report := None;
      if now > waiting.firstReceivedTime + RECEIVE_DURATION + waiting.waitDuration {
        var received, lost := 0, 0;
        for i := 0 to |waiting.received|
          invariant received == Count(waiting.received[..i], true)
          invariant lost == Count(waiting.received[..i], false)
        {
          assert waiting.received[..i + 1][..i] == waiting.received[..i];
          if waiting.received[i] {
            received := received + 1;
          } else {
            lost := lost + 1;
          }
        }
        assert waiting.received[..|waiting.received|] == waiting.received;
        if received != 0 {
          report := Some(Report(waiting.firstReceivedTime, now, received, lost));
          assert inEffect.largestReceivedTime < inEffect.firstReceivedTime + RECEIVE_DURATION;
          waiting.Reset();
        }
      }
    }

    method UpdateSmoothRtt(p: Packet)
      modifies this`smoothRtt
      ensures smoothRtt == SmoothedRtt(old(smoothRtt), p.receiveTime - p.sendTime)
    {
      var sample := p.receiveTime - p.sendTime;
      if smoothRtt == 0 {
        smoothRtt := sample;
      } else {
        smoothRtt := Round(smoothRtt as real * 0.875) + Round(sample as real * 0.125);
      }
    }

    method EndReceiveDuration()
      requires Distinct() && OnReceiveDurationEnd(Abs()).Ok?
      modifies this, inEffect, waiting
      ensures inEffect == old(waiting) && waiting == old(inEffect)
      ensures Abs() == OnReceiveDurationEnd(old(Abs())).state
    {
      assert waiting.received == [];
      inEffect, waiting := waiting, inEffect;
      waiting.waitDuration := WaitDuration(smoothRtt);
      smoothRtt := 0;
      inEffect.firstPacketNumber := waiting.largestPacketNumber + 1;
      assert inEffect.received == [];
    }

    method UpdateEffect(p: Packet)
      requires Distinct() && inEffect.firstPacketNumber <= p.number && UpdateEffectVector(Abs(), p).Ok?
      modifies this, inEffect, waiting
      ensures Distinct() && {inEffect, waiting} == old({inEffect, waiting})
      ensures Abs() == UpdateEffectVector(old(Abs()), p).state
    {
      ghost var s := Abs();
      if p.number > inEffect.largestPacketNumber {
        if inEffect.received == [] {
          inEffect.received := [true];
          inEffect.firstReceivedTime := p.receiveTime;
          inEffect.largestReceivedTime := p.receiveTime;
          inEffect.firstPacketNumber := p.number;
          inEffect.largestPacketNumber := p.number;
        } else {
          ghost var before := inEffect.received;
          for gap := inEffect.largestPacketNumber + 1 to p.number
            modifies inEffect`received
            invariant inEffect.received == before + Repeat(gap - inEffect.largestPacketNumber - 1)
          {
            inEffect.received := inEffect.received + [false];
          }
          inEffect.received := inEffect.received + [true];
          inEffect.largestPacketNumber := p.number;
          inEffect.largestReceivedTime := p.receiveTime;
        }
        assert inEffect.Abs() == Grown(s.inEffect, p);
      } else {
        // The index is computed from one window and used in the other.
        var index := p.number - inEffect.firstPacketNumber;
        waiting.received := waiting.received[index := true];
      }
      UpdateSmoothRtt(p);
      if p.receiveTime > inEffect.firstReceivedTime + RECEIVE_DURATION {
        EndReceiveDuration();
      }
    }

    /** The asserts of the program hold wherever the step function does not fault. */
    method OnTransportPacketFeedback(p: Packet) returns (report: Option<Report>)
      requires Distinct() && Step(Abs(), p).Ok?
      modifies this, inEffect, waiting
      ensures Distinct() && {inEffect, waiting} == old({inEffect, waiting})
      ensures Ok(Abs(), report) == Step(old(Abs()), p)
    {
      if p.number < inEffect.firstPacketNumber {
        UpdateWaiting(p);
        report := GenerateReport(p.receiveTime);
      } else {
        report := GenerateReport(p.receiveTime);
        UpdateEffect(p);
      }
    }
  }
}

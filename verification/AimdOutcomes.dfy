/**
  What every update of the rate controller comes to, and how fast normal use raises the
  rate: with the program's numbers written out, and over runs.
 */
module AimdOutcomes {
  import opened Units
  import opened Algebra
  import opened LinkCapacity
  import opened NetworkState
  import opened Aimd

  // ----- One update

  /** Five seconds after the first throughput another one is the first estimate. */
  predicate StartsNow(s: State, throughput: Option<nat>, now: int) {
    !s.initialized && throughput.Some? && s.firstThroughput.Some? && now - s.firstThroughput.value > 5 * SECOND
  }

  /** The rate an update starts from. */
  function Base(s: State, throughput: Option<nat>, now: int): nat {
    if StartsNow(s, throughput, now) then throughput.value else s.rate
  }

  /** Half again the throughput, and 10 kbps. */
  function Ceiling(throughput: nat): int {
    Round(throughput as real * 1.5) + 10_000
  }

  /** 85 percent of the throughput; or of the capacity, if the former is no cut. */
  function Cut(s: State, rate: nat, throughput: nat): int {
    var cut := Round(throughput as real * 0.85);
    if cut > rate && s.capacity.estimate.Some? then Round(Truncate(s.capacity.estimate.value * 1000.0) as real * 0.85) else cut
  }

  /** A capacity that the throughput exceeds is forgotten. */
  function Surviving(m: Math, c: Capacity, throughput: nat): Capacity {
    var bound := UpperBound(m, c);
    if bound.Some? && throughput > bound.value then c.(estimate := None) else c
  }

  /**
    What normal use adds: eight percent a second of the rate, and at least 1000; or about
    one packet in a response time, if the capacity is known.
   */
  function Added(m: Math, rate: nat, rtt: nat, known: bool, elapsed: nat): int
    requires known ==> rate >= MIN_BITRATE
  {
    if known then NearMaxIncreaseRate(rate, rtt) * elapsed / 1_000_000
    else Max(1_000, Round(Times(rate as real, m.growth(MinReal(elapsed as real / 1_000_000.0, 1.0)) - 1.0)))
  }

  /** The packets of a frame of 1/30 s have at most 1200 bytes each, and are alike. */
  ghost predicate IsAveragePacket(rate: nat, frame: nat, packets: nat, packet: nat) {
    && 8_000_000 * frame <= rate * 33_333 + 4_000_000 < 8_000_000 * frame + 8_000_000
    && frame <= 1_200 * packets < frame + 1_200
    && 2 * Area(packet, packets) <= 2 * frame + packets && 2 * frame <= 2 * Area(packet, packets) + packets
  }

  function Area(a: nat, b: nat): int {
    a * b
  }

  lemma RoundedQuotient(frame: nat, packets: nat)
    requires packets > 0
    ensures var packet := Round(frame as real / packets as real);
            packet >= 0 && 2 * Area(packet, packets) <= 2 * frame + packets && 2 * frame <= 2 * Area(packet, packets) + packets
  {
    var x, n := frame as real / packets as real, packets as real;
    var packet := Round(x);
    assert x >= 0.0;
    QuotientTimes(frame as real, n);
    Distributes(packet as real, x, n);
    ErrorIsSmall(packet as real - x, n);
    AreaIsTimes(packet, packets);
    hide Round, Times, Area;
  }

  lemma AreaIsTimes(a: nat, b: nat)
    ensures Times(a as real, b as real) == Area(a, b) as real
  {
  }

  lemma ErrorIsSmall(e: real, n: real)
    requires -0.5 <= e <= 0.5 && n >= 0.0
    ensures -0.5 * n <= Times(e, n) <= 0.5 * n
  {
    Scale(e, 0.5, n);
    Scale(-0.5, e, n);
  }

  /** A packet of the average size, in every round-trip time and 100 ms; and at least 4 kbps. */
  lemma NearMaxIsPacket(rate: nat, rtt: nat) returns (frame: nat, packets: nat, packet: nat)
    requires rate >= MIN_BITRATE
    ensures IsAveragePacket(rate, frame, packets, packet)
    ensures NearMaxIncreaseRate(rate, rtt) == Max(4_000, packet * 8_000_000 / (rtt + 100_000))
  {
    frame := (rate * FRAME_INTERVAL + MICROBITS_PER_BYTE / 2) / MICROBITS_PER_BYTE;
    packets := (frame + PACKET_SIZE - 1) / PACKET_SIZE;
    FrameIsNotEmpty(rate);
    RoundedQuotient(frame, packets);
    packet := Round(frame as real / packets as real);
    hide Round, Area;
  }

  // ----- Each verdict

  function Raised(m: Math, s: State, rate: nat, throughput: nat, elapsed: nat): int
    requires s.capacity.estimate.Some? ==> rate >= MIN_BITRATE
  {
    if rate >= Ceiling(throughput) then Max(s.minRate, rate)
    else
      var known := Surviving(m, s.capacity, throughput).estimate.Some?;
      Max(s.minRate, Min(Ceiling(throughput), rate + Added(m, rate, s.rtt, known, elapsed)))
  }

  lemma IncreaseExactly(m: Math, s: State, throughput: nat, now: int)
    requires s.lastChange.Some? && s.lastChange.value <= now
    requires s.capacity.estimate.Some? ==> s.rate >= MIN_BITRATE
    ensures IncreaseRate(m, s, throughput, now) ==
            s.(rate := Raised(m, s, s.rate, throughput, now - s.lastChange.value),
               capacity := Surviving(m, s.capacity, throughput), lastChange := Some(now))
  {
    hide NearMaxIncreaseRate, Round, UpperBound, Times;
  }

  /** Half again the throughput, and 10 kbps, is where normal use stops; until then it adds what it should. */
  lemma NormalUseExactly(m: Math, s: State, q: Option<nat>, now: int)
    requires Valid(s) && Past(s, now) && (s.initialized || StartsNow(s, q, now))
    ensures var rate, throughput := Base(s, q, now), q.GetOr(s.latestThroughput);
            UpdateRate(m, s, Input(Normal, q), now) ==
            s.(rate := Raised(m, s, rate, throughput, if s.mode == Increase then now - s.lastChange.value else 0),
               latestThroughput := throughput, initialized := true, capacity := Surviving(m, s.capacity, throughput),
               mode := Increase, lastChange := Some(now))
  {
    hide IncreaseRate, Ceiling, Added, Surviving;
    var throughput := q.GetOr(s.latestThroughput);
    var t := Initialize(s, Input(Normal, q), now).(latestThroughput := throughput);
    IncreaseExactly(m, ChangeState(t, Normal, now), throughput, now);
  }

  lemma UnderuseExactly(m: Math, s: State, q: Option<nat>, now: int)
    requires Valid(s) && Past(s, now) && (s.initialized || StartsNow(s, q, now))
    ensures UpdateRate(m, s, Input(Underusing, q), now) ==
            s.(rate := Max(s.minRate, Base(s, q, now)), latestThroughput := q.GetOr(s.latestThroughput),
               initialized := true, mode := Hold)
  {
  }

  /** Overuse cuts at once, whether there was an estimate or not. */
  lemma OveruseExactly(m: Math, s: State, q: Option<nat>, now: int)
    requires Valid(s) && Past(s, now)
    ensures var rate, throughput := Base(s, q, now), q.GetOr(s.latestThroughput);
            var capacity := if throughput < LowerBound(m, s.capacity) then s.capacity.(estimate := None) else s.capacity;
            var t := UpdateRate(m, s, Input(Overusing, q), now);
            t == s.(rate := Max(s.minRate, Min(rate, Cut(s, rate, throughput))),
                    latestThroughput := throughput, initialized := true, capacity := Update(capacity, throughput, 0.05),
                    mode := Hold, lastChange := Some(now), lastDecrease := Some(now), firstThroughput := t.firstThroughput)
            && t.firstThroughput == if s.initialized || q.None? then s.firstThroughput else Some(s.firstThroughput.GetOr(now))
  {
    hide Round, Truncate, LowerBound, Update;
  }

  /** Before there is an estimate, and without overuse, throughputs are only remembered. */
  lemma WaitingExactly(m: Math, s: State, i: Input, now: int)
    requires Valid(s) && Past(s, now) && !s.initialized && !StartsNow(s, i.throughput, now) && i.usage != Overusing
    ensures UpdateRate(m, s, i, now) ==
            s.(latestThroughput := i.throughput.GetOr(s.latestThroughput),
               firstThroughput := if i.throughput.Some? then Some(s.firstThroughput.GetOr(now)) else s.firstThroughput)
  {
  }

  // ----- When there is an estimate

  /** The first time a throughput was measured. */
  function FirstMeasured(es: seq<Timed>): Option<int> {
    if es == [] then None else
    var n := |es| - 1;
    var before, e := FirstMeasured(es[..n]), es[n].event;
    if before.None? && e.Feedback? && e.input.throughput.Some? then Some(es[n].now) else before
  }

  /** A start rate, a cut, or a throughput five seconds after the first. */
  predicate GivesEstimate(es: seq<Timed>, e: Timed) {
    match e.event
    case Feedback(input) =>
      || input.usage == Overusing
      || (input.throughput.Some? && FirstMeasured(es).Some? && e.now - FirstMeasured(es).value > 5 * SECOND)
    case Halve => true
    case Constraints(start, _) => start.Some?
    case SetRtt(_) => false
  }

  predicate HasEstimate(es: seq<Timed>) {
    es != [] && (HasEstimate(es[..|es| - 1]) || GivesEstimate(es[..|es| - 1], es[|es| - 1]))
  }

  lemma StepInitializes(m: Math, s: State, es: seq<Timed>, e: Timed)
    requires Valid(s) && Past(s, e.now) && (!s.initialized ==> s.firstThroughput == FirstMeasured(es))
    ensures var t := Step(m, s, e);
            && (t.initialized <==> s.initialized || GivesEstimate(es, e))
            && (!t.initialized ==> t.firstThroughput == FirstMeasured(es + [e]))
  {
    assert (es + [e])[..|es|] == es;
    hide ThroughputLimit, AdditiveIncrease, MultiplicativeIncrease, UpperBound, LowerBound, Update, BackoffRate;
  }

  /** On every run from the start there is an estimate exactly if something gave one. */
  lemma {:induction false} InitializedExactlyWhen(m: Math, es: seq<Timed>, start: int)
    requires ValidMath(m) && Ordered(es, start)
    ensures var s := Aimd.Run(m, INITIAL, es, start);
            && (s.initialized <==> HasEstimate(es))
            && (!s.initialized ==> s.firstThroughput == FirstMeasured(es))
  {
    if es == [] {
    } else {
      hide Valid, Past, Step, Ordered, ValidMath, GivesEstimate;
      OrderedPrefix(es, start);
      var n := |es| - 1;
      assert es == es[..n] + [es[n]];
      InitializedExactlyWhen(m, es[..n], start);
      StepInitializes(m, Aimd.Run(m, INITIAL, es[..n], start), es[..n], es[n]);
    }
  }

  // ----- How fast normal use raises the rate

  /** A fact about 1.08 to the power of x. */
  ghost predicate GrowsByEightPercent(m: Math) {
    m.growth(1.0) == 1.08
  }

  /** Normal use at a throughput of at least `q`, more than a second after what came before. */
  ghost predicate IsNormal(e: Timed, q: nat, before: int) {
    && e.event.Feedback? && e.event.input.usage == Normal && before + SECOND <= e.now
    && (e.event.input.throughput.Some? ==> q <= e.event.input.throughput.value)
  }

  ghost predicate AllNormal(es: seq<Timed>, q: nat, start: int) {
    es == [] ||
    var n := |es| - 1;
    AllNormal(es[..n], q, start) && IsNormal(es[n], q, Clock(es[..n], start))
  }

  /** A second of growth, to the nearest bit per second. */
  function Grown(rate: nat): nat {
    rate + Max(1_000, Round(Times(rate as real, 0.08)))
  }

  function GrownBy(rate: nat, n: nat): nat {
    if n == 0 then rate else Grown(GrownBy(rate, n - 1))
  }

  /** Growing, with no capacity known. */
  ghost predicate Growing(s: State, q: nat, goal: int, now: int) {
    && s.initialized && s.mode == Increase && s.lastChange == Some(now) && s.capacity.estimate.None?
    && q <= s.latestThroughput && Min(Ceiling(q), goal) <= s.rate
  }

  lemma GrownIsMonotone(a: nat, b: nat)
    requires a <= b
    ensures a <= Grown(a) <= Grown(b)
  {
    RoundIsMonotone(a as real * 0.08, b as real * 0.08);
  }

  lemma CeilingIsMonotone(a: nat, b: nat)
    requires a <= b
    ensures Ceiling(a) <= Ceiling(b)
  {
    RoundIsMonotone(a as real * 1.5, b as real * 1.5);
  }

  lemma GrowthStep(m: Math, s: State, e: Timed, q: nat, goal: nat, before: int)
    requires Valid(s) && Past(s, e.now) && GrowsByEightPercent(m)
    requires Growing(s, q, goal, before) && IsNormal(e, q, before)
    ensures Growing(Step(m, s, e), q, Grown(goal), e.now)
  {
    var i := e.event.input;
    var throughput := i.throughput.GetOr(s.latestThroughput);
    NormalUseExactly(m, s, i.throughput, e.now);
    CeilingIsMonotone(q, throughput);
    GrownIsMonotone(Min(goal, s.rate), s.rate);
    assert 1.08 - 1.0 == 0.08;
    hide UpdateRate, Round, Times, Ceiling;
  }

  /**
    Normal feedback every second, with no capacity known, takes the rate to n growths of
    where it began, or to half again the throughput and 10 kbps.
   */
  lemma {:induction false} NormalUseGrows(m: Math, s: State, es: seq<Timed>, start: int, q: nat)
    requires ValidMath(m) && GrowsByEightPercent(m) && Valid(s) && Past(s, start) && Ordered(es, start)
    requires Growing(s, q, s.rate, start) && AllNormal(es, q, start)
    ensures Growing(Aimd.Run(m, s, es, start), q, GrownBy(s.rate, |es|), Clock(es, start))
  {
    if es == [] {
    } else {
      hide Valid, Past, Step, Ordered, ValidMath, Growing, IsNormal, Grown;
      OrderedPrefix(es, start);
      var n := |es| - 1;
      NormalUseGrows(m, s, es[..n], start, q);
      GrowthStep(m, Aimd.Run(m, s, es[..n], start), es[n], q, GrownBy(s.rate, n), Clock(es[..n], start));
    }
  }

  /** That is eight percent a time, but for 6.25 bits per second of rounding. */
  lemma {:induction false} GrowthIsGeometric(rate: nat, n: nat)
    ensures GrownBy(rate, n) as real - 6.25 >= Times(rate as real - 6.25, Power(1.08, n))
  {
    if n == 0 {
      Unit(rate as real - 6.25);
      Swap(rate as real - 6.25, 1.0);
    } else {
      GrowthIsGeometric(rate, n - 1);
      var r, p := rate as real - 6.25, Power(1.08, n - 1);
      assert Times(r, Times(1.08, p)) == 1.08 * Times(r, p);
    }
  }

  /** Together: 1.08^n of where it began, or the throughput limit. */
  lemma NormalUseReaches(m: Math, s: State, es: seq<Timed>, start: int, q: nat)
    requires ValidMath(m) && GrowsByEightPercent(m) && Valid(s) && Past(s, start) && Ordered(es, start)
    requires Growing(s, q, s.rate, start) && AllNormal(es, q, start)
    ensures Aimd.Run(m, s, es, start).rate as real >=
            MinReal(Ceiling(q) as real, Times(s.rate as real - 6.25, Power(1.08, |es|)) + 6.25)
  {
    hide Valid, Past, ValidMath, Ordered, AllNormal, Growing, Power, Times, GrownBy, Ceiling, Aimd.Run;
    NormalUseGrows(m, s, es, start, q);
    var r := Aimd.Run(m, s, es, start);
    GrowingIsAbove(r, q, GrownBy(s.rate, |es|), Clock(es, start));
    GrowthIsGeometric(s.rate, |es|);
    Reaches(r.rate, Ceiling(q), GrownBy(s.rate, |es|), Times(s.rate as real - 6.25, Power(1.08, |es|)));
  }

  lemma Reaches(rate: nat, ceiling: int, grown: nat, x: real)
    requires Min(ceiling, grown) <= rate && grown as real - 6.25 >= x
    ensures rate as real >= MinReal(ceiling as real, x + 6.25)
  {
  }

  lemma GrowingIsAbove(s: State, q: nat, goal: int, now: int)
    requires Growing(s, q, goal, now)
    ensures Min(Ceiling(q), goal) <= s.rate
  {
    hide Ceiling;
  }

  lemma AddedIsEnough(m: Math, rate: nat, rtt: nat, known: bool, elapsed: nat)
    requires rate >= MIN_BITRATE && elapsed >= SECOND
    ensures Added(m, rate, rtt, known, elapsed) >= if known then 4 * (elapsed / 1_000) else 1_000
    ensures Added(m, rate, rtt, known, elapsed) >= 1_000
  {
    hide Round, Times;
    var each := NearMaxIncreaseRate(rate, rtt);
    hide NearMaxIncreaseRate;
    assert each * elapsed >= 4_000 * elapsed by {
      AreaGrows(4_000, each, elapsed);
    }
  }

  lemma AreaGrows(a: nat, b: nat, c: nat)
    requires a <= b
    ensures a * c <= b * c
  {
  }

  /** Raising the rate, whether a capacity is known or not. */
  ghost predicate Creeping(s: State, q: nat, goal: int, now: int) {
    && s.initialized && s.mode == Increase && s.lastChange == Some(now)
    && q <= s.latestThroughput && Min(Ceiling(q), goal) <= s.rate
  }

  lemma CreepStep(m: Math, s: State, e: Timed, q: nat, goal: nat, before: int)
    requires Valid(s) && Past(s, e.now)
    requires Creeping(s, q, goal, before) && IsNormal(e, q, before)
    ensures Creeping(Step(m, s, e), q, goal + 1_000, e.now)
  {
    hide UpdateRate, Round, Times, Ceiling, Added, UpperBound;
    var i := e.event.input;
    var throughput := i.throughput.GetOr(s.latestThroughput);
    NormalUseExactly(m, s, i.throughput, e.now);
    CeilingIsMonotone(q, throughput);
    AddedIsEnough(m, s.rate, s.rtt, Surviving(m, s.capacity, throughput).estimate.Some?, e.now - before);
  }

  /** Normal feedback every second adds at least 1000 each time, up to the throughput limit, whatever is known. */
  lemma {:induction false} NormalUseCreeps(m: Math, s: State, es: seq<Timed>, start: int, q: nat)
    requires ValidMath(m) && Valid(s) && Past(s, start) && Ordered(es, start)
    requires Creeping(s, q, s.rate, start) && AllNormal(es, q, start)
    ensures Creeping(Aimd.Run(m, s, es, start), q, s.rate + 1_000 * |es|, Clock(es, start))
  {
    if es == [] {
    } else {
      hide Valid, Past, Step, Ordered, ValidMath, Creeping, IsNormal;
      OrderedPrefix(es, start);
      var n := |es| - 1;
      NormalUseCreeps(m, s, es[..n], start, q);
      CreepStep(m, Aimd.Run(m, s, es[..n], start), es[n], q, s.rate + 1_000 * n, Clock(es[..n], start));
    }
  }
}

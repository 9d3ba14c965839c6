/**
  The sender's gate: a packet leaves when the clock has passed the time computed at the
  previous one. The clock is read once for the check and once more for that time.
 */
module Pacer {
  import opened Units

  const INITIAL_PACING_RATE := 500_000
  const MIN_PACING_RATE := 100_000
  /** The bits of one packet, times the microseconds of a second. */
  const PACKET_MICROBITS := 1472 * 8 * SECOND

  datatype State = State(rate: nat, nextSend: int)

  const INITIAL := State(INITIAL_PACING_RATE, 0)

  function Interval(rate: nat): nat
    requires rate > 0
  {
    PACKET_MICROBITS / rate
  }

  datatype Event = Poll(check: int, later: int) | RateUpdate(target: nat)

  predicate Opens(s: State, e: Event) {
    e.Poll? && e.check > s.nextSend
  }

  function Step(s: State, e: Event): State
    requires s.rate > 0
  {
    match e
    case Poll(check, later) => if check > s.nextSend then s.(nextSend := later + Interval(s.rate)) else s
    case RateUpdate(target) => s.(rate := Max(target, MIN_PACING_RATE))
  }

  function Run(es: seq<Event>): (s: State)
    ensures s.rate >= MIN_PACING_RATE
  {
    if es == [] then INITIAL else Step(Run(es[..|es| - 1]), es[|es| - 1])
  }

  /** When a packet left, by the clock of the check, and at which rate. */
  datatype Departure = Departure(time: int, rate: nat)

  function Departures(es: seq<Event>): seq<Departure> {
    if es == [] then [] else
    var s, e := Run(es[..|es| - 1]), es[|es| - 1];
    Departures(es[..|es| - 1]) + if Opens(s, e) then [Departure(e.check, s.rate)] else []
  }

  /** The clock between the two reads of a poll does not go back. */
  ghost predicate Forward(es: seq<Event>) {
    forall e | e in es :: e.Poll? ==> e.check <= e.later
  }

  ghost predicate Spaced(ds: seq<Departure>) {
    && (forall d | d in ds :: d.rate >= MIN_PACING_RATE)
    && (forall k | 0 < k < |ds| :: ds[k].time > ds[k - 1].time + Interval(ds[k - 1].rate))
  }

  lemma OneMoreIsSpaced(ds: seq<Departure>, d: Departure)
    requires Spaced(ds) && d.rate >= MIN_PACING_RATE
    requires ds != [] ==> d.time > ds[|ds| - 1].time + Interval(ds[|ds| - 1].rate)
    ensures Spaced(ds + [d])
  {
    hide Interval;
    var all := ds + [d];
    forall k | 0 < k < |all|
      ensures all[k].time > all[k - 1].time + Interval(all[k - 1].rate)
    {
      assert all[k - 1] == ds[k - 1] && ds[k - 1] in ds;
    }
  }

  lemma {:induction false} DeparturesAreSpaced(es: seq<Event>)
    requires Forward(es)
    ensures var ds := Departures(es);
            && Spaced(ds)
            && (ds != [] ==> Run(es).nextSend >= ds[|ds| - 1].time + Interval(ds[|ds| - 1].rate))
  {
    hide Interval, Spaced;
    if es == [] {
      NothingIsSpaced();
    } else {
      var n := |es| - 1;
      assert es[n] in es;
      DeparturesAreSpaced(es[..n]);
      var s := Run(es[..n]);
      if Opens(s, es[n]) {
        OneMoreIsSpaced(Departures(es[..n]), Departure(es[n].check, s.rate));
      } else {
        assert Departures(es[..n]) + [] == Departures(es[..n]);
      }
    }
  }

  lemma NothingIsSpaced()
    ensures Spaced([])
  {
  }

  /** What a rate allows in some time, in microbits. */
  function Allowance(rate: nat, elapsed: int): int {
    rate * elapsed
  }

  lemma AllowanceAddsUp(rate: nat, a: int, b: int)
    ensures Allowance(rate, a + b) == Allowance(rate, a) + Allowance(rate, b)
  {
  }

  lemma AllowanceGrows(rate: nat, top: nat, a: nat, b: nat)
    requires rate <= top && a <= b
    ensures Allowance(rate, a) <= Allowance(top, b)
  {
    assert (top - rate) * a >= 0;
    assert top * (b - a) >= 0;
  }

  lemma Quotient(k: nat, rate: nat)
    requires rate > 0
    ensures Allowance(rate, k / rate) <= k < Allowance(rate, k / rate + 1)
  {
  }

  /** Truncation and the strict comparison together never exceed the rate. */
  lemma GapCoversPacket(rate: nat, top: nat, gap: int)
    requires 0 < rate <= top && gap > Interval(rate)
    ensures PACKET_MICROBITS < Allowance(top, gap)
  {
    hide Allowance;
    Quotient(PACKET_MICROBITS, rate);
    AllowanceGrows(rate, top, Interval(rate) + 1, gap);
  }

  lemma SpacedSplit(ds: seq<Departure>)
    requires Spaced(ds) && |ds| >= 2
    ensures var n := |ds| - 1;
            && Spaced(ds[..n]) && ds[n - 1] in ds && ds[n - 1].rate >= MIN_PACING_RATE
            && ds[n].time - ds[n - 1].time > Interval(ds[n - 1].rate)
  {
    hide Interval;
    assert ds[|ds| - 2] in ds;
  }

  /** Departures at rates of at most `top` never carry more than `top` allows. */
  lemma {:induction false} SpacedKeepsRate(ds: seq<Departure>, top: nat)
    requires Spaced(ds) && |ds| >= 2 && forall d | d in ds :: d.rate <= top
    ensures (|ds| - 1) * PACKET_MICROBITS < Allowance(top, ds[|ds| - 1].time - ds[0].time)
  {
    hide Allowance, Interval, Spaced;
    var n := |ds| - 1;
    SpacedSplit(ds);
    GapCoversPacket(ds[n - 1].rate, top, ds[n].time - ds[n - 1].time);
    if n == 1 {
    } else {
      SpacedKeepsRate(ds[..n], top);
      AllowanceAddsUp(top, ds[n - 1].time - ds[0].time, ds[n].time - ds[n - 1].time);
    }
  }

  /**
    On every run: n packets, sent at rates of at most `top`, take longer than n - 1 of
    them need at that rate.
   */
  lemma PacerKeepsRate(es: seq<Event>, top: nat)
    requires Forward(es) && |Departures(es)| >= 2 && forall d | d in Departures(es) :: d.rate <= top
    ensures var ds := Departures(es);
            (|ds| - 1) * PACKET_MICROBITS < Allowance(top, ds[|ds| - 1].time - ds[0].time)
  {
    DeparturesAreSpaced(es);
    SpacedKeepsRate(Departures(es), top);
  }

  lemma IntervalIsShort(rate: nat)
    requires rate >= MIN_PACING_RATE
    ensures Interval(rate) <= 117_760
  {
    hide Allowance;
    var k := PACKET_MICROBITS;
    Quotient(k, rate);
    Quotient(k, MIN_PACING_RATE);
    if k / MIN_PACING_RATE + 1 <= k / rate {
      AllowanceGrows(MIN_PACING_RATE, rate, k / MIN_PACING_RATE + 1, k / rate);
    }
  }

  /** The last target, but at least 100 kbps; 500 kbps before the first. */
  function LatestRate(es: seq<Event>): nat {
    if es == [] then 500_000 else
    match es[|es| - 1]
    case RateUpdate(target) => Max(target, 100_000)
    case Poll(_, _) => LatestRate(es[..|es| - 1])
  }

  lemma {:induction false} RateIsLatest(es: seq<Event>)
    ensures Run(es).rate == LatestRate(es)
  {
    hide Interval;
    if es == [] {
    } else {
      RateIsLatest(es[..|es| - 1]);
    }
  }

  // ----- And no slower

  /** Packets leave soon: at most `wait` after the gate opens, by a clock that is read twice in that time. */
  ghost predicate Prompt(es: seq<Event>, wait: nat) {
    es == [] ||
    var n := |es| - 1;
    && Prompt(es[..n], wait)
    && (Opens(Run(es[..n]), es[n]) ==>
          && es[n].later <= es[n].check + wait
          && (Departures(es[..n]) != [] ==> es[n].check <= Run(es[..n]).nextSend + wait))
  }

  ghost predicate Close(ds: seq<Departure>, wait: nat) {
    && (forall d | d in ds :: d.rate >= MIN_PACING_RATE)
    && (forall k | 0 < k < |ds| :: ds[k].time <= ds[k - 1].time + Interval(ds[k - 1].rate) + 2 * wait)
  }

  lemma OneMoreIsClose(ds: seq<Departure>, d: Departure, wait: nat)
    requires Close(ds, wait) && d.rate >= MIN_PACING_RATE
    requires ds != [] ==> d.time <= ds[|ds| - 1].time + Interval(ds[|ds| - 1].rate) + 2 * wait
    ensures Close(ds + [d], wait)
  {
    hide Interval;
    var all := ds + [d];
    forall k | 0 < k < |all|
      ensures all[k].time <= all[k - 1].time + Interval(all[k - 1].rate) + 2 * wait
    {
      assert all[k - 1] == ds[k - 1] && ds[k - 1] in ds;
    }
  }

  lemma {:induction false} PromptIsClose(es: seq<Event>, wait: nat)
    requires Prompt(es, wait)
    ensures Close(Departures(es), wait)
    ensures var ds := Departures(es);
            ds != [] ==>
              && ds[|ds| - 1].rate >= MIN_PACING_RATE
              && Run(es).nextSend <= ds[|ds| - 1].time + Interval(ds[|ds| - 1].rate) + wait
  {
    hide Interval, Close;
    if es == [] {
      NothingIsClose(wait);
    } else {
      var n := |es| - 1;
      PromptIsClose(es[..n], wait);
      var s, ds := Run(es[..n]), Departures(es[..n]);
      if Opens(s, es[n]) {
        OneMoreIsClose(ds, Departure(es[n].check, s.rate), wait);
      } else {
        assert ds + [] == ds;
      }
    }
  }

  lemma NothingIsClose(wait: nat)
    ensures Close([], wait)
  {
  }

  /** Truncation only shortens the interval. */
  lemma IntervalIsTruncated(rate: nat)
    requires rate > 0
    ensures Allowance(rate, Interval(rate)) <= 1472 * 8 * 1_000_000 < Allowance(rate, Interval(rate) + 1)
  {
    Quotient(PACKET_MICROBITS, rate);
  }

  lemma {:induction false} PromptKeepsUp(ds: seq<Departure>, low: nat, wait: nat)
    requires low > 0 && |ds| >= 1 && Close(ds, wait) && forall d | d in ds :: low <= d.rate
    ensures Allowance(low, ds[|ds| - 1].time - ds[0].time - 2 * wait * (|ds| - 1)) <= (|ds| - 1) * PACKET_MICROBITS
  {
    hide Allowance, Interval;
    var n := |ds| - 1;
    if n == 0 {
      AllowanceAddsUp(low, 0, 0);
    } else {
      PromptKeepsUp(ds[..n], low, wait);
      assert ds[n - 1] in ds;
      GapIsCovered(ds[n - 1].rate, low, ds[n].time - ds[n - 1].time - 2 * wait);
      AllowanceAddsUp(low, ds[n - 1].time - ds[0].time - 2 * wait * (n - 1), ds[n].time - ds[n - 1].time - 2 * wait);
      assert 2 * wait * n == 2 * wait * (n - 1) + 2 * wait;
    }
  }

  lemma GapIsCovered(rate: nat, low: nat, gap: int)
    requires 0 < low <= rate && gap <= Interval(rate)
    ensures Allowance(low, gap) <= PACKET_MICROBITS
  {
    Quotient(PACKET_MICROBITS, rate);
    if gap >= 0 {
      AllowanceGrows(low, rate, gap, Interval(rate));
    }
  }

  /**
    On every run: n packets, sent promptly at rates of at least `low`, take no longer than
    n - 1 of them need at that rate, but for twice the waiting time each.
   */
  lemma PacerKeepsUp(es: seq<Event>, low: nat, wait: nat)
    requires Prompt(es, wait) && low > 0 && Departures(es) != [] && forall d | d in Departures(es) :: low <= d.rate
    ensures var ds := Departures(es);
            Allowance(low, ds[|ds| - 1].time - ds[0].time - 2 * wait * (|ds| - 1)) <= (|ds| - 1) * PACKET_MICROBITS
  {
    PromptIsClose(es, wait);
    PromptKeepsUp(Departures(es), low, wait);
  }

  /** The last clock value used for a time to send, if any. */
  function LastSet(es: seq<Event>): Option<int> {
    if es == [] then None else
    var n := |es| - 1;
    if Opens(Run(es[..n]), es[n]) then Some(es[n].later) else LastSet(es[..n])
  }

  lemma {:induction false} NextSendIsSoon(es: seq<Event>)
    ensures Run(es).nextSend <= LastSet(es).GetOr(0) + 117_760
  {
    if es == [] {
    } else {
      var n := |es| - 1;
      NextSendIsSoon(es[..n]);
      IntervalIsShort(Run(es[..n]).rate);
    }
  }

  /** The gate is open again 117761 microseconds after the last packet, at the latest. */
  lemma GateReopens(es: seq<Event>, check: int, later: int)
    requires check >= LastSet(es).GetOr(0) + 117_761
    ensures Opens(Run(es), Poll(check, later))
  {
    NextSendIsSoon(es);
  }

  // ----- The program's object

  class Sender {
    var pacingRate: nat
    var nextSendTimestamp: int

    ghost function Abs(): State
      reads this
    {
      State(pacingRate, nextSendTimestamp)
    }

    constructor ()
      ensures Abs() == INITIAL
    {
      pacingRate, nextSendTimestamp := INITIAL_PACING_RATE, 0;
    }

    method SetNextSendTime(now: int)
      requires pacingRate > 0
      modifies this`nextSendTimestamp
      ensures nextSendTimestamp == now + Interval(pacingRate)
    {
      nextSendTimestamp := now + PACKET_MICROBITS / pacingRate;
    }

    /** `now` and `later` are the two clock reads. */
    method IsTimeToSendNextPacket(now: int, later: int) returns (sends: bool)
      requires pacingRate > 0
      modifies this`nextSendTimestamp
      ensures Abs() == Step(old(Abs()), Poll(now, later)) && sends == Opens(old(Abs()), Poll(now, later))
    {
      if now > nextSendTimestamp {
        SetNextSendTime(later);
        return true;
      }
      return false;
    }

    method OnRateChanged(target: nat)
      requires pacingRate > 0
      modifies this`pacingRate
      ensures Abs() == Step(old(Abs()), RateUpdate(target))
    {
      pacingRate := target;
      if pacingRate < MIN_PACING_RATE {
        pacingRate := MIN_PACING_RATE;
      }
    }
  }
}

/**
  The target rates sampled during the last second, kept as a monotone deque so that
  its front is their minimum. `Represents` ties the deque to the plain list of all
  samples taken since the history was last cleared.
 */
module MinHistory {

  datatype Sample = Sample(time: int, rate: int)

  /** One second, and one millisecond of slack because the history is that coarse. */
  const INCREASE_INTERVAL := 1_000_000
  const HISTORY_PRECISION := 1_000

  predicate Fresh(x: Sample, now: int): (r: bool)
    ensures r <==> now - x.time <= 999_000
  {
    now - x.time + HISTORY_PRECISION <= INCREASE_INTERVAL
  }

  function DropStale(h: seq<Sample>, now: int): seq<Sample> {
    if h != [] && !Fresh(h[0], now) then DropStale(h[1..], now) else h
  }

  function DropDominated(h: seq<Sample>, rate: int): seq<Sample> {
    if h != [] && rate <= h[|h| - 1].rate then DropDominated(h[..|h| - 1], rate) else h
  }

  function Push(h: seq<Sample>, now: int, rate: int): seq<Sample> {
    DropDominated(DropStale(h, now), rate) + [Sample(now, rate)]
  }

  ghost predicate TimeOrdered(log: seq<Sample>) {
    forall i, j | 0 <= i < j < |log| :: log[i].time <= log[j].time
  }

  ghost predicate Monotone(h: seq<Sample>) {
    forall i, j | 0 <= i < j < |h| :: h[i].time <= h[j].time && h[i].rate < h[j].rate
  }

  /** Some kept sample is no older than `x` and no larger. */
  ghost predicate Covered(x: Sample, h: seq<Sample>) {
    exists k | 0 <= k < |h| :: h[k].rate <= x.rate && x.time <= h[k].time
  }

  /** `h` is what the deque may hold at time `now` if `log` was sampled up to then. */
  ghost predicate Represents(h: seq<Sample>, log: seq<Sample>, now: int) {
    && Monotone(h)
    && TimeOrdered(log)
    && (forall x | x in log :: x.time <= now)
    && (forall x | x in h :: x in log)
    && (forall x | x in log && Fresh(x, now) :: Covered(x, h))
  }

  ghost predicate IsWindowMinimum(m: int, log: seq<Sample>, now: int) {
    && (exists x | x in log :: Fresh(x, now) && x.rate == m)
    && (forall x | x in log && Fresh(x, now) :: m <= x.rate)
  }

  lemma {:induction false} DropStaleIsSuffix(h: seq<Sample>, now: int) returns (k: nat)
    ensures k <= |h| && DropStale(h, now) == h[k..]
    ensures forall i | 0 <= i < k :: !Fresh(h[i], now)
    ensures k < |h| ==> Fresh(h[k], now)
  {
    k := 0;
    if h != [] && !Fresh(h[0], now) {
      var rest := h[1..];
      var j := DropStaleIsSuffix(rest, now);
      k := j + 1;
      assert forall i | 0 < i < |h| :: h[i] == rest[i - 1];
    }
  }

  lemma {:induction false} DropDominatedIsPrefix(h: seq<Sample>, rate: int) returns (k: nat)
    ensures k <= |h| && DropDominated(h, rate) == h[..k]
    ensures k > 0 ==> h[k - 1].rate < rate
    ensures forall i | k <= i < |h| :: rate <= h[i].rate
  {
    k := |h|;
    if h != [] && rate <= h[|h| - 1].rate {
      var rest := h[..|h| - 1];
      k := DropDominatedIsPrefix(rest, rate);
      assert forall i | 0 <= i < |h| - 1 :: h[i] == rest[i];
    }
  }

  ghost predicate RateOrdered(h: seq<Sample>) {
    forall i, j | 0 <= i < j < |h| :: h[i].rate < h[j].rate
  }

  /** In order of time, the deque forgets everything older than a second. */
  lemma PushForgets(h: seq<Sample>, now: int, rate: int)
    requires TimeOrdered(h) && forall x | x in h :: x.time <= now
    ensures TimeOrdered(Push(h, now, rate))
    ensures forall x | x in Push(h, now, rate) :: Fresh(x, now) || x == Sample(now, rate)
  {
    hide DropStale, DropDominated;
    var j := DropStaleIsSuffix(h, now);
    var recent := DropStale(h, now);
    var k := DropDominatedIsPrefix(recent, rate);
    assert forall i | 0 <= i < k :: Push(h, now, rate)[i] == recent[i] == h[j + i] && h[j].time <= h[j + i].time;
  }

  /** Whatever the clock does, the deque stays ordered and holds nothing new but the sample. */
  lemma PushStaysOrdered(h: seq<Sample>, now: int, rate: int)
    requires RateOrdered(h)
    ensures RateOrdered(Push(h, now, rate))
    ensures forall x | x in Push(h, now, rate) :: x == Sample(now, rate) || x in h
  {
    hide DropStale, DropDominated;
    var j := DropStaleIsSuffix(h, now);
    var recent := DropStale(h, now);
    var k := DropDominatedIsPrefix(recent, rate);
    assert forall i | 0 <= i < k :: Push(h, now, rate)[i] == h[j + i] && h[j + i].rate <= recent[k - 1].rate;
  }

  lemma CoveredAfterStale(x: Sample, h: seq<Sample>, k: nat, now: int)
    requires k <= |h| && Covered(x, h) && Fresh(x, now)
    requires forall i | 0 <= i < k :: !Fresh(h[i], now)
    ensures Covered(x, h[k..])
  {
    var i :| 0 <= i < |h| && h[i].rate <= x.rate && x.time <= h[i].time;
    assert h[k..][i - k] == h[i];
  }

  lemma DropStaleRepresents(h: seq<Sample>, log: seq<Sample>, last: int, now: int)
    requires Represents(h, log, last) && last <= now
    ensures Represents(DropStale(h, now), log, now)
    ensures forall x | x in DropStale(h, now) :: Fresh(x, now)
  {
    hide DropStale, DropDominated, Covered;
    var k := DropStaleIsSuffix(h, now);
    forall x | x in log && Fresh(x, now)
      ensures Covered(x, h[k..])
    {
      assert Fresh(x, last);
      CoveredAfterStale(x, h, k, now);
    }
    assert forall i | 0 <= i < |h| - k :: h[k..][i] == h[k + i] && h[k].time <= h[k + i].time;
  }

  lemma DropDominatedRepresents(h: seq<Sample>, log: seq<Sample>, now: int, rate: int)
    requires Represents(h, log, now)
    ensures Represents(DropDominated(h, rate) + [Sample(now, rate)], log + [Sample(now, rate)], now)
  {
    hide DropStale, DropDominated;
    var k := DropDominatedIsPrefix(h, rate);
    var kept := DropDominated(h, rate) + [Sample(now, rate)];
    assert forall i | 0 <= i < k :: kept[i] == h[i] && h[i].rate <= h[k - 1].rate;
    assert kept[k] == Sample(now, rate);
    forall x | x in log + [Sample(now, rate)] && Fresh(x, now)
      ensures Covered(x, kept)
    {
      if x in log {
        CoveredAfterDrop(x, h, kept, k);
      } else {
        assert kept[k] == x;
      }
    }
    assert forall x | x in kept :: x == Sample(now, rate) || x in h;
  }

  lemma CoveredAfterDrop(x: Sample, h: seq<Sample>, kept: seq<Sample>, k: nat)
    requires k <= |h| && |kept| == k + 1 && Covered(x, h) && x.time <= kept[k].time
    requires forall i | 0 <= i < k :: kept[i] == h[i]
    requires forall i | k <= i < |h| :: kept[k].rate <= h[i].rate
    ensures Covered(x, kept)
  {
    var i :| 0 <= i < |h| && h[i].rate <= x.rate && x.time <= h[i].time;
    assert kept[if i < k then i else k].rate <= x.rate;
  }

  /** Sampling keeps the representation, and afterwards the front is the minimum. */
  lemma PushRepresents(h: seq<Sample>, log: seq<Sample>, last: int, now: int, rate: int)
    requires Represents(h, log, last) && last <= now
    ensures Represents(Push(h, now, rate), log + [Sample(now, rate)], now)
    ensures IsWindowMinimum(Push(h, now, rate)[0].rate, log + [Sample(now, rate)], now)
  {
    hide DropStale, DropDominated;
    DropStaleRepresents(h, log, last, now);
    var recent, kept := DropStale(h, now), Push(h, now, rate);
    DropDominatedRepresents(recent, log, now, rate);
    var k := DropDominatedIsPrefix(recent, rate);
    assert kept[0] == if k == 0 then Sample(now, rate) else recent[0];
    FrontIsMinimum(kept, log + [Sample(now, rate)], now);
  }

  lemma FrontIsMinimum(h: seq<Sample>, log: seq<Sample>, now: int)
    requires Represents(h, log, now) && h != [] && Fresh(h[0], now)
    ensures IsWindowMinimum(h[0].rate, log, now)
  {
    forall x | x in log && Fresh(x, now)
      ensures h[0].rate <= x.rate
    {
      assert Covered(x, h);
    }
    assert h[0] in log;
  }

  /** The history after it is emptied, and after it is restarted from one sample. */
  lemma ClearedRepresents(x: Sample, now: int)
    requires x.time <= now
    ensures Represents([], [], now)
    ensures Represents([x], [x], now)
  {
    assert Covered(x, [x]) by { assert [x][0] == x; }
  }
}

/**
  Packets are collected into groups by send time (section 5.2 of
  draft-ietf-rmcat-gcc-02); closing a group yields its differences to the one before.
  The ledger keeps the packets themselves, so that the two groups the program remembers
  can be compared with what was sent.
 */
module InterArrival {
  import opened Units
  import opened Sequences

  const BURST_DELTA_THRESHOLD := 5 * MILLISECOND
  const MAX_BURST_DURATION := 100 * MILLISECOND
  const ARRIVAL_OFFSET_THRESHOLD := 3 * SECOND
  const REORDERED_RESET_THRESHOLD := 3

  datatype Packet = Packet(send: int, arrival: int, system: int, size: nat)

  datatype Group = Group(size: nat, firstSend: int, send: int, firstArrival: int, complete: int, system: int)

  datatype Delta = Delta(send: int, arrival: int, size: int)

  /** `length` is the send time a group may span. */
  datatype State = State(length: int, current: Option<Group>, previous: Option<Group>, reordered: nat)

  function Fresh(length: int): State {
    State(length, None, None, 0)
  }

  // ----- One packet

  function First(p: Packet): Group {
    Group(p.size, p.send, p.send, p.arrival, p.arrival, p.system)
  }

  function With(g: Group, p: Packet): Group {
    g.(size := g.size + p.size, send := Max(g.send, p.send), complete := p.arrival, system := p.system)
  }

  function Difference(g: Group, before: Group): Delta {
    Delta(g.send - before.send, g.complete - before.complete, g.size - before.size)
  }

  predicate BelongsToBurst(g: Group, p: Packet) {
    var arrivalDelta := p.arrival - g.complete;
    var sendDelta := p.send - g.send;
    sendDelta == 0 ||
    (arrivalDelta - sendDelta < 0 && arrivalDelta <= BURST_DELTA_THRESHOLD && p.arrival - g.firstArrival < MAX_BURST_DURATION)
  }

  predicate StartsNewGroup(length: int, g: Group, p: Packet) {
    !BelongsToBurst(g, p) && p.send - g.firstSend > length
  }

  datatype Action =
    | Begin          // the first packet since a reset
    | Ignore         // sent before the current group
    | Extend         // one more packet of the current group
    | Close          // a new group; the closed one is the first
    | Emit(delta: Delta)  // a new group, and the difference of the last two closed ones
    | Discard        // the closed group arrived before the one before it
    | Reset          // the clocks have jumped

  function Classify(s: State, p: Packet): Action {
    match s.current
    case None => Begin
    case Some(g) =>
      if g.firstSend > p.send then Ignore
      else if !StartsNewGroup(s.length, g, p) then Extend
      else
        match s.previous
        case None => Close
        case Some(before) =>
          var d := Difference(g, before);
          if d.arrival - (g.system - before.system) >= ARRIVAL_OFFSET_THRESHOLD then Reset
          else if d.arrival < 0 then (if s.reordered + 1 >= REORDERED_RESET_THRESHOLD then Reset else Discard)
          else Emit(d)
  }

  function Step(s: State, p: Packet): (r: State)
    ensures r.length == s.length
  {
    match Classify(s, p)
    case Begin => s.(current := Some(First(p)))
    case Ignore => s
    case Extend => s.(current := Some(With(s.current.value, p)))
    case Close => s.(current := Some(First(p)), previous := s.current)
    case Emit(_) => s.(current := Some(First(p)), previous := s.current, reordered := 0)
    case Discard => s.(reordered := s.reordered + 1)
    case Reset => Fresh(s.length)
  }

  // ----- The same, on lists of packets

  function Bytes(ps: seq<Packet>): nat {
    if ps == [] then 0 else Bytes(ps[..|ps| - 1]) + ps[|ps| - 1].size
  }

  function LatestSend(ps: seq<Packet>): (r: int)
    requires ps != []
    ensures forall p | p in ps :: p.send <= r
    ensures exists p | p in ps :: p.send == r
  {
    var n := |ps| - 1;
    if n == 0 then assert ps[0] in ps; ps[0].send
    else
      var before := LatestSend(ps[..n]);
      assert ps[n] in ps;
      Max(before, ps[n].send)
  }

  /** What a list of packets comes to as one group. */
  function Summary(ps: seq<Packet>): Group
    requires ps != []
  {
    var last := ps[|ps| - 1];
    Group(Bytes(ps), ps[0].send, LatestSend(ps), ps[0].arrival, last.arrival, last.system)
  }

  /** The packets taken since the last reset, as groups; the last one may still grow. */
  datatype Ledger = Ledger(closed: seq<seq<Packet>>, open: seq<Packet>, accepted: seq<Packet>, emitted: seq<Delta>)

  const NOTHING := Ledger([], [], [], [])

  function Record(l: Ledger, a: Action, p: Packet): Ledger {
    match a
    case Ignore | Discard => l
    case Begin => l.(open := [p], accepted := l.accepted + [p])
    case Extend => l.(open := l.open + [p], accepted := l.accepted + [p])
    case Close => l.(closed := l.closed + [l.open], open := [p], accepted := l.accepted + [p])
    case Emit(d) => l.(closed := l.closed + [l.open], open := [p], accepted := l.accepted + [p], emitted := l.emitted + [d])
    case Reset => NOTHING
  }

  function Run(length: int, ps: seq<Packet>): (r: (State, Ledger))
    ensures r.0.length == length
  {
    if ps == [] then (Fresh(length), NOTHING) else
    var n := |ps| - 1;
    var (s, l) := Run(length, ps[..n]);
    (Step(s, ps[n]), Record(l, Classify(s, ps[n]), ps[n]))
  }

  ghost predicate NonEmpty(gs: seq<seq<Packet>>) {
    forall k | 0 <= k < |gs| :: gs[k] != []
  }

  /** The two remembered groups are the open one and the last closed one. */
  ghost predicate Remembers(s: State, l: Ledger) {
    && s.current == (if l.open == [] then None else Some(Summary(l.open)))
    && NonEmpty(l.closed)
    && s.previous == (if l.closed == [] then None else Some(Summary(l.closed[|l.closed| - 1])))
    && (l.open == [] ==> l.closed == [])
    && s.reordered < REORDERED_RESET_THRESHOLD
  }

  /** All groups since the last reset, the open one last. */
  function Groups(l: Ledger): seq<seq<Packet>> {
    if l.open == [] then l.closed else l.closed + [l.open]
  }

  /** The grouping of a whole list of accepted packets, without the program's state. */
  function GroupsOf(length: int, ps: seq<Packet>): (gs: seq<seq<Packet>>)
    ensures NonEmpty(gs)
  {
    if ps == [] then [] else
    var n := |ps| - 1;
    var gs := GroupsOf(length, ps[..n]);
    var last := |gs| - 1;
    if gs == [] || StartsNewGroup(length, Summary(gs[last]), ps[n]) then gs + [[ps[n]]]
    else gs[last := gs[last] + [ps[n]]]
  }

  ghost predicate IsGroup(g: seq<Packet>) {
    g != [] && forall p | p in g :: g[0].send <= p.send
  }

  /** Consecutive groups that hold `accepted` and start more than `length` apart. */
  ghost predicate Partition(gs: seq<seq<Packet>>, accepted: seq<Packet>, length: int) {
    && Flatten(gs) == accepted
    && (forall k | 0 <= k < |gs| :: IsGroup(gs[k]))
    && (forall k | 0 < k < |gs| :: gs[k][0].send - gs[k - 1][0].send > length)
  }

  ghost predicate IsDifference(d: Delta, g: Group, before: Group) {
    d == Difference(g, before) && 0 <= d.arrival < g.system - before.system + ARRIVAL_OFFSET_THRESHOLD
  }

  /** One difference, with arrivals in order and no clock jump, for every two consecutive closed groups. */
  ghost predicate Differences(ds: seq<Delta>, closed: seq<seq<Packet>>) {
    && |ds| == Max(0, |closed| - 1)
    && NonEmpty(closed)
    && (forall k | 0 <= k < |ds| :: IsDifference(ds[k], Summary(closed[k + 1]), Summary(closed[k])))
  }

  ghost predicate Agrees(s: State, l: Ledger) {
    && Remembers(s, l)
    && Groups(l) == GroupsOf(s.length, l.accepted)
    && Partition(Groups(l), l.accepted, s.length)
    && Differences(l.emitted, l.closed)
  }

  lemma SummaryOfOne(p: Packet)
    ensures Summary([p]) == First(p)
  {
    assert [p][..0] == [] && Bytes([p]) == Bytes([p][..0]) + [p][0].size;
    assert [p][0] in [p] && LatestSend([p]) == [p][0].send;
  }

  lemma SummaryOfMore(ps: seq<Packet>, p: Packet)
    requires ps != []
    ensures Summary(ps + [p]) == With(Summary(ps), p)
  {
    var qs := ps + [p];
    assert qs[..|ps|] == ps && qs[|ps|] == p;
    assert LatestSend(qs) == Max(LatestSend(qs[..|ps|]), qs[|ps|].send);
  }

  lemma StepRemembers(s: State, l: Ledger, p: Packet)
    requires Remembers(s, l)
    ensures Remembers(Step(s, p), Record(l, Classify(s, p), p))
  {
    hide Summary, StartsNewGroup, Difference, First, With, NonEmpty;
    SummaryOfOne(p);
    match Classify(s, p)
    case Extend => SummaryOfMore(l.open, p);
    case Close => AppendNonEmpty(l.closed, l.open);
    case Emit(_) => AppendNonEmpty(l.closed, l.open);
    case Reset => NothingIsNonEmpty();
    case _ =>
  }

  lemma NothingIsNonEmpty()
    ensures NonEmpty([])
  {
  }

  lemma AppendNonEmpty(gs: seq<seq<Packet>>, g: seq<Packet>)
    requires NonEmpty(gs) && g != []
    ensures NonEmpty(gs + [g]) && (gs + [g])[|gs + [g]| - 1] == g
  {
  }

  lemma OneMoreGroup(gs: seq<seq<Packet>>, accepted: seq<Packet>, length: int, p: Packet)
    requires Partition(gs, accepted, length) && (gs != [] ==> p.send - gs[|gs| - 1][0].send > length)
    ensures Partition(gs + [[p]], accepted + [p], length)
  {
    assert (gs + [[p]])[..|gs|] == gs;
    assert IsGroup([p]);
  }

  lemma LastGroupGrows(gs: seq<seq<Packet>>, g: seq<Packet>, accepted: seq<Packet>, length: int, p: Packet)
    requires Partition(gs + [g], accepted, length) && g[0].send <= p.send
    ensures Partition(gs + [g + [p]], accepted + [p], length)
  {
    var before, after := gs + [g], gs + [g + [p]];
    assert before[..|gs|] == gs && after[..|gs|] == gs;
    assert before[|gs|] == g;
    assert forall k | 0 <= k < |gs| :: after[k] == before[k];
    assert Flatten(gs) + (g + [p]) == Flatten(gs) + g + [p];
    assert IsGroup(g + [p]);
  }

  /** What a step does to the list of groups. */
  lemma RecordedGroups(s: State, l: Ledger, p: Packet)
    requires Remembers(s, l)
    ensures var gs, hs := Groups(l), Groups(Record(l, Classify(s, p), p));
            match Classify(s, p)
            case Begin => gs == [] && hs == [[p]]
            case Close | Emit(_) => gs != [] && hs == gs + [[p]]
            case Extend => gs != [] && hs == gs[|gs| - 1 := gs[|gs| - 1] + [p]]
            case Ignore | Discard => hs == gs
            case Reset => hs == []
    ensures l.open != [] ==> Groups(l)[|Groups(l)| - 1] == l.open && s.current.value.firstSend == l.open[0].send
  {
    hide StartsNewGroup, NonEmpty;
  }

  lemma StepPartitions(s: State, l: Ledger, p: Packet)
    requires Remembers(s, l) && Partition(Groups(l), l.accepted, s.length)
    ensures var m := Record(l, Classify(s, p), p);
            Partition(Groups(m), m.accepted, s.length)
  {
    RecordedGroups(s, l, p);
    assert Partition([], [], s.length);
    assert l.open != [] ==> Groups(l) == l.closed + [l.open];
    hide Summary, Partition, Flatten, BelongsToBurst, NonEmpty;
    match Classify(s, p)
    case Begin => OneMoreGroup(Groups(l), l.accepted, s.length, p);
    case Close => OneMoreGroup(Groups(l), l.accepted, s.length, p);
    case Emit(_) => OneMoreGroup(Groups(l), l.accepted, s.length, p);
    case Extend => LastGroupGrows(l.closed, l.open, l.accepted, s.length, p);
    case _ =>
  }

  lemma GroupsOfMore(length: int, ps: seq<Packet>, p: Packet)
    ensures GroupsOf(length, []) == []
    ensures var gs := GroupsOf(length, ps);
            var last := |gs| - 1;
            GroupsOf(length, ps + [p]) ==
            if gs == [] || StartsNewGroup(length, Summary(gs[last]), p) then gs + [[p]] else gs[last := gs[last] + [p]]
  {
    hide Summary, StartsNewGroup, NonEmpty;
    var qs := ps + [p];
    assert qs[..|ps|] == ps && qs[|ps|] == p;
  }

  lemma StepGroups(s: State, l: Ledger, p: Packet)
    requires Remembers(s, l) && Groups(l) == GroupsOf(s.length, l.accepted)
    ensures var m := Record(l, Classify(s, p), p);
            Groups(m) == GroupsOf(s.length, m.accepted)
  {
    hide GroupsOf, Groups, Summary, StartsNewGroup, NonEmpty;
    RecordedGroups(s, l, p);
    GroupsOfMore(s.length, l.accepted, p);
  }

  lemma StepDiffers(s: State, l: Ledger, p: Packet)
    requires Remembers(s, l) && Differences(l.emitted, l.closed)
    ensures var m := Record(l, Classify(s, p), p);
            Differences(m.emitted, m.closed)
  {
    hide Summary, BelongsToBurst;
  }

  lemma StepAgrees(s: State, l: Ledger, p: Packet)
    requires Agrees(s, l)
    ensures Agrees(Step(s, p), Record(l, Classify(s, p), p))
  {
    hide Step, Classify, Record, Remembers, Groups, GroupsOf, Partition, Differences;
    StepRemembers(s, l, p);
    StepGroups(s, l, p);
    StepPartitions(s, l, p);
    StepDiffers(s, l, p);
  }

  lemma NothingAgrees(length: int)
    ensures Agrees(Fresh(length), NOTHING)
  {
  }

  /**
    Over every packet sequence, since the last reset: the accepted packets are split as
    `GroupsOf` splits them, into groups that start more than a group length apart; the
    program remembers exactly the last two, and emitted their successive differences.
   */
  lemma {:induction false} RunAgrees(length: int, ps: seq<Packet>)
    ensures Agrees(Run(length, ps).0, Run(length, ps).1)
  {
    hide Agrees, Step, Record, Classify;
    if ps == [] {
      NothingAgrees(length);
    } else {
      var n := |ps| - 1;
      RunAgrees(length, ps[..n]);
      StepAgrees(Run(length, ps[..n]).0, Run(length, ps[..n]).1, ps[n]);
    }
  }

  // ----- When the grouping starts again

  function Actions(length: int, ps: seq<Packet>): (actions: seq<Action>)
    ensures |actions| == |ps|
  {
    if ps == [] then [] else
    var n := |ps| - 1;
    Actions(length, ps[..n]) + [Classify(Run(length, ps[..n]).0, ps[n])]
  }

  /** The groups discarded in a row: since the last difference or reset, whatever came between. */
  function Discarded(actions: seq<Action>): nat {
    if actions == [] then 0 else
    var n := |actions| - 1;
    match actions[n]
    case Discard => Discarded(actions[..n]) + 1
    case Emit(_) | Reset => 0
    case _ => Discarded(actions[..n])
  }

  lemma {:induction false} ReorderedIsDiscarded(length: int, ps: seq<Packet>)
    ensures Run(length, ps).0.reordered == Discarded(Actions(length, ps)) < REORDERED_RESET_THRESHOLD
  {
    if ps == [] {
    } else {
      hide StartsNewGroup, Difference;
      var n := |ps| - 1;
      ReorderedIsDiscarded(length, ps[..n]);
      var before, actions := Actions(length, ps[..n]), Actions(length, ps);
      assert actions[..n] == before;
    }
  }

  /**
    On every run a packet resets the grouping exactly if it would close a group that
    arrived 3 s or more later than the clock says, or the third group in a row to be
    discarded for arriving before the last.
   */
  lemma ResetsExactlyWhen(length: int, ps: seq<Packet>, p: Packet)
    ensures var s := Run(length, ps).0;
            Classify(s, p).Reset? <==>
            && s.current.Some? && s.previous.Some?
            && s.current.value.firstSend <= p.send && StartsNewGroup(length, s.current.value, p)
            && var arrival := s.current.value.complete - s.previous.value.complete;
               var system := s.current.value.system - s.previous.value.system;
               || arrival - system >= 3 * SECOND
               || (arrival < 0 && Discarded(Actions(length, ps)) == 2)
  {
    ReorderedIsDiscarded(length, ps);
    hide StartsNewGroup, Run, Actions;
  }

  // ----- Which packets share a group

  /**
    A packet joins the group `before` if it was sent within a group length of its first
    packet, or at the latest send time in it, or if it is part of a burst: it arrived at
    most 5 ms after the previous packet and less than 100 ms after the first, and the gap
    to the latest send time shrank on the way.
   */
  ghost predicate Joins(length: int, before: seq<Packet>, p: Packet)
    requires before != []
  {
    var first, last := before[0], before[|before| - 1];
    || p.send - first.send <= length
    || p.send == LatestSend(before)
    || (&& p.arrival - last.arrival < p.send - LatestSend(before)
        && p.arrival - last.arrival <= 5 * MILLISECOND
        && p.arrival - first.arrival < 100 * MILLISECOND)
  }

  lemma JoinsUnlessNewGroup(length: int, before: seq<Packet>, p: Packet)
    requires before != []
    ensures Joins(length, before, p) <==> !StartsNewGroup(length, Summary(before), p)
  {
  }

  ghost predicate JoinsAt(length: int, g: seq<Packet>, k: nat)
    requires k < |g|
  {
    k == 0 || Joins(length, g[..k], g[k])
  }

  /** Every packet joins those before it in its group. */
  ghost predicate Joined(length: int, g: seq<Packet>) {
    g != [] && forall k | 0 <= k < |g| :: JoinsAt(length, g, k)
  }

  /** And no group's first packet joins the group before. */
  ghost predicate Separate(length: int, g: seq<Packet>, next: seq<Packet>) {
    g != [] && next != [] && !Joins(length, g, next[0])
  }

  ghost predicate ByJoining(length: int, gs: seq<seq<Packet>>) {
    && (forall k | 0 <= k < |gs| :: Joined(length, gs[k]))
    && (forall k | 0 <= k < |gs| - 1 :: Separate(length, gs[k], gs[k + 1]))
  }

  lemma OneMoreJoins(length: int, g: seq<Packet>, p: Packet)
    requires Joined(length, g) && Joins(length, g, p)
    ensures Joined(length, g + [p])
  {
    hide Joins;
    var h := g + [p];
    forall k | 0 <= k < |h|
      ensures JoinsAt(length, h, k)
    {
      assert h[..k] == g[..k] && g[..|g|] == g;
      assert k == |g| || JoinsAt(length, g, k);
    }
  }

  lemma AppendByJoining(length: int, gs: seq<seq<Packet>>, p: Packet)
    requires ByJoining(length, gs) && (gs != [] ==> gs[|gs| - 1] != [] && !Joins(length, gs[|gs| - 1], p))
    ensures ByJoining(length, gs + [[p]])
  {
    hide Joins;
    assert JoinsAt(length, [p], 0);
  }

  lemma ExtendByJoining(length: int, gs: seq<seq<Packet>>, p: Packet)
    requires ByJoining(length, gs) && gs != [] && gs[|gs| - 1] != [] && Joins(length, gs[|gs| - 1], p)
    ensures ByJoining(length, gs[|gs| - 1 := gs[|gs| - 1] + [p]])
  {
    hide Joins, JoinsAt;
    var last := |gs| - 1;
    OneMoreJoins(length, gs[last], p);
    assert last > 0 ==> Separate(length, gs[last - 1], gs[last - 1 + 1]);
  }

  lemma OneMoreByJoining(length: int, gs: seq<seq<Packet>>, p: Packet)
    requires ByJoining(length, gs) && NonEmpty(gs)
    ensures var last := |gs| - 1;
            ByJoining(length, if gs == [] || StartsNewGroup(length, Summary(gs[last]), p) then gs + [[p]]
                              else gs[last := gs[last] + [p]])
  {
    hide Joins, StartsNewGroup, Summary, ByJoining;
    if gs == [] {
      AppendByJoining(length, gs, p);
    } else {
      JoinsUnlessNewGroup(length, gs[|gs| - 1], p);
      if Joins(length, gs[|gs| - 1], p) {
        ExtendByJoining(length, gs, p);
      } else {
        AppendByJoining(length, gs, p);
      }
    }
  }

  /** The grouping every run agrees with is the one that joining describes. */
  lemma {:induction false} GroupsAreByJoining(length: int, ps: seq<Packet>)
    ensures ByJoining(length, GroupsOf(length, ps))
  {
    if ps == [] {
    } else {
      hide Joins, StartsNewGroup, Summary, ByJoining, GroupsOf, NonEmpty;
      var n := |ps| - 1;
      assert ps == ps[..n] + [ps[n]];
      GroupsAreByJoining(length, ps[..n]);
      GroupsOfMore(length, ps[..n], ps[n]);
      OneMoreByJoining(length, GroupsOf(length, ps[..n]), ps[n]);
    }
  }

  // ----- What every packet does

  /** The packet closes the open group. */
  ghost predicate Closes(length: int, l: Ledger, p: Packet) {
    l.open != [] && l.open[0].send <= p.send && !Joins(length, l.open, p)
  }

  /** And that group follows a closed one, with which it is compared. */
  ghost predicate Compares(length: int, l: Ledger, p: Packet) {
    Closes(length, l, p) && l.closed != [] && l.closed[|l.closed| - 1] != []
  }

  /** The last packet of the last closed group, and that of the open one. */
  function Ends(l: Ledger): (Packet, Packet)
    requires l.open != [] && l.closed != [] && l.closed[|l.closed| - 1] != []
  {
    var before := l.closed[|l.closed| - 1];
    (before[|before| - 1], l.open[|l.open| - 1])
  }

  /** The open group ended 3 s or more later, after the one before it, than the clock says. */
  ghost predicate JumpsAhead(length: int, l: Ledger, p: Packet) {
    Compares(length, l, p) &&
    var (a, b) := Ends(l);
    (b.arrival - a.arrival) - (b.system - a.system) >= 3 * SECOND
  }

  /** The open group ended before the one before it. */
  ghost predicate EndsEarly(length: int, l: Ledger, p: Packet) {
    Compares(length, l, p) && !JumpsAhead(length, l, p) && Ends(l).1.arrival < Ends(l).0.arrival
  }

  /** A difference is due: the groups ended in order, and by the clock. */
  ghost predicate IsDue(length: int, l: Ledger, p: Packet) {
    Compares(length, l, p) &&
    var (a, b) := Ends(l);
    0 <= b.arrival - a.arrival < (b.system - a.system) + 3 * SECOND
  }

  /** The difference in latest send time, in the arrival of the last packet, and in bytes. */
  function DueDifference(l: Ledger): Delta
    requires l.open != [] && l.closed != [] && l.closed[|l.closed| - 1] != []
  {
    var before := l.closed[|l.closed| - 1];
    Delta(LatestSend(l.open) - LatestSend(before), Ends(l).1.arrival - Ends(l).0.arrival, Bytes(l.open) - Bytes(before))
  }

  lemma DifferenceIsDue(l: Ledger)
    requires l.open != [] && l.closed != [] && l.closed[|l.closed| - 1] != []
    ensures Difference(Summary(l.open), Summary(l.closed[|l.closed| - 1])) == DueDifference(l)
  {
    hide LatestSend, Bytes;
  }

  /** How often in a row, since the last difference or reset, a group ended early. */
  ghost function EarlyInRow(length: int, ps: seq<Packet>): nat {
    if ps == [] then 0 else
    var n := |ps| - 1;
    var l, k := Run(length, ps[..n]).1, EarlyInRow(length, ps[..n]);
    if EndsEarly(length, l, ps[n]) then (if k == 2 then 0 else k + 1)
    else if JumpsAhead(length, l, ps[n]) || IsDue(length, l, ps[n]) then 0
    else k
  }

  /** The ledger after one more packet, from the packets of its groups alone. */
  ghost predicate Accounts(length: int, l: Ledger, early: nat, p: Packet, m: Ledger) {
    && (l.open == [] ==> m == Ledger([], [p], [p], []))
    && (l.open != [] && p.send < l.open[0].send ==> m == l)
    && (l.open != [] && l.open[0].send <= p.send && Joins(length, l.open, p) ==>
          m == l.(open := l.open + [p], accepted := l.accepted + [p]))
    && (Closes(length, l, p) && l.closed == [] ==> m == Ledger([l.open], [p], l.accepted + [p], []))
    && (JumpsAhead(length, l, p) ==> m == Ledger([], [], [], []))
    && (EndsEarly(length, l, p) ==> m == if early == 2 then Ledger([], [], [], []) else l)
    && (IsDue(length, l, p) ==>
          m == Ledger(l.closed + [l.open], [p], l.accepted + [p], l.emitted + [DueDifference(l)]))
  }

  lemma NothingOpenIsNothing(s: State, l: Ledger)
    requires Agrees(s, l) && l.open == []
    ensures l == Ledger([], [], [], [])
  {
    hide GroupsOf, IsGroup, IsDifference;
    assert Flatten(Groups(l)) == [];
  }

  lemma SummaryEnds(ps: seq<Packet>)
    requires ps != []
    ensures var g, last := Summary(ps), ps[|ps| - 1];
            g.firstSend == ps[0].send && g.complete == last.arrival && g.system == last.system
  {
    hide Bytes, LatestSend;
  }

  lemma LastClosed(s: State, l: Ledger)
    requires Remembers(s, l) && l.closed != []
    ensures l.closed[|l.closed| - 1] != [] && s.previous == Some(Summary(l.closed[|l.closed| - 1]))
  {
    hide Summary;
  }

  lemma ClassifyAccounts(s: State, l: Ledger, p: Packet)
    requires Agrees(s, l)
    ensures Accounts(s.length, l, s.reordered, p, Record(l, Classify(s, p), p))
    ensures Step(s, p).reordered ==
            if EndsEarly(s.length, l, p) then (if s.reordered == 2 then 0 else s.reordered + 1)
            else if JumpsAhead(s.length, l, p) || IsDue(s.length, l, p) then 0
            else s.reordered
  {
    hide Joins, StartsNewGroup, Partition, GroupsOf, Groups, Differences, Summary, NonEmpty, DueDifference;
    if l.open == [] {
      NothingOpenIsNothing(s, l);
    } else {
      SummaryEnds(l.open);
      JoinsUnlessNewGroup(s.length, l.open, p);
      if l.closed != [] {
        LastClosed(s, l);
        SummaryEnds(l.closed[|l.closed| - 1]);
        DifferenceIsDue(l);
      } else {
        assert l.emitted == [] by { NothingClosedIsNothingEmitted(s, l); }
      }
    }
  }

  lemma NothingClosedIsNothingEmitted(s: State, l: Ledger)
    requires Agrees(s, l) && l.closed == []
    ensures l.emitted == []
  {
    hide Remembers, Partition, Groups, GroupsOf, IsDifference;
  }

  lemma {:induction false} ReorderedIsEarly(length: int, ps: seq<Packet>)
    ensures Run(length, ps).0.reordered == EarlyInRow(length, ps)
  {
    if ps == [] {
    } else {
      hide Step, Classify, Agrees, EndsEarly, JumpsAhead, IsDue, Accounts;
      var n := |ps| - 1;
      RunAgrees(length, ps[..n]);
      ReorderedIsEarly(length, ps[..n]);
      ClassifyAccounts(Run(length, ps[..n]).0, Run(length, ps[..n]).1, ps[n]);
    }
  }

  /**
    On every run every packet is accounted for: it opens the first group, is ignored, joins
    the open group, closes the first group, or closes another one; and then that group
    either starts everything again, or is discarded, or yields a difference.
   */
  lemma EveryPacketIsAccounted(length: int, ps: seq<Packet>, p: Packet)
    ensures Accounts(length, Run(length, ps).1, EarlyInRow(length, ps), p, Run(length, ps + [p]).1)
  {
    assert (ps + [p])[..|ps|] == ps;
    RunAgrees(length, ps);
    ReorderedIsEarly(length, ps);
    ClassifyAccounts(Run(length, ps).0, Run(length, ps).1, p);
    hide Step, Classify, Agrees, EndsEarly, JumpsAhead, IsDue, Accounts, EarlyInRow;
  }

  lemma AccountsEmits(length: int, l: Ledger, early: nat, p: Packet, m: Ledger)
    requires Accounts(length, l, early, p, m) && NonEmpty(l.closed) && (|l.emitted| == Max(0, |l.closed| - 1))
    requires l.open == [] ==> l.closed == []
    ensures |m.emitted| > |l.emitted| <==> IsDue(length, l, p)
    ensures IsDue(length, l, p) ==>
              m.emitted == l.emitted + [DueDifference(l)]
  {
    hide Joins, DueDifference;
  }

  /**
    On every run a difference is emitted if and only if the packet closes a group that ended
    after the closed one before it, by less than the clock says and 3 s; it is the
    difference of these two.
   */
  lemma EmitsExactlyWhen(length: int, ps: seq<Packet>, p: Packet)
    ensures var l, m := Run(length, ps).1, Run(length, ps + [p]).1;
            && (|m.emitted| > |l.emitted| <==> IsDue(length, l, p))
            && (IsDue(length, l, p) ==>
                  m.emitted == l.emitted + [DueDifference(l)])
  {
    EveryPacketIsAccounted(length, ps, p);
    RunAgrees(length, ps);
    var l := Run(length, ps).1;
    AccountsEmits(length, l, EarlyInRow(length, ps), p, Run(length, ps + [p]).1);
    hide Accounts, IsDue, Run, EarlyInRow, DueDifference;
  }

  // ----- Telescoping

  function Sum(ds: seq<Delta>): Delta {
    if ds == [] then Delta(0, 0, 0) else
    var r := Sum(ds[..|ds| - 1]);
    var d := ds[|ds| - 1];
    Delta(r.send + d.send, r.arrival + d.arrival, r.size + d.size)
  }

  lemma {:induction false} DifferencesTelescope(ds: seq<Delta>, gs: seq<Group>)
    requires |gs| == |ds| + 1 && forall k | 0 <= k < |ds| :: ds[k] == Difference(gs[k + 1], gs[k])
    ensures Sum(ds) == Difference(gs[|ds|], gs[0])
  {
    if ds == [] {
    } else {
      DifferencesTelescope(ds[..|ds| - 1], gs[..|ds|]);
    }
  }

  /** The differences emitted since the last reset are those of the outermost closed groups. */
  lemma EmittedTelescope(length: int, ps: seq<Packet>)
    ensures var l := Run(length, ps).1;
            && NonEmpty(l.closed)
            && (l.closed != [] ==> Sum(l.emitted) == Difference(Summary(l.closed[|l.closed| - 1]), Summary(l.closed[0])))
  {
    RunAgrees(length, ps);
    var l := Run(length, ps).1;
    if l.closed != [] {
      var gs := seq(|l.closed|, k requires 0 <= k < |l.closed| => Summary(l.closed[k]));
      DifferencesTelescope(l.emitted, gs);
    }
  }

  lemma {:induction false} BytesOfConcat(a: seq<Packet>, b: seq<Packet>)
    ensures Bytes(a + b) == Bytes(a) + Bytes(b)
  {
    if b == [] {
      assert a + b == a;
    } else {
      BytesOfConcat(a, b[..|b| - 1]);
      assert (a + b)[..|a + b| - 1] == a + b[..|b| - 1];
    }
  }

  function BytesOfGroups(gs: seq<seq<Packet>>): nat {
    if gs == [] then 0 else BytesOfGroups(gs[..|gs| - 1]) + Bytes(gs[|gs| - 1])
  }

  lemma {:induction false} FlattenKeepsBytes(gs: seq<seq<Packet>>)
    ensures Bytes(Flatten(gs)) == BytesOfGroups(gs)
  {
    if gs == [] {
    } else {
      FlattenKeepsBytes(gs[..|gs| - 1]);
      BytesOfConcat(Flatten(gs[..|gs| - 1]), gs[|gs| - 1]);
    }
  }

  /** The sizes of the groups add up to the accepted bytes. */
  lemma GroupSizesAddUp(length: int, ps: seq<Packet>)
    ensures var l := Run(length, ps).1;
            BytesOfGroups(Groups(l)) == Bytes(l.accepted)
  {
    RunAgrees(length, ps);
    FlattenKeepsBytes(Groups(Run(length, ps).1));
  }

  // ----- The program's object

  class InterArrivalDelta {
    const sendTimeGroupLength: int
    var currentGroup: Option<Group>
    var prevGroup: Option<Group>
    var numConsecutiveReorderedPackets: nat

    ghost function Abs(): State
      reads this
    {
      State(sendTimeGroupLength, currentGroup, prevGroup, numConsecutiveReorderedPackets)
    }

    constructor (length: int)
      ensures Abs() == Fresh(length)
    {
      sendTimeGroupLength := length;
      currentGroup, prevGroup, numConsecutiveReorderedPackets := None, None, 0;
    }

    method Reset()
      modifies this
      ensures Abs() == Fresh(sendTimeGroupLength)
    {
      numConsecutiveReorderedPackets := 0;
      currentGroup, prevGroup := None, None;
    }

    /** The differences are those of the groups before the call. */
    method ComputeDeltas(p: Packet) returns (delta: Option<Delta>)
      modifies this
      ensures Abs() == Step(old(Abs()), p)
      ensures delta == match Classify(old(Abs()), p) case Emit(d) => Some(d) case _ => None
    {
      delta := None;
      if currentGroup.None? {
        currentGroup := Some(Group(0, p.send, p.send, p.arrival, 0, 0));
      } else if currentGroup.value.firstSend > p.send {
        return;
      } else if StartsNewGroup(sendTimeGroupLength, currentGroup.value, p) {
        if prevGroup.Some? {
          var sendDelta := currentGroup.value.send - prevGroup.value.send;
          var arrivalDelta := currentGroup.value.complete - prevGroup.value.complete;
          var systemDelta := currentGroup.value.system - prevGroup.value.system;
          if arrivalDelta - systemDelta >= ARRIVAL_OFFSET_THRESHOLD {
            Reset();
            return;
          }
          if arrivalDelta < 0 {
            numConsecutiveReorderedPackets := numConsecutiveReorderedPackets + 1;
            if numConsecutiveReorderedPackets >= REORDERED_RESET_THRESHOLD {
              Reset();
            }
            return;
          }
          numConsecutiveReorderedPackets := 0;
          delta := Some(Delta(sendDelta, arrivalDelta, currentGroup.value.size - prevGroup.value.size));
        }
        prevGroup := currentGroup;
        currentGroup := Some(currentGroup.value.(firstSend := p.send, send := p.send, firstArrival := p.arrival, size := 0));
      } else {
        currentGroup := Some(currentGroup.value.(send := Max(currentGroup.value.send, p.send)));
      }
      currentGroup := Some(currentGroup.value.(size := currentGroup.value.size + p.size, complete := p.arrival, system := p.system));
    }
  }
}

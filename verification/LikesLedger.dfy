/** Conservation of likes and what 64 bits do to it. */
module LikesLedger {
  import opened Wire
  import opened Seqs
  import opened Machine
  import opened Likes

  /** How far the accounts are from what was accepted. */
  function Gap(s: State, room: string): int {
    Get(s.accepted, room) - Accounted(s, room)
  }

  /** What a step does to the gap: only a wrapped addition or a cast of a count of 2^63 or more moves it. */
  function GapStep(s: State, room: string, a: Action): int
    requires Enabled(s, a)
  {
    match a
    case Like(i, r, decoded) =>
      if r == room then Get(s.locals[i], r) + Counted(decoded) - Plus64(Get(s.locals[i], r), Counted(decoded)) else 0
    case Lands(k) =>
      if s.flying[k].room == room && !Overflows(s, s.flying[k]) then s.flying[k].count - ToInt64(s.flying[k].count)
        else 0
    case _ => 0
  }

  lemma LikeMoves(s: State, room: string, a: Action)
    requires a.Like? && Enabled(s, a)
    ensures Gap(Next(s, a), room) == Gap(s, room) + GapStep(s, room, a)
  {
    SumUpdate(s.locals, a.i, AddLike(s.locals[a.i], a.room, Counted(a.decoded)), InTallies(room));
  }

  lemma SwapMoves(s: State, room: string, i: nat)
    requires Enabled(s, Swap(i))
    ensures Accounted(Next(s, Swap(i)), room) == Accounted(s, room)
  {
    SumUpdate(s.locals, i, map[], InTallies(room));
    SumSnoc(s.ticks, Tick(s.locals[i], None, 0), InTick(room));
  }

  lemma VisitMoves(s: State, room: string, t: nat)
    requires Enabled(s, Visit(t))
    ensures Accounted(VisitRoom(s, t), room) == Accounted(s, room)
    ensures Discarded(VisitRoom(s, t), room) == Discarded(s, room)
  {
    var tick := s.ticks[t];
    var r := tick.rooms.value[tick.next];
    SumUpdate(s.ticks, t, VisitRoom(s, t).ticks[t], InTick(room));
    SumSnoc(s.flying, Incr(r, Get(tick.batch, r)), InIncr(room));
  }

  lemma TickMoves(s: State, room: string, a: Action)
    requires (a.Snapshot? || a.End?) && Enabled(s, a)
    ensures Accounted(Next(s, a), room) == Accounted(s, room)
  {
    if a.Snapshot? {
      SumUpdate(s.ticks, a.t, s.ticks[a.t].(rooms := Some(a.rooms)), InTick(room));
    } else {
      SumWithout(s.ticks, a.t, InTick(room));
      SumSnoc(s.abandoned, s.ticks[a.t].batch, InTallies(room));
    }
  }

  lemma FailMoves(s: State, room: string, k: nat)
    requires k < |s.flying|
    ensures Accounted(FailIncr(s, k), room) == Accounted(s, room)
  {
    SumWithout(s.flying, k, InIncr(room));
    SumSnoc(s.failed, s.flying[k], InIncr(room));
  }

  lemma LandMoves(s: State, room: string, k: nat)
    requires k < |s.flying|
    ensures Gap(Next(s, Lands(k)), room) == Gap(s, room) + GapStep(s, room, Lands(k))
  {
    if Overflows(s, s.flying[k]) {
      FailMoves(s, room, k);
    } else {
      SumWithout(s.flying, k, InIncr(room));
    }
  }

  /** Every step moves the gap by exactly what its machine arithmetic loses, and by nothing else. */
  lemma StepMovesGap(s: State, room: string, a: Action)
    requires Enabled(s, a)
    ensures Gap(Next(s, a), room) == Gap(s, room) + GapStep(s, room, a)
  {
    match a {
      case Like(_, _, _) => LikeMoves(s, room, a);
      case Swap(i) => SwapMoves(s, room, i);
      case Visit(t) => VisitMoves(s, room, t);
      case Snapshot(_, _) => TickMoves(s, room, a);
      case End(_) => TickMoves(s, room, a);
      case Lands(k) => LandMoves(s, room, k);
      case Fails(k) => FailMoves(s, room, k);
    }
  }

  // ---- the invariant ----

  /** Exact while the room's accepted total is below 2^63, and always exact modulo 2^64. */
  ghost predicate Balanced(s: State, room: string) {
    && Gap(s, room) % TWO_64 == 0
    && (Get(s.accepted, room) < TWO_63 ==> Gap(s, room) == 0 && 0 <= Counter(s, room))
    && Get(s.actions, room) <= Get(s.accepted, room)
  }

  /** One server's, tick's or increment's part is within the whole. */
  lemma PartOfSum<T>(xs: seq<T>, k: nat, weight: T -> nat)
    requires k < |xs|
    ensures weight(xs[k]) <= Sum(xs, weight)
  {
    SumWithout(xs, k, weight);
  }

  lemma StepLosesMultiples(s: State, room: string, a: Action)
    requires Enabled(s, a)
    ensures GapStep(s, room, a) % TWO_64 == 0
  {
  }

  lemma SumOfMultiples(x: int, y: int)
    requires x % TWO_64 == 0 && y % TWO_64 == 0
    ensures (x + y) % TWO_64 == 0
  {
  }

  lemma SmallLikeIsExact(s: State, room: string, a: Action)
    requires Balanced(s, room) && a.Like? && Enabled(s, a) && Get(Next(s, a).accepted, room) < TWO_63
    ensures GapStep(s, room, a) == 0
  {
    PartOfSum(s.locals, a.i, InTallies(room));
  }

  lemma SmallIncrIsExact(s: State, room: string, k: nat)
    requires Balanced(s, room) && k < |s.flying| && Get(s.accepted, room) < TWO_63 && s.flying[k].room == room
    ensures ToInt64(s.flying[k].count) == s.flying[k].count && !Overflows(s, s.flying[k])
  {
    PartOfSum(s.flying, k, InIncr(room));
  }

  /** Below 2^63 the step loses nothing and the counter does not fall. */
  lemma SmallStepIsExact(s: State, room: string, a: Action)
    requires Balanced(s, room) && Enabled(s, a) && Get(Next(s, a).accepted, room) < TWO_63
    ensures GapStep(s, room, a) == 0
    ensures Counter(s, room) <= Counter(Next(s, a), room)
  {
    match a {
      case Like(_, _, _) => SmallLikeIsExact(s, room, a);
      case Lands(k) => if s.flying[k].room == room { SmallIncrIsExact(s, room, k); }
      case _ => CounterStays(s, room, a);
    }
  }

  lemma CounterStays(s: State, room: string, a: Action)
    requires Enabled(s, a) && !a.Lands?
    ensures Counter(Next(s, a), room) == Counter(s, room)
  {
  }

  lemma StepKeepsModulo(s: State, room: string, a: Action)
    requires Gap(s, room) % TWO_64 == 0 && Enabled(s, a)
    ensures Gap(Next(s, a), room) % TWO_64 == 0
  {
    StepMovesGap(s, room, a);
    StepLosesMultiples(s, room, a);
    SumOfMultiples(Gap(s, room), GapStep(s, room, a));
  }

  lemma AcceptedGrows(s: State, room: string, a: Action)
    requires Enabled(s, a)
    ensures var k := Get(Next(s, a).actions, room) - Get(s.actions, room);
            0 <= k && Get(s.accepted, room) + k <= Get(Next(s, a).accepted, room)
  {
  }

  lemma StepKeepsExact(s: State, room: string, a: Action)
    requires Balanced(s, room) && Enabled(s, a) && Get(Next(s, a).accepted, room) < TWO_63
    ensures Gap(Next(s, a), room) == 0 && 0 <= Counter(Next(s, a), room)
  {
    AcceptedGrows(s, room, a);
    StepMovesGap(s, room, a);
    SmallStepIsExact(s, room, a);
  }

  lemma StepKeeps(s: State, room: string, a: Action)
    requires Balanced(s, room) && Enabled(s, a)
    ensures Balanced(Next(s, a), room)
  {
    StepKeepsModulo(s, room, a);
    AcceptedGrows(s, room, a);
    if Get(Next(s, a).accepted, room) < TWO_63 {
      StepKeepsExact(s, room, a);
    }
  }

  lemma {:induction false} RunKeeps(s: State, room: string, acts: seq<Action>, t: State)
    requires Balanced(s, room) && Run(s, acts, t)
    ensures Balanced(t, room)
    decreases |acts|
  {
    if acts != [] {
      StepKeeps(s, room, acts[0]);
      RunKeeps(Next(s, acts[0]), room, acts[1..], t);
    }
  }

  lemma {:induction false} EmptyTallies(locals: seq<Tallies>, room: string)
    requires forall i | 0 <= i < |locals| :: locals[i] == map[]
    ensures Sum(locals, InTallies(room)) == 0
  {
    if locals != [] {
      EmptyTallies(locals[1..], room);
    }
  }

  lemma StartBalanced(n: nat, room: string)
    ensures Balanced(Init(n), room)
  {
    EmptyTallies(Init(n).locals, room);
  }

  lemma ReachableBalanced(s: State, room: string)
    requires Reachable(s)
    ensures Balanced(s, room)
  {
    var n: nat, acts :| Run(Init(n), acts, s);
    StartBalanced(n, room);
    RunKeeps(Init(n), room, acts, s);
  }

  /** For every room in every reachable state, with any number of servers and overlapping ticks: while fewer than
      2^63 likes were accepted, they are exactly the local totals, the batches ticks hold, the increments in flight,
      the Redis counter and the discarded ones, none of them twice; beyond that the equation still holds modulo 2^64. */
  lemma LikesAreConserved(s: State, room: string)
    requires Reachable(s)
    ensures Get(s.accepted, room) < TWO_63 ==>
              Get(s.accepted, room) == Accounted(s, room) && 0 <= Counter(s, room) <= Get(s.accepted, room)
    ensures (Get(s.accepted, room) - Accounted(s, room)) % TWO_64 == 0
    ensures Get(s.actions, room) <= Get(s.accepted, room)
  {
    ReachableBalanced(s, room);
    BalancedMeans(s, room);
  }

  /** A like for the room, by the count its data states; one that states none or zero counts for one. */
  function Stated(room: string): Action -> nat {
    (a: Action) => if a.Like? && a.room == room && a.decoded.Some? then a.decoded.value else 0
  }

  function Unstated(room: string): Action -> nat {
    (a: Action) => if a.Like? && a.room == room && (a.decoded.None? || a.decoded.value == 0) then 1 else 0
  }

  function IsLike(room: string): Action -> nat {
    (a: Action) => if a.Like? && a.room == room then 1 else 0
  }

  lemma AcceptedStep(s: State, a: Action, room: string)
    requires Enabled(s, a)
    ensures Get(Next(s, a).accepted, room) == Get(s.accepted, room) + Stated(room)(a) + Unstated(room)(a)
    ensures Get(Next(s, a).actions, room) == Get(s.actions, room) + IsLike(room)(a)
  {
  }

  lemma {:induction false} AcceptedAlong(s: State, acts: seq<Action>, t: State, room: string)
    requires Run(s, acts, t)
    ensures Get(t.accepted, room) == Get(s.accepted, room) + Sum(acts, Stated(room)) + Sum(acts, Unstated(room))
    ensures Get(t.actions, room) == Get(s.actions, room) + Sum(acts, IsLike(room))
    decreases |acts|
  {
    if acts != [] {
      AcceptedStep(s, acts[0], room);
      AcceptedAlong(Next(s, acts[0]), acts[1..], t, room);
    }
  }

  /** The handlers' inputs decide: over any run, for every room, what the servers hold, have in flight, stored and
      discarded is the sum of the counts stated by its likes plus one for each like that states none: exactly below
      2^63, modulo 2^64 always. */
  lemma LikesAreStated(n: nat, acts: seq<Action>, s: State, room: string)
    requires Run(Init(n), acts, s)
    ensures var stated := Sum(acts, Stated(room)) + Sum(acts, Unstated(room));
            && Get(s.accepted, room) == stated && Get(s.actions, room) == Sum(acts, IsLike(room))
            && (stated < TWO_63 ==> Accounted(s, room) == stated)
            && (stated - Accounted(s, room)) % TWO_64 == 0
  {
    AcceptedAlong(Init(n), acts, s, room);
    LikesAreConserved(s, room);
  }

  lemma BalancedMeans(s: State, room: string)
    requires Balanced(s, room)
    ensures Get(s.accepted, room) < TWO_63 ==>
              Get(s.accepted, room) == Accounted(s, room) && 0 <= Counter(s, room) <= Get(s.accepted, room)
    ensures (Get(s.accepted, room) - Accounted(s, room)) % TWO_64 == 0
    ensures Get(s.actions, room) <= Get(s.accepted, room)
  {
    CounterWithin(s, room);
  }

  lemma CounterWithin(s: State, room: string)
    ensures Counter(s, room) <= Accounted(s, room)
  {
  }

  /** Below 2^63 the counter only grows. */
  lemma CounterNeverFalls(s: State, room: string, a: Action)
    requires Reachable(s) && Enabled(s, a) && Get(Next(s, a).accepted, room) < TWO_63
    ensures 0 <= Counter(s, room) <= Counter(Next(s, a), room)
  {
    ReachableBalanced(s, room);
    AcceptedGrows(s, room, a);
    SmallStepIsExact(s, room, a);
  }

  // ---- what is discarded ----

  /** A batch holds nothing of the rooms its tick has visited. */
  ghost predicate VisitedEmptied(t: Tick) {
    t.rooms.Some? ==>
      && t.next <= |t.rooms.value|
      && (forall i, j | 0 <= i < j < |t.rooms.value| :: t.rooms.value[i] != t.rooms.value[j])
      && forall i | 0 <= i < t.next :: Get(t.batch, t.rooms.value[i]) == 0
  }

  ghost predicate TicksOk(s: State) {
    forall t | 0 <= t < |s.ticks| :: (s.ticks[t].rooms.None? ==> s.ticks[t].next == 0) && VisitedEmptied(s.ticks[t])
  }

  lemma TicksKept(s: State, a: Action)
    requires TicksOk(s) && Enabled(s, a)
    ensures TicksOk(Next(s, a))
  {
    if a.Visit? {
      assert VisitedEmptied(s.ticks[a.t]);
    }
  }

  lemma {:induction false} TicksKeptOnRun(s: State, acts: seq<Action>, t: State)
    requires TicksOk(s) && Run(s, acts, t)
    ensures TicksOk(t)
    decreases |acts|
  {
    if acts != [] {
      TicksKept(s, acts[0]);
      TicksKeptOnRun(Next(s, acts[0]), acts[1..], t);
    }
  }

  lemma ReachableTicks(s: State)
    requires Reachable(s)
    ensures TicksOk(s)
  {
    var n: nat, acts :| Run(Init(n), acts, s);
    TicksKeptOnRun(Init(n), acts, s);
  }

  /** Likes of a room are discarded by exactly two kinds of step: an increment of the room that fails, and the end of
      a tick that still holds some, whose room snapshot lacks the room. */
  lemma DiscardedOnlyThen(s: State, room: string, a: Action)
    requires Reachable(s) && Enabled(s, a)
    ensures Discarded(s, room) <= Discarded(Next(s, a), room)
    ensures Discarded(s, room) < Discarded(Next(s, a), room) <==>
            || ((a.Fails? || (a.Lands? && Overflows(s, s.flying[a.k]))) && s.flying[a.k].room == room
                && 0 < s.flying[a.k].count)
            || (a.End? && 0 < Get(s.ticks[a.t].batch, room))
    ensures a.End? && 0 < Get(s.ticks[a.t].batch, room) ==> room !in s.ticks[a.t].rooms.value
  {
    ReachableTicks(s);
    match a {
      case Visit(t) => VisitMoves(s, room, t);
      case End(t) =>
        SumSnoc(s.abandoned, s.ticks[t].batch, InTallies(room));
        assert VisitedEmptied(s.ticks[t]);
      case Lands(k) => SumSnoc(s.failed, s.flying[k], InIncr(room));
      case Fails(k) => SumSnoc(s.failed, s.flying[k], InIncr(room));
      case _ =>
    }
  }

  /** Where tick t is found after a step, until its end. */
  function PlaceAfter(t: nat, a: Action): Option<nat> {
    if !a.End? || t < a.t then Some(t) else if a.t < t then Some(t - 1) else None
  }

  /** A run from s to u that does not end tick t, which u has at place t'. */
  predicate RunBesides(s: State, t: nat, acts: seq<Action>, u: State, t': nat)
    decreases |acts|
  {
    if acts == [] then s == u && t == t'
    else Enabled(s, acts[0]) && PlaceAfter(t, acts[0]).Some?
         && RunBesides(Next(s, acts[0]), PlaceAfter(t, acts[0]).value, acts[1..], u, t')
  }

  /** The tick found these rooms, and holds the batch it had then but for the rooms visited since. */
  ghost predicate HoldsTheRest(s: State, t: nat, batch: Tallies, rooms: seq<string>) {
    && t < |s.ticks| && s.ticks[t].rooms == Some(rooms) && s.ticks[t].next <= |rooms|
    && forall room :: Get(s.ticks[t].batch, room) == if room in rooms[..s.ticks[t].next] then 0 else Get(batch, room)
  }

  lemma OwnVisitHoldsTheRest(s: State, t: nat, batch: Tallies, rooms: seq<string>)
    requires HoldsTheRest(s, t, batch, rooms) && Enabled(s, Visit(t))
    ensures HoldsTheRest(Next(s, Visit(t)), t, batch, rooms)
  {
    var n := s.ticks[t].next;
    assert rooms[..n + 1] == rooms[..n] + [rooms[n]];
  }

  /** No other step looks into the tick. */
  lemma OthersLeaveTick(s: State, t: nat, a: Action)
    requires t < |s.ticks| && s.ticks[t].rooms.Some? && Enabled(s, a) && a != Visit(t) && a != End(t)
    ensures var t' := PlaceAfter(t, a).value; t' < |Next(s, a).ticks| && Next(s, a).ticks[t'] == s.ticks[t]
  {
  }

  lemma {:induction false} RestIsHeld(s: State, t: nat, batch: Tallies, rooms: seq<string>, acts: seq<Action>, u: State,
                                      t': nat)
    requires HoldsTheRest(s, t, batch, rooms) && RunBesides(s, t, acts, u, t')
    ensures HoldsTheRest(u, t', batch, rooms)
    decreases |acts|
  {
    if acts != [] {
      if acts[0] == Visit(t) {
        OwnVisitHoldsTheRest(s, t, batch, rooms);
      } else {
        OthersLeaveTick(s, t, acts[0]);
      }
      RestIsHeld(Next(s, acts[0]), PlaceAfter(t, acts[0]).value, batch, rooms, acts[1..], u, t');
    }
  }

  /** It is settled when a tick finds its rooms: whatever happens in between, its end will discard likes of a room if
      and only if the batch holds some and the room is not among the rooms found. */
  lemma SnapshotDecides(s: State, t: nat, rooms: seq<string>, acts: seq<Action>, u: State, t': nat, room: string)
    requires Reachable(s) && Enabled(s, Snapshot(t, rooms))
    requires RunBesides(Next(s, Snapshot(t, rooms)), t, acts, u, t') && Enabled(u, End(t'))
    ensures Discarded(u, room) < Discarded(Next(u, End(t')), room)
            <==> 0 < Get(s.ticks[t].batch, room) && room !in rooms
  {
    assert s.ticks[t].next == 0 by { ReachableTicks(s); }
    RestIsHeld(Next(s, Snapshot(t, rooms)), t, s.ticks[t].batch, rooms, acts, u, t');
    assert rooms[..|rooms|] == rooms;
    SumSnoc(u.abandoned, u.ticks[t'].batch, InTallies(room));
  }

  // ---- where 64 bits run out ----

  /** What GetRoomLikes shows for a stored counter: a negative one does not parse as unsigned. */
  function Shown(counter: int): nat {
    if 0 <= counter < TWO_64 then counter else 0
  }

  /** Redis keeps a counter within 64 signed bits, refusing what would leave them. */
  ghost predicate CounterFits(s: State, room: string) {
    -TWO_63 <= Counter(s, room) < TWO_63
  }

  lemma StepFits(s: State, room: string, a: Action)
    requires CounterFits(s, room) && Enabled(s, a)
    ensures CounterFits(Next(s, a), room)
  {
    if !a.Lands? {
      CounterStays(s, room, a);
    }
  }

  lemma {:induction false} RunFits(s: State, room: string, acts: seq<Action>, t: State)
    requires CounterFits(s, room) && Run(s, acts, t)
    ensures CounterFits(t, room)
    decreases |acts|
  {
    if acts != [] {
      StepFits(s, room, acts[0]);
      RunFits(Next(s, acts[0]), room, acts[1..], t);
    }
  }

  /** What is shown is what was accepted, in any reachable state, if and only if less than 2^63 was accepted and all of
      it has reached the counter: nothing of the room is in a local total, a batch or flight, and nothing was discarded.
      */
  lemma LikesShownIff(s: State, room: string)
    requires Reachable(s)
    ensures Shown(Counter(s, room)) == Get(s.accepted, room)
            <==> Get(s.accepted, room) < TWO_63 && Accounted(s, room) == Counter(s, room)
  {
    LikesAreConserved(s, room);
    var n: nat, acts :| Run(Init(n), acts, s);
    RunFits(Init(n), room, acts, s);
  }

  /** One like of n, carried all the way to the counter by one tick. */
  function OneLike(room: string, n: nat): seq<Action> {
    [Like(0, room, Some(n)), Swap(0), Snapshot(0, [room]), Visit(0), Lands(0)]
  }

  /** The state in which that increment is in flight. */
  function InFlight(room: string, n: nat): State {
    State([map[]], [Tick(map[room := n] - {room}, Some([room]), 1)], [Incr(room, n)], map[], [], [], map[room := n],
          map[room := 1])
  }

  /** The state once the like was swapped out and the rooms were found. */
  function Found(room: string, n: nat): State {
    State([map[]], [Tick(map[room := n], Some([room]), 0)], [], map[], [], [], map[room := n], map[room := 1])
  }

  /** The state once the like was swapped out. */
  function Taken(room: string, n: nat): State {
    State([map[]], [Tick(map[room := n], None, 0)], [], map[], [], [], map[room := n], map[room := 1])
  }

  lemma OneLikeIsTaken(room: string, n: nat)
    requires 1 <= n < TWO_64
    ensures Run(Init(1), OneLike(room, n)[..2], Taken(room, n))
  {
    var acts := OneLike(room, n);
    var s0 := Init(1);
    var s1 := Next(s0, acts[0]);
    assert s1.locals == [map[room := n]];
    assert Next(s1, acts[1]) == Taken(room, n);
    assert Run(s0, [], s0);
    RunSnoc(s0, [], s0, acts[0]);
    RunSnoc(s0, [] + [acts[0]], s1, acts[1]);
    assert acts[..2] == [] + [acts[0]] + [acts[1]];
  }

  lemma OneLikeIsFound(room: string, n: nat)
    requires 1 <= n < TWO_64
    ensures Run(Init(1), OneLike(room, n)[..3], Found(room, n))
  {
    OneLikeIsTaken(room, n);
    assert Next(Taken(room, n), Snapshot(0, [room])) == Found(room, n);
    RunSnoc(Init(1), OneLike(room, n)[..2], Taken(room, n), Snapshot(0, [room]));
    assert OneLike(room, n)[..3] == OneLike(room, n)[..2] + [Snapshot(0, [room])];
  }

  lemma OneLikeFlies(room: string, n: nat)
    requires 1 <= n < TWO_64
    ensures Run(Init(1), OneLike(room, n)[..4], InFlight(room, n))
  {
    OneLikeIsFound(room, n);
    assert Next(Found(room, n), Visit(0)) == InFlight(room, n);
    RunSnoc(Init(1), OneLike(room, n)[..3], Found(room, n), Visit(0));
    assert OneLike(room, n)[..4] == OneLike(room, n)[..3] + [Visit(0)];
  }

  lemma {:induction false} RunSnoc(s: State, acts: seq<Action>, t: State, a: Action)
    requires Run(s, acts, t) && Enabled(t, a)
    ensures Run(s, acts + [a], Next(t, a))
    decreases |acts|
  {
    if acts == [] {
      assert ([] + [a])[1..] == [];
    } else {
      RunSnoc(Next(s, acts[0]), acts[1..], t, a);
      assert (acts + [a])[1..] == acts[1..] + [a];
    }
  }

  /** A single like of n carried to an empty counter: shown as n when n is below 2^63; from there on the cast makes the
      counter negative and nothing is shown. */
  lemma LikeShownExactlyBelow63(room: string, n: nat) returns (s: State)
    requires 1 <= n < TWO_64
    ensures Run(Init(1), OneLike(room, n), s) && s == Next(InFlight(room, n), Lands(0))
    ensures Counter(s, room) == ToInt64(n)
    ensures Shown(Counter(s, room)) == n <==> n < TWO_63
  {
    OneLikeFlies(room, n);
    RunSnoc(Init(1), OneLike(room, n)[..4], InFlight(room, n), Lands(0));
    assert OneLike(room, n) == OneLike(room, n)[..4] + [Lands(0)];
    s := Next(InFlight(room, n), Lands(0));
    OneLikeLands(room, n);
  }

  lemma OneLikeLands(room: string, n: nat)
    requires 1 <= n < TWO_64
    ensures var c := Counter(Next(InFlight(room, n), Lands(0)), room);
            c == ToInt64(n) && (Shown(c) == n <==> n < TWO_63)
  {
  }

  const HALF: nat := 0x4000_0000_0000_0000

  lemma ReachableStep(s: State, a: Action)
    requires Reachable(s) && Enabled(s, a)
    ensures Reachable(Next(s, a))
  {
    var n: nat, acts :| Run(Init(n), acts, s);
    RunSnoc(Init(n), acts, s, a);
  }

  /** A tick on the only server carries its whole local total for the room into flight. */
  lemma TickFlies(s: State, room: string) returns (t: State)
    requires Reachable(s) && |s.locals| == 1 && s.flying == [] && Get(s.locals[0], room) > 0
    ensures Reachable(t) && t.flying == [Incr(room, Get(s.locals[0], room))]
    ensures t.counter == s.counter && t.accepted == s.accepted && t.failed == s.failed && t.locals == [map[]]
  {
    ReachableStep(s, Swap(0));
    var s1 := Next(s, Swap(0));
    var k := |s.ticks|;
    ReachableStep(s1, Snapshot(k, [room]));
    var s2 := Next(s1, Snapshot(k, [room]));
    assert s2.ticks[k] == Tick(s.locals[0], Some([room]), 0);
    ReachableStep(s2, Visit(k));
    t := Next(s2, Visit(k));
  }

  /** Another way past 2^63: two likes of 2^62 in two ticks.  Redis refuses the second increment; the counter stays at
      the first and that is what is shown. */
  lemma SecondHalfIsRefused(room: string) returns (s: State)
    ensures Reachable(s) && Get(s.accepted, room) == TWO_63
    ensures Counter(s, room) == Shown(Counter(s, room)) == HALF && s.failed == [Incr(room, HALF)]
  {
    var s1 := LikeShownExactlyBelow63(room, HALF);
    ReachableStep(s1, Like(0, room, Some(HALF)));
    var s2 := Next(s1, Like(0, room, Some(HALF)));
    var s3 := TickFlies(s2, room);
    ReachableStep(s3, Lands(0));
    s := Next(s3, Lands(0));
  }

  /** One server, nothing held for the room and nothing in flight. */
  predicate Settled(s: State, room: string) {
    |s.locals| == 1 && Get(s.locals[0], room) == 0 && s.flying == []
  }

  /** A like of n is made, ticked out and added to the counter. */
  lemma LikeCarried(s: State, room: string, n: nat) returns (t: State)
    requires Reachable(s) && Settled(s, room) && 1 <= n < TWO_64
    requires -TWO_63 <= Counter(s, room) + ToInt64(n) < TWO_63
    ensures Reachable(t) && Settled(t, room) && t.failed == s.failed
    ensures Counter(t, room) == Counter(s, room) + ToInt64(n) && Get(t.accepted, room) == Get(s.accepted, room) + n
  {
    var s1 := Liked(s, room, n);
    var s2 := TickFlies(s1, room);
    t := Landed(s2, room, n);
  }

  lemma Liked(s: State, room: string, n: nat) returns (t: State)
    requires Reachable(s) && Settled(s, room) && 1 <= n < TWO_64
    ensures Reachable(t) && |t.locals| == 1 && Get(t.locals[0], room) == n && t.flying == []
    ensures t.counter == s.counter && t.failed == s.failed && Get(t.accepted, room) == Get(s.accepted, room) + n
  {
    ReachableStep(s, Like(0, room, Some(n)));
    t := Next(s, Like(0, room, Some(n)));
  }

  lemma Landed(s: State, room: string, n: nat) returns (t: State)
    requires Reachable(s) && s.flying == [Incr(room, n)]
    requires -TWO_63 <= Counter(s, room) + ToInt64(n) < TWO_63
    ensures Reachable(t) && t == s.(flying := [], counter := s.counter[room := Counter(s, room) + ToInt64(n)])
  {
    ReachableStep(s, Lands(0));
    t := Next(s, Lands(0));
  }

  /** Yet another: the cast takes 2^64 from a like of 2^63, and later likes bring the negative counter back above zero.
      Nothing was refused and no local total wrapped, and the total shown lacks 2^64. */
  lemma CounterClimbsBack(room: string) returns (s: State)
    ensures Reachable(s) && s.failed == [] && s.flying == []
    ensures Get(s.accepted, room) == TWO_64 + 4 && Counter(s, room) == Shown(Counter(s, room)) == 4
  {
    Casts();
    var s0 := OneServer(room);
    var s1 := LikeCarried(s0, room, TWO_63);
    var s2 := LikeCarried(s1, room, TWO_63 - 1);
    s := LikeCarried(s2, room, 5);
  }

  lemma Casts()
    ensures ToInt64(TWO_63) == -TWO_63 && ToInt64(TWO_63 - 1) == TWO_63 - 1 && ToInt64(5) == 5
  {
  }

  lemma OneServer(room: string) returns (s: State)
    ensures Reachable(s) && Settled(s, room) && s.failed == []
    ensures Counter(s, room) == 0 && Get(s.accepted, room) == 0
  {
    s := Init(1);
    assert Run(s, [], s);
  }
}

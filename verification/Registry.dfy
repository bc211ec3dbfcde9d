/** Room membership and subscription contexts of one server: what the register and unregister events do to the
    two maps, and what any sequence of them adds up to. */
module Registry {
  import opened Seqs

  /** A subscription's context; one is made for every time a room comes into being. */
  datatype Context = Context(room: string, cancelled: bool)

  /** `cancelSub` names the context its function cancels by its place in `contexts`; `done` lists the clients whose
      done channel was closed, in order of closing. */
  datatype Registry<C(==)> = Registry(
    rooms: map<string, set<C>>, cancelSub: map<string, nat>, contexts: seq<Context>, done: seq<C>)

  function Empty<C(==)>(): Registry<C> {
    Registry(map[], map[], [], [])
  }

  function Register<C(==)>(roomOf: C -> string, r: Registry<C>, c: C): Registry<C> {
    var room := roomOf(c);
    if room in r.rooms then r.(rooms := r.rooms[room := r.rooms[room] + {c}])
    else r.(rooms := r.rooms[room := {c}],
            cancelSub := r.cancelSub[room := |r.contexts|],
            contexts := r.contexts + [Context(room, false)])
  }

  /** Client.Close runs its body once. */
  function CloseOnce<C(==)>(done: seq<C>, c: C): seq<C> {
    if c in done then done else done + [c]
  }

  function Cancel(contexts: seq<Context>, i: nat): seq<Context> {
    if i < |contexts| then contexts[i := contexts[i].(cancelled := true)] else contexts
  }

  function DropRoom<C(==)>(r: Registry<C>, room: string): Registry<C> {
    if room in r.cancelSub
    then r.(rooms := r.rooms - {room}, cancelSub := r.cancelSub - {room},
            contexts := Cancel(r.contexts, r.cancelSub[room]))
    else r.(rooms := r.rooms - {room})
  }

  function Unregister<C(==)>(roomOf: C -> string, r: Registry<C>, c: C): Registry<C> {
    var room := roomOf(c);
    if room in r.rooms && c in r.rooms[room] then
      var left := r.rooms[room] - {c};
      var r' := r.(done := CloseOnce(r.done, c));
      if left == {} then DropRoom(r', room) else r'.(rooms := r.rooms[room := left])
    else r
  }

  // ---- what it means ----

  /** The rooms are the live clients grouped by room, and no group is empty. */
  ghost predicate Grouped<C>(roomOf: C -> string, rooms: map<string, set<C>>, live: set<C>) {
    && (forall room | room in rooms :: rooms[room] != {})
    && (forall room, c | room in rooms && c in rooms[room] :: roomOf(c) == room && c in live)
    && (forall c | c in live :: roomOf(c) in rooms && c in rooms[roomOf(c)])
  }

  /** Rooms and cancel functions have the same keys; each room has exactly one uncancelled context, the one its
      function cancels, and every other context is cancelled. */
  ghost predicate Subscribed<C>(r: Registry<C>) {
    && r.rooms.Keys == r.cancelSub.Keys
    && (forall room | room in r.cancelSub ::
          r.cancelSub[room] < |r.contexts| && r.contexts[r.cancelSub[room]] == Context(room, false))
    && (forall i | 0 <= i < |r.contexts| && !r.contexts[i].cancelled ::
          r.contexts[i].room in r.cancelSub && r.cancelSub[r.contexts[i].room] == i)
  }

  datatype Event<C> = Joined(c: C) | Left(c: C)

  function Apply<C(==)>(roomOf: C -> string, r: Registry<C>, e: Event<C>): Registry<C> {
    if e.Joined? then Register(roomOf, r, e.c) else Unregister(roomOf, r, e.c)
  }

  function ApplyAll<C(==)>(roomOf: C -> string, events: seq<Event<C>>): Registry<C> {
    if events == [] then Empty()
    else Apply(roomOf, ApplyAll(roomOf, events[..|events| - 1]), events[|events| - 1])
  }

  /** The clients whose last event is a join. */
  function Live<C(==)>(events: seq<Event<C>>): set<C> {
    if events == [] then {}
    else
      var before, e := Live(events[..|events| - 1]), events[|events| - 1];
      if e.Joined? then before + {e.c} else before - {e.c}
  }

  /** The clients some event took out of the live set. */
  function Removed<C(==)>(events: seq<Event<C>>): set<C> {
    if events == [] then {}
    else
      var front, e := events[..|events| - 1], events[|events| - 1];
      Removed(front) + if e.Left? && e.c in Live(front) then {e.c} else {}
  }

  lemma JoinKeepsGroups<C>(roomOf: C -> string, r: Registry<C>, live: set<C>, c: C)
    requires Grouped(roomOf, r.rooms, live)
    ensures Grouped(roomOf, Register(roomOf, r, c).rooms, live + {c})
  {
  }

  lemma JoinKeepsSubscriptions<C>(roomOf: C -> string, r: Registry<C>, c: C)
    requires Subscribed(r)
    ensures Subscribed(Register(roomOf, r, c))
  {
  }

  lemma JoinKeeps<C>(roomOf: C -> string, r: Registry<C>, live: set<C>, c: C)
    requires Grouped(roomOf, r.rooms, live) && Subscribed(r)
    ensures Grouped(roomOf, Register(roomOf, r, c).rooms, live + {c}) && Subscribed(Register(roomOf, r, c))
  {
    JoinKeepsGroups(roomOf, r, live, c);
    JoinKeepsSubscriptions(roomOf, r, c);
  }

  lemma DropKeepsSubscriptions<C>(r: Registry<C>, room: string)
    requires Subscribed(r) && room in r.rooms
    ensures Subscribed(DropRoom(r, room))
  {
    var r' := DropRoom(r, room);
    forall i | 0 <= i < |r'.contexts| && !r'.contexts[i].cancelled
      ensures r'.contexts[i].room in r'.cancelSub && r'.cancelSub[r'.contexts[i].room] == i {
      assert i != r.cancelSub[room] && r'.contexts[i] == r.contexts[i];
    }
  }

  lemma DropKeepsGroups<C>(roomOf: C -> string, rooms: map<string, set<C>>, live: set<C>, c: C)
    requires Grouped(roomOf, rooms, live) && c in live && rooms[roomOf(c)] - {c} == {}
    ensures Grouped(roomOf, rooms - {roomOf(c)}, live - {c})
  {
    var rooms' := rooms - {roomOf(c)};
    forall d | d in live - {c} ensures roomOf(d) in rooms' && d in rooms'[roomOf(d)] {
      assert d in rooms[roomOf(d)];
      assert d !in rooms[roomOf(c)] - {c};
    }
  }

  lemma LeaveKeeps<C>(roomOf: C -> string, r: Registry<C>, live: set<C>, c: C)
    requires Grouped(roomOf, r.rooms, live) && Subscribed(r)
    ensures Grouped(roomOf, Unregister(roomOf, r, c).rooms, live - {c}) && Subscribed(Unregister(roomOf, r, c))
  {
    var room := roomOf(c);
    if room in r.rooms && c in r.rooms[room] {
      if r.rooms[room] - {c} == {} {
        DropKeepsGroups(roomOf, r.rooms, live, c);
        DropKeepsSubscriptions(r.(done := CloseOnce(r.done, c)), room);
      }
    }
  }

  /** Leaving closes the done channel of a live client, and of no other. */
  lemma LeaveCloses<C>(roomOf: C -> string, r: Registry<C>, live: set<C>, c: C)
    requires Grouped(roomOf, r.rooms, live) && NoDup(r.done)
    ensures var done := Unregister(roomOf, r, c).done;
            NoDup(done) && (set x | x in done) == (set x | x in r.done) + if c in live then {c} else {}
  {
    assert c in live <==> roomOf(c) in r.rooms && c in r.rooms[roomOf(c)];
    assert Unregister(roomOf, r, c).done == if c in live then CloseOnce(r.done, c) else r.done;
  }

  /** After any sequence of register and unregister events: the rooms are exactly the live clients grouped by
      room, the subscription contexts match them one to one, and the done channels closed are exactly those of the
      clients removed, each closed once. */
  lemma {:induction false} Membership<C>(roomOf: C -> string, events: seq<Event<C>>)
    ensures var r := ApplyAll(roomOf, events);
            && Grouped(roomOf, r.rooms, Live(events))
            && Subscribed(r)
            && NoDup(r.done) && (set c | c in r.done) == Removed(events)
  {
    if events != [] {
      var front, e := events[..|events| - 1], events[|events| - 1];
      Membership(roomOf, front);
      var r := ApplyAll(roomOf, front);
      if e.Joined? {
        JoinKeeps(roomOf, r, Live(front), e.c);
      } else {
        LeaveKeeps(roomOf, r, Live(front), e.c);
        LeaveCloses(roomOf, r, Live(front), e.c);
      }
    }
  }

  // ---- when contexts are made and cancelled ----

  ghost predicate Occupied<C>(roomOf: C -> string, live: set<C>, room: string) {
    exists c :: c in live && roomOf(c) == room
  }

  /** The joins that found no live client in their room, by their places among the events. */
  ghost function Openings<C>(roomOf: C -> string, events: seq<Event<C>>): seq<nat> {
    if events == [] then []
    else
      var n := |events| - 1;
      Openings(roomOf, events[..n]) +
      if events[n].Joined? && !Occupied(roomOf, Live(events[..n]), roomOf(events[n].c)) then [n] else []
  }

  /** After some event later than the n-th the room had no client. */
  ghost predicate EmptiedSince<C>(roomOf: C -> string, events: seq<Event<C>>, n: nat, room: string) {
    exists m :: n + 1 < m <= |events| && !Occupied(roomOf, Live(events[..m]), room)
  }

  lemma RoomIsOccupied<C>(roomOf: C -> string, rooms: map<string, set<C>>, live: set<C>, room: string)
    requires Grouped(roomOf, rooms, live)
    ensures room in rooms <==> Occupied(roomOf, live, room)
  {
    if room in rooms {
      var c :| c in rooms[room];
      assert c in live && roomOf(c) == room;
    }
  }

  /** A join makes a context exactly when it is the first of its room, and touches no other. */
  lemma JoinOpens<C>(roomOf: C -> string, r: Registry<C>, live: set<C>, c: C)
    requires Grouped(roomOf, r.rooms, live)
    ensures Register(roomOf, r, c).contexts
         == r.contexts + if Occupied(roomOf, live, roomOf(c)) then [] else [Context(roomOf(c), false)]
  {
    RoomIsOccupied(roomOf, r.rooms, live, roomOf(c));
  }

  /** A leave makes no context and cancels the room's one exactly when it empties the room. */
  lemma LeaveCancels<C>(roomOf: C -> string, r: Registry<C>, live: set<C>, c: C, k: nat)
    requires Grouped(roomOf, r.rooms, live) && Subscribed(r) && k < |r.contexts|
    ensures var contexts := Unregister(roomOf, r, c).contexts;
            && |contexts| == |r.contexts| && contexts[k].room == r.contexts[k].room
            && (contexts[k].cancelled <==>
                r.contexts[k].cancelled || !Occupied(roomOf, live - {c}, r.contexts[k].room))
  {
    var r', room := Unregister(roomOf, r, c), r.contexts[k].room;
    LeaveKeeps(roomOf, r, live, c);
    RoomIsOccupied(roomOf, r'.rooms, live - {c}, room);
    RoomIsOccupied(roomOf, r.rooms, live, room);
  }

  /** The context is the one the n-th event, a join, brought, and it is cancelled exactly when some later event left
      its room empty. */
  ghost predicate OpenedBy<C>(roomOf: C -> string, events: seq<Event<C>>, n: nat, x: Context) {
    && n < |events| && events[n].Joined? && x.room == roomOf(events[n].c)
    && (x.cancelled <==> EmptiedSince(roomOf, events, n, x.room))
  }

  lemma EmptiedLater<C>(roomOf: C -> string, events: seq<Event<C>>, n: nat, room: string)
    requires n + 1 < |events| && EmptiedSince(roomOf, events[..|events| - 1], n, room)
    ensures EmptiedSince(roomOf, events, n, room)
  {
    var front := events[..|events| - 1];
    var m :| n + 1 < m <= |front| && !Occupied(roomOf, Live(front[..m]), room);
    assert events[..m] == front[..m];
  }

  lemma EmptiedBefore<C>(roomOf: C -> string, events: seq<Event<C>>, n: nat, room: string)
    requires n + 1 < |events| && EmptiedSince(roomOf, events, n, room) && Occupied(roomOf, Live(events), room)
    ensures EmptiedSince(roomOf, events[..|events| - 1], n, room)
  {
    var front := events[..|events| - 1];
    var m :| n + 1 < m <= |events| && !Occupied(roomOf, Live(events[..m]), room);
    assert m < |events| by { assert events[..|events|] == events; }
    assert events[..m] == front[..m];
  }

  lemma EmptiedSinceStep<C>(roomOf: C -> string, events: seq<Event<C>>, n: nat, room: string)
    requires n + 1 < |events|
    ensures EmptiedSince(roomOf, events, n, room) <==>
            EmptiedSince(roomOf, events[..|events| - 1], n, room) || !Occupied(roomOf, Live(events), room)
  {
    if EmptiedSince(roomOf, events[..|events| - 1], n, room) {
      EmptiedLater(roomOf, events, n, room);
    } else if !Occupied(roomOf, Live(events), room) {
      assert events[..|events|] == events;
    } else if EmptiedSince(roomOf, events, n, room) {
      EmptiedBefore(roomOf, events, n, room);
    }
  }

  lemma OpenedByStep<C>(roomOf: C -> string, events: seq<Event<C>>, n: nat, x: Context, x': Context)
    requires events != [] && OpenedBy(roomOf, events[..|events| - 1], n, x) && x'.room == x.room
    requires x'.cancelled <==> x.cancelled || !Occupied(roomOf, Live(events), x.room)
    ensures OpenedBy(roomOf, events, n, x')
  {
    EmptiedSinceStep(roomOf, events, n, x.room);
    assert events[..|events| - 1][n] == events[n];
  }

  /** A join leaves every earlier context as it was. */
  lemma JoinedStep<C>(roomOf: C -> string, events: seq<Event<C>>, n: nat, k: nat)
    requires events != [] && events[|events| - 1].Joined?
    requires k < |ApplyAll(roomOf, events[..|events| - 1]).contexts|
    requires OpenedBy(roomOf, events[..|events| - 1], n, ApplyAll(roomOf, events[..|events| - 1]).contexts[k])
    ensures k < |ApplyAll(roomOf, events).contexts|
    ensures OpenedBy(roomOf, events, n, ApplyAll(roomOf, events).contexts[k])
  {
    var front, c := events[..|events| - 1], events[|events| - 1].c;
    var r := ApplyAll(roomOf, front);
    var x := r.contexts[k];
    Membership(roomOf, front);
    JoinOpens(roomOf, r, Live(front), c);
    RoomIsOccupied(roomOf, r.rooms, Live(front), x.room);
    if Occupied(roomOf, Live(front), x.room) {
      var d :| d in Live(front) && roomOf(d) == x.room;
      assert d in Live(events);
    }
    OpenedByStep(roomOf, events, n, x, x);
  }

  lemma LeftStep<C>(roomOf: C -> string, events: seq<Event<C>>, n: nat, k: nat)
    requires events != [] && events[|events| - 1].Left?
    requires k < |ApplyAll(roomOf, events[..|events| - 1]).contexts|
    requires OpenedBy(roomOf, events[..|events| - 1], n, ApplyAll(roomOf, events[..|events| - 1]).contexts[k])
    ensures |ApplyAll(roomOf, events).contexts| == |ApplyAll(roomOf, events[..|events| - 1]).contexts|
    ensures OpenedBy(roomOf, events, n, ApplyAll(roomOf, events).contexts[k])
  {
    var front, c := events[..|events| - 1], events[|events| - 1].c;
    var r := ApplyAll(roomOf, front);
    Membership(roomOf, front);
    LeaveCancels(roomOf, r, Live(front), c, k);
    OpenedByStep(roomOf, events, n, r.contexts[k], Unregister(roomOf, r, c).contexts[k]);
  }

  lemma NewlyOpened<C>(roomOf: C -> string, events: seq<Event<C>>)
    requires events != [] && events[|events| - 1].Joined?
    ensures OpenedBy(roomOf, events, |events| - 1, Context(roomOf(events[|events| - 1].c), false))
  {
  }

  /** There is one context for each join that found its room empty, in the order of those joins: a further viewer
      makes none and cancels none, and the leave that empties the room cancels its context. */
  lemma {:induction false} ContextsAreOpenings<C>(roomOf: C -> string, events: seq<Event<C>>)
    ensures var contexts, joins := ApplyAll(roomOf, events).contexts, Openings(roomOf, events);
            && |contexts| == |joins|
            && forall k | 0 <= k < |joins| :: OpenedBy(roomOf, events, joins[k], contexts[k])
  {
    if events != [] {
      var n := |events| - 1;
      var front, e := events[..n], events[n];
      ContextsAreOpenings(roomOf, front);
      Membership(roomOf, front);
      var r := ApplyAll(roomOf, front);
      var joins := Openings(roomOf, front);
      forall k | 0 <= k < |joins|
        ensures k < |ApplyAll(roomOf, events).contexts|
        ensures OpenedBy(roomOf, events, joins[k], ApplyAll(roomOf, events).contexts[k]) {
        if e.Joined? { JoinedStep(roomOf, events, joins[k], k); } else { LeftStep(roomOf, events, joins[k], k); }
      }
      if e.Joined? {
        JoinOpens(roomOf, r, Live(front), e.c);
        if !Occupied(roomOf, Live(front), roomOf(e.c)) { NewlyOpened(roomOf, events); }
      }
    }
  }
}

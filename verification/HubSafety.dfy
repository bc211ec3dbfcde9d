/** What every step of the system keeps, server by server and between servers. */
module HubSafety {
  import opened Seqs
  import Registry
  import opened Fanout
  import FanoutSafety
  import FanoutSnapshots
  import FanoutDelivery
  import opened Hub

  // ---- one server ----

  ghost predicate RegistryOk(i: nat, srv: Server) {
    && Registry.Grouped(RoomOf, srv.reg.rooms, srv.reading)
    && Registry.Subscribed(srv.reg)
    && |srv.subs| == |srv.reg.contexts|
    && srv.reading <= srv.seen
    && (set c | c in srv.reg.done) == srv.seen - srv.reading
    && NoDup(srv.reg.done)
    && (forall c | c in srv.seen :: c.server == i)
  }

  /** The post the loop has taken and not yet pushed, and not yet published. */
  function Unpushed(loop: Loop): seq<nat> {
    if loop.Pushing? then [loop.post] else []
  }

  function Unpublished(loop: Loop): seq<nat> {
    if loop.Selecting? then [] else [loop.post]
  }

  /** Publication follows the Broadcast channel's order and loses nothing. */
  ghost predicate QueueOk(srv: Server) {
    && srv.routed == srv.published + Unpublished(srv.loop) + srv.broadcast
    && srv.published + Unpublished(srv.loop) == srv.pushed + Unpushed(srv.loop)
    && |srv.broadcast| <= BROADCAST_CHAN_SIZE
  }

  /** A call in progress is the newest forwarding of its subscription and not yet in the log. */
  ghost predicate CallOk(srv: Server, slot: nat)
    requires slot < |srv.fan.callers|
  {
    var c := srv.fan.callers[slot];
    c.Called? && c.payload.Forwarded? ==>
      var k := c.payload.via;
      && k < |srv.subs| && k < |srv.reg.contexts|
      && srv.subs[k].phase == Forwarding(slot)
      && c.payload.post in srv.subs[k].forwarded
      && c.room == srv.reg.contexts[k].room
      && forall id | 0 <= id < |srv.fan.log| :: srv.fan.log[id].payload != c.payload
  }

  /** A handoff's payload was forwarded by its subscription, to the subscription's room. */
  ghost predicate HandoffOk(srv: Server, h: Handoff) {
    h.payload.Forwarded? ==>
      var k := h.payload.via;
      k < |srv.subs| && k < |srv.reg.contexts| && h.payload.post in srv.subs[k].forwarded
        && h.room == srv.reg.contexts[k].room
  }

  ghost predicate CallsOk(srv: Server) {
    && (forall slot | 0 <= slot < |srv.fan.callers| :: CallOk(srv, slot))
    && (forall id | 0 <= id < |srv.fan.log| :: HandoffOk(srv, srv.fan.log[id]))
    && (forall id1, id2 | 0 <= id1 < id2 < |srv.fan.log| ::
          srv.fan.log[id1].payload.Forwarded? ==> srv.fan.log[id1].payload != srv.fan.log[id2].payload)
    && (forall k | 0 <= k < |srv.subs| :: NoDup(srv.subs[k].forwarded + srv.subs[k].inbox))
  }

  /** A snapshot only ever names the server's clients of its room. */
  ghost predicate MembersOk(i: nat, log: seq<Handoff>) {
    forall id | 0 <= id < |log| :: forall c | c in log[id].members :: c.room == log[id].room && c.server == i
  }

  ghost predicate ServerOk(i: nat, srv: Server) {
    && RegistryOk(i, srv) && QueueOk(srv) && CallsOk(srv) && MembersOk(i, srv.fan.log)
    && FanoutDelivery.Inv(srv.reg.rooms, srv.fan)
  }

  // ---- membership ----

  lemma ConnectKeepsRegistry(i: nat, srv: Server, c: Client)
    requires RegistryOk(i, srv) && LocalEnabled(i, srv, Connect(c))
    ensures RegistryOk(i, ConnectClient(srv, c))
  {
    Registry.JoinKeeps(RoomOf, srv.reg, srv.reading, c);
  }

  lemma DisconnectKeepsRegistry(i: nat, srv: Server, c: Client)
    requires RegistryOk(i, srv) && LocalEnabled(i, srv, Disconnect(c))
    ensures RegistryOk(i, LocalNext(i, srv, Disconnect(c)))
  {
    Registry.LeaveKeeps(RoomOf, srv.reg, srv.reading, c);
    Registry.LeaveCloses(RoomOf, srv.reg, srv.reading, c);
    ContextsKeepRooms(srv.reg, Registry.Left(c));
    assert srv.seen - srv.reading + {c} == srv.seen - (srv.reading - {c});
  }

  /** Contexts only ever get added or cancelled. */
  lemma ContextsKeepRooms(reg: Registry.Registry<Client>, e: Registry.Event<Client>)
    ensures var reg' := Registry.Apply(RoomOf, reg, e);
            && |reg.contexts| <= |reg'.contexts| && (e.Left? ==> |reg'.contexts| == |reg.contexts|)
            && forall k | 0 <= k < |reg.contexts| :: reg'.contexts[k].room == reg.contexts[k].room
  {
  }

  /** Growing the subscriptions and contexts does not disturb the calls in progress. */
  lemma CallsSurvive(srv: Server, srv': Server)
    requires CallsOk(srv) && srv'.fan == srv.fan
    requires |srv.subs| <= |srv'.subs| && |srv.reg.contexts| <= |srv'.reg.contexts|
    requires forall k | 0 <= k < |srv.subs| :: srv'.subs[k] == srv.subs[k]
    requires forall k | |srv.subs| <= k < |srv'.subs| :: srv'.subs[k] == Sub(Starting, [], [])
    requires forall k | 0 <= k < |srv.reg.contexts| :: srv'.reg.contexts[k].room == srv.reg.contexts[k].room
    ensures CallsOk(srv')
  {
    forall slot | 0 <= slot < |srv'.fan.callers| ensures CallOk(srv', slot) {
      assert CallOk(srv, slot);
    }
    forall id | 0 <= id < |srv'.fan.log| ensures HandoffOk(srv', srv'.fan.log[id]) {
      assert HandoffOk(srv, srv.fan.log[id]);
    }
  }

  lemma FanSurvives(rooms: map<string, set<Client>>, rooms': map<string, set<Client>>, f: Fanout)
    requires FanoutDelivery.Inv(rooms, f) && NoReaders(f)
    ensures FanoutDelivery.Inv(rooms', f)
  {
    FanoutSnapshots.RoomsMayChange(rooms, rooms', f);
  }

  lemma ConnectKeeps(i: nat, srv: Server, c: Client)
    requires ServerOk(i, srv) && LocalEnabled(i, srv, Connect(c))
    ensures ServerOk(i, LocalNext(i, srv, Connect(c)))
  {
    ConnectKeepsRegistry(i, srv, c);
    ContextsKeepRooms(srv.reg, Registry.Joined(c));
    CallsSurvive(srv, ConnectClient(srv, c));
    FanSurvives(srv.reg.rooms, ConnectClient(srv, c).reg.rooms, srv.fan);
  }

  lemma DisconnectKeeps(i: nat, srv: Server, c: Client)
    requires ServerOk(i, srv) && LocalEnabled(i, srv, Disconnect(c))
    ensures ServerOk(i, LocalNext(i, srv, Disconnect(c)))
  {
    var srv' := LocalNext(i, srv, Disconnect(c));
    DisconnectKeepsRegistry(i, srv, c);
    ContextsKeepRooms(srv.reg, Registry.Left(c));
    CallsSurvive(srv, srv');
    FanSurvives(srv.reg.rooms, srv'.reg.rooms, srv.fan);
  }

  // ---- the loop and the subscriptions ----

  lemma LoopKeeps(i: nat, srv: Server, a: LocalAction)
    requires ServerOk(i, srv) && LocalEnabled(i, srv, a) && (a.LoopTakes? || a.LoopPushes?)
    ensures ServerOk(i, LocalNext(i, srv, a))
  {
    var srv' := LocalNext(i, srv, a);
    assert srv.published + [] == srv.published && srv.pushed + [] == srv.pushed && srv'.pushed + [] == srv'.pushed;
    if a.LoopTakes? {
      assert srv.broadcast == [srv.broadcast[0]] + srv.broadcast[1..];
      assert srv.published + srv.broadcast == srv.published + [srv.broadcast[0]] + srv.broadcast[1..];
    }
    assert QueueOk(srv');
    CallsSurvive(srv, srv');
  }

  /** A subscription that changes phase without forwarding. */
  lemma SubMovesKeeps(i: nat, srv: Server, a: LocalAction)
    requires ServerOk(i, srv) && LocalEnabled(i, srv, a) && (a.SubListens? || a.SubReturns? || a.SubLeaves?)
    ensures ServerOk(i, LocalNext(i, srv, a))
  {
    PhaseKeepsCalls(srv, a.k, LocalNext(i, srv, a).subs[a.k].phase);
  }

  /** A subscription leaves Forwarding only once its call is over. */
  lemma PhaseKeepsCalls(srv: Server, k: nat, phase: SubPhase)
    requires CallsOk(srv) && k < |srv.subs|
    requires srv.subs[k].phase.Forwarding? ==>
               srv.subs[k].phase.slot < |srv.fan.callers| && srv.fan.callers[srv.subs[k].phase.slot].Free?
    ensures CallsOk(SetSub(srv, k, srv.subs[k].(phase := phase)))
  {
    var srv' := SetSub(srv, k, srv.subs[k].(phase := phase));
    forall slot | 0 <= slot < |srv'.fan.callers| ensures CallOk(srv', slot) {
      assert CallOk(srv, slot);
    }
    forall id | 0 <= id < |srv'.fan.log| ensures HandoffOk(srv', srv'.fan.log[id]) {
      assert HandoffOk(srv, srv.fan.log[id]);
    }
  }

  lemma StartKeepsFan(rooms: map<string, set<Client>>, f: Fanout, slot: nat, room: string, payload: Payload)
    requires FanoutDelivery.Inv(rooms, f) && slot < |f.callers| && f.callers[slot].Free?
    ensures FanoutDelivery.Inv(rooms, StartCall(f, slot, room, payload))
  {
    assert Enabled(rooms, f, Start(slot, room, payload)) by { assert FanoutSnapshots.Content(rooms, f); }
    FanoutDelivery.StepKeeps(rooms, f, Start(slot, room, payload));
  }

  lemma StatsKeeps(i: nat, srv: Server, a: LocalAction)
    requires ServerOk(i, srv) && LocalEnabled(i, srv, a) && a.StatsCall?
    ensures ServerOk(i, LocalNext(i, srv, a))
  {
    var srv' := LocalNext(i, srv, a);
    StartKeepsFan(srv.reg.rooms, srv.fan, a.slot, a.room, Stats(a.online, a.likes));
    forall slot | 0 <= slot < |srv'.fan.callers| ensures CallOk(srv', slot) {
      assert CallOk(srv, slot);
    }
    forall id | 0 <= id < |srv'.fan.log| ensures HandoffOk(srv', srv'.fan.log[id]) {
      assert HandoffOk(srv, srv.fan.log[id]);
    }
  }

  /** A post just taken from the inbox was never forwarded before, so no handoff carries it. */
  lemma ForwardIsNew(srv: Server, k: nat)
    requires CallsOk(srv) && k < |srv.subs| && srv.subs[k].inbox != []
    ensures srv.subs[k].inbox[0] !in srv.subs[k].forwarded
    ensures forall id | 0 <= id < |srv.fan.log| :: srv.fan.log[id].payload != Forwarded(k, srv.subs[k].inbox[0])
    ensures NoDup(srv.subs[k].forwarded + [srv.subs[k].inbox[0]] + srv.subs[k].inbox[1..])
  {
    var sub := srv.subs[k];
    assert sub.forwarded + sub.inbox == sub.forwarded + [sub.inbox[0]] + sub.inbox[1..];
    NoDupConcat(sub.forwarded, sub.inbox);
    forall id | 0 <= id < |srv.fan.log| ensures srv.fan.log[id].payload != Forwarded(k, sub.inbox[0]) {
      assert HandoffOk(srv, srv.fan.log[id]);
    }
  }

  lemma ForwardKeepsCalls(srv: Server, k: nat, slot: nat)
    requires CallsOk(srv) && k < |srv.subs| && k < |srv.reg.contexts| && srv.subs[k].inbox != [] && SlotFree(srv, slot)
    requires srv.subs[k].phase.Listening?
    ensures CallsOk(Forward(srv, k, slot))
  {
    var srv' := Forward(srv, k, slot);
    ForwardIsNew(srv, k);
    forall t | 0 <= t < |srv'.fan.callers| ensures CallOk(srv', t) {
      assert CallOk(srv, t);
    }
    forall id | 0 <= id < |srv'.fan.log| ensures HandoffOk(srv', srv'.fan.log[id]) {
      assert HandoffOk(srv, srv.fan.log[id]);
    }
  }

  lemma ForwardKeeps(i: nat, srv: Server, k: nat, slot: nat)
    requires ServerOk(i, srv) && LocalEnabled(i, srv, SubForwards(k, slot))
    ensures ServerOk(i, LocalNext(i, srv, SubForwards(k, slot)))
  {
    ForwardKeepsCalls(srv, k, slot);
    StartKeepsFan(srv.reg.rooms, srv.fan, slot, srv.reg.contexts[k].room, Forwarded(k, srv.subs[k].inbox[0]));
  }

  // ---- the fan-out ----

  /** A fan-out step starts no call; only a lock ends one, into the log. */
  lemma FanStepCalls(rooms: map<string, set<Client>>, f: Fanout, a: Action)
    requires Enabled(rooms, f, a) && !a.Start? && !FanoutSafety.OfWorker(a) && !a.Append? && !a.Dispatch?
    ensures forall t | 0 <= t < |Next(rooms, f, a).callers| && Next(rooms, f, a).callers[t].Called? ::
              t < |f.callers| && f.callers[t] == Next(rooms, f, a).callers[t] && !(a.Lock? && a.i == t)
  {
  }

  lemma FillStepCalls(rooms: map<string, set<Client>>, f: Fanout, a: Action)
    requires Enabled(rooms, f, a) && (a.Append? || a.Dispatch?)
    ensures forall t | 0 <= t < |Next(rooms, f, a).callers| && Next(rooms, f, a).callers[t].Called? ::
              t < |f.callers| && f.callers[t] == Next(rooms, f, a).callers[t]
  {
  }

  lemma WorkerStepCalls(rooms: map<string, set<Client>>, f: Fanout, a: Action)
    requires Enabled(rooms, f, a) && FanoutSafety.OfWorker(a)
    ensures Next(rooms, f, a).callers == f.callers
  {
  }

  /** No call starts and the log keeps its rooms and payloads. */
  lemma CallsFollow(srv: Server, srv': Server)
    requires CallsOk(srv) && srv' == srv.(fan := srv'.fan) && |srv'.fan.log| == |srv.fan.log|
    requires forall t | 0 <= t < |srv'.fan.callers| && srv'.fan.callers[t].Called? ::
               t < |srv.fan.callers| && srv.fan.callers[t] == srv'.fan.callers[t]
    requires forall id | 0 <= id < |srv.fan.log| ::
               srv'.fan.log[id].payload == srv.fan.log[id].payload && srv'.fan.log[id].room == srv.fan.log[id].room
    ensures CallsOk(srv')
  {
    forall t | 0 <= t < |srv'.fan.callers| ensures CallOk(srv', t) {
      if srv'.fan.callers[t].Called? {
        assert CallOk(srv, t);
      }
    }
    forall id | 0 <= id < |srv'.fan.log| ensures HandoffOk(srv', srv'.fan.log[id]) {
      assert HandoffOk(srv, srv.fan.log[id]);
    }
  }

  lemma LockKeepsCalls(srv: Server, srv': Server, slot: nat, order: seq<Client>)
    requires CallsOk(srv) && Enabled(srv.reg.rooms, srv.fan, Lock(slot, order))
    requires srv' == srv.(fan := Next(srv.reg.rooms, srv.fan, Lock(slot, order)))
    ensures CallsOk(srv')
  {
    FanStepCalls(srv.reg.rooms, srv.fan, Lock(slot, order));
    assert CallOk(srv, slot);
    forall t | 0 <= t < |srv'.fan.callers| ensures CallOk(srv', t) {
      if srv'.fan.callers[t].Called? {
        assert CallOk(srv, t);
      }
    }
    forall id | 0 <= id < |srv'.fan.log| ensures HandoffOk(srv', srv'.fan.log[id]) {
      if id < |srv.fan.log| {
        assert HandoffOk(srv, srv.fan.log[id]);
      }
    }
  }

  lemma OtherFanStepsKeepCalls(srv: Server, srv': Server, a: Action)
    requires CallsOk(srv) && Enabled(srv.reg.rooms, srv.fan, a) && !a.Lock? && !a.Start?
    requires srv' == srv.(fan := Next(srv.reg.rooms, srv.fan, a))
    ensures CallsOk(srv')
  {
    if FanoutSafety.OfWorker(a) {
      WorkerStepCalls(srv.reg.rooms, srv.fan, a);
    } else if a.Append? || a.Dispatch? {
      FillStepCalls(srv.reg.rooms, srv.fan, a);
    } else {
      FanStepCalls(srv.reg.rooms, srv.fan, a);
    }
    FanoutSafety.LogMoves(srv.reg.rooms, srv.fan, a);
    CallsFollow(srv, srv');
  }

  /** A lock snapshots the room, whose members are the server's clients of that room. */
  lemma FanStepKeepsMembers(i: nat, srv: Server, a: Action)
    requires RegistryOk(i, srv) && MembersOk(i, srv.fan.log) && Enabled(srv.reg.rooms, srv.fan, a)
    ensures MembersOk(i, Next(srv.reg.rooms, srv.fan, a).log)
  {
    FanoutSafety.LogMoves(srv.reg.rooms, srv.fan, a);
    var log' := Next(srv.reg.rooms, srv.fan, a).log;
    forall id | 0 <= id < |log'| ensures forall c | c in log'[id].members :: c.room == log'[id].room && c.server == i {
      if id < |srv.fan.log| {
        assert log'[id].members == srv.fan.log[id].members && log'[id].room == srv.fan.log[id].room;
      } else {
        forall c | c in log'[id].members ensures c.room == log'[id].room && c.server == i {
          assert RoomOf(c) == log'[id].room && c in srv.seen;
        }
      }
    }
  }

  lemma FanKeeps(i: nat, srv: Server, a: Action)
    requires ServerOk(i, srv) && LocalEnabled(i, srv, FanStep(a))
    ensures ServerOk(i, LocalNext(i, srv, FanStep(a)))
  {
    var srv' := LocalNext(i, srv, FanStep(a));
    FanoutDelivery.StepKeeps(srv.reg.rooms, srv.fan, a);
    FanStepKeepsMembers(i, srv, a);
    if a.Lock? {
      LockKeepsCalls(srv, srv', a.i, a.order);
    } else {
      OtherFanStepsKeepCalls(srv, srv', a);
    }
  }

  lemma LocalKeeps(i: nat, srv: Server, a: LocalAction)
    requires ServerOk(i, srv) && LocalEnabled(i, srv, a)
    ensures ServerOk(i, LocalNext(i, srv, a))
  {
    match a {
      case Connect(c) => ConnectKeeps(i, srv, c);
      case Disconnect(c) => DisconnectKeeps(i, srv, c);
      case LoopTakes => LoopKeeps(i, srv, a);
      case LoopPushes => LoopKeeps(i, srv, a);
      case SubListens(_) => SubMovesKeeps(i, srv, a);
      case SubForwards(k, slot) => ForwardKeeps(i, srv, k, slot);
      case SubReturns(_) => SubMovesKeeps(i, srv, a);
      case SubLeaves(_) => SubMovesKeeps(i, srv, a);
      case StatsCall(_, _, _, _) => StatsKeeps(i, srv, a);
      case FanStep(fa) => FanKeeps(i, srv, fa);
    }
  }
}

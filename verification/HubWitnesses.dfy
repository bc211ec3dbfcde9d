/** Two things the hub does not promise, with runs that show it: clients need not receive in the order of publication,
    whether workers or subscriptions get in each other's way, and a message can reach a client twice. */
module HubWitnesses {
  import opened Wire
  import Registry
  import Keys
  import opened Fanout
  import opened Hub

  lemma {:induction false} RunSnoc(codec: Codec, s: System, acts: seq<SystemAction>, t: System, a: SystemAction)
    requires Run(codec, s, acts, t) && SystemEnabled(t, a)
    ensures Run(codec, s, acts + [a], SystemNext(codec, t, a))
    decreases |acts|
  {
    if acts == [] {
      assert ([] + [a])[1..] == [];
    } else {
      RunSnoc(codec, SystemNext(codec, s, acts[0]), acts[1..], t, a);
      assert (acts + [a])[1..] == acts[1..] + [a];
    }
  }

  lemma ReachableStep(codec: Codec, s: System, a: SystemAction)
    requires Reachable(codec, s) && SystemEnabled(s, a)
    ensures Reachable(codec, SystemNext(codec, s, a))
  {
    var n: nat, acts :| Run(codec, InitSystem(n), acts, s);
    RunSnoc(codec, InitSystem(n), acts, s, a);
  }

  // ---- one server on its own ----

  ghost predicate Alone(codec: Codec, srv: Server, posts: seq<Post>) {
    Reachable(codec, System([srv], posts))
  }

  lemma StartsAlone(codec: Codec)
    ensures Alone(codec, InitServer(), [])
  {
    assert Run(codec, InitSystem(1), [], InitSystem(1));
    assert InitSystem(1) == System([InitServer()], []);
  }

  lemma LocalStep(codec: Codec, srv: Server, posts: seq<Post>, a: LocalAction)
    requires Alone(codec, srv, posts) && LocalEnabled(0, srv, a)
    ensures Alone(codec, LocalNext(0, srv, a), posts)
  {
    ReachableStep(codec, System([srv], posts), Local(0, a));
    assert [srv][0 := LocalNext(0, srv, a)] == [LocalNext(0, srv, a)];
  }

  lemma FanStepped(codec: Codec, srv: Server, posts: seq<Post>, a: Action)
    requires Alone(codec, srv, posts) && !a.Start? && Enabled(srv.reg.rooms, srv.fan, a)
    ensures Alone(codec, srv.(fan := Next(srv.reg.rooms, srv.fan, a)), posts)
  {
    LocalStep(codec, srv, posts, FanStep(a));
  }

  // ---- from a client's word to the subscriptions' inboxes ----

  /** The loop takes a post, pushes it and publishes it to the given subscriptions. */
  lemma Posted(codec: Codec, srv: Server, posts: seq<Post>, c: Client, data: string, now: int, ks: set<nat>)
    returns (u: Server)
    requires Alone(codec, srv, posts) && c in srv.reading && srv.loop.Selecting? && srv.broadcast == []
    requires Enrich(codec, c.room, c.userId, data, now).Some?
    requires forall k | k in ks :: k < |srv.subs| && k < |srv.reg.contexts| && srv.subs[k].phase.Listening?
                                   && srv.reg.contexts[k].room == c.room
    ensures var posts' := posts + [Post(c, Enrich(codec, c.room, c.userId, data, now).value)]; Alone(codec, u, posts')
    ensures u == srv.(subs := Receive(srv, ks, |posts|).subs, routed := u.routed, pushed := u.pushed,
                      published := srv.published + [|posts|])
  {
    var posts' := posts + [Post(c, Enrich(codec, c.room, c.userId, data, now).value)];
    var s1 := Said(codec, srv, posts, c, data, now);
    var s2 := TakenAndPushed(codec, s1, posts', |posts|);
    u := PublishAlone(codec, s2, posts', ks);
  }

  lemma Said(codec: Codec, srv: Server, posts: seq<Post>, c: Client, data: string, now: int) returns (u: Server)
    requires Alone(codec, srv, posts) && c in srv.reading && srv.broadcast == []
    requires Enrich(codec, c.room, c.userId, data, now).Some?
    ensures Alone(codec, u, posts + [Post(c, Enrich(codec, c.room, c.userId, data, now).value)])
    ensures u == srv.(broadcast := [|posts|], routed := srv.routed + [|posts|])
  {
    u := srv.(broadcast := [|posts|], routed := srv.routed + [|posts|]);
    var s, a := System([srv], posts), Say(0, c, data, now);
    ReachableStep(codec, s, a);
    assert srv.broadcast + [|posts|] == [|posts|];
    assert [srv][0 := u] == [u];
    assert SystemNext(codec, s, a) == System([u], posts + [Post(c, Enrich(codec, c.room, c.userId, data, now).value)]);
  }

  lemma TakenAndPushed(codec: Codec, srv: Server, posts: seq<Post>, p: nat) returns (u: Server)
    requires Alone(codec, srv, posts) && srv.loop.Selecting? && srv.broadcast == [p]
    ensures Alone(codec, u, posts)
    ensures u == srv.(broadcast := [], loop := Publishing(p), pushed := srv.pushed + [p])
  {
    LocalStep(codec, srv, posts, LoopTakes);
    var s1 := LocalNext(0, srv, LoopTakes);
    LocalStep(codec, s1, posts, LoopPushes);
    u := LocalNext(0, s1, LoopPushes);
  }

  lemma PublishAlone(codec: Codec, srv: Server, posts: seq<Post>, ks: set<nat>) returns (u: Server)
    requires Alone(codec, srv, posts) && srv.loop.Publishing? && srv.loop.post < |posts|
    requires forall k | k in ks :: Subscribes(srv, k, Keys.PubSubChannel(posts[srv.loop.post].packet.roomId))
    ensures Alone(codec, u, posts)
    ensures u == srv.(subs := Receive(srv, ks, srv.loop.post).subs, loop := Selecting,
                      published := srv.published + [srv.loop.post])
  {
    var s := System([srv], posts);
    var a := Publish(0, [ks]);
    ReachableStep(codec, s, a);
    u := SystemNext(codec, s, a).servers[0];
    assert SystemNext(codec, s, a) == System([u], posts);
  }

  // ---- from an inbox to the job queue ----

  /** The server's only broadcaster slot is free and so are two workers; c is alone in its room and was sent nothing. */
  ghost predicate Ready(srv: Server, c: Client) {
    && c.room in srv.reg.rooms && srv.reg.rooms[c.room] == {c}
    && srv.fan.callers == [Free] && (forall k | 0 <= k < |srv.subs| :: !srv.subs[k].phase.Forwarding?)
    && !srv.fan.nilDereference && SendOf(srv.fan, c) == [] && |srv.fan.jobs| <= 1
    && 2 <= |srv.fan.workers| && srv.fan.workers[0].Idle? && srv.fan.workers[1].Idle?
  }

  /** A job for c alone. */
  predicate JobFor(f: Fanout, j: Job, c: Client) {
    j.slice.len == 1 && j.slice.addr < |f.heap| && f.heap[j.slice.addr] != [] && f.heap[j.slice.addr][0] == Ref(c)
  }

  /** Nothing but the broadcaster's own business and new arrays. */
  ghost predicate Undisturbed(f0: Fanout, f: Fanout) {
    && f.jobs == f0.jobs && f.workers == f0.workers && f.sends == f0.sends && f.nilDereference == f0.nilDereference
    && |f0.heap| <= |f.heap| && f.heap[..|f0.heap|] == f0.heap
  }

  lemma SnapshotOne(codec: Codec, srv: Server, posts: seq<Post>, c: Client, payload: Payload)
    returns (f: Fanout)
    requires Alone(codec, srv, posts) && c.room in srv.reg.rooms && srv.reg.rooms[c.room] == {c}
    requires srv.fan.callers == [Called(c.room, payload)] && !srv.fan.nilDereference
    ensures Alone(codec, srv.(fan := f), posts) && Undisturbed(srv.fan, f)
    ensures f.callers == [Filling(c.room, payload, |srv.fan.log|, [c], Slice(|srv.fan.heap|, 0))]
    ensures f.heap == srv.fan.heap + [seq(INIT_CLIENT_POOL_CAP, _ => Nil)]
  {
    var rooms, f0 := srv.reg.rooms, srv.fan;
    FanStepped(codec, srv, posts, Lock(0, [c]));
    var f1 := Next(rooms, f0, Lock(0, [c]));
    FanStepped(codec, srv.(fan := f1), posts, GetNew(0));
    f := Next(rooms, f1, GetNew(0));
  }

  lemma AppendOne(codec: Codec, srv: Server, posts: seq<Post>, c: Client, payload: Payload, id: nat)
    returns (f: Fanout)
    requires Alone(codec, srv, posts) && !srv.fan.nilDereference && srv.fan.heap != []
    requires srv.fan.callers == [Filling(c.room, payload, id, [c], Slice(|srv.fan.heap| - 1, 0))]
    requires srv.fan.heap[|srv.fan.heap| - 1] != []
    ensures Alone(codec, srv.(fan := f), posts)
    ensures f.callers == [Unlocked(payload, id, Slice(|srv.fan.heap| - 1, 1))]
    ensures Undisturbed(srv.fan.(heap := srv.fan.heap[..|srv.fan.heap| - 1]), f) && |f.heap| == |srv.fan.heap|
    ensures f.heap[|f.heap| - 1] != [] && f.heap[|f.heap| - 1][0] == Ref(c)
  {
    var rooms, f0 := srv.reg.rooms, srv.fan;
    FanStepped(codec, srv, posts, Append(0, 1));
    var f1 := Next(rooms, f0, Append(0, 1));
    FanStepped(codec, srv.(fan := f1), posts, Unlock(0));
    f := Next(rooms, f1, Unlock(0));
  }

  /** A broadcaster with the read lock carries one client to the job queue in a new slice. */
  lemma HandOver(codec: Codec, srv: Server, posts: seq<Post>, c: Client, payload: Payload)
    returns (f: Fanout)
    requires Alone(codec, srv, posts) && c.room in srv.reg.rooms && srv.reg.rooms[c.room] == {c}
    requires srv.fan.callers == [Called(c.room, payload)] && !srv.fan.nilDereference && |srv.fan.jobs| <= 1
    ensures Alone(codec, srv.(fan := f), posts)
    ensures f.callers == [Free] && f.workers == srv.fan.workers && f.sends == srv.fan.sends && !f.nilDereference
    ensures |f.jobs| == |srv.fan.jobs| + 1 && f.jobs[..|srv.fan.jobs|] == srv.fan.jobs
    ensures f.jobs[|srv.fan.jobs|].payload == payload && JobFor(f, f.jobs[|srv.fan.jobs|], c)
    ensures forall j | JobFor(srv.fan, j, c) :: JobFor(f, j, c)
  {
    var f1 := SnapshotOne(codec, srv, posts, c, payload);
    assert f1.heap[..|srv.fan.heap|] == srv.fan.heap;
    var f2 := AppendOne(codec, srv.(fan := f1), posts, c, payload, |srv.fan.log|);
    assert Undisturbed(srv.fan, f2);
    FanStepped(codec, srv.(fan := f2), posts, Dispatch(0));
    f := Next(srv.reg.rooms, f2, Dispatch(0));
    forall j | JobFor(srv.fan, j, c) ensures JobFor(f, j, c) {
      assert f2.heap[j.slice.addr] == f2.heap[..|srv.fan.heap|][j.slice.addr];
    }
  }

  /** Subscription k takes its oldest message and hands it over. */
  lemma ForwardOne(codec: Codec, srv: Server, posts: seq<Post>, c: Client, k: nat) returns (u: Server)
    requires Alone(codec, srv, posts) && Ready(srv, c)
    requires k < |srv.subs| && k < |srv.reg.contexts| && srv.subs[k].phase.Listening? && srv.subs[k].inbox != []
    requires srv.reg.contexts[k].room == c.room
    ensures Alone(codec, u, posts)
    ensures u == srv.(fan := u.fan, subs := u.subs)
    ensures |u.subs| == |srv.subs| && u.subs[k].phase.Listening? && u.subs[k].inbox == srv.subs[k].inbox[1..]
    ensures forall l | 0 <= l < |srv.subs| && l != k :: u.subs[l] == srv.subs[l]
    ensures u.fan.callers == [Free] && u.fan.workers == srv.fan.workers && u.fan.sends == srv.fan.sends
            && !u.fan.nilDereference
    ensures |u.fan.jobs| == |srv.fan.jobs| + 1 && u.fan.jobs[..|srv.fan.jobs|] == srv.fan.jobs
    ensures var j := u.fan.jobs[|srv.fan.jobs|]; j.payload == Forwarded(k, srv.subs[k].inbox[0]) && JobFor(u.fan, j, c)
    ensures forall j | JobFor(srv.fan, j, c) :: JobFor(u.fan, j, c)
  {
    LocalStep(codec, srv, posts, SubForwards(k, 0));
    var s1 := LocalNext(0, srv, SubForwards(k, 0));
    var f := HandOver(codec, s1, posts, c, Forwarded(k, srv.subs[k].inbox[0]));
    var s2 := s1.(fan := f);
    LocalStep(codec, s2, posts, SubReturns(k));
    u := LocalNext(0, s2, SubReturns(k));
  }

  // ---- from the job queue to the client ----

  lemma SendFirst(codec: Codec, srv: Server, posts: seq<Post>, c: Client, w: nat) returns (f: Fanout)
    requires Alone(codec, srv, posts) && !srv.fan.nilDereference && |SendOf(srv.fan, c)| < SEND_CHAN_SIZE
    requires w < |srv.fan.workers| && srv.fan.workers[w].Sending? && srv.fan.workers[w].next == 0
    requires JobFor(srv.fan, srv.fan.workers[w].job, c)
    ensures Alone(codec, srv.(fan := f), posts)
    ensures SendOf(f, c) == SendOf(srv.fan, c) + [srv.fan.workers[w].job.payload]
    ensures f.heap == srv.fan.heap && f.jobs == srv.fan.jobs && !f.nilDereference
    ensures w < |f.workers| && f.workers[w] == Sending(srv.fan.workers[w].job, 1)
    ensures |f.workers| == |srv.fan.workers| && forall v | 0 <= v < |f.workers| && v != w ::
              f.workers[v] == srv.fan.workers[v]
  {
    FanStepped(codec, srv, posts, WorkerSends(w));
    f := Next(srv.reg.rooms, srv.fan, WorkerSends(w));
  }

  /** Two workers each take a job for c; the first sends last. */
  lemma SendSwapped(codec: Codec, srv: Server, posts: seq<Post>, c: Client) returns (f: Fanout)
    requires Alone(codec, srv, posts) && !srv.fan.nilDereference && SendOf(srv.fan, c) == []
    requires 2 <= |srv.fan.workers| && srv.fan.workers[0].Idle? && srv.fan.workers[1].Idle?
    requires |srv.fan.jobs| == 2 && JobFor(srv.fan, srv.fan.jobs[0], c) && JobFor(srv.fan, srv.fan.jobs[1], c)
    ensures Alone(codec, srv.(fan := f), posts)
    ensures SendOf(f, c) == [srv.fan.jobs[1].payload, srv.fan.jobs[0].payload]
  {
    var rooms, f0 := srv.reg.rooms, srv.fan;
    FanStepped(codec, srv, posts, WorkerTakes(0));
    var f1 := Next(rooms, f0, WorkerTakes(0));
    FanStepped(codec, srv.(fan := f1), posts, WorkerTakes(1));
    var f2 := Next(rooms, f1, WorkerTakes(1));
    var f3 := SendFirst(codec, srv.(fan := f2), posts, c, 1);
    f := SendFirst(codec, srv.(fan := f3), posts, c, 0);
  }

  /** One worker takes both jobs for c, one after the other. */
  lemma SendInTurn(codec: Codec, srv: Server, posts: seq<Post>, c: Client) returns (f: Fanout)
    requires Alone(codec, srv, posts) && !srv.fan.nilDereference && SendOf(srv.fan, c) == []
    requires srv.fan.workers != [] && srv.fan.workers[0].Idle?
    requires |srv.fan.jobs| == 2 && JobFor(srv.fan, srv.fan.jobs[0], c) && JobFor(srv.fan, srv.fan.jobs[1], c)
    ensures Alone(codec, srv.(fan := f), posts)
    ensures SendOf(f, c) == [srv.fan.jobs[0].payload, srv.fan.jobs[1].payload]
  {
    var rooms := srv.reg.rooms;
    FanStepped(codec, srv, posts, WorkerTakes(0));
    var f1 := Next(rooms, srv.fan, WorkerTakes(0));
    var f2 := SendFirst(codec, srv.(fan := f1), posts, c, 0);
    FanStepped(codec, srv.(fan := f2), posts, WorkerReturns(0));
    var f3 := Next(rooms, f2, WorkerReturns(0));
    FanStepped(codec, srv.(fan := f3), posts, WorkerTakes(0));
    var f4 := Next(rooms, f3, WorkerTakes(0));
    f := SendFirst(codec, srv.(fan := f4), posts, c, 0);
  }

  /** Two messages for c alone, taken by subscriptions k and l in this order, wait in the queue. */
  lemma ForwardTwo(codec: Codec, srv: Server, posts: seq<Post>, c: Client, k: nat, l: nat, p: nat, q: nat)
    returns (u: Server)
    requires Alone(codec, srv, posts) && Ready(srv, c) && srv.fan.jobs == []
    requires k < |srv.subs| && l < |srv.subs| && |srv.subs| == |srv.reg.contexts|
    requires srv.subs[k].phase.Listening? && srv.subs[l].phase.Listening?
    requires srv.reg.contexts[k].room == srv.reg.contexts[l].room == c.room
    requires srv.subs[k].inbox != [] && srv.subs[k].inbox[0] == p
    requires if k == l then 2 <= |srv.subs[k].inbox| && srv.subs[k].inbox[1] == q
             else srv.subs[l].inbox != [] && srv.subs[l].inbox[0] == q
    ensures Alone(codec, u, posts) && u.published == srv.published
    ensures !u.fan.nilDereference && SendOf(u.fan, c) == [] && u.fan.workers == srv.fan.workers
    ensures |u.fan.jobs| == 2 && JobFor(u.fan, u.fan.jobs[0], c) && JobFor(u.fan, u.fan.jobs[1], c)
    ensures u.fan.jobs[0].payload == Forwarded(k, p) && u.fan.jobs[1].payload == Forwarded(l, q)
  {
    var s1 := ForwardOne(codec, srv, posts, c, k);
    u := ForwardOne(codec, s1, posts, c, l);
    assert u.fan.jobs[0] == u.fan.jobs[..1][0] == s1.fan.jobs[0];
  }

  // ---- the runs ----

  /** A client joins an empty server and its room's subscription gets to listen. */
  lemma JoinAndListen(codec: Codec, srv: Server, posts: seq<Post>, c: Client) returns (u: Server)
    requires Alone(codec, srv, posts) && LocalEnabled(0, srv, Connect(c)) && c.room !in srv.reg.rooms
    requires |srv.subs| == |srv.reg.contexts|
    ensures Alone(codec, u, posts)
    ensures u == srv.(reg := Registry.Register(RoomOf, srv.reg, c), reading := srv.reading + {c},
                      seen := srv.seen + {c},
                      subs := srv.subs + [Sub(Listening, [], [])])
  {
    LocalStep(codec, srv, posts, Connect(c));
    var s1 := LocalNext(0, srv, Connect(c));
    LocalStep(codec, s1, posts, SubListens(|srv.subs|));
    u := LocalNext(0, s1, SubListens(|srv.subs|));
    assert u.subs == srv.subs + [Sub(Listening, [], [])];
  }

  lemma SlotSpawned(codec: Codec, srv: Server, posts: seq<Post>) returns (u: Server)
    requires Alone(codec, srv, posts) && !srv.fan.nilDereference && srv.fan.callers == []
    ensures Alone(codec, u, posts) && u == srv.(fan := srv.fan.(callers := [Free]))
  {
    FanStepped(codec, srv, posts, Spawn);
    u := srv.(fan := Next(srv.reg.rooms, srv.fan, Spawn));
  }

  /** c alone in its room and listened for by subscriptions that have heard nothing; the server otherwise at rest. */
  ghost predicate Opened(srv: Server, c: Client) {
    && Ready(srv, c) && srv.fan.jobs == [] && c in srv.reading
    && srv.loop.Selecting? && srv.broadcast == [] && srv.published == []
    && |srv.subs| == |srv.reg.contexts|
    && forall k | 0 <= k < |srv.subs| :: srv.subs[k] == Sub(Listening, [], []) && srv.reg.contexts[k].room == c.room
  }

  lemma OpenRoom(codec: Codec, c: Client) returns (u: Server)
    requires c.server == 0
    ensures Alone(codec, u, []) && Opened(u, c) && |u.subs| == 1
  {
    StartsAlone(codec);
    var s1 := JoinAndListen(codec, InitServer(), [], c);
    u := SlotSpawned(codec, s1, []);
  }

  /** The room's only client leaves and another joins before the old subscription has stopped. */
  lemma ReopenRoom(codec: Codec, gone: Client, c: Client) returns (u: Server)
    requires gone.server == c.server == 0 && gone.room == c.room && gone != c
    ensures Alone(codec, u, []) && Opened(u, c) && |u.subs| == 2
  {
    StartsAlone(codec);
    var s1 := JoinAndListen(codec, InitServer(), [], gone);
    var s2 := LeaveLast(codec, s1, gone);
    var s3 := JoinAndListen(codec, s2, [], c);
    u := SlotSpawned(codec, s3, []);
  }

  lemma LeaveLast(codec: Codec, srv: Server, gone: Client) returns (u: Server)
    requires Alone(codec, srv, []) && LocalEnabled(0, srv, Disconnect(gone))
    requires srv.reg == Registry.Register(RoomOf, Registry.Empty(), gone)
    ensures Alone(codec, u, [])
    ensures u == srv.(reg := Registry.Registry(map[], map[], [Registry.Context(gone.room, true)], [gone]),
                      reading := srv.reading - {gone})
  {
    LocalStep(codec, srv, [], Disconnect(gone));
    u := LocalNext(0, srv, Disconnect(gone));
    assert {gone} - {gone} == {};
    assert u.reg.rooms == map[] && u.reg.cancelSub == map[];
  }

  /** What the posted message leaves in the inboxes. */
  lemma Inboxes(srv: Server, ks: set<nat>, p: nat)
    requires forall k | 0 <= k < |srv.subs| :: k in ks
    ensures |Receive(srv, ks, p).subs| == |srv.subs|
    ensures forall k | 0 <= k < |srv.subs| ::
              Receive(srv, ks, p).subs[k] == srv.subs[k].(inbox := srv.subs[k].inbox + [p])
  {
  }

  /** Delivery order is not publication order: a client can be sent its own second message before its first. */
  lemma DeliveryMayReorder(codec: Codec, c: Client, data: string, now: int) returns (s: System)
    requires c.server == 0 && Enrich(codec, c.room, c.userId, data, now).Some?
    ensures Reachable(codec, s) && |s.servers| == 1 && |s.posts| == 2
    ensures SendOf(s.servers[0].fan, c) == [Forwarded(0, 1), Forwarded(0, 0)]
    ensures s.servers[0].published == [0, 1]
  {
    var post := Post(c, Enrich(codec, c.room, c.userId, data, now).value);
    var s1 := OpenRoom(codec, c);
    var s2 := Posted(codec, s1, [], c, data, now, {0});
    Inboxes(s1, {0}, 0);
    var s3 := Posted(codec, s2, [] + [post], c, data, now, {0});
    Inboxes(s2, {0}, 1);
    var posts := [] + [post] + [post];
    assert s3.subs[0].inbox == [] + [0] + [1];
    var u := ForwardTwo(codec, s3, posts, c, 0, 0, 0, 1);
    var f := SendSwapped(codec, u, posts, c);
    s := System([u.(fan := f)], posts);
  }

  /** Workers need not run side by side for that: a subscription that was cancelled but still listens has the first
      message when its successor forwards the second, and one worker delivers both as they come. */
  lemma OldSubscriptionMayReorder(codec: Codec, gone: Client, c: Client, data: string, now: int) returns (s: System)
    requires gone.server == c.server == 0 && gone.room == c.room && gone != c
    requires Enrich(codec, c.room, c.userId, data, now).Some?
    ensures Reachable(codec, s) && |s.servers| == 1 && |s.posts| == 2
    ensures SendOf(s.servers[0].fan, c) == [Forwarded(1, 1), Forwarded(0, 0)]
    ensures s.servers[0].published == [0, 1]
  {
    var post := Post(c, Enrich(codec, c.room, c.userId, data, now).value);
    var s1 := ReopenRoom(codec, gone, c);
    var s2 := Posted(codec, s1, [], c, data, now, {0});
    assert s2.subs[0].inbox == [] + [0] && s2.subs[1] == s1.subs[1];
    var s3 := Posted(codec, s2, [] + [post], c, data, now, {1});
    assert s3.subs[0] == s2.subs[0] && s3.subs[1].inbox == [] + [1];
    var posts := [] + [post] + [post];
    var u := ForwardTwo(codec, s3, posts, c, 1, 0, 1, 0);
    var f := SendInTurn(codec, u, posts, c);
    s := System([u.(fan := f)], posts);
  }

  /** One message can reach a client twice: through a subscription that was cancelled but still listens, and through
      its successor. */
  lemma MessageMayArriveTwice(codec: Codec, gone: Client, c: Client, data: string, now: int) returns (s: System)
    requires gone.server == c.server == 0 && gone.room == c.room && gone != c
    requires Enrich(codec, c.room, c.userId, data, now).Some?
    ensures Reachable(codec, s) && |s.servers| == 1 && |s.posts| == 1
    ensures SendOf(s.servers[0].fan, c) == [Forwarded(1, 0), Forwarded(0, 0)]
    ensures s.servers[0].published == [0]
  {
    var post := Post(c, Enrich(codec, c.room, c.userId, data, now).value);
    var s1 := ReopenRoom(codec, gone, c);
    var s2 := Posted(codec, s1, [], c, data, now, {0, 1});
    Inboxes(s1, {0, 1}, 0);
    var posts := [] + [post];
    assert s2.subs[0].inbox == [] + [0] && s2.subs[1].inbox == [] + [0];
    var u := ForwardTwo(codec, s2, posts, c, 0, 1, 0, 0);
    var f := SendSwapped(codec, u, posts, c);
    s := System([u.(fan := f)], posts);
  }
}

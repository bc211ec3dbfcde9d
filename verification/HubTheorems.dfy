/** What clients of the system can rely on, in every reachable state of any number of servers. */
module HubTheorems {
  import opened Wire
  import opened Seqs
  import Registry
  import opened Fanout
  import opened FanoutSafety
  import opened FanoutSnapshots
  import FanoutDelivery
  import opened Hub
  import opened HubSafety
  import HubSystem

  // ---- reading the histories ----

  lemma {:induction false} AcceptedWasSent(attempts: seq<Attempt>, c: Client, payload: Payload)
    requires payload in FanoutDelivery.Accepted(attempts, c)
    ensures exists a ::
              0 <= a < |attempts| && attempts[a].client == c && attempts[a].queued && attempts[a].payload == payload
  {
    var last := |attempts| - 1;
    if attempts[last].client != c || !attempts[last].queued || attempts[last].payload != payload {
      AcceptedWasSent(attempts[..last], c, payload);
      var a :| 0 <= a < last && attempts[..last][a].client == c && attempts[..last][a].queued
          && attempts[..last][a].payload == payload;
      assert attempts[a] == attempts[..last][a];
    }
  }

  /** Two attempts of one handoff go to different clients when its visits do not repeat. */
  lemma {:induction false} VisitsApart(attempts: seq<Attempt>, a: nat, b: nat)
    requires a < b < |attempts| && attempts[a].id == attempts[b].id
    requires NoDup(FanoutDelivery.Visited(attempts, attempts[a].id))
    ensures attempts[a].client != attempts[b].client
  {
    var last := |attempts| - 1;
    var front := attempts[..last];
    var id := attempts[a].id;
    assert front[a] == attempts[a];
    NoDupConcat(FanoutDelivery.Visited(front, id), if attempts[last].id == id then [attempts[last].client] else []);
    if b == last {
      FanoutDelivery.AttemptWasVisit(front, a);
    } else {
      assert front[b] == attempts[b];
      VisitsApart(front, a, b);
    }
  }

  /** Every attempt went to a member of its handoff's snapshot. */
  lemma AttemptsHitMembers(rooms: map<string, set<Client>>, f: Fanout, a: nat)
    requires FanoutDelivery.Inv(rooms, f) && a < |f.attempts|
    ensures f.attempts[a].id < |f.log| && f.attempts[a].payload == f.log[f.attempts[a].id].payload
    ensures f.attempts[a].client in f.log[f.attempts[a].id].members
  {
    FanoutDelivery.AttemptWasVisit(f.attempts, a);
    var id := f.attempts[a].id;
    assert FanoutDelivery.FateOk(f.log, f.attempts, id) && Enumerates(f.log[id].order, f.log[id].members);
    var visited := FanoutDelivery.Visited(f.attempts, id);
    assert visited == f.log[id].order[..|visited|];
  }

  // ---- room isolation ----

  /** The danmaku behind a payload is a router's, from an author of room `room`. */
  ghost predicate BelongsTo(codec: Codec, s: System, payload: Payload, room: string) {
    payload.Forwarded? ==>
      && payload.post < |s.posts|
      && s.posts[payload.post].author.room == room
      && HubSystem.MadeByRouter(codec, s.posts[payload.post])
  }

  lemma HandoffBelongs(codec: Codec, s: System, i: nat, id: nat)
    requires HubSystem.Inv(codec, s) && i < |s.servers| && id < |s.servers[i].fan.log|
    ensures BelongsTo(codec, s, s.servers[i].fan.log[id].payload, s.servers[i].fan.log[id].room)
  {
    var srv := s.servers[i];
    var h := srv.fan.log[id];
    if h.payload.Forwarded? {
      assert ServerOk(i, srv) && HandoffOk(srv, h);
      assert HubSystem.ArrivalsOk(s, srv) && HubSystem.ArrivedOk(s, srv, h.payload.via);
    }
  }

  predicate IsJob(f: Fanout, h: Holder) {
    (h.InQueue? && h.k < |f.jobs|) || (h.ByWorker? && h.w < |f.workers| && f.workers[h.w].Sending?)
  }

  function JobAt(f: Fanout, h: Holder): Job
    requires IsJob(f, h)
  {
    if h.InQueue? then f.jobs[h.k] else f.workers[h.w].job
  }

  /** The slice's elements include c. */
  predicate Names(f: Fanout, slice: Slice, c: Client) {
    InHeap(f.heap, slice) && Ref(c) in f.heap[slice.addr][..slice.len]
  }

  /** Every danmaku in a client's Send channel, and every danmaku a queued or running job still has for a client,
      was made by a router for an author in the receiver's room, and carries that author's room and user id. */
  lemma RoomIsolation(codec: Codec, s: System, i: nat)
    requires Reachable(codec, s) && i < |s.servers|
    ensures forall c, payload | payload in SendOf(s.servers[i].fan, c) ::
              c.server == i && BelongsTo(codec, s, payload, c.room)
    ensures forall h, c | IsJob(s.servers[i].fan, h) && Names(s.servers[i].fan, JobAt(s.servers[i].fan, h).slice, c) ::
              c.server == i && BelongsTo(codec, s, JobAt(s.servers[i].fan, h).payload, c.room)
  {
    var srv := s.servers[i];
    forall c, payload | payload in SendOf(srv.fan, c) ensures c.server == i && BelongsTo(codec, s, payload, c.room) {
      SendsAreIsolated(codec, s, i, c, payload);
    }
    forall h, c | IsJob(srv.fan, h) && Names(srv.fan, JobAt(srv.fan, h).slice, c)
      ensures c.server == i && BelongsTo(codec, s, JobAt(srv.fan, h).payload, c.room) {
      JobsAreIsolated(codec, s, i, h, c);
    }
  }

  lemma SendsAreIsolated(codec: Codec, s: System, i: nat, c: Client, payload: Payload)
    requires Reachable(codec, s) && i < |s.servers| && payload in SendOf(s.servers[i].fan, c)
    ensures c.server == i && BelongsTo(codec, s, payload, c.room)
  {
    HubSystem.ReachableInv(codec, s);
    var srv := s.servers[i];
    var f := srv.fan;
    assert ServerOk(i, srv) && FanoutDelivery.SendsOk(f);
    var accepted := FanoutDelivery.Accepted(f.attempts, c);
    assert f.sends[c] == accepted[|accepted| - |f.sends[c]|..];
    AcceptedWasSent(f.attempts, c, payload);
    var a :| 0 <= a < |f.attempts| && f.attempts[a].client == c && f.attempts[a].queued
        && f.attempts[a].payload == payload;
    AttemptsHitMembers(srv.reg.rooms, f, a);
    HandoffBelongs(codec, s, i, f.attempts[a].id);
  }

  lemma JobsAreIsolated(codec: Codec, s: System, i: nat, h: Holder, c: Client)
    requires Reachable(codec, s) && i < |s.servers|
    requires IsJob(s.servers[i].fan, h) && Names(s.servers[i].fan, JobAt(s.servers[i].fan, h).slice, c)
    ensures c.server == i && BelongsTo(codec, s, JobAt(s.servers[i].fan, h).payload, c.room)
  {
    HubSystem.ReachableInv(codec, s);
    var srv := s.servers[i];
    var f, job := srv.fan, JobAt(srv.fan, h);
    assert ServerOk(i, srv) && Content(srv.reg.rooms, f);
    assert JobOk(f.heap, f.log, job) by {
      if h.ByWorker? { assert WorkerOk(f.heap, f.log, f.workers[h.w]); }
    }
    var order := f.log[job.id].order;
    assert Enumerates(order, f.log[job.id].members);
    var n :| 0 <= n < job.slice.len && f.heap[job.slice.addr][..job.slice.len][n] == Ref(c);
    assert order[n] == c && c in order;
    HandoffBelongs(codec, s, i, job.id);
  }

  /** Seen from the wire: with a faithful JSON codec what a client is sent decodes as a danmaku of the client's own
      room, written by the user whose connection said it. */
  lemma ReceivedDanmakuNamesItsAuthor(codec: Codec, s: System, i: nat, c: Client, payload: Payload)
    requires Reachable(codec, s) && Faithful(codec) && codec.utf8(c.room)
    requires i < |s.servers| && payload in SendOf(s.servers[i].fan, c) && payload.Forwarded?
    ensures payload.post < |s.posts|
    ensures var post := s.posts[payload.post];
            var parsed := ParseMessage(codec, codec.packet(post.packet));
            && post.packet.roomId == c.room
            && parsed.Message? && parsed.body.roomId == c.room && parsed.body.userId == post.author.userId
  {
    RoomIsolation(codec, s, i);
    var post := s.posts[payload.post];
    var data, now :| Enrich(codec, post.author.room, post.author.userId, data, now) == Some(post.packet);
    ServerMessagesParseBack(codec, post.author.room, post.author.userId, data, now);
  }

  /** The packets of the run's danmaku whose data decodes, in the order they were said: the words are the client's, the
      room, user and time the server's. */
  function Said(codec: Codec, acts: seq<SystemAction>): seq<Post> {
    if acts == [] then []
    else
      (match acts[0]
       case Say(_, c, data, now) =>
         if codec.undanmaku(data).None? then []
         else var full := Danmaku(0, c.room, c.userId, codec.undanmaku(data).value.content, now);
              [Post(c, WsPacket(TYPE_DANMAKU, c.room, codec.danmaku(full)))]
       case _ => []) + Said(codec, acts[1..])
  }

  /** Over any run the posts are what was said: one for each message whose data decodes, and no other. */
  lemma {:induction false} PostsAreSaid(codec: Codec, s: System, acts: seq<SystemAction>, t: System)
    requires Run(codec, s, acts, t)
    ensures t.posts == s.posts + Said(codec, acts)
    decreases |acts|
  {
    if acts == [] {
      assert s.posts + [] == s.posts;
    } else {
      var s' := SystemNext(codec, s, acts[0]);
      PostsAreSaid(codec, s', acts[1..], t);
      match acts[0]
      case Local(_, _) => assert s'.posts == s.posts;
      case Say(_, _, _, _) =>
      case Publish(_, _) => assert s'.posts == s.posts;
    }
  }

  // ---- the fan-out's promises ----

  /** Each handoff, for as long as its room existed at the read lock: its snapshot is the room without repetition,
      and it is in progress with exactly one carrier, whose visits so far are a prefix of the snapshot, or it is
      finished and every member was tried exactly once, or it was dropped whole and no one was. */
  lemma EachMemberTriedOnce(codec: Codec, s: System, i: nat, id: nat)
    requires Reachable(codec, s) && i < |s.servers| && id < |s.servers[i].fan.log|
    ensures var f := s.servers[i].fan;
            var h := f.log[id];
            && Enumerates(h.order, h.members)
            && (forall c | c in h.members :: c.room == h.room && c.server == i)
            && match h.fate
               case Finished => FanoutDelivery.Visited(f.attempts, id) == h.order
               case DroppedWhole => FanoutDelivery.Visited(f.attempts, id) == []
               case Pending => FanoutDelivery.Visited(f.attempts, id) <= h.order
                               && exists carrier :: IdOf(f, carrier) == Some(id)
                                                    && forall other :: IdOf(f, other) == Some(id) ==> other == carrier
  {
    HubSystem.ReachableInv(codec, s);
    var f := s.servers[i].fan;
    assert ServerOk(i, s.servers[i]);
    assert FanoutDelivery.FateOk(f.log, f.attempts, id);
    if f.log[id].fate.Pending? {
      var carrier :| IdOf(f, carrier) == Some(id);
      forall other | IdOf(f, other) == Some(id) ensures other == carrier {
      }
    }
  }

  /** A recycled slice is safe to use: every backing array in use has one owner, what a worker visits is exactly its
      handoff's snapshot whatever stale elements the array had, and no worker meets an empty cell. */
  lemma PooledSlicesAreExclusive(codec: Codec, s: System, i: nat)
    requires Reachable(codec, s) && i < |s.servers|
    ensures var f := s.servers[i].fan;
            && Owned(f) && !f.nilDereference
            && forall h | IsJob(f, h) ::
                 JobAt(f, h).id < |f.log| && Stored(f.heap, JobAt(f, h).slice, f.log[JobAt(f, h).id].order)
  {
    HubSystem.ReachableInv(codec, s);
    var f := s.servers[i].fan;
    assert ServerOk(i, s.servers[i]) && Content(s.servers[i].reg.rooms, f);
    forall h | IsJob(f, h)
      ensures JobAt(f, h).id < |f.log| && Stored(f.heap, JobAt(f, h).slice, f.log[JobAt(f, h).id].order) {
      if h.ByWorker? { assert WorkerOk(f.heap, f.log, f.workers[h.w]); }
    }
  }

  /** Over any run the snapshots' sizes add up: every snapshotted client was queued to, skipped, dropped with its job,
      or is still with a broadcaster, the job queue or a worker; and all queues keep their bounds. */
  lemma FanOutConserves(codec: Codec, s: System, i: nat)
    requires Reachable(codec, s) && i < |s.servers|
    ensures var f := s.servers[i].fan;
            && f.snapshotted == f.queued + f.skipped + f.dropped + FanoutDelivery.Outstanding(f)
            && |f.attempts| == f.queued + f.skipped
            && |f.jobs| <= BROADCAST_JOB_CHAN_SIZE && |f.workers| == WORKER_COUNT
            && (forall c :: |SendOf(f, c)| <= SEND_CHAN_SIZE)
            && |s.servers[i].broadcast| <= BROADCAST_CHAN_SIZE
  {
    HubSystem.ReachableInv(codec, s);
    assert ServerOk(i, s.servers[i]) && FanoutDelivery.SendsOk(s.servers[i].fan);
  }

  /** No client is tried twice with the same post through the same subscription, over any run. */
  lemma AtMostOncePerSubscription(codec: Codec, s: System, i: nat, a: nat, b: nat)
    requires Reachable(codec, s) && i < |s.servers| && a < b < |s.servers[i].fan.attempts|
    requires s.servers[i].fan.attempts[a].payload.Forwarded?
    requires s.servers[i].fan.attempts[a].payload == s.servers[i].fan.attempts[b].payload
    ensures s.servers[i].fan.attempts[a].client != s.servers[i].fan.attempts[b].client
  {
    HubSystem.ReachableInv(codec, s);
    AttemptsApart(i, s.servers[i], a, b);
  }

  lemma AttemptsApart(i: nat, srv: Server, a: nat, b: nat)
    requires ServerOk(i, srv) && a < b < |srv.fan.attempts|
    requires srv.fan.attempts[a].payload.Forwarded? && srv.fan.attempts[a].payload == srv.fan.attempts[b].payload
    ensures srv.fan.attempts[a].client != srv.fan.attempts[b].client
  {
    var f := srv.fan;
    AttemptsHitMembers(srv.reg.rooms, f, a);
    AttemptsHitMembers(srv.reg.rooms, f, b);
    var id := f.attempts[a].id;
    assert id == f.attempts[b].id by { assert CallsOk(srv); }
    assert FanoutDelivery.FateOk(f.log, f.attempts, id) && Enumerates(f.log[id].order, f.log[id].members);
    var visited := FanoutDelivery.Visited(f.attempts, id);
    assert visited == f.log[id].order[..|visited|];
    assert NoDup(visited);
    VisitsApart(f.attempts, a, b);
  }

  /** A client is tried twice with one post only through a subscription whose context is cancelled: of two such
      attempts, one came from a subscription the server had already given up. */
  lemma TwiceOnlyThroughCancelled(codec: Codec, s: System, i: nat, a: nat, b: nat)
    requires Reachable(codec, s) && i < |s.servers| && a < b < |s.servers[i].fan.attempts|
    requires s.servers[i].fan.attempts[a].payload.Forwarded? && s.servers[i].fan.attempts[b].payload.Forwarded?
    requires s.servers[i].fan.attempts[a].payload.post == s.servers[i].fan.attempts[b].payload.post
    requires s.servers[i].fan.attempts[a].client == s.servers[i].fan.attempts[b].client
    ensures var srv := s.servers[i];
            var k, l := srv.fan.attempts[a].payload.via, srv.fan.attempts[b].payload.via;
            && k < |srv.reg.contexts| && l < |srv.reg.contexts| && k != l
            && (srv.reg.contexts[k].cancelled || srv.reg.contexts[l].cancelled)
  {
    HubSystem.ReachableInv(codec, s);
    ViaServesClient(i, s.servers[i], a);
    ViaServesClient(i, s.servers[i], b);
    if s.servers[i].fan.attempts[a].payload == s.servers[i].fan.attempts[b].payload {
      AttemptsApart(i, s.servers[i], a, b);
    }
    assert Registry.Subscribed(s.servers[i].reg) by { assert RegistryOk(i, s.servers[i]); }
  }

  /** The subscription behind an attempt serves the client's room. */
  lemma ViaServesClient(i: nat, srv: Server, a: nat)
    requires ServerOk(i, srv) && a < |srv.fan.attempts| && srv.fan.attempts[a].payload.Forwarded?
    ensures var x := srv.fan.attempts[a];
            x.payload.via < |srv.reg.contexts| && srv.reg.contexts[x.payload.via].room == x.client.room
  {
    AttemptsHitMembers(srv.reg.rooms, srv.fan, a);
    assert HandoffOk(srv, srv.fan.log[srv.fan.attempts[a].id]) && MembersOk(i, srv.fan.log);
  }

  // ---- order ----

  /** What a server pushed to Kafka, then what its loop and Broadcast channel hold, are exactly the posts of its own
      clients in the order they were read, and the same for what it published: no post is skipped, repeated or
      overtaken before it leaves the server. */
  lemma OrderUpToPublication(codec: Codec, s: System, i: nat)
    requires Reachable(codec, s) && i < |s.servers|
    ensures var srv := s.servers[i];
            && srv.published + Unpublished(srv.loop) + srv.broadcast == HubSystem.PostsBy(s.posts, i)
            && srv.pushed + Unpushed(srv.loop) + srv.broadcast == HubSystem.PostsBy(s.posts, i)
  {
    HubSystem.ReachableInv(codec, s);
    var srv := s.servers[i];
    assert ServerOk(i, srv);
  }

  // ---- membership ----

  /** In every reachable state the rooms are the clients being read, grouped by room; there is one uncancelled
      subscription for each room and none besides; and done was closed once for each client that left. */
  lemma RoomsAreTheReaders(codec: Codec, s: System, i: nat)
    requires Reachable(codec, s) && i < |s.servers|
    ensures var srv := s.servers[i];
            && Registry.Grouped(RoomOf, srv.reg.rooms, srv.reading)
            && Registry.Subscribed(srv.reg)
            && |srv.subs| == |srv.reg.contexts|
            && NoDup(srv.reg.done) && (set c | c in srv.reg.done) == srv.seen - srv.reading
  {
    HubSystem.ReachableInv(codec, s);
    assert ServerOk(i, s.servers[i]);
  }

  /** A client joining a room that has readers starts no subscription and makes no context; the first one of a room
      starts exactly one. */
  lemma FirstReaderSubscribes(codec: Codec, s: System, i: nat, c: Client)
    requires Reachable(codec, s) && SystemEnabled(s, Local(i, Connect(c)))
    ensures var srv, srv' := s.servers[i], SystemNext(codec, s, Local(i, Connect(c))).servers[i];
            if exists d :: d in srv.reading && d.room == c.room
            then srv'.subs == srv.subs && srv'.reg.contexts == srv.reg.contexts
            else srv'.subs == srv.subs + [Sub(Starting, [], [])]
                 && srv'.reg.contexts == srv.reg.contexts + [Registry.Context(c.room, false)]
  {
    RoomsAreTheReaders(codec, s, i);
    var srv := s.servers[i];
    Registry.JoinOpens(RoomOf, srv.reg, srv.reading, c);
    assert Registry.Occupied(RoomOf, srv.reading, c.room) <==> exists d :: d in srv.reading && d.room == c.room by {
      assert forall d: Client :: RoomOf(d) == d.room;
    }
  }

  function EventOf(a: SystemAction, i: nat): seq<Registry.Event<Client>> {
    match a
    case Local(j, Connect(c)) => if j == i then [Registry.Joined(c)] else []
    case Local(j, Disconnect(c)) => if j == i then [Registry.Left(c)] else []
    case _ => []
  }

  /** The clients joining and leaving server i, in the order of the run. */
  function EventsAt(acts: seq<SystemAction>, i: nat): seq<Registry.Event<Client>> {
    if acts == [] then [] else EventOf(acts[0], i) + EventsAt(acts[1..], i)
  }

  ghost predicate Follows(srv: Server, events: seq<Registry.Event<Client>>) {
    srv.reg == Registry.ApplyAll(RoomOf, events) && srv.reading == Registry.Live(events)
  }

  lemma ApplySnoc(events: seq<Registry.Event<Client>>, e: Registry.Event<Client>)
    ensures Registry.ApplyAll(RoomOf, events + [e]) == Registry.Apply(RoomOf, Registry.ApplyAll(RoomOf, events), e)
    ensures Registry.Live(events + [e])
         == if e.Joined? then Registry.Live(events) + {e.c} else Registry.Live(events) - {e.c}
  {
    assert (events + [e])[..|events|] == events;
  }

  lemma StepFollows(codec: Codec, s: System, a: SystemAction, i: nat, events: seq<Registry.Event<Client>>)
    requires SystemEnabled(s, a) && i < |s.servers| && Follows(s.servers[i], events)
    ensures i < |SystemNext(codec, s, a).servers|
    ensures Follows(SystemNext(codec, s, a).servers[i], events + EventOf(a, i))
  {
    assert events + [] == events;
    match a
    case Local(j, Connect(c)) => ApplySnoc(events, Registry.Joined(c));
    case Local(j, Disconnect(c)) => ApplySnoc(events, Registry.Left(c));
    case Local(_, _) =>
    case Say(_, _, _, _) =>
    case Publish(_, _) =>
  }

  lemma Regroup<T>(xs: seq<T>, ys: seq<T>, zs: seq<T>)
    ensures xs + ys + zs == xs + (ys + zs)
  {
  }

  lemma {:induction false} RunFollows(
    codec: Codec, s: System, acts: seq<SystemAction>, t: System, i: nat, events: seq<Registry.Event<Client>>)
    requires Run(codec, s, acts, t) && i < |s.servers| && Follows(s.servers[i], events)
    ensures i < |t.servers| && Follows(t.servers[i], events + EventsAt(acts, i))
    decreases |acts|
  {
    if acts == [] {
      assert events + [] == events;
    } else {
      StepFollows(codec, s, acts[0], i, events);
      RunFollows(codec, SystemNext(codec, s, acts[0]), acts[1..], t, i, events + EventOf(acts[0], i));
      Regroup(events, EventOf(acts[0], i), EventsAt(acts[1..], i));
    }
  }

  /** Over any run a server starts one subscription for each join that found its room without a reader, and cancels
      its context exactly when the room empties again. */
  lemma SubscriptionsAreOpenings(codec: Codec, n: nat, acts: seq<SystemAction>, s: System, i: nat)
    requires Run(codec, InitSystem(n), acts, s) && i < n
    ensures i < |s.servers|
    ensures var srv, events := s.servers[i], EventsAt(acts, i);
            && |srv.subs| == |srv.reg.contexts| == |Registry.Openings(RoomOf, events)|
            && forall k | 0 <= k < |srv.subs| ::
                 Registry.OpenedBy(RoomOf, events, Registry.Openings(RoomOf, events)[k], srv.reg.contexts[k])
  {
    RunFollows(codec, InitSystem(n), acts, s, i, []);
    assert [] + EventsAt(acts, i) == EventsAt(acts, i);
    Registry.ContextsAreOpenings(RoomOf, EventsAt(acts, i));
    RoomsAreTheReaders(codec, s, i);
  }
}

/** "Clients receive in the order of publication" fails exactly here: the condition, at a publication, under which some
    client can be tried with the new post before an older one of the same server, through whichever subscriptions. */
module HubOvertaking {
  import opened Wire
  import opened Fanout
  import FanoutProgress
  import opened FanoutHeld
  import opened Hub
  import HubSafety
  import HubSystem
  import HubWitnesses
  import opened HubOnce
  import opened HubProgress
  import opened HubReadOrder
  import HubTwice
  import opened HubUnderway

  /** The client was tried with q, and afterwards with an older post of q's server. */
  predicate OlderAfter(posts: seq<Post>, x: Attempt, y: Attempt, q: nat) {
    x.client == y.client && IsPost(x.payload, q) && y.payload.Forwarded? && y.payload.post < q
      && SameServer(posts, y.payload.post, q)
  }

  ghost predicate Overtook(t: System, j: nat, q: nat) {
    && j < |t.servers|
    && exists a, b :: 0 <= a < b < |t.servers[j].fan.attempts|
                      && OlderAfter(t.posts, t.servers[j].fan.attempts[a], t.servers[j].fan.attempts[b], q)
  }

  /** What server i is about to publish can come to be tried on a client of server j before an older post of i. */
  ghost predicate CanOvertake(codec: Codec, s: System, i: nat, j: nat)
    requires i < |s.servers| && s.servers[i].loop.Publishing?
  {
    exists receivers, t :: HubTwice.PublishedAndOn(codec, s, i, receivers, t) && Overtook(t, j, s.servers[i].loop.post)
  }

  /** The post waits for the room, or someone has it for a client that is still in the room. */
  ghost predicate UnderwayTo(srv: Server, room: string, p: nat) {
    Waits(srv, room, p) || exists c :: c in srv.reading && c.room == room && HeldFor(srv.fan, c, p)
  }

  ghost predicate OlderUnderway(posts: seq<Post>, srv: Server, room: string, q: nat) {
    exists p: nat :: p < q && SameServer(posts, p, q) && UnderwayTo(srv, room, p)
  }

  ghost predicate SomeoneHears(srv: Server, room: string) {
    exists k: nat :: Hearing(srv, k, room)
  }

  // ---- what it takes ----

  /** A server publishes in the order it reads: what it read before a post that it is publishing, or has published, it
      has published. */
  lemma OlderIsPublished(codec: Codec, s: System, p: nat, q: nat)
    requires HubSystem.Inv(codec, s) && p < q && SameServer(s.posts, p, q)
    requires HubSystem.PublishedPost(s, q)
             || (s.posts[q].author.server < |s.servers|
                 && s.servers[s.posts[q].author.server].loop == Publishing(q))
    ensures HubSystem.PublishedPost(s, p)
  {
    var i := s.posts[q].author.server;
    assert HubSafety.QueueOk(s.servers[i]) by { assert HubSafety.ServerOk(i, s.servers[i]); }
    HubSystem.PostsByIs(s.posts, i);
    OlderIsEarlier(s.servers[i], p, q);
  }

  lemma OlderIsEarlier(srv: Server, p: nat, q: nat)
    requires HubSafety.QueueOk(srv) && p < q && p in srv.routed && (q in srv.published || srv.loop == Publishing(q))
    requires forall x, y | 0 <= x < y < |srv.routed| :: srv.routed[x] < srv.routed[y]
    ensures p in srv.published
  {
    var x :| 0 <= x < |srv.routed| && srv.routed[x] == p;
    var y := |srv.published|;
    if q in srv.published {
      y :| 0 <= y < |srv.published| && srv.published[y] == q;
    }
    assert srv.routed[y] == q;
    assert x < y && srv.published[x] == p;
  }

  /** Before its publication nobody has the post. */
  lemma UnpublishedIsNowhere(codec: Codec, s: System, i: nat, j: nat)
    requires HubSystem.Inv(codec, s) && i < |s.servers| && j < |s.servers| && s.servers[i].loop.Publishing?
    ensures var srv, q := s.servers[j], s.servers[i].loop.post;
            && (forall k: nat :: !Heard(srv, k, q))
            && (forall c :: !HeldFor(srv.fan, c, q)) && (forall slot, room :: !IsCalled(srv.fan, slot, room, q))
            && (forall a | 0 <= a < |srv.fan.attempts| :: !IsPost(srv.fan.attempts[a].payload, q))
  {
    var srv, q := s.servers[j], s.servers[i].loop.post;
    HubSystem.PublishesOnce(codec, s, i);
    assert HubSafety.ServerOk(j, srv);
    forall k: nat ensures !Heard(srv, k, q) {
      assert HubSystem.ArrivalsOk(s, srv);
      assert k < |srv.subs| ==> HubSystem.ArrivedOk(s, srv, k);
    }
    forall id: nat ensures !OwesPost(srv.fan, id, q) {
      if OwesPost(srv.fan, id, q) {
        assert HubSafety.HandoffOk(srv, srv.fan.log[id]) && Heard(srv, srv.fan.log[id].payload.via, q);
      }
    }
    forall c ensures !HeldFor(srv.fan, c, q) {
      HeldIsOwed(srv.reg.rooms, srv.fan, c, q);
    }
    forall slot: nat, room ensures !IsCalled(srv.fan, slot, room, q) {
      if IsCalled(srv.fan, slot, room, q) {
        assert HubSafety.CallOk(srv, slot) && Heard(srv, srv.fan.callers[slot].payload.via, q);
      }
    }
    forall a | 0 <= a < |srv.fan.attempts| ensures !IsPost(srv.fan.attempts[a].payload, q) {
      if srv.fan.attempts[a].payload.Forwarded? {
        AttemptWasHeard(j, srv, a);
      }
    }
  }

  lemma PublishKeepsFan(s: System, act: SystemAction, j: nat)
    requires act.Publish? && SystemEnabled(s, act) && j < |s.servers|
    ensures |PublishNext(s, act.i, act.receivers).servers| == |s.servers|
            && PublishNext(s, act.i, act.receivers).posts == s.posts
    ensures var srv, srv' := s.servers[j], PublishNext(s, act.i, act.receivers).servers[j];
            srv'.fan == srv.fan && srv'.reg == srv.reg && srv'.reading == srv.reading && srv'.seen == srv.seen
              && |srv'.subs| == |srv.subs|
              && forall k | 0 <= k < |srv.subs| :: srv'.subs[k].phase == srv.subs[k].phase
  {
  }

  /** Right after its publication the post is underway only to rooms of receivers. */
  lemma ComingWasReceived(codec: Codec, s: System, act: SystemAction, j: nat, c: Client)
    requires HubSystem.Inv(codec, s) && act.Publish? && SystemEnabled(s, act) && j < |s.servers|
    requires Coming(j, PublishNext(s, act.i, act.receivers).servers[j], c, s.servers[act.i].loop.post)
    ensures var room := s.posts[s.servers[act.i].loop.post].packet.roomId;
            NotLeft(j, s.servers[j], c) && c.room == room && SomeoneHears(s.servers[j], room)
  {
    var srv', q := PublishNext(s, act.i, act.receivers).servers[j], s.servers[act.i].loop.post;
    UnpublishedIsNowhere(codec, s, act.i, j);
    PublishKeepsFan(s, act, j);
    var k: nat :| InInbox(srv', k, c.room, q);
    OnlyReceiversHeard(codec, s, act, j, k);
    HearersSubscribe(s, j, k, s.posts[q].packet.roomId);
    assert Hearing(s.servers[j], k, s.posts[q].packet.roomId);
  }

  /** What is underway right after a publication, other than what was published, was underway before it. */
  lemma WaitedBefore(s: System, act: SystemAction, j: nat, room: string, p: nat)
    requires act.Publish? && SystemEnabled(s, act) && j < |s.servers| && p != s.servers[act.i].loop.post
    requires Waits(PublishNext(s, act.i, act.receivers).servers[j], room, p)
    ensures Waits(s.servers[j], room, p)
  {
    var srv' := PublishNext(s, act.i, act.receivers).servers[j];
    PublishKeepsFan(s, act, j);
    if k: nat :| InInbox(srv', k, room, p) {
      HubSystem.PublishHeard(s, act.i, act.receivers, j, k);
      assert InInbox(s.servers[j], k, room, p);
    } else {
      var slot: nat :| IsCalled(srv'.fan, slot, room, p);
      assert IsCalled(s.servers[j].fan, slot, room, p);
    }
  }

  /** Only clients that registered are owed anything. */
  lemma HeldWereSeen(codec: Codec, s: System, j: nat, c: Client, p: nat)
    requires Reachable(codec, s) && j < |s.servers| && HeldFor(s.servers[j].fan, c, p)
    ensures c in s.servers[j].seen
  {
    HubSystem.ReachableInv(codec, s);
    assert HubSafety.ServerOk(j, s.servers[j]);
    ReachableTidy(codec, s, j);
    HeldIsOwed(s.servers[j].reg.rooms, s.servers[j].fan, c, p);
  }

  lemma OvertakingNeeds(codec: Codec, s: System, act: SystemAction, acts: seq<SystemAction>, t: System, j: nat,
                        a: nat, b: nat)
    requires Reachable(codec, s) && act.Publish? && SystemEnabled(s, act) && j < |s.servers|
    requires Run(codec, PublishNext(s, act.i, act.receivers), acts, t)
    requires j < |t.servers| && a < b < |t.servers[j].fan.attempts|
    requires OlderAfter(s.posts, t.servers[j].fan.attempts[a], t.servers[j].fan.attempts[b],
                        s.servers[act.i].loop.post)
    ensures var q := s.servers[act.i].loop.post;
            var room := s.posts[q].packet.roomId;
            SomeoneHears(s.servers[j], room) && OlderUnderway(s.posts, s.servers[j], room, q)
  {
    var q, s' := s.servers[act.i].loop.post, PublishNext(s, act.i, act.receivers);
    var c, p := t.servers[j].fan.attempts[a].client, t.servers[j].fan.attempts[b].payload.post;
    PublishStep(codec, s, act);
    HubWitnesses.ReachableStep(codec, s, act);
    PublishKeepsFan(s, act, j);
    UnpublishedIsNowhere(codec, s, act.i, j);
    RunAttempts(codec, s', acts, t, j);
    assert TriedAt(s', t, j, a, c, q) && TriedAt(s', t, j, b, c, p) && LeadsTo(codec, s', t);
    HubSystem.PublishesOnce(codec, s, act.i);
    HubSystem.PublishAdds(s, act.i, act.receivers, q);
    StillTriedIff(codec, s', j, c, q);
    ComingWasReceived(codec, s, act, j, c);
    OlderIsPublished(codec, s, p, q);
    HubSystem.PublishAdds(s, act.i, act.receivers, p);
    StillTriedIff(codec, s', j, c, p);
    if HeldFor(s.servers[j].fan, c, p) {
      HeldWereSeen(codec, s, j, c, p);
    } else {
      WaitedBefore(s, act, j, c.room, p);
    }
    assert UnderwayTo(s.servers[j], c.room, p);
  }

  // ---- where it can happen ----

  /** Worker v holds an older post back from c while no call is in progress; c is in the room and q waits for it. */
  ghost predicate HeldBack(srv: Server, u: nat, v: nat, id: nat, c: Client, p: nat, k: nat, q: nat) {
    && FanoutProgress.Quiet(srv.fan, u) && u != v && HeldBy(srv.fan, v, id, c) && OwesPost(srv.fan, id, p)
    && WaitsLast(srv, k, c.room, q) && c in srv.reading
  }

  lemma HoldBack(codec: Codec, s0: System, s: System, j: nat, id: nat, c: Client, p: nat, k: nat, q: nat)
    returns (t: System, u: nat, v: nat)
    requires Reachable(codec, s0) && LeadsTo(codec, s0, s) && j < |s.servers|
    requires Owes(s.servers[j].fan, id, c) && OwesPost(s.servers[j].fan, id, p)
    requires WaitsLast(s.servers[j], k, c.room, q) && c in s.servers[j].reading
    ensures LeadsTo(codec, s0, t) && |t.servers| == |s.servers| && t.posts == s.posts
    ensures HeldBack(t.servers[j], u, v, id, c, p, k, q)
  {
    t, u, v := ParkIn(codec, s0, s, j, id, c);
    assert WaitsLast(t.servers[j], k, c.room, q) && OwesPost(t.servers[j].fan, id, p);
  }

  lemma ParkIn(codec: Codec, s0: System, s: System, j: nat, id: nat, c: Client) returns (t: System, u: nat, v: nat)
    requires Reachable(codec, s0) && LeadsTo(codec, s0, s) && j < |s.servers| && Owes(s.servers[j].fan, id, c)
    ensures LeadsTo(codec, s0, t) && |t.servers| == |s.servers| && t.posts == s.posts
    ensures t.servers[j] == s.servers[j].(fan := t.servers[j].fan) && Served(s.servers[j], t.servers[j])
    ensures u != v && FanoutProgress.Quiet(t.servers[j].fan, u) && HeldBy(t.servers[j].fan, v, id, c)
  {
    FanIsSound(codec, s0, s, j);
    var g;
    g, u, v := Park(s.servers[j].reg.rooms, s.servers[j].fan, id, c);
    t := FanGoesOn(codec, s0, s, j, g);
  }

  lemma ReleaseIn(codec: Codec, s0: System, s: System, j: nat, v: nat, id: nat, c: Client, p: nat)
    returns (t: System, b: nat)
    requires Reachable(codec, s0) && LeadsTo(codec, s0, s) && j < |s.servers|
    requires HeldBy(s.servers[j].fan, v, id, c) && OwesPost(s.servers[j].fan, id, p)
    ensures LeadsTo(codec, s0, t) && |t.servers| == |s.servers| && t.posts == s.posts
    ensures s.servers[j].fan.attempts <= t.servers[j].fan.attempts
    ensures |s.servers[j].fan.attempts| <= b < |t.servers[j].fan.attempts|
    ensures t.servers[j].fan.attempts[b].client == c && IsPost(t.servers[j].fan.attempts[b].payload, p)
  {
    FanIsSound(codec, s0, s, j);
    var g;
    g, b := Release(s.servers[j].reg.rooms, s.servers[j].fan, v, id, c);
    t := FanGoesOn(codec, s0, s, j, g);
  }

  /** A worker that stood still while the server was served owes c what it owed. */
  lemma StillHeld(codec: Codec, s0: System, s: System, t: System, j: nat, v: nat, id: nat, c: Client, p: nat)
    requires Reachable(codec, s0) && LeadsTo(codec, s0, s) && LeadsTo(codec, s0, t) && j < |s.servers| == |t.servers|
    requires Served(s.servers[j], t.servers[j]) && t.servers[j].fan.workers == s.servers[j].fan.workers
    requires HeldBy(s.servers[j].fan, v, id, c) && OwesPost(s.servers[j].fan, id, p)
    ensures HeldBy(t.servers[j].fan, v, id, c) && OwesPost(t.servers[j].fan, id, p)
  {
    FanIsSound(codec, s0, s, j);
    FanIsSound(codec, s0, t, j);
    StillOwes(s.servers[j].reg.rooms, s.servers[j].fan, t.servers[j].reg.rooms, t.servers[j].fan, v, c);
  }

  /** An older post that is underway to the room can be held back while q waits. */
  lemma HoldBackUnderway(codec: Codec, s: System, j: nat, room: string, p: nat, k: nat, q: nat)
    returns (t: System, u: nat, v: nat, id: nat, c: Client)
    requires Reachable(codec, s) && j < |s.servers| && UnderwayTo(s.servers[j], room, p)
    requires WaitsLast(s.servers[j], k, room, q) && q != p
    ensures LeadsTo(codec, s, t) && |t.servers| == |s.servers| && t.posts == s.posts
    ensures HeldBack(t.servers[j], u, v, id, c, p, k, q) && c.room == room
  {
    assert Run(codec, s, [], s);
    FanIsSound(codec, s, s, j);
    if d :| d in s.servers[j].reading && d.room == room && HeldFor(s.servers[j].fan, d, p) {
      c := d;
      HeldIsOwed(s.servers[j].reg.rooms, s.servers[j].fan, c, p);
      id :| Owes(s.servers[j].fan, id, c) && OwesPost(s.servers[j].fan, id, p);
      t, u, v := HoldBack(codec, s, s, j, id, c, p, k, q);
    } else {
      c := Anyone(codec, s, s, j, room);
      var s1 := s;
      var slot: nat;
      if n: nat :| IsCalled(s.servers[j].fan, n, room, p) {
        slot := n;
      } else {
        var l: nat :| InInbox(s.servers[j], l, room, p);
        s1, slot := Call(codec, s, s, j, l, c, p);
      }
      var s2;
      s2, id := Snapshot(codec, s, s1, j, slot, c, p);
      t, u, v := HoldBack(codec, s, s2, j, id, c, p, k, q);
    }
  }

  /** q is brought to c by worker u, and then the worker that held p goes on. */
  lemma Overtake(codec: Codec, s0: System, s: System, j: nat, u: nat, v: nat, id: nat, c: Client, p: nat, k: nat,
                 q: nat)
    returns (t: System)
    requires Reachable(codec, s0) && LeadsTo(codec, s0, s) && j < |s.servers|
    requires HeldBack(s.servers[j], u, v, id, c, p, k, q) && p < q && SameServer(s.posts, p, q)
    ensures LeadsTo(codec, s0, t) && Overtook(t, j, q)
  {
    InItsRoom(codec, s0, s, j, c);
    var s1 := Return(codec, s0, s, j, u, k);
    var s2 := ForwardUntil(codec, s0, s1, j, u, k, c, q);
    StillHeld(codec, s0, s1, s2, j, v, id, c, p);
    var a :| 0 <= a < |s2.servers[j].fan.attempts| && s2.servers[j].fan.attempts[a].client == c
             && s2.servers[j].fan.attempts[a].payload == Forwarded(k, q);
    var b;
    t, b := ReleaseIn(codec, s0, s2, j, v, id, c, p);
    assert t.servers[j].fan.attempts[a] == s2.servers[j].fan.attempts[a];
    assert OlderAfter(t.posts, t.servers[j].fan.attempts[a], t.servers[j].fan.attempts[b], q);
  }

  lemma InItsRoom(codec: Codec, s0: System, s: System, j: nat, c: Client)
    requires Reachable(codec, s0) && LeadsTo(codec, s0, s) && j < |s.servers| && c in s.servers[j].reading
    ensures c.room in s.servers[j].reg.rooms && c in s.servers[j].reg.rooms[c.room]
  {
    FanIsSound(codec, s0, s, j);
    assert RoomOf(c) in s.servers[j].reg.rooms && c in s.servers[j].reg.rooms[RoomOf(c)];
  }

  lemma UnderwayCanBeOvertaken(codec: Codec, s: System, i: nat, j: nat)
    requires Reachable(codec, s) && i < |s.servers| && j < |s.servers| && s.servers[i].loop.Publishing?
    requires s.servers[i].loop.post < |s.posts|
    requires var room := s.posts[s.servers[i].loop.post].packet.roomId;
             SomeoneHears(s.servers[j], room) && OlderUnderway(s.posts, s.servers[j], room, s.servers[i].loop.post)
    ensures CanOvertake(codec, s, i, j)
  {
    var q := s.servers[i].loop.post;
    var room := s.posts[q].packet.roomId;
    var k: nat :| Hearing(s.servers[j], k, room);
    var p: nat :| p < q && SameServer(s.posts, p, q) && UnderwayTo(s.servers[j], room, p);
    var act := PublishToThat(s, i, j, k, room);
    HubWitnesses.ReachableStep(codec, s, act);
    StillUnderway(s, act, j, room, p);
    var t := OvertakeFrom(codec, PublishNext(s, i, act.receivers), j, room, p, k, q);
    assert HubTwice.PublishedAndOn(codec, s, i, act.receivers, t);
  }

  /** A publication that only one subscription gets. */
  lemma PublishToThat(s: System, i: nat, j: nat, k: nat, room: string) returns (act: SystemAction)
    requires i < |s.servers| && j < |s.servers| && s.servers[i].loop.Publishing? && s.servers[i].loop.post < |s.posts|
    requires room == s.posts[s.servers[i].loop.post].packet.roomId && Hearing(s.servers[j], k, room)
    ensures act.Publish? && act.i == i && SystemEnabled(s, act) && PublishNext(s, i, act.receivers).posts == s.posts
    ensures |PublishNext(s, i, act.receivers).servers| == |s.servers|
    ensures WaitsLast(PublishNext(s, i, act.receivers).servers[j], k, room, s.servers[i].loop.post)
  {
    HearersSubscribe(s, j, k, room);
    var receivers: seq<set<nat>> := seq(|s.servers|, n => if n == j then {k} else {});
    act := Publish(i, receivers);
    HubSystem.PublishHeard(s, i, receivers, j, k);
    PublishKeepsFan(s, act, j);
  }

  lemma OvertakeFrom(codec: Codec, s: System, j: nat, room: string, p: nat, k: nat, q: nat) returns (t: System)
    requires Reachable(codec, s) && j < |s.servers| && UnderwayTo(s.servers[j], room, p)
    requires WaitsLast(s.servers[j], k, room, q) && p < q && SameServer(s.posts, p, q)
    ensures LeadsTo(codec, s, t) && Overtook(t, j, q)
  {
    var s1, u, v, id, c := HoldBackUnderway(codec, s, j, room, p, k, q);
    t := Overtake(codec, s, s1, j, u, v, id, c, p, k, q);
  }

  lemma StillUnderway(s: System, act: SystemAction, j: nat, room: string, p: nat)
    requires act.Publish? && SystemEnabled(s, act) && j < |s.servers| && UnderwayTo(s.servers[j], room, p)
    ensures UnderwayTo(PublishNext(s, act.i, act.receivers).servers[j], room, p)
  {
    var srv' := PublishNext(s, act.i, act.receivers).servers[j];
    PublishKeepsFan(s, act, j);
    if k: nat :| InInbox(s.servers[j], k, room, p) {
      HubSystem.PublishHeard(s, act.i, act.receivers, j, k);
      assert InInbox(srv', k, room, p);
    } else if slot: nat :| IsCalled(s.servers[j].fan, slot, room, p) {
      assert IsCalled(srv'.fan, slot, room, p);
    }
  }

  /** From s on, c can come to be tried with a post of q's server that is older than q. */
  ghost predicate OlderCanFollow(codec: Codec, s: System, j: nat, c: Client, q: nat) {
    exists p: nat :: p < q && SameServer(s.posts, p, q) && CanStillBeTried(codec, s, j, c, p)
  }

  /** At any moment: a client that has been tried with a published post, or not yet, can still come to be tried with an
      older one of the same server if and only if an older one is coming to it now, through any subscription. */
  lemma OlderCanFollowIff(codec: Codec, s: System, j: nat, c: Client, q: nat)
    requires Reachable(codec, s) && j < |s.servers| && HubSystem.PublishedPost(s, q)
    ensures OlderCanFollow(codec, s, j, c, q)
            <==> exists p: nat :: p < q && SameServer(s.posts, p, q) && Coming(j, s.servers[j], c, p)
  {
    HubSystem.ReachableInv(codec, s);
    forall p: nat | p < q && SameServer(s.posts, p, q)
      ensures CanStillBeTried(codec, s, j, c, p) <==> Coming(j, s.servers[j], c, p) {
      OlderIsPublished(codec, s, p, q);
      StillTriedIff(codec, s, j, c, p);
    }
  }

  /** "Clients receive in the order of publication" fails exactly here, for every reachable state: what a server is
      about to publish can come to be tried on some client of server j before an older post of the same server, if and
      only if a subscription of the room hears on j, and an older post of that server is at this moment in the inbox of
      a hearing subscription of the room, in a call to the room, or with a broadcaster, a queued job or a worker that
      has it for a client still in the room. */
  lemma OvertakesIff(codec: Codec, s: System, i: nat, j: nat)
    requires Reachable(codec, s) && i < |s.servers| && j < |s.servers| && s.servers[i].loop.Publishing?
    ensures s.servers[i].loop.post < |s.posts|
    ensures var q := s.servers[i].loop.post;
            var room := s.posts[q].packet.roomId;
            CanOvertake(codec, s, i, j)
            <==> SomeoneHears(s.servers[j], room) && OlderUnderway(s.posts, s.servers[j], room, q)
  {
    HubSystem.ReachableInv(codec, s);
    HubSystem.PublishesOnce(codec, s, i);
    var q := s.servers[i].loop.post;
    var room := s.posts[q].packet.roomId;
    if SomeoneHears(s.servers[j], room) && OlderUnderway(s.posts, s.servers[j], room, q) {
      UnderwayCanBeOvertaken(codec, s, i, j);
    } else if receivers, t :| HubTwice.PublishedAndOn(codec, s, i, receivers, t) && Overtook(t, j, q) {
      OvertakenNeedsIt(codec, s, i, j, receivers, t);
    }
  }

  lemma OvertakenNeedsIt(codec: Codec, s: System, i: nat, j: nat, receivers: seq<set<nat>>, t: System)
    requires Reachable(codec, s) && i < |s.servers| && j < |s.servers| && s.servers[i].loop.Publishing?
    requires HubTwice.PublishedAndOn(codec, s, i, receivers, t) && Overtook(t, j, s.servers[i].loop.post)
    ensures var q := s.servers[i].loop.post;
            q < |s.posts| && SomeoneHears(s.servers[j], s.posts[q].packet.roomId)
              && OlderUnderway(s.posts, s.servers[j], s.posts[q].packet.roomId, q)
  {
    var q, xs := s.servers[i].loop.post, t.servers[j].fan.attempts;
    var acts :| Run(codec, PublishNext(s, i, receivers), acts, t);
    var a, b :| 0 <= a < b < |xs| && OlderAfter(t.posts, xs[a], xs[b], q);
    PostsGrow(codec, PublishNext(s, i, receivers), acts, t);
    OvertakingNeeds(codec, s, Publish(i, receivers), acts, t, j, a, b);
  }

  lemma {:induction false} PostsGrow(codec: Codec, s: System, acts: seq<SystemAction>, t: System)
    requires Run(codec, s, acts, t)
    ensures s.posts <= t.posts
    decreases |acts|
  {
    if acts != [] {
      PostsGrow(codec, SystemNext(codec, s, acts[0]), acts[1..], t);
    }
  }
}

/** The other half of "a message reaches a client once": wherever a cancelled subscription hears a publication beside
    another one, the system can go on so that a client is tried twice with the message. */
module HubTwice {
  import opened Wire
  import opened Fanout
  import opened Hub
  import HubSystem
  import HubWitnesses
  import opened HubProgress
  import opened HubOnce

  // ---- twice ----

  ghost predicate TriedTwice(t: System, j: nat, p: nat) {
    && j < |t.servers|
    && exists a, b :: 0 <= a < b < |t.servers[j].fan.attempts|
                      && SameMessage(t.servers[j].fan.attempts[a], t.servers[j].fan.attempts[b], p)
  }

  predicate SameMessage(x: Attempt, y: Attempt, p: nat) {
    x.client == y.client && x.payload.Forwarded? && y.payload.Forwarded? && x.payload.post == y.payload.post == p
  }

  lemma TwoTriesAreTwice(t: System, j: nat, p: nat, c: Client, k: nat, l: nat)
    requires j < |t.servers| && k != l && Tried(t.servers[j].fan, c, k, p) && Tried(t.servers[j].fan, c, l, p)
    ensures TriedTwice(t, j, p)
  {
    var xs := t.servers[j].fan.attempts;
    var a :| 0 <= a < |xs| && xs[a].client == c && xs[a].payload == Forwarded(k, p);
    var b :| 0 <= b < |xs| && xs[b].client == c && xs[b].payload == Forwarded(l, p);
    if a < b {
      assert SameMessage(xs[a], xs[b], p);
    } else {
      assert SameMessage(xs[b], xs[a], p);
    }
  }

  /** Two subscriptions of a room hear and have the message waiting. */
  ghost predicate WaitsTwice(srv: Server, k: nat, l: nat, room: string, p: nat) {
    && k != l && Hearing(srv, k, room) && Hearing(srv, l, room) && p in srv.subs[k].inbox && p in srv.subs[l].inbox
  }

  /** The server comes to rest with both subscriptions listening and someone in the room. */
  lemma Poise(codec: Codec, s: System, j: nat, k: nat, l: nat, room: string, p: nat) returns (t: System, c: Client)
    requires Reachable(codec, s) && j < |s.servers| && WaitsTwice(s.servers[j], k, l, room, p)
    ensures LeadsTo(codec, s, t) && |t.servers| == |s.servers|
    ensures Poised(t.servers[j], 0, k, c) && Poised(t.servers[j], 0, l, c)
    ensures p in t.servers[j].subs[k].inbox && p in t.servers[j].subs[l].inbox
  {
    assert Run(codec, s, [], s);
    HasWorkers(codec, s, s, j);
    var s1 := ComeToRest(codec, s, s, j, 0);
    var s2 := Return(codec, s, s1, j, 0, k);
    var s3 := Return(codec, s, s2, j, 0, l);
    t, c := SomeoneIsThere(codec, s, s3, j, room);
    assert forall m | 0 <= m < |s3.servers[j].subs| :: t.servers[j].subs[m] == s3.servers[j].subs[m];
  }

  lemma WaitingCanBeTwice(codec: Codec, s: System, j: nat, k: nat, l: nat, room: string, p: nat) returns (t: System)
    requires Reachable(codec, s) && j < |s.servers| && WaitsTwice(s.servers[j], k, l, room, p)
    ensures LeadsTo(codec, s, t) && TriedTwice(t, j, p)
  {
    var s1, c := Poise(codec, s, j, k, l, room, p);
    var s2 := ForwardUntil(codec, s, s1, j, 0, k, c, p);
    t := ForwardUntil(codec, s, s2, j, 0, l, c, p);
    TriedStays(s2.servers[j].fan, t.servers[j].fan, c, k, p);
    TwoTriesAreTwice(t, j, p, c, k, l);
  }

  /** What server i is about to publish can come to be tried twice on a client of server j. */
  ghost predicate CanBeTriedTwice(codec: Codec, s: System, i: nat, j: nat)
    requires i < |s.servers| && s.servers[i].loop.Publishing?
  {
    exists receivers, t :: PublishedAndOn(codec, s, i, receivers, t) && TriedTwice(t, j, s.servers[i].loop.post)
  }

  ghost predicate PublishedAndOn(codec: Codec, s: System, i: nat, receivers: seq<set<nat>>, t: System) {
    SystemEnabled(s, Publish(i, receivers)) && LeadsTo(codec, PublishNext(s, i, receivers), t)
  }

  lemma PublicationWaitsTwice(codec: Codec, s: System, i: nat, receivers: seq<set<nat>>, j: nat, k: nat, l: nat)
    requires PublishesToTwo(s, i, receivers, j, k, l) && s.servers[i].loop.post < |s.posts|
    ensures j < |s.servers|
    ensures WaitsTwice(PublishNext(s, i, receivers).servers[j], k, l, s.posts[s.servers[i].loop.post].packet.roomId,
                       s.servers[i].loop.post)
  {
    HearersSubscribe(s, j, k, s.posts[s.servers[i].loop.post].packet.roomId);
    HearersSubscribe(s, j, l, s.posts[s.servers[i].loop.post].packet.roomId);
    HubSystem.PublishHeard(s, i, receivers, j, k);
    HubSystem.PublishHeard(s, i, receivers, j, l);
  }

  lemma OldOneCanBeTwice(codec: Codec, s: System, i: nat, j: nat)
    requires Reachable(codec, s) && i < |s.servers| && j < |s.servers| && s.servers[i].loop.Publishing?
    requires MayReachTwice(s, i, j) && s.servers[i].loop.post < |s.posts|
    ensures CanBeTriedTwice(codec, s, i, j)
  {
    var receivers, k, l :| PublishesToTwo(s, i, receivers, j, k, l);
    PublicationWaitsTwice(codec, s, i, receivers, j, k, l);
    HubWitnesses.ReachableStep(codec, s, Publish(i, receivers));
    var t := WaitingCanBeTwice(codec, PublishNext(s, i, receivers), j, k, l,
                               s.posts[s.servers[i].loop.post].packet.roomId,
                               s.servers[i].loop.post);
    assert PublishedAndOn(codec, s, i, receivers, t);
  }

  lemma TwiceNeedsOldOne(codec: Codec, s: System, i: nat, j: nat)
    requires Reachable(codec, s) && i < |s.servers| && j < |s.servers| && s.servers[i].loop.Publishing?
    requires CanBeTriedTwice(codec, s, i, j) && s.servers[i].loop.post < |s.posts|
    ensures OldOneHears(s.servers[j], s.posts[s.servers[i].loop.post].packet.roomId)
  {
    var p := s.servers[i].loop.post;
    var receivers, t :| PublishedAndOn(codec, s, i, receivers, t) && TriedTwice(t, j, p);
    var acts :| Run(codec, PublishNext(s, i, receivers), acts, t);
    var xs := t.servers[j].fan.attempts;
    var a, b :| 0 <= a < b < |xs| && SameMessage(xs[a], xs[b], p);
    if !OldOneHears(s.servers[j], s.posts[p].packet.roomId) {
      NoOldOneNeverTwice(codec, s, Publish(i, receivers), acts, t, j, a, b);
    }
  }

  /** "A client receives a message once" fails exactly here, for every reachable state: what a server is about to
      publish can come to be tried twice on some client of server j if and only if, at this moment, a cancelled
      subscription of the room still hears on j beside another one. */
  lemma TriedTwiceIff(codec: Codec, s: System, i: nat, j: nat)
    requires Reachable(codec, s) && i < |s.servers| && j < |s.servers| && s.servers[i].loop.Publishing?
    ensures s.servers[i].loop.post < |s.posts|
    ensures CanBeTriedTwice(codec, s, i, j) <==> OldOneHears(s.servers[j],
                                                             s.posts[s.servers[i].loop.post].packet.roomId)
  {
    ReachesTwiceIffOldOneHears(codec, s, i, j);
    if MayReachTwice(s, i, j) {
      OldOneCanBeTwice(codec, s, i, j);
    } else if CanBeTriedTwice(codec, s, i, j) {
      TwiceNeedsOldOne(codec, s, i, j);
    }
  }
}

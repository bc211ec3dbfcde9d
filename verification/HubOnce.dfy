/** When a message reaches a client once: the condition at its publication, and what follows from it for ever after. */
module HubOnce {
  import opened Wire
  import Registry
  import Keys
  import opened Hub
  import opened HubSafety
  import HubSystem
  import HubTheorems

  // ---- at the publication ----

  /** Subscription k of the room is there to hear a publication. */
  predicate Hearing(srv: Server, k: nat, room: string) {
    && k < |srv.subs| && k < |srv.reg.contexts| && srv.reg.contexts[k].room == room
    && (srv.subs[k].phase.Listening? || srv.subs[k].phase.Forwarding?)
  }

  predicate PublishesToTwo(s: System, i: nat, receivers: seq<set<nat>>, j: nat, k: nat, l: nat) {
    SystemEnabled(s, Publish(i, receivers)) && j < |receivers| && k != l && k in receivers[j] && l in receivers[j]
  }

  /** Redis may hand what server i is about to publish to two subscriptions of server j. */
  ghost predicate MayReachTwice(s: System, i: nat, j: nat) {
    exists receivers, k, l :: PublishesToTwo(s, i, receivers, j, k, l)
  }

  /** A cancelled subscription of the room still hears beside another one. */
  ghost predicate OldOneHears(srv: Server, room: string) {
    exists k: nat, l: nat :: k != l && Hearing(srv, k, room) && Hearing(srv, l, room) && srv.reg.contexts[k].cancelled
  }

  lemma HearersSubscribe(s: System, j: nat, k: nat, room: string)
    requires j < |s.servers|
    ensures Hearing(s.servers[j], k, room) <==> Subscribes(s.servers[j], k, Keys.PubSubChannel(room))
  {
    if Subscribes(s.servers[j], k, Keys.PubSubChannel(room)) {
      Keys.ChannelsAreInjective(s.servers[j].reg.contexts[k].room, room);
    }
  }

  lemma OnlyOneUncancelled(srv: Server, k: nat, l: nat, room: string)
    requires Registry.Subscribed(srv.reg) && k != l && Hearing(srv, k, room) && Hearing(srv, l, room)
    ensures OldOneHears(srv, room)
  {
    if srv.reg.contexts[k].cancelled {
      assert Hearing(srv, k, room) && Hearing(srv, l, room);
    } else {
      assert Hearing(srv, l, room) && Hearing(srv, k, room) && srv.reg.contexts[l].cancelled;
    }
  }

  /** Whether a message can reach a server twice is decided when it is published: if and only if a cancelled
      subscription of its room has not stopped hearing there and another one hears too. */
  lemma ReachesTwiceIffOldOneHears(codec: Codec, s: System, i: nat, j: nat)
    requires Reachable(codec, s) && i < |s.servers| && j < |s.servers| && s.servers[i].loop.Publishing?
    ensures s.servers[i].loop.post < |s.posts|
    ensures MayReachTwice(s, i, j) <==> OldOneHears(s.servers[j], s.posts[s.servers[i].loop.post].packet.roomId)
  {
    HubSystem.ReachableInv(codec, s);
    HubSystem.PublishesOnce(codec, s, i);
    assert Registry.Subscribed(s.servers[j].reg) by { assert ServerOk(j, s.servers[j]); }
    TwiceIffOldOneHears(s, i, j);
  }

  lemma TwiceIffOldOneHears(s: System, i: nat, j: nat)
    requires i < |s.servers| && j < |s.servers| && s.servers[i].loop.Publishing? && s.servers[i].loop.post < |s.posts|
    requires Registry.Subscribed(s.servers[j].reg)
    ensures MayReachTwice(s, i, j) <==> OldOneHears(s.servers[j], s.posts[s.servers[i].loop.post].packet.roomId)
  {
    var room := s.posts[s.servers[i].loop.post].packet.roomId;
    if receivers, k, l :| PublishesToTwo(s, i, receivers, j, k, l) {
      HearersSubscribe(s, j, k, room);
      HearersSubscribe(s, j, l, room);
      OnlyOneUncancelled(s.servers[j], k, l, room);
    }
    if k: nat, l: nat :|
      k != l && Hearing(s.servers[j], k, room) && Hearing(s.servers[j], l, room)
        && s.servers[j].reg.contexts[k].cancelled {
      HearersSubscribe(s, j, k, room);
      HearersSubscribe(s, j, l, room);
      var receivers: seq<set<nat>> := seq(|s.servers|, n => if n == j then {k, l} else {});
      assert PublishesToTwo(s, i, receivers, j, k, l);
    }
  }

  // ---- ever after ----

  /** Subscription k of the server took the post from Redis at some time. */
  predicate Heard(srv: Server, k: nat, p: nat) {
    k < |srv.subs| && (p in srv.subs[k].forwarded || p in srv.subs[k].inbox)
  }

  /** The post was published and no two subscriptions of server j heard it. */
  ghost predicate HeardByOne(s: System, j: nat, p: nat) {
    && j < |s.servers| && HubSystem.PublishedPost(s, p)
    && forall k, l | Heard(s.servers[j], k, p) && Heard(s.servers[j], l, p) :: k == l
  }

  lemma QuietHearsNothing(srv: Server, srv': Server, k: nat, p: nat)
    requires HubSystem.Quiet(srv, srv') && Heard(srv', k, p)
    ensures Heard(srv, k, p)
  {
  }

  lemma PublishHearsOther(s: System, a: SystemAction, j: nat, k: nat, p: nat)
    requires a.Publish? && SystemEnabled(s, a) && j < |s.servers| && p != s.servers[a.i].loop.post
    requires Heard(PublishNext(s, a.i, a.receivers).servers[j], k, p)
    ensures Heard(s.servers[j], k, p)
  {
    assert k < |s.servers[j].subs|;
    HubSystem.PublishHeard(s, a.i, a.receivers, j, k);
  }

  /** A published post is not heard by anyone new. */
  lemma NobodyNewHears(codec: Codec, s: System, a: SystemAction, j: nat, k: nat, p: nat)
    requires HubSystem.Inv(codec, s) && SystemEnabled(s, a) && j < |s.servers| && HubSystem.PublishedPost(s, p)
    requires Heard(SystemNext(codec, s, a).servers[j], k, p)
    ensures Heard(s.servers[j], k, p)
  {
    match a {
      case Local(i, la) =>
        if i == j {
          LocalHearsNothing(i, s.servers[i], la, k, p);
        }
      case Say(i, c, data, now) => SayHearsNothing(codec, s, a, j, k, p);
      case Publish(i, _) =>
        HubSystem.PublishesOnce(codec, s, i);
        PublishHearsOther(s, a, j, k, p);
    }
  }

  lemma LocalHearsNothing(i: nat, srv: Server, a: LocalAction, k: nat, p: nat)
    requires LocalEnabled(i, srv, a) && Heard(LocalNext(i, srv, a), k, p)
    ensures Heard(srv, k, p)
  {
    HubSystem.LocalIsQuiet(i, srv, a);
    QuietHearsNothing(srv, LocalNext(i, srv, a), k, p);
  }

  lemma SayHearsNothing(codec: Codec, s: System, a: SystemAction, j: nat, k: nat, p: nat)
    requires a.Say? && SystemEnabled(s, a) && j < |s.servers|
    requires j < |SystemNext(codec, s, a).servers| && Heard(SystemNext(codec, s, a).servers[j], k, p)
    ensures Heard(s.servers[j], k, p)
  {
  }

  lemma StaysPublished(codec: Codec, s: System, a: SystemAction, p: nat)
    requires SystemEnabled(s, a) && HubSystem.PublishedPost(s, p)
    ensures HubSystem.PublishedPost(SystemNext(codec, s, a), p)
    ensures |SystemNext(codec, s, a).servers| == |s.servers|
  {
    match a {
      case Local(i, la) => HubSystem.LocalIsQuiet(i, s.servers[i], la);
      case Say(i, c, data, now) =>
      case Publish(i, receivers) => HubSystem.PublishAdds(s, i, receivers, p);
    }
  }

  lemma {:induction false} StaysHeardByOne(codec: Codec, s: System, acts: seq<SystemAction>, t: System, j: nat, p: nat)
    requires HubSystem.Inv(codec, s) && Run(codec, s, acts, t) && HeardByOne(s, j, p)
    ensures HubSystem.Inv(codec, t) && HeardByOne(t, j, p)
    decreases |acts|
  {
    if acts != [] {
      var s' := SystemNext(codec, s, acts[0]);
      StepStaysHeardByOne(codec, s, acts[0], j, p);
      HubSystem.StepKeeps(codec, s, acts[0]);
      StaysHeardByOne(codec, s', acts[1..], t, j, p);
    }
  }

  lemma StepStaysHeardByOne(codec: Codec, s: System, a: SystemAction, j: nat, p: nat)
    requires HubSystem.Inv(codec, s) && SystemEnabled(s, a) && HeardByOne(s, j, p)
    ensures HeardByOne(SystemNext(codec, s, a), j, p)
  {
    var s' := SystemNext(codec, s, a);
    StaysPublished(codec, s, a, p);
    forall k, l | Heard(s'.servers[j], k, p) && Heard(s'.servers[j], l, p) ensures k == l {
      NobodyNewHears(codec, s, a, j, k, p);
      NobodyNewHears(codec, s, a, j, l, p);
    }
  }

  lemma AttemptWasHeard(i: nat, srv: Server, a: nat)
    requires ServerOk(i, srv) && a < |srv.fan.attempts| && srv.fan.attempts[a].payload.Forwarded?
    ensures Heard(srv, srv.fan.attempts[a].payload.via, srv.fan.attempts[a].payload.post)
  {
    HubTheorems.AttemptsHitMembers(srv.reg.rooms, srv.fan, a);
    assert HandoffOk(srv, srv.fan.log[srv.fan.attempts[a].id]);
  }

  /** A message that at most one subscription of a server took is never tried twice on any of its clients, however the
      system goes on. */
  lemma HeardByOneTriedOnce(codec: Codec, s: System, acts: seq<SystemAction>, t: System, j: nat, p: nat, a: nat, b: nat)
    requires Reachable(codec, s) && HeardByOne(s, j, p) && Run(codec, s, acts, t)
    requires j < |t.servers| && a < b < |t.servers[j].fan.attempts|
    requires t.servers[j].fan.attempts[a].payload.Forwarded? && t.servers[j].fan.attempts[b].payload.Forwarded?
    requires t.servers[j].fan.attempts[a].payload.post == t.servers[j].fan.attempts[b].payload.post == p
    ensures t.servers[j].fan.attempts[a].client != t.servers[j].fan.attempts[b].client
  {
    HubSystem.ReachableInv(codec, s);
    StaysHeardByOne(codec, s, acts, t, j, p);
    AttemptsOfOneHearing(t, j, p, a, b) by { assert ServerOk(j, t.servers[j]); }
  }

  lemma AttemptsOfOneHearing(t: System, j: nat, p: nat, a: nat, b: nat)
    requires HeardByOne(t, j, p) && ServerOk(j, t.servers[j]) && a < b < |t.servers[j].fan.attempts|
    requires t.servers[j].fan.attempts[a].payload.Forwarded? && t.servers[j].fan.attempts[b].payload.Forwarded?
    requires t.servers[j].fan.attempts[a].payload.post == t.servers[j].fan.attempts[b].payload.post == p
    ensures t.servers[j].fan.attempts[a].client != t.servers[j].fan.attempts[b].client
  {
    AttemptWasHeard(j, t.servers[j], a);
    AttemptWasHeard(j, t.servers[j], b);
    HubTheorems.AttemptsApart(j, t.servers[j], a, b);
  }

  // ---- from the publication on ----

  /** Nobody heard the post before it is published, so right after, only its receivers did. */
  lemma OnlyReceiversHeard(codec: Codec, s: System, act: SystemAction, j: nat, k: nat)
    requires HubSystem.Inv(codec, s) && act.Publish? && SystemEnabled(s, act) && j < |s.servers|
    requires Heard(PublishNext(s, act.i, act.receivers).servers[j], k, s.servers[act.i].loop.post)
    ensures k in act.receivers[j]
  {
    assert k < |s.servers[j].subs|;
    HubSystem.PublishHeard(s, act.i, act.receivers, j, k);
    HubSystem.PublishesOnce(codec, s, act.i);
    assert HubSystem.ArrivalsOk(s, s.servers[j]) && HubSystem.ArrivedOk(s, s.servers[j], k);
  }

  lemma PublishedToOne(codec: Codec, s: System, act: SystemAction, j: nat)
    requires HubSystem.Inv(codec, s) && act.Publish? && SystemEnabled(s, act) && j < |s.servers|
    requires forall k, l | k in act.receivers[j] && l in act.receivers[j] :: k == l
    ensures HeardByOne(PublishNext(s, act.i, act.receivers), j, s.servers[act.i].loop.post)
  {
    var p, s' := s.servers[act.i].loop.post, PublishNext(s, act.i, act.receivers);
    HubSystem.PublishesOnce(codec, s, act.i);
    HubSystem.PublishAdds(s, act.i, act.receivers, p);
    forall k, l | Heard(s'.servers[j], k, p) && Heard(s'.servers[j], l, p) ensures k == l {
      OnlyReceiversHeard(codec, s, act, j, k);
      OnlyReceiversHeard(codec, s, act, j, l);
    }
  }

  lemma PublishStep(codec: Codec, s: System, act: SystemAction)
    requires Reachable(codec, s) && act.Publish? && SystemEnabled(s, act)
    ensures HubSystem.Inv(codec, s) && HubSystem.Inv(codec, PublishNext(s, act.i, act.receivers))
  {
    HubSystem.ReachableInv(codec, s);
    HubSystem.StepKeeps(codec, s, act);
  }

  /** When no cancelled subscription of the room hears beside another at the publication, the message is never tried
      twice on any client of the server, however the system goes on. */
  lemma NoOldOneNeverTwice(codec: Codec, s: System, act: SystemAction, acts: seq<SystemAction>, t: System, j: nat,
                           a: nat, b: nat)
    requires Reachable(codec, s) && act.Publish? && SystemEnabled(s, act) && j < |s.servers|
    requires !OldOneHears(s.servers[j], s.posts[s.servers[act.i].loop.post].packet.roomId)
    requires Run(codec, PublishNext(s, act.i, act.receivers), acts, t)
    requires j < |t.servers| && a < b < |t.servers[j].fan.attempts|
    requires t.servers[j].fan.attempts[a].payload.Forwarded? && t.servers[j].fan.attempts[b].payload.Forwarded?
    requires t.servers[j].fan.attempts[a].payload.post == t.servers[j].fan.attempts[b].payload.post
             == s.servers[act.i].loop.post
    ensures t.servers[j].fan.attempts[a].client != t.servers[j].fan.attempts[b].client
  {
    var p, s' := s.servers[act.i].loop.post, PublishNext(s, act.i, act.receivers);
    forall k, l | k in act.receivers[j] && l in act.receivers[j] ensures k == l {
      if k != l {
        assert PublishesToTwo(s, act.i, act.receivers, j, k, l);
        ReachesTwiceIffOldOneHears(codec, s, act.i, j);
      }
    }
    PublishStep(codec, s, act);
    PublishedToOne(codec, s, act, j);
    StaysHeardByOne(codec, s', acts, t, j, p);
    AttemptsOfOneHearing(t, j, p, a, b) by { assert ServerOk(j, t.servers[j]); }
  }
}

/** The order in which a server read its clients' messages, carried through publication and subscription to the clients:
    post numbers rise in reading order. */
module HubReadOrder {
  import opened Wire
  import opened Hub
  import opened HubOrder
  import HubSafety
  import HubSystem
  import HubTheorems
  import Registry

  // ---- what a subscription heard ----

  /** All a subscription ever took from its Redis channel, oldest first. */
  function HeardBy(sub: Sub): seq<nat> {
    sub.forwarded + sub.inbox
  }

  predicate SameServer(posts: seq<Post>, p: nat, q: nat) {
    p < |posts| && q < |posts| && posts[p].author.server == posts[q].author.server
  }

  /** Posts of one server stand in the order it read them. */
  ghost predicate InReadOrder(posts: seq<Post>, xs: seq<nat>) {
    forall x, y | 0 <= x < y < |xs| && SameServer(posts, xs[x], xs[y]) :: xs[x] < xs[y]
  }

  ghost predicate HeardInOrder(s: System) {
    forall j, k | 0 <= j < |s.servers| && 0 <= k < |s.servers[j].subs| ::
        InReadOrder(s.posts, HeardBy(s.servers[j].subs[k]))
  }

  /** A local step moves what was heard along, and a new subscription has heard nothing. */
  lemma LocalHears(i: nat, srv: Server, a: LocalAction)
    requires LocalEnabled(i, srv, a)
    ensures forall k | 0 <= k < |LocalNext(i, srv, a).subs| ::
              HeardBy(LocalNext(i, srv, a).subs[k]) == if k < |srv.subs| then HeardBy(srv.subs[k]) else []
  {
    if a.SubForwards? {
      var sub := srv.subs[a.k];
      assert sub.forwarded + [sub.inbox[0]] + sub.inbox[1..] == sub.forwarded + sub.inbox;
    }
  }

  lemma LocalKeepsHeard(s: System, i: nat, a: LocalAction)
    requires HeardInOrder(s) && i < |s.servers| && LocalEnabled(i, s.servers[i], a)
    ensures HeardInOrder(SetServer(s, i, LocalNext(i, s.servers[i], a)))
  {
    var s' := SetServer(s, i, LocalNext(i, s.servers[i], a));
    LocalHears(i, s.servers[i], a);
    forall j, k | 0 <= j < |s'.servers| && 0 <= k < |s'.servers[j].subs|
      ensures InReadOrder(s'.posts, HeardBy(s'.servers[j].subs[k])) {
      if k < |s.servers[j].subs| {
        assert InReadOrder(s.posts, HeardBy(s.servers[j].subs[k]));
      }
    }
  }

  // ---- a new post ----

  /** Everything heard has been posted. */
  lemma HeardWerePosted(codec: Codec, s: System, j: nat, k: nat)
    requires HubSystem.Inv(codec, s) && j < |s.servers| && k < |s.servers[j].subs|
    ensures forall p | p in HeardBy(s.servers[j].subs[k]) :: HubSystem.PublishedPost(s, p)
  {
    assert HubSystem.ArrivalsOk(s, s.servers[j]) && HubSystem.ArrivedOk(s, s.servers[j], k);
  }

  lemma MorePosts(posts: seq<Post>, posts': seq<Post>, xs: seq<nat>)
    requires InReadOrder(posts, xs) && posts <= posts' && forall p | p in xs :: p < |posts|
    ensures InReadOrder(posts', xs)
  {
    forall x, y | 0 <= x < y < |xs| && SameServer(posts', xs[x], xs[y]) ensures xs[x] < xs[y] {
      assert xs[x] in xs && xs[y] in xs;
      assert SameServer(posts, xs[x], xs[y]);
    }
  }

  lemma SayKeepsHeard(codec: Codec, s: System, a: SystemAction)
    requires HubSystem.Inv(codec, s) && HeardInOrder(s) && a.Say? && SystemEnabled(s, a)
    ensures HeardInOrder(SystemNext(codec, s, a))
  {
    var s' := SystemNext(codec, s, a);
    forall j: nat, k: nat | j < |s'.servers| && k < |s'.servers[j].subs|
      ensures InReadOrder(s'.posts, HeardBy(s'.servers[j].subs[k])) {
      assert s'.servers[j].subs == s.servers[j].subs;
      HeardWerePosted(codec, s, j, k);
      MorePosts(s.posts, s'.posts, HeardBy(s.servers[j].subs[k]));
    }
  }

  // ---- a publication ----

  /** What a server is about to publish it read after all it has published. */
  lemma PublishesLater(codec: Codec, s: System, i: nat, p: nat)
    requires HubSystem.Inv(codec, s) && i < |s.servers| && s.servers[i].loop.Publishing? && p in s.servers[i].published
    ensures p < s.servers[i].loop.post
  {
    var srv := s.servers[i];
    assert HubSafety.QueueOk(srv) by { assert HubSafety.ServerOk(i, srv); }
    HubSystem.PostsByIs(s.posts, i);
    var x :| 0 <= x < |srv.published| && srv.published[x] == p;
    assert srv.routed[x] == p && srv.routed[|srv.published|] == srv.loop.post;
  }

  lemma OneMoreHeard(posts: seq<Post>, xs: seq<nat>, q: nat)
    requires InReadOrder(posts, xs) && forall p | p in xs && SameServer(posts, p, q) :: p < q
    ensures InReadOrder(posts, xs + [q])
  {
    forall x, y | 0 <= x < y < |xs + [q]| && SameServer(posts, (xs + [q])[x], (xs + [q])[y])
      ensures (xs + [q])[x] < (xs + [q])[y] {
      assert xs[x] in xs;
    }
  }

  lemma PublicationIsLater(codec: Codec, s: System, i: nat, j: nat, k: nat)
    requires HubSystem.Inv(codec, s) && i < |s.servers| && s.servers[i].loop.Publishing?
    requires j < |s.servers| && k < |s.servers[j].subs|
    ensures var q := s.servers[i].loop.post;
            forall p | p in HeardBy(s.servers[j].subs[k]) && SameServer(s.posts, p, q) :: p < q
  {
    var q := s.servers[i].loop.post;
    HubSystem.PublishesOnce(codec, s, i);
    HeardWerePosted(codec, s, j, k);
    forall p | p in HeardBy(s.servers[j].subs[k]) && SameServer(s.posts, p, q) ensures p < q {
      PublishesLater(codec, s, i, p);
    }
  }

  lemma PublishKeepsHeard(codec: Codec, s: System, a: SystemAction)
    requires HubSystem.Inv(codec, s) && HeardInOrder(s) && a.Publish? && SystemEnabled(s, a)
    ensures HeardInOrder(PublishNext(s, a.i, a.receivers))
  {
    var s' := PublishNext(s, a.i, a.receivers);
    forall j: nat, k: nat | j < |s'.servers| && k < |s'.servers[j].subs|
      ensures InReadOrder(s'.posts, HeardBy(s'.servers[j].subs[k])) {
      PublishKeepsSub(codec, s, a, j, k);
    }
  }

  lemma PublishKeepsSub(codec: Codec, s: System, a: SystemAction, j: nat, k: nat)
    requires HubSystem.Inv(codec, s) && HeardInOrder(s) && a.Publish? && SystemEnabled(s, a)
    requires j < |s.servers| && k < |PublishNext(s, a.i, a.receivers).servers[j].subs|
    ensures InReadOrder(s.posts, HeardBy(PublishNext(s, a.i, a.receivers).servers[j].subs[k]))
  {
    assert k < |s.servers[j].subs|;
    var q, heard := s.servers[a.i].loop.post, HeardBy(s.servers[j].subs[k]);
    HubSystem.PublishHeard(s, a.i, a.receivers, j, k);
    PublicationIsLater(codec, s, a.i, j, k);
    OneMoreHeard(s.posts, heard, q);
    assert HeardBy(PublishNext(s, a.i, a.receivers).servers[j].subs[k]) == if k in a.receivers[j] then heard + [q]
           else heard;
  }

  // ---- every run ----

  lemma StepKeepsHeard(codec: Codec, s: System, a: SystemAction)
    requires HubSystem.Inv(codec, s) && HeardInOrder(s) && SystemEnabled(s, a)
    ensures HeardInOrder(SystemNext(codec, s, a))
  {
    match a {
      case Local(i, la) => LocalKeepsHeard(s, i, la);
      case Say(_, _, _, _) => SayKeepsHeard(codec, s, a);
      case Publish(_, _) => PublishKeepsHeard(codec, s, a);
    }
  }

  lemma {:induction false} RunKeepsHeard(codec: Codec, s: System, acts: seq<SystemAction>, t: System)
    requires HubSystem.Inv(codec, s) && HeardInOrder(s) && Run(codec, s, acts, t)
    ensures HeardInOrder(t)
    decreases |acts|
  {
    if acts != [] {
      StepKeepsHeard(codec, s, acts[0]);
      HubSystem.StepKeeps(codec, s, acts[0]);
      RunKeepsHeard(codec, SystemNext(codec, s, acts[0]), acts[1..], t);
    }
  }

  /** In every reachable state of any number of servers, a subscription has heard, and forwards, the posts of any one
      server in the order in which that server read them. */
  lemma HeardInReadOrder(codec: Codec, s: System, j: nat, k: nat)
    requires Reachable(codec, s) && j < |s.servers| && k < |s.servers[j].subs|
    ensures InReadOrder(s.posts, HeardBy(s.servers[j].subs[k]))
    ensures InReadOrder(s.posts, s.servers[j].subs[k].forwarded)
  {
    var n: nat, acts :| Run(codec, InitSystem(n), acts, s);
    HubSystem.InitOk(codec, InitSystem(n));
    RunKeepsHeard(codec, InitSystem(n), acts, s);
    var heard, forwarded := HeardBy(s.servers[j].subs[k]), s.servers[j].subs[k].forwarded;
    assert InReadOrder(s.posts, heard);
    assert forall x | 0 <= x < |forwarded| :: heard[x] == forwarded[x];
  }

  // ---- to the clients ----

  lemma PrecedesIsReadOrder(posts: seq<Post>, xs: seq<nat>, p: nat, q: nat)
    requires InReadOrder(posts, xs) && Precedes(xs, p, q) && SameServer(posts, p, q)
    ensures p < q
  {
    var a, b :| 0 <= a < b < |xs| && xs[a] == p && xs[b] == q;
    assert SameServer(posts, xs[a], xs[b]);
  }

  /** The older of two handoffs of one subscription carries the post that its server read, and published, first. */
  lemma OlderWasReadFirst(codec: Codec, s: System, i: nat, id1: nat, id2: nat)
    requires Reachable(codec, s) && i < |s.servers| && id1 < id2 < |s.servers[i].fan.log|
    requires SameVia(s.servers[i].fan.log[id1].payload, s.servers[i].fan.log[id2].payload)
    requires SameServer(s.posts, s.servers[i].fan.log[id1].payload.post, s.servers[i].fan.log[id2].payload.post)
    ensures s.servers[i].fan.log[id1].payload.post < s.servers[i].fan.log[id2].payload.post
  {
    ReachableOrder(codec, s, i);
    var srv := s.servers[i];
    var k := srv.fan.log[id1].payload.via;
    assert HubSafety.HandoffOk(srv, srv.fan.log[id1]);
    HeardInReadOrder(codec, s, i, k);
    PrecedesIsReadOrder(s.posts, srv.subs[k].forwarded, srv.fan.log[id1].payload.post, srv.fan.log[id2].payload.post);
  }

  /** Delivery order is reading order wherever workers take a subscription's jobs one at a time: of two posts that one
      server read in this order, p before q, a client tried with both through the subscription was tried with p first.
      */
  lemma OneAtATimeIsReadOrder(codec: Codec, n: nat, acts: seq<SystemAction>, s: System, i: nat, k: nat, a: nat, b: nat)
    requires Run(codec, InitSystem(n), acts, s) && i < n && OneAtATime(codec, InitSystem(n), acts, i, k)
    requires i < |s.servers| && a < |s.servers[i].fan.attempts| && b < |s.servers[i].fan.attempts|
    requires IsVia(s.servers[i].fan.attempts[a].payload, k) && IsVia(s.servers[i].fan.attempts[b].payload, k)
    requires s.servers[i].fan.attempts[a].client == s.servers[i].fan.attempts[b].client
    requires SameServer(s.posts, s.servers[i].fan.attempts[a].payload.post, s.servers[i].fan.attempts[b].payload.post)
    ensures a < b <==> s.servers[i].fan.attempts[a].payload.post < s.servers[i].fan.attempts[b].payload.post
  {
    var attempts := s.servers[i].fan.attempts;
    if a < b {
      EarlierTryIsEarlierPost(codec, n, acts, s, i, k, a, b);
    } else if b < a {
      EarlierTryIsEarlierPost(codec, n, acts, s, i, k, b, a);
    }
  }

  lemma EarlierTryIsEarlierPost(codec: Codec, n: nat, acts: seq<SystemAction>, s: System, i: nat, k: nat, a: nat,
                                b: nat)
    requires Run(codec, InitSystem(n), acts, s) && i < n && OneAtATime(codec, InitSystem(n), acts, i, k)
    requires i < |s.servers| && a < b < |s.servers[i].fan.attempts|
    requires IsVia(s.servers[i].fan.attempts[a].payload, k) && IsVia(s.servers[i].fan.attempts[b].payload, k)
    requires s.servers[i].fan.attempts[a].client == s.servers[i].fan.attempts[b].client
    requires SameServer(s.posts, s.servers[i].fan.attempts[a].payload.post, s.servers[i].fan.attempts[b].payload.post)
    ensures s.servers[i].fan.attempts[a].payload.post < s.servers[i].fan.attempts[b].payload.post
  {
    OneAtATimeKeepsOrder(codec, n, acts, s, i, k, a, b);
    HeardInReadOrder(codec, s, i, k);
    PrecedesIsReadOrder(s.posts, s.servers[i].subs[k].forwarded, s.servers[i].fan.attempts[a].payload.post,
                        s.servers[i].fan.attempts[b].payload.post);
  }

  /** What is left: where the workers take every subscription's jobs one at a time, a client that was tried with a newer
      post of a server before an older one got them through two subscriptions of its room, one of them cancelled. */
  lemma OutOfOrderThroughTwo(codec: Codec, n: nat, acts: seq<SystemAction>, s: System, i: nat, a: nat, b: nat)
    requires Run(codec, InitSystem(n), acts, s) && i < n
    requires forall k: nat :: OneAtATime(codec, InitSystem(n), acts, i, k)
    requires i < |s.servers| && a < b < |s.servers[i].fan.attempts|
    requires s.servers[i].fan.attempts[a].payload.Forwarded? && s.servers[i].fan.attempts[b].payload.Forwarded?
    requires s.servers[i].fan.attempts[a].client == s.servers[i].fan.attempts[b].client
    requires SameServer(s.posts, s.servers[i].fan.attempts[a].payload.post, s.servers[i].fan.attempts[b].payload.post)
    requires s.servers[i].fan.attempts[b].payload.post < s.servers[i].fan.attempts[a].payload.post
    ensures var srv := s.servers[i];
            var k, l := srv.fan.attempts[a].payload.via, srv.fan.attempts[b].payload.via;
            && k < |srv.reg.contexts| && l < |srv.reg.contexts| && k != l
            && srv.reg.contexts[k].room == srv.reg.contexts[l].room == srv.fan.attempts[a].client.room
            && (srv.reg.contexts[k].cancelled || srv.reg.contexts[l].cancelled)
  {
    var k := s.servers[i].fan.attempts[a].payload.via;
    if k == s.servers[i].fan.attempts[b].payload.via {
      OneAtATimeIsReadOrder(codec, n, acts, s, i, k, a, b);
    }
    assert Reachable(codec, s);
    HubSystem.ReachableInv(codec, s);
    HubTheorems.ViaServesClient(i, s.servers[i], a);
    HubTheorems.ViaServesClient(i, s.servers[i], b);
    assert Registry.Subscribed(s.servers[i].reg) by { assert HubSafety.RegistryOk(i, s.servers[i]); }
  }

  /** A server publishes its posts in the order it read them, so reading order is publication order too. */
  lemma PublishedInReadOrder(codec: Codec, s: System, i: nat, p: nat, q: nat)
    requires Reachable(codec, s) && i < |s.servers| && p in s.servers[i].published && q in s.servers[i].published
    ensures p < q <==> Precedes(s.servers[i].published, p, q)
  {
    HubSystem.ReachableInv(codec, s);
    var srv := s.servers[i];
    assert HubSafety.QueueOk(srv) by { assert HubSafety.ServerOk(i, srv); }
    HubSystem.PostsByIs(s.posts, i);
    assert forall x | 0 <= x < |srv.published| :: srv.published[x] == srv.routed[x];
    var x, y :| 0 <= x < |srv.published| && 0 <= y < |srv.published| && srv.published[x] == p && srv.published[y] == q;
    if p < q {
      assert x < y;
    }
  }
}

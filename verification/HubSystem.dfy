/** The whole system: what holds between servers, and the invariant of every run. */
module HubSystem {
  import opened Wire
  import opened Seqs
  import Registry
  import Keys
  import opened Fanout
  import opened Hub
  import opened HubSafety
  import FanoutDelivery

  /** The post is what the danmaku handler makes of some data from its author: the author's own room and user id. */
  ghost predicate MadeByRouter(codec: Codec, post: Post) {
    exists data, now :: Enrich(codec, post.author.room, post.author.userId, data, now) == Some(post.packet)
  }

  ghost predicate PostsOk(codec: Codec, posts: seq<Post>) {
    forall p | 0 <= p < |posts| :: MadeByRouter(codec, posts[p])
  }

  /** The posts of a server's own clients, in the order the system accepted them. */
  function PostsBy(posts: seq<Post>, i: nat): seq<nat> {
    if posts == [] then []
    else PostsBy(posts[..|posts| - 1], i) + if posts[|posts| - 1].author.server == i then [|posts| - 1] else []
  }

  lemma {:induction false} InPostsBy(posts: seq<Post>, i: nat, p: nat)
    ensures p in PostsBy(posts, i) <==> p < |posts| && posts[p].author.server == i
  {
    if posts != [] {
      InPostsBy(posts[..|posts| - 1], i, p);
    }
  }

  /** The server's own posts by number, strictly rising. */
  lemma PostsByIs(posts: seq<Post>, i: nat)
    ensures var xs := PostsBy(posts, i);
            && (forall x, y | 0 <= x < y < |xs| :: xs[x] < xs[y])
            && (forall p: nat :: p in xs <==> p < |posts| && posts[p].author.server == i)
  {
    forall p: nat ensures p in PostsBy(posts, i) <==> p < |posts| && posts[p].author.server == i {
      InPostsBy(posts, i, p);
    }
    PostsByRise(posts, i);
  }

  lemma {:induction false} PostsByRise(posts: seq<Post>, i: nat)
    ensures forall x | 0 <= x < |PostsBy(posts, i)| :: PostsBy(posts, i)[x] < |posts|
    ensures forall x, y | 0 <= x < y < |PostsBy(posts, i)| :: PostsBy(posts, i)[x] < PostsBy(posts, i)[y]
  {
    if posts != [] {
      var last := |posts| - 1;
      PostsByRise(posts[..last], i);
      var front := PostsBy(posts[..last], i);
      assert PostsBy(posts, i) == if posts[last].author.server == i then front + [last] else front;
    }
  }

  lemma PostsBySnoc(posts: seq<Post>, post: Post, i: nat)
    ensures PostsBy(posts + [post], i) == PostsBy(posts, i) + if post.author.server == i then [|posts|] else []
  {
    assert (posts + [post])[..|posts|] == posts;
  }

  /** Each server routed exactly the posts of its own clients, in the order they were accepted. */
  ghost predicate RoutedOk(s: System) {
    && (forall i | 0 <= i < |s.servers| :: s.servers[i].routed == PostsBy(s.posts, i))
    && (forall p | 0 <= p < |s.posts| :: s.posts[p].author.server < |s.servers|)
  }

  ghost predicate PublishedPost(s: System, p: nat) {
    p < |s.posts| && s.posts[p].author.server < |s.servers| && p in s.servers[s.posts[p].author.server].published
  }

  /** A subscription only ever took published posts of its own room. */
  ghost predicate ArrivedOk(s: System, srv: Server, k: nat)
    requires k < |srv.subs|
  {
    forall p | p in srv.subs[k].forwarded || p in srv.subs[k].inbox ::
      PublishedPost(s, p) && k < |srv.reg.contexts| && s.posts[p].author.room == srv.reg.contexts[k].room
  }

  ghost predicate ArrivalsOk(s: System, srv: Server) {
    forall k | 0 <= k < |srv.subs| :: ArrivedOk(s, srv, k)
  }

  ghost predicate Inv(codec: Codec, s: System) {
    && (forall i | 0 <= i < |s.servers| :: ServerOk(i, s.servers[i]))
    && PostsOk(codec, s.posts)
    && RoutedOk(s)
    && (forall i | 0 <= i < |s.servers| :: ArrivalsOk(s, s.servers[i]))
  }

  // ---- local steps ----

  /** A local step publishes and routes nothing, and no subscription hears anything new. */
  ghost predicate Quiet(srv: Server, srv': Server) {
    && srv'.published == srv.published && srv'.routed == srv.routed
    && |srv.subs| <= |srv'.subs| && |srv.reg.contexts| <= |srv'.reg.contexts|
    && (forall k | 0 <= k < |srv.reg.contexts| :: srv'.reg.contexts[k].room == srv.reg.contexts[k].room)
    && (forall k | 0 <= k < |srv.subs| :: forall p | p in srv'.subs[k].forwarded || p in srv'.subs[k].inbox ::
          p in srv.subs[k].forwarded || p in srv.subs[k].inbox)
    && (forall k | |srv.subs| <= k < |srv'.subs| :: srv'.subs[k].forwarded == [] && srv'.subs[k].inbox == [])
  }

  lemma LocalIsQuiet(i: nat, srv: Server, a: LocalAction)
    requires LocalEnabled(i, srv, a)
    ensures Quiet(srv, LocalNext(i, srv, a))
  {
    match a {
      case Connect(c) => ContextsKeepRooms(srv.reg, Registry.Joined(c));
      case Disconnect(c) => ContextsKeepRooms(srv.reg, Registry.Left(c));
      case _ =>
    }
  }

  lemma QuietKeepsArrivals(s: System, i: nat, srv': Server, j: nat)
    requires i < |s.servers| && j < |s.servers| && Quiet(s.servers[i], srv') && ArrivalsOk(s, s.servers[j])
    ensures ArrivalsOk(SetServer(s, i, srv'), SetServer(s, i, srv').servers[j])
  {
    var s' := SetServer(s, i, srv');
    forall p | PublishedPost(s, p) ensures PublishedPost(s', p) {
    }
    forall k | 0 <= k < |s'.servers[j].subs| ensures ArrivedOk(s', s'.servers[j], k) {
      if k < |s.servers[j].subs| {
        assert ArrivedOk(s, s.servers[j], k);
      }
    }
  }

  lemma QuietStepKeeps(codec: Codec, s: System, i: nat, srv': Server)
    requires Inv(codec, s) && i < |s.servers| && ServerOk(i, srv') && Quiet(s.servers[i], srv')
    ensures Inv(codec, SetServer(s, i, srv'))
  {
    var s' := SetServer(s, i, srv');
    forall j: nat | j < |s'.servers| ensures ArrivalsOk(s', s'.servers[j]) {
      QuietKeepsArrivals(s, i, srv', j);
    }
  }

  // ---- the router ----

  lemma RoutingKeepsServer(i: nat, srv: Server, p: nat)
    requires ServerOk(i, srv) && |srv.broadcast| < BROADCAST_CHAN_SIZE
    ensures ServerOk(i, srv.(broadcast := srv.broadcast + [p], routed := srv.routed + [p]))
  {
    var srv' := srv.(broadcast := srv.broadcast + [p], routed := srv.routed + [p]);
    assert srv.routed + [p] == srv.published + Unpublished(srv.loop) + (srv.broadcast + [p]);
    CallsSurvive(srv, srv');
  }

  lemma RoutedGrows(s: System, s': System, i: nat, post: Post)
    requires RoutedOk(s) && i < |s.servers| && post.author.server == i
    requires s'.posts == s.posts + [post] && |s'.servers| == |s.servers|
    requires forall j | 0 <= j < |s.servers| ::
               s'.servers[j].routed == if j == i then s.servers[i].routed + [|s.posts|] else s.servers[j].routed
    ensures RoutedOk(s')
  {
    forall j | 0 <= j < |s'.servers| ensures s'.servers[j].routed == PostsBy(s'.posts, j) {
      PostsBySnoc(s.posts, post, j);
    }
  }

  lemma SayKeepsArrivals(s: System, s': System, j: nat, k: nat)
    requires j < |s.servers| && k < |s.servers[j].subs| && ArrivedOk(s, s.servers[j], k)
    requires |s.posts| <= |s'.posts| && s'.posts[..|s.posts|] == s.posts && |s'.servers| == |s.servers|
    requires forall i | 0 <= i < |s.servers| ::
               && s'.servers[i].published == s.servers[i].published
               && s'.servers[i].subs == s.servers[i].subs && s'.servers[i].reg == s.servers[i].reg
    ensures ArrivedOk(s', s'.servers[j], k)
  {
    forall p: nat | p < |s.posts| ensures s'.posts[p] == s.posts[p] {
      assert s'.posts[..|s.posts|][p] == s.posts[p];
    }
  }

  lemma PostAddedKeeps(codec: Codec, s: System, s': System, i: nat, post: Post)
    requires Inv(codec, s) && i < |s.servers| && post.author.server == i && MadeByRouter(codec, post)
    requires |s.servers[i].broadcast| < BROADCAST_CHAN_SIZE
    requires s'.posts == s.posts + [post]
    requires s'.servers == s.servers[i := s.servers[i].(broadcast := s.servers[i].broadcast + [|s.posts|],
                                                        routed := s.servers[i].routed + [|s.posts|])]
    ensures Inv(codec, s')
  {
    RoutedGrows(s, s', i, post);
    assert s'.posts[..|s.posts|] == s.posts;
    forall j: nat | j < |s'.servers|
      ensures ServerOk(j, s'.servers[j]) && ArrivalsOk(s', s'.servers[j]) {
      if j == i {
        RoutingKeepsServer(i, s.servers[i], |s.posts|);
      }
      assert ArrivalsOk(s, s.servers[j]);
      forall k | 0 <= k < |s'.servers[j].subs| ensures ArrivedOk(s', s'.servers[j], k) {
        SayKeepsArrivals(s, s', j, k);
      }
    }
  }

  lemma SayKeeps(codec: Codec, s: System, i: nat, c: Client, data: string, now: int)
    requires Inv(codec, s) && SystemEnabled(s, Say(i, c, data, now))
    ensures Inv(codec, SayNext(codec, s, i, c, data, now))
  {
    if Enrich(codec, c.room, c.userId, data, now).Some? {
      assert c in s.servers[i].seen && c.server == i by { assert RegistryOk(i, s.servers[i]); }
      PostAddedKeeps(codec, s, SayNext(codec, s, i, c, data, now), i,
                     Post(c, Enrich(codec, c.room, c.userId, data, now).value));
    }
  }

  // ---- publication ----

  lemma ReceiveKeepsServer(j: nat, srv: Server, ks: set<nat>, p: nat)
    requires ServerOk(j, srv)
    requires forall k | k in ks :: k < |srv.subs| && p !in srv.subs[k].forwarded && p !in srv.subs[k].inbox
    ensures ServerOk(j, Receive(srv, ks, p))
  {
    var srv' := Receive(srv, ks, p);
    forall slot | 0 <= slot < |srv'.fan.callers| ensures CallOk(srv', slot) {
      assert CallOk(srv, slot);
    }
    forall id | 0 <= id < |srv'.fan.log| ensures HandoffOk(srv', srv'.fan.log[id]) {
      assert HandoffOk(srv, srv.fan.log[id]);
    }
    forall k | 0 <= k < |srv'.subs| ensures NoDup(srv'.subs[k].forwarded + srv'.subs[k].inbox) {
      var old_ := srv.subs[k].forwarded + srv.subs[k].inbox;
      assert NoDup(old_);
      if k in ks {
        NoDupConcat(old_, [p]);
        assert srv'.subs[k].forwarded + srv'.subs[k].inbox == old_ + [p];
      }
    }
  }

  /** What a loop is about to publish is its own server's post and was never published. */
  lemma PublishesOnce(codec: Codec, s: System, i: nat)
    requires Inv(codec, s) && i < |s.servers| && s.servers[i].loop.Publishing?
    ensures var p := s.servers[i].loop.post;
            p < |s.posts| && s.posts[p].author.server == i && p !in s.servers[i].published && !PublishedPost(s, p)
  {
    var srv := s.servers[i];
    var p := srv.loop.post;
    assert QueueOk(srv);
    PostsByIs(s.posts, i);
    var n := |srv.published|;
    assert srv.routed[n] == p && p in srv.routed;
    assert forall x | 0 <= x < n :: srv.routed[x] == srv.published[x];
  }

  lemma LoopPublishedKeepsServer(i: nat, srv: Server)
    requires ServerOk(i, srv) && srv.loop.Publishing?
    ensures ServerOk(i, srv.(loop := Selecting, published := srv.published + [srv.loop.post]))
  {
    var srv' := srv.(loop := Selecting, published := srv.published + [srv.loop.post]);
    assert srv'.published + [] == srv'.published && srv.pushed + [] == srv.pushed;
    assert QueueOk(srv');
    CallsSurvive(srv, srv');
  }

  /** A published post reaches only subscriptions of its author's room, which never heard it before. */
  lemma ReachesItsRoom(codec: Codec, s: System, a: SystemAction, j: nat, k: nat)
    requires Inv(codec, s) && a.Publish? && SystemEnabled(s, a) && j < |s.servers| && k in a.receivers[j]
    ensures var p := s.servers[a.i].loop.post;
            && k < |s.servers[j].subs| && k < |s.servers[j].reg.contexts|
            && s.posts[p].author.room == s.servers[j].reg.contexts[k].room
            && p !in s.servers[j].subs[k].forwarded && p !in s.servers[j].subs[k].inbox
  {
    var p := s.servers[a.i].loop.post;
    assert Subscribes(s.servers[j], k, Keys.PubSubChannel(s.posts[p].packet.roomId));
    assert MadeByRouter(codec, s.posts[p]);
    Keys.ChannelsAreInjective(s.servers[j].reg.contexts[k].room, s.posts[p].packet.roomId);
    PublishesOnce(codec, s, a.i);
    assert ArrivalsOk(s, s.servers[j]) && ArrivedOk(s, s.servers[j], k);
  }

  lemma PublishKeepsServers(codec: Codec, s: System, a: SystemAction, j: nat)
    requires Inv(codec, s) && a.Publish? && SystemEnabled(s, a) && j < |s.servers|
    ensures ServerOk(j, PublishNext(s, a.i, a.receivers).servers[j])
  {
    var p := s.servers[a.i].loop.post;
    var srv := s.servers[j];
    if j == a.i {
      LoopPublishedKeepsServer(j, srv);
      srv := srv.(loop := Selecting, published := srv.published + [p]);
    }
    forall k | k in a.receivers[j] ensures k < |srv.subs| && p !in srv.subs[k].forwarded && p !in srv.subs[k].inbox {
      ReachesItsRoom(codec, s, a, j, k);
    }
    ReceiveKeepsServer(j, srv, a.receivers[j], p);
  }

  /** Publishing adds one published post and forgets none. */
  lemma PublishAdds(s: System, i: nat, receivers: seq<set<nat>>, q: nat)
    requires i < |s.servers| && s.servers[i].loop.Publishing? && |receivers| == |s.servers|
    requires PublishedPost(s, q)
             || (q == s.servers[i].loop.post && q < |s.posts| && s.posts[q].author.server == i)
    ensures PublishedPost(PublishNext(s, i, receivers), q)
  {
    var j, s' := s.posts[q].author.server, PublishNext(s, i, receivers);
    assert s'.servers[j].published == s.servers[j].published + if j == i then [s.servers[i].loop.post] else [];
  }

  /** A subscription's hearing after a publication: as before, and the post if it was a receiver. */
  lemma PublishHeard(s: System, i: nat, receivers: seq<set<nat>>, j: nat, k: nat)
    requires i < |s.servers| && s.servers[i].loop.Publishing? && |receivers| == |s.servers|
    requires j < |s.servers| && k < |s.servers[j].subs|
    ensures var srv, srv' := s.servers[j], PublishNext(s, i, receivers).servers[j];
            && |srv'.subs| == |srv.subs| && srv'.reg == srv.reg
            && srv'.subs[k].forwarded == srv.subs[k].forwarded
            && srv'.subs[k].inbox == srv.subs[k].inbox + if k in receivers[j] then [s.servers[i].loop.post] else []
  {
  }

  lemma PublishKeepsArrivals(codec: Codec, s: System, a: SystemAction, j: nat, k: nat)
    requires Inv(codec, s) && a.Publish? && SystemEnabled(s, a)
    requires j < |s.servers| && k < |s.servers[j].subs|
    ensures var s' := PublishNext(s, a.i, a.receivers);
            |s'.servers[j].subs| == |s.servers[j].subs| && ArrivedOk(s', s'.servers[j], k)
  {
    var s' := PublishNext(s, a.i, a.receivers);
    PublishesOnce(codec, s, a.i);
    PublishHeard(s, a.i, a.receivers, j, k);
    assert ArrivalsOk(s, s.servers[j]) && ArrivedOk(s, s.servers[j], k);
    forall q | q in s'.servers[j].subs[k].forwarded || q in s'.servers[j].subs[k].inbox
      ensures PublishedPost(s', q) {
      PublishAdds(s, a.i, a.receivers, q);
    }
    if k in a.receivers[j] {
      ReachesItsRoom(codec, s, a, j, k);
    }
  }

  lemma PublishKeepsServerArrivals(codec: Codec, s: System, a: SystemAction, j: nat)
    requires Inv(codec, s) && a.Publish? && SystemEnabled(s, a) && j < |s.servers|
    ensures var s' := PublishNext(s, a.i, a.receivers); ArrivalsOk(s', s'.servers[j])
  {
    var s' := PublishNext(s, a.i, a.receivers);
    forall k | 0 <= k < |s'.servers[j].subs| ensures ArrivedOk(s', s'.servers[j], k) {
      PublishKeepsArrivals(codec, s, a, j, k);
    }
  }

  lemma PublishKeepsRoutes(s: System, i: nat, receivers: seq<set<nat>>)
    requires RoutedOk(s) && i < |s.servers| && s.servers[i].loop.Publishing? && |receivers| == |s.servers|
    ensures RoutedOk(PublishNext(s, i, receivers))
  {
    var s' := PublishNext(s, i, receivers);
    forall j | 0 <= j < |s'.servers| ensures s'.servers[j].routed == s.servers[j].routed {
    }
  }

  lemma PublishKeeps(codec: Codec, s: System, a: SystemAction)
    requires Inv(codec, s) && a.Publish? && SystemEnabled(s, a)
    ensures Inv(codec, PublishNext(s, a.i, a.receivers))
  {
    var s' := PublishNext(s, a.i, a.receivers);
    PublishKeepsRoutes(s, a.i, a.receivers);
    forall j: nat | j < |s'.servers| ensures ServerOk(j, s'.servers[j]) && ArrivalsOk(s', s'.servers[j]) {
      PublishKeepsServers(codec, s, a, j);
      PublishKeepsServerArrivals(codec, s, a, j);
    }
  }

  // ---- every run ----

  lemma StepKeeps(codec: Codec, s: System, a: SystemAction)
    requires Inv(codec, s) && SystemEnabled(s, a)
    ensures Inv(codec, SystemNext(codec, s, a))
  {
    match a {
      case Local(i, la) =>
        LocalKeeps(i, s.servers[i], la);
        LocalIsQuiet(i, s.servers[i], la);
        QuietStepKeeps(codec, s, i, LocalNext(i, s.servers[i], la));
      case Say(i, c, data, now) => SayKeeps(codec, s, i, c, data, now);
      case Publish(_, _) => PublishKeeps(codec, s, a);
    }
  }

  lemma NewRegistryOk(i: nat, srv: Server)
    requires srv.reg == Registry.Empty() && srv.subs == [] && srv.reading == {} && srv.seen == {}
    ensures RegistryOk(i, srv)
  {
    assert (set c | c in srv.reg.done) == srv.seen - srv.reading;
  }

  lemma NewServerOk(i: nat, srv: Server)
    requires srv.reg == Registry.Empty() && srv.subs == [] && srv.reading == {} && srv.seen == {}
    requires srv.routed == srv.published == srv.pushed == srv.broadcast == [] && srv.loop.Selecting?
    requires FanoutDelivery.Unused(srv.fan)
    ensures ServerOk(i, srv)
  {
    NewRegistryOk(i, srv);
    FanoutDelivery.UnusedOk(srv.reg.rooms, srv.fan);
  }

  predicate Unstarted(s: System) {
    s.posts == [] && forall i | 0 <= i < |s.servers| :: s.servers[i] == InitServer()
  }

  lemma InitServersOk(s: System)
    requires Unstarted(s)
    ensures forall i | 0 <= i < |s.servers| :: ServerOk(i, s.servers[i])
  {
    assert FanoutDelivery.Unused(InitServer().fan);
    forall i: nat | i < |s.servers| ensures ServerOk(i, s.servers[i]) {
      NewServerOk(i, s.servers[i]);
    }
  }

  lemma InitSystemOk(s: System)
    requires Unstarted(s)
    ensures RoutedOk(s) && forall i | 0 <= i < |s.servers| :: ArrivalsOk(s, s.servers[i])
  {
  }

  lemma InitOk(codec: Codec, s: System)
    requires Unstarted(s)
    ensures Inv(codec, s)
  {
    InitServersOk(s);
    InitSystemOk(s);
  }

  lemma {:induction false} RunKeeps(codec: Codec, s: System, acts: seq<SystemAction>, t: System)
    requires Inv(codec, s) && Run(codec, s, acts, t)
    ensures Inv(codec, t)
    decreases |acts|
  {
    if acts != [] {
      StepKeeps(codec, s, acts[0]);
      RunKeeps(codec, SystemNext(codec, s, acts[0]), acts[1..], t);
    }
  }

  lemma ReachableInv(codec: Codec, s: System)
    requires Reachable(codec, s)
    ensures Inv(codec, s)
  {
    var n: nat, acts :| Run(codec, InitSystem(n), acts, s);
    InitOk(codec, InitSystem(n));
    RunKeeps(codec, InitSystem(n), acts, s);
  }
}

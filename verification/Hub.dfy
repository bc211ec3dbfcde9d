/** Any number of servers joined by Redis pub/sub: routers, manager loops, Kafka producers, room subscriptions and
    local fan-out, as one interleaved step relation. */
module Hub {
  import opened Wire
  import Registry
  import Keys
  import opened Fanout

  const BROADCAST_CHAN_SIZE: nat := 1024

  /** A danmaku the router accepted; its number is its place in the system's `posts`. */
  datatype Post = Post(author: Client, packet: WsPacket)

  /** The manager goroutine: in its select, about to push a packet to Kafka, or about to publish it. */
  datatype Loop = Selecting | Pushing(post: nat) | Publishing(post: nat)

  datatype SubPhase = Starting | Listening | Forwarding(slot: nat) | Gone

  /** One subscribeToRoom goroutine; it serves the context with the same index.  `forwarded` lists the posts it took
      from its Redis channel. */
  datatype Sub = Sub(phase: SubPhase, inbox: seq<nat>, forwarded: seq<nat>)

  /** `reading` are the clients whose ReadPump runs, `seen` all that ever registered; `routed`, `pushed` and
      `published` list the posts put on the Broadcast channel, on the Kafka input, and published. */
  datatype Server = Server(
    reg: Registry.Registry<Client>, fan: Fanout, subs: seq<Sub>,
    broadcast: seq<nat>, loop: Loop,
    reading: set<Client>, seen: set<Client>,
    routed: seq<nat>, pushed: seq<nat>, published: seq<nat>)

  datatype System = System(servers: seq<Server>, posts: seq<Post>)

  function RoomOf(c: Client): string {
    c.room
  }

  function InitServer(): Server {
    Server(Registry.Empty(), Init([]), [], [], Selecting, {}, {}, [], [], [])
  }

  function InitSystem(n: nat): System {
    System(seq(n, _ => InitServer()), [])
  }

  // ---- steps of one server ----

  datatype LocalAction =
    | Connect(c: Client) | Disconnect(c: Client)
    | LoopTakes | LoopPushes
    | SubListens(k: nat) | SubForwards(k: nat, slot: nat) | SubReturns(k: nat) | SubLeaves(k: nat)
    | StatsCall(slot: nat, room: string, online: nat, likes: nat)
    | FanStep(a: Action)

  /** A goroutine slot no subscription is using. */
  predicate SlotFree(srv: Server, slot: nat) {
    && slot < |srv.fan.callers| && srv.fan.callers[slot].Free?
    && forall k | 0 <= k < |srv.subs| :: srv.subs[k].phase != Forwarding(slot)
  }

  predicate LocalEnabled(i: nat, srv: Server, a: LocalAction) {
    match a
    // the write lock waits for the readers
    case Connect(c) => srv.loop.Selecting? && c.server == i && c !in srv.seen && NoReaders(srv.fan)
    // ReadPump ends before it unregisters
    case Disconnect(c) => srv.loop.Selecting? && c in srv.reading && NoReaders(srv.fan)
    case LoopTakes => srv.loop.Selecting? && srv.broadcast != []
    case LoopPushes => srv.loop.Pushing?
    case SubListens(k) => k < |srv.subs| && srv.subs[k].phase.Starting?
    // the select may pick a message although the context is cancelled
    case SubForwards(k, slot) => k < |srv.subs| && srv.subs[k].phase.Listening? && srv.subs[k].inbox != []
      && SlotFree(srv, slot)
                                 && k < |srv.reg.contexts|
    case SubReturns(k) => k < |srv.subs| && srv.subs[k].phase.Forwarding?
                          && srv.subs[k].phase.slot < |srv.fan.callers| && srv.fan.callers[srv.subs[k].phase.slot].Free?
    case SubLeaves(k) => k < |srv.subs| && (srv.subs[k].phase.Starting? || srv.subs[k].phase.Listening?)
    case StatsCall(slot, _, _, _) => SlotFree(srv, slot)
    case FanStep(fa) => !fa.Start? && Enabled(srv.reg.rooms, srv.fan, fa)
  }

  function SetSub(srv: Server, k: nat, sub: Sub): Server
    requires k < |srv.subs|
  {
    srv.(subs := srv.subs[k := sub])
  }

  /** A new room brings a new context and its subscription goroutine. */
  function ConnectClient(srv: Server, c: Client): Server {
    var reg := Registry.Register(RoomOf, srv.reg, c);
    srv.(reg := reg, reading := srv.reading + {c}, seen := srv.seen + {c},
         subs := if |reg.contexts| > |srv.reg.contexts| then srv.subs + [Sub(Starting, [], [])] else srv.subs)
  }

  function StartCall(f: Fanout, slot: nat, room: string, payload: Payload): Fanout
    requires slot < |f.callers|
  {
    SetCaller(f, slot, Called(room, payload))
  }

  function Forward(srv: Server, k: nat, slot: nat): Server
    requires k < |srv.subs| && srv.subs[k].inbox != [] && slot < |srv.fan.callers| && k < |srv.reg.contexts|
  {
    var sub := srv.subs[k];
    SetSub(srv, k, Sub(Forwarding(slot), sub.inbox[1..], sub.forwarded + [sub.inbox[0]]))
    .(fan := StartCall(srv.fan, slot, srv.reg.contexts[k].room, Forwarded(k, sub.inbox[0])))
  }

  function LocalNext(i: nat, srv: Server, a: LocalAction): Server
    requires LocalEnabled(i, srv, a)
  {
    match a
    case Connect(c) => ConnectClient(srv, c)
    case Disconnect(c) => srv.(reg := Registry.Unregister(RoomOf, srv.reg, c), reading := srv.reading - {c})
    case LoopTakes => srv.(loop := Pushing(srv.broadcast[0]), broadcast := srv.broadcast[1..])
    case LoopPushes => srv.(loop := Publishing(srv.loop.post), pushed := srv.pushed + [srv.loop.post])
    case SubListens(k) => SetSub(srv, k, srv.subs[k].(phase := Listening))
    case SubForwards(k, slot) => Forward(srv, k, slot)
    case SubReturns(k) => SetSub(srv, k, srv.subs[k].(phase := Listening))
    case SubLeaves(k) => SetSub(srv, k, srv.subs[k].(phase := Gone))
    case StatsCall(slot, room, online, likes) => srv.(fan := StartCall(srv.fan, slot, room, Stats(online, likes)))
    case FanStep(fa) => srv.(fan := Next(srv.reg.rooms, srv.fan, fa))
  }

  // ---- steps of the system ----

  datatype SystemAction =
    | Local(i: nat, a: LocalAction)
    | Say(i: nat, c: Client, data: string, now: int)
    | Publish(i: nat, receivers: seq<set<nat>>)

  /** Redis hands a published message to subscriptions of its channel, any of which may lose it. */
  predicate Subscribes(srv: Server, k: nat, channel: string) {
    && k < |srv.subs| && k < |srv.reg.contexts|
    && (srv.subs[k].phase.Listening? || srv.subs[k].phase.Forwarding?)
    && Keys.PubSubChannel(srv.reg.contexts[k].room) == channel
  }

  predicate SystemEnabled(s: System, a: SystemAction) {
    match a
    case Local(i, la) => i < |s.servers| && LocalEnabled(i, s.servers[i], la)
    case Say(i, c, _, _) => i < |s.servers| && c in s.servers[i].reading
      && |s.servers[i].broadcast| < BROADCAST_CHAN_SIZE
    case Publish(i, receivers) =>
      && i < |s.servers| && s.servers[i].loop.Publishing? && s.servers[i].loop.post < |s.posts|
      && |receivers| == |s.servers|
      && forall j | 0 <= j < |receivers| :: forall k | k in receivers[j] ::
           Subscribes(s.servers[j], k, Keys.PubSubChannel(s.posts[s.servers[i].loop.post].packet.roomId))
  }

  function SetServer(s: System, i: nat, srv: Server): System
    requires i < |s.servers|
  {
    s.(servers := s.servers[i := srv])
  }

  /** The danmaku handler: malformed data is logged and ignored. */
  function SayNext(codec: Codec, s: System, i: nat, c: Client, data: string, now: int): System
    requires i < |s.servers|
  {
    match Enrich(codec, c.room, c.userId, data, now)
    case None => s
    case Some(packet) =>
      var srv, p := s.servers[i], |s.posts|;
      SetServer(s, i, srv.(broadcast := srv.broadcast + [p], routed := srv.routed + [p]))
      .(posts := s.posts + [Post(c, packet)])
  }

  function Receive(srv: Server, ks: set<nat>, p: nat): Server {
    srv.(subs := seq(|srv.subs|, k requires 0 <= k < |srv.subs| =>
                   if k in ks then srv.subs[k].(inbox := srv.subs[k].inbox + [p]) else srv.subs[k]))
  }

  function PublishNext(s: System, i: nat, receivers: seq<set<nat>>): System
    requires i < |s.servers| && s.servers[i].loop.Publishing? && |receivers| == |s.servers|
  {
    var p := s.servers[i].loop.post;
    var done := SetServer(s, i, s.servers[i].(loop := Selecting, published := s.servers[i].published + [p]));
    done.(servers := seq(|s.servers|, j requires 0 <= j < |s.servers| => Receive(done.servers[j], receivers[j], p)))
  }

  function SystemNext(codec: Codec, s: System, a: SystemAction): System
    requires SystemEnabled(s, a)
  {
    match a
    case Local(i, la) => SetServer(s, i, LocalNext(i, s.servers[i], la))
    case Say(i, c, data, now) => SayNext(codec, s, i, c, data, now)
    case Publish(i, receivers) => PublishNext(s, i, receivers)
  }

  predicate Run(codec: Codec, s: System, acts: seq<SystemAction>, t: System)
    decreases |acts|
  {
    if acts == [] then s == t
    else SystemEnabled(s, acts[0]) && Run(codec, SystemNext(codec, s, acts[0]), acts[1..], t)
  }

  ghost predicate Reachable(codec: Codec, s: System) {
    exists n: nat, acts :: Run(codec, InitSystem(n), acts, s)
  }
}

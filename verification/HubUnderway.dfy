/** What is underway to a client, whichever of its room's subscriptions brings it: a published post can come to be tried
    on the client from now on if and only if it is found in one of a few places now. */
module HubUnderway {
  import opened Wire
  import Registry
  import opened Fanout
  import opened FanoutSafety
  import FanoutSnapshots
  import FanoutDelivery
  import FanoutProgress
  import opened FanoutHeld
  import opened Hub
  import HubSafety
  import HubSystem
  import HubOrder
  import opened HubOnce
  import opened HubProgress

  // ---- what is underway on a server ----

  /** Subscription k of the room hears and has the post in its inbox. */
  predicate InInbox(srv: Server, k: nat, room: string, p: nat) {
    Hearing(srv, k, room) && p in srv.subs[k].inbox
  }

  predicate IsPost(payload: Payload, p: nat) {
    payload.Forwarded? && payload.post == p
  }

  /** The call in the slot is to broadcast the post to the room and has not looked for the room. */
  predicate IsCalled(f: Fanout, slot: nat, room: string, p: nat) {
    slot < |f.callers| && f.callers[slot].Called? && f.callers[slot].room == room && IsPost(f.callers[slot].payload, p)
  }

  /** The post is on its way to whoever is in the room by then. */
  ghost predicate Waits(srv: Server, room: string, p: nat) {
    (exists k: nat :: InInbox(srv, k, room, p)) || (exists slot: nat :: IsCalled(srv.fan, slot, room, p))
  }

  predicate HoldsFor(f: Fanout, h: Holder, c: Client, p: nat) {
    Has(f, h, c) && PayloadOf(f, h).Some? && IsPost(PayloadOf(f, h).value, p)
  }

  /** A broadcaster, a queued job or a worker has the post for c and has not tried c. */
  ghost predicate HeldFor(f: Fanout, c: Client, p: nat) {
    exists h :: HoldsFor(f, h, c, p)
  }

  /** The post may yet get to c: someone has it for c, or it waits for the room and c is there or may join. */
  ghost predicate Coming(j: nat, srv: Server, c: Client, p: nat) {
    HeldFor(srv.fan, c, p) || (NotLeft(j, srv, c) && Waits(srv, c.room, p))
  }

  predicate OwesPost(f: Fanout, id: nat, p: nat) {
    id < |f.log| && IsPost(f.log[id].payload, p)
  }

  lemma HeldIsOwed(rooms: map<string, set<Client>>, f: Fanout, c: Client, p: nat)
    requires FanoutDelivery.Inv(rooms, f)
    ensures HeldFor(f, c, p) <==> exists id: nat :: Owes(f, id, c) && OwesPost(f, id, p)
  {
    if h :| HoldsFor(f, h, c, p) {
      HasIffOwes(rooms, f, h, c);
      assert Owes(f, IdOf(f, h).value, c) && OwesPost(f, IdOf(f, h).value, p);
    }
    if id: nat :| Owes(f, id, c) && OwesPost(f, id, p) {
      var h :| IdOf(f, h) == Some(id);
      HasIffOwes(rooms, f, h, c);
      assert HoldsFor(f, h, c, p);
    }
  }

  // ---- nothing new gets underway: one server ----

  /** A fan-out step lets nothing come that was not coming. */
  lemma FanBringsNothing(j: nat, srv: Server, a: Action, c: Client, p: nat)
    requires HubSafety.ServerOk(j, srv) && LocalEnabled(j, srv, FanStep(a))
    requires Coming(j, srv.(fan := Next(srv.reg.rooms, srv.fan, a)), c, p)
    ensures Coming(j, srv, c, p)
  {
    var rooms, f, f' := srv.reg.rooms, srv.fan, Next(srv.reg.rooms, srv.fan, a);
    FanoutDelivery.StepKeeps(rooms, f, a);
    HeldIsOwed(rooms, f, c, p);
    HeldIsOwed(rooms, f', c, p);
    if id: nat :| Owes(f', id, c) && OwesPost(f', id, p) {
      OwesShrinks(rooms, f, a, id, c);
      if id == |f.log| {
        LockedWasCalled(j, srv, a, c, p);
      } else {
        assert OwesPost(f, id, p);
      }
    } else {
      HubOrder.CalledStay(rooms, f, a);
      if slot: nat :| IsCalled(f', slot, c.room, p) {
        assert IsCalled(f, slot, c.room, p);
      } else {
        var k: nat :| InInbox(srv.(fan := f'), k, c.room, p);
        assert InInbox(srv, k, c.room, p);
      }
    }
  }

  lemma LockedWasCalled(j: nat, srv: Server, a: Action, c: Client, p: nat)
    requires HubSafety.RegistryOk(j, srv) && Enabled(srv.reg.rooms, srv.fan, a) && a.Lock?
    requires var f' := Next(srv.reg.rooms, srv.fan, a);
             c in f'.log[|srv.fan.log|].members && IsPost(f'.log[|srv.fan.log|].payload, p)
    ensures NotLeft(j, srv, c) && Waits(srv, c.room, p)
  {
    assert RoomOf(c) == srv.fan.callers[a.i].room && c in srv.reading && c in srv.seen;
    assert IsCalled(srv.fan, a.i, c.room, p);
  }

  /** The steps outside fan-out touch no handoff. */
  lemma OutsideHoldsSame(j: nat, srv: Server, a: LocalAction, c: Client, p: nat)
    requires HubSafety.ServerOk(j, srv) && LocalEnabled(j, srv, a) && !a.FanStep?
    ensures HeldFor(LocalNext(j, srv, a).fan, c, p) <==> HeldFor(srv.fan, c, p)
  {
    var srv' := LocalNext(j, srv, a);
    HubSafety.LocalKeeps(j, srv, a);
    HeldIsOwed(srv.reg.rooms, srv.fan, c, p);
    HeldIsOwed(srv'.reg.rooms, srv'.fan, c, p);
    SameLog(j, srv, a);
    assert forall id: nat :: Owes(srv'.fan, id, c) <==> Owes(srv.fan, id, c);
    assert forall id: nat :: OwesPost(srv'.fan, id, p) <==> OwesPost(srv.fan, id, p);
  }

  lemma SameLog(j: nat, srv: Server, a: LocalAction)
    requires LocalEnabled(j, srv, a) && !a.FanStep?
    ensures LocalNext(j, srv, a).fan.log == srv.fan.log && LocalNext(j, srv, a).fan.attempts == srv.fan.attempts
  {
  }

  /** A hearing subscription has in its inbox only what it had in it while it heard. */
  lemma InboxShrinks(j: nat, srv: Server, a: LocalAction, k: nat, room: string, p: nat)
    requires Tidy(srv) && |srv.subs| == |srv.reg.contexts| && LocalEnabled(j, srv, a)
    requires InInbox(LocalNext(j, srv, a), k, room, p)
    ensures InInbox(srv, k, room, p)
  {
    match a {
      case Connect(c) => HubSafety.ContextsKeepRooms(srv.reg, Registry.Joined(c));
      case Disconnect(c) => HubSafety.ContextsKeepRooms(srv.reg, Registry.Left(c));
      case _ =>
    }
  }

  /** A call that is made takes its post from an inbox of the room. */
  lemma CallWasInbox(j: nat, srv: Server, a: LocalAction, slot: nat, room: string, p: nat)
    requires LocalEnabled(j, srv, a) && !a.FanStep? && IsCalled(LocalNext(j, srv, a).fan, slot, room, p)
    ensures Waits(srv, room, p)
  {
    if a.SubForwards? && slot == a.slot {
      assert InInbox(srv, a.k, room, p);
    } else {
      assert IsCalled(srv.fan, slot, room, p);
    }
  }

  lemma OutsideBringsNothing(j: nat, srv: Server, a: LocalAction, c: Client, p: nat)
    requires HubSafety.ServerOk(j, srv) && Tidy(srv) && LocalEnabled(j, srv, a) && !a.FanStep?
    requires Coming(j, LocalNext(j, srv, a), c, p)
    ensures Coming(j, srv, c, p)
  {
    var srv' := LocalNext(j, srv, a);
    OutsideHoldsSame(j, srv, a, c, p);
    if !HeldFor(srv.fan, c, p) {
      if k: nat :| InInbox(srv', k, c.room, p) {
        InboxShrinks(j, srv, a, k, c.room, p);
      } else {
        var slot: nat :| IsCalled(srv'.fan, slot, c.room, p);
        CallWasInbox(j, srv, a, slot, c.room, p);
      }
      NotLeftBefore(j, srv, a, c);
    }
  }

  lemma NotLeftBefore(j: nat, srv: Server, a: LocalAction, c: Client)
    requires LocalEnabled(j, srv, a) && NotLeft(j, LocalNext(j, srv, a), c)
    ensures NotLeft(j, srv, c)
  {
  }

  // ---- nothing new gets underway: the system ----

  /** Posts and publications take nothing away, and put only the post being published into inboxes. */
  lemma RemoteBringsNothing(codec: Codec, s: System, a: SystemAction, j: nat, c: Client, p: nat)
    requires SystemEnabled(s, a) && !a.Local? && j < |s.servers|
    requires a.Publish? ==> p != s.servers[a.i].loop.post
    requires j < |SystemNext(codec, s, a).servers| && Coming(j, SystemNext(codec, s, a).servers[j], c, p)
    ensures Coming(j, s.servers[j], c, p)
  {
    var srv' := SystemNext(codec, s, a).servers[j];
    RemoteFrame(codec, s, a, j);
    if !HeldFor(srv'.fan, c, p) {
      if k: nat :| InInbox(srv', k, c.room, p) {
        RemoteInbox(codec, s, a, j, k, c.room, p);
      }
    }
  }

  lemma RemoteInbox(codec: Codec, s: System, a: SystemAction, j: nat, k: nat, room: string, p: nat)
    requires SystemEnabled(s, a) && !a.Local? && j < |s.servers|
    requires a.Publish? ==> p != s.servers[a.i].loop.post
    requires j < |SystemNext(codec, s, a).servers| && InInbox(SystemNext(codec, s, a).servers[j], k, room, p)
    ensures InInbox(s.servers[j], k, room, p)
  {
    RemoteFrame(codec, s, a, j);
    if a.Publish? {
      HubSystem.PublishHeard(s, a.i, a.receivers, j, k);
    }
  }

  lemma RemoteFrame(codec: Codec, s: System, a: SystemAction, j: nat)
    requires SystemEnabled(s, a) && !a.Local? && j < |s.servers|
    ensures |SystemNext(codec, s, a).servers| == |s.servers|
    ensures var srv, srv' := s.servers[j], SystemNext(codec, s, a).servers[j];
            && srv'.fan == srv.fan && srv'.reg == srv.reg && |srv'.subs| == |srv.subs|
            && srv'.reading == srv.reading && srv'.seen == srv.seen
            && (forall k | 0 <= k < |srv.subs| :: srv'.subs[k].phase == srv.subs[k].phase)
            && (a.Say? ==> srv'.subs == srv.subs)
  {
  }

  lemma StepBringsNothing(codec: Codec, s: System, a: SystemAction, j: nat, c: Client, p: nat)
    requires HubSystem.Inv(codec, s) && AllTidy(s) && SystemEnabled(s, a) && j < |s.servers|
    requires HubSystem.PublishedPost(s, p) && Coming(j, SystemNext(codec, s, a).servers[j], c, p)
    ensures Coming(j, s.servers[j], c, p)
  {
    if a.Local? {
      if a.i == j {
        assert HubSafety.ServerOk(j, s.servers[j]);
        if a.a.FanStep? {
          FanBringsNothing(j, s.servers[j], a.a.a, c, p);
        } else {
          OutsideBringsNothing(j, s.servers[j], a.a, c, p);
        }
      }
    } else {
      if a.Publish? {
        HubSystem.PublishesOnce(codec, s, a.i);
      }
      RemoteBringsNothing(codec, s, a, j, c, p);
    }
  }

  // ---- who is tried was owed it ----

  lemma FanAttempts(rooms: map<string, set<Client>>, f: Fanout, a: Action)
    requires FanoutSnapshots.Content(rooms, f) && Enabled(rooms, f, a)
    ensures f.attempts <= Next(rooms, f, a).attempts
            && (|Next(rooms, f, a).attempts| == |f.attempts|
                || (a.WorkerSends? && |Next(rooms, f, a).attempts| == |f.attempts| + 1))
  {
    if a.WorkerSends? {
      FanoutDelivery.SendTriesNext(rooms, f, a.w);
    } else {
      FanoutDelivery.AttemptsStay(rooms, f, a);
    }
  }

  lemma StepAttempts(codec: Codec, s: System, a: SystemAction, j: nat)
    requires HubSystem.Inv(codec, s) && SystemEnabled(s, a) && j < |s.servers|
    ensures |SystemNext(codec, s, a).servers| == |s.servers|
    ensures var xs, ys := s.servers[j].fan.attempts, SystemNext(codec, s, a).servers[j].fan.attempts;
            xs <= ys && (xs == ys || (a == Local(j, a.a) && a.a.FanStep? && a.a.a.WorkerSends? && |ys| == |xs| + 1))
  {
    if a.Local? {
      if a.i == j {
        if a.a.FanStep? {
          assert HubSafety.ServerOk(j, s.servers[j]);
          FanAttempts(s.servers[j].reg.rooms, s.servers[j].fan, a.a.a);
        } else {
          SameLog(j, s.servers[j], a.a);
        }
      }
    } else {
      RemoteFrame(codec, s, a, j);
    }
  }

  lemma {:induction false} RunAttempts(codec: Codec, s: System, acts: seq<SystemAction>, t: System, j: nat)
    requires HubSystem.Inv(codec, s) && Run(codec, s, acts, t) && j < |s.servers|
    ensures |t.servers| == |s.servers| && s.servers[j].fan.attempts <= t.servers[j].fan.attempts
    decreases |acts|
  {
    if acts != [] {
      StepAttempts(codec, s, acts[0], j);
      HubSystem.StepKeeps(codec, s, acts[0]);
      RunAttempts(codec, SystemNext(codec, s, acts[0]), acts[1..], t, j);
    }
  }

  /** The client a worker tries was owed the try. */
  lemma SentWasHeld(rooms: map<string, set<Client>>, f: Fanout, w: nat, c: Client, p: nat)
    requires FanoutDelivery.Inv(rooms, f) && Enabled(rooms, f, WorkerSends(w))
    requires var x := Next(rooms, f, WorkerSends(w)).attempts[|f.attempts|..];
             |x| == 1 && x[0].client == c && IsPost(x[0].payload, p)
    ensures HeldFor(f, c, p)
  {
    FanoutDelivery.SendTriesNext(rooms, f, w);
    var job, n := f.workers[w].job, f.workers[w].next;
    assert FanoutSnapshots.WorkerOk(f.heap, f.log, f.workers[w]);
    var cells := f.heap[job.slice.addr][n..job.slice.len];
    assert cells[0] == Ref(c) && Ref(c) in cells;
    assert YetToTry(f, w, c);
    assert HoldsFor(f, ByWorker(w), c, p);
  }

  /** c is tried with the post on the way from s to t. */
  predicate TriedAt(s: System, t: System, j: nat, b: nat, c: Client, p: nat) {
    && j < |s.servers| && j < |t.servers| && |s.servers[j].fan.attempts| <= b < |t.servers[j].fan.attempts|
    && t.servers[j].fan.attempts[b].client == c && IsPost(t.servers[j].fan.attempts[b].payload, p)
  }

  lemma TriedByStep(codec: Codec, s: System, a: SystemAction, j: nat, b: nat, c: Client, p: nat)
    requires HubSystem.Inv(codec, s) && SystemEnabled(s, a) && TriedAt(s, SystemNext(codec, s, a), j, b, c, p)
    ensures HeldFor(s.servers[j].fan, c, p)
  {
    StepAttempts(codec, s, a, j);
    assert HubSafety.ServerOk(j, s.servers[j]);
    var xs, ys := s.servers[j].fan.attempts, SystemNext(codec, s, a).servers[j].fan.attempts;
    assert ys[|xs|..] == [ys[b]];
    SentWasHeld(s.servers[j].reg.rooms, s.servers[j].fan, a.a.a.w, c, p);
  }

  lemma {:induction false} TriedWasComing(codec: Codec, s: System, acts: seq<SystemAction>, t: System, j: nat, b: nat,
                                          c: Client, p: nat)
    requires HubSystem.Inv(codec, s) && AllTidy(s) && Run(codec, s, acts, t) && HubSystem.PublishedPost(s, p)
    requires TriedAt(s, t, j, b, c, p)
    ensures Coming(j, s.servers[j], c, p)
    decreases |acts|
  {
    if acts != [] {
      var s' := SystemNext(codec, s, acts[0]);
      StepAttempts(codec, s, acts[0], j);
      HubSystem.StepKeeps(codec, s, acts[0]);
      if b < |s'.servers[j].fan.attempts| {
        RunAttempts(codec, s', acts[1..], t, j);
        assert s'.servers[j].fan.attempts[b] == t.servers[j].fan.attempts[b];
        TriedByStep(codec, s, acts[0], j, b, c, p);
      } else {
        StepKeepsTidy(codec, s, acts[0]);
        StaysPublished(codec, s, acts[0], p);
        TriedWasComing(codec, s', acts[1..], t, j, b, c, p);
        StepBringsNothing(codec, s, acts[0], j, c, p);
      }
    }
  }

  // ---- what is underway can arrive ----

  /** The subscription hears, and the newest message in its inbox is q. */
  predicate WaitsLast(srv: Server, k: nat, room: string, q: nat) {
    Hearing(srv, k, room) && srv.subs[k].inbox != [] && srv.subs[k].inbox[|srv.subs[k].inbox| - 1] == q
  }

  /** Every newest message other than p is still in its inbox. */
  ghost predicate KeepsLast(srv: Server, srv': Server, p: nat) {
    forall k: nat, room, q: nat | WaitsLast(srv, k, room, q) && q != p :: WaitsLast(srv', k, room, q)
  }

  /** What waits last keeps waiting. */
  lemma LastKept(srv: Server, srv': Server, p: nat)
    requires |srv.subs| <= |srv'.subs| && |srv.reg.contexts| <= |srv'.reg.contexts|
    requires forall k | 0 <= k < |srv.reg.contexts| :: srv'.reg.contexts[k].room == srv.reg.contexts[k].room
    requires forall k | 0 <= k < |srv.subs| && Hears(srv.subs[k]) ::
               Hears(srv'.subs[k]) && srv'.subs[k].inbox == srv.subs[k].inbox
    ensures KeepsLast(srv, srv', p)
  {
  }

  predicate Hears(sub: Sub) {
    sub.phase.Listening? || sub.phase.Forwarding?
  }

  /** Taking messages up to p, p included or not, leaves the newest one waiting unless it is p. */
  lemma LastKeptBy(srv: Server, srv': Server, k: nat, n: nat, x: nat, p: nat)
    requires OnlySub(srv, srv', k, n) && srv'.reg == srv.reg && Hears(srv'.subs[k])
    requires n <= x + 1 && x < |srv.subs[k].inbox| && srv.subs[k].inbox[x] == p
    ensures KeepsLast(srv, srv', p)
  {
  }

  lemma KeptOn(s1: Server, s2: Server, s3: Server, p: nat)
    requires KeepsLast(s1, s2, p) && KeepsLast(s2, s3, p)
    ensures KeepsLast(s1, s3, p)
  {
  }

  /** The server comes to rest with the subscription listening and c in the room. */
  lemma PoiseFor(codec: Codec, s0: System, s: System, j: nat, k: nat, c: Client, p: nat) returns (t: System)
    requires Reachable(codec, s0) && LeadsTo(codec, s0, s) && j < |s.servers|
    requires InInbox(s.servers[j], k, c.room, p) && NotLeft(j, s.servers[j], c)
    ensures LeadsTo(codec, s0, t) && |t.servers| == |s.servers| && t.posts == s.posts
    ensures Poised(t.servers[j], 0, k, c) && t.servers[j].reg.contexts[k].room == c.room
            && p in t.servers[j].subs[k].inbox
    ensures s.servers[j].fan.attempts <= t.servers[j].fan.attempts && KeepsLast(s.servers[j], t.servers[j], p)
  {
    HasWorkers(codec, s0, s, j);
    var s1 := ComeToRest(codec, s0, s, j, 0);
    var s2 := Return(codec, s0, s1, j, 0, k);
    t := Join(codec, s0, s2, j, c);
    assert forall l | 0 <= l < |s2.servers[j].subs| :: t.servers[j].subs[l] == s2.servers[j].subs[l];
    LastKept(s.servers[j], t.servers[j], p);
  }

  lemma InRoomHasNotLeft(codec: Codec, s0: System, s: System, j: nat, c: Client)
    requires Reachable(codec, s0) && LeadsTo(codec, s0, s) && j < |s.servers|
    requires c.room in s.servers[j].reg.rooms && c in s.servers[j].reg.rooms[c.room]
    ensures NotLeft(j, s.servers[j], c) && c in s.servers[j].reading
  {
    FanIsSound(codec, s0, s, j);
    assert RoomOf(c) == c.room;
  }

  /** A subscription takes the post out of its inbox and calls. */
  lemma Call(codec: Codec, s0: System, s: System, j: nat, k: nat, c: Client, p: nat)
    returns (t: System, slot: nat)
    requires Reachable(codec, s0) && LeadsTo(codec, s0, s) && j < |s.servers|
    requires InInbox(s.servers[j], k, c.room, p) && NotLeft(j, s.servers[j], c)
    ensures LeadsTo(codec, s0, t) && |t.servers| == |s.servers| && t.posts == s.posts
    ensures IsCalled(t.servers[j].fan, slot, c.room, p) && NotLeft(j, t.servers[j], c)
    ensures s.servers[j].fan.attempts <= t.servers[j].fan.attempts && KeepsLast(s.servers[j], t.servers[j], p)
  {
    var s1 := PoiseFor(codec, s0, s, j, k, c, p);
    InRoomHasNotLeft(codec, s0, s1, j, c);
    t, slot := CallFrom(codec, s0, s1, j, k, c, p);
    KeptOn(s.servers[j], s1.servers[j], t.servers[j], p);
    InRoomHasNotLeft(codec, s0, t, j, c);
  }

  lemma CallFrom(codec: Codec, s0: System, s: System, j: nat, k: nat, c: Client, p: nat)
    returns (t: System, slot: nat)
    requires Reachable(codec, s0) && LeadsTo(codec, s0, s) && j < |s.servers|
    requires Poised(s.servers[j], 0, k, c) && s.servers[j].reg.contexts[k].room == c.room
             && p in s.servers[j].subs[k].inbox
    ensures LeadsTo(codec, s0, t) && |t.servers| == |s.servers| && t.posts == s.posts
    ensures IsCalled(t.servers[j].fan, slot, c.room, p) && t.servers[j].reg == s.servers[j].reg
    ensures s.servers[j].fan.attempts <= t.servers[j].fan.attempts && KeepsLast(s.servers[j], t.servers[j], p)
  {
    var s1, n := ForwardUpTo(codec, s0, s, j, 0, k, c, p);
    LastKeptBy(s.servers[j], s1.servers[j], k, n, n, p);
    t := TakesNext(codec, s0, s1, j, 0, k, c);
    slot := |s1.servers[j].fan.callers|;
    LastKeptBy(s1.servers[j], t.servers[j], k, 1, 0, p);
    KeptOn(s.servers[j], s1.servers[j], t.servers[j], p);
  }

  // ---- from a call to a handoff that owes c ----

  /** The others let go of the read lock; the calls that have not taken it stay as they are. */
  lemma {:induction false} LetGo(rooms: map<string, set<Client>>, f: Fanout, n: nat) returns (g: Fanout)
    requires FanoutDelivery.Inv(rooms, f) && n <= |f.callers|
    ensures FanoutDelivery.Inv(rooms, g) && FanoutProgress.Leads(rooms, f, g) && |g.callers| == |f.callers|
    ensures forall i | 0 <= i < n :: !HoldsReadLock(g.callers[i])
    ensures forall i | 0 <= i < |f.callers| && (n <= i || f.callers[i].Called?) :: g.callers[i] == f.callers[i]
    decreases n
  {
    if n == 0 {
      g := f;
      FanoutProgress.LeadsSelf(rooms, f);
    } else {
      var f1 := LetGo(rooms, f, n - 1);
      g := LetOneGo(rooms, f1, n - 1);
      FanoutProgress.LeadsOn(rooms, f, f1, g);
    }
  }

  lemma LetOneGo(rooms: map<string, set<Client>>, f: Fanout, n: nat) returns (g: Fanout)
    requires FanoutDelivery.Inv(rooms, f) && n < |f.callers|
    ensures FanoutDelivery.Inv(rooms, g) && FanoutProgress.Leads(rooms, f, g) && |g.callers| == |f.callers|
    ensures !HoldsReadLock(g.callers[n]) && (f.callers[n].Called? ==> g.callers[n] == f.callers[n])
    ensures forall i | 0 <= i < |f.callers| && i != n :: g.callers[i] == f.callers[i]
  {
    if HoldsReadLock(f.callers[n]) {
      g := FanoutProgress.ReachUnlocked(rooms, f, n);
    } else {
      g := f;
      FanoutProgress.LeadsSelf(rooms, f);
    }
  }

  /** Nobody holds the read lock any more. */
  lemma LetGoIn(codec: Codec, s0: System, s: System, j: nat) returns (t: System)
    requires Reachable(codec, s0) && LeadsTo(codec, s0, s) && j < |s.servers|
    ensures LeadsTo(codec, s0, t) && |t.servers| == |s.servers| && t.posts == s.posts
    ensures t.servers[j] == s.servers[j].(fan := t.servers[j].fan) && Served(s.servers[j], t.servers[j])
    ensures NoReaders(t.servers[j].fan) && |t.servers[j].fan.callers| == |s.servers[j].fan.callers|
    ensures forall i | 0 <= i < |s.servers[j].fan.callers| && s.servers[j].fan.callers[i].Called? ::
              t.servers[j].fan.callers[i] == s.servers[j].fan.callers[i]
  {
    FanIsSound(codec, s0, s, j);
    var g := LetGo(s.servers[j].reg.rooms, s.servers[j].fan, |s.servers[j].fan.callers|);
    t := FanGoesOn(codec, s0, s, j, g);
  }

  /** The call finds c in the room. */
  lemma Snapshot(codec: Codec, s0: System, s: System, j: nat, slot: nat, c: Client, p: nat)
    returns (t: System, id: nat)
    requires Reachable(codec, s0) && LeadsTo(codec, s0, s) && j < |s.servers|
    requires IsCalled(s.servers[j].fan, slot, c.room, p) && NotLeft(j, s.servers[j], c)
    ensures LeadsTo(codec, s0, t) && |t.servers| == |s.servers| && t.posts == s.posts
    ensures Owes(t.servers[j].fan, id, c) && OwesPost(t.servers[j].fan, id, p) && c in t.servers[j].reading
    ensures s.servers[j].fan.attempts <= t.servers[j].fan.attempts && KeepsLast(s.servers[j], t.servers[j], p)
  {
    var s1 := LetGoIn(codec, s0, s, j);
    var s2 := Join(codec, s0, s1, j, c);
    assert forall l | 0 <= l < |s1.servers[j].subs| :: s2.servers[j].subs[l] == s1.servers[j].subs[l];
    LastKept(s.servers[j], s2.servers[j], p);
    t, id := SnapshotNow(codec, s0, s2, j, slot, c, p);
  }

  lemma SnapshotNow(codec: Codec, s0: System, s: System, j: nat, slot: nat, c: Client, p: nat)
    returns (t: System, id: nat)
    requires Reachable(codec, s0) && LeadsTo(codec, s0, s) && j < |s.servers|
    requires IsCalled(s.servers[j].fan, slot, c.room, p)
    requires c.room in s.servers[j].reg.rooms && c in s.servers[j].reg.rooms[c.room]
    ensures LeadsTo(codec, s0, t) && |t.servers| == |s.servers|
            && t == SetServer(s, j, s.servers[j].(fan := t.servers[j].fan))
    ensures Owes(t.servers[j].fan, id, c) && OwesPost(t.servers[j].fan, id, p) && c in t.servers[j].reading
    ensures t.servers[j].fan.attempts == s.servers[j].fan.attempts
  {
    FanIsSound(codec, s0, s, j);
    InRoomHasNotLeft(codec, s0, s, j, c);
    var f := s.servers[j].fan;
    var order := FanoutProgress.Enumeration(s.servers[j].reg.rooms[c.room]);
    LocalGoesOn(codec, s0, s, j, FanStep(Lock(slot, order)));
    t := SetServer(s, j, LocalNext(j, s.servers[j], FanStep(Lock(slot, order))));
    id := |f.log|;
    FanoutDelivery.NeverVisited(f.attempts, id);
  }

  // ---- what can still be tried ----

  /** From s on, c can come to be tried with the post. */
  ghost predicate CanStillBeTried(codec: Codec, s: System, j: nat, c: Client, p: nat) {
    exists t, b: nat :: LeadsTo(codec, s, t) && TriedAt(s, t, j, b, c, p)
  }

  lemma OwedCanBeTried(codec: Codec, s0: System, s: System, j: nat, id: nat, c: Client, p: nat)
    requires Reachable(codec, s0) && LeadsTo(codec, s0, s) && j < |s.servers| && j < |s0.servers|
    requires s0.servers[j].fan.attempts <= s.servers[j].fan.attempts
    requires Owes(s.servers[j].fan, id, c) && OwesPost(s.servers[j].fan, id, p)
    ensures CanStillBeTried(codec, s0, j, c, p)
  {
    FanIsSound(codec, s0, s, j);
    var rooms, f := s.servers[j].reg.rooms, s.servers[j].fan;
    var g, u, v := Park(rooms, f, id, c);
    var g', b := Release(rooms, g, v, id, c);
    FanoutProgress.LeadsOn(rooms, f, g, g');
    var t := FanGoesOn(codec, s0, s, j, g');
    assert TriedAt(s0, t, j, b, c, p);
  }

  lemma CalledCanBeTried(codec: Codec, s0: System, s: System, j: nat, slot: nat, c: Client, p: nat)
    requires Reachable(codec, s0) && LeadsTo(codec, s0, s) && j < |s.servers| && j < |s0.servers|
    requires s0.servers[j].fan.attempts <= s.servers[j].fan.attempts
    requires IsCalled(s.servers[j].fan, slot, c.room, p) && NotLeft(j, s.servers[j], c)
    ensures CanStillBeTried(codec, s0, j, c, p)
  {
    var t, id := Snapshot(codec, s0, s, j, slot, c, p);
    OwedCanBeTried(codec, s0, t, j, id, c, p);
  }

  lemma ComingCanBeTried(codec: Codec, s: System, j: nat, c: Client, p: nat)
    requires Reachable(codec, s) && j < |s.servers| && Coming(j, s.servers[j], c, p)
    ensures CanStillBeTried(codec, s, j, c, p)
  {
    assert Run(codec, s, [], s);
    FanIsSound(codec, s, s, j);
    HeldIsOwed(s.servers[j].reg.rooms, s.servers[j].fan, c, p);
    if HeldFor(s.servers[j].fan, c, p) {
      var id: nat :| Owes(s.servers[j].fan, id, c) && OwesPost(s.servers[j].fan, id, p);
      OwedCanBeTried(codec, s, s, j, id, c, p);
    } else if slot: nat :| IsCalled(s.servers[j].fan, slot, c.room, p) {
      CalledCanBeTried(codec, s, s, j, slot, c, p);
    } else {
      var k: nat :| InInbox(s.servers[j], k, c.room, p);
      var t, slot := Call(codec, s, s, j, k, c, p);
      CalledCanBeTried(codec, s, t, j, slot, c, p);
    }
  }

  /** For every reachable state, server and published post: a client can still come to be tried with the post if and
      only if a broadcaster, a queued job or a worker now has it for the client, or the client has not left and a
      subscription of its room that hears has the post in its inbox or is calling with it. */
  lemma StillTriedIff(codec: Codec, s: System, j: nat, c: Client, p: nat)
    requires Reachable(codec, s) && j < |s.servers| && HubSystem.PublishedPost(s, p)
    ensures CanStillBeTried(codec, s, j, c, p) <==> Coming(j, s.servers[j], c, p)
  {
    if t, b: nat :| LeadsTo(codec, s, t) && TriedAt(s, t, j, b, c, p) {
      var acts :| Run(codec, s, acts, t);
      HubSystem.ReachableInv(codec, s);
      forall i | 0 <= i < |s.servers| ensures Tidy(s.servers[i]) {
        ReachableTidy(codec, s, i);
      }
      TriedWasComing(codec, s, acts, t, j, b, c, p);
    }
    if Coming(j, s.servers[j], c, p) {
      ComingCanBeTried(codec, s, j, c, p);
    }
  }
}

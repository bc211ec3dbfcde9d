/** The manager, its clients and the local fan-out as the program runs them on one goroutine at a time: maps updated in
    place, a recycled slice filled from the range over a room, a worker's loop over a job. */
module Manager {
  import opened Wire
  import opened Seqs
  import Registry
  import Fanout

  /** A websocket client: its Send channel, its done channel and the once that guards closing it. */
  class Conn {
    const userId: nat
    const roomId: string
    var send: seq<string>
    var once: bool
    var doneCloses: nat  // times close(done) ran; a second time would panic

    constructor (userId: nat, roomId: string)
      ensures this.userId == userId && this.roomId == roomId
      ensures send == [] && !once && doneCloses == 0
    {
      this.userId, this.roomId := userId, roomId;
      send, once, doneCloses := [], false, 0;
    }

    /** done is closed on the first call only. */
    ghost predicate Sound()
      reads this`once, this`doneCloses
    {
      doneCloses == if once then 1 else 0
    }

    method Close()
      requires Sound()
      modifies this`once, this`doneCloses
      ensures Sound() && once
    {
      if !once {
        once := true;
        doneCloses := doneCloses + 1;
      }
    }

    /** safeSend: one non-blocking attempt. */
    method SafeSend(payload: string)
      modifies this`send
      ensures send == Offered(old(send), payload)
    {
      if |send| < Fanout.SEND_CHAN_SIZE {
        send := send + [payload];
      }
    }
  }

  /** A bounded Send channel after one non-blocking attempt. */
  function Offered(send: seq<string>, payload: string): (send': seq<string>)
    ensures |send| <= Fanout.SEND_CHAN_SIZE ==> |send'| <= Fanout.SEND_CHAN_SIZE
    ensures send' == send || (send' == send + [payload] && |send| < Fanout.SEND_CHAN_SIZE)
    ensures |send'| == |send| + if |send| < Fanout.SEND_CHAN_SIZE then 1 else 0
  {
    if |send| < Fanout.SEND_CHAN_SIZE then send + [payload] else send
  }

  function RoomOf(c: Conn): string {
    c.roomId
  }

  /** A Go slice of clients: a backing array, whose length is the capacity, and a length. */
  datatype Slice = Slice(data: array<Conn?>, len: nat)

  datatype Job = Job(clients: Slice, payload: string)

  /** What Get leaves in the pool: it takes whichever slice the pool offers, if any. */
  function Unpooled(offered: Option<nat>, pool: seq<Slice>): seq<Slice> {
    if offered.Some? && offered.value < |pool| then pool[..offered.value] + pool[offered.value + 1..] else pool
  }

  ghost predicate Fits(s: Slice) {
    s.len <= s.data.Length
  }

  /** The slice lists the members, none of them twice. */
  ghost predicate Lists(s: Slice, members: set<Conn>)
    reads s.data
  {
    Fits(s) && (forall k | 0 <= k < s.len :: s.data[k] != null) && Enumerates(s.data[..s.len], members)
  }

  class Manager {
    var rooms: map<string, set<Conn>>
    var cancelSub: map<string, nat>
    var contexts: seq<Registry.Context>
    ghost var done: seq<Conn>  // clients whose done was closed
    var pool: seq<Slice>
    var jobs: seq<Job>

    constructor ()
      ensures AsRegistry() == Registry.Empty() && pool == [] && jobs == [] && SlicesApart()
    {
      rooms, cancelSub, contexts, done := map[], map[], [], [];
      pool, jobs := [], [];
    }

    ghost function AsRegistry(): Registry.Registry<Conn>
      reads this
    {
      Registry.Registry(rooms, cancelSub, contexts, done)
    }

    /** No backing array is in two places at once. */
    ghost predicate SlicesApart()
      reads this
    {
      && (forall i | 0 <= i < |pool| :: Fits(pool[i]))
      && (forall i | 0 <= i < |jobs| :: Fits(jobs[i].clients))
      && (forall i, j | 0 <= i < j < |pool| :: pool[i].data != pool[j].data)
      && (forall i, j | 0 <= i < j < |jobs| :: jobs[i].clients.data != jobs[j].clients.data)
      && (forall i, j | 0 <= i < |pool| && 0 <= j < |jobs| :: pool[i].data != jobs[j].clients.data)
    }

    ghost function PoolArrays(): set<array<Conn?>>
      reads this
    {
      set i | 0 <= i < |pool| :: pool[i].data
    }

    // ---- membership ----

    method HandleRegister(c: Conn)
      modifies this`rooms, this`cancelSub, this`contexts
      ensures AsRegistry() == Registry.Register(RoomOf, old(AsRegistry()), c)
      ensures if c.roomId in old(rooms)
              then contexts == old(contexts) && cancelSub == old(cancelSub)
              else contexts == old(contexts) + [Registry.Context(c.roomId, false)]
                   && cancelSub == old(cancelSub)[c.roomId := |old(contexts)|]
    {
      if c.roomId !in rooms {
        rooms := rooms[c.roomId := {}];
        cancelSub := cancelSub[c.roomId := |contexts|];
        contexts := contexts + [Registry.Context(c.roomId, false)];
      }
      rooms := rooms[c.roomId := rooms[c.roomId] + {c}];
      assert {} + {c} == {c};
    }

    method HandleUnregister(c: Conn)
      requires c.Sound() && (c.once <==> c in done)
      modifies this`rooms, this`cancelSub, this`contexts, this`done, c`once, c`doneCloses
      ensures AsRegistry() == Registry.Unregister(RoomOf, old(AsRegistry()), c)
      ensures c.Sound() && (c.once <==> c in done)
    {
      if c.roomId in rooms && c in rooms[c.roomId] {
        rooms := rooms[c.roomId := rooms[c.roomId] - {c}];
        done := Registry.CloseOnce(done, c);
        c.Close();
        if rooms[c.roomId] == {} {
          rooms := rooms - {c.roomId};
          if c.roomId in cancelSub {
            var i := cancelSub[c.roomId];
            if i < |contexts| {
              contexts := contexts[i := contexts[i].(cancelled := true)];
            }
            cancelSub := cancelSub - {c.roomId};
          }
        }
      }
    }

    // ---- fan-out ----

    /** Go's append, in place while there is room. */
    method Append(s: Slice, c: Conn) returns (t: Slice)
      requires Fits(s)
      modifies s.data
      ensures Fits(t) && t.data[..t.len] == old(s.data[..s.len]) + [c]
      ensures if s.len < s.data.Length then t.data == s.data else fresh(t.data)
    {
      var data := s.data;
      if s.len == data.Length {
        data := new Conn?[2 * s.len + 1](_ => null);
        forall k | 0 <= k < s.len {
          data[k] := s.data[k];
        }
      }
      data[s.len] := c;
      t := Slice(data, s.len + 1);
    }

    /** A slice from the pool, emptied but not cleared; a new one when the pool offers none. */
    method GetSlice(offered: Option<nat>) returns (s: Slice)
      requires SlicesApart()
      modifies this`pool
      ensures SlicesApart() && Fits(s) && s.len == 0
      ensures if offered.Some? && offered.value < |old(pool)|
              then s.data == old(pool)[offered.value].data
              else fresh(s.data)
      ensures pool == Unpooled(offered, old(pool))
      ensures forall i | 0 <= i < |pool| :: pool[i].data != s.data
      ensures forall i | 0 <= i < |jobs| :: jobs[i].clients.data != s.data
    {
      if offered.Some? && offered.value < |pool| {
        s := Slice(pool[offered.value].data, 0);
        pool := pool[..offered.value] + pool[offered.value + 1..];
      } else {
        var data := new Conn?[Fanout.INIT_CLIENT_POOL_CAP](_ => null);
        s := Slice(data, 0);
      }
    }

    /** The range loop: afterwards the slice lists exactly the members, whatever the array held. */
    method Fill(s: Slice, members: set<Conn>) returns (t: Slice)
      requires Fits(s) && s.len == 0
      modifies s.data
      ensures Lists(t, members)
      ensures t.data == s.data || fresh(t.data)
    {
      t := s;
      var todo := members;
      while todo != {}
        invariant todo <= members
        invariant Lists(t, members - todo)
        invariant t.data == s.data || fresh(t.data)
        decreases todo
      {
        var c :| c in todo;
        EnumeratesSnoc(t.data[..t.len], members - todo, c);
        assert members - todo + {c} == members - (todo - {c});
        t := Append(t, c);
        todo := todo - {c};
      }
      assert members - todo == members;
    }

    /** The part under the read lock: a slice of the members, apart from every pooled and every queued one. */
    method CopyRoom(members: set<Conn>, offered: Option<nat>) returns (target: Slice)
      requires SlicesApart()
      modifies this`pool, PoolArrays()
      ensures SlicesApart() && Lists(target, members) && pool == Unpooled(offered, old(pool))
      ensures forall i | 0 <= i < |pool| :: pool[i].data != target.data
      ensures forall i | 0 <= i < |jobs| ::
                jobs[i].clients.data != target.data && jobs[i].clients.data[..] == old(jobs[i].clients.data[..])
    {
      target := GetSlice(offered);
      assert target.data in old(PoolArrays()) || fresh(target.data);
      assert forall i | 0 <= i < |jobs| :: jobs[i].clients.data !in old(PoolArrays());
      target := Fill(target, members);
    }

    /** broadcastToLocalClients: nothing for an unknown room; otherwise a job listing exactly the room's clients is
        queued last, or, with the queue full, nothing is queued and the slice is back in the pool.  Jobs already queued
        are untouched. */
    method BroadcastToLocalClients(roomId: string, payload: string, offered: Option<nat>)
      requires SlicesApart() && |jobs| <= Fanout.BROADCAST_JOB_CHAN_SIZE
      modifies this`pool, this`jobs, PoolArrays()
      ensures SlicesApart() && |jobs| <= Fanout.BROADCAST_JOB_CHAN_SIZE
      ensures forall i | 0 <= i < |old(jobs)| ::
                old(jobs)[i].clients.data[..] == old(jobs[i].clients.data[..])
      ensures roomId !in rooms ==> jobs == old(jobs) && pool == old(pool)
      ensures roomId in rooms && |old(jobs)| < Fanout.BROADCAST_JOB_CHAN_SIZE ==>
                && |jobs| == |old(jobs)| + 1 && jobs[..|old(jobs)|] == old(jobs)
                && jobs[|old(jobs)|].payload == payload && Lists(jobs[|old(jobs)|].clients, rooms[roomId])
                && pool == Unpooled(offered, old(pool))
      ensures roomId in rooms && |old(jobs)| == Fanout.BROADCAST_JOB_CHAN_SIZE ==>
                && jobs == old(jobs)
                && |pool| > 0 && pool[..|pool| - 1] == Unpooled(offered, old(pool))
                  && Lists(pool[|pool| - 1], rooms[roomId])
    {
      if roomId !in rooms {
        return;
      }
      var target := CopyRoom(rooms[roomId], offered);
      if |jobs| < Fanout.BROADCAST_JOB_CHAN_SIZE {
        jobs := jobs + [Job(target, payload)];
      } else {
        pool := pool + [target];
      }
    }

    /** The worker's loop over a job: one send attempt for each listed client. */
    static method SendAll(job: Job, ghost list: seq<Conn>)
      requires Fits(job.clients) && job.clients.data[..job.clients.len] == list && NoDup(list)
      modifies (set c | c in list)`send
      ensures forall c | c in list :: c.send == Offered(old(c.send), job.payload)
    {
      var k := 0;
      while k < job.clients.len
        invariant 0 <= k <= job.clients.len
        invariant forall j | 0 <= j < k :: list[j].send == Offered(old(list[j].send), job.payload)
        invariant forall j | k <= j < |list| :: list[j].send == old(list[j].send)
      {
        assert job.clients.data[k] == list[k];
        job.clients.data[k].SafeSend(job.payload);
        k := k + 1;
      }
    }

    /** One round of broadcastWorker: every listed client gets exactly one send attempt, no one else any, and the
        slice goes back to the pool. */
    method WorkerRound(ghost members: set<Conn>)
      requires SlicesApart() && jobs != [] && Lists(jobs[0].clients, members)
      modifies this`pool, this`jobs, members`send
      ensures SlicesApart() && jobs == old(jobs)[1..] && pool == old(pool) + [old(jobs)[0].clients]
      ensures forall c | c in members :: c.send == Offered(old(c.send), old(jobs)[0].payload)
    {
      var job := jobs[0];
      jobs := jobs[1..];
      ghost var xs := job.clients.data[..job.clients.len];
      ghost var list: seq<Conn> := seq(|xs|, i requires 0 <= i < |xs| => xs[i]);
      assert list == xs;
      SendAll(job, list);
      pool := pool + [job.clients];
    }
  }
}

/** The older relay's loop and shard on real objects. Both channels' blocking sends need room, and
    both find it on every path: the loop never stops, and no push is ever rejected. */
module FirstServer {
  import opened Basics
  import opened Bags
  import opened Token
  import opened IoRing
  import opened IoRingSafety
  import opened RingSizing
  import Relay
  import opened FirstImpl
  import opened Buffers

  /** A sync_channel of packets. Its send waits for room; here it is only called when there is. */
  class PacketChannel {
    const capacity: nat
    var items: seq<Relay.Packet>

    constructor (capacity: nat)
      ensures this.capacity == capacity && items == []
    {
      this.capacity := capacity;
      items := [];
    }

    method Send(p: Relay.Packet)
      requires |items| < capacity
      modifies this
      ensures items == old(items) + [p]
    {
      items := items + [p];
    }

    method Recv() returns (p: Relay.Packet)
      requires items != []
      modifies this
      ensures old(items) == [p] + items
    {
      p := items[0];
      items := items[1..];
    }
  }

  class RequestChannel {
    const capacity: nat
    var items: seq<Relay.SendRequest>

    constructor (capacity: nat)
      ensures this.capacity == capacity && items == []
    {
      this.capacity := capacity;
      items := [];
    }

    method Send(m: Relay.SendRequest)
      requires |items| < capacity
      modifies this
      ensures items == old(items) + [m]
    {
      items := items + [m];
    }

    method TryRecv() returns (m: Option<Relay.SendRequest>)
      modifies this
      ensures m.None? ==> old(items) == [] == items
      ensures m.Some? ==> old(items) == [m.value] + items
    {
      if items == [] { return None; }
      m := Some(items[0]);
      items := items[1..];
    }
  }

  /** The objects of loop and shard together, and the model they mirror. */
  class Server {
    const pool: BufferPool
    const sq: SubmissionQueue
    const channel: PacketChannel
    const back: RequestChannel
    var cq: seq<Cqe>
    var sessionTable: map<Addr, Relay.Session>
    ghost var model: State

    /** `collected` are the completions the loop has taken off the ring but not yet processed. */
    ghost predicate Mirrors(collected: seq<Cqe>)
      reads this, pool, sq, channel, back
    {
      && pool.Valid() && channel.capacity == back.capacity == CHANNEL_SLOTS
      && pool.Value() == model.ring.pool && sq.Value() == model.ring.sq
      && collected + cq == model.ring.cq
      && channel.items == model.channel && back.items == model.back && sessionTable == model.sessions
    }

    ghost predicate Inv(collected: seq<Cqe>)
      reads this, pool, sq, channel, back
    {
      Mirrors(collected) && FirstImpl.Inv(model)
    }

    constructor (sessions: map<Addr, Relay.Session>)
      ensures Inv([]) && model == Start(sessions)
      ensures sq.capacity == 2048 && channel.capacity == 1024 && back.capacity == 1024 && sessionTable == sessions
      ensures fresh(pool) && fresh(sq) && fresh(channel) && fresh(back)
    {
      var p := new BufferPool();
      p.RegisterBufferKernel();
      pool := p;
      sq := new SubmissionQueue(RING_ENTRIES);
      channel := new PacketChannel(CHANNEL_SLOTS);
      back := new RequestChannel(CHANNEL_SLOTS);
      cq, sessionTable := [], sessions;
      model := Start(sessions);
      StartInv(sessions);
    }

    /** One send request, if there is one. */
    method SendNext() returns (more: bool)
      requires Inv([]) && model.phase.Sending? && model.phase.pushed < MAX_SQE_BATCH
      modifies this`model, pool, sq, back
      ensures Inv([]) && (more <==> old(back.items) != [])
      ensures !more ==> model == old(model)
      ensures more ==> Enabled(old(model), Loop) && model == Next(old(model), Loop)
      ensures more ==> |sq.entries| == |old(sq.entries)| + 1 && back.items == old(back.items)[1..]
      ensures more ==> model.phase == Sending(old(model).phase.pushed + 1)
    {
      hide FirstImpl.Inv, Alloc, EncodeToken, Next, Enabled;
      var r := back.TryRecv();
      if r.None? { return false; }
      SendingEnabled(model);
      var m := r.value;
      pool.PostSendSqe(sq, m.len, m.bufIdx, m.dest);
      model := Next(model, Loop);
      more := true;
    }

    /** The receive for one free buffer. */
    method SeedNext()
      requires Inv([]) && model.phase.Seeding? && model.phase.left > 0
      modifies this`model, pool, sq
      ensures Inv([]) && Enabled(old(model), Loop) && model == Next(old(model), Loop)
      ensures model.phase == Seeding(old(model).phase.left - 1)
      ensures |sq.entries| == |old(sq.entries)| + 1 && sq.taken == old(sq.taken)
    {
      hide FirstImpl.Inv, EncodeToken, Next, Enabled;
      SeedingEnabled(model);
      ghost var free := pool.freeList;
      var idx := pool.Acquire();
      if idx.Some? {
        assert idx.value == free[|free| - 1] && pool.freeList == free[..|free| - 1];
        pool.PostRecvSqe(sq, idx.value);
      }
      model := Next(model, Loop);
    }

    /** Start-up: a run of the loop, after which the kernel can see every receive posted. */
    method SeedAll() returns (ghost steps: seq<Step>)
      requires Inv([]) && model.phase == Seeding(POOL_SIZE)
      modifies this`model, pool, sq
      ensures Inv([]) && model.phase == Sending(0) && |sq.entries| == |old(sq.entries)| + 1024 - old(sq.taken)
      ensures sq.published == |sq.entries| && sq.taken == 0
      ensures Valid(old(model), steps) && model == Run(old(model), steps) && forall st | st in steps :: st == Loop
    {
      hide FirstImpl.Inv, Next, Enabled;
      steps := [];
      for k := 0 to POOL_SIZE
        invariant Inv([]) && model.phase == Seeding(POOL_SIZE - k)
        invariant |sq.entries| == |old(sq.entries)| + k && sq.taken == old(sq.taken)
        invariant Valid(old(model), steps) && model == Run(old(model), steps) && forall st | st in steps :: st == Loop
      {
        SeedNext();
        RunAlso(old(model), steps, Loop);
        steps := steps + [Loop];
      }
      SeedingDone(model);
      sq.Sync(0);
      model := Next(model, Loop);
      RunAlso(old(model), steps, Loop);
      steps := steps + [Loop];
    }

    /** At most 32 send requests; every one of them gets into the ring. */
    method SendBatch() returns (pushed: nat, ghost steps: seq<Step>)
      requires Inv([]) && model.phase == Sending(0)
      modifies this`model, pool, sq, back
      ensures Inv([]) && model.phase == Sending(pushed) && BatchDone(model)
      ensures pushed == if |old(back.items)| < 32 then |old(back.items)| else 32
      ensures |sq.entries| == |old(sq.entries)| + pushed && back.items == old(back.items)[pushed..]
      ensures Valid(old(model), steps) && model == Run(old(model), steps) && |steps| == pushed
    {
      hide FirstImpl.Inv, Enabled, Next;
      pushed, steps := 0, [];
      var more := true;
      while pushed < MAX_SQE_BATCH && more
        invariant Inv([]) && model.phase == Sending(pushed) && pushed <= MAX_SQE_BATCH
        invariant pushed <= |old(back.items)| && back.items == old(back.items)[pushed..]
        invariant !more ==> back.items == []
        invariant |sq.entries| == |old(sq.entries)| + pushed
        invariant Valid(old(model), steps) && model == Run(old(model), steps) && |steps| == pushed
        decreases MAX_SQE_BATCH - pushed, more
      {
        more := SendNext();
        if more {
          RunAlso(old(model), steps, Loop);
          pushed, steps := pushed + 1, steps + [Loop];
        }
      }
    }

    /** If something was pushed the loop syncs, so that the kernel can see it; it then takes all
        completions off the ring. */
    method Collect(pushed: nat) returns (completed: seq<Cqe>)
      requires Inv([]) && model.phase == Sending(pushed) && BatchDone(model)
      modifies this`model, this`cq, sq
      ensures Inv(completed) && completed == old(cq) && cq == [] && model.phase == Completing(|completed|)
      ensures Enabled(old(model), Step.Collect(|completed|)) && model == Next(old(model), Step.Collect(|completed|))
      ensures pushed > 0 ==> sq.published == |sq.entries| && sq.entries == old(sq.entries)[old(sq.taken)..]
    {
      hide FirstImpl.Inv, Next, Enabled, BatchDone, PoolOk;
      CollectEnabled(model);
      if pushed > 0 {
        sq.Sync(0);
      } else {
      }
      completed := cq;
      cq := [];
      model := Next(model, Step.Collect(|completed|));
    }

    /** What the loop does with one completion. The router's send never waits. */
    method Dispatch(op: OpType, idx: u16, cqe: Cqe)
      requires pool.Valid() && idx < POOL_SIZE && (op.Recv? ==> |channel.items| < channel.capacity)
      modifies pool, sq, channel
      ensures pool.Valid()
      ensures var reposts := op.SendNotif? || (op.Send? && !cqe.more);
        && pool.Value() == (if reposts then Alloc(old(pool.Value()), idx, UNSPECIFIED) else old(pool.Value()))
        && sq.Value() == (if reposts then IoRing.Push(old(sq.Value()), NewRequest(old(pool.Value()), RecvMsg, idx))
                          else old(sq.Value()))
      ensures channel.items == old(channel.items)
        + if op.Recv? then [Relay.Packet(idx, Length(cqe), PeerAddr(old(pool.Value()), idx))] else []
    {
      hide Alloc, IoRing.Push, NewRequest, PoolOk, Length, PeerAddr;
      match op {
        case Recv =>
          var src := pool.GetPeerAddr(idx);
          channel.Send(Relay.Packet(idx, Length(cqe), src));
        case Send => if !cqe.more { pool.Release(idx, sq); }
        case SendNotif => pool.Release(idx, sq);
      }
    }

    /** One collected completion. */
    method Process(cqe: Cqe, ghost rest: seq<Cqe>)
      requires Inv([cqe] + rest) && model.phase == Completing(|rest| + 1)
      modifies this`model, pool, sq, channel
      ensures Inv(rest) && model.phase == Completing(|rest|)
      ensures Enabled(old(model), Loop) && model == Next(old(model), Loop)
    {
      hide FirstImpl.Inv, Alloc, IoRing.Push, NewRequest, DecodeToken, Next, Enabled, LoopComplete, PoolOk;
      hide Length, PeerAddr;
      ghost var s := model;
      assert s.ring.cq == [cqe] + (rest + cq);
      CompletingEnabled(s);
      var (op, idx) := DecodeToken(cqe.token);
      Dispatch(op, idx, cqe);
      model := Next(model, Loop);
      assert s.ring.cq[1..] == rest + cq;
    }

    /** All collected completions. */
    method ProcessAll(completed: seq<Cqe>) returns (ghost steps: seq<Step>)
      requires Inv(completed) && model.phase == Completing(|completed|)
      modifies this`model, pool, sq, channel
      ensures Inv([]) && model.phase == Sending(0)
      ensures Valid(old(model), steps) && model == Run(old(model), steps) && |steps| == |completed| + 1
    {
      hide FirstImpl.Inv, Enabled, Next;
      steps := [];
      for k := 0 to |completed|
        invariant Inv(completed[k..]) && model.phase == Completing(|completed| - k)
        invariant Valid(old(model), steps) && model == Run(old(model), steps) && |steps| == k
      {
        assert completed[k..] == [completed[k]] + completed[k + 1..];
        Process(completed[k], completed[k + 1..]);
        RunAlso(old(model), steps, Loop);
        steps := steps + [Loop];
      }
      CompletingDone(model);
      model := Next(model, Loop);
      RunAlso(old(model), steps, Loop);
      steps := steps + [Loop];
    }

    /** One turn of the main loop is a run: a batch of sends, a sync if there was any, completions. */
    method Turn() returns (ghost steps: seq<Step>)
      requires Inv([]) && model.phase == Sending(0)
      modifies this`model, this`cq, pool, sq, channel, back
      ensures Inv([]) && model.phase == Sending(0) && cq == []
      ensures back.items == if |old(back.items)| < 32 then [] else old(back.items)[32..]
      ensures Valid(old(model), steps) && model == Run(old(model), steps)
    {
      hide Inv, Next, Enabled;
      var pushed;
      pushed, steps := SendBatch();
      var completed := Collect(pushed);
      RunAlso(old(model), steps, Step.Collect(|completed|));
      steps := steps + [Step.Collect(|completed|)];
      ghost var rest := ProcessAll(completed);
      RunAppend(old(model), steps, rest);
      steps := steps + rest;
    }

    /** The shard's turn: it has a packet. Its send never waits either. */
    method ShardTurn(ghost collected: seq<Cqe>)
      requires Inv(collected) && model.inHand.None? && channel.items != []
      modifies this`model, channel, back
      ensures Inv(collected) && model.inHand.None?
      ensures Enabled(old(model), ShardRecv) && Enabled(Next(old(model), ShardRecv), Step.ShardHandle)
      ensures model == Next(Next(old(model), ShardRecv), Step.ShardHandle)
      ensures var p := old(channel.items)[0];
        && channel.items == old(channel.items)[1..]
        && (p.src in sessionTable && p.src == sessionTable[p.src].host ==>
              back.items == old(back.items) + [Relay.SendRequest(sessionTable[p.src].peer, p.len, p.bufIdx)])
        && (p.src in sessionTable && p.src != sessionTable[p.src].host && p.src == sessionTable[p.src].peer ==>
              back.items == old(back.items) + [Relay.SendRequest(sessionTable[p.src].host, p.len, p.bufIdx)])
        && (p.src !in sessionTable || (p.src != sessionTable[p.src].host && p.src != sessionTable[p.src].peer) ==>
              back.items == old(back.items))
    {
      hide FirstImpl.Inv;
      ghost var s := model;
      ShardEnabled(s);
      var p := channel.Recv();
      model := Next(model, ShardRecv);
      if p.src in sessionTable {
        var dst := sessionTable[p.src].RouteTo(p.src);
        if dst.Some? {
          back.Send(Relay.SendRequest(dst.value, p.len, p.bufIdx));
        }
      }
      model := Next(model, Step.ShardHandle);
    }
  }

  lemma SendingEnabled(s: State)
    requires FirstImpl.Inv(s) && s.phase.Sending? && s.phase.pushed < MAX_SQE_BATCH && s.back != []
    ensures Enabled(s, Loop) && FirstImpl.Inv(Next(s, Loop)) && Next(s, Loop) == LoopSend(s)
    ensures s.back[0].bufIdx < POOL_SIZE && !IsFull(s.ring.sq)
    ensures var m, t := s.back[0], LoopSend(s);
      && t.ring.pool == Alloc(s.ring.pool, m.bufIdx, m.dest) && t.ring.cq == s.ring.cq
      && t.ring.sq == IoRing.Push(s.ring.sq, NewRequest(s.ring.pool, SendMsgZc, m.bufIdx))
      && t.channel == s.channel && t.back == s.back[1..] && t.sessions == s.sessions
      && t.phase == Sending(s.phase.pushed + 1)
  {
    hide FirstImpl.Inv, Alloc, EncodeToken, PostSend;
    StepKeeps(s, Loop);
    PushAccepted(s);
    BackHeld(s);
    PostSendEffect(s.ring, s.back[0].bufIdx, s.back[0].dest);
  }

  lemma BackHeld(s: State)
    requires FirstImpl.Inv(s) && s.back != []
    ensures s.back[0].bufIdx < POOL_SIZE
  {
    hide PointersOk, ContentsOk, SendsOk, Bag;
    BagHead(s.back, Relay.ReturnOwner);
    assert s.back[0].bufIdx in s.ring.held;
    Exclusive(s.ring, multiset{}, s.back[0].bufIdx);
  }

  lemma SeedingEnabled(s: State)
    requires FirstImpl.Inv(s) && s.phase.Seeding? && s.phase.left > 0
    ensures Enabled(s, Loop) && FirstImpl.Inv(Next(s, Loop)) && Next(s, Loop) == LoopSeed(s)
    ensures s.ring.pool.free != [] && s.ring.pool.free[|s.ring.pool.free| - 1] < POOL_SIZE && !IsFull(s.ring.sq)
    ensures LoopSeed(s).ring.cq == s.ring.cq
  {
    hide RingInv, LinkOk, Sized, IoRing.SeedNext;
    StepKeeps(s, Loop);
    PushAccepted(s);
    FreeIndex(s.ring, |s.ring.pool.free| - 1);
    SeedCq(s.ring);
  }

  lemma SeedCq(g: Ring)
    requires g.pool.free != [] && g.pool.free[|g.pool.free| - 1] < INDEX_LIMIT
    ensures IoRing.SeedNext(g).cq == g.cq
  {
  }

  lemma SeedingDone(s: State)
    requires FirstImpl.Inv(s) && s.phase == Seeding(0)
    ensures Enabled(s, Loop) && FirstImpl.Inv(Next(s, Loop)) && s.ring.sq.Ok()
    ensures Next(s, Loop) == s.(ring := Sync(s.ring, 0), phase := Sending(0))
  {
    hide LinkOk, Sized, ContentsOk, PointersOk, SendsOk;
    StepKeeps(s, Loop);
  }

  lemma CollectEnabled(s: State)
    requires FirstImpl.Inv(s) && BatchDone(s)
    ensures s.ring.sq.Ok() && Enabled(s, Step.Collect(|s.ring.cq|)) && FirstImpl.Inv(Next(s, Step.Collect(|s.ring.cq|)))
    ensures Next(s, Step.Collect(|s.ring.cq|)) ==
      s.(ring := if s.phase.pushed > 0 then Sync(s.ring, 0) else s.ring, phase := Completing(|s.ring.cq|))
  {
    hide LinkOk, Sized, ContentsOk, PointersOk, SendsOk;
    StepKeeps(s, Step.Collect(|s.ring.cq|));
  }

  lemma CompletingEnabled(s: State)
    requires FirstImpl.Inv(s) && s.phase.Completing? && s.phase.left > 0
    ensures s.ring.cq != [] && Enabled(s, Loop) && FirstImpl.Inv(Next(s, Loop)) && Next(s, Loop) == LoopComplete(s)
    ensures var c, t := s.ring.cq[0], LoopComplete(s);
      var (op, i) := DecodeToken(c.token);
      && i < POOL_SIZE && op != SendNotif && t.ring.cq == s.ring.cq[1..]
      && t.phase == Completing(s.phase.left - 1) && t.back == s.back && t.sessions == s.sessions
      && (op.Recv? ==> |s.channel| < CHANNEL_SLOTS)
      && (op.Send? && !c.more ==> !IsFull(s.ring.sq))
      && var done := op.Send? && !c.more;
      && t.channel == s.channel + (if op.Recv? then [Relay.Packet(i, Length(c), PeerAddr(s.ring.pool, i))] else [])
      && t.ring.pool == (if done then Alloc(s.ring.pool, i, UNSPECIFIED) else s.ring.pool)
      && t.ring.sq == if done then IoRing.Push(s.ring.sq, NewRequest(s.ring.pool, RecvMsg, i)) else s.ring.sq
  {
    hide RingInv, LinkOk, Sized, DecodeToken, Complete, Alloc, IoRing.Push, NewRequest;
    CompleteEffect(s.ring);
    ChannelsHaveRoom(s);
    StepKeeps(s, Loop);
    if DecodeToken(s.ring.cq[0].token).0.Send? && !s.ring.cq[0].more {
      PushAccepted(s);
    }
  }

  lemma CompletingDone(s: State)
    requires FirstImpl.Inv(s) && s.phase == Completing(0)
    ensures Enabled(s, Loop) && FirstImpl.Inv(Next(s, Loop)) && Next(s, Loop) == s.(phase := Sending(0))
  {
    hide RingInv, LinkOk, Sized;
    StepKeeps(s, Loop);
  }

  lemma ShardEnabled(s: State)
    requires FirstImpl.Inv(s) && s.inHand.None? && s.channel != []
    ensures Enabled(s, ShardRecv)
    ensures var t := Next(s, ShardRecv);
      && FirstImpl.Inv(t) && Enabled(t, Step.ShardHandle) && FirstImpl.Inv(Next(t, Step.ShardHandle))
      && (Reply(s.sessions, s.channel[0]).Some? ==> |s.back| < CHANNEL_SLOTS)
  {
    hide FirstImpl.Inv, Reply;
    StepKeeps(s, ShardRecv);
    ChannelsHaveRoom(Next(s, ShardRecv));
    StepKeeps(Next(s, ShardRecv), Step.ShardHandle);
  }
}

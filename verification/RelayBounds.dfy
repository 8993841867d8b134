/** What follows from every index being in one place: stages that always add up, queues that cannot
    fill, and buffers that are lost only where the code drops them. */
module RelayBounds {
  import opened Basics
  import opened Bags
  import opened Token
  import opened IoRing
  import opened IoRingSafety
  import opened Relay
  import opened RelaySafety
  import opened RelayRouting

  function MessageCount(m: Message): nat {
    if m.Transmit? then 1 else 0
  }

  function AddCount(m: Message): nat {
    if m.AddSession? then 1 else 0
  }

  function ShardCount(sh: Shard): nat {
    Sum(sh.queue, MessageCount) + if sh.inHand.Some? then 1 else 0
  }

  lemma {:induction false} MessagesSplit(q: seq<Message>)
    ensures Sum(q, MessageCount) + Sum(q, AddCount) == |q|
  {
    if q != [] {
      MessagesSplit(q[..|q| - 1]);
    }
  }

  lemma ShardSize(sh: Shard)
    ensures |ShardOwner(sh)| == ShardCount(sh)
  {
    BagSum(sh.queue, MessageOwner, MessageCount);
  }

  lemma HeldSize(s: Server)
    requires LinkOk(s)
    ensures |s.ring.held| == Sum(s.shards, ShardCount) + |s.sqeQueue|
  {
    forall sh | sh in s.shards ensures |ShardOwner(sh)| == ShardCount(sh) {
      ShardSize(sh);
    }
    BagSum(s.shards, ShardOwner, ShardCount);
    BagSize(s.sqeQueue, ReturnOwner);
  }

  // ---- conservation

  /** In every run every index is in exactly one stage: free, submitted or executing or awaiting its
      notification, completed but not processed, with a shard, on the way back, or lost. */
  lemma EveryIndexInOnePlace(n: nat, capacity: nat, steps: seq<Step>, i: nat)
    requires n > 0 && Valid(Start(n, capacity), steps) && i < 1024
    ensures var s := Run(Start(n, capacity), steps);
      && s.ring.sq.Ok()
      && multiset(s.ring.pool.free)[i] + Bag(Outstanding(s.ring), Owner)[i] + Bag(s.ring.cq, CqeOwner)[i]
       + Bag(s.shards, ShardOwner)[i] + Bag(s.sqeQueue, ReturnOwner)[i] + multiset(s.ring.lost)[i] == 1
  {
    hide RelayInv, Start;
    StartInv(n, capacity);
    RunKeeps(Start(n, capacity), steps);
    OnePlace(Run(Start(n, capacity), steps), i);
  }

  lemma OnePlace(s: Server, i: nat)
    requires RelayInv(s) && i < POOL_SIZE
    ensures s.ring.sq.Ok()
    ensures multiset(s.ring.pool.free)[i] + Bag(Outstanding(s.ring), Owner)[i] + Bag(s.ring.cq, CqeOwner)[i]
          + Bag(s.shards, ShardOwner)[i] + Bag(s.sqeQueue, ReturnOwner)[i] + multiset(s.ring.lost)[i] == 1
  {
    hide PacketsOk, TablesOk, PointersOk, ContentsOk, SendsOk, DecodeToken, Bag;
    UpToOnce(POOL_SIZE, i);
    assert Owned(s.ring)[i] == 1;
  }

  /** In every run the sizes of the stages add up to the number of buffers. */
  lemma StagesAddUp(n: nat, capacity: nat, steps: seq<Step>)
    requires n > 0 && Valid(Start(n, capacity), steps)
    ensures var s := Run(Start(n, capacity), steps);
      && s.ring.sq.Ok()
      && |s.ring.pool.free| + |s.ring.inKernel| + |s.ring.sq.Pending()| + |s.ring.notifs|
       + Sum(s.ring.cq, FinalCount) + Sum(s.shards, ShardCount) + |s.sqeQueue| + |s.ring.lost| == 1024
  {
    hide RelayInv, Start;
    StartInv(n, capacity);
    RunKeeps(Start(n, capacity), steps);
    StageSizes(Run(Start(n, capacity), steps));
  }

  lemma StageSizes(s: Server)
    requires RelayInv(s)
    ensures s.ring.sq.Ok()
    ensures |s.ring.pool.free| + |s.ring.inKernel| + |s.ring.sq.Pending()| + |s.ring.notifs|
          + Sum(s.ring.cq, FinalCount) + Sum(s.shards, ShardCount) + |s.sqeQueue| + |s.ring.lost| == POOL_SIZE
  {
    hide PacketsOk, TablesOk, PointersOk, ContentsOk, SendsOk, LinkOk, Bag, Sum;
    HeldSize(s);
    RingSizes(s.ring, multiset{});
  }

  /** In every run a buffer is reposted once for every send pushed for it that is done, and the next
      send is pushed only after that. */
  lemma OneRepostPerSend(n: nat, capacity: nat, steps: seq<Step>, i: nat)
    requires n > 0 && Valid(Start(n, capacity), steps)
    ensures var g := Run(Start(n, capacity), steps).ring;
      g.reposted[i] <= g.pushed[i] <= g.reposted[i] + 1
  {
    hide RelayInv, Start;
    StartInv(n, capacity);
    RunKeeps(Start(n, capacity), steps);
    var s := Run(Start(n, capacity), steps);
    InvParts(s);
    RepostedOnce(s.ring, i);
  }

  // ---- the unsafe code

  /** In every run, whatever request the kernel has or will get: its pointer is the live slot of the
      buffer its token names, that slot is allocated, and it points at this buffer's own region. No
      freed slot has ever been followed. */
  lemma PointersSafe(n: nat, capacity: nat, steps: seq<Step>)
    requires n > 0 && Valid(Start(n, capacity), steps)
    ensures var g := Run(Start(n, capacity), steps).ring;
      && !g.fault && g.sq.Ok()
      && forall q | q in Outstanding(g) ::
          && Index(q) in g.pool.liveSlots && g.pool.liveSlots[Index(q)] == q.ptr
          && Alive(g, q.ptr) && g.pool.boxes[q.ptr].buf == Index(q)
  {
    hide RelayInv, Start, RingInv, Outstanding;
    StartInv(n, capacity);
    RunKeeps(Start(n, capacity), steps);
    var s := Run(Start(n, capacity), steps);
    InvParts(s);
    forall q | q in Outstanding(s.ring)
      ensures Index(q) in s.ring.pool.liveSlots && s.ring.pool.liveSlots[Index(q)] == q.ptr
      ensures Alive(s.ring, q.ptr) && s.ring.pool.boxes[q.ptr].buf == Index(q)
    {
      PointerAlive(s.ring, q);
    }
  }

  /** No step replaces the slot of a request that is outstanding before and after it. */
  lemma SlotStays(s: Server, step: Step, q: Request)
    requires RelayInv(s) && Enabled(s, step)
    requires s.ring.sq.Ok() && Next(s, step).ring.sq.Ok()
    requires q in Outstanding(s.ring) && q in Outstanding(Next(s, step).ring)
    ensures var g, g' := s.ring, Next(s, step).ring;
      && Index(q) in g.pool.liveSlots && Index(q) in g'.pool.liveSlots
      && g'.pool.liveSlots[Index(q)] == g.pool.liveSlots[Index(q)] == q.ptr
      && q.ptr in g.pool.boxes && q.ptr in g'.pool.boxes && g'.pool.boxes[q.ptr].buf == g.pool.boxes[q.ptr].buf
  {
    hide RelayInv, RingInv, Next, Enabled, Outstanding;
    StepKeeps(s, step);
    InvParts(s);
    InvParts(Next(s, step));
    PointerAlive(s.ring, q);
    PointerAlive(Next(s, step).ring, q);
  }

  // ---- the return channel and the shards' queues

  /** When a shard wants to send, the return channel has room: its try_send never fails. */
  lemma ReturnChannelHasRoom(s: Server, k: nat)
    requires RelayInv(s) && k < |s.shards| && s.shards[k].inHand.Some?
    ensures |s.sqeQueue| < 1024 <= s.ReturnCapacity() == 1024 * |s.shards|
  {
    hide RelayInv, Sum;
    StageSizes(s);
    assert s.shards[k] in s.shards;
    SumMember(s.shards, ShardCount, s.shards[k]);
    CapacityGrows(|s.shards|);
  }

  lemma CapacityGrows(n: nat)
    requires n > 0
    ensures POOL_SIZE * n >= POOL_SIZE
  {
  }

  /** A shard's queue is full only if at least 475 registrations wait in it, */
  lemma FullOfRegistrations(s: Server, k: nat)
    requires RelayInv(s) && k < |s.shards| && |s.shards[k].queue| >= 1499
    ensures Sum(s.shards[k].queue, AddCount) >= 475
  {
    hide RelayInv, Sum;
    StageSizes(s);
    assert s.shards[k] in s.shards;
    SumMember(s.shards, ShardCount, s.shards[k]);
    MessagesSplit(s.shards[k].queue);
  }

  /** and it turns a packet away only if more than 475 do. */
  lemma PacketTurnedAway(s: Server)
    requires RelayInv(s) && Receiving(s) && Target(s, Arriving(s).src).None?
    ensures Arriving(s).src in s.endpointToShard ==>
      && s.endpointToShard[Arriving(s).src] < |s.shards|
      && Sum(s.shards[s.endpointToShard[Arriving(s).src]].queue, AddCount) > 475
  {
    hide RingInv, LinkOk, PacketsOk, Sum, Receiving, Arriving;
    var src := Arriving(s).src;
    if src in s.endpointToShard {
      var sh := s.shards[s.endpointToShard[src]];
      StageSizes(s);
      FinalReceiving(s);
      SumMember(s.ring.cq, FinalCount, s.ring.cq[0]);
      SumMember(s.shards, ShardCount, sh);
      MessagesSplit(sh.queue);
    }
  }

  lemma FinalReceiving(s: Server)
    requires Receiving(s)
    ensures s.ring.cq != [] && FinalCount(s.ring.cq[0]) == 1
  {
  }

  /** On every run the packet in a shard's hand was routed at some moment of it. It is answered
      exactly if at that moment the shard's queue led its source anywhere, and with that; and it goes
      to its source's partner of that moment exactly if the last registration of the source had taken
      effect. A full channel never is the reason to drop it, nor anything registered or refused since. */
  lemma PacketAnswered(n: nat, capacity: nat, steps: seq<Step>, k: nat)
    returns (before: seq<Step>, after: seq<Step>)
    requires n > 0 && Valid(Start(n, capacity), steps)
    requires k < |Run(Start(n, capacity), steps).shards|
    requires Run(Start(n, capacity), steps).shards[k].inHand.Some?
    ensures steps == before + [CompleteOne] + after
    ensures Valid(Start(n, capacity), before) && Receiving(Run(Start(n, capacity), before))
    ensures var s, t := Run(Start(n, capacity), before), Run(Start(n, capacity), steps);
      var src, answer := t.shards[k].inHand.value.src, Answer(t, k);
      && Arriving(s).src == src && Target(s, src).Some? && src in s.partner
      && Foretold(s, src) == (if answer.Some? then Some(answer.value.dest) else None)
      && ((answer.Some? && answer.value.dest == s.partner[src])
          <==> LastTakesEffect(Start(n, capacity), before, src))
  {
    hide RelayInv, RoutingOk, RecordsOk, Start, Next, Enabled, Answer, Receiving, Arriving, Target, Foretold;
    StartInv(n, capacity);
    StartRoutes(n, capacity);
    StartRecords(n, capacity);
    var t := Run(Start(n, capacity), steps);
    RunKeeps(Start(n, capacity), steps);
    RunRoutes(Start(n, capacity), steps);
    var ticket := HandTicket(t, k);
    assert |Start(n, capacity).ring.recvLog| == 0 by { NothingReceived(n, capacity); }
    before, after := TicketArrival(Start(n, capacity), steps, ticket);
    var s := Run(Start(n, capacity), before);
    RunKeeps(Start(n, capacity), before);
    RunRecordsOk(Start(n, capacity), before);
    RecordedArrival(s, after, ticket);
    ReturnChannelHasRoom(t, k);
    AnswerWanted(t, k);
    RegistrationCounts(n, capacity, before, Arriving(s).src);
    TargetRegistered(s, Arriving(s).src);
  }

  lemma NothingReceived(n: nat, capacity: nat)
    ensures Start(n, capacity).ring.recvLog == []
  {
  }

  /** The ticket of the packet in shard `k`'s hand. */
  lemma HandTicket(s: Server, k: nat) returns (n: nat)
    requires RelayInv(s) && RoutingOk(s) && k < |s.shards| && s.shards[k].inHand.Some?
    ensures var p := s.shards[k].inHand.value;
      && p.bufIdx in s.ring.ticketOf && s.ring.ticketOf[p.bufIdx] == n && n in s.wants
      && n < |s.ring.recvLog| && s.ring.recvLog[n].src == p.src
  {
    hide RingInv, LinkOk, TablesOk, ReturnsWanted, DestsWanted, After;
    var p := s.shards[k].inHand.value;
    assert InShard(s.shards[k], p);
    assert PacketOk(s.ring.ticketOf, s.ring.recvLog, p);
    AnswerWanted(s, k);
    n := s.ring.ticketOf[p.bufIdx];
  }

  /** What is recorded for a ticket at the end is what was foretold when it was handed out. */
  lemma RecordedArrival(s: Server, after: seq<Step>, n: nat)
    requires RelayInv(s) && RecordsOk(s) && Receiving(s) && |s.ring.recvLog| == n
    requires Valid(s, [CompleteOne] + after)
    ensures var t, src := Run(s, [CompleteOne] + after), Arriving(s).src;
      && n < |t.ring.recvLog| && t.ring.recvLog[n].src == src
      && (n in t.wants ==> Target(s, src).Some? && t.wants[n] == Foretold(s, src))
  {
    hide RelayInv, Receiving, Arriving, Target, Foretold, ProcessCompletion;
    var u, steps := Next(s, CompleteOne), [CompleteOne] + after;
    assert steps[0] == CompleteOne && steps[1..] == after;
    ArrivalEffect(s);
    ArrivalStored(s);
    assert u.ring.recvLog[n] == u.ring.recvLog[n..][0];
    RunRecord(u, after, n);
  }

  // ---- where buffers are lost

  /** The four places: a push into a full submission ring, an unknown source, a full shard queue
      (Target covers both), and a shard without an answer. */
  ghost predicate Loses(s: Server, step: Step)
    requires Enabled(s, step)
  {
    match step
    case Seed => IsFull(s.ring.sq)
    case SendOne(_) => IsFull(s.ring.sq)
    case CompleteOne =>
      if Receiving(s) then Target(s, Arriving(s).src).None? else IsFinal(s.ring.cq[0]) && IsFull(s.ring.sq)
    case ShardHandle(k) => Answer(s, k).None?
    case _ => false
  }

  lemma PostLost(g: Ring, opcode: Opcode, i: u16, addr: Addr)
    ensures Post(g, opcode, i, addr).lost == g.lost + if IsFull(g.sq) then [i] else []
  {
  }

  lemma FinishLost(s: Server)
    requires RingInv(s.ring) && s.ring.cq != [] && !Receiving(s)
    ensures FinishSend(s).ring.lost == s.ring.lost + if IsFinal(s.ring.cq[0]) && IsFull(s.ring.sq)
      then [DecodeToken(s.ring.cq[0].token).1] else []
  {
    hide OwnedOk, SendsOk, ContentsOk, DecodeToken, Post, TakeTiming;
    var c := s.ring.cq[0];
    assert CompletionOk(s.ring, c);
    FinishSendRest(s);
    var g := s.ring.(cq := s.ring.cq[1..], reposted := s.ring.reposted + multiset{DecodeToken(c.token).1});
    PostLost(g, RecvMsg, DecodeToken(c.token).1, UNSPECIFIED);
  }

  lemma ArriveLost(s: Server)
    requires Receiving(s)
    ensures ProcessCompletion(s).ring.lost
         == s.ring.lost + if Target(s, Arriving(s).src).None? then [Arriving(s).bufIdx] else []
  {
    hide Arriving, DecodeToken, PeerAddr, Length, Enqueue;
    var p := Arriving(s);
    assert Target(Taken(s, p.bufIdx), p.src) == Target(s, p.src);
    TakenLost(s);
    if Target(s, p.src).Some? {
    } else {
    }
  }

  /** One buffer is lost at each of these places, and none anywhere else. */
  lemma LostGrows(s: Server, step: Step)
    requires RelayInv(s) && Enabled(s, step)
    ensures s.ring.lost <= Next(s, step).ring.lost
    ensures |Next(s, step).ring.lost| == |s.ring.lost| + if Loses(s, step) then 1 else 0
  {
    hide RelayInv, RingInv, Receiving, Arriving, Target, ProcessCompletion, KernelNext, Answer, HandlePacket;
    hide PostSend, SeedNext, Dequeue, Enqueue, MarkShardDone, MarkSendSqe, IsFull, IsFinal;
    match step
    case CompleteOne =>
      if Receiving(s) { ArrivedLost(s); } else { FinishedLost(s); }
    case Kernel(k) => KernelLeaves(s.ring, k);
    case ShardHandle(k) => HandleLost(s, k);
    case Seed => SeedLost(s.ring);
    case SendOne(_) => SendLost(s.ring, s.sqeQueue[0].bufIdx, s.sqeQueue[0].dest);
    case _ =>
  }

  lemma ArrivedLost(s: Server)
    requires Receiving(s)
    ensures s.ring.lost <= ProcessCompletion(s).ring.lost
    ensures |ProcessCompletion(s).ring.lost| == |s.ring.lost| + if Target(s, Arriving(s).src).None? then 1 else 0
  {
    hide Arriving, Target, ProcessCompletion;
    ArriveLost(s);
  }

  lemma HandleLost(s: Server, k: nat)
    requires k < |s.shards| && s.shards[k].inHand.Some?
    ensures s.ring.lost <= HandlePacket(s, k).ring.lost
    ensures |HandlePacket(s, k).ring.lost| == |s.ring.lost| + if Answer(s, k).None? then 1 else 0
  {
    hide Answer;
    if Answer(s, k).None? {
    } else {
    }
  }

  lemma FinishedLost(s: Server)
    requires RelayInv(s) && s.ring.cq != [] && !Receiving(s)
    ensures s.ring.lost <= ProcessCompletion(s).ring.lost
    ensures |ProcessCompletion(s).ring.lost|
         == |s.ring.lost| + if IsFinal(s.ring.cq[0]) && IsFull(s.ring.sq) then 1 else 0
  {
    hide RingInv, LinkOk, PacketsOk, Receiving, FinishSend;
    FinishLost(s);
  }

  lemma SeedLost(g: Ring)
    requires g.pool.free != [] && g.pool.free[|g.pool.free| - 1] < INDEX_LIMIT
    ensures g.lost <= SeedNext(g).lost
    ensures |SeedNext(g).lost| == |g.lost| + if IsFull(g.sq) then 1 else 0
  {
  }

  lemma SendLost(g: Ring, i: u16, dest: Addr)
    ensures g.lost <= PostSend(g, i, dest).lost
    ensures |PostSend(g, i, dest).lost| == |g.lost| + if IsFull(g.sq) then 1 else 0
  {
  }
}

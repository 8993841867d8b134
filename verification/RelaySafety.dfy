/** The invariant of the whole relay, part one: the ring's invariant survives every step of loop,
    shards and kernel, and every packet on its way through them still describes its buffer. */
module RelaySafety {
  import opened Basics
  import opened Bags
  import opened Token
  import opened IoRing
  import opened IoRingSafety
  import opened Relay

  // ---- the ring

  lemma HandleRing(s: Server, k: nat)
    requires RingInv(s.ring) && LinkOk(s) && k < |s.shards| && s.shards[k].inHand.Some?
    ensures RingInv(HandlePacket(s, k).ring)
  {
    hide RingInv, Bag;
    var p := s.shards[k].inHand.value;
    assert s.shards[k] in s.shards;
    ShardPacketHeld(s, s.shards[k], p);
    DropKeeps(s.ring, p.bufIdx);
  }

  lemma RouteRing(s: Server, p: Packet)
    requires RingInv(s.ring) && p.bufIdx in s.ring.held
    ensures RingInv(Route(s, p).ring)
  {
    hide RingInv;
    DropKeeps(s.ring, p.bufIdx);
  }

  lemma CompletionRing(s: Server)
    requires RingInv(s.ring) && s.ring.cq != []
    ensures RingInv(ProcessCompletion(s).ring)
  {
    hide RingInv, Route, Complete, Receiving, Arriving, FinishSend;
    CompleteKeeps(s.ring);
    CompleteTicket(s);
    if Receiving(s) {
      RouteRing(Taken(s, Arriving(s).bufIdx), Arriving(s));
    } else {
      FinishSendRest(s);
    }
  }

  lemma StepRing(s: Server, step: Step)
    requires RingInv(s.ring) && LinkOk(s) && Enabled(s, step)
    ensures RingInv(Next(s, step).ring)
  {
    hide RingInv, LinkOk, ProcessCompletion, HandlePacket, KernelNext;
    match step
    case Seed => SeedKeeps(s.ring);
    case SendOne(spent) =>
      ReturnHeld(s, s.sqeQueue[0]);
      PostSendKeeps(s.ring, s.sqeQueue[0].bufIdx, s.sqeQueue[0].dest);
    case SyncRing(n) => SyncKeeps(s.ring, n);
    case CompleteOne => CompletionRing(s);
    case ShardHandle(k) => HandleRing(s, k);
    case Kernel(k) => KernelKeeps(s.ring, k);
    case _ =>
  }

  // ---- the packets on their way

  /** Length and source still are those of the datagram in the buffer. */
  predicate PacketOk(ticketOf: map<nat, nat>, recvLog: seq<Rx>, p: Packet) {
    && p.bufIdx in ticketOf && ticketOf[p.bufIdx] < |recvLog|
    && recvLog[ticketOf[p.bufIdx]].src == p.src && |recvLog[ticketOf[p.bufIdx]].data| == p.len
  }

  predicate ReturnOk(ticketOf: map<nat, nat>, recvLog: seq<Rx>, m: SendRequest) {
    && m.bufIdx in ticketOf && ticketOf[m.bufIdx] < |recvLog|
    && |recvLog[ticketOf[m.bufIdx]].data| == m.len
  }

  ghost predicate PacketsOk(s: Server) {
    && (forall k, p | 0 <= k < |s.shards| && InShard(s.shards[k], p) :: PacketOk(s.ring.ticketOf, s.ring.recvLog, p))
    && (forall m | m in s.sqeQueue :: ReturnOk(s.ring.ticketOf, s.ring.recvLog, m))
  }

  ghost predicate TablesOk(s: Server) {
    && s.nextShard < |s.shards|
    && (forall a | a in s.endpointToShard :: s.endpointToShard[a] < |s.shards| && a in s.partner)
  }

  ghost predicate RelayInv(s: Server) {
    RingInv(s.ring) && LinkOk(s) && TablesOk(s) && PacketsOk(s)
  }

  lemma InvParts(s: Server)
    requires RelayInv(s)
    ensures RingInv(s.ring) && s.ring.sq.Ok() && !s.ring.fault
  {
    hide LinkOk, PacketsOk, TablesOk, OwnedOk, SendsOk, ContentsOk;
  }

  ghost predicate SameTickets(g: Ring, g': Ring) {
    g'.ticketOf == g.ticketOf && g'.recvLog == g.recvLog
  }

  lemma RingTickets(g: Ring, i: nat, dest: Addr)
    ensures g.pool.free != [] && g.pool.free[|g.pool.free| - 1] < INDEX_LIMIT ==> SameTickets(g, SeedNext(g))
    ensures g.sq.Ok() && i <= |g.sq.Pending()| ==> SameTickets(g, Sync(g, i))
    ensures i < INDEX_LIMIT ==> SameTickets(g, PostSend(g, i, dest))
    ensures SameTickets(g, Drop(g, i))
  {
    hide Alloc, Push, EncodeToken;
  }

  /** No ticket is handed out, and nothing is recorded about one. */
  ghost predicate Quiet(s: Server, t: Server) {
    SameTickets(s.ring, t.ring) && t.wants == s.wants && t.via == s.via
  }

  lemma FinishTickets(s: Server)
    requires s.ring.cq != [] && !Receiving(s)
    ensures Quiet(s, ProcessCompletion(s))
  {
    hide Receiving, FinishSend, Complete, Route;
    FinishSendRest(s);
    CompleteTicket(s);
  }

  lemma TakenLost(s: Server)
    requires Receiving(s)
    ensures Complete(s.ring).lost == s.ring.lost
  {
  }

  lemma NextCompletion(s: Server)
    requires s.ring.cq != []
    ensures Next(s, CompleteOne) == ProcessCompletion(s)
  {
  }

  lemma SameTicketsSelf(g: Ring)
    ensures SameTickets(g, g)
  {
  }

  lemma HandleTickets(s: Server, k: nat)
    requires k < |s.shards| && s.shards[k].inHand.Some?
    ensures Quiet(s, HandlePacket(s, k))
  {
    hide Answer, Drop, SameTickets;
    SameTicketsSelf(s.ring);
    RingTickets(s.ring, s.shards[k].inHand.value.bufIdx, 0);
  }

  /** Only the processing of a receive hands out a ticket. */
  lemma StepTickets(s: Server, step: Step)
    requires Enabled(s, step) && !(step.CompleteOne? && Receiving(s))
    ensures Quiet(s, Next(s, step))
  {
    hide Receiving, ProcessCompletion, KernelNext, PostSend, HandlePacket, SeedNext, Sync;
    hide Enqueue, Dequeue, MarkShardDone, MarkSendSqe;
    match step
    case CompleteOne => FinishTickets(s);
    case Kernel(k) => KernelLeaves(s.ring, k);
    case ShardHandle(k) => HandleTickets(s, k);
    case SendOne(_) => RingTickets(s.ring, s.sqeQueue[0].bufIdx, s.sqeQueue[0].dest);
    case SyncRing(n) => RingTickets(s.ring, n, 0);
    case _ => RingTickets(s.ring, 0, 0);
  }

  /** What a completion says is what the kernel received. */
  lemma ArrivingDescribed(s: Server)
    requires RingInv(s.ring) && Receiving(s)
    ensures PacketOk(Complete(s.ring).ticketOf, Complete(s.ring).recvLog, Arriving(s))
  {
    assert CompletionOk(s.ring, s.ring.cq[0]);
  }

  /** Whatever waits for a shard or for the loop is in another buffer. */
  lemma ArrivingElsewhere(s: Server)
    requires RingInv(s.ring) && LinkOk(s) && Receiving(s)
    ensures Arriving(s).bufIdx !in s.ring.held
    ensures forall k, p | 0 <= k < |s.shards| && InShard(s.shards[k], p) :: p.bufIdx != Arriving(s).bufIdx
    ensures forall m | m in s.sqeQueue :: m.bufIdx != Arriving(s).bufIdx
  {
    hide LinkOk, DecodeToken, PointersOk, ContentsOk, SendsOk;
    var i := Arriving(s).bufIdx;
    assert s.ring.cq[0] in s.ring.cq && i in CqeOwner(s.ring.cq[0]);
    if i in s.ring.held {
      Exclusive(s.ring, multiset{}, i);
    }
    forall k, p | 0 <= k < |s.shards| && InShard(s.shards[k], p) ensures p.bufIdx != i {
      ShardPacketHeld(s, s.shards[k], p);
    }
    forall m | m in s.sqeQueue ensures m.bufIdx != i {
      ReturnHeld(s, m);
    }
  }

  /** Taking the index of a receive leaves what is said about all other packets true. */
  lemma TakenPackets(s: Server)
    requires RingInv(s.ring) && LinkOk(s) && PacketsOk(s) && Receiving(s)
    ensures PacketsOk(Taken(s, Arriving(s).bufIdx))
  {
    hide Arriving, RingInv, LinkOk, Complete, InShard;
    ArrivingElsewhere(s);
    CompleteTicket(s);
    var t := Taken(s, Arriving(s).bufIdx);
    forall k, p | 0 <= k < |t.shards| && InShard(t.shards[k], p) ensures PacketOk(t.ring.ticketOf, t.ring.recvLog, p) {
      assert PacketOk(s.ring.ticketOf, s.ring.recvLog, p);
    }
    forall m | m in t.sqeQueue ensures ReturnOk(t.ring.ticketOf, t.ring.recvLog, m) {
      assert ReturnOk(s.ring.ticketOf, s.ring.recvLog, m);
    }
  }

  lemma EnqueuePackets(s: Server, k: nat, m: Message, t: Server)
    requires PacketsOk(s) && k < |s.shards| && t.shards == s.shards[k := Enqueue(s.shards[k], m)]
    requires SameTickets(s.ring, t.ring) && t.sqeQueue == s.sqeQueue
    requires m.Transmit? ==> PacketOk(s.ring.ticketOf, s.ring.recvLog, m.packet)
    ensures PacketsOk(t)
  {
    forall j, p | 0 <= j < |t.shards| && InShard(t.shards[j], p) ensures PacketOk(t.ring.ticketOf, t.ring.recvLog, p) {
      assert InShard(s.shards[j], p) || m == Transmit(p);
    }
    forall r | r in t.sqeQueue ensures ReturnOk(t.ring.ticketOf, t.ring.recvLog, r) {
      assert ReturnOk(s.ring.ticketOf, s.ring.recvLog, r);
    }
  }

  lemma RoutePackets(s: Server, p: Packet)
    requires PacketsOk(s) && PacketOk(s.ring.ticketOf, s.ring.recvLog, p)
    ensures PacketsOk(Route(s, p))
  {
    hide PacketOk, ReturnOk, Enqueue;
    if Target(s, p.src).Some? {
      EnqueuePackets(s, Target(s, p.src).value, Transmit(p), Route(s, p));
    } else {
      SamePackets(s, Route(s, p));
    }
  }

  lemma SamePackets(s: Server, t: Server)
    requires PacketsOk(s) && SameTickets(s.ring, t.ring)
    requires t.shards == s.shards && (forall m | m in t.sqeQueue :: m in s.sqeQueue)
    ensures PacketsOk(t)
  {
    hide InShard;
    forall k, p | 0 <= k < |t.shards| && InShard(t.shards[k], p) ensures PacketOk(t.ring.ticketOf, t.ring.recvLog, p) {
      assert PacketOk(s.ring.ticketOf, s.ring.recvLog, p);
    }
    forall m | m in t.sqeQueue ensures ReturnOk(t.ring.ticketOf, t.ring.recvLog, m) {
      assert ReturnOk(s.ring.ticketOf, s.ring.recvLog, m);
    }
  }

  lemma TakePackets(s: Server, k: nat, id: Uuid)
    requires PacketsOk(s) && k < |s.shards| && s.shards[k].queue != [] && s.shards[k].inHand.None?
    ensures PacketsOk(s.(shards := s.shards[k := Dequeue(s.shards[k], id)]))
  {
    hide PacketOk, ReturnOk;
    var t := s.(shards := s.shards[k := Dequeue(s.shards[k], id)]);
    forall j, p | 0 <= j < |t.shards| && InShard(t.shards[j], p) ensures PacketOk(t.ring.ticketOf, t.ring.recvLog, p) {
      assert InShard(s.shards[j], p);
    }
  }

  /** What a shard answers is about the packet in its hand. */
  lemma AnswerOk(s: Server, k: nat)
    requires PacketsOk(s) && k < |s.shards| && s.shards[k].inHand.Some? && Answer(s, k).Some?
    ensures ReturnOk(s.ring.ticketOf, s.ring.recvLog, Answer(s, k).value)
  {
    assert InShard(s.shards[k], s.shards[k].inHand.value);
    assert PacketOk(s.ring.ticketOf, s.ring.recvLog, s.shards[k].inHand.value);
  }

  lemma EmptyHandPackets(s: Server, k: nat)
    requires PacketsOk(s) && k < |s.shards|
    ensures PacketsOk(EmptyHand(s, k))
  {
    hide PacketOk, ReturnOk;
    var t := EmptyHand(s, k);
    forall j, p | 0 <= j < |t.shards| && InShard(t.shards[j], p) ensures PacketOk(t.ring.ticketOf, t.ring.recvLog, p) {
      assert InShard(s.shards[j], p);
    }
  }

  lemma ReturnPackets(s: Server, m: SendRequest)
    requires PacketsOk(s) && ReturnOk(s.ring.ticketOf, s.ring.recvLog, m)
    ensures PacketsOk(s.(sqeQueue := s.sqeQueue + [m]))
  {
    hide PacketOk, ReturnOk, InShard;
  }

  lemma HandlePackets(s: Server, k: nat)
    requires PacketsOk(s) && k < |s.shards| && s.shards[k].inHand.Some?
    ensures PacketsOk(HandlePacket(s, k))
  {
    hide PacketsOk, ReturnOk, Answer, Drop;
    EmptyHandPackets(s, k);
    if Answer(s, k).Some? {
      AnswerOk(s, k);
      ReturnPackets(EmptyHand(s, k), Answer(s, k).value);
    } else {
      RingTickets(s.ring, s.shards[k].inHand.value.bufIdx, 0);
      SamePackets(EmptyHand(s, k), HandlePacket(s, k));
    }
  }

  lemma CompletionPackets(s: Server)
    requires RingInv(s.ring) && LinkOk(s) && PacketsOk(s) && s.ring.cq != []
    ensures PacketsOk(ProcessCompletion(s))
  {
    hide PacketsOk, RingInv, LinkOk, Complete, Route, Receiving, Arriving, FinishSend;
    if Receiving(s) {
      TakenPackets(s);
      ArrivingDescribed(s);
      RoutePackets(Taken(s, Arriving(s).bufIdx), Arriving(s));
    } else {
      FinishSendRest(s);
      CompleteTicket(s);
      SamePackets(s, FinishSend(s));
    }
  }

  lemma StepPackets(s: Server, step: Step)
    requires RingInv(s.ring) && LinkOk(s) && PacketsOk(s) && Enabled(s, step)
    ensures PacketsOk(Next(s, step))
  {
    hide PacketsOk, RingInv, LinkOk, ProcessCompletion, HandlePacket, KernelNext, Dequeue, Enqueue, PacketOk, ReturnOk;
    if !step.CompleteOne? { StepTickets(s, step); }
    match step
    case CompleteOne => CompletionPackets(s);
    case Register(session) => EnqueuePackets(s, s.nextShard, AddSession(session), Next(s, step));
    case ShardTake(k, id) => TakePackets(s, k, id);
    case ShardHandle(k) => HandlePackets(s, k);
    case _ => SamePackets(s, Next(s, step));
  }

  /** The router's table and the list of shards stay what they are. */
  ghost predicate SameTables(s: Server, t: Server) {
    && t.endpointToShard == s.endpointToShard && t.nextShard == s.nextShard && t.partner == s.partner
    && |t.shards| == |s.shards|
  }

  lemma CompletionTables(s: Server)
    requires s.ring.cq != []
    ensures SameTables(s, ProcessCompletion(s))
  {
    hide Complete, Receiving, Arriving, FinishSend, Enqueue, Drop;
    FinishSendRest(s);
  }

  lemma HandleTables(s: Server, k: nat)
    requires k < |s.shards| && s.shards[k].inHand.Some?
    ensures SameTables(s, HandlePacket(s, k))
  {
    hide Answer, Drop;
    if Answer(s, k).None? {
    } else {
    }
  }

  lemma StepTables(s: Server, step: Step)
    requires TablesOk(s) && Enabled(s, step)
    ensures TablesOk(Next(s, step)) && |Next(s, step).shards| == |s.shards|
  {
    hide KernelNext, ProcessCompletion, PostSend, HandlePacket, Dequeue, Enqueue, Complete;
    match step
    case CompleteOne => CompletionTables(s);
    case ShardHandle(k) => HandleTables(s, k);
    case _ =>
  }

  lemma StepKeeps(s: Server, step: Step)
    requires RelayInv(s) && Enabled(s, step)
    ensures RelayInv(Next(s, step))
  {
    hide PacketsOk, RingInv, LinkOk, TablesOk, Next;
    StepRing(s, step);
    StepLink(s, step);
    StepPackets(s, step);
    StepTables(s, step);
  }

  lemma {:induction false} RunKeeps(s: Server, steps: seq<Step>)
    requires RelayInv(s) && Valid(s, steps)
    ensures RelayInv(Run(s, steps))
    decreases |steps|
  {
    hide RelayInv, Next, Enabled;
    if steps != [] {
      StepKeeps(s, steps[0]);
      RunKeeps(Next(s, steps[0]), steps[1..]);
    }
  }

  // ---- the start

  /** The server of main, with `n` shards and a ring of `capacity` entries, before seeding. */
  function Start(n: nat, capacity: nat): Server {
    Server(Registered(capacity), 0, map[], [], false, seq(n, i => Shard([], map[], map[], None)),
           map[], 0, [], map[], map[], map[])
  }

  lemma {:induction false} IdleShards(shards: seq<Shard>)
    requires forall sh | sh in shards :: sh.queue == [] && sh.inHand.None?
    ensures Bag(shards, ShardOwner) == multiset{}
  {
    if shards != [] {
      assert shards[|shards| - 1] in shards;
      IdleShards(shards[..|shards| - 1]);
    }
  }

  lemma StartInv(n: nat, capacity: nat)
    requires n > 0
    ensures RelayInv(Start(n, capacity))
  {
    hide RingInv;
    RegisteredInv(capacity);
    IdleShards(Start(n, capacity).shards);
  }
}

/** The relay: the event loop with its ring, the router's table, the shards with their FIFO queues
    and session tables, and the channel back to the loop, as interleaved steps. The fields from
    `partner` on only record what was routed where. */
module Relay {
  import opened Basics
  import opened Bags
  import opened Token
  import opened IoRing

  // A heapless Queue<_, N> holds N - 1 entries, and N is BUFFER_SIZE.
  const QUEUE_CAPACITY: nat := BUFFER_SIZE - 1

  type Uuid = nat

  datatype Packet = Packet(bufIdx: u16, len: nat, src: Addr)

  datatype Session = Session(host: Addr, peer: Addr) {
    function RouteTo(src: Addr): Option<Addr> {
      if src == host then Some(peer) else if src == peer then Some(host) else None
    }
  }

  datatype Message = AddSession(session: Session) | Transmit(packet: Packet)

  /** What a shard sends back to the loop. */
  datatype SendRequest = SendRequest(dest: Addr, len: nat, bufIdx: u16)

  datatype Shard = Shard(queue: seq<Message>, sessionTable: map<Uuid, Session>,
                         sessionId: map<Addr, Uuid>, inHand: Option<Packet>)
  {
    function Lookup(src: Addr): Option<Addr> {
      if src in sessionId && sessionId[src] in sessionTable then sessionTable[sessionId[src]].RouteTo(src)
      else None
    }

    function WithSession(id: Uuid, s: Session): Shard {
      this.(sessionId := sessionId[s.host := id][s.peer := id], sessionTable := sessionTable[id := s])
    }
  }

  datatype Timing = Timing(recvAt: nat, shardDoneAt: Option<nat>, sendSqeAt: Option<nat>)

  /** A timing record taken when its send completed, and that moment. */
  datatype Report = Report(timing: Timing, sendCqeAt: nat)

  datatype Server = Server(
    ring: Ring,
    clock: nat, timing: map<nat, Timing>, reports: seq<Report>,
    panicked: bool,                       // an unwrap on a missing time stamp
    shards: seq<Shard>,
    endpointToShard: map<Addr, nat>, nextShard: nat,
    sqeQueue: seq<SendRequest>,
    partner: map<Addr, Addr>,             // the last registration wins
    wants: map<nat, Option<Addr>>,        // per ticket: where the queue it joined led its source
    via: map<nat, nat>)                   // per ticket: the shard it was routed to
  {
    // main allots POOL_SIZE entries per shard to the return channel
    function ReturnCapacity(): nat { POOL_SIZE * |shards| }
  }

  datatype Step =
    | Seed                                     // loop, at start-up
    | Register(session: Session)               // loop: a control message
    | SendOne(spent: nat)                      // loop: one entry of the return channel
    | SyncRing(n: nat)                         // loop; n entries are consumed while it syncs
    | CompleteOne                              // loop: one completion
    | ShardTake(k: nat, id: Uuid)              // shard k: dequeue (a session gets the fresh id)
    | ShardHandle(k: nat)                      // shard k: handle_packet
    | Kernel(step: KernelStep)
    | Elapse(dt: nat)

  ghost predicate Enabled(s: Server, step: Step) {
    match step
    case Seed => s.ring.pool.free != [] && s.ring.pool.free[|s.ring.pool.free| - 1] < INDEX_LIMIT
    case Register(_) => s.nextShard < |s.shards|
    case SendOne(_) => s.sqeQueue != []
    case SyncRing(n) => s.ring.sq.Ok() && n <= |s.ring.sq.Pending()|
    case CompleteOne => s.ring.cq != []
    case ShardTake(k, id) =>
      k < |s.shards| && s.shards[k].queue != [] && s.shards[k].inHand.None?
      && id !in s.shards[k].sessionTable
    case ShardHandle(k) => k < |s.shards| && s.shards[k].inHand.Some?
    case Kernel(step) => KernelEnabled(s.ring, step)
    case Elapse(_) => true
  }

  // ---- the event loop

  function Enqueue(sh: Shard, m: Message): Shard {
    if |sh.queue| < QUEUE_CAPACITY then sh.(queue := sh.queue + [m]) else sh
  }

  function RegisterSession(s: Server, session: Session): Server
    requires s.nextShard < |s.shards|
  {
    var k := s.nextShard;
    s.(nextShard := (k + 1) % |s.shards|,
       shards := s.shards[k := Enqueue(s.shards[k], AddSession(session))],
       endpointToShard := s.endpointToShard[session.host := k][session.peer := k],
       partner := s.partner[session.host := session.peer][session.peer := session.host])
  }

  /** Where a shard that now sends packets of `src` to `now` will send them after messages `q`. */
  function After(now: Option<Addr>, q: seq<Message>, src: Addr): Option<Addr> {
    if q == [] then now
    else
      var m := q[|q| - 1];
      if m.AddSession? && m.session.RouteTo(src).Some? then m.session.RouteTo(src)
      else After(now, q[..|q| - 1], src)
  }

  /** Where shard `sh` will send a packet of `src` that is queued now. */
  function LeadsTo(sh: Shard, src: Addr): Option<Addr> {
    After(sh.Lookup(src), sh.queue, src)
  }

  function Foretold(s: Server, src: Addr): Option<Addr> {
    if src in s.endpointToShard && s.endpointToShard[src] < |s.shards|
    then LeadsTo(s.shards[s.endpointToShard[src]], src) else None
  }

  /** The shard whose queue takes a packet from `src`: none if `src` is unknown or the queue is full. */
  function Target(s: Server, src: Addr): Option<nat> {
    if src in s.endpointToShard && s.endpointToShard[src] < |s.shards|
       && |s.shards[s.endpointToShard[src]].queue| < QUEUE_CAPACITY
    then Some(s.endpointToShard[src]) else None
  }

  function DeliverTo(s: Server, k: nat, p: Packet): Server
    requires k < |s.shards|
  {
    var t := TicketIn(s.ring, p.bufIdx);
    s.(shards := s.shards[k := Enqueue(s.shards[k], Transmit(p))],
       wants := s.wants[t := Foretold(s, p.src)],
       via := s.via[t := k])
  }

  function DropPacket(s: Server, p: Packet): Server {
    s.(ring := Drop(s.ring, p.bufIdx))
  }

  /** ShardRouter::route for the packet whose index the loop has just taken from the ring. */
  function Route(s: Server, p: Packet): Server {
    var k := Target(s, p.src);
    if k.Some? then DeliverTo(s, k.value, p) else DropPacket(s, p)
  }

  function MarkShardDone(timing: map<nat, Timing>, i: nat, now: nat): map<nat, Timing> {
    if i in timing then timing[i := timing[i].(shardDoneAt := Some(now))] else timing
  }

  function MarkSendSqe(timing: map<nat, Timing>, i: nat, now: nat): map<nat, Timing> {
    if i in timing then timing[i := timing[i].(sendSqeAt := Some(now))] else timing
  }

  predicate IsComplete(t: Timing) { t.shardDoneAt.Some? && t.sendSqeAt.Some? }

  /** take_recv_for and the report, with its unwraps. */
  function TakeTiming(s: Server, i: nat): Server {
    if i !in s.timing then s
    else if !IsComplete(s.timing[i]) then s.(panicked := true)
    else s.(reports := s.reports + [Report(s.timing[i], s.clock)], timing := s.timing - {i})
  }

  /** The loop has taken index `i` and stamped its arrival. */
  function Taken(s: Server, i: nat): Server
    requires s.ring.cq != []
  {
    s.(ring := Complete(s.ring), timing := s.timing[i := Timing(s.clock, None, None)])
  }

  /** The next completion is a receive. */
  predicate Receiving(s: Server) {
    s.ring.cq != [] && DecodeToken(s.ring.cq[0].token).0.Recv?
  }

  /** The packet the loop makes of it. */
  function Arriving(s: Server): Packet
    requires Receiving(s)
  {
    var c := s.ring.cq[0];
    var i := DecodeToken(c.token).1;
    Packet(i, Length(c), PeerAddr(s.ring.pool, i))
  }

  /** The next completion is of a send, or a notification. */
  function FinishSend(s: Server): Server
    requires s.ring.cq != []
  {
    var c := s.ring.cq[0];
    var (op, i) := DecodeToken(c.token);
    var done := s.(ring := Complete(s.ring));
    if op.Send? && !c.more then TakeTiming(done, i) else done
  }

  function ProcessCompletion(s: Server): Server
    requires s.ring.cq != []
  {
    if Receiving(s) then Route(Taken(s, Arriving(s).bufIdx), Arriving(s)) else FinishSend(s)
  }

  function ProcessReturn(s: Server, spent: nat): Server
    requires s.sqeQueue != []
  {
    var m := s.sqeQueue[0];
    s.(sqeQueue := s.sqeQueue[1..],
       ring := PostSend(s.ring, m.bufIdx, m.dest),
       timing := MarkSendSqe(MarkShardDone(s.timing, m.bufIdx, s.clock), m.bufIdx, s.clock + spent),
       clock := s.clock + spent)
  }

  // ---- the shards

  function Dequeue(sh: Shard, id: Uuid): Shard
    requires sh.queue != []
  {
    var rest := sh.(queue := sh.queue[1..]);
    match sh.queue[0]
    case AddSession(session) => rest.WithSession(id, session)
    case Transmit(p) => rest.(inHand := Some(p))
  }

  /** What handle_packet sends to the loop: nothing without a session, or if the channel is full. */
  function Reply(sh: Shard, p: Packet, room: bool): Option<SendRequest> {
    var dst := sh.Lookup(p.src);
    if dst.None? || !room then None else Some(SendRequest(dst.value, p.len, p.bufIdx))
  }

  function Answer(s: Server, k: nat): Option<SendRequest>
    requires k < |s.shards| && s.shards[k].inHand.Some?
  {
    Reply(s.shards[k], s.shards[k].inHand.value, |s.sqeQueue| < s.ReturnCapacity())
  }

  function EmptyHand(s: Server, k: nat): Server
    requires k < |s.shards|
  {
    s.(shards := s.shards[k := s.shards[k].(inHand := None)])
  }

  function HandlePacket(s: Server, k: nat): Server
    requires k < |s.shards| && s.shards[k].inHand.Some?
  {
    var answer := Answer(s, k);
    EmptyHand(s, k).(
      ring := if answer.None? then Drop(s.ring, s.shards[k].inHand.value.bufIdx) else s.ring,
      sqeQueue := if answer.Some? then s.sqeQueue + [answer.value] else s.sqeQueue)
  }

  ghost function Next(s: Server, step: Step): Server
    requires Enabled(s, step)
  {
    match step
    case Seed => s.(ring := SeedNext(s.ring))
    case Register(session) => RegisterSession(s, session)
    case SendOne(spent) => ProcessReturn(s, spent)
    case SyncRing(n) => s.(ring := Sync(s.ring, n))
    case CompleteOne => ProcessCompletion(s)
    case ShardTake(k, id) => s.(shards := s.shards[k := Dequeue(s.shards[k], id)])
    case ShardHandle(k) => HandlePacket(s, k)
    case Kernel(step) => s.(ring := KernelNext(s.ring, step))
    case Elapse(dt) => s.(clock := s.clock + dt)
  }

  ghost predicate Valid(s: Server, steps: seq<Step>)
    decreases |steps|
  {
    steps == [] || (Enabled(s, steps[0]) && Valid(Next(s, steps[0]), steps[1..]))
  }

  ghost function Run(s: Server, steps: seq<Step>): Server
    requires Valid(s, steps)
    decreases |steps|
  {
    if steps == [] then s else Run(Next(s, steps[0]), steps[1..])
  }

  function Seeds(n: nat): seq<Step> {
    seq(n, i => Step.Seed)
  }

  lemma OneStep(s: Server, step: Step)
    requires Enabled(s, step)
    ensures Valid(s, [step]) && Run(s, [step]) == Next(s, step)
  {
    hide Next, Enabled;
    assert [step][1..] == [];
  }

  lemma {:induction false} RunAppend(s: Server, a: seq<Step>, b: seq<Step>)
    requires Valid(s, a) && Valid(Run(s, a), b)
    ensures Valid(s, a + b) && Run(s, a + b) == Run(Run(s, a), b)
    decreases |a|
  {
    hide Next, Enabled;
    if a == [] {
      assert a + b == b;
    } else {
      assert (a + b)[0] == a[0] && (a + b)[1..] == a[1..] + b;
      RunAppend(Next(s, a[0]), a[1..], b);
    }
  }

  // ---- the indices outside the ring

  function MessageOwner(m: Message): multiset<nat> {
    if m.Transmit? then multiset{m.packet.bufIdx} else multiset{}
  }

  function HandOwner(h: Option<Packet>): multiset<nat> {
    if h.Some? then multiset{h.value.bufIdx} else multiset{}
  }

  function ShardOwner(sh: Shard): multiset<nat> {
    Bag(sh.queue, MessageOwner) + HandOwner(sh.inHand)
  }

  function ReturnOwner(m: SendRequest): multiset<nat> {
    multiset{m.bufIdx}
  }

  /** Every index the ring has passed on is in one queue, in one shard's hand, or on the way back. */
  ghost predicate LinkOk(s: Server) {
    s.ring.held == Bag(s.shards, ShardOwner) + Bag(s.sqeQueue, ReturnOwner)
  }

  /** A packet that waits in `sh`. */
  predicate InShard(sh: Shard, p: Packet) {
    Transmit(p) in sh.queue || sh.inHand == Some(p)
  }

  lemma ShardPacketHeld(s: Server, sh: Shard, p: Packet)
    requires LinkOk(s) && sh in s.shards && InShard(sh, p)
    ensures p.bufIdx in s.ring.held
  {
    BagMember(s.shards, ShardOwner, sh);
    if Transmit(p) in sh.queue {
      BagMember(sh.queue, MessageOwner, Transmit(p));
    }
    assert p.bufIdx in ShardOwner(sh);
  }

  lemma ReturnHeld(s: Server, m: SendRequest)
    requires LinkOk(s) && m in s.sqeQueue
    ensures m.bufIdx in s.ring.held
  {
    BagMember(s.sqeQueue, ReturnOwner, m);
    assert m.bufIdx in ReturnOwner(m);
  }

  lemma EnqueueOwner(sh: Shard, m: Message)
    requires |sh.queue| < QUEUE_CAPACITY
    ensures ShardOwner(Enqueue(sh, m)) == ShardOwner(sh) + MessageOwner(m)
  {
    hide Bag;
    BagSnoc(sh.queue, m, MessageOwner);
  }

  lemma ShardReplaced(shards: seq<Shard>, k: nat, sh: Shard)
    requires k < |shards|
    ensures ShardOwner(shards[k]) <= Bag(shards, ShardOwner)
    ensures Bag(shards[k := sh], ShardOwner)
         == Bag(shards, ShardOwner) - ShardOwner(shards[k]) + ShardOwner(sh)
  {
    BagUpdate(shards, k, sh, ShardOwner);
  }

  lemma RegisterLink(s: Server, session: Session)
    requires LinkOk(s) && s.nextShard < |s.shards|
    ensures LinkOk(RegisterSession(s, session))
  {
    hide Bag;
    var sh := s.shards[s.nextShard];
    ShardReplaced(s.shards, s.nextShard, Enqueue(sh, AddSession(session)));
    if |sh.queue| < QUEUE_CAPACITY {
      EnqueueOwner(sh, AddSession(session));
    }
  }

  lemma DequeueOwner(sh: Shard, id: Uuid)
    requires sh.queue != [] && sh.inHand.None?
    ensures ShardOwner(Dequeue(sh, id)) == ShardOwner(sh)
  {
    hide Bag;
    BagHead(sh.queue, MessageOwner);
  }

  lemma TakeLink(s: Server, k: nat, id: Uuid)
    requires LinkOk(s) && k < |s.shards| && s.shards[k].queue != [] && s.shards[k].inHand.None?
    ensures LinkOk(s.(shards := s.shards[k := Dequeue(s.shards[k], id)]))
  {
    hide Bag;
    DequeueOwner(s.shards[k], id);
    ShardReplaced(s.shards, k, Dequeue(s.shards[k], id));
  }

  lemma EmptyHandOwner(sh: Shard)
    requires sh.inHand.Some?
    ensures ShardOwner(sh) == ShardOwner(sh.(inHand := None)) + multiset{sh.inHand.value.bufIdx}
  {
    hide Bag;
  }

  lemma HandleLink(s: Server, k: nat)
    requires LinkOk(s) && k < |s.shards| && s.shards[k].inHand.Some?
    ensures LinkOk(HandlePacket(s, k))
  {
    hide Bag;
    var sh, t := s.shards[k], HandlePacket(s, k);
    var p := sh.inHand.value;
    ShardReplaced(s.shards, k, sh.(inHand := None));
    EmptyHandOwner(sh);
    MovesOut(Bag(s.shards, ShardOwner), Bag(s.sqeQueue, ReturnOwner), ShardOwner(sh),
             ShardOwner(sh.(inHand := None)), p.bufIdx);
    if Answer(s, k).Some? {
      BagSnoc(s.sqeQueue, Answer(s, k).value, ReturnOwner);
    }
  }

  lemma SendLink(s: Server, spent: nat)
    requires LinkOk(s) && s.sqeQueue != []
    ensures LinkOk(ProcessReturn(s, spent))
  {
    hide Bag;
    BagHead(s.sqeQueue, ReturnOwner);
  }

  lemma RouteLink(s: Server, p: Packet)
    requires s.ring.held == Bag(s.shards, ShardOwner) + Bag(s.sqeQueue, ReturnOwner) + multiset{p.bufIdx}
    ensures LinkOk(Route(s, p))
  {
    hide Bag;
    var k := Target(s, p.src);
    if k.Some? {
      var sh := s.shards[k.value];
      ShardReplaced(s.shards, k.value, Enqueue(sh, Transmit(p)));
      EnqueueOwner(sh, Transmit(p));
      MovesIn(Bag(s.shards, ShardOwner), Bag(s.sqeQueue, ReturnOwner), ShardOwner(sh), p.bufIdx);
    }
  }

  /** A send completion changes nothing but the ring and the time stamps. */
  ghost predicate SameQueues(s: Server, t: Server) {
    && t.shards == s.shards && t.sqeQueue == s.sqeQueue
    && t.endpointToShard == s.endpointToShard && t.nextShard == s.nextShard
    && t.partner == s.partner && t.wants == s.wants && t.via == s.via
  }

  lemma TakeTimingRest(s: Server, i: nat)
    ensures TakeTiming(s, i).ring == s.ring && SameQueues(s, TakeTiming(s, i))
  {
    hide IsComplete;
    if i in s.timing && !IsComplete(s.timing[i]) {
    }
  }

  lemma FinishSendRest(s: Server)
    requires s.ring.cq != []
    ensures FinishSend(s).ring == Complete(s.ring) && SameQueues(s, FinishSend(s))
  {
    hide Complete, DecodeToken, TakeTiming;
    TakeTimingRest(s.(ring := Complete(s.ring)), DecodeToken(s.ring.cq[0].token).1);
  }

  lemma CompleteTicket(s: Server)
    requires s.ring.cq != []
    ensures Receiving(s) ==> HandsOut(s.ring, Complete(s.ring), Arriving(s).bufIdx)
    ensures !Receiving(s) ==> SameOutside(s.ring, Complete(s.ring))
  {
    hide Complete, DecodeToken;
    CompleteHeld(s.ring);
  }

  lemma CompletionLink(s: Server)
    requires LinkOk(s) && s.ring.cq != []
    ensures LinkOk(ProcessCompletion(s))
  {
    hide Bag, Route, Complete, Receiving, Arriving, FinishSend;
    CompleteTicket(s);
    if Receiving(s) {
      RouteLink(Taken(s, Arriving(s).bufIdx), Arriving(s));
    } else {
      FinishSendRest(s);
      SameHeldLink(s, FinishSend(s));
    }
  }

  lemma KernelLink(s: Server, k: KernelStep)
    requires LinkOk(s) && KernelEnabled(s.ring, k)
    ensures LinkOk(s.(ring := KernelNext(s.ring, k)))
  {
    hide KernelNext;
    KernelLeaves(s.ring, k);
    SameHeldLink(s, s.(ring := KernelNext(s.ring, k)));
  }

  lemma StepLink(s: Server, step: Step)
    requires LinkOk(s) && Enabled(s, step)
    ensures LinkOk(Next(s, step))
  {
    hide LinkOk, RegisterSession, ProcessReturn, ProcessCompletion, HandlePacket, KernelNext, Dequeue;
    match step
    case Register(session) => RegisterLink(s, session);
    case SendOne(spent) => SendLink(s, spent);
    case CompleteOne => CompletionLink(s);
    case ShardTake(k, id) => TakeLink(s, k, id);
    case ShardHandle(k) => HandleLink(s, k);
    case Kernel(k) => KernelLink(s, k);
    case Seed => SameHeldLink(s, Next(s, step));
    case SyncRing(_) => SameHeldLink(s, Next(s, step));
    case Elapse(_) => SameHeldLink(s, Next(s, step));
  }

  lemma SameHeldLink(s: Server, t: Server)
    requires LinkOk(s) && t.ring.held == s.ring.held && t.shards == s.shards && t.sqeQueue == s.sqeQueue
    ensures LinkOk(t)
  {
  }
}

/** Sharded routing refines one table: whatever the shards' queues delay, a packet goes to the
    partner its source had when the router took it, exactly if the last registration of that source
    did not get lost to a full queue. */
module RelayRouting {
  import opened Basics
  import opened Token
  import opened IoRing
  import opened IoRingSafety
  import opened Relay
  import opened RelaySafety

  lemma AfterSnoc(now: Option<Addr>, q: seq<Message>, m: Message, src: Addr)
    ensures After(now, q + [m], src)
         == if m.AddSession? && m.session.RouteTo(src).Some? then m.session.RouteTo(src) else After(now, q, src)
  {
    assert (q + [m])[..|q|] == q;
  }

  /** Working off the first message does not change where the rest of the queue leads. */
  lemma {:induction false} AfterFirst(now: Option<Addr>, q: seq<Message>, src: Addr)
    requires q != []
    ensures After(now, q, src) == After(After(now, q[..1], src), q[1..], src)
  {
    if |q| > 1 {
      var front, m := q[..|q| - 1], q[|q| - 1];
      assert q == front + [m] && q[1..] == front[1..] + [m] && q[..1] == front[..1];
      AfterFirst(now, front, src);
      AfterSnoc(now, front, m, src);
      AfterSnoc(After(now, q[..1], src), front[1..], m, src);
    }
  }

  // ---- the shards' own tables

  ghost predicate SessionsOk(sh: Shard) {
    forall a | a in sh.sessionId :: sh.sessionId[a] in sh.sessionTable
  }

  lemma SessionAdded(sh: Shard, id: Uuid, session: Session, src: Addr)
    requires SessionsOk(sh) && id !in sh.sessionTable
    ensures SessionsOk(sh.WithSession(id, session))
    ensures sh.WithSession(id, session).Lookup(src)
         == if session.RouteTo(src).Some? then session.RouteTo(src) else sh.Lookup(src)
  {
  }

  /** Taking the next message, a shard does what was foreseen. */
  lemma Foreseen(sh: Shard, id: Uuid, src: Addr, n: nat)
    requires SessionsOk(sh) && id !in sh.sessionTable && 0 < n <= |sh.queue|
    ensures After(Dequeue(sh, id).Lookup(src), sh.queue[1..n], src) == After(sh.Lookup(src), sh.queue[..n], src)
  {
    var q := sh.queue[..n];
    AfterFirst(sh.Lookup(src), q, src);
    assert q[1..] == sh.queue[1..n] && q[..1] == [] + [sh.queue[0]];
    AfterSnoc(sh.Lookup(src), [], sh.queue[0], src);
    if sh.queue[0].AddSession? {
      SessionAdded(sh.(queue := sh.queue[1..]), id, sh.queue[0].session, src);
      assert sh.(queue := sh.queue[1..]).Lookup(src) == sh.Lookup(src);
    } else {
      assert Dequeue(sh, id).Lookup(src) == sh.Lookup(src);
    }
  }

  // ---- the invariant

  /** `dest` is what was foretold for the packet in buffer `i` when it was queued. */
  predicate Wanted(ticketOf: map<nat, nat>, wants: map<nat, Option<Addr>>, i: nat, dest: Option<Addr>) {
    i in ticketOf && ticketOf[i] in wants && dest == wants[ticketOf[i]]
  }

  /** Each packet will find, when its turn comes, what was foretold for it. */
  ghost predicate ShardRoutes(sh: Shard, ticketOf: map<nat, nat>, wants: map<nat, Option<Addr>>) {
    && (forall j | 0 <= j < |sh.queue| && sh.queue[j].Transmit? ::
          Wanted(ticketOf, wants, sh.queue[j].packet.bufIdx,
                 After(sh.Lookup(sh.queue[j].packet.src), sh.queue[..j], sh.queue[j].packet.src)))
    && (sh.inHand.Some? ==> Wanted(ticketOf, wants, sh.inHand.value.bufIdx, sh.Lookup(sh.inHand.value.src)))
  }

  /** The shard of endpoint `a` ends up with the partner of its last registration. */
  ghost predicate EndpointOk(s: Server, a: Addr) {
    && a in s.endpointToShard && s.endpointToShard[a] < |s.shards| && a in s.partner
    && Foretold(s, a) == Some(s.partner[a])
  }

  ghost predicate ReturnsWanted(s: Server) {
    forall m | m in s.sqeQueue :: Wanted(s.ring.ticketOf, s.wants, m.bufIdx, Some(m.dest))
  }

  ghost predicate DestsWanted(s: Server) {
    forall t | t in s.ring.dests :: t in s.wants && s.wants[t] == Some(s.ring.dests[t])
  }

  ghost predicate ShardsOk(s: Server) {
    forall k | 0 <= k < |s.shards| ::
      SessionsOk(s.shards[k]) && ShardRoutes(s.shards[k], s.ring.ticketOf, s.wants)
  }

  ghost predicate RoutingOk(s: Server) {
    ShardsOk(s) && ReturnsWanted(s) && DestsWanted(s)
  }

  // ---- registration

  lemma EnqueueRoutes(sh: Shard, m: Message, ticketOf: map<nat, nat>, wants: map<nat, Option<Addr>>)
    requires SessionsOk(sh) && ShardRoutes(sh, ticketOf, wants)
    requires m.Transmit? ==>
      Wanted(ticketOf, wants, m.packet.bufIdx, After(sh.Lookup(m.packet.src), sh.queue, m.packet.src))
    ensures SessionsOk(Enqueue(sh, m)) && ShardRoutes(Enqueue(sh, m), ticketOf, wants)
  {
    hide Wanted, After;
    var t := Enqueue(sh, m);
    forall j | 0 <= j < |t.queue| && t.queue[j].Transmit?
      ensures Wanted(ticketOf, wants, t.queue[j].packet.bufIdx,
                     After(t.Lookup(t.queue[j].packet.src), t.queue[..j], t.queue[j].packet.src))
    {
      assert t.queue[..j] == sh.queue[..j];
      if j == |sh.queue| {
        assert t.queue[..j] == sh.queue;
      }
    }
  }

  lemma RegisterRoutes(s: Server, session: Session)
    requires TablesOk(s) && RoutingOk(s)
    ensures RoutingOk(RegisterSession(s, session))
  {
    hide After, ShardRoutes, SessionsOk, Wanted;
    EnqueueRoutes(s.shards[s.nextShard], AddSession(session), s.ring.ticketOf, s.wants);
  }

  // ---- the shards' steps

  lemma DequeueRoutes(sh: Shard, id: Uuid, ticketOf: map<nat, nat>, wants: map<nat, Option<Addr>>)
    requires SessionsOk(sh) && ShardRoutes(sh, ticketOf, wants)
    requires sh.queue != [] && sh.inHand.None? && id !in sh.sessionTable
    ensures SessionsOk(Dequeue(sh, id)) && ShardRoutes(Dequeue(sh, id), ticketOf, wants)
  {
    hide Wanted, After;
    var t := Dequeue(sh, id);
    forall j | 0 <= j < |t.queue| && t.queue[j].Transmit?
      ensures Wanted(ticketOf, wants, t.queue[j].packet.bufIdx,
                     After(t.Lookup(t.queue[j].packet.src), t.queue[..j], t.queue[j].packet.src))
    {
      Foreseen(sh, id, t.queue[j].packet.src, j + 1);
      DequeuedQueue(sh, id);
      assert sh.queue[1..][..j] == sh.queue[1..j + 1] && t.queue[j] == sh.queue[j + 1];
    }
    match sh.queue[0]
    case AddSession(session) => SessionAdded(sh.(queue := sh.queue[1..]), id, session, 0);
    case Transmit(p) =>
      assert sh.queue[..0] == [];
      AfterNothing(sh.Lookup(p.src), p.src);
      assert t.Lookup(p.src) == sh.Lookup(p.src);
  }

  lemma AfterNothing(now: Option<Addr>, src: Addr)
    ensures After(now, [], src) == now
  {
  }

  lemma TakeRoutes(s: Server, k: nat, id: Uuid)
    requires RoutingOk(s) && Enabled(s, ShardTake(k, id))
    ensures RoutingOk(Next(s, ShardTake(k, id)))
  {
    hide After, ShardRoutes, SessionsOk, Wanted, Dequeue;
    var t, sh := Next(s, ShardTake(k, id)), s.shards[k];
    DequeueRoutes(sh, id, s.ring.ticketOf, s.wants);
  }

  lemma DequeuedQueue(sh: Shard, id: Uuid)
    requires sh.queue != []
    ensures Dequeue(sh, id).queue == sh.queue[1..]
  {
  }

  /** Shards that differ at most in a packet no longer in hand. */
  lemma EmptyHandRoutes(s: Server, k: nat)
    requires RoutingOk(s) && k < |s.shards|
    ensures RoutingOk(EmptyHand(s, k))
  {
    hide After, Wanted;
    var t := EmptyHand(s, k);
    forall j | 0 <= j < |t.shards|
      ensures SessionsOk(t.shards[j]) && ShardRoutes(t.shards[j], t.ring.ticketOf, t.wants)
    {
      assert SessionsOk(s.shards[j]) && ShardRoutes(s.shards[j], s.ring.ticketOf, s.wants);
    }
  }

  /** What handle_packet answers is what was foretold for its packet; it has no answer only if none
      was foretold, or if the channel to the loop is full. */
  lemma AnswerWanted(s: Server, k: nat)
    requires RoutingOk(s) && k < |s.shards| && s.shards[k].inHand.Some?
    ensures var p, answer := s.shards[k].inHand.value, Answer(s, k);
      && p.bufIdx in s.ring.ticketOf && s.ring.ticketOf[p.bufIdx] in s.wants
      && var foretold := s.wants[s.ring.ticketOf[p.bufIdx]];
        && (answer.Some? ==> answer.value.bufIdx == p.bufIdx && foretold == Some(answer.value.dest))
        && (answer.None? ==> foretold.None? || |s.sqeQueue| >= s.ReturnCapacity())
  {
    hide ReturnsWanted, DestsWanted, After;
    assert ShardRoutes(s.shards[k], s.ring.ticketOf, s.wants);
  }

  lemma SameRoutes(s: Server, t: Server)
    requires RoutingOk(s) && SameTickets(s.ring, t.ring) && t.ring.dests == s.ring.dests
    requires t == s.(ring := t.ring, clock := t.clock, timing := t.timing, reports := t.reports,
                     panicked := t.panicked, sqeQueue := t.sqeQueue)
    requires forall m | m in t.sqeQueue && m !in s.sqeQueue ::
      Wanted(s.ring.ticketOf, s.wants, m.bufIdx, Some(m.dest))
    ensures RoutingOk(t)
  {
    hide After, ShardRoutes, SessionsOk, Wanted;
  }

  lemma HandleRoutes(s: Server, k: nat)
    requires RoutingOk(s) && k < |s.shards| && s.shards[k].inHand.Some?
    ensures RoutingOk(HandlePacket(s, k))
  {
    hide RoutingOk, Answer, Drop;
    EmptyHandRoutes(s, k);
    AnswerWanted(s, k);
    RingTickets(s.ring, s.shards[k].inHand.value.bufIdx, 0);
    DropRest(s.ring, s.shards[k].inHand.value.bufIdx);
    SameRoutes(EmptyHand(s, k), HandlePacket(s, k));
  }

  lemma SendRoutes(s: Server, spent: nat)
    requires RoutingOk(s) && s.sqeQueue != []
    ensures RoutingOk(ProcessReturn(s, spent))
  {
    hide ShardsOk, PostSend, MarkShardDone, MarkSendSqe;
    var m, t := s.sqeQueue[0], ProcessReturn(s, spent);
    assert Wanted(s.ring.ticketOf, s.wants, m.bufIdx, Some(m.dest));
    RingTickets(s.ring, m.bufIdx, m.dest);
    PostSendDests(s.ring, m.bufIdx, m.dest);
    forall r | r in t.sqeQueue ensures Wanted(t.ring.ticketOf, t.wants, r.bufIdx, Some(r.dest)) {
      assert Wanted(s.ring.ticketOf, s.wants, r.bufIdx, Some(r.dest));
    }
    TablesSurvive(s, t);
  }

  lemma PostSendDests(g: Ring, i: u16, dest: Addr)
    ensures PostSend(g, i, dest).dests == g.dests[TicketIn(g, i) := dest]
  {
  }

  lemma TablesSurvive(s: Server, t: Server)
    requires ShardsOk(s) && SameTickets(s.ring, t.ring)
    requires t.shards == s.shards && t.wants == s.wants
    ensures ShardsOk(t)
  {
    hide After, ShardRoutes, SessionsOk, Wanted;
  }

  // ---- an arrival

  /** What is wanted for buffer `j` does not depend on a new ticket `n` for another buffer. */
  ghost predicate Untouched(ticketOf: map<nat, nat>, i: nat, n: nat, j: nat) {
    j != i && (j in ticketOf ==> ticketOf[j] != n)
  }

  lemma FreshRoutes(sh: Shard, ticketOf: map<nat, nat>, wants: map<nat, Option<Addr>>, i: nat, n: nat,
                    wants': map<nat, Option<Addr>>)
    requires ShardRoutes(sh, ticketOf, wants) && wants' - {n} == wants - {n}
    requires forall p | InShard(sh, p) :: Untouched(ticketOf, i, n, p.bufIdx)
    ensures ShardRoutes(sh, ticketOf[i := n], wants')
  {
    hide After;
    forall p, dest | InShard(sh, p) && Wanted(ticketOf, wants, p.bufIdx, dest)
      ensures Wanted(ticketOf[i := n], wants', p.bufIdx, dest)
    {
      FreshWanted(ticketOf, wants, i, n, wants', p.bufIdx, dest);
    }
    forall j | 0 <= j < |sh.queue| && sh.queue[j].Transmit?
      ensures var p := sh.queue[j].packet;
        Wanted(ticketOf[i := n], wants', p.bufIdx, After(sh.Lookup(p.src), sh.queue[..j], p.src))
    {
      assert sh.queue[j] == Transmit(sh.queue[j].packet) && InShard(sh, sh.queue[j].packet);
    }
  }

  lemma FreshWanted(ticketOf: map<nat, nat>, wants: map<nat, Option<Addr>>, i: nat, n: nat,
                    wants': map<nat, Option<Addr>>, j: nat, dest: Option<Addr>)
    requires Wanted(ticketOf, wants, j, dest) && wants' - {n} == wants - {n} && Untouched(ticketOf, i, n, j)
    ensures Wanted(ticketOf[i := n], wants', j, dest)
  {
    assert ticketOf[j] in wants - {n};
    assert ticketOf[j] in wants' - {n};
    assert (wants' - {n})[ticketOf[j]] == wants'[ticketOf[j]];
  }

  /** Every packet on its way is untouched by the ticket of the arriving one. */
  lemma OthersUntouched(s: Server)
    requires RelayInv(s) && Receiving(s)
    ensures forall k, p | 0 <= k < |s.shards| && InShard(s.shards[k], p) ::
      Untouched(s.ring.ticketOf, Arriving(s).bufIdx, |s.ring.recvLog|, p.bufIdx)
    ensures forall m | m in s.sqeQueue ::
      Untouched(s.ring.ticketOf, Arriving(s).bufIdx, |s.ring.recvLog|, m.bufIdx)
  {
    hide RingInv, LinkOk, Receiving, Arriving, InShard;
    ArrivingElsewhere(s);
    forall k, p | 0 <= k < |s.shards| && InShard(s.shards[k], p)
      ensures Untouched(s.ring.ticketOf, Arriving(s).bufIdx, |s.ring.recvLog|, p.bufIdx)
    {
      assert PacketOk(s.ring.ticketOf, s.ring.recvLog, p);
    }
    forall m | m in s.sqeQueue
      ensures Untouched(s.ring.ticketOf, Arriving(s).bufIdx, |s.ring.recvLog|, m.bufIdx)
    {
      assert ReturnOk(s.ring.ticketOf, s.ring.recvLog, m);
    }
  }

  lemma NoSuchDest(g: Ring)
    requires RingInv(g)
    ensures |g.recvLog| !in g.dests
  {
  }

  /** The packet has been taken; `wants` may already say what is wanted for it. */
  lemma TakenRoutes(s: Server, wants: map<nat, Option<Addr>>)
    requires RelayInv(s) && RoutingOk(s) && Receiving(s)
    requires wants - {|s.ring.recvLog|} == s.wants - {|s.ring.recvLog|}
    ensures RoutingOk(Taken(s, Arriving(s).bufIdx).(wants := wants))
  {
    hide RelayInv, RingInv, Arriving, Complete, After, Wanted, ShardRoutes, SessionsOk, Untouched;
    var n, i, t := |s.ring.recvLog|, Arriving(s).bufIdx, Taken(s, Arriving(s).bufIdx).(wants := wants);
    OthersUntouched(s);
    CompleteTicket(s);
    assert t.ring.ticketOf == s.ring.ticketOf[i := n] && t.ring.dests == s.ring.dests;
    forall k | 0 <= k < |t.shards| ensures SessionsOk(t.shards[k]) && ShardRoutes(t.shards[k], t.ring.ticketOf, wants) {
      FreshRoutes(s.shards[k], s.ring.ticketOf, s.wants, i, n, wants);
    }
    forall m | m in t.sqeQueue ensures Wanted(t.ring.ticketOf, wants, m.bufIdx, Some(m.dest)) {
      FreshWanted(s.ring.ticketOf, s.wants, i, n, wants, m.bufIdx, Some(m.dest));
    }
    TakenDests(s, wants);
  }

  lemma TakenDests(s: Server, wants: map<nat, Option<Addr>>)
    requires RelayInv(s) && DestsWanted(s)
    requires wants - {|s.ring.recvLog|} == s.wants - {|s.ring.recvLog|}
    ensures forall t | t in s.ring.dests :: t in wants && wants[t] == Some(s.ring.dests[t])
  {
    NoSuchDest(s.ring);
    var n := |s.ring.recvLog|;
    forall t | t in s.ring.dests ensures t in wants && wants[t] == Some(s.ring.dests[t]) {
      assert t in s.wants - {n};
      assert t in wants - {n};
      assert (wants - {n})[t] == wants[t];
    }
  }

  lemma DeliverRoutes(s: Server, p: Packet, via: map<nat, nat>)
    requires RoutingOk(s) && Target(s, p.src).Some?
    requires Wanted(s.ring.ticketOf, s.wants, p.bufIdx, Foretold(s, p.src))
    ensures var k := s.endpointToShard[p.src];
      RoutingOk(s.(shards := s.shards[k := Enqueue(s.shards[k], Transmit(p))], via := via))
  {
    hide After, Wanted, ShardRoutes, SessionsOk;
    EnqueueRoutes(s.shards[s.endpointToShard[p.src]], Transmit(p), s.ring.ticketOf, s.wants);
  }

  /** What is foretold once packet `p` has been routed. */
  function WantsAfter(s: Server, n: nat, src: Addr): map<nat, Option<Addr>> {
    if Target(s, src).Some? then s.wants[n := Foretold(s, src)] else s.wants
  }

  lemma WantsAfterRest(s: Server, n: nat, src: Addr)
    ensures WantsAfter(s, n, src) - {n} == s.wants - {n}
  {
    var w := WantsAfter(s, n, src);
    assert (w - {n}).Keys == (s.wants - {n}).Keys;
  }

  lemma ArriveRoutes(s: Server)
    requires RelayInv(s) && RoutingOk(s) && Receiving(s)
    ensures RoutingOk(ProcessCompletion(s))
  {
    hide RelayInv, RoutingOk, Arriving, Complete, DropPacket, Enqueue, After;
    var n, p := |s.ring.recvLog|, Arriving(s);
    var w := WantsAfter(s, n, p.src);
    WantsAfterRest(s, n, p.src);
    TakenRoutes(s, w);
    CompleteTicket(s);
    var t := Taken(s, p.bufIdx).(wants := w);
    if Target(t, p.src).Some? {
      DeliverRoutes(t, p, s.via[n := t.endpointToShard[p.src]]);
    } else {
      DropPacketRoutes(t, p);
    }
  }

  lemma DropPacketRoutes(s: Server, p: Packet)
    requires RoutingOk(s)
    ensures RoutingOk(DropPacket(s, p))
  {
    hide RoutingOk;
    RingTickets(s.ring, p.bufIdx, 0);
    DropRest(s.ring, p.bufIdx);
    SameRoutes(s, DropPacket(s, p));
  }

  // ---- every run

  lemma FinishRoutes(s: Server)
    requires RoutingOk(s) && s.ring.cq != [] && !Receiving(s)
    ensures RoutingOk(ProcessCompletion(s))
  {
    hide ShardsOk, Receiving, FinishSend, Complete, Route;
    FinishSendRest(s);
    CompleteTicket(s);
    TablesSurvive(s, FinishSend(s));
    SameReturns(s, FinishSend(s));
  }

  lemma SameReturns(s: Server, t: Server)
    requires ReturnsWanted(s) && SameTickets(s.ring, t.ring) && t.wants == s.wants && t.sqeQueue == s.sqeQueue
    ensures ReturnsWanted(t)
  {
    hide Wanted;
  }

  lemma RingDests(g: Ring, n: nat)
    ensures g.pool.free != [] && g.pool.free[|g.pool.free| - 1] < INDEX_LIMIT ==> SeedNext(g).dests == g.dests
    ensures g.sq.Ok() && n <= |g.sq.Pending()| ==> Sync(g, n).dests == g.dests
  {
    hide Alloc, Push, EncodeToken;
  }

  lemma StepRoutes(s: Server, step: Step)
    requires RelayInv(s) && RoutingOk(s) && Enabled(s, step)
    ensures RoutingOk(Next(s, step))
  {
    hide RingInv, LinkOk, PacketsOk, RoutingOk, Receiving, ProcessCompletion, KernelNext, Answer, HandlePacket;
    hide SeedNext, Sync, ProcessReturn, Dequeue, Enqueue;
    match step
    case Register(session) => RegisterRoutes(s, session);
    case SendOne(spent) => SendRoutes(s, spent);
    case CompleteOne => if Receiving(s) { ArriveRoutes(s); } else { FinishRoutes(s); }
    case ShardTake(k, id) => TakeRoutes(s, k, id);
    case ShardHandle(k) => HandleRoutes(s, k);
    case Kernel(k) =>
      KernelLeaves(s.ring, k);
      SameRoutes(s, Next(s, step));
    case Seed =>
      RingTickets(s.ring, 0, 0);
      RingDests(s.ring, 0);
      SameRoutes(s, Next(s, step));
    case SyncRing(n) =>
      RingTickets(s.ring, n, 0);
      RingDests(s.ring, n);
      SameRoutes(s, Next(s, step));
    case Elapse(_) => SameRoutes(s, Next(s, step));
  }

  /** On every run each packet will go where its queue led when it was routed: whatever is registered
      or refused later, for its source or others, does not touch it. */
  lemma {:induction false} RunRoutes(s: Server, steps: seq<Step>)
    requires RelayInv(s) && RoutingOk(s) && Valid(s, steps)
    ensures RoutingOk(Run(s, steps))
    decreases |steps|
  {
    hide Next, Enabled, RelayInv, RoutingOk;
    if steps != [] {
      StepKeeps(s, steps[0]);
      StepRoutes(s, steps[0]);
      RunRoutes(Next(s, steps[0]), steps[1..]);
    }
  }

  lemma StartRoutes(n: nat, capacity: nat)
    ensures RoutingOk(Start(n, capacity))
  {
  }

  // ---- which registrations take effect

  predicate Registers(step: Step, a: Addr) {
    step.Register? && step.session.RouteTo(a).Some?
  }

  predicate RegistersNone(steps: seq<Step>, a: Addr) {
    forall step | step in steps :: !Registers(step, a)
  }

  /** The session gets into its shard's queue, or the shard would route `a` that way anyway. */
  predicate TakesEffect(s: Server, session: Session, a: Addr)
    requires s.nextShard < |s.shards|
  {
    var sh := s.shards[s.nextShard];
    |sh.queue| < QUEUE_CAPACITY || LeadsTo(sh, a) == session.RouteTo(a)
  }

  /** `a` is registered on this run, and the last time it is, that takes effect. */
  ghost predicate LastTakesEffect(s: Server, steps: seq<Step>, a: Addr)
    requires Valid(s, steps)
    decreases |steps|
  {
    steps != [] &&
    if Registers(steps[0], a) && RegistersNone(steps[1..], a) then TakesEffect(s, steps[0].session, a)
    else LastTakesEffect(Next(s, steps[0]), steps[1..], a)
  }

  /** With its queue full, a shard learns of a session only if it would have routed that way anyway. */
  lemma RegisterEndpoint(s: Server, session: Session, a: Addr)
    requires s.nextShard < |s.shards| && session.RouteTo(a).Some?
    ensures EndpointOk(RegisterSession(s, session), a) <==> TakesEffect(s, session, a)
  {
    var sh := s.shards[s.nextShard];
    AfterSnoc(sh.Lookup(a), sh.queue, AddSession(session), a);
  }

  lemma EnqueueLeads(sh: Shard, m: Message, a: Addr)
    requires m.AddSession? ==> m.session.RouteTo(a).None?
    ensures LeadsTo(Enqueue(sh, m), a) == LeadsTo(sh, a)
  {
    AfterSnoc(sh.Lookup(a), sh.queue, m, a);
  }

  lemma DequeueLeads(sh: Shard, id: Uuid, a: Addr)
    requires SessionsOk(sh) && sh.queue != [] && id !in sh.sessionTable
    ensures LeadsTo(Dequeue(sh, id), a) == LeadsTo(sh, a)
  {
    hide After;
    Foreseen(sh, id, a, |sh.queue|);
    DequeuedQueue(sh, id);
    assert sh.queue[..|sh.queue|] == sh.queue && sh.queue[1..|sh.queue|] == sh.queue[1..];
  }

  /** For `a` nothing has changed in the router's table and the shards. */
  ghost predicate LeadsAlike(s: Server, t: Server, a: Addr) {
    && (a in t.endpointToShard <==> a in s.endpointToShard)
    && (a in s.endpointToShard ==> t.endpointToShard[a] == s.endpointToShard[a])
    && (a in t.partner <==> a in s.partner) && (a in s.partner ==> t.partner[a] == s.partner[a])
    && |t.shards| == |s.shards|
    && (forall k | 0 <= k < |s.shards| :: LeadsTo(t.shards[k], a) == LeadsTo(s.shards[k], a))
  }

  lemma LeadsAlikeOk(s: Server, t: Server, a: Addr)
    requires LeadsAlike(s, t, a)
    ensures Foretold(t, a) == Foretold(s, a) && (EndpointOk(t, a) <==> EndpointOk(s, a))
  {
    hide LeadsTo;
  }

  lemma RouteLeads(s: Server, p: Packet, a: Addr)
    ensures LeadsAlike(s, Route(s, p), a)
  {
    hide LeadsTo, Enqueue, Drop;
    var k := Target(s, p.src);
    if k.Some? {
      EnqueueLeads(s.shards[k.value], Transmit(p), a);
    } else {
    }
  }

  lemma CompletionLeads(s: Server, a: Addr)
    requires s.ring.cq != []
    ensures LeadsAlike(s, ProcessCompletion(s), a)
  {
    hide LeadsTo, Arriving, Complete, Route, FinishSend;
    if Receiving(s) {
      RouteLeads(Taken(s, Arriving(s).bufIdx), Arriving(s), a);
    } else {
      FinishSendRest(s);
    }
  }

  /** Only its own registrations change where an endpoint's packets are led. */
  lemma StepLeads(s: Server, step: Step, a: Addr)
    requires ShardsOk(s) && Enabled(s, step) && !Registers(step, a)
    ensures LeadsAlike(s, Next(s, step), a)
  {
    hide LeadsTo, Enqueue, Dequeue, ProcessCompletion, KernelNext, Answer, SeedNext, Sync, PostSend, ShardRoutes;
    hide MarkShardDone, MarkSendSqe, SessionsOk, Drop;
    match step
    case Register(session) => EnqueueLeads(s.shards[s.nextShard], AddSession(session), a);
    case CompleteOne => CompletionLeads(s, a);
    case ShardTake(k, id) => DequeueLeads(s.shards[k], id, a);
    case ShardHandle(k) => HandleLeads(s, k, a);
    case _ =>
  }

  lemma HandleLeads(s: Server, k: nat, a: Addr)
    requires k < |s.shards| && s.shards[k].inHand.Some?
    ensures LeadsAlike(s, HandlePacket(s, k), a)
  {
    hide After, Answer, Drop;
  }

  lemma {:induction false} LastIsSome(s: Server, steps: seq<Step>, a: Addr)
    requires Valid(s, steps) && RegistersNone(steps, a)
    ensures !LastTakesEffect(s, steps, a)
    decreases |steps|
  {
    hide Next, Enabled;
    if steps != [] {
      assert steps[0] in steps;
      LastIsSome(Next(s, steps[0]), steps[1..], a);
    }
  }

  lemma {:induction false} EndpointsFollow(s: Server, steps: seq<Step>, a: Addr)
    requires RelayInv(s) && RoutingOk(s) && Valid(s, steps)
    ensures EndpointOk(Run(s, steps), a)
       <==> LastTakesEffect(s, steps, a) || (RegistersNone(steps, a) && EndpointOk(s, a))
    decreases |steps|
  {
    hide Next, Enabled, RelayInv, RoutingOk, EndpointOk, Registers, TakesEffect;
    if steps != [] {
      var t, rest := Next(s, steps[0]), steps[1..];
      StepKeeps(s, steps[0]);
      StepRoutes(s, steps[0]);
      EndpointsFollow(t, rest, a);
      assert steps == [steps[0]] + rest;
      if Registers(steps[0], a) {
        FirstRegisters(s, steps[0], a);
        if RegistersNone(rest, a) { LastIsSome(t, rest, a); }
      } else {
        FirstLeads(s, steps[0], a);
      }
    }
  }

  lemma FirstRegisters(s: Server, step: Step, a: Addr)
    requires Enabled(s, step) && Registers(step, a)
    ensures EndpointOk(Next(s, step), a) <==> TakesEffect(s, step.session, a)
  {
    hide EndpointOk, TakesEffect;
    RegisterEndpoint(s, step.session, a);
  }

  lemma FirstLeads(s: Server, step: Step, a: Addr)
    requires RoutingOk(s) && Enabled(s, step) && !Registers(step, a)
    ensures EndpointOk(Next(s, step), a) <==> EndpointOk(s, a)
  {
    hide Next, Enabled, EndpointOk, LeadsAlike;
    StepLeads(s, step, a);
    LeadsAlikeOk(s, Next(s, step), a);
  }

  /** On every run the shard of an endpoint is led to the partner of its last registration exactly if
      that registration took effect, whatever happened to others and to its earlier ones. */
  lemma RegistrationCounts(n: nat, capacity: nat, steps: seq<Step>, a: Addr)
    requires n > 0 && Valid(Start(n, capacity), steps)
    ensures EndpointOk(Run(Start(n, capacity), steps), a) <==> LastTakesEffect(Start(n, capacity), steps, a)
  {
    hide RelayInv, RoutingOk, Next, Enabled;
    StartInv(n, capacity);
    StartRoutes(n, capacity);
    EndpointsFollow(Start(n, capacity), steps, a);
  }

  /** Every session of `a` finds room in its shard's queue. */
  ghost predicate AlwaysRoom(s: Server, steps: seq<Step>, a: Addr)
    requires Valid(s, steps)
    decreases |steps|
  {
    steps == [] ||
    (&& (Registers(steps[0], a) ==> |s.shards[s.nextShard].queue| < QUEUE_CAPACITY)
     && AlwaysRoom(Next(s, steps[0]), steps[1..], a))
  }

  /** An endpoint whose registrations were never refused is always routed by its last one. */
  lemma {:induction false} RoomSuffices(s: Server, steps: seq<Step>, a: Addr)
    requires Valid(s, steps) && AlwaysRoom(s, steps, a) && !RegistersNone(steps, a)
    ensures LastTakesEffect(s, steps, a)
    decreases |steps|
  {
    hide Next, Enabled, Registers;
    assert steps == [steps[0]] + steps[1..];
    if !RegistersNone(steps[1..], a) {
      RoomSuffices(Next(s, steps[0]), steps[1..], a);
    } else {
      RegistersHere(s, steps[0], a);
    }
  }

  lemma RegistersHere(s: Server, step: Step, a: Addr)
    requires Enabled(s, step) && Registers(step, a)
    ensures step.Register? && s.nextShard < |s.shards|
  {
  }

  // ---- the theorem

  /** What is recorded about ticket `n` is final. */
  ghost predicate SameRecord(s: Server, t: Server, n: nat) {
    && n < |s.ring.recvLog| && n < |t.ring.recvLog| && t.ring.recvLog[n] == s.ring.recvLog[n]
    && (n in t.wants <==> n in s.wants) && (n in s.wants ==> t.wants[n] == s.wants[n])
    && (n in t.via <==> n in s.via) && (n in s.via ==> t.via[n] == s.via[n])
  }

  function ViaAfter(s: Server, n: nat, src: Addr): map<nat, nat> {
    if Target(s, src).Some? then s.via[n := Target(s, src).value] else s.via
  }

  /** All that is recorded when the loop takes a receive off the ring. */
  lemma ArrivalEffect(s: Server)
    requires Receiving(s)
    ensures var t, n := ProcessCompletion(s), |s.ring.recvLog|;
      && |t.ring.recvLog| == n + 1 && s.ring.recvLog <= t.ring.recvLog
      && t.ring.ticketOf == s.ring.ticketOf[Arriving(s).bufIdx := n]
      && t.wants == WantsAfter(s, n, Arriving(s).src) && t.via == ViaAfter(s, n, Arriving(s).src)
      && t.ring.asked == s.ring.asked && t.ring.dests == s.ring.dests
  {
    hide Arriving, Complete, Route;
    CompleteTicket(s);
    var p := Arriving(s);
    var t := Taken(s, p.bufIdx);
    assert TicketIn(t.ring, p.bufIdx) == |s.ring.recvLog|;
    assert Target(t, p.src) == Target(s, p.src);
    RouteEffect(t, p);
  }

  lemma RouteEffect(s: Server, p: Packet)
    ensures var t, n := Route(s, p), TicketIn(s.ring, p.bufIdx);
      && SameTickets(s.ring, t.ring) && t.ring.asked == s.ring.asked && t.ring.dests == s.ring.dests
      && t.wants == WantsAfter(s, n, p.src) && t.via == ViaAfter(s, n, p.src)
  {
    hide Drop, Enqueue;
    DropRest(s.ring, p.bufIdx);
    if Target(s, p.src).Some? {
    } else {
    }
  }

  lemma DropRest(g: Ring, i: nat)
    ensures SameTickets(g, Drop(g, i)) && Drop(g, i).dests == g.dests && Drop(g, i).asked == g.asked
  {
  }

  lemma StepRecord(s: Server, step: Step, n: nat)
    requires Enabled(s, step) && n < |s.ring.recvLog|
    ensures SameRecord(s, Next(s, step), n)
  {
    hide Receiving, Arriving, ProcessCompletion, Next;
    if step.CompleteOne? && Receiving(s) {
      NextCompletion(s);
      ArrivalEffect(s);
    } else {
      StepTickets(s, step);
    }
  }

  lemma {:induction false} RunRecord(s: Server, steps: seq<Step>, n: nat)
    requires Valid(s, steps) && n < |s.ring.recvLog|
    ensures SameRecord(s, Run(s, steps), n)
    decreases |steps|
  {
    hide Next, Enabled;
    if steps != [] {
      StepRecord(s, steps[0], n);
      RunRecord(Next(s, steps[0]), steps[1..], n);
    }
  }

  /** Every ticket was handed out by one step, the processing of one receive. */
  lemma {:induction false} TicketArrival(s: Server, steps: seq<Step>, n: nat)
    returns (before: seq<Step>, after: seq<Step>)
    requires Valid(s, steps) && |s.ring.recvLog| <= n < |Run(s, steps).ring.recvLog|
    ensures steps == before + [CompleteOne] + after
    ensures Valid(s, before) && Valid(Run(s, before), [CompleteOne] + after)
    ensures Run(Run(s, before), [CompleteOne] + after) == Run(s, steps)
    ensures Receiving(Run(s, before)) && |Run(s, before).ring.recvLog| == n
    decreases |steps|
  {
    hide Next, Enabled, Receiving;
    var t, rest := Next(s, steps[0]), steps[1..];
    LogGrows(s, steps[0]);
    if n < |t.ring.recvLog| {
      before, after := [], rest;
      assert steps == [] + [CompleteOne] + after && [CompleteOne] + after == steps;
    } else {
      before, after := TicketArrival(t, rest, n);
      assert steps == [steps[0]] + rest && ([steps[0]] + before)[1..] == before;
      before := [steps[0]] + before;
    }
  }

  lemma LogGrows(s: Server, step: Step)
    requires Enabled(s, step)
    ensures |s.ring.recvLog| <= |Next(s, step).ring.recvLog| <= |s.ring.recvLog| + 1
    ensures |Next(s, step).ring.recvLog| > |s.ring.recvLog| ==> step.CompleteOne? && Receiving(s)
  {
    hide Receiving, Arriving, ProcessCompletion, Next;
    if step.CompleteOne? && Receiving(s) {
      NextCompletion(s);
      ArrivalEffect(s);
    } else {
      StepTickets(s, step);
    }
  }

  /** Records are about tickets that have been handed out. */
  ghost predicate RecordsOk(s: Server) {
    (forall t | t in s.wants :: t < |s.ring.recvLog|) && (forall t | t in s.via :: t < |s.ring.recvLog|)
  }

  lemma StepRecordsOk(s: Server, step: Step)
    requires RecordsOk(s) && Enabled(s, step)
    ensures RecordsOk(Next(s, step))
  {
    hide Receiving, Arriving, ProcessCompletion, Next;
    if step.CompleteOne? && Receiving(s) {
      NextCompletion(s);
      ArrivalEffect(s);
    } else {
      StepTickets(s, step);
    }
  }

  lemma {:induction false} RunRecordsOk(s: Server, steps: seq<Step>)
    requires RecordsOk(s) && Valid(s, steps)
    ensures RecordsOk(Run(s, steps))
    decreases |steps|
  {
    hide Next, Enabled, RecordsOk;
    if steps != [] {
      StepRecordsOk(s, steps[0]);
      RunRecordsOk(Next(s, steps[0]), steps[1..]);
    }
  }

  /** On every run, what is sent for a datagram starts with the bytes the kernel received, and goes
      to the partner that its source had when the loop took it off the ring exactly if the last
      registration of this source had taken effect: nothing else that was or will be registered,
      routed or refused matters. If the router had no room for the datagram or did not know its
      source, nothing is sent for it. */
  lemma RelayedToPartner(n: nat, capacity: nat, before: seq<Step>, after: seq<Step>, e: Sent)
    requires n > 0 && Valid(Start(n, capacity), before)
    requires var s := Run(Start(n, capacity), before);
      && Receiving(s) && Valid(s, [CompleteOne] + after)
      && e in Run(s, [CompleteOne] + after).ring.wire && e.ticket == |s.ring.recvLog|
    ensures var s, p := Run(Start(n, capacity), before), Arriving(Run(Start(n, capacity), before));
      && Target(s, p.src).Some? && p.src in s.partner
      && (e.dest == s.partner[p.src] <==> LastTakesEffect(Start(n, capacity), before, p.src))
      && p.bufIdx in s.ring.origin && s.ring.origin[p.bufIdx].src == p.src
      && |e.data| == 1500 && p.len <= 1500 && e.data[..p.len] == s.ring.origin[p.bufIdx].data
  {
    hide Next, Enabled, Start, RelayInv, RoutingOk, RecordsOk, Receiving, Arriving, Target, Foretold;
    StartInv(n, capacity);
    StartRoutes(n, capacity);
    StartRecords(n, capacity);
    var s := Run(Start(n, capacity), before);
    RunKeeps(Start(n, capacity), before);
    RunRecordsOk(Start(n, capacity), before);
    RunRoutes(Start(n, capacity), before);
    SentAsForetold(s, after, e);
    RegistrationCounts(n, capacity, before, Arriving(s).src);
    TargetRegistered(s, Arriving(s).src);
  }

  lemma TargetRegistered(s: Server, src: Addr)
    requires RelayInv(s) && Target(s, src).Some?
    ensures src in s.endpointToShard && s.endpointToShard[src] < |s.shards| && src in s.partner
  {
    hide RingInv, LinkOk, PacketsOk;
  }

  lemma StartRecords(n: nat, capacity: nat)
    ensures RecordsOk(Start(n, capacity))
  {
  }

  lemma SentAsForetold(s: Server, after: seq<Step>, e: Sent)
    requires RelayInv(s) && RoutingOk(s) && RecordsOk(s) && Receiving(s) && Valid(s, [CompleteOne] + after)
    requires e in Run(s, [CompleteOne] + after).ring.wire && e.ticket == |s.ring.recvLog|
    ensures var p := Arriving(s);
      && Target(s, p.src).Some? && Foretold(s, p.src) == Some(e.dest)
      && p.bufIdx in s.ring.origin && s.ring.origin[p.bufIdx].src == p.src
      && |e.data| == BUFFER_SIZE && p.len <= BUFFER_SIZE && e.data[..p.len] == s.ring.origin[p.bufIdx].data
  {
    hide RelayInv, RoutingOk, Receiving, Arriving, Target, Foretold, ProcessCompletion, RingInv;
    var t, steps := Next(s, CompleteOne), [CompleteOne] + after;
    assert steps[0] == CompleteOne && steps[1..] == after;
    RunKeeps(s, steps);
    RunRoutes(s, steps);
    ArrivalEffect(s);
    ArrivalStored(s);
    RunRecord(t, after, e.ticket);
    OnTheWire(Run(s, steps), e);
  }

  lemma OnTheWire(s: Server, e: Sent)
    requires RelayInv(s) && RoutingOk(s) && e in s.ring.wire
    ensures SentOk(s.ring, e) && e.ticket in s.wants && s.wants[e.ticket] == Some(e.dest)
  {
    hide LinkOk, PacketsOk, TablesOk, ShardsOk, ReturnsWanted, OwnedOk, SendsOk, PointersOk;
    hide MemoryOk, TicketsOk;
    assert SentOk(s.ring, e);
  }

  lemma ArrivalStored(s: Server)
    requires RelayInv(s) && Receiving(s)
    ensures var p := Arriving(s);
      && p.bufIdx in s.ring.origin && s.ring.origin[p.bufIdx].src == p.src && |s.ring.origin[p.bufIdx].data| == p.len
      && ProcessCompletion(s).ring.recvLog[|s.ring.recvLog|..] == [s.ring.origin[p.bufIdx]]
      && (Target(s, p.src).Some? ==> p.src in s.partner)
  {
    hide LinkOk, PacketsOk, OwnedOk, SendsOk, ContentsOk, Complete, Drop, Enqueue;
    assert CompletionOk(s.ring, s.ring.cq[0]);
    CompleteTicket(s);
    ArrivalEffect(s);
    ArrivalLog(s);
  }

  lemma ArrivalLog(s: Server)
    requires Receiving(s)
    ensures ProcessCompletion(s).ring.recvLog == Complete(s.ring).recvLog
  {
    hide Arriving, Complete, Drop, Enqueue;
    var p := Arriving(s);
    RingTickets(Complete(s.ring), p.bufIdx, 0);
    if Target(Taken(s, p.bufIdx), p.src).Some? {
    } else {
    }
  }
}

/** The relay never reorders a session: along shard queue, shard and return channel, packets that
    took the same shard keep the order in which the loop received them, whatever is dropped. */
module RelayOrder {
  import opened Basics
  import opened Token
  import opened IoRing
  import opened IoRingSafety
  import opened Relay
  import opened RelaySafety
  import opened RelayRouting

  // ---- tickets in a shard and on the way back

  function TicketOf(ticketOf: map<nat, nat>, i: nat): nat {
    if i in ticketOf then ticketOf[i] else 0
  }

  function Tickets(ticketOf: map<nat, nat>, q: seq<Message>): seq<nat> {
    if q == [] then []
    else
      var m := q[|q| - 1];
      Tickets(ticketOf, q[..|q| - 1]) + MessageTicket(ticketOf, m)
  }

  function MessageTicket(ticketOf: map<nat, nat>, m: Message): seq<nat> {
    if m.Transmit? then [TicketOf(ticketOf, m.packet.bufIdx)] else []
  }

  lemma TicketsSnoc(ticketOf: map<nat, nat>, q: seq<Message>, m: Message)
    ensures Tickets(ticketOf, q + [m]) == Tickets(ticketOf, q) + MessageTicket(ticketOf, m)
  {
    assert (q + [m])[..|q|] == q;
  }

  lemma {:induction false} TicketsHead(ticketOf: map<nat, nat>, q: seq<Message>)
    requires q != []
    ensures Tickets(ticketOf, q) == MessageTicket(ticketOf, q[0]) + Tickets(ticketOf, q[1..])
  {
    hide MessageTicket;
    if |q| == 1 {
      assert q == [] + [q[0]];
      TicketsSnoc(ticketOf, [], q[0]);
    } else {
      var front, m := q[..|q| - 1], q[|q| - 1];
      assert q == front + [m] && q[1..] == front[1..] + [m];
      TicketsSnoc(ticketOf, front, m);
      TicketsSnoc(ticketOf, front[1..], m);
      TicketsHead(ticketOf, front);
    }
  }

  lemma {:induction false} TicketsFrame(ticketOf: map<nat, nat>, q: seq<Message>, i: nat, n: nat)
    requires forall p | Transmit(p) in q :: p.bufIdx != i
    ensures Tickets(ticketOf[i := n], q) == Tickets(ticketOf, q)
  {
    if q != [] {
      assert q[|q| - 1] in q;
      TicketsFrame(ticketOf, q[..|q| - 1], i, n);
    }
  }

  /** The tickets in shard `sh`, next to leave first. */
  function Queued(ticketOf: map<nat, nat>, sh: Shard): seq<nat> {
    (if sh.inHand.Some? then [TicketOf(ticketOf, sh.inHand.value.bufIdx)] else []) + Tickets(ticketOf, sh.queue)
  }

  function ReturnTickets(ticketOf: map<nat, nat>, q: seq<SendRequest>): seq<nat> {
    seq(|q|, i requires 0 <= i < |q| => TicketOf(ticketOf, q[i].bufIdx))
  }

  /** The tickets that have left the shards, in order: those asked for and those to be asked for. */
  function Returned(s: Server): seq<nat> {
    s.ring.asked + ReturnTickets(s.ring.ticketOf, s.sqeQueue)
  }

  // ---- the invariant

  ghost predicate Ascending(x: seq<nat>) {
    forall i, j | 0 <= i < j < |x| :: x[i] < x[j]
  }

  ghost predicate AllVia(via: map<nat, nat>, x: seq<nat>, k: nat) {
    forall t | t in x :: t in via && via[t] == k
  }

  /** Of two tickets through one shard, the earlier is returned first. */
  ghost predicate ReturnsInOrder(via: map<nat, nat>, x: seq<nat>) {
    && (forall t | t in x :: t in via)
    && (forall i, j | 0 <= i < j < |x| && x[i] in via && x[j] in via && via[x[i]] == via[x[j]] :: x[i] < x[j])
  }

  /** What is still in shard `k` is later than all that has left it. */
  ghost predicate Behind(via: map<nat, nat>, x: seq<nat>, k: nat, y: seq<nat>) {
    forall t, u | t in x && u in y && t in via && via[t] == k :: t < u
  }

  ghost predicate QueueInOrder(via: map<nat, nat>, x: seq<nat>, k: nat, y: seq<nat>) {
    Ascending(y) && AllVia(via, y, k) && Behind(via, x, k, y)
  }

  ghost predicate InOrder(via: map<nat, nat>, x: seq<nat>, queued: seq<seq<nat>>) {
    && ReturnsInOrder(via, x)
    && (forall k | 0 <= k < |queued| :: QueueInOrder(via, x, k, queued[k]))
  }

  function AllQueued(s: Server): seq<seq<nat>> {
    seq(|s.shards|, k requires 0 <= k < |s.shards| => Queued(s.ring.ticketOf, s.shards[k]))
  }

  ghost predicate OrderOk(s: Server) {
    InOrder(s.via, Returned(s), AllQueued(s))
  }

  // ---- steps on the tickets alone

  lemma QueueJoins(via: map<nat, nat>, x: seq<nat>, k: nat, y: seq<nat>, n: nat)
    requires QueueInOrder(via, x, k, y) && (forall t | t in via :: t < n) && (forall t | t in x :: t in via)
    ensures QueueInOrder(via[n := k], x, k, y + [n])
  {
    var v, z := via[n := k], y + [n];
    forall i, j | 0 <= i < j < |z| ensures z[i] < z[j] {
      assert z[i] in y;
    }
    forall t, u | t in x && u in z && t in v && v[t] == k ensures t < u {
      assert t in via && t < n;
    }
  }

  lemma QueueWaits(via: map<nat, nat>, x: seq<nat>, k: nat, j: nat, y: seq<nat>, n: nat)
    requires QueueInOrder(via, x, j, y) && (forall t | t in via :: t < n) && (forall t | t in x :: t in via)
    ensures QueueInOrder(via[n := k], x, j, y)
  {
  }

  /** A fresh ticket joins queue `k`. */
  lemma JoinsInOrder(via: map<nat, nat>, x: seq<nat>, queued: seq<seq<nat>>, k: nat, n: nat)
    requires InOrder(via, x, queued) && k < |queued| && (forall t | t in via :: t < n)
    ensures InOrder(via[n := k], x, queued[k := queued[k] + [n]])
  {
    hide QueueInOrder;
    var y := queued[k := queued[k] + [n]];
    forall j | 0 <= j < |y| ensures QueueInOrder(via[n := k], x, j, y[j]) {
      assert QueueInOrder(via, x, j, queued[j]);
      if j == k {
        QueueJoins(via, x, k, queued[k], n);
      } else {
        QueueWaits(via, x, k, j, queued[j], n);
      }
    }
    forall i | 0 <= i < |x| ensures x[i] in via && x[i] != n {
      assert x[i] in x;
    }
  }

  lemma QueueShrinks(via: map<nat, nat>, x: seq<nat>, k: nat, y: seq<nat>)
    requires QueueInOrder(via, x, k, y) && y != []
    ensures QueueInOrder(via, x, k, y[1..])
    ensures QueueInOrder(via, x + [y[0]], k, y[1..])
  {
    forall u | u in y[1..] ensures u in y && y[0] < u {
      var j :| 0 <= j < |y[1..]| && y[1..][j] == u;
      assert y[j + 1] == u;
    }
  }

  /** The head of queue `k` is dropped. */
  lemma DropsInOrder(via: map<nat, nat>, x: seq<nat>, queued: seq<seq<nat>>, k: nat)
    requires InOrder(via, x, queued) && k < |queued| && queued[k] != []
    ensures InOrder(via, x, queued[k := queued[k][1..]])
  {
    hide QueueInOrder;
    assert QueueInOrder(via, x, k, queued[k]);
    QueueShrinks(via, x, k, queued[k]);
  }

  /** The head of queue `k` leaves the shard. */
  lemma LeavesInOrder(via: map<nat, nat>, x: seq<nat>, queued: seq<seq<nat>>, k: nat)
    requires InOrder(via, x, queued) && k < |queued| && queued[k] != []
    ensures InOrder(via, x + [queued[k][0]], queued[k := queued[k][1..]])
  {
    hide QueueInOrder;
    var t, y := queued[k][0], queued[k := queued[k][1..]];
    assert QueueInOrder(via, x, k, queued[k]);
    QueueShrinks(via, x, k, queued[k]);
    HeadLast(via, x, k, queued[k]);
    forall j | 0 <= j < |y| ensures QueueInOrder(via, x + [t], j, y[j]) {
      if j != k {
        OtherLeaves(via, x, j, queued[j], t);
      }
    }
  }

  lemma HeadLast(via: map<nat, nat>, x: seq<nat>, k: nat, y: seq<nat>)
    requires ReturnsInOrder(via, x) && QueueInOrder(via, x, k, y) && y != []
    ensures y[0] in via && via[y[0]] == k && ReturnsInOrder(via, x + [y[0]])
  {
    var z := x + [y[0]];
    assert y[0] in y;
    forall i, j | 0 <= i < j < |z| && z[i] in via && z[j] in via && via[z[i]] == via[z[j]] ensures z[i] < z[j] {
      assert z[i] in x;
    }
  }

  lemma OtherLeaves(via: map<nat, nat>, x: seq<nat>, j: nat, y: seq<nat>, t: nat)
    requires QueueInOrder(via, x, j, y) && t in via && via[t] != j
    ensures QueueInOrder(via, x + [t], j, y)
  {
  }

  // ---- the steps of the relay

  lemma SameOrder(s: Server, t: Server)
    requires OrderOk(s) && t.via == s.via && Returned(t) == Returned(s) && AllQueued(t) == AllQueued(s)
    ensures OrderOk(t)
  {
  }

  lemma QueuedReplaced(s: Server, t: Server, k: nat, sh: Shard)
    requires k < |s.shards| && t.shards == s.shards[k := sh] && t.ring.ticketOf == s.ring.ticketOf
    ensures AllQueued(t) == AllQueued(s)[k := Queued(s.ring.ticketOf, sh)]
    ensures Queued(s.ring.ticketOf, sh) == Queued(s.ring.ticketOf, s.shards[k]) ==> AllQueued(t) == AllQueued(s)
  {
    hide Queued;
  }

  lemma RegisterOrder(s: Server, session: Session)
    requires OrderOk(s) && s.nextShard < |s.shards|
    ensures OrderOk(RegisterSession(s, session))
  {
    hide OrderOk, Tickets;
    var sh := s.shards[s.nextShard];
    TicketsSnoc(s.ring.ticketOf, sh.queue, AddSession(session));
    QueuedReplaced(s, RegisterSession(s, session), s.nextShard, Enqueue(sh, AddSession(session)));
    SameOrder(s, RegisterSession(s, session));
  }

  lemma TakeOrder(s: Server, k: nat, id: Uuid)
    requires OrderOk(s) && k < |s.shards| && s.shards[k].queue != [] && s.shards[k].inHand.None?
    ensures OrderOk(s.(shards := s.shards[k := Dequeue(s.shards[k], id)]))
  {
    hide OrderOk, Tickets;
    var t := s.(shards := s.shards[k := Dequeue(s.shards[k], id)]);
    TicketsHead(s.ring.ticketOf, s.shards[k].queue);
    QueuedReplaced(s, t, k, Dequeue(s.shards[k], id));
    SameOrder(s, t);
  }

  lemma HandQueued(ticketOf: map<nat, nat>, sh: Shard)
    requires sh.inHand.Some?
    ensures Queued(ticketOf, sh)
         == [TicketOf(ticketOf, sh.inHand.value.bufIdx)] + Queued(ticketOf, sh.(inHand := None))
  {
  }

  lemma ReturnSnoc(ticketOf: map<nat, nat>, q: seq<SendRequest>, m: SendRequest)
    ensures ReturnTickets(ticketOf, q + [m]) == ReturnTickets(ticketOf, q) + [TicketOf(ticketOf, m.bufIdx)]
  {
  }

  lemma HandleReturned(s: Server, k: nat)
    requires k < |s.shards| && s.shards[k].inHand.Some?
    ensures var t := HandlePacket(s, k);
      Returned(t) == Returned(s) + if Answer(s, k).Some?
        then [TicketOf(s.ring.ticketOf, s.shards[k].inHand.value.bufIdx)] else []
  {
    hide Answer, Drop, TicketOf, ReturnTickets;
    HandleTickets(s, k);
    if Answer(s, k).Some? {
      AnswerIndex(s, k);
      ReturnSnoc(s.ring.ticketOf, s.sqeQueue, Answer(s, k).value);
    } else {
      DropRest(s.ring, s.shards[k].inHand.value.bufIdx);
    }
  }

  lemma HandleOrder(s: Server, k: nat)
    requires OrderOk(s) && k < |s.shards| && s.shards[k].inHand.Some?
    ensures OrderOk(HandlePacket(s, k))
  {
    hide InOrder, Returned, Queued, Drop, Answer;
    var t := HandlePacket(s, k);
    HandleTickets(s, k);
    HandleReturned(s, k);
    QueuedReplaced(s, t, k, s.shards[k].(inHand := None));
    HandQueued(s.ring.ticketOf, s.shards[k]);
    DropsInOrder(s.via, Returned(s), AllQueued(s), k);
    LeavesInOrder(s.via, Returned(s), AllQueued(s), k);
    assert AllQueued(s)[k][1..] == Queued(s.ring.ticketOf, s.shards[k].(inHand := None));
    assert Returned(s) + [] == Returned(s);
  }

  lemma AnswerIndex(s: Server, k: nat)
    requires k < |s.shards| && s.shards[k].inHand.Some? && Answer(s, k).Some?
    ensures Answer(s, k).value.bufIdx == s.shards[k].inHand.value.bufIdx
  {
  }

  lemma SendOrder(s: Server, spent: nat)
    requires OrderOk(s) && s.sqeQueue != []
    ensures OrderOk(ProcessReturn(s, spent))
  {
    hide InOrder, Queued, PostSend, MarkShardDone, MarkSendSqe;
    var t, m := ProcessReturn(s, spent), s.sqeQueue[0];
    RingTickets(s.ring, m.bufIdx, m.dest);
    PostSendAsked(s.ring, m.bufIdx, m.dest);
    assert Returned(t) == Returned(s);
    SameOrder(s, t);
  }

  lemma PostSendAsked(g: Ring, i: u16, dest: Addr)
    ensures PostSend(g, i, dest).asked == g.asked + [TicketOf(g.ticketOf, i)]
  {
  }

  /** A new ticket, for a buffer that nothing on its way is in. */
  lemma TakenOrder(s: Server, i: nat, n: nat, t: Server)
    requires t.shards == s.shards && t.sqeQueue == s.sqeQueue && t.ring.asked == s.ring.asked
    requires t.ring.ticketOf == s.ring.ticketOf[i := n]
    requires forall k, p | 0 <= k < |s.shards| && InShard(s.shards[k], p) :: p.bufIdx != i
    requires forall m | m in s.sqeQueue :: m.bufIdx != i
    ensures Returned(t) == Returned(s) && AllQueued(t) == AllQueued(s)
  {
    forall k | 0 <= k < |s.shards|
      ensures Queued(t.ring.ticketOf, t.shards[k]) == Queued(s.ring.ticketOf, s.shards[k])
    {
      TakenQueued(s.ring.ticketOf, s.shards[k], i, n);
    }
    assert ReturnTickets(t.ring.ticketOf, t.sqeQueue) == ReturnTickets(s.ring.ticketOf, s.sqeQueue);
  }

  lemma TakenQueued(ticketOf: map<nat, nat>, sh: Shard, i: nat, n: nat)
    requires forall p | InShard(sh, p) :: p.bufIdx != i
    ensures Queued(ticketOf[i := n], sh) == Queued(ticketOf, sh)
  {
    forall p | Transmit(p) in sh.queue ensures p.bufIdx != i {
      assert InShard(sh, p);
    }
    TicketsFrame(ticketOf, sh.queue, i, n);
    if sh.inHand.Some? {
      assert InShard(sh, sh.inHand.value);
    }
  }

  lemma RouteQueues(s: Server, p: Packet)
    ensures var t, n := Route(s, p), TicketOf(s.ring.ticketOf, p.bufIdx);
      && Returned(t) == Returned(s) && t.via == ViaAfter(s, n, p.src)
      && AllQueued(t) == if Target(s, p.src).None? then AllQueued(s)
           else var k := Target(s, p.src).value; AllQueued(s)[k := AllQueued(s)[k] + [n]]
  {
    hide Drop, Tickets;
    RouteEffect(s, p);
    DropRest(s.ring, p.bufIdx);
    if Target(s, p.src).Some? {
      var k := Target(s, p.src).value;
      var sh := s.shards[k];
      TicketsSnoc(s.ring.ticketOf, sh.queue, Transmit(p));
      QueuedReplaced(s, Route(s, p), k, Enqueue(sh, Transmit(p)));
      assert AllQueued(s)[k] + [TicketOf(s.ring.ticketOf, p.bufIdx)]
          == Queued(s.ring.ticketOf, Enqueue(sh, Transmit(p)));
    } else {
    }
  }

  lemma ArriveOrder(s: Server)
    requires RelayInv(s) && RecordsOk(s) && OrderOk(s) && Receiving(s)
    ensures OrderOk(ProcessCompletion(s))
  {
    hide RelayInv, InOrder, Arriving, Complete, Returned, AllQueued, Route;
    var n, p := |s.ring.recvLog|, Arriving(s);
    var t := Taken(s, p.bufIdx);
    CompleteTicket(s);
    ArrivingApart(s);
    TakenOrder(s, p.bufIdx, n, t);
    RouteQueues(t, p);
    if Target(t, p.src).Some? {
      QueuedCount(s);
      JoinsInOrder(s.via, Returned(s), AllQueued(s), Target(t, p.src).value, n);
    }
  }

  lemma QueuedCount(s: Server)
    ensures |AllQueued(s)| == |s.shards|
  {
  }

  lemma ArrivingApart(s: Server)
    requires RelayInv(s) && Receiving(s)
    ensures forall k, p | 0 <= k < |s.shards| && InShard(s.shards[k], p) :: p.bufIdx != Arriving(s).bufIdx
    ensures forall m | m in s.sqeQueue :: m.bufIdx != Arriving(s).bufIdx
  {
    hide RingInv, LinkOk;
    ArrivingElsewhere(s);
  }

  lemma QuietOrder(s: Server, t: Server)
    requires OrderOk(s) && t.via == s.via && SameTickets(s.ring, t.ring) && t.ring.asked == s.ring.asked
    requires t.shards == s.shards && t.sqeQueue == s.sqeQueue
    ensures OrderOk(t)
  {
    hide InOrder, Queued;
    assert AllQueued(t) == AllQueued(s);
  }

  lemma FinishOrder(s: Server)
    requires OrderOk(s) && s.ring.cq != [] && !Receiving(s)
    ensures OrderOk(ProcessCompletion(s))
  {
    hide OrderOk, Receiving, Route, FinishSend, Complete;
    FinishSendRest(s);
    CompleteTicket(s);
    QuietOrder(s, FinishSend(s));
  }

  lemma StepOrder(s: Server, step: Step)
    requires RelayInv(s) && RecordsOk(s) && OrderOk(s) && Enabled(s, step)
    ensures OrderOk(Next(s, step))
  {
    hide RingInv, LinkOk, PacketsOk, RecordsOk, OrderOk, Receiving, ProcessCompletion, KernelNext, HandlePacket;
    hide SeedNext, Sync, ProcessReturn, Dequeue, RegisterSession;
    match step
    case Register(session) => RegisterOrder(s, session);
    case SendOne(spent) => SendOrder(s, spent);
    case CompleteOne => if Receiving(s) { ArriveOrder(s); } else { FinishOrder(s); }
    case ShardTake(k, id) => TakeOrder(s, k, id);
    case ShardHandle(k) => HandleOrder(s, k);
    case Kernel(k) =>
      KernelLeaves(s.ring, k);
      QuietOrder(s, Next(s, step));
    case Seed =>
      RingTickets(s.ring, 0, 0);
      RingAsked(s.ring, 0);
      QuietOrder(s, Next(s, step));
    case SyncRing(n) =>
      RingTickets(s.ring, n, 0);
      RingAsked(s.ring, n);
      QuietOrder(s, Next(s, step));
    case Elapse(_) => QuietOrder(s, Next(s, step));
  }

  lemma RingAsked(g: Ring, n: nat)
    ensures g.pool.free != [] && g.pool.free[|g.pool.free| - 1] < INDEX_LIMIT ==> SeedNext(g).asked == g.asked
    ensures g.sq.Ok() && n <= |g.sq.Pending()| ==> Sync(g, n).asked == g.asked
  {
    hide Alloc, Push, EncodeToken;
  }

  lemma {:induction false} RunOrder(s: Server, steps: seq<Step>)
    requires RelayInv(s) && RecordsOk(s) && OrderOk(s) && Valid(s, steps)
    ensures OrderOk(Run(s, steps))
    decreases |steps|
  {
    hide Next, Enabled, RelayInv, RecordsOk, OrderOk;
    if steps != [] {
      StepKeeps(s, steps[0]);
      StepRecordsOk(s, steps[0]);
      StepOrder(s, steps[0]);
      RunOrder(Next(s, steps[0]), steps[1..]);
    }
  }

  lemma StartOrder(n: nat, capacity: nat)
    ensures OrderOk(Start(n, capacity))
  {
  }

  // ---- the theorems

  /** In every run, of two datagrams through one shard the one received first is asked for first. */
  lemma ShardKeepsOrder(n: nat, capacity: nat, steps: seq<Step>, i: nat, j: nat)
    requires n > 0 && Valid(Start(n, capacity), steps)
    requires var s := Run(Start(n, capacity), steps);
      && i < j < |s.ring.asked| && s.ring.asked[i] in s.via && s.ring.asked[j] in s.via
      && s.via[s.ring.asked[i]] == s.via[s.ring.asked[j]]
    ensures var s := Run(Start(n, capacity), steps);
      s.ring.asked[i] < s.ring.asked[j] < |s.ring.recvLog|
  {
    hide RelayInv, Next, Enabled, Start, InOrder;
    StartAll(n, capacity);
    RunOrder(Start(n, capacity), steps);
    RunRecordsOk(Start(n, capacity), steps);
    AskedInOrder(Run(Start(n, capacity), steps), i, j);
  }

  lemma StartAll(n: nat, capacity: nat)
    requires n > 0
    ensures RelayInv(Start(n, capacity)) && RecordsOk(Start(n, capacity)) && OrderOk(Start(n, capacity))
  {
    hide RelayInv, RecordsOk, OrderOk, Start;
    StartInv(n, capacity);
    StartRecords(n, capacity);
    StartOrder(n, capacity);
  }

  lemma AskedInOrder(s: Server, i: nat, j: nat)
    requires OrderOk(s) && i < j < |s.ring.asked|
    ensures s.ring.asked[i] in s.via && s.ring.asked[j] in s.via
    ensures s.via[s.ring.asked[i]] == s.via[s.ring.asked[j]] ==> s.ring.asked[i] < s.ring.asked[j]
  {
    var x := Returned(s);
    assert x[i] == s.ring.asked[i] && x[j] == s.ring.asked[j];
    assert x[i] in x && x[j] in x;
  }

  // A session whose endpoints are not registered again stays with its shard.

  predicate About(src: Addr, session: Session) {
    src == session.host || src == session.peer
  }

  predicate Mentions(step: Step, session: Session) {
    step.Register? && (About(step.session.host, session) || About(step.session.peer, session))
  }

  /** From ticket `from` on, everything of the session goes through shard `k`. */
  ghost predicate Pinned(s: Server, session: Session, k: nat, from: nat) {
    && (forall a | About(a, session) :: a in s.endpointToShard && s.endpointToShard[a] == k)
    && (forall t | t in s.via && OfSession(s, session, from, t) :: s.via[t] == k)
  }

  lemma ArrivalPinned(s: Server, session: Session, k: nat, from: nat)
    requires RelayInv(s) && RecordsOk(s) && Receiving(s) && Pinned(s, session, k, from)
    ensures Pinned(Next(s, CompleteOne), session, k, from)
  {
    hide RelayInv, Arriving, ProcessCompletion, Next;
    NextCompletion(s);
    ArrivalEffect(s);
    ArrivalStored(s);
    CompletionTables(s);
    var t, n := Next(s, CompleteOne), |s.ring.recvLog|;
    assert t.ring.recvLog[n] == t.ring.recvLog[n..][0];
    forall u | u in t.via && OfSession(t, session, from, u) ensures t.via[u] == k {
      if u != n { assert u in s.via && OfSession(s, session, from, u); }
    }
  }

  lemma StepPinned(s: Server, step: Step, session: Session, k: nat, from: nat)
    requires RelayInv(s) && RecordsOk(s) && Enabled(s, step)
    requires Pinned(s, session, k, from) && !Mentions(step, session)
    ensures Pinned(Next(s, step), session, k, from)
  {
    hide RelayInv, Receiving, Next;
    if step.CompleteOne? && Receiving(s) {
      ArrivalPinned(s, session, k, from);
    } else {
      StepTickets(s, step);
      EndpointsStay(s, step, session);
      var s' := Next(s, step);
      forall t | t in s'.via && OfSession(s', session, from, t) ensures s'.via[t] == k {
        assert OfSession(s, session, from, t);
      }
    }
  }

  /** Only a registration changes the router's table. */
  lemma TableStays(s: Server, step: Step)
    requires Enabled(s, step) && !step.Register?
    ensures Next(s, step).endpointToShard == s.endpointToShard
  {
    hide ProcessCompletion, HandlePacket, KernelNext, PostSend, Dequeue, SeedNext, Sync;
    match step
    case CompleteOne => CompletionTables(s);
    case ShardHandle(k) => HandleTables(s, k);
    case _ =>
  }

  lemma RegisterElsewhere(s: Server, other: Session, session: Session)
    requires Enabled(s, Register(other)) && !Mentions(Register(other), session)
    ensures forall a | About(a, session) && a in s.endpointToShard ::
      var t := Next(s, Register(other)).endpointToShard; a in t && t[a] == s.endpointToShard[a]
  {
    hide Enqueue;
  }

  lemma EndpointsStay(s: Server, step: Step, session: Session)
    requires Enabled(s, step) && !Mentions(step, session)
    ensures forall a | About(a, session) && a in s.endpointToShard ::
      a in Next(s, step).endpointToShard && Next(s, step).endpointToShard[a] == s.endpointToShard[a]
  {
    hide Next, Enabled;
    if step.Register? {
      RegisterElsewhere(s, step.session, session);
    } else {
      TableStays(s, step);
    }
  }

  lemma {:induction false} RunPinned(s: Server, steps: seq<Step>, session: Session, k: nat, from: nat)
    requires RelayInv(s) && RecordsOk(s) && Valid(s, steps) && Pinned(s, session, k, from)
    requires forall step | step in steps :: !Mentions(step, session)
    ensures Pinned(Run(s, steps), session, k, from)
    decreases |steps|
  {
    hide Next, Enabled, RelayInv, RecordsOk, Pinned, Mentions;
    if steps != [] {
      StepKeeps(s, steps[0]);
      StepRecordsOk(s, steps[0]);
      StepPinned(s, steps[0], session, k, from);
      RunPinned(Next(s, steps[0]), steps[1..], session, k, from);
    }
  }

  /** Ticket `t` is for a datagram of the session, received no earlier than ticket `from`. */
  predicate OfSession(s: Server, session: Session, from: nat, t: nat) {
    from <= t < |s.ring.recvLog| && About(s.ring.recvLog[t].src, session)
  }

  /** A session is registered and neither of its endpoints ever again: of what both endpoints send
      from then on, the datagrams are asked for in the order in which they were received, through
      any drops and any interleaving with other sessions. */
  lemma SessionKeepsOrder(n: nat, capacity: nat, before: seq<Step>, session: Session, after: seq<Step>,
                          i: nat, j: nat)
    requires n > 0 && Valid(Start(n, capacity), before)
    requires Valid(Run(Start(n, capacity), before), [Register(session)] + after)
    requires forall step | step in after :: !Mentions(step, session)
    requires var s, from := Run(Run(Start(n, capacity), before), [Register(session)] + after),
        |Run(Start(n, capacity), before).ring.recvLog|;
      && i < j < |s.ring.asked|
      && OfSession(s, session, from, s.ring.asked[i]) && OfSession(s, session, from, s.ring.asked[j])
    ensures var s := Run(Run(Start(n, capacity), before), [Register(session)] + after);
      s.ring.asked[i] < s.ring.asked[j]
  {
    hide RelayInv, Start, OrderOk, RecordsOk, Pinned, RegisterSession, Mentions, OfSession;
    StartAll(n, capacity);
    var s0, steps := Run(Start(n, capacity), before), [Register(session)] + after;
    RunKeeps(Start(n, capacity), before);
    RunOrder(Start(n, capacity), before);
    RunRecordsOk(Start(n, capacity), before);
    RunOrder(s0, steps);
    assert steps[0] == Register(session) && steps[1..] == after;
    StepKeeps(s0, Register(session));
    StepRecordsOk(s0, Register(session));
    RegisterPins(s0, session);
    RunPinned(Next(s0, Register(session)), after, session, s0.nextShard, |s0.ring.recvLog|);
    PinnedAsked(Run(s0, steps), session, s0.nextShard, |s0.ring.recvLog|, i, j);
  }

  lemma RegisterPins(s: Server, session: Session)
    requires RecordsOk(s) && Enabled(s, Register(session))
    ensures Pinned(Next(s, Register(session)), session, s.nextShard, |s.ring.recvLog|)
  {
  }

  lemma PinnedAsked(s: Server, session: Session, k: nat, from: nat, i: nat, j: nat)
    requires OrderOk(s) && Pinned(s, session, k, from) && i < j < |s.ring.asked|
    requires OfSession(s, session, from, s.ring.asked[i]) && OfSession(s, session, from, s.ring.asked[j])
    ensures s.ring.asked[i] < s.ring.asked[j]
  {
    hide OrderOk;
    AskedInOrder(s, i, j);
  }
}

/** Two entries per buffer are not only enough but needed: for every smaller ring there is a run, in
    the order the event loop takes its steps, on which a push is rejected. A batch of packets is
    received, routed and answered, and the drain that submits them fills the ring. */
module RingExact {
  import opened Basics
  import opened Token
  import opened IoRing
  import opened IoRingSafety
  import opened Relay
  import opened RelaySafety
  import opened RingSizing
  import opened LoopOrder

  /** The kernel has consumed `taken` of the receives published, and nothing has been published
      since; it executes `kernel` receives. */
  ghost predicate Stocked(g: Ring, capacity: nat, entries: nat, taken: nat, kernel: nat) {
    && g.sq.capacity == capacity && |g.sq.entries| == entries
    && g.sq.taken == taken <= g.sq.published == POOL_SIZE <= entries
    && (forall i | 0 <= i < POOL_SIZE :: g.sq.entries[i].opcode.RecvMsg?)
    && |g.inKernel| == kernel && (forall q | q in g.inKernel :: q.opcode.RecvMsg?)
  }

  /** All completions are of datagrams from `src`. */
  ghost predicate AllFrom(g: Ring, src: Addr) {
    forall c | c in g.cq ::
      var (op, i) := DecodeToken(c.token);
      op.Recv? && i in g.origin && g.origin[i].src == src
  }

  /** Shard 0 has nothing to do, and knows the session. */
  ghost predicate Serves(s: Server, session: Session) {
    && |s.shards| > 0
    && s.shards[0] == Shard([], map[0 := session], map[session.host := 0][session.peer := 0], None)
    && session.host in s.endpointToShard && s.endpointToShard[session.host] == 0
  }

  /** `entries` in the ring, `kernel` receives executing, `arrived` datagrams of the session's host
      completed, `answered` on the way back. */
  ghost predicate Stage(s: Server, session: Session, capacity: nat, entries: nat, kernel: nat, arrived: nat,
                        answered: nat)
  {
    && RelayInv(s) && Serves(s, session)
    && Stocked(s.ring, capacity, entries, POOL_SIZE, kernel)
    && |s.ring.cq| == arrived && AllFrom(s.ring, session.host) && |s.sqeQueue| == answered
  }

  // ---- the kernel consumes and receives

  function Takes(n: nat): seq<Step> {
    seq(n, i => Step.Kernel(Take))
  }

  lemma TakeOne(g: Ring, capacity: nat, n: nat)
    requires Stocked(g, capacity, POOL_SIZE, n, n) && n < POOL_SIZE
    ensures KernelEnabled(g, Take)
    ensures Stocked(KernelNext(g, Take), capacity, POOL_SIZE, n + 1, n + 1)
  {
  }

  lemma {:induction false} TakeAll(s: Server, capacity: nat, n: nat)
    requires Stocked(s.ring, capacity, POOL_SIZE, 0, 0) && n <= POOL_SIZE
    ensures Valid(s, Takes(n))
    ensures var t := Run(s, Takes(n));
      && Stocked(t.ring, capacity, POOL_SIZE, n, n)
      && t == s.(ring := t.ring) && LoopsOwn(s.ring, t.ring) && t.ring.cq == s.ring.cq
  {
    hide Stocked, KernelNext, KernelEnabled;
    if n > 0 {
      TakeAll(s, capacity, n - 1);
      var t := Run(s, Takes(n - 1));
      assert Takes(n) == Takes(n - 1) + [Step.Kernel(Take)];
      TakeOne(t.ring, capacity, n - 1);
      KernelLeaves(t.ring, Take);
      TakeCq(t.ring);
      OneStep(t, Step.Kernel(Take));
      RunAppend(s, Takes(n - 1), [Step.Kernel(Take)]);
    } else {
      assert Takes(0) == [];
    }
  }

  lemma TakeCq(g: Ring)
    requires KernelEnabled(g, Take)
    ensures KernelNext(g, Take).cq == g.cq
  {
  }

  lemma FilledOrigin(g: Ring, q: Request, src: Addr)
    requires PointersOk(g) && |g.memory| == POOL_SIZE * BUFFER_SIZE && RequestOk(g.pool, q)
    ensures var t := Fill(g, q.ptr, src, []);
      && t.sq == g.sq && t.inKernel == g.inKernel && t.cq == g.cq
      && t.origin == g.origin[Index(q) := Rx(src, [])]
  {
  }

  /** A datagram from `src` arrives. */
  lemma KernelReceives(g: Ring, src: Addr, capacity: nat, entries: nat, taken: nat, kernel: nat)
    requires RingInv(g) && Stocked(g, capacity, entries, taken, kernel) && kernel > 0 && AllFrom(g, src)
    ensures KernelEnabled(g, Receive(0, src, []))
    ensures var t := KernelNext(g, Receive(0, src, []));
      && Stocked(t, capacity, entries, taken, kernel - 1) && |t.cq| == |g.cq| + 1 && AllFrom(t, src)
  {
    hide OwnedOk, SendsOk, DecodeToken, EncodeToken, Fill;
    var q := g.inKernel[0];
    assert q in g.inKernel && q in Outstanding(g);
    DetachedRest(g, 0);
    FilledOrigin(Detached(g, 0), q, src);
  }

  function Receives(src: Addr, n: nat): seq<Step> {
    seq(n, i => Step.Kernel(Receive(0, src, [])))
  }

  lemma ReceiveOne(s: Server, session: Session, capacity: nat, entries: nat, kernel: nat, arrived: nat)
    requires Stage(s, session, capacity, entries, kernel, arrived, 0) && kernel > 0
    ensures var step := Step.Kernel(Receive(0, session.host, []));
      Enabled(s, step) && Stage(Next(s, step), session, capacity, entries, kernel - 1, arrived + 1, 0)
  {
    hide RingInv, LinkOk, PacketsOk, TablesOk, Stocked, AllFrom, KernelNext, KernelEnabled;
    KernelReceives(s.ring, session.host, capacity, entries, POOL_SIZE, kernel);
    StepKeeps(s, Step.Kernel(Receive(0, session.host, [])));
  }

  lemma {:induction false} ReceiveAll(s: Server, session: Session, capacity: nat, n: nat)
    requires Stage(s, session, capacity, POOL_SIZE, POOL_SIZE, 0, 0) && n <= POOL_SIZE
    ensures Valid(s, Receives(session.host, n))
    ensures Stage(Run(s, Receives(session.host, n)), session, capacity, POOL_SIZE, POOL_SIZE - n, n, 0)
  {
    hide Stage, Next, Enabled;
    if n > 0 {
      ReceiveAll(s, session, capacity, n - 1);
      var t, step := Run(s, Receives(session.host, n - 1)), Step.Kernel(Receive(0, session.host, []));
      assert Receives(session.host, n) == Receives(session.host, n - 1) + [step];
      ReceiveOne(t, session, capacity, POOL_SIZE, POOL_SIZE - n + 1, n - 1);
      OneStep(t, step);
      RunAppend(s, Receives(session.host, n - 1), [step]);
    } else {
      assert Receives(session.host, 0) == [];
    }
  }

  // ---- the packets pass through shard 0

  lemma TakenRing(s: Server)
    requires RelayInv(s) && Receiving(s)
    ensures var g := Complete(s.ring);
      g.sq == s.ring.sq && g.inKernel == s.ring.inKernel && g.cq == s.ring.cq[1..] && g.origin == s.ring.origin
  {
    hide LinkOk, PacketsOk, TablesOk, RingInv, DecodeToken;
  }

  lemma ArrivesFrom(s: Server, src: Addr)
    requires RelayInv(s) && s.ring.cq != [] && AllFrom(s.ring, src)
    ensures Receiving(s) && Arriving(s).src == src
  {
    hide LinkOk, PacketsOk, TablesOk, OwnedOk, SendsOk, ContentsOk;
    assert CompletionOk(s.ring, s.ring.cq[0]);
  }

  /** The next packet is routed to shard 0, */
  lemma RouteOne(s: Server, src: Addr, capacity: nat, entries: nat, taken: nat, kernel: nat)
    requires RelayInv(s) && s.ring.cq != [] && AllFrom(s.ring, src)
    requires Stocked(s.ring, capacity, entries, taken, kernel)
    requires |s.shards| > 0 && src in s.endpointToShard && s.endpointToShard[src] == 0
    requires |s.shards[0].queue| < QUEUE_CAPACITY
    ensures Enabled(s, CompleteOne) && Receiving(s) && Arriving(s).src == src
    ensures var t := Next(s, CompleteOne);
      && RelayInv(t) && Stocked(t.ring, capacity, entries, taken, kernel)
      && t.ring.cq == s.ring.cq[1..] && AllFrom(t.ring, src) && t.sqeQueue == s.sqeQueue && |t.shards| == |s.shards|
      && t.shards[0] == s.shards[0].(queue := s.shards[0].queue + [Transmit(Arriving(s))])
      && t.endpointToShard == s.endpointToShard && t.partner == s.partner && t.ring.lost == s.ring.lost
  {
    hide RelayInv, Arriving, Complete, AllFrom;
    ArrivesFrom(s, src);
    StepKeeps(s, CompleteOne);
    TakenRing(s);
    TakenLost(s);
    var p := Arriving(s);
    assert Target(Taken(s, p.bufIdx), p.src) == Some(0);
    FewerFrom(s.ring, Next(s, CompleteOne).ring, src);
  }

  lemma FewerFrom(g: Ring, t: Ring, src: Addr)
    requires AllFrom(g, src) && g.cq != [] && t.cq == g.cq[1..] && t.origin == g.origin
    ensures AllFrom(t, src)
  {
    hide DecodeToken;
  }

  /** As in a stage, but shard 0 has packet `p` in its queue, or in its hand. */
  ghost predicate InShard0(s: Server, session: Session, p: Packet, inHand: bool, capacity: nat, entries: nat,
                           kernel: nat, arrived: nat, answered: nat)
  {
    && RelayInv(s) && Stocked(s.ring, capacity, entries, POOL_SIZE, kernel)
    && |s.ring.cq| == arrived && AllFrom(s.ring, session.host) && |s.sqeQueue| == answered
    && p.src == session.host && session.host in s.endpointToShard && s.endpointToShard[session.host] == 0
    && |s.shards| > 0
    && s.shards[0] == Shard(if inHand then [] else [Transmit(p)], map[0 := session],
                            map[session.host := 0][session.peer := 0], if inHand then Some(p) else None)
  }

  lemma TakeIt(s: Server, session: Session, p: Packet, capacity: nat, entries: nat, kernel: nat, arrived: nat,
               answered: nat)
    requires InShard0(s, session, p, false, capacity, entries, kernel, arrived, answered)
    ensures Enabled(s, ShardTake(0, 1))
    ensures InShard0(Next(s, ShardTake(0, 1)), session, p, true, capacity, entries, kernel, arrived, answered)
  {
    hide RelayInv, Stocked, AllFrom;
    StepKeeps(s, ShardTake(0, 1));
    assert Next(s, ShardTake(0, 1)).shards[0].queue == [];
  }

  /** which answers. */
  lemma AnswerIt(s: Server, session: Session, p: Packet, capacity: nat, entries: nat, kernel: nat, arrived: nat,
                 answered: nat)
    requires InShard0(s, session, p, true, capacity, entries, kernel, arrived, answered)
    ensures Enabled(s, ShardHandle(0))
    ensures Stage(Next(s, ShardHandle(0)), session, capacity, entries, kernel, arrived, answered + 1)
  {
    hide RelayInv, Stocked, AllFrom;
    StepKeeps(s, ShardHandle(0));
    RelayBounds.ReturnChannelHasRoom(s, 0);
    assert Answer(s, 0) == Some(SendRequest(session.peer, p.len, p.bufIdx));
  }

  function Ask(): seq<Step> {
    [CompleteOne, ShardTake(0, 1), ShardHandle(0)]
  }

  lemma AskOne(s: Server, session: Session, capacity: nat, entries: nat, kernel: nat, arrived: nat, answered: nat)
    requires Stage(s, session, capacity, entries, kernel, arrived, answered) && arrived > 0
    ensures Valid(s, Ask())
    ensures Stage(Run(s, Ask()), session, capacity, entries, kernel, arrived - 1, answered + 1)
  {
    hide RelayInv, Stocked, AllFrom, Next, Enabled, Receiving, Arriving;
    RouteOne(s, session.host, capacity, entries, POOL_SIZE, kernel);
    var a := Next(s, CompleteOne);
    TakeIt(a, session, Arriving(s), capacity, entries, kernel, arrived - 1, answered);
    AnswerIt(Next(a, ShardTake(0, 1)), session, Arriving(s), capacity, entries, kernel, arrived - 1, answered);
    ThreeSteps(s, CompleteOne, ShardTake(0, 1), ShardHandle(0));
  }

  lemma ThreeSteps(s: Server, a: Step, b: Step, c: Step)
    requires Enabled(s, a) && Enabled(Next(s, a), b) && Enabled(Next(Next(s, a), b), c)
    ensures Valid(s, [a, b, c]) && Run(s, [a, b, c]) == Next(Next(Next(s, a), b), c)
  {
    hide Next, Enabled;
    OneStep(s, a);
    OneStep(Next(s, a), b);
    OneStep(Next(Next(s, a), b), c);
    RunAppend(s, [a], [b]);
    RunAppend(s, [a] + [b], [c]);
    assert [a] + [b] + [c] == [a, b, c];
  }

  function Asks(n: nat): seq<Step> {
    if n == 0 then [] else Asks(n - 1) + Ask()
  }

  lemma {:induction false} AskAll(s: Server, session: Session, capacity: nat, kernel: nat, arrived: nat, n: nat)
    requires Stage(s, session, capacity, POOL_SIZE, kernel, arrived, 0) && n <= arrived
    ensures Valid(s, Asks(n))
    ensures Stage(Run(s, Asks(n)), session, capacity, POOL_SIZE, kernel, arrived - n, n)
  {
    hide Stage, Next, Enabled, Ask;
    if n > 0 {
      AskAll(s, session, capacity, kernel, arrived, n - 1);
      var t := Run(s, Asks(n - 1));
      AskOne(t, session, capacity, POOL_SIZE, kernel, arrived - n + 1, n - 1);
      RunAppend(s, Asks(n - 1), Ask());
    }
  }

  lemma {:induction false} AsksInPhase(n: nat, left: nat)
    requires n <= left
    ensures InPhases(Completing(left), Asks(n)) && PhaseAfterAll(Completing(left), Asks(n)) == Completing(left - n)
  {
    if n > 0 {
      AsksInPhase(n - 1, left);
      AskInPhase(left - n + 1);
      PhasesAppend(Completing(left), Asks(n - 1), Ask());
    }
  }

  lemma AskInPhase(left: nat)
    requires left > 0
    ensures InPhases(Completing(left), Ask()) && PhaseAfterAll(Completing(left), Ask()) == Completing(left - 1)
  {
    assert Ask()[1..] == [ShardTake(0, 1), ShardHandle(0)] && Ask()[1..][1..] == [ShardHandle(0)];
  }

  // ---- the drain fills the ring

  function Sends(n: nat): seq<Step> {
    seq(n, i => SendOne(0))
  }

  lemma SendOneMore(s: Server, session: Session, capacity: nat, entries: nat, kernel: nat, answered: nat)
    requires Stage(s, session, capacity, entries, kernel, 0, answered) && answered > 0 && entries < capacity
    ensures Enabled(s, SendOne(0))
    ensures Stage(Next(s, SendOne(0)), session, capacity, entries + 1, kernel, 0, answered - 1)
  {
    hide RelayInv, Alloc, EncodeToken, DecodeToken, MarkShardDone, MarkSendSqe;
    StepKeeps(s, SendOne(0));
  }

  lemma {:induction false} SendAll(s: Server, session: Session, capacity: nat, kernel: nat, answered: nat, n: nat)
    requires Stage(s, session, capacity, POOL_SIZE, kernel, 0, answered)
    requires n <= answered && POOL_SIZE + n <= capacity
    ensures Valid(s, Sends(n))
    ensures Stage(Run(s, Sends(n)), session, capacity, POOL_SIZE + n, kernel, 0, answered - n)
  {
    hide Stage, Next, Enabled;
    if n > 0 {
      SendAll(s, session, capacity, kernel, answered, n - 1);
      var t := Run(s, Sends(n - 1));
      assert Sends(n) == Sends(n - 1) + [SendOne(0)];
      SendOneMore(t, session, capacity, POOL_SIZE + n - 1, kernel, answered - n + 1);
      OneStep(t, SendOne(0));
      RunAppend(s, Sends(n - 1), [SendOne(0)]);
    } else {
      assert Sends(0) == [];
    }
  }

  lemma {:induction false} SendsInPhase(n: nat, pushed: nat)
    ensures InPhases(Sending(pushed), Sends(n)) && PhaseAfterAll(Sending(pushed), Sends(n)) == Sending(pushed + n)
    decreases n
  {
    if n > 0 {
      assert Sends(n)[0] == SendOne(0) && Sends(n)[1..] == Sends(n - 1);
      SendsInPhase(n - 1, pushed + 1);
    }
  }

  // ---- the whole run

  /** Seeding, the first sync, and a session. */
  function Opening(session: Session): seq<Step> {
    Seeds(POOL_SIZE) + [SyncRing(0), Register(session)]
  }

  /** Shard 0 learns of the session, and the kernel consumes all receives and completes `n` of them. */
  function Arrivals(session: Session, n: nat): seq<Step> {
    [ShardTake(0, 0)] + Takes(POOL_SIZE) + Receives(session.host, n)
  }

  /** Up to the collection of the completions. */
  function ArrivingRun(session: Session, n: nat): seq<Move> {
    Dos(Opening(session)) + [EndRegistering, EndSending] + Dos(Arrivals(session, n)) + [Collect(n)]
  }

  /** One turn of the loop to receive `n` datagrams, the next to submit `m` of the answers. */
  function FillingRun(session: Session, n: nat, m: nat): seq<Move> {
    ArrivingRun(session, n) + Dos(Asks(n)) + [EndCompleting, EndRegistering] + Dos(Sends(m))
  }

  lemma OpeningInPhase(session: Session)
    ensures InPhases(Seeding(POOL_SIZE), Opening(session))
    ensures PhaseAfterAll(Seeding(POOL_SIZE), Opening(session)) == Registering
  {
    SeedsInPhase(POOL_SIZE, POOL_SIZE);
    var o := [SyncRing(0), Register(session)];
    assert o[1..] == [Register(session)] && o[1..][1..] == [];
    assert InPhases(Registering, o[1..]) && PhaseAfterAll(Registering, o[1..]) == Registering;
    PhasesAppend(Seeding(POOL_SIZE), Seeds(POOL_SIZE), o);
  }

  lemma FirstSync(g: Ring, capacity: nat)
    requires SeededRing(g, capacity, POOL_SIZE)
    ensures g.sq.Ok() && |g.sq.Pending()| == POOL_SIZE
    ensures Stocked(Sync(g, 0), capacity, POOL_SIZE, 0, 0) && Sync(g, 0).cq == []
  {
    assert Sync(g, 0).sq.entries == g.sq.entries;
  }

  lemma FirstSession(sh: Shard, session: Session)
    requires sh == Shard([], map[], map[], None)
    ensures var e := Enqueue(sh, AddSession(session));
      && e.queue != [] && e.inHand.None? && e.sessionTable == map[]
      && Dequeue(e, 0) == Shard([], map[0 := session], map[session.host := 0][session.peer := 0], None)
  {
  }

  /** The session is registered, and shard 0 is about to learn of it. */
  ghost predicate Opened(s: Server, session: Session, capacity: nat) {
    && RelayInv(s) && Stocked(s.ring, capacity, POOL_SIZE, 0, 0) && s.ring.cq == [] && s.sqeQueue == []
    && |s.shards| > 0 && s.shards[0] == Enqueue(Shard([], map[], map[], None), AddSession(session))
    && session.host in s.endpointToShard && s.endpointToShard[session.host] == 0
  }

  lemma OpensUp(s: Server, session: Session, capacity: nat)
    requires RelayInv(s) && Seeded(s, capacity, POOL_SIZE) && |s.shards| > 0
    ensures Enabled(s, SyncRing(0)) && Enabled(Next(s, SyncRing(0)), Register(session))
    ensures Opened(Next(Next(s, SyncRing(0)), Register(session)), session, capacity)
  {
    hide RelayInv, Stocked, SeededRing, Sync, Enqueue;
    assert s.shards[0] in s.shards;
    FirstSync(s.ring, capacity);
    StepKeeps(s, SyncRing(0));
    StepKeeps(Next(s, SyncRing(0)), Register(session));
  }

  lemma OpeningRuns(n: nat, capacity: nat, session: Session)
    requires n > 0 && POOL_SIZE <= capacity
    ensures Allows(Begin(n, capacity), Dos(Opening(session)))
    ensures var m := Reached(Begin(n, capacity), Dos(Opening(session)));
      m.phase == Registering && Opened(m.server, session, capacity)
  {
    hide Next, Enabled, Seeded, RelayInv, Opened, InPhases, PhaseAfterAll;
    var s0 := Start(n, capacity);
    StartInv(n, capacity);
    SeedAll(n, capacity, POOL_SIZE);
    var s := Run(s0, Seeds(POOL_SIZE));
    RelaySafety.RunKeeps(s0, Seeds(POOL_SIZE));
    OpensUp(s, session, capacity);
    OneStep(s, SyncRing(0));
    OneStep(Next(s, SyncRing(0)), Register(session));
    RunAppend(s, [SyncRing(0)], [Register(session)]);
    assert [SyncRing(0)] + [Register(session)] == [SyncRing(0), Register(session)];
    RunAppend(s0, Seeds(POOL_SIZE), [SyncRing(0), Register(session)]);
    OpeningInPhase(session);
    DoAll(Begin(n, capacity), Opening(session));
  }

  lemma LearnsSession(s: Server, session: Session, capacity: nat)
    requires Opened(s, session, capacity)
    ensures Enabled(s, ShardTake(0, 0))
    ensures var t := Next(s, ShardTake(0, 0));
      && RelayInv(t) && Serves(t, session) && Stocked(t.ring, capacity, POOL_SIZE, 0, 0)
      && t.ring.cq == [] && t.sqeQueue == []
  {
    hide RelayInv, Stocked, Enqueue, Dequeue;
    FirstSession(Shard([], map[], map[], None), session);
    StepKeeps(s, ShardTake(0, 0));
  }

  lemma ArrivalsRun(s: Server, session: Session, capacity: nat, n: nat)
    requires Opened(s, session, capacity) && n <= POOL_SIZE
    ensures Valid(s, Arrivals(session, n))
    ensures Stage(Run(s, Arrivals(session, n)), session, capacity, POOL_SIZE, POOL_SIZE - n, n, 0)
  {
    hide RelayInv, Opened, Stocked, Next, Enabled;
    LearnsSession(s, session, capacity);
    OneStep(s, ShardTake(0, 0));
    var t := Next(s, ShardTake(0, 0));
    TakeAll(t, capacity, POOL_SIZE);
    var u := Run(t, Takes(POOL_SIZE));
    RelaySafety.RunKeeps(t, Takes(POOL_SIZE));
    RunAppend(s, [ShardTake(0, 0)], Takes(POOL_SIZE));
    ReceiveAll(u, session, capacity, n);
    RunAppend(s, [ShardTake(0, 0)] + Takes(POOL_SIZE), Receives(session.host, n));
  }

  lemma ArrivingRuns(n: nat, capacity: nat, session: Session, k: nat)
    requires n > 0 && k <= POOL_SIZE <= capacity
    ensures Allows(Begin(n, capacity), ArrivingRun(session, k))
    ensures var t := Reached(Begin(n, capacity), ArrivingRun(session, k));
      t.phase == Completing(k) && Stage(t.server, session, capacity, POOL_SIZE, POOL_SIZE - k, k, 0)
  {
    hide Moved, Allowed, Stage, Opened, Opening, Arrivals, InPhases, PhaseAfterAll, Begin;
    var m0, a := Begin(n, capacity), Dos(Opening(session));
    OpeningRuns(n, capacity, session);
    var m1 := Reached(m0, a);
    OpenedQuiet(m1.server, session, capacity);
    QuietTurn(m1);
    var m2 := Moment(m1.server, Collecting);
    MovesAppend(m0, a, [EndRegistering, EndSending]);
    ArrivalsRun(m1.server, session, capacity, k);
    ArrivalsFree(session, k);
    FreeInPhases(Collecting, Arrivals(session, k));
    DoAll(m2, Arrivals(session, k));
    var b := a + [EndRegistering, EndSending];
    MovesAppend(m0, b, Dos(Arrivals(session, k)));
    var m3 := Moment(Run(m1.server, Arrivals(session, k)), Collecting);
    CollectsAll(m3, session, capacity, k);
    MovesAppend(m0, b + Dos(Arrivals(session, k)), [Collect(k)]);
  }

  lemma FillingRuns(n: nat, capacity: nat, session: Session, k: nat, m: nat)
    requires n > 0 && m < k <= POOL_SIZE && POOL_SIZE + m <= capacity
    ensures Allows(Begin(n, capacity), FillingRun(session, k, m))
    ensures var t := Reached(Begin(n, capacity), FillingRun(session, k, m));
      && t.phase == Sending(m)
      && Stage(t.server, session, capacity, POOL_SIZE + m, POOL_SIZE - k, 0, k - m)
  {
    hide Moved, Allowed, Stage, Asks, Sends, InPhases, PhaseAfterAll, Begin, ArrivingRun;
    var m0, c := Begin(n, capacity), ArrivingRun(session, k);
    ArrivingRuns(n, capacity, session, k);
    var m4 := Reached(m0, c);
    AskAll(m4.server, session, capacity, POOL_SIZE - k, k, k);
    AsksInPhase(k, k);
    DoAll(m4, Asks(k));
    MovesAppend(m0, c, Dos(Asks(k)));
    var m5 := Moment(Run(m4.server, Asks(k)), Completing(0));
    NextDrain(m5);
    MovesAppend(m0, c + Dos(Asks(k)), [EndCompleting, EndRegistering]);
    var d, m6 := c + Dos(Asks(k)) + [EndCompleting, EndRegistering], m5.(phase := Sending(0));
    SendAll(m6.server, session, capacity, POOL_SIZE - k, k, m);
    SendsInPhase(m, 0);
    DoAll(m6, Sends(m));
    MovesAppend(m0, d, Dos(Sends(m)));
  }

  lemma OpenedQuiet(s: Server, session: Session, capacity: nat)
    requires Opened(s, session, capacity)
    ensures s.sqeQueue == []
  {
  }

  lemma ArrivalsFree(session: Session, n: nat)
    ensures forall step | step in Arrivals(session, n) :: Free(step)
  {
  }

  lemma CollectsAll(m: Moment, session: Session, capacity: nat, k: nat)
    requires m.phase.Collecting? && k <= POOL_SIZE
    requires Stage(m.server, session, capacity, POOL_SIZE, POOL_SIZE - k, k, 0)
    ensures Allows(m, [Collect(k)]) && Reached(m, [Collect(k)]) == m.(phase := Completing(k))
  {
    hide RelayInv, Stocked, AllFrom, Serves;
    OneMove(m, Collect(k));
  }

  lemma NextDrain(m: Moment)
    requires m.phase == Completing(0)
    ensures Allows(m, [EndCompleting, EndRegistering])
    ensures Reached(m, [EndCompleting, EndRegistering]) == m.(phase := Sending(0))
  {
    OneMove(m, EndCompleting);
    OneMove(Moved(m, EndCompleting), EndRegistering);
    MovesAppend(m, [EndCompleting], [EndRegistering]);
    assert [EndCompleting] + [EndRegistering] == [EndCompleting, EndRegistering];
  }

  // ---- the exact size

  /** On this run, taken in the loop's order, the loop's next step finds the ring full. */
  ghost predicate Rejects(n: nat, capacity: nat, moves: seq<Move>, step: Step) {
    && Allows(Begin(n, capacity), moves)
    && var m := Reached(Begin(n, capacity), moves);
    Allowed(m, Do(step)) && Pushes(m.server, step) && IsFull(m.server.ring.sq)
  }

  lemma TinyRingRejects(n: nat, capacity: nat)
    requires n > 0 && capacity < POOL_SIZE
    ensures Rejects(n, capacity, Dos(Seeds(capacity)), Step.Seed)
  {
    hide Next, Enabled, Seeded;
    SeedAll(n, capacity, capacity);
    SeedOne(Run(Start(n, capacity), Seeds(capacity)), capacity, capacity);
    SeededFull(Run(Start(n, capacity), Seeds(capacity)), capacity);
    SeedsInPhase(capacity, POOL_SIZE);
    DoAll(Begin(n, capacity), Seeds(capacity));
  }

  lemma SeededFull(s: Server, n: nat)
    requires Seeded(s, n, n)
    ensures IsFull(s.ring.sq)
  {
  }

  lemma SmallRingRejects(n: nat, capacity: nat, session: Session)
    requires n > 0 && 1024 <= capacity < 2048
    ensures Rejects(n, capacity, FillingRun(session, capacity - POOL_SIZE + 1, capacity - POOL_SIZE), SendOne(0))
  {
    hide Moved, Stage, FillingRun, Begin;
    var m := capacity - POOL_SIZE;
    FillingRuns(n, capacity, session, m + 1, m);
    StageFull(Reached(Begin(n, capacity), FillingRun(session, m + 1, m)).server, session, capacity, POOL_SIZE - m - 1);
  }

  lemma StageFull(s: Server, session: Session, capacity: nat, kernel: nat)
    requires Stage(s, session, capacity, capacity, kernel, 0, 1)
    ensures Enabled(s, SendOne(0)) && Pushes(s, SendOne(0)) && IsFull(s.ring.sq)
  {
  }

  /** The exact size: on no run in the loop's order is a push rejected if and only if there are two
      entries per buffer. */
  lemma RingSizeExact(n: nat, capacity: nat)
    requires n > 0
    ensures (forall moves, step :: !Rejects(n, capacity, moves, step)) <==> capacity >= 2048
  {
    if capacity < POOL_SIZE {
      TinyRingRejects(n, capacity);
    } else if capacity < 2 * POOL_SIZE {
      SmallRingRejects(n, capacity, Session(1, 2));
    } else {
      hide Next, Enabled, Pushes, Moved;
      forall moves, step ensures !Rejects(n, capacity, moves, step) {
        if Rejects(n, capacity, moves, step) {
          LoopRefinesRelay(Begin(n, capacity), moves);
          LargeRingSuffices(n, capacity, StepsOf(moves), step);
        }
      }
    }
  }
}

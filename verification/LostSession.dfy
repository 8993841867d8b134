/** A session can be lost: a run, in the order the event loop takes its steps, on which a session is
    registered while the queue of its shard is full. The router routes by it, but the shard never
    learns of it, and the first packet of its host is dropped with its buffer. */
module LostSession {
  import opened Basics
  import opened IoRing
  import opened Relay
  import opened RelaySafety
  import opened RingSizing
  import opened LoopOrder
  import opened RingExact

  function Waiting(session: Session, n: nat): seq<Message> {
    seq(n, i => AddSession(session))
  }

  function Untaught(session: Session, n: nat): Shard {
    Shard(Waiting(session, n), map[], map[], None)
  }

  // ---- registering the same session until all queues are full

  function Round(session: Session, shards: nat): seq<Step> {
    seq(shards, i => Register(session))
  }

  function Rounds(session: Session, shards: nat, n: nat): seq<Step> {
    if n == 0 then [] else Rounds(session, shards, n - 1) + Round(session, shards)
  }

  /** In this round `j` shards have got their `n`-th registration; nothing else has happened to `s`. */
  ghost predicate HalfRound(s: Server, t: Server, session: Session, n: nat, j: nat) {
    && t == s.(shards := t.shards, nextShard := t.nextShard, endpointToShard := t.endpointToShard,
               partner := t.partner)
    && |t.shards| == |s.shards| > 0 && j <= |t.shards| && n > 0
    && t.nextShard == (if j == |t.shards| then 0 else j)
    && (forall i | 0 <= i < |t.shards| :: t.shards[i] == Untaught(session, if i < j then n else n - 1))
  }

  lemma RegisterOne(s: Server, t: Server, session: Session, n: nat, j: nat)
    requires HalfRound(s, t, session, n, j) && j < |t.shards| && n <= QUEUE_CAPACITY
    ensures Enabled(t, Register(session)) && HalfRound(s, Next(t, Register(session)), session, n, j + 1)
  {
    hide Untaught, Enqueue;
    OneMore(session, n);
    NextInTurn(j, |t.shards|);
  }

  lemma OneMore(session: Session, n: nat)
    requires 0 < n <= QUEUE_CAPACITY
    ensures |Untaught(session, n - 1).queue| < QUEUE_CAPACITY
    ensures Enqueue(Untaught(session, n - 1), AddSession(session)) == Untaught(session, n)
  {
    assert Waiting(session, n) == Waiting(session, n - 1) + [AddSession(session)];
  }

  lemma NextInTurn(j: nat, n: nat)
    requires j < n
    ensures (j + 1) % n == if j + 1 == n then 0 else j + 1
  {
  }

  lemma {:induction false} RoundRuns(s: Server, t: Server, session: Session, n: nat, j: nat)
    requires HalfRound(s, t, session, n, 0) && j <= |t.shards| && n <= QUEUE_CAPACITY
    ensures Valid(t, Round(session, j)) && HalfRound(s, Run(t, Round(session, j)), session, n, j)
  {
    hide HalfRound, Next, Enabled;
    if j > 0 {
      RoundRuns(s, t, session, n, j - 1);
      var u := Run(t, Round(session, j - 1));
      assert Round(session, j) == Round(session, j - 1) + [Register(session)];
      assert |u.shards| == |t.shards| by { SameShards(s, t, session, n, 0); SameShards(s, u, session, n, j - 1); }
      RegisterOne(s, u, session, n, j - 1);
      OneStep(u, Register(session));
      RunAppend(t, Round(session, j - 1), [Register(session)]);
    } else {
      assert Round(session, 0) == [];
    }
  }

  lemma SameShards(s: Server, t: Server, session: Session, n: nat, j: nat)
    requires HalfRound(s, t, session, n, j)
    ensures |t.shards| == |s.shards|
  {
  }

  lemma {:induction false} RoundsRun(s: Server, session: Session, n: nat)
    requires HalfRound(s, s, session, 1, 0) && n <= QUEUE_CAPACITY
    ensures Valid(s, Rounds(session, |s.shards|, n))
    ensures HalfRound(s, Run(s, Rounds(session, |s.shards|, n)), session, n + 1, 0)
  {
    hide Next, Enabled, Round, HalfRound;
    if n > 0 {
      RoundsRun(s, session, n - 1);
      var t := Run(s, Rounds(session, |s.shards|, n - 1));
      SameShards(s, t, session, n, 0);
      RoundRuns(s, t, session, n, |s.shards|);
      RoundOver(s, Run(t, Round(session, |s.shards|)), session, n);
      RunAppend(s, Rounds(session, |s.shards|, n - 1), Round(session, |s.shards|));
    }
  }

  lemma RoundOver(s: Server, t: Server, session: Session, n: nat)
    requires HalfRound(s, t, session, n, |s.shards|)
    ensures HalfRound(s, t, session, n + 1, 0)
  {
  }

  lemma {:induction false} OnlyRegisters(session: Session, shards: nat, n: nat)
    ensures forall step | step in Rounds(session, shards, n) :: step.Register?
  {
    if n > 0 {
      OnlyRegisters(session, shards, n - 1);
    }
  }

  // ---- one session too many

  /** All queues are full of registrations of `session`; nobody knows `late` yet. */
  ghost predicate Crowded(s: Server, session: Session, capacity: nat) {
    && RelayInv(s) && Stocked(s.ring, capacity, POOL_SIZE, 0, 0) && s.ring.cq == [] && s.sqeQueue == []
    && |s.shards| > 0 && s.nextShard == 0 && s.shards[0] == Untaught(session, QUEUE_CAPACITY)
  }

  /** `late` has been registered with shard 0, which has not learnt of it and never will; it has
      still to learn of `left` registrations. */
  ghost predicate Overlooked(s: Server, session: Session, late: Session, left: nat) {
    && RelayInv(s) && |s.shards| > 0 && left <= QUEUE_CAPACITY
    && late.host in s.endpointToShard && s.endpointToShard[late.host] == 0
    && late.host in s.partner && s.partner[late.host] == late.peer
    && s.shards[0].queue == Waiting(session, left) && s.shards[0].inHand.None?
    && (forall id | id in s.shards[0].sessionTable :: id < QUEUE_CAPACITY - left)
    && late.host !in s.shards[0].sessionId
  }

  lemma LateRegistered(s: Server, session: Session, late: Session, capacity: nat)
    requires Crowded(s, session, capacity)
    ensures Enabled(s, Register(late))
    ensures var t := Next(s, Register(late));
      && Overlooked(t, session, late, QUEUE_CAPACITY) && t.ring == s.ring && t.sqeQueue == s.sqeQueue
  {
    hide RelayInv, Stocked;
    InvTables(s);
    StepKeeps(s, Register(late));
  }

  lemma InvTables(s: Server)
    requires RelayInv(s)
    ensures TablesOk(s)
  {
  }

  // ---- shard 0 works off its queue

  function Learning(n: nat): seq<Step> {
    seq(n, (i: nat) => ShardTake(0, i))
  }

  lemma LearnOne(s: Server, session: Session, late: Session, left: nat)
    requires Overlooked(s, session, late, left) && left > 0 && session.RouteTo(late.host).None?
    ensures var step := ShardTake(0, QUEUE_CAPACITY - left);
      Enabled(s, step) && Overlooked(Next(s, step), session, late, left - 1)
  {
    hide RelayInv;
    assert Waiting(session, left)[0] == AddSession(session);
    assert Waiting(session, left)[1..] == Waiting(session, left - 1);
    StepKeeps(s, ShardTake(0, QUEUE_CAPACITY - left));
  }

  lemma {:induction false} LearnAll(s: Server, session: Session, late: Session, n: nat)
    requires Overlooked(s, session, late, QUEUE_CAPACITY) && n <= QUEUE_CAPACITY && session.RouteTo(late.host).None?
    ensures Valid(s, Learning(n))
    ensures var t := Run(s, Learning(n));
      && Overlooked(t, session, late, QUEUE_CAPACITY - n) && t.ring == s.ring && t.sqeQueue == s.sqeQueue
  {
    hide Overlooked, Next, Enabled;
    if n > 0 {
      LearnAll(s, session, late, n - 1);
      var t := Run(s, Learning(n - 1));
      assert Learning(n) == Learning(n - 1) + [ShardTake(0, n - 1)];
      LearnOne(t, session, late, QUEUE_CAPACITY - n + 1);
      OnlyShards(t, 0, n - 1);
      OneStep(t, ShardTake(0, n - 1));
      RunAppend(s, Learning(n - 1), [ShardTake(0, n - 1)]);
    } else {
      assert Learning(0) == [];
    }
  }

  lemma OnlyShards(s: Server, k: nat, id: Uuid)
    requires Enabled(s, ShardTake(k, id))
    ensures Next(s, ShardTake(k, id)).ring == s.ring && Next(s, ShardTake(k, id)).sqeQueue == s.sqeQueue
  {
  }

  // ---- a datagram of its host

  /** The kernel takes one receive and completes it. */
  function Arrival(src: Addr): seq<Step> {
    [Step.Kernel(Take), Step.Kernel(Receive(0, src, []))]
  }

  lemma RingOnly(s: Server, session: Session, late: Session, left: nat, k: KernelStep)
    requires Overlooked(s, session, late, left) && KernelEnabled(s.ring, k)
    ensures Enabled(s, Step.Kernel(k))
    ensures var t := Next(s, Step.Kernel(k));
      Overlooked(t, session, late, left) && t == s.(ring := KernelNext(s.ring, k))
  {
    hide RelayInv, KernelNext, KernelEnabled;
    StepKeeps(s, Step.Kernel(k));
  }

  lemma Arrives(s: Server, session: Session, late: Session, capacity: nat)
    requires Overlooked(s, session, late, 0) && Stocked(s.ring, capacity, POOL_SIZE, 0, 0) && s.ring.cq == []
    ensures Valid(s, Arrival(late.host))
    ensures var t := Run(s, Arrival(late.host));
      && Overlooked(t, session, late, 0) && Stocked(t.ring, capacity, POOL_SIZE, 1, 0)
      && |t.ring.cq| == 1 && AllFrom(t.ring, late.host) && t.sqeQueue == s.sqeQueue
  {
    hide Overlooked, Stocked, KernelNext, KernelEnabled, Next, Enabled;
    TakeOne(s.ring, capacity, 0);
    TakeCq(s.ring);
    RingOnly(s, session, late, 0, Take);
    var t := Next(s, Step.Kernel(Take));
    assert RelayInv(t) by { hide *; OverlookedInv(t, session, late, 0); }
    InvParts(t);
    KernelReceives(t.ring, late.host, capacity, POOL_SIZE, 1, 1);
    RingOnly(t, session, late, 0, Receive(0, late.host, []));
    OneStep(s, Step.Kernel(Take));
    OneStep(t, Step.Kernel(Receive(0, late.host, [])));
    RunAppend(s, [Step.Kernel(Take)], [Step.Kernel(Receive(0, late.host, []))]);
    assert [Step.Kernel(Take)] + [Step.Kernel(Receive(0, late.host, []))] == Arrival(late.host);
  }

  lemma OverlookedInv(s: Server, session: Session, late: Session, left: nat)
    requires Overlooked(s, session, late, left)
    ensures RelayInv(s)
  {
  }

  /** Shard 0 has a packet of `late.host` in its hand, and no session for it. */
  ghost predicate Doomed(s: Server, late: Session) {
    && RelayInv(s) && |s.shards| > 0 && s.shards[0].inHand.Some? && s.shards[0].inHand.value.src == late.host
    && late.host !in s.shards[0].sessionId
    && late.host in s.endpointToShard && s.endpointToShard[late.host] == 0
    && late.host in s.partner && s.partner[late.host] == late.peer
  }

  function Delivery(): seq<Step> {
    [CompleteOne, ShardTake(0, QUEUE_CAPACITY)]
  }

  lemma TakesIt(s: Server, late: Session, p: Packet)
    requires RelayInv(s) && |s.shards| > 0 && s.shards[0].queue == [Transmit(p)] && s.shards[0].inHand.None?
    requires p.src == late.host && late.host !in s.shards[0].sessionId
    requires late.host in s.endpointToShard && s.endpointToShard[late.host] == 0
    requires late.host in s.partner && s.partner[late.host] == late.peer
    requires QUEUE_CAPACITY !in s.shards[0].sessionTable
    ensures Enabled(s, ShardTake(0, QUEUE_CAPACITY)) && Doomed(Next(s, ShardTake(0, QUEUE_CAPACITY)), late)
  {
    hide RelayInv;
    StepKeeps(s, ShardTake(0, QUEUE_CAPACITY));
  }

  lemma Delivers(s: Server, session: Session, late: Session, capacity: nat)
    requires Overlooked(s, session, late, 0) && Stocked(s.ring, capacity, POOL_SIZE, 1, 0)
    requires |s.ring.cq| == 1 && AllFrom(s.ring, late.host)
    ensures Valid(s, Delivery()) && Doomed(Run(s, Delivery()), late)
  {
    hide RelayInv, Stocked, AllFrom, Next, Enabled, Receiving, Arriving, Doomed;
    assert Waiting(session, 0) == [];
    RouteOne(s, late.host, capacity, POOL_SIZE, 1, 0);
    var t := Next(s, CompleteOne);
    TakesIt(t, late, Arriving(s));
    OneStep(s, CompleteOne);
    OneStep(t, ShardTake(0, QUEUE_CAPACITY));
    RunAppend(s, [CompleteOne], [ShardTake(0, QUEUE_CAPACITY)]);
    assert [CompleteOne] + [ShardTake(0, QUEUE_CAPACITY)] == Delivery();
  }

  lemma DoomedDropped(s: Server, late: Session)
    requires Doomed(s, late)
    ensures Enabled(s, ShardHandle(0)) && Answer(s, 0).None?
    ensures Next(s, ShardHandle(0)).ring.lost == s.ring.lost + [s.shards[0].inHand.value.bufIdx]
  {
    hide RelayInv;
  }

  // ---- the whole run

  function StartUp(): seq<Step> {
    Seeds(POOL_SIZE) + [SyncRing(0)]
  }

  function Registrations(session: Session, late: Session, shards: nat): seq<Step> {
    Rounds(session, shards, QUEUE_CAPACITY) + [Register(late)]
  }

  function Meanwhile(late: Session): seq<Step> {
    Learning(QUEUE_CAPACITY) + Arrival(late.host)
  }

  function LosingRun(shards: nat, session: Session, late: Session): seq<Move> {
    Dos(StartUp()) + Dos(Registrations(session, late, shards)) + [EndRegistering, EndSending]
    + Dos(Meanwhile(late)) + [Collect(1)] + Dos(Delivery())
  }

  lemma StartsUp(n: nat, capacity: nat, session: Session)
    requires n > 0 && POOL_SIZE <= capacity
    ensures Allows(Begin(n, capacity), Dos(StartUp()))
    ensures var m := Reached(Begin(n, capacity), Dos(StartUp()));
      && m.phase.Registering? && RelayInv(m.server) && |m.server.shards| == n
      && Stocked(m.server.ring, capacity, POOL_SIZE, 0, 0) && m.server.ring.cq == [] && m.server.sqeQueue == []
      && HalfRound(m.server, m.server, session, 1, 0)
  {
    hide Next, Enabled, Seeded, RelayInv, Stocked, InPhases, PhaseAfterAll, HalfRound;
    var s0 := Start(n, capacity);
    StartInv(n, capacity);
    SeedAll(n, capacity, POOL_SIZE);
    var s := Run(s0, Seeds(POOL_SIZE));
    RelaySafety.RunKeeps(s0, Seeds(POOL_SIZE));
    Synced(s, session, capacity);
    OneStep(s, SyncRing(0));
    RunAppend(s0, Seeds(POOL_SIZE), [SyncRing(0)]);
    StartUpInPhase();
    DoAll(Begin(n, capacity), StartUp());
  }

  lemma Synced(s: Server, session: Session, capacity: nat)
    requires RelayInv(s) && Seeded(s, capacity, POOL_SIZE) && |s.shards| > 0
    ensures Enabled(s, SyncRing(0))
    ensures var t := Next(s, SyncRing(0));
      && RelayInv(t) && |t.shards| == |s.shards|
      && Stocked(t.ring, capacity, POOL_SIZE, 0, 0) && t.ring.cq == [] && t.sqeQueue == []
      && HalfRound(t, t, session, 1, 0)
  {
    hide RelayInv, Stocked, SeededRing, Sync;
    FirstSync(s.ring, capacity);
    StepKeeps(s, SyncRing(0));
    assert Waiting(session, 0) == [];
    forall i | 0 <= i < |s.shards| ensures s.shards[i] == Untaught(session, 0) {
      assert s.shards[i] in s.shards;
    }
  }

  lemma StartUpInPhase()
    ensures InPhases(Seeding(POOL_SIZE), StartUp())
    ensures PhaseAfterAll(Seeding(POOL_SIZE), StartUp()) == Registering
  {
    SeedsInPhase(POOL_SIZE, POOL_SIZE);
    assert [SyncRing(0)][1..] == [];
    PhasesAppend(Seeding(POOL_SIZE), Seeds(POOL_SIZE), [SyncRing(0)]);
  }

  lemma RegistrationsRun(s: Server, session: Session, late: Session, capacity: nat)
    requires RelayInv(s) && HalfRound(s, s, session, 1, 0)
    requires Stocked(s.ring, capacity, POOL_SIZE, 0, 0) && s.ring.cq == [] && s.sqeQueue == []
    ensures Valid(s, Registrations(session, late, |s.shards|))
    ensures var t := Run(s, Registrations(session, late, |s.shards|));
      && Overlooked(t, session, late, QUEUE_CAPACITY) && Stocked(t.ring, capacity, POOL_SIZE, 0, 0)
      && t.ring.cq == [] && t.sqeQueue == []
  {
    hide RelayInv, Stocked, Next, Enabled, Overlooked;
    RoundsRun(s, session, QUEUE_CAPACITY);
    RelaySafety.RunKeeps(s, Rounds(session, |s.shards|, QUEUE_CAPACITY));
    var t := Run(s, Rounds(session, |s.shards|, QUEUE_CAPACITY));
    assert Crowded(t, session, capacity);
    LateRegistered(t, session, late, capacity);
    OneStep(t, Register(late));
    RunAppend(s, Rounds(session, |s.shards|, QUEUE_CAPACITY), [Register(late)]);
  }

  lemma RegistrationsInPhase(session: Session, late: Session, shards: nat)
    ensures InPhases(Registering, Registrations(session, late, shards))
    ensures PhaseAfterAll(Registering, Registrations(session, late, shards)) == Registering
  {
    OnlyRegisters(session, shards, QUEUE_CAPACITY);
    RegistersInPhase(Registrations(session, late, shards));
  }

  lemma MeanwhileRuns(s: Server, session: Session, late: Session, capacity: nat)
    requires Overlooked(s, session, late, QUEUE_CAPACITY) && session.RouteTo(late.host).None?
    requires Stocked(s.ring, capacity, POOL_SIZE, 0, 0) && s.ring.cq == [] && s.sqeQueue == []
    ensures Valid(s, Meanwhile(late))
    ensures var t := Run(s, Meanwhile(late));
      && Overlooked(t, session, late, 0) && Stocked(t.ring, capacity, POOL_SIZE, 1, 0)
      && |t.ring.cq| == 1 && AllFrom(t.ring, late.host)
  {
    hide Overlooked, Stocked, Next, Enabled;
    LearnAll(s, session, late, QUEUE_CAPACITY);
    Arrives(Run(s, Learning(QUEUE_CAPACITY)), session, late, capacity);
    RunAppend(s, Learning(QUEUE_CAPACITY), Arrival(late.host));
  }

  lemma MeanwhileFree(late: Session)
    ensures forall step | step in Meanwhile(late) :: Free(step)
  {
  }

  lemma DeliveryInPhase()
    ensures InPhases(Completing(1), Delivery()) && PhaseAfterAll(Completing(1), Delivery()) == Completing(0)
  {
    assert Delivery()[1..] == [ShardTake(0, QUEUE_CAPACITY)] && Delivery()[1..][1..] == [];
    FreeInPhases(Completing(0), Delivery()[1..]);
  }

  lemma OneVisible(m: Moment)
    requires m.phase.Collecting? && |m.server.ring.cq| == 1
    ensures Allows(m, [Collect(1)]) && Reached(m, [Collect(1)]) == m.(phase := Completing(1))
  {
    OneMove(m, Collect(1));
  }

  lemma LosingRuns(n: nat, capacity: nat, session: Session, late: Session)
    requires n > 0 && POOL_SIZE <= capacity && session.RouteTo(late.host).None?
    ensures Allows(Begin(n, capacity), LosingRun(n, session, late))
    ensures Doomed(Reached(Begin(n, capacity), LosingRun(n, session, late)).server, late)
  {
    hide Moved, Allowed, RelayInv, Stocked, Overlooked, Doomed, HalfRound, StartUp, Registrations, Meanwhile, Delivery;
    hide InPhases, PhaseAfterAll, Begin;
    var m0, a := Begin(n, capacity), Dos(StartUp());
    StartsUp(n, capacity, session);
    var m1 := Reached(m0, a);
    RegistrationsRun(m1.server, session, late, capacity);
    RegistrationsInPhase(session, late, n);
    DoAll(m1, Registrations(session, late, n));
    MovesAppend(m0, a, Dos(Registrations(session, late, n)));
    var b, m2 := a + Dos(Registrations(session, late, n)), Reached(m1, Dos(Registrations(session, late, n)));
    QuietTurn(m2);
    MovesAppend(m0, b, [EndRegistering, EndSending]);
    var c, m3 := b + [EndRegistering, EndSending], m2.(phase := Collecting);
    MeanwhileRuns(m3.server, session, late, capacity);
    MeanwhileFree(late);
    FreeInPhases(Collecting, Meanwhile(late));
    DoAll(m3, Meanwhile(late));
    MovesAppend(m0, c, Dos(Meanwhile(late)));
    var d, m4 := c + Dos(Meanwhile(late)), Reached(m3, Dos(Meanwhile(late)));
    OneVisible(m4);
    MovesAppend(m0, d, [Collect(1)]);
    var e, m5 := d + [Collect(1)], m4.(phase := Completing(1));
    Delivers(m5.server, session, late, capacity);
    DeliveryInPhase();
    DoAll(m5, Delivery());
    MovesAppend(m0, e, Dos(Delivery()));
  }

  /** With any number of shards: the loop starts up, takes more registrations than the queues hold,
      and a datagram of the last session's host arrives. The router has the host's partner and passes
      the packet on; shard 0 has no session for it, drops it, and its buffer is lost. */
  lemma SessionLost(n: nat, capacity: nat, session: Session, late: Session)
    requires n > 0 && POOL_SIZE <= capacity && session.RouteTo(late.host).None?
    ensures Allows(Begin(n, capacity), LosingRun(n, session, late))
    ensures var m := Reached(Begin(n, capacity), LosingRun(n, session, late));
      && Allowed(m, Do(ShardHandle(0)))
      && var p := m.server.shards[0].inHand.value;
      && p.src == late.host && late.host in m.server.partner && m.server.partner[late.host] == late.peer
      && Answer(m.server, 0).None?
      && Moved(m, Do(ShardHandle(0))).server.ring.lost == m.server.ring.lost + [p.bufIdx]
  {
    hide RelayInv, Next, Enabled, Begin, LosingRun;
    LosingRuns(n, capacity, session, late);
    var m := Reached(Begin(n, capacity), LosingRun(n, session, late));
    DoomedDropped(m.server, late);
  }
}

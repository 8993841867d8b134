/** The event loop as it is written, on the real objects: every turn of it is a run of loop steps of
    the relay. That its indexing, its unwraps and its intervals are always defined rests on the
    relay's invariants. */
module TurnServer {
  import opened Basics
  import opened Bags
  import opened Token
  import opened IoRing
  import opened IoRingSafety
  import opened Relay
  import opened RelaySafety
  import opened RelayTiming
  import opened LoopOrder
  import opened Buffers
  import Shards

  // ---- what the loop's steps do to the loop's own objects

  /** A receive changes the time stamps and at most one shard's queue. */
  lemma ReceiveEffect(s: Server)
    requires RingInv(s.ring) && Receiving(s)
    ensures var t, p := Next(s, CompleteOne), Arriving(s);
      && t.ring.pool == s.ring.pool && t.ring.sq == s.ring.sq && t.ring.cq == s.ring.cq[1..]
      && t.timing == s.timing[p.bufIdx := Timing(s.clock, None, None)]
      && t.clock == s.clock && t.reports == s.reports && t.sqeQueue == s.sqeQueue && SameTables(s, t)
      && (forall j | 0 <= j < |s.shards| ::
            t.shards[j].queue == s.shards[j].queue + (if Target(s, p.src) == Some(j) then [Transmit(p)] else []))
  {
    hide RingInv, Arriving, Complete, Next, ProcessReturn;
    NextCompletion(s);
    CompleteEffect(s.ring);
    var p := Arriving(s);
    assert Target(Taken(s, p.bufIdx), p.src) == Target(s, p.src);
    if Target(s, p.src).Some? {
    } else {
    }
  }

  /** The completion of a send, or a notification, changes the ring and the time stamps. */
  lemma SendEffect(s: Server)
    requires s.ring.cq != [] && !Receiving(s)
    ensures var t := Next(s, CompleteOne);
      && t.ring == Complete(s.ring) && t.clock == s.clock && SameQueues(s, t)
  {
    hide Receiving, FinishSend, Route;
    FinishSendRest(s);
    FinishClock(s);
  }

  lemma FinishClock(s: Server)
    requires s.ring.cq != []
    ensures FinishSend(s).clock == s.clock
  {
    hide Complete, DecodeToken;
  }

  lemma MoreTiming(s: Server)
    requires s.ring.cq != [] && DecodeToken(s.ring.cq[0].token).0.Send? && s.ring.cq[0].more
    ensures Next(s, CompleteOne).timing == s.timing && Next(s, CompleteOne).reports == s.reports
  {
    hide DecodeToken, Complete, Route;
  }

  lemma DoneTiming(s: Server)
    requires RelayInv(s) && TimingOk(s) && s.ring.cq != []
    requires DecodeToken(s.ring.cq[0].token).0.Send? && !s.ring.cq[0].more
    ensures var i, t := DecodeToken(s.ring.cq[0].token).1, Next(s, CompleteOne);
      && i in s.timing && IsComplete(s.timing[i])
      && t.reports == s.reports + [Report(s.timing[i], s.clock)] && t.timing == s.timing - {i}
  {
    hide RelayInv, TimingOk, DecodeToken, Complete, Route;
    RecordFound(s);
  }

  lemma SendOneEffect(s: Server, spent: nat)
    requires s.sqeQueue != []
    ensures Enabled(s, SendOne(spent))
    ensures var t, m := Next(s, SendOne(spent)), s.sqeQueue[0];
      && t.ring.pool == Alloc(s.ring.pool, m.bufIdx, m.dest)
      && t.ring.sq == IoRing.Push(s.ring.sq, NewRequest(s.ring.pool, SendMsgZc, m.bufIdx))
      && t.ring.cq == s.ring.cq && t.sqeQueue == s.sqeQueue[1..] && t.clock == s.clock + spent
      && t.timing == MarkSendSqe(MarkShardDone(s.timing, m.bufIdx, s.clock), m.bufIdx, s.clock + spent)
      && t.reports == s.reports && t.shards == s.shards && SameTables(s, t)
  {
    hide PostSend, Alloc, IoRing.Push, NewRequest, MarkSendSqe, MarkShardDone;
    PostSendEffect(s.ring, s.sqeQueue[0].bufIdx, s.sqeQueue[0].dest);
  }

  lemma RegisterEffect(s: Server, session: Session)
    requires TablesOk(s)
    ensures Enabled(s, Register(session))
    ensures var t, k := Next(s, Register(session)), s.nextShard;
      && t.ring == s.ring && t.timing == s.timing && t.clock == s.clock && t.reports == s.reports
      && t.sqeQueue == s.sqeQueue && t.nextShard == (k + 1) % |s.shards| && |t.shards| == |s.shards|
      && t.endpointToShard == s.endpointToShard[session.host := k][session.peer := k]
      && (forall j | 0 <= j < |s.shards| :: t.shards[j].queue == s.shards[j].queue +
            (if j == k && |s.shards[j].queue| < QUEUE_CAPACITY then [AddSession(session)] else []))
  {
  }

  lemma HeldIndex(s: Server, m: SendRequest)
    requires RelayInv(s) && m in s.sqeQueue
    ensures m.bufIdx < POOL_SIZE
  {
    hide PointersOk, ContentsOk, SendsOk, PacketsOk, TablesOk, Bag, LinkOk;
    ReturnHeld(s, m);
    Exclusive(s.ring, multiset{}, m.bufIdx);
  }

  // ---- what the loop sees

  /** The values of the loop's objects. */
  datatype View = View(pool: Pool, sq: Sq, cq: seq<Cqe>, timing: map<nat, Timing>, clock: nat,
                       queues: seq<seq<Message>>, endpointToShard: map<Addr, nat>, nextShard: nat,
                       back: seq<SendRequest>, log: seq<Intervals>)

  function Offered(q: seq<Message>, m: Message): seq<Message> {
    if |q| < QUEUE_CAPACITY then q + [m] else q
  }

  ghost predicate Logs(log: seq<Intervals>, reports: seq<Report>) {
    && |log| == |reports|
    && (forall k | 0 <= k < |log| :: IsComplete(reports[k].timing) && log[k] == Measured(reports[k]))
  }

  lemma LogSnoc(log: seq<Intervals>, reports: seq<Report>, r: Report)
    requires Logs(log, reports) && IsComplete(r.timing)
    ensures Logs(log + [Measured(r)], reports + [r])
  {
  }

  /** The loop's objects hold what the model says, and its log the intervals of the reports. */
  ghost predicate Mirrors(s: Server, v: View) {
    && v.pool == s.ring.pool && v.sq == s.ring.sq && v.cq == s.ring.cq
    && v.timing == s.timing && v.clock == s.clock
    && |v.queues| == |s.shards| && (forall k | 0 <= k < |v.queues| :: v.queues[k] == s.shards[k].queue)
    && v.endpointToShard == s.endpointToShard && v.nextShard == s.nextShard
    && v.back == s.sqeQueue
    && Logs(v.log, s.reports)
  }

  ghost predicate Good(s: Server, v: View) {
    Mirrors(s, v) && RelayInv(s) && TimingOk(s)
  }

  lemma GoodStep(s: Server, step: Step, v: View)
    requires RelayInv(s) && TimingOk(s) && Enabled(s, step) && Mirrors(Next(s, step), v)
    ensures Good(Next(s, step), v)
  {
    hide RelayInv, TimingOk, Next, Enabled, Mirrors;
    StepKeeps(s, step);
    StepTiming(s, step);
  }

  // Waiting

  lemma ElapseGood(s: Server, v: View, dt: nat)
    requires Good(s, v)
    ensures Enabled(s, Elapse(dt)) && Good(Next(s, Elapse(dt)), v.(clock := v.clock + dt))
  {
    hide RelayInv, TimingOk, Logs;
    GoodStep(s, Elapse(dt), v.(clock := v.clock + dt));
  }

  // Registering

  function Controlled(v: View, session: Session): View
    requires v.nextShard < |v.queues|
  {
    var k := v.nextShard;
    v.(nextShard := (k + 1) % |v.queues|,
       queues := v.queues[k := Offered(v.queues[k], AddSession(session))],
       endpointToShard := v.endpointToShard[session.host := k][session.peer := k])
  }

  lemma ControlGood(s: Server, v: View, session: Session)
    requires Good(s, v)
    ensures Enabled(s, Register(session)) && v.nextShard < |v.queues|
    ensures Good(Next(s, Register(session)), Controlled(v, session))
  {
    hide RingInv, LinkOk, PacketsOk, TimingOk, Next, Enabled, Logs;
    RegisterEffect(s, session);
    GoodStep(s, Register(session), Controlled(v, session));
  }

  // Sending

  function SentOne(v: View, sqeAt: nat): View
    requires v.back != []
  {
    var m := v.back[0];
    v.(back := v.back[1..], clock := sqeAt,
       pool := Alloc(v.pool, m.bufIdx, m.dest),
       sq := IoRing.Push(v.sq, NewRequest(v.pool, SendMsgZc, m.bufIdx)),
       timing := MarkSendSqe(MarkShardDone(v.timing, m.bufIdx, v.clock), m.bufIdx, sqeAt))
  }

  lemma SendGood(s: Server, v: View, spent: nat)
    requires Good(s, v) && v.back != []
    ensures Enabled(s, SendOne(spent)) && v.back[0].bufIdx < POOL_SIZE
    ensures Good(Next(s, SendOne(spent)), SentOne(v, v.clock + spent))
  {
    hide RelayInv, TimingOk, Next, Enabled, Logs, Alloc, IoRing.Push, MarkSendSqe, MarkShardDone;
    HeldIndex(s, v.back[0]);
    SendOneEffect(s, spent);
    GoodStep(s, SendOne(spent), SentOne(v, v.clock + spent));
  }

  /** `t` is `s` after two steps. */
  ghost predicate Follows(s: Server, a: Step, b: Step, t: Server) {
    Enabled(s, a) && Enabled(Next(s, a), b) && t == Next(Next(s, a), b)
  }

  lemma WaitAndSendGood(s: Server, v: View, waited: nat, spent: nat)
    requires Good(s, v) && v.back != []
    ensures v.back[0].bufIdx < POOL_SIZE
    ensures Enabled(s, Elapse(waited)) && Enabled(Next(s, Elapse(waited)), SendOne(spent))
    ensures var t := Next(Next(s, Elapse(waited)), SendOne(spent));
      && Follows(s, Elapse(waited), SendOne(spent), t)
      && Good(t, SentOne(v.(clock := v.clock + waited), v.clock + waited + spent))
  {
    hide Good, Next, Enabled, SentOne;
    ElapseGood(s, v, waited);
    SendGood(Next(s, Elapse(waited)), v.(clock := v.clock + waited), spent);
  }

  function Synced(v: View, n: nat): View
    requires v.sq.Ok() && n <= |v.sq.Pending()|
  {
    v.(sq := SyncSq(v.sq, n))
  }

  lemma GoodSq(s: Server, v: View)
    requires Good(s, v)
    ensures v.sq == s.ring.sq && v.sq.Ok()
  {
    hide LinkOk, PacketsOk, TablesOk, OwnedOk, SendsOk, ContentsOk, TimingOk, Logs;
  }

  lemma SyncGood(s: Server, v: View, n: nat)
    requires Good(s, v) && v.sq.Ok() && n <= |v.sq.Pending()|
    ensures Enabled(s, SyncRing(n)) && Good(Next(s, SyncRing(n)), Synced(v, n))
  {
    hide LinkOk, PacketsOk, TablesOk, OwnedOk, SendsOk, ContentsOk, TimingOk, Logs, SyncSq;
    GoodStep(s, SyncRing(n), Synced(v, n));
  }

  // Seeding

  function SeededOne(v: View): View
    requires v.pool.free != [] && v.pool.free[|v.pool.free| - 1] < INDEX_LIMIT
  {
    var n := |v.pool.free| - 1;
    var i, rest := v.pool.free[n], v.pool.(free := v.pool.free[..n]);
    v.(pool := Alloc(rest, i, UNSPECIFIED), sq := IoRing.Push(v.sq, NewRequest(rest, RecvMsg, i)))
  }

  lemma SeedGood(s: Server, v: View)
    requires Good(s, v) && v.pool.free != []
    ensures Enabled(s, Seed) && v.pool.free[|v.pool.free| - 1] < POOL_SIZE
    ensures Good(Next(s, Seed), SeededOne(v))
  {
    hide LinkOk, PacketsOk, TablesOk, RingInv, TimingOk, Logs, Alloc, IoRing.Push;
    SeedKeeps(s.ring);
    FreeIndex(s.ring, |s.ring.pool.free| - 1);
    GoodStep(s, Seed, SeededOne(v));
  }

  // Processing a completion

  function Routed(queues: seq<seq<Message>>, endpointToShard: map<Addr, nat>, p: Packet): seq<seq<Message>> {
    if p.src in endpointToShard && endpointToShard[p.src] < |queues|
    then queues[endpointToShard[p.src] := Offered(queues[endpointToShard[p.src]], Transmit(p))]
    else queues
  }

  function Received(v: View, i: u16, c: Cqe): View {
    v.(timing := v.timing[i := Timing(v.clock, None, None)],
       queues := Routed(v.queues, v.endpointToShard, Packet(i, Length(c), PeerAddr(v.pool, i))))
  }

  function Reposted(v: View, i: u16): View {
    v.(pool := Alloc(v.pool, i, UNSPECIFIED), sq := IoRing.Push(v.sq, NewRequest(v.pool, RecvMsg, i)))
  }

  predicate Unwraps(timing: map<nat, Timing>, i: nat) {
    i in timing ==> IsComplete(timing[i])
  }

  function Reported(v: View, i: nat): View
    requires Unwraps(v.timing, i)
  {
    v.(timing := v.timing - {i},
       log := v.log + if i in v.timing then [Measured(Report(v.timing[i], v.clock))] else [])
  }

  /** What the loop does with a completion it has taken off the queue. */
  function Dispatched(v: View, op: OpType, i: u16, c: Cqe): View
    requires op.Send? && !c.more ==> Unwraps(v.timing, i)
  {
    match op
    case Recv => Received(v, i, c)
    case Send => if c.more then v else Reported(Reposted(v, i), i)
    case SendNotif => Reposted(v, i)
  }

  function Completed(v: View): View
    requires v.cq != []
    requires DecodeToken(v.cq[0].token).0.Send? && !v.cq[0].more ==> Unwraps(v.timing, DecodeToken(v.cq[0].token).1)
  {
    var (op, i) := DecodeToken(v.cq[0].token);
    Dispatched(v.(cq := v.cq[1..]), op, i, v.cq[0])
  }

  lemma ReceivedGood(s: Server, v: View)
    requires Good(s, v) && v.cq != [] && s.ring.cq == v.cq && Receiving(s)
    ensures var i := DecodeToken(v.cq[0].token).1;
      i < POOL_SIZE && Good(Next(s, CompleteOne), Received(v.(cq := v.cq[1..]), i, v.cq[0]))
  {
    hide LinkOk, PacketsOk, RingInv, TimingOk, Next, Logs, PeerAddr, Length;
    CompleteEffect(s.ring);
    ReceiveEffect(s);
    GoodStep(s, CompleteOne, Received(v.(cq := v.cq[1..]), DecodeToken(v.cq[0].token).1, v.cq[0]));
  }

  lemma FinishedGood(s: Server, v: View)
    requires Good(s, v) && s.ring.cq != [] && DecodeToken(s.ring.cq[0].token).0.Send? && !s.ring.cq[0].more
    ensures var i := DecodeToken(v.cq[0].token).1;
      && i < POOL_SIZE && Unwraps(v.timing, i)
      && Good(Next(s, CompleteOne), Reported(Reposted(v.(cq := v.cq[1..]), i), i))
  {
    hide RelayInv, TimingOk, Next, Measured, IsComplete, Alloc, IoRing.Push, NewRequest, DecodeToken, Receiving, Logs;
    var i := DecodeToken(v.cq[0].token).1;
    NotReceiving(s);
    InvParts(s);
    CompleteEffect(s.ring);
    SendEffect(s);
    DoneTiming(s);
    LogSnoc(v.log, s.reports, Report(s.timing[i], s.clock));
    GoodStep(s, CompleteOne, Reported(Reposted(v.(cq := v.cq[1..]), i), i));
  }

  lemma MoreGood(s: Server, v: View)
    requires Good(s, v) && s.ring.cq != [] && DecodeToken(s.ring.cq[0].token).0.Send? && s.ring.cq[0].more
    ensures Good(Next(s, CompleteOne), v.(cq := v.cq[1..]))
  {
    hide RelayInv, TimingOk, Next, Logs, IsComplete, Alloc, IoRing.Push, DecodeToken, Receiving;
    NotReceiving(s);
    InvParts(s);
    CompleteEffect(s.ring);
    SendEffect(s);
    MoreTiming(s);
    GoodStep(s, CompleteOne, v.(cq := v.cq[1..]));
  }

  lemma NotReceiving(s: Server)
    requires s.ring.cq != [] && DecodeToken(s.ring.cq[0].token).0.Send?
    ensures !Receiving(s) && Enabled(s, CompleteOne)
    ensures IsFinal(s.ring.cq[0]) <==> !s.ring.cq[0].more
  {
  }

  lemma CompletedGood(s: Server, v: View)
    requires Good(s, v) && v.cq != []
    ensures var (op, i) := DecodeToken(v.cq[0].token);
      i < POOL_SIZE && op != SendNotif && (op.Send? && !v.cq[0].more ==> Unwraps(v.timing, i))
    ensures Enabled(s, CompleteOne) && Good(Next(s, CompleteOne), Completed(v))
  {
    hide RelayInv, TimingOk, Next, Measured, IsComplete, Received, Reported, Reposted, Mirrors, DecodeToken;
    MirrorsCq(s, v);
    InvParts(s);
    CompleteEffect(s.ring);
    if DecodeToken(v.cq[0].token).0.Recv? {
      ReceivedGood(s, v);
    } else if v.cq[0].more {
      MoreGood(s, v);
    } else {
      FinishedGood(s, v);
    }
  }

  lemma WaitAndCompleteGood(s: Server, v: View, waited: nat)
    requires Good(s, v) && v.cq != []
    ensures var (op, i) := DecodeToken(v.cq[0].token); var v1 := v.(clock := v.clock + waited);
      && i < POOL_SIZE && op != SendNotif && (op.Send? && !v.cq[0].more ==> Unwraps(v.timing, i))
      && Enabled(s, Elapse(waited)) && Enabled(Next(s, Elapse(waited)), CompleteOne)
      && Follows(s, Elapse(waited), CompleteOne, Next(Next(s, Elapse(waited)), CompleteOne))
      && Good(Next(Next(s, Elapse(waited)), CompleteOne), Completed(v1))
  {
    hide Good, Next, Enabled, Completed, DecodeToken;
    ElapseGood(s, v, waited);
    CompletedGood(Next(s, Elapse(waited)), v.(clock := v.clock + waited));
  }

  lemma MirrorsCq(s: Server, v: View)
    requires Mirrors(s, v)
    ensures v.cq == s.ring.cq
  {
  }

  lemma StartGood(n: nat, capacity: nat, v: View)
    requires n > 0 && Mirrors(Start(n, capacity), v)
    ensures Good(Start(n, capacity), v)
  {
    hide RelayInv, TimingOk, Start, Mirrors;
    StartInv(n, capacity);
    StartTiming(n, capacity);
  }

  lemma RunAlso(s: Server, steps: seq<Step>, step: Step)
    requires Valid(s, steps) && Enabled(Run(s, steps), step)
    ensures Valid(s, steps + [step]) && Run(s, steps + [step]) == Next(Run(s, steps), step)
  {
    hide Next, Enabled;
    OneStep(Run(s, steps), step);
    RunAppend(s, steps, [step]);
  }

  lemma RunFollows(s: Server, steps: seq<Step>, a: Step, b: Step, t: Server)
    requires Valid(s, steps) && Follows(Run(s, steps), a, b, t)
    ensures Valid(s, steps + [a, b]) && Run(s, steps + [a, b]) == t
  {
    hide Next, Enabled;
    RunAlso(s, steps, a);
    RunAlso(s, steps + [a], b);
    assert steps + [a] + [b] == steps + [a, b];
  }

  function Registers(sessions: seq<Session>): seq<Step> {
    seq(|sessions|, i requires 0 <= i < |sessions| => Register(sessions[i]))
  }

  /** The steps of a drain, begun in phase `from`, have led to phase `to`. */
  predicate Leads(from: Phase, steps: seq<Step>, to: Phase) {
    InPhases(from, steps) && PhaseAfterAll(from, steps) == to
  }

  lemma LeadsNowhere(phase: Phase)
    ensures Leads(phase, [], phase)
  {
  }

  /** Waiting, then a step of the loop. */
  lemma LeadsOn(from: Phase, steps: seq<Step>, to: Phase, waited: nat, step: Step)
    requires Leads(from, steps, to) && InPhase(to, step)
    ensures Leads(from, steps + [Elapse(waited), step], PhaseAfter(to, step))
  {
    var more := [Elapse(waited), step];
    assert more[1..] == [step] && more[1..][1..] == [];
    assert InPhases(to, more[1..]) && PhaseAfterAll(to, more[1..]) == PhaseAfter(to, step);
    PhasesAppend(from, steps, more);
  }

  lemma SendsMoves(m: Moment, sends: seq<Step>, pushed: nat, s: Server)
    requires m.phase.Registering? && Valid(m.server, sends) && Run(m.server, sends) == s
    requires Leads(Sending(0), sends, Sending(pushed))
    ensures Allows(m, [EndRegistering] + Dos(sends))
    ensures Reached(m, [EndRegistering] + Dos(sends)) == Moment(s, Sending(pushed))
  {
    hide Next, Enabled, InPhases, PhaseAfterAll;
    OneMove(m, EndRegistering);
    DoAll(m.(phase := Sending(0)), sends);
    MovesAppend(m, [EndRegistering], Dos(sends));
  }

  lemma SyncMoves(m: Moment, n: nat)
    requires m.phase.Sending? && m.phase.pushed > 0 && m.server.sqeQueue == [] && Enabled(m.server, SyncRing(n))
    ensures Allows(m, [EndSending, Do(SyncRing(n))])
    ensures Reached(m, [EndSending, Do(SyncRing(n))]) == Moment(Next(m.server, SyncRing(n)), Collecting)
  {
    hide Next, Enabled;
    OneMove(m, EndSending);
    OneMove(Moved(m, EndSending), Do(SyncRing(n)));
    MovesAppend(m, [EndSending], [Do(SyncRing(n))]);
    assert [EndSending] + [Do(SyncRing(n))] == [EndSending, Do(SyncRing(n))];
  }

  lemma NoSyncMoves(m: Moment)
    requires m.phase == Sending(0) && m.server.sqeQueue == []
    ensures Allows(m, [EndSending]) && Reached(m, [EndSending]) == Moment(m.server, Collecting)
  {
    hide Next, Enabled;
    OneMove(m, EndSending);
  }

  lemma CompletionMoves(m: Moment, completions: seq<Step>, s: Server)
    requires m.phase.Collecting? && Valid(m.server, completions) && Run(m.server, completions) == s
    requires Leads(Completing(|m.server.ring.cq|), completions, Completing(0))
    ensures var moves := [Collect(|m.server.ring.cq|)] + Dos(completions) + [EndCompleting];
      Allows(m, moves) && Reached(m, moves) == Moment(s, Registering)
  {
    hide Next, Enabled, InPhases, PhaseAfterAll;
    var n := |m.server.ring.cq|;
    OneMove(m, Collect(n));
    DoAll(m.(phase := Completing(n)), completions);
    MovesAppend(m, [Collect(n)], Dos(completions));
    OneMove(Moment(s, Completing(0)), EndCompleting);
    MovesAppend(m, [Collect(n)] + Dos(completions), [EndCompleting]);
  }

  lemma MirrorsQueues(s: Server, v: View)
    requires Good(s, v)
    ensures v.back == s.sqeQueue && v.cq == s.ring.cq
  {
    hide RelayInv, TimingOk;
  }

  // ---- the loop

  class EventLoop {
    const pool: BufferPool
    const sq: SubmissionQueue
    const router: Shards.ShardRouter
    const sqeRx: Shards.Channel
    var cq: seq<Cqe>
    var controllerRx: seq<Session>
    var clock: nat
    var log: seq<Intervals>
    ghost var model: Server

    ghost function Queues(): (q: seq<seq<Message>>)
      reads router.senders
      ensures |q| == |router.senders| && forall k | 0 <= k < |q| :: q[k] == router.senders[k].items
    {
      seq(|router.senders|, k requires 0 <= k < |router.senders| reads router.senders => router.senders[k].items)
    }

    ghost function Look(): View
      reads this`cq, this`clock, this`log, pool, sq, router, sqeRx, router.senders
    {
      View(pool.Value(), sq.Value(), cq, pool.timestamp, clock, Queues(),
           router.endpointToShard, router.nextShard, sqeRx.items, log)
    }

    ghost predicate Inv()
      reads this`model, this`cq, this`clock, this`log, pool, sq, router, sqeRx, router.senders
    {
      && pool.Valid() && router.Valid()
      && (forall k | 0 <= k < |router.senders| :: router.senders[k].capacity == QUEUE_CAPACITY)
      && Good(model, Look())
    }

    /** What main hands over, with the pool's buffers registered. */
    constructor (pool: BufferPool, sq: SubmissionQueue, router: Shards.ShardRouter, sqeRx: Shards.Channel)
      requires pool.Value() == Pool([], map[], map[], 0) && pool.timestamp == map[]
      requires sq.Value() == Sq(sq.capacity, [], 0, 0) && sqeRx.items == []
      requires router.Valid() && router.endpointToShard == map[] && router.nextShard == 0
      requires forall k | 0 <= k < |router.senders| ::
        router.senders[k].items == [] && router.senders[k].capacity == QUEUE_CAPACITY
      modifies pool
      ensures this.pool == pool && this.sq == sq && this.router == router && this.sqeRx == sqeRx
      ensures Inv() && model == Start(|router.senders|, sq.capacity)
      ensures cq == [] && controllerRx == []
    {
      this.pool, this.sq, this.router, this.sqeRx := pool, sq, router, sqeRx;
      cq, controllerRx, clock, log := [], [], 0, [];
      model := Start(|router.senders|, sq.capacity);
      new;
      hide RelayInv, TimingOk;
      pool.RegisterBufferKernel();
      StartGood(|router.senders|, sq.capacity, Look());
    }

    method Now() returns (now: nat)
      modifies this`clock
      ensures old(clock) <= now == clock
    {
      var passed: int := *;
      if passed > 0 { clock := clock + passed; }
      now := clock;
    }

    /** One control message. */
    method Control(session: Session)
      requires Inv()
      modifies this`model, router, router.senders
      ensures Inv()
      ensures Enabled(old(model), Register(session)) && model == Next(old(model), Register(session))
    {
      hide Good, Next, Enabled;
      ghost var v := Look();
      ControlGood(model, v, session);
      var shard := router.NextShard();
      var _ := router.senders[shard].Enqueue(AddSession(session));
      router.endpointToShard := router.endpointToShard[session.host := shard];
      router.endpointToShard := router.endpointToShard[session.peer := shard];
      model := Next(model, Register(session));
      assert Look().queues == Controlled(v, session).queues;
    }

    /** Posts a send and stamps its packet before and after. */
    method Submit(m: SendRequest) returns (ghost doneAt: nat)
      requires pool.Valid() && m.bufIdx < POOL_SIZE
      modifies this`clock, pool, sq
      ensures pool.Valid() && old(clock) <= doneAt <= clock
      ensures pool.Value() == Alloc(old(pool.Value()), m.bufIdx, m.dest)
      ensures sq.Value() == IoRing.Push(old(sq.Value()), NewRequest(old(pool.Value()), SendMsgZc, m.bufIdx))
      ensures pool.timestamp == MarkSendSqe(MarkShardDone(old(pool.timestamp), m.bufIdx, doneAt), m.bufIdx, clock)
      ensures m.bufIdx in old(pool.timestamp) ==>
        var recvAt := old(pool.timestamp)[m.bufIdx].recvAt;
        pool.timestamp == old(pool.timestamp)[m.bufIdx := Timing(recvAt, Some(doneAt), Some(clock))]
    {
      hide MarkShardDone, MarkSendSqe, Alloc, IoRing.Push, NewRequest, PoolOk;
      var now := Now();
      doneAt := now;
      pool.MarkShardDoneAt(m.bufIdx, now);
      pool.PostSendSqe(sq, m.len, m.bufIdx, m.dest);
      now := Now();
      pool.MarkSendSqeAt(m.bufIdx, now);
    }

    /** One entry of the return channel, if there is one. */
    method SendNext() returns (more: bool, ghost waited: nat, ghost spent: nat)
      requires Inv()
      modifies this`model, this`clock, pool, sq, sqeRx
      ensures Inv()
      ensures more <==> old(sqeRx.items) != []
      ensures sqeRx.items == if more then old(sqeRx.items)[1..] else []
      ensures !more ==> model == old(model)
      ensures more ==> Follows(old(model), Elapse(waited), SendOne(spent), model)
    {
      hide Good, Follows, Next, Enabled, MarkShardDone, MarkSendSqe, Alloc, IoRing.Push, NewRequest, PoolOk;
      waited, spent := 0, 0;
      ghost var v := Look();
      var r := sqeRx.TryRecv();
      if r.None? { return false, 0, 0; }
      WaitAndSendGood(model, v, 0, 0);
      ghost var doneAt := Submit(r.value);
      waited, spent := doneAt - v.clock, clock - doneAt;
      WaitAndSendGood(model, v, waited, spent);
      model := Next(Next(model, Elapse(waited)), SendOne(spent));
      assert Look() == SentOne(v.(clock := doneAt), clock);
      more := true;
    }

    /** The packet goes to the queue of its shard, if there is one and it has room. */
    method Pass(p: Packet)
      requires router.Valid()
      requires forall k | 0 <= k < |router.senders| :: router.senders[k].capacity == QUEUE_CAPACITY
      modifies router.senders
      ensures Queues() == Routed(old(Queues()), router.endpointToShard, p)
    {
      ghost var before := Queues();
      ghost var k := router.Route(p);
      forall j | 0 <= j < |before| ensures Queues()[j] == Routed(before, router.endpointToShard, p)[j] {
        assert Queues()[j] == before[j] + (if k == Some(j) then [Transmit(p)] else []);
      }
    }

    /** A receive: stamp it, and let the router have it. */
    method Receive(cqe: Cqe, idx: u16)
      requires router.Valid()
      requires forall k | 0 <= k < |router.senders| :: router.senders[k].capacity == QUEUE_CAPACITY
      modifies this`clock, pool`timestamp, router.senders
      ensures old(clock) <= clock && pool.timestamp == old(pool.timestamp)[idx := Timing(clock, None, None)]
      ensures Queues()
           == Routed(old(Queues()), router.endpointToShard, Packet(idx, Length(cqe), PeerAddr(pool.Value(), idx)))
    {
      hide PeerAddr, Length, Routed;
      var now := Now();
      pool.MarkRecvFor(idx, now);
      var src := pool.GetPeerAddr(idx);
      now := Now();
      pool.MarkRecvFor(idx, now);
      assert pool.timestamp == old(pool.timestamp)[idx := Timing(clock, None, None)];
      Pass(Packet(idx, Length(cqe), src));
    }

    /** A send is done: its buffer is posted for the next receive, and its time is reported. */
    method Finish(idx: u16)
      requires pool.Valid() && idx < POOL_SIZE && Unwraps(pool.timestamp, idx)
      modifies this`clock, this`log, pool, sq
      ensures pool.Valid() && old(clock) <= clock
      ensures pool.Value() == Alloc(old(pool.Value()), idx, UNSPECIFIED)
      ensures sq.Value() == IoRing.Push(old(sq.Value()), NewRequest(old(pool.Value()), RecvMsg, idx))
      ensures pool.timestamp == old(pool.timestamp) - {idx}
      ensures log == old(log) + if idx in old(pool.timestamp)
        then [Measured(Report(old(pool.timestamp)[idx], clock))] else []
      ensures idx in old(pool.timestamp) ==>
        && |log| == |old(log)| + 1
        && var t, m := old(pool.timestamp)[idx], log[|old(log)|];
          && t.recvAt + m.shard == t.shardDoneAt.value && t.shardDoneAt.value + m.handoff == t.sendSqeAt.value
          && t.sendSqeAt.value + m.kernel == clock && t.recvAt + m.total == clock
    {
      hide Alloc, IoRing.Push, NewRequest, PoolOk;
      assert idx in pool.timestamp ==> IsComplete(pool.timestamp[idx]);
      pool.Release(idx, sq);
      var t := pool.TakeRecvFor(idx);
      if t.Some? {
        var sendCqeAt := Now();
        var shard := t.value.shardDoneAt.value - t.value.recvAt;
        var handoff := t.value.sendSqeAt.value - t.value.shardDoneAt.value;
        var kernel := sendCqeAt - t.value.sendSqeAt.value;
        var total := sendCqeAt - t.value.recvAt;
        log := log + [Intervals(total, shard, handoff, kernel)];
      }
    }

    method Dispatch(op: OpType, idx: u16, cqe: Cqe)
      requires pool.Valid() && router.Valid() && idx < POOL_SIZE
      requires forall k | 0 <= k < |router.senders| :: router.senders[k].capacity == QUEUE_CAPACITY
      requires op.Send? && !cqe.more ==> Unwraps(pool.timestamp, idx)
      modifies this`clock, this`log, pool, sq, router.senders
      ensures pool.Valid() && old(clock) <= clock
      ensures Look() == Dispatched(old(Look()).(clock := clock), op, idx, cqe)
    {
      hide Alloc, IoRing.Push, NewRequest, PoolOk, Routed, Measured, Unwraps, Length, PeerAddr;
      match op {
        case Recv => Receive(cqe, idx);
        case Send => if !cqe.more { Finish(idx); }
        case SendNotif => pool.Release(idx, sq);
      }
    }

    /** The next completion. */
    method Complete() returns (ghost waited: nat)
      requires Inv() && cq != []
      modifies this`model, this`clock, this`cq, this`log, pool, sq, router.senders
      ensures Inv() && Follows(old(model), Elapse(waited), CompleteOne, model)
      ensures cq == old(cq)[1..]
    {
      hide Good, Follows, Next, Enabled, PoolOk, DecodeToken, Unwraps, Dispatched;
      ghost var v := Look();
      WaitAndCompleteGood(model, v, 0);
      var cqe := cq[0];
      cq := cq[1..];
      var (op, idx) := DecodeToken(cqe.token);
      Dispatch(op, idx, cqe);
      waited := clock - v.clock;
      WaitAndCompleteGood(model, v, waited);
      model := Next(Next(model, Elapse(waited)), CompleteOne);
      assert Look() == Completed(v.(clock := clock));
    }

    /** The receive for one free buffer. */
    method SeedNext()
      requires Inv() && pool.freeList != []
      modifies this`model, pool, sq
      ensures Inv() && |pool.freeList| == |old(pool.freeList)| - 1
      ensures Enabled(old(model), Seed) && model == Next(old(model), Seed)
    {
      hide Good, Next, Enabled, IoRing.Push, PoolOk;
      ghost var v := Look();
      SeedGood(model, v);
      var idx := pool.Acquire();
      if idx.Some? {
        assert pool.freeList == v.pool.free[..|v.pool.free| - 1];
        assert idx.value == v.pool.free[|v.pool.free| - 1];
        pool.PostRecvSqe(sq, idx.value);
      }
      model := Next(model, Seed);
      assert Look() == SeededOne(v);
    }

    /** A sync, while the kernel's polling thread may be at work. */
    method Publish() returns (ghost consumed: nat)
      requires Inv()
      modifies this`model, sq
      ensures Inv()
      ensures Enabled(old(model), SyncRing(consumed)) && model == Next(old(model), SyncRing(consumed))
      ensures sq.published == |sq.entries| && sq.taken == 0
    {
      hide Good, Next, Enabled, PoolOk, SyncSq;
      ghost var v := Look();
      GoodSq(model, v);
      var polled: int := *;
      var n: nat := if 0 <= polled <= |sq.entries| - sq.taken then polled else 0;
      consumed := n;
      SyncGood(model, v, n);
      sq.Sync(n);
      model := Next(model, SyncRing(n));
      assert Look() == Synced(v, n);
    }

    /** Start-up: a receive is posted for every buffer, and the ring is published. */
    method SeedAll() returns (ghost consumed: nat)
      requires Inv() && |pool.freeList| == POOL_SIZE
      modifies this`model, pool, sq
      ensures Inv() && pool.freeList == [] && sq.published == |sq.entries|
      ensures Valid(old(model), Seeds(POOL_SIZE) + [SyncRing(consumed)])
      ensures model == Run(old(model), Seeds(POOL_SIZE) + [SyncRing(consumed)])
      ensures Leads(Seeding(POOL_SIZE), Seeds(POOL_SIZE) + [SyncRing(consumed)], Registering)
    {
      hide Inv, Next, Enabled;
      assert Seeds(0) == [];
      for k := 0 to POOL_SIZE
        invariant Inv() && |pool.freeList| == POOL_SIZE - k
        invariant Valid(old(model), Seeds(k)) && model == Run(old(model), Seeds(k))
      {
        SeedNext();
        RunAlso(old(model), Seeds(k), Seed);
        assert Seeds(k) + [Step.Seed] == Seeds(k + 1);
      }
      consumed := Publish();
      RunAlso(old(model), Seeds(POOL_SIZE), SyncRing(consumed));
      SeedsInPhase(POOL_SIZE, POOL_SIZE);
      assert [SyncRing(consumed)][1..] == [];
      PhasesAppend(Seeding(POOL_SIZE), Seeds(POOL_SIZE), [SyncRing(consumed)]);
    }

    method DrainControl() returns (ghost steps: seq<Step>)
      requires Inv()
      modifies this`model, this`controllerRx, router, router.senders
      ensures Inv() && controllerRx == [] && steps == Registers(old(controllerRx))
      ensures |steps| == |old(controllerRx)|
      ensures forall i | 0 <= i < |steps| :: steps[i] == Register(old(controllerRx)[i])
      ensures Valid(old(model), steps) && model == Run(old(model), steps)
    {
      hide Inv, Next, Enabled;
      steps := [];
      ghost var k := 0;
      while controllerRx != []
        invariant Inv() && k + |controllerRx| == |old(controllerRx)| && controllerRx == old(controllerRx)[k..]
        invariant steps == Registers(old(controllerRx)[..k])
        invariant Valid(old(model), steps) && model == Run(old(model), steps)
        decreases |controllerRx|
      {
        var session := controllerRx[0];
        controllerRx := controllerRx[1..];
        Control(session);
        RunAlso(old(model), steps, Register(session));
        steps := steps + [Register(session)];
        k := k + 1;
      }
      assert old(controllerRx)[..k] == old(controllerRx);
    }

    method DrainReturns() returns (pushed: nat, ghost steps: seq<Step>)
      requires Inv()
      modifies this`model, this`clock, pool, sq, sqeRx
      ensures Inv() && sqeRx.items == [] && pushed == |old(sqeRx.items)|
      ensures Valid(old(model), steps) && model == Run(old(model), steps) && Leads(Sending(0), steps, Sending(pushed))
    {
      hide Inv, Next, Enabled, Follows, Leads;
      assert Leads(Sending(0), [], Sending(0)) by { LeadsNowhere(Sending(0)); }
      pushed, steps := 0, [];
      var more := true;
      while more
        invariant Inv() && pushed + |sqeRx.items| == |old(sqeRx.items)| && Leads(Sending(0), steps, Sending(pushed))
        invariant !more ==> sqeRx.items == []
        invariant Valid(old(model), steps) && model == Run(old(model), steps)
        decreases |sqeRx.items|, more
      {
        ghost var s, waited, spent := model, 0, 0;
        more, waited, spent := SendNext();
        if more {
          RunFollows(old(model), steps, Elapse(waited), SendOne(spent), model);
          LeadsOn(Sending(0), steps, Sending(pushed), waited, SendOne(spent));
          steps := steps + [Elapse(waited), SendOne(spent)];
          pushed := pushed + 1;
        }
      }
    }

    method DrainCompletions() returns (ghost steps: seq<Step>)
      requires Inv()
      modifies this`model, this`clock, this`cq, this`log, pool, sq, router.senders
      ensures Inv() && cq == [] && Leads(Completing(|old(cq)|), steps, Completing(0))
      ensures Valid(old(model), steps) && model == Run(old(model), steps)
    {
      hide Inv, Next, Enabled, Follows, Leads;
      steps := [];
      assert Leads(Completing(|cq|), [], Completing(|cq|)) by { LeadsNowhere(Completing(|cq|)); }
      while cq != []
        invariant Inv() && Leads(Completing(|old(cq)|), steps, Completing(|cq|))
        invariant Valid(old(model), steps) && model == Run(old(model), steps)
        decreases |cq|
      {
        ghost var left := |cq|;
        ghost var waited := Complete();
        RunFollows(old(model), steps, Elapse(waited), CompleteOne, model);
        LeadsOn(Completing(|old(cq)|), steps, Completing(left), waited, CompleteOne);
        steps := steps + [Elapse(waited), CompleteOne];
      }
    }

    /** The end of the control messages, all send requests, and a sync if there was any. */
    method SubmitAll() returns (ghost moves: seq<Move>)
      requires Inv()
      modifies this`model, this`clock, pool, sq, sqeRx
      ensures Inv() && sqeRx.items == []
      ensures Allows(Moment(old(model), Registering), moves)
      ensures Reached(Moment(old(model), Registering), moves) == Moment(model, Collecting)
    {
      hide Good, Next, Enabled, Follows, Moved, Allowed;
      ghost var m := Moment(model, Registering);
      var pushed;
      ghost var sends;
      pushed, sends := DrainReturns();
      MirrorsQueues(model, Look());
      ghost var drained := model;
      SendsMoves(m, sends, pushed, drained);
      moves := [EndRegistering] + Dos(sends);
      if pushed > 0 {
        ghost var consumed := Publish();
        SyncMoves(Moment(drained, Sending(pushed)), consumed);
        MovesAppend(m, moves, [EndSending, Do(SyncRing(consumed))]);
        moves := moves + [EndSending, Do(SyncRing(consumed))];
      } else {
        NoSyncMoves(Moment(drained, Sending(0)));
        MovesAppend(m, moves, [EndSending]);
        moves := moves + [EndSending];
      }
    }

    /** All completions. */
    method CompleteAll() returns (ghost moves: seq<Move>)
      requires Inv()
      modifies this`model, this`clock, this`cq, this`log, pool, sq, router.senders
      ensures Inv() && cq == []
      ensures Allows(Moment(old(model), Collecting), moves)
      ensures Reached(Moment(old(model), Collecting), moves) == Moment(model, Registering)
    {
      hide Good, Next, Enabled, Moved, Allowed;
      ghost var m := Moment(model, Collecting);
      MirrorsQueues(model, Look());
      ghost var completions := DrainCompletions();
      CompletionMoves(m, completions, model);
      moves := [Collect(|m.server.ring.cq|)] + Dos(completions) + [EndCompleting];
    }

    /** One turn of the main loop, with nothing new arriving meanwhile: all control messages, all
        send requests, a sync if there was any, all completions. It is a run in the loop's order. */
    method Turn() returns (ghost moves: seq<Move>)
      requires Inv()
      modifies this`model, this`clock, this`cq, this`log, this`controllerRx, pool, sq, router, sqeRx, router.senders
      ensures Inv() && controllerRx == [] && sqeRx.items == [] && cq == []
      ensures Allows(Moment(old(model), Registering), moves)
      ensures Reached(Moment(old(model), Registering), moves) == Moment(model, Registering)
    {
      hide Inv, Next, Enabled, Moved, Allowed;
      ghost var m := Moment(model, Registering);
      ghost var registers := DrainControl();
      RegistersInPhase(registers);
      DoAll(m, registers);
      ghost var submits := SubmitAll();
      MovesAppend(m, Dos(registers), submits);
      ghost var completes := CompleteAll();
      MovesAppend(m, Dos(registers) + submits, completes);
      moves := Dos(registers) + submits + completes;
    }
  }
}

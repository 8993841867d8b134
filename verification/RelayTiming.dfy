/** The time stamps of a packet are complete and in order whenever its send completes, so the
    event loop's unwraps never panic and its three intervals add up. */
module RelayTiming {
  import opened Basics
  import opened Bags
  import opened Token
  import opened IoRing
  import opened IoRingSafety
  import opened Relay
  import opened RelaySafety

  predicate Ordered(t: Timing, now: nat) {
    IsComplete(t) && t.recvAt <= t.shardDoneAt.value <= t.sendSqeAt.value <= now
  }

  predicate Started(timing: map<nat, Timing>, clock: nat, i: nat) {
    i in timing && timing[i].recvAt <= clock
  }

  predicate Stamped(timing: map<nat, Timing>, clock: nat, i: nat) {
    i in timing && Ordered(timing[i], clock)
  }

  /** The sends that have been pushed and are not done. */
  function UnderWay(g: Ring): multiset<nat> {
    g.pushed - g.reposted
  }

  ghost predicate StampsOk(timing: map<nat, Timing>, clock: nat, held: multiset<nat>, underWay: multiset<nat>) {
    && (forall i | i in held :: Started(timing, clock, i))
    && (forall i | i in underWay :: Stamped(timing, clock, i))
  }

  ghost predicate TimingOk(s: Server) {
    && !s.panicked
    && StampsOk(s.timing, s.clock, s.ring.held, UnderWay(s.ring))
    && (forall r | r in s.reports :: Ordered(r.timing, r.sendCqeAt))
  }

  // ---- the loop's steps

  /** Only sends that are under way complete, and each of them once. */
  lemma FinishedUnderWay(g: Ring)
    requires RingInv(g) && g.cq != [] && DecodeToken(g.cq[0].token).0.Send? && !g.cq[0].more
    ensures var i := DecodeToken(g.cq[0].token).1; i in UnderWay(g) && i !in g.held && UnderWay(g)[i] == 1
  {
    hide OwnedOk, PointersOk, ContentsOk, DecodeToken, Bag;
    var i := DecodeToken(g.cq[0].token).1;
    assert g.cq[0] in g.cq;
    BagMember(g.cq, CqeSendOwner, g.cq[0]);
    assert UnderWay(g) == Bag(Outstanding(g), SendOwner) + Bag(g.cq, CqeSendOwner);
    assert i in CqeSendOwner(g.cq[0]);
    RepostedOnce(g, i);
  }

  lemma FinishedRing(g: Ring)
    requires g.cq != []
    ensures var c, g' := g.cq[0], Complete(g);
      g'.pushed == g.pushed
      && (DecodeToken(c.token).0.Send? && !c.more ==> g'.reposted == g.reposted + multiset{DecodeToken(c.token).1})
      && (!(DecodeToken(c.token).0.Send? && !c.more) ==> g'.reposted == g.reposted)
  {
    hide DecodeToken, Alloc, Push, EncodeToken;
  }

  lemma StampTaken(timing: map<nat, Timing>, clock: nat, held: multiset<nat>, underWay: multiset<nat>, i: nat)
    requires StampsOk(timing, clock, held, underWay) && i !in held && underWay[i] == 1
    ensures i in timing && Ordered(timing[i], clock)
    ensures StampsOk(timing - {i}, clock, held, underWay - multiset{i})
  {
    hide Ordered;
    assert Stamped(timing, clock, i);
    forall j | j in held ensures Started(timing - {i}, clock, j) {
      assert Started(timing, clock, j);
    }
    forall j | j in underWay - multiset{i} ensures Stamped(timing - {i}, clock, j) {
      assert Stamped(timing, clock, j);
    }
  }

  lemma StampAdded(timing: map<nat, Timing>, clock: nat, held: multiset<nat>, underWay: multiset<nat>, i: nat)
    requires StampsOk(timing, clock, held, underWay) && i !in underWay
    ensures StampsOk(timing[i := Timing(clock, None, None)], clock, held + multiset{i}, underWay)
  {
    hide Ordered;
    var t := timing[i := Timing(clock, None, None)];
    forall j | j in held + multiset{i} ensures Started(t, clock, j) {
      if j != i { assert Started(timing, clock, j); }
    }
    forall j | j in underWay ensures Stamped(t, clock, j) {
      assert Stamped(timing, clock, j);
    }
  }

  lemma FinishTiming(s: Server)
    requires RingInv(s.ring) && TimingOk(s) && s.ring.cq != [] && !Receiving(s)
    ensures TimingOk(FinishSend(s))
  {
    hide RingInv, DecodeToken, Complete, Ordered, StampsOk, IsComplete;
    var c := s.ring.cq[0];
    var i := DecodeToken(c.token).1;
    CompleteTicket(s);
    FinishedRing(s.ring);
    if DecodeToken(c.token).0.Send? && !c.more {
      FinishedUnderWay(s.ring);
      StampTaken(s.timing, s.clock, s.ring.held, UnderWay(s.ring), i);
      OrderedComplete(s.timing[i], s.clock);
      assert UnderWay(Complete(s.ring)) == UnderWay(s.ring) - multiset{i};
    } else {
    }
  }

  lemma OrderedComplete(t: Timing, now: nat)
    requires Ordered(t, now)
    ensures IsComplete(t)
  {
  }

  lemma OrderedLater(t: Timing, now: nat, later: nat)
    requires Ordered(t, now) && now <= later
    ensures Ordered(t, later)
  {
  }

  lemma NotFinished(s: Server)
    requires Receiving(s)
    ensures !DecodeToken(s.ring.cq[0].token).0.Send?
  {
  }

  lemma ArriveTiming(s: Server)
    requires RingInv(s.ring) && TimingOk(s) && Receiving(s)
    ensures TimingOk(Taken(s, Arriving(s).bufIdx))
  {
    hide RingInv, Arriving, Complete, Ordered, StampsOk;
    var i := Arriving(s).bufIdx;
    CompleteKeeps(s.ring);
    CompleteTicket(s);
    FinishedRing(s.ring);
    NotFinished(s);
    RepostedOnce(Complete(s.ring), i);
    StampAdded(s.timing, s.clock, s.ring.held, UnderWay(s.ring), i);
  }

  lemma FewerStamps(timing: map<nat, Timing>, clock: nat, later: nat, held: multiset<nat>, held': multiset<nat>,
                    underWay: multiset<nat>)
    requires StampsOk(timing, clock, held, underWay) && held' <= held && clock <= later
    ensures StampsOk(timing, later, held', underWay)
  {
    forall i | i in underWay ensures Stamped(timing, later, i) {
      assert Stamped(timing, clock, i);
      OrderedLater(timing[i], clock, later);
    }
    forall i | i in held' ensures Started(timing, later, i) {
      assert Started(timing, clock, i);
    }
  }

  lemma QuietTiming(s: Server, t: Server)
    requires TimingOk(s) && t.timing == s.timing && t.reports == s.reports && t.panicked == s.panicked
    requires s.clock <= t.clock && t.ring.held <= s.ring.held
    requires t.ring.pushed == s.ring.pushed && t.ring.reposted == s.ring.reposted
    ensures TimingOk(t)
  {
    hide StampsOk, Ordered;
    FewerStamps(s.timing, s.clock, t.clock, s.ring.held, t.ring.held, UnderWay(s.ring));
  }

  lemma RouteTiming(s: Server, p: Packet)
    requires TimingOk(s)
    ensures TimingOk(Route(s, p))
  {
    hide TimingOk, Enqueue;
    if Target(s, p.src).Some? {
      QuietTiming(s, Route(s, p));
    } else {
      QuietTiming(s, Route(s, p));
    }
  }

  lemma HandleLeaves(s: Server, k: nat)
    requires k < |s.shards| && s.shards[k].inHand.Some?
    ensures var t := HandlePacket(s, k);
      && t.timing == s.timing && t.reports == s.reports && t.panicked == s.panicked && t.clock == s.clock
      && t.ring.held <= s.ring.held && t.ring.pushed == s.ring.pushed && t.ring.reposted == s.ring.reposted
  {
    hide Answer;
  }

  lemma HandleTiming(s: Server, k: nat)
    requires TimingOk(s) && k < |s.shards| && s.shards[k].inHand.Some?
    ensures TimingOk(HandlePacket(s, k))
  {
    hide TimingOk, HandlePacket;
    HandleLeaves(s, k);
    QuietTiming(s, HandlePacket(s, k));
  }

  /** The stamps of one send, in the order in which the loop sets them. */
  lemma MarkedStamps(timing: map<nat, Timing>, clock: nat, spent: nat, i: nat, held: multiset<nat>,
                     underWay: multiset<nat>)
    requires StampsOk(timing, clock, held, underWay) && i in held
    ensures StampsOk(MarkSendSqe(MarkShardDone(timing, i, clock), i, clock + spent), clock + spent,
                     held, underWay + multiset{i})
  {
    var t := MarkSendSqe(MarkShardDone(timing, i, clock), i, clock + spent);
    assert Started(timing, clock, i);
    forall j | j in underWay + multiset{i} ensures Stamped(t, clock + spent, j) {
      if j != i { assert Stamped(timing, clock, j); }
    }
    forall j | j in held ensures Started(t, clock + spent, j) {
      assert Started(timing, clock, j);
    }
  }

  lemma SendTiming(s: Server, spent: nat)
    requires RingInv(s.ring) && LinkOk(s) && TimingOk(s) && s.sqeQueue != []
    ensures TimingOk(ProcessReturn(s, spent))
  {
    hide RingInv, LinkOk, StampsOk, MarkSendSqe, MarkShardDone, PostSend, Ordered;
    var t, m := ProcessReturn(s, spent), s.sqeQueue[0];
    ReturnHeld(s, m);
    PostSendPushed(s.ring, m.bufIdx, m.dest);
    RepostedOnce(s.ring, m.bufIdx);
    MarkedStamps(s.timing, s.clock, spent, m.bufIdx, s.ring.held, UnderWay(s.ring));
    LessStamped(t.timing, t.clock, s.ring.held, UnderWay(s.ring) + multiset{m.bufIdx}, t.ring.held, UnderWay(t.ring));
  }

  lemma LessStamped(timing: map<nat, Timing>, clock: nat, held: multiset<nat>, underWay: multiset<nat>,
                    held': multiset<nat>, underWay': multiset<nat>)
    requires StampsOk(timing, clock, held, underWay) && held' <= held && underWay' <= underWay
    ensures StampsOk(timing, clock, held', underWay')
  {
    hide Started, Stamped;
  }

  lemma PostSendPushed(g: Ring, i: u16, dest: Addr)
    ensures PostSend(g, i, dest).held == g.held - multiset{i} && PostSend(g, i, dest).reposted == g.reposted
    ensures g.pushed <= PostSend(g, i, dest).pushed <= g.pushed + multiset{i}
  {
  }

  lemma QuietPushed(g: Ring, n: nat)
    ensures g.pool.free != [] && g.pool.free[|g.pool.free| - 1] < INDEX_LIMIT ==>
      var g' := SeedNext(g); g'.pushed == g.pushed && g'.reposted == g.reposted && g'.held == g.held
    ensures g.sq.Ok() && n <= |g.sq.Pending()| ==>
      var g' := Sync(g, n); g'.pushed == g.pushed && g'.reposted == g.reposted && g'.held == g.held
  {
    hide Alloc, Push, EncodeToken;
  }

  lemma CompletionTiming(s: Server)
    requires RingInv(s.ring) && TimingOk(s) && s.ring.cq != []
    ensures TimingOk(ProcessCompletion(s))
  {
    hide RingInv, TimingOk, Arriving, Route, FinishSend, Taken;
    if Receiving(s) {
      ArriveTiming(s);
      RouteTiming(Taken(s, Arriving(s).bufIdx), Arriving(s));
    } else {
      FinishTiming(s);
    }
  }

  lemma StepTiming(s: Server, step: Step)
    requires RelayInv(s) && TimingOk(s) && Enabled(s, step)
    ensures TimingOk(Next(s, step))
  {
    hide RingInv, LinkOk, PacketsOk, TablesOk, TimingOk, ProcessCompletion, KernelNext, HandlePacket;
    hide SeedNext, Sync, ProcessReturn, Dequeue, Enqueue;
    match step
    case SendOne(spent) => SendTiming(s, spent);
    case CompleteOne => CompletionTiming(s);
    case ShardHandle(k) => HandleTiming(s, k);
    case Kernel(k) =>
      KernelLeaves(s.ring, k);
      QuietTiming(s, Next(s, step));
    case Seed =>
      QuietPushed(s.ring, 0);
      QuietTiming(s, Next(s, step));
    case SyncRing(n) =>
      QuietPushed(s.ring, n);
      QuietTiming(s, Next(s, step));
    case Register(_) => QuietTiming(s, Next(s, step));
    case ShardTake(_, _) => QuietTiming(s, Next(s, step));
    case Elapse(_) => QuietTiming(s, Next(s, step));
  }

  lemma {:induction false} RunTiming(s: Server, steps: seq<Step>)
    requires RelayInv(s) && TimingOk(s) && Valid(s, steps)
    ensures TimingOk(Run(s, steps))
    decreases |steps|
  {
    hide Next, Enabled, RelayInv, TimingOk;
    if steps != [] {
      StepKeeps(s, steps[0]);
      StepTiming(s, steps[0]);
      RunTiming(Next(s, steps[0]), steps[1..]);
    }
  }

  lemma StartTiming(n: nat, capacity: nat)
    ensures TimingOk(Start(n, capacity))
  {
  }

  // ---- the theorems

  /** What the loop logs when a send is done. */
  datatype Intervals = Intervals(total: int, shard: int, handoff: int, kernel: int)

  function Measured(r: Report): Intervals
    requires IsComplete(r.timing)
  {
    Intervals(r.sendCqeAt - r.timing.recvAt,
              r.timing.shardDoneAt.value - r.timing.recvAt,
              r.timing.sendSqeAt.value - r.timing.shardDoneAt.value,
              r.sendCqeAt - r.timing.sendSqeAt.value)
  }

  /** Each interval, added to the stamp at which it begins, gives the stamp at which it ends. */
  predicate Spans(r: Report, m: Intervals)
    requires IsComplete(r.timing)
  {
    && r.timing.recvAt + m.shard == r.timing.shardDoneAt.value
    && r.timing.shardDoneAt.value + m.handoff == r.timing.sendSqeAt.value
    && r.timing.sendSqeAt.value + m.kernel == r.sendCqeAt
    && r.timing.recvAt + m.total == r.sendCqeAt
  }

  /** In every run the loop never panics, and every report has all its stamps, in order: its intervals
      lie between the stamps they are named after, none is negative, and together they make up the
      total. */
  lemma ReportsAddUp(n: nat, capacity: nat, steps: seq<Step>)
    requires n > 0 && Valid(Start(n, capacity), steps)
    ensures !Run(Start(n, capacity), steps).panicked
    ensures forall r | r in Run(Start(n, capacity), steps).reports ::
      && IsComplete(r.timing) && Spans(r, Measured(r))
      && Measured(r).shard >= 0 && Measured(r).handoff >= 0 && Measured(r).kernel >= 0
      && Measured(r).total == Measured(r).shard + Measured(r).handoff + Measured(r).kernel
  {
    hide RelayInv, Next, Enabled, Start, StampsOk;
    StartInv(n, capacity);
    StartTiming(n, capacity);
    RunTiming(Start(n, capacity), steps);
    forall r | r in Run(Start(n, capacity), steps).reports
      ensures IsComplete(r.timing)
      ensures Spans(r, Measured(r))
      ensures Measured(r).shard >= 0 && Measured(r).handoff >= 0 && Measured(r).kernel >= 0
    {
      assert Ordered(r.timing, r.sendCqeAt);
    }
  }

  /** The first stamp is the time at which the loop took the receive. */
  lemma ArrivalStamp(s: Server)
    requires Receiving(s)
    ensures Next(s, CompleteOne).timing == s.timing[Arriving(s).bufIdx := Timing(s.clock, None, None)]
  {
    hide Arriving, Complete, Enqueue, Drop;
    if Target(Taken(s, Arriving(s).bufIdx), Arriving(s).src).Some? {
    } else {
    }
  }

  /** The other two are the times before and after the loop posted the send. */
  lemma SendStamps(s: Server, spent: nat)
    requires s.sqeQueue != [] && s.sqeQueue[0].bufIdx in s.timing
    ensures var i, t := s.sqeQueue[0].bufIdx, Next(s, SendOne(spent));
      && t.clock == s.clock + spent
      && t.timing == s.timing[i := Timing(s.timing[i].recvAt, Some(s.clock), Some(s.clock + spent))]
  {
    hide PostSend;
  }

  /** Every final completion of a send finds its record, and finds it complete. */
  lemma RecordFound(s: Server)
    requires RelayInv(s) && TimingOk(s) && s.ring.cq != []
    requires DecodeToken(s.ring.cq[0].token).0.Send? && !s.ring.cq[0].more
    ensures var i := DecodeToken(s.ring.cq[0].token).1;
      && i in s.timing && IsComplete(s.timing[i])
      && Next(s, CompleteOne).reports == s.reports + [Report(s.timing[i], s.clock)]
  {
    hide RingInv, LinkOk, PacketsOk, DecodeToken, Complete, Route;
    FinishedUnderWay(s.ring);
    assert Stamped(s.timing, s.clock, DecodeToken(s.ring.cq[0].token).1);
  }
}

/** The older relay: one loop, one working shard (shard_for always answers 0) and two bounded
    channels whose sends block. The loop is modelled phase by phase. */
module FirstImpl {
  import opened Basics
  import opened Bags
  import opened Token
  import opened IoRing
  import opened IoRingSafety
  import opened RingSizing
  import opened Relay

  const RING_ENTRIES: nat := 2048
  const CHANNEL_SLOTS: nat := 1024
  const MAX_SQE_BATCH: nat := 32

  datatype Phase =
    | Seeding(left: nat)
    | Sending(pushed: nat)        // taking send requests, at most MAX_SQE_BATCH of them
    | Completing(left: nat)       // working off the completions collected before

  datatype State = State(
    ring: Ring, phase: Phase,
    channel: seq<Packet>,         // to shard 0
    inHand: Option<Packet>,       // taken by the shard
    back: seq<SendRequest>,       // to the loop
    sessions: map<Addr, Session>) // of shard 0, filled before it starts

  datatype Step =
    | Loop
    | Collect(n: nat)             // the loop: sync if something was pushed, then take n completions
    | ShardRecv
    | ShardHandle
    | Kernel(step: KernelStep)

  function Reply(sessions: map<Addr, Session>, p: Packet): Option<SendRequest> {
    if p.src in sessions && sessions[p.src].RouteTo(p.src).Some?
    then Some(SendRequest(sessions[p.src].RouteTo(p.src).value, p.len, p.bufIdx)) else None
  }

  function Answer(s: State): Option<SendRequest>
    requires s.inHand.Some?
  {
    Reply(s.sessions, s.inHand.value)
  }

  predicate Receiving(g: Ring) {
    g.cq != [] && DecodeToken(g.cq[0].token).0.Recv?
  }

  function Arriving(g: Ring): Packet
    requires Receiving(g)
  {
    var i := DecodeToken(g.cq[0].token).1;
    Packet(i, Length(g.cq[0]), PeerAddr(g.pool, i))
  }

  /** The loop stands before the router's send into a full channel. */
  predicate LoopBlocked(s: State) {
    s.phase.Completing? && s.phase.left > 0 && Receiving(s.ring) && |s.channel| >= CHANNEL_SLOTS
  }

  /** The shard stands before its send into a full channel. */
  predicate ShardBlocked(s: State) {
    s.inHand.Some? && Answer(s).Some? && |s.back| >= CHANNEL_SLOTS
  }

  /** The loop has nothing more to take from the shard in this round. */
  predicate BatchDone(s: State) {
    s.phase.Sending? && (s.phase.pushed >= MAX_SQE_BATCH || s.back == [])
  }

  ghost predicate Enabled(s: State, step: Step) {
    match step
    case Loop => !LoopBlocked(s) && !BatchDone(s)
    case Collect(n) => BatchDone(s) && n <= |s.ring.cq|
    case ShardRecv => s.inHand.None? && s.channel != []
    case ShardHandle => s.inHand.Some? && !ShardBlocked(s)
    case Kernel(k) => KernelEnabled(s.ring, k)
  }

  function LoopSeed(s: State): State
    requires s.phase.Seeding?
  {
    var free := s.ring.pool.free;
    if s.phase.left == 0 then
      s.(ring := if s.ring.sq.Ok() then Sync(s.ring, 0) else s.ring, phase := Sending(0))
    else
      s.(ring := if free != [] && free[|free| - 1] < INDEX_LIMIT then SeedNext(s.ring) else s.ring,
         phase := Seeding(s.phase.left - 1))
  }

  function LoopSend(s: State): State
    requires s.phase.Sending? && s.back != []
  {
    s.(ring := PostSend(s.ring, s.back[0].bufIdx, s.back[0].dest), back := s.back[1..],
       phase := Sending(s.phase.pushed + 1))
  }

  function LoopComplete(s: State): State
    requires s.phase.Completing?
  {
    if s.phase.left == 0 || s.ring.cq == [] then s.(phase := Sending(0))
    else
      s.(ring := Complete(s.ring), phase := Completing(s.phase.left - 1),
         channel := if Receiving(s.ring) then s.channel + [Arriving(s.ring)] else s.channel)
  }

  function HandlePacket(s: State): State
    requires s.inHand.Some?
  {
    if Answer(s).Some? then s.(inHand := None, back := s.back + [Answer(s).value])
    else s.(inHand := None, ring := Drop(s.ring, s.inHand.value.bufIdx))
  }

  ghost function Next(s: State, step: Step): State
    requires Enabled(s, step)
  {
    match step
    case Loop =>
      if s.phase.Seeding? then LoopSeed(s) else if s.phase.Sending? then LoopSend(s) else LoopComplete(s)
    case Collect(n) =>
      s.(ring := if s.phase.pushed > 0 && s.ring.sq.Ok() then Sync(s.ring, 0) else s.ring, phase := Completing(n))
    case ShardRecv => s.(inHand := Some(s.channel[0]), channel := s.channel[1..])
    case ShardHandle => HandlePacket(s)
    case Kernel(k) => s.(ring := KernelNext(s.ring, k))
  }

  ghost predicate Valid(s: State, steps: seq<Step>)
    decreases |steps|
  {
    steps == [] || (Enabled(s, steps[0]) && Valid(Next(s, steps[0]), steps[1..]))
  }

  ghost function Run(s: State, steps: seq<Step>): State
    requires Valid(s, steps)
    decreases |steps|
  {
    if steps == [] then s else Run(Next(s, steps[0]), steps[1..])
  }

  lemma {:induction false} RunAppend(s: State, a: seq<Step>, b: seq<Step>)
    requires Valid(s, a) && Valid(Run(s, a), b)
    ensures Valid(s, a + b) && Run(s, a + b) == Run(Run(s, a), b)
    decreases |a|
  {
    hide Next, Enabled;
    if a == [] {
      assert a + b == b;
    } else {
      assert (a + b)[0] == a[0] && (a + b)[1..] == a[1..] + b;
      RunAppend(Next(s, a[0]), a[1..], b);
    }
  }

  /** One step after a run. */
  lemma RunAlso(s: State, steps: seq<Step>, step: Step)
    requires Valid(s, steps) && Enabled(Run(s, steps), step)
    ensures Valid(s, steps + [step]) && Run(s, steps + [step]) == Next(Run(s, steps), step)
  {
    hide Next, Enabled;
    assert [step][1..] == [] && Valid(Next(Run(s, steps), step), []);
    RunAppend(s, steps, [step]);
  }

  function Start(sessions: map<Addr, Session>): State {
    State(Registered(RING_ENTRIES), Seeding(POOL_SIZE), [], None, [], sessions)
  }

  // ---- the invariant

  function PacketOwner(p: Packet): multiset<nat> { multiset{p.bufIdx} }

  ghost predicate LinkOk(s: State) {
    s.ring.held == Bag(s.channel, PacketOwner) + HandOwner(s.inHand) + Bag(s.back, ReturnOwner)
  }

  /** The completions collected are there, and there is a free buffer for every one to be seeded. */
  ghost predicate PhaseOk(s: State) {
    && (s.phase.Completing? ==> s.phase.left <= |s.ring.cq|)
    && (s.phase.Seeding? ==> s.phase.left == |s.ring.pool.free|)
  }

  ghost predicate Inv(s: State) {
    RingInv(s.ring) && LinkOk(s) && PhaseOk(s) && Sized(s.ring.sq)
  }

  lemma RecvLink(s: State)
    requires LinkOk(s) && s.inHand.None? && s.channel != []
    ensures LinkOk(s.(inHand := Some(s.channel[0]), channel := s.channel[1..]))
  {
    hide Bag;
    BagHead(s.channel, PacketOwner);
  }

  lemma HandleLink(s: State)
    requires LinkOk(s) && s.inHand.Some?
    ensures LinkOk(HandlePacket(s))
  {
    hide Bag;
    if Answer(s).Some? {
      BagSnoc(s.back, Answer(s).value, ReturnOwner);
    }
  }

  lemma SendLink(s: State)
    requires LinkOk(s) && s.phase.Sending? && s.back != []
    ensures LinkOk(LoopSend(s)) && s.back[0].bufIdx in s.ring.held
  {
    hide Bag;
    BagHead(s.back, ReturnOwner);
  }

  lemma CompleteTicket(g: Ring)
    requires g.cq != []
    ensures Receiving(g) ==> HandsOut(g, Complete(g), Arriving(g).bufIdx)
    ensures !Receiving(g) ==> SameOutside(g, Complete(g))
    ensures Complete(g).cq == g.cq[1..] && Complete(g).pool.free == g.pool.free
  {
    hide DecodeToken, EncodeToken, Push;
    CompleteHeld(g);
  }

  lemma CompleteLink(s: State)
    requires LinkOk(s) && s.phase.Completing?
    ensures LinkOk(LoopComplete(s))
  {
    hide Bag, Complete, Receiving, Arriving;
    if s.phase.left > 0 && s.ring.cq != [] {
      CompleteTicket(s.ring);
      if Receiving(s.ring) {
        BagSnoc(s.channel, Arriving(s.ring), PacketOwner);
      }
    }
  }

  lemma HandHeld(s: State)
    requires LinkOk(s) && s.inHand.Some?
    ensures s.inHand.value.bufIdx in s.ring.held
  {
    hide Bag;
  }

  lemma SeedFree(g: Ring)
    requires g.pool.free != [] && g.pool.free[|g.pool.free| - 1] < INDEX_LIMIT
    ensures |SeedNext(g).pool.free| == |g.pool.free| - 1 && SeedNext(g).held == g.held
  {
    hide EncodeToken, Push;
  }

  lemma SeedStep(s: State)
    requires Inv(s) && s.phase.Seeding?
    ensures Inv(LoopSeed(s))
  {
    hide RingInv, Bag, SeedNext, Sync, Sized;
    RingOwned(s.ring);
    if s.phase.left == 0 {
      SyncKeeps(s.ring, 0);
      SyncSized(s.ring, 0);
      SyncRest(s.ring);
    } else {
      SeedKeeps(s.ring);
      SeedFree(s.ring);
      SeedHead(s.ring);
      SizedSame(s.ring.sq, SeedNext(s.ring).sq);
    }
  }

  lemma SyncRest(g: Ring)
    requires RingInv(g)
    ensures g.sq.Ok() && Sync(g, 0).held == g.held && Sync(g, 0).cq == g.cq
  {
  }

  lemma SizedSame(sq: Sq, sq': Sq)
    requires Sized(sq) && SameHead(sq, sq')
    ensures Sized(sq')
  {
  }

  lemma SendStep(s: State)
    requires Inv(s) && s.phase.Sending? && s.back != []
    ensures Inv(LoopSend(s))
  {
    hide RingInv, LinkOk, PostSend, Sized;
    SendLink(s);
    PostSendKeeps(s.ring, s.back[0].bufIdx, s.back[0].dest);
    SendHead(s.ring, s.back[0].bufIdx, s.back[0].dest);
    SizedSame(s.ring.sq, LoopSend(s).ring.sq);
  }

  lemma CompleteStep(s: State)
    requires Inv(s) && s.phase.Completing?
    ensures Inv(LoopComplete(s))
  {
    hide RingInv, LinkOk, Complete, Receiving, Arriving, Sized;
    CompleteLink(s);
    if s.phase.left > 0 {
      CompleteKeeps(s.ring);
      CompleteTicket(s.ring);
      CompleteHead(s.ring);
      SizedSame(s.ring.sq, Complete(s.ring).sq);
    }
  }

  lemma CollectStep(s: State, n: nat)
    requires Inv(s) && Enabled(s, Collect(n))
    ensures Inv(Next(s, Collect(n)))
  {
    hide RingInv, Bag, Sync, Sized;
    RingOwned(s.ring);
    SyncKeeps(s.ring, 0);
    SyncSized(s.ring, 0);
    SyncRest(s.ring);
  }

  lemma HandleStep(s: State)
    requires Inv(s) && s.inHand.Some?
    ensures Inv(HandlePacket(s))
  {
    hide RingInv, LinkOk, Sized, Answer;
    HandleLink(s);
    HandHeld(s);
    DropKeeps(s.ring, s.inHand.value.bufIdx);
  }

  lemma KernelStepKeeps(s: State, k: KernelStep)
    requires Inv(s) && KernelEnabled(s.ring, k)
    ensures Inv(s.(ring := KernelNext(s.ring, k)))
  {
    hide RingInv, Bag, KernelNext, Sized;
    KernelKeeps(s.ring, k);
    KernelLeaves(s.ring, k);
    SizedSame(s.ring.sq, KernelNext(s.ring, k).sq);
  }

  lemma StepKeeps(s: State, step: Step)
    requires Inv(s) && Enabled(s, step)
    ensures Inv(Next(s, step))
  {
    hide Inv, LoopSeed, LoopSend, LoopComplete, HandlePacket, KernelNext, Answer;
    match step
    case Loop =>
      if s.phase.Seeding? { SeedStep(s); } else if s.phase.Sending? { SendStep(s); } else { CompleteStep(s); }
    case Collect(n) => CollectStep(s, n);
    case ShardRecv => RecvStep(s);
    case ShardHandle => HandleStep(s);
    case Kernel(k) => KernelStepKeeps(s, k);
  }

  lemma RecvStep(s: State)
    requires Inv(s) && s.inHand.None? && s.channel != []
    ensures Inv(s.(inHand := Some(s.channel[0]), channel := s.channel[1..]))
  {
    hide RingInv, LinkOk, Sized;
    RecvLink(s);
  }

  lemma {:induction false} RunKeeps(s: State, steps: seq<Step>)
    requires Inv(s) && Valid(s, steps)
    ensures Inv(Run(s, steps))
    decreases |steps|
  {
    hide Inv, Next, Enabled;
    if steps != [] {
      StepKeeps(s, steps[0]);
      RunKeeps(Next(s, steps[0]), steps[1..]);
    }
  }

  lemma StartInv(sessions: map<Addr, Session>)
    ensures Inv(Start(sessions))
  {
    hide RingInv;
    RegisteredInv(RING_ENTRIES);
  }

  // ---- neither channel ever fills, and no push is ever rejected

  lemma ChannelSizes(s: State)
    requires LinkOk(s)
    ensures |s.ring.held| == |s.channel| + (if s.inHand.Some? then 1 else 0) + |s.back|
  {
    BagSize(s.channel, PacketOwner);
    BagSize(s.back, ReturnOwner);
  }

  /** The index about to be sent is not in the channel, so at most 1023 others are. */
  lemma ChannelsHaveRoom(s: State)
    requires Inv(s)
    ensures !LoopBlocked(s) && !ShardBlocked(s)
  {
    hide LinkOk, PhaseOk, Sized, RingInv, Sum, Answer;
    ChannelSizes(s);
    RingOwned(s.ring);
    var total := Sum(s.ring.cq, FinalCount) + |s.ring.held|;
    assert total <= POOL_SIZE by { Used(s.ring); }
    if Receiving(s.ring) {
      SumMember(s.ring.cq, FinalCount, s.ring.cq[0]);
    }
  }

  lemma Used(g: Ring)
    requires OwnedOk(g, multiset{})
    ensures Sum(g.cq, FinalCount) + |g.held| <= POOL_SIZE
  {
    hide OwnedOk;
    assert g.sq.Ok() by { OwnedSq(g, multiset{}); }
    RingSizes(g, multiset{});
  }

  /** In every run the loop can take its next step, and the shard its next one as soon as it has a
      packet: they never wait for each other. */
  lemma NeverDeadlocked(sessions: map<Addr, Session>, steps: seq<Step>)
    requires Valid(Start(sessions), steps)
    ensures var s := Run(Start(sessions), steps);
      && (Enabled(s, Loop) || Enabled(s, Collect(|s.ring.cq|)))
      && (s.inHand.Some? ==> Enabled(s, Step.ShardHandle))
      && (s.inHand.None? && s.channel != [] ==> Enabled(s, ShardRecv))
  {
    hide Inv, Start, Answer, LoopBlocked, ShardBlocked;
    StartInv(sessions);
    RunKeeps(Start(sessions), steps);
    ChannelsHaveRoom(Run(Start(sessions), steps));
  }

  /** The loop's next step pushes a request. */
  ghost predicate Pushes(s: State) {
    || (s.phase.Seeding? && s.phase.left > 0)
    || (s.phase.Sending? && s.back != [])
    || (s.phase.Completing? && s.phase.left > 0 && s.ring.cq != [] && !Receiving(s.ring) && IsFinal(s.ring.cq[0]))
  }

  /** In every run a ring of 2048 entries takes every request: none is ever rejected. */
  lemma NoPushRejected(sessions: map<Addr, Session>, steps: seq<Step>)
    requires Valid(Start(sessions), steps) && Pushes(Run(Start(sessions), steps))
    ensures !IsFull(Run(Start(sessions), steps).ring.sq)
  {
    hide Inv, Start, Pushes;
    StartInv(sessions);
    RunKeeps(Start(sessions), steps);
    PushAccepted(Run(Start(sessions), steps));
  }

  lemma PushAccepted(s: State)
    requires Inv(s) && Pushes(s)
    ensures !IsFull(s.ring.sq)
  {
    hide RingInv, LinkOk, Sum, Receiving, OwnedOk, IsFinal;
    RingOwned(s.ring);
    if s.phase.Sending? {
      SendLink(s);
      assert |s.ring.held| > 0;
    } else if s.phase.Completing? {
      SumMember(s.ring.cq, FinalCount, s.ring.cq[0]);
    }
    PushFits(s.ring, multiset{});
  }
}

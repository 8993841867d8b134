/** Where the older relay sends what it receives: to the other end of the session that its shard was
    given for the source, and nothing that was received is lost unless its source has no session. */
module FirstRouting {
  import opened Basics
  import opened Bags
  import opened Token
  import opened IoRing
  import opened IoRingSafety
  import opened RingSizing
  import RelaySafety
  import Relay
  import opened FirstImpl

  /** `dest` is the other end of the session of `src`. */
  predicate Leads(sessions: map<Addr, Relay.Session>, src: Addr, dest: Addr) {
    src in sessions &&
    if src == sessions[src].host then dest == sessions[src].peer
    else src == sessions[src].peer && dest == sessions[src].host
  }

  predicate HasRoute(sessions: map<Addr, Relay.Session>, src: Addr) {
    src in sessions && (src == sessions[src].host || src == sessions[src].peer)
  }

  // ---- the shard

  /** What the shard does with the packet in its hand: the other end of its source's session gets it;
      without a session its buffer is lost. */
  lemma ShardAnswers(s: State)
    requires Enabled(s, Step.ShardHandle)
    ensures var p, t := s.inHand.value, Next(s, Step.ShardHandle);
      && t.inHand.None? && t.channel == s.channel && t.sessions == s.sessions
      && (HasRoute(s.sessions, p.src) ==>
            var se := s.sessions[p.src];
            && t.ring == s.ring
            && t.back == s.back + [Relay.SendRequest(if p.src == se.host then se.peer else se.host, p.len, p.bufIdx)])
      && (!HasRoute(s.sessions, p.src) ==> t.back == s.back && t.ring == Drop(s.ring, p.bufIdx))
  {
    hide Drop;
  }

  // ---- the invariant

  /** The ticket of buffer `i`, and what was received under it. */
  predicate Carrying(g: Ring, i: nat) {
    i in g.ticketOf && g.ticketOf[i] < |g.recvLog|
  }

  predicate RequestRouted(s: State, m: Relay.SendRequest) {
    && Carrying(s.ring, m.bufIdx)
    && var rx := s.ring.recvLog[s.ring.ticketOf[m.bufIdx]];
      |rx.data| == m.len && Leads(s.sessions, rx.src, m.dest)
  }

  predicate DestRouted(s: State, t: nat) {
    t in s.ring.dests && t < |s.ring.recvLog| && Leads(s.sessions, s.ring.recvLog[t].src, s.ring.dests[t])
  }

  predicate LostRouted(s: State, i: nat) {
    Carrying(s.ring, i) && !HasRoute(s.sessions, s.ring.recvLog[s.ring.ticketOf[i]].src)
  }

  predicate Described(g: Ring, p: Relay.Packet) {
    RelaySafety.PacketOk(g.ticketOf, g.recvLog, p)
  }

  ghost predicate RoutedOk(s: State) {
    && (forall p | p in s.channel :: Described(s.ring, p))
    && (s.inHand.Some? ==> Described(s.ring, s.inHand.value))
    && (forall m | m in s.back :: RequestRouted(s, m))
    && (forall t | t in s.ring.dests :: DestRouted(s, t))
    && (forall i | i in s.ring.lost :: LostRouted(s, i))
  }

  /** Nothing is received, asked for or lost. */
  ghost predicate SameRecords(g: Ring, g': Ring) {
    g'.ticketOf == g.ticketOf && g'.recvLog == g.recvLog && g'.dests == g.dests && g'.lost == g.lost
  }

  lemma SameRouted(s: State, t: State)
    requires RoutedOk(s) && SameRecords(s.ring, t.ring)
    requires t.channel == s.channel && t.inHand == s.inHand && t.back == s.back && t.sessions == s.sessions
    ensures RoutedOk(t)
  {
    hide Leads, HasRoute, RelaySafety.PacketOk;
    forall m | m in t.back ensures RequestRouted(t, m) { assert RequestRouted(s, m); }
    forall n | n in t.ring.dests ensures DestRouted(t, n) { assert DestRouted(s, n); }
    forall i | i in t.ring.lost ensures LostRouted(t, i) { assert LostRouted(s, i); }
    forall p | p in t.channel ensures Described(t.ring, p) { assert Described(s.ring, p); }
  }

  // ---- the loop

  lemma SeedRecords(g: Ring)
    requires g.pool.free != [] && g.pool.free[|g.pool.free| - 1] < INDEX_LIMIT && !IsFull(g.sq)
    ensures SameRecords(g, SeedNext(g))
  {
    hide Alloc, Push, EncodeToken;
  }

  lemma SeedRouted(s: State)
    requires Inv(s) && RoutedOk(s) && s.phase.Seeding?
    ensures RoutedOk(LoopSeed(s))
  {
    hide Inv, RoutedOk, SeedNext, Sync;
    if s.phase.left > 0 {
      PushAccepted(s);
      if s.ring.pool.free != [] && s.ring.pool.free[|s.ring.pool.free| - 1] < INDEX_LIMIT { SeedRecords(s.ring); }
    }
    SyncRecords(s.ring);
    SameRouted(s, LoopSeed(s));
  }

  lemma SyncRecords(g: Ring)
    ensures g.sq.Ok() ==> SameRecords(g, Sync(g, 0))
  {
  }

  lemma PostSendRecords(g: Ring, i: u16, dest: Addr)
    requires !IsFull(g.sq)
    ensures var g' := PostSend(g, i, dest);
      && g'.ticketOf == g.ticketOf && g'.recvLog == g.recvLog && g'.lost == g.lost
      && g'.dests == g.dests[TicketIn(g, i) := dest]
  {
    hide Alloc, Push, EncodeToken;
  }

  lemma SendRouted(s: State)
    requires Inv(s) && RoutedOk(s) && s.phase.Sending? && s.back != []
    ensures RoutedOk(LoopSend(s))
  {
    hide Inv, Leads, HasRoute, PostSend, RelaySafety.PacketOk;
    var t, m := LoopSend(s), s.back[0];
    assert RequestRouted(s, m);
    PushAccepted(s);
    PostSendRecords(s.ring, m.bufIdx, m.dest);
    forall r | r in t.back ensures RequestRouted(t, r) { assert RequestRouted(s, r); }
    forall n | n in t.ring.dests ensures DestRouted(t, n) {
      if n != s.ring.ticketOf[m.bufIdx] { assert DestRouted(s, n); }
    }
    forall i | i in t.ring.lost ensures LostRouted(t, i) { assert LostRouted(s, i); }
    forall p | p in t.channel ensures Described(t.ring, p) { assert Described(s.ring, p); }
  }

  /** The buffer of an arriving datagram is nowhere else. */
  lemma ArrivingAlone(s: State)
    requires Inv(s) && Receiving(s.ring)
    ensures var i := Arriving(s.ring).bufIdx;
      && (forall p | p in s.channel :: p.bufIdx != i) && (s.inHand.Some? ==> s.inHand.value.bufIdx != i)
      && (forall m | m in s.back :: m.bufIdx != i) && i !in s.ring.lost
  {
    hide DecodeToken, PointersOk, ContentsOk, SendsOk, Sized, PhaseOk;
    var i := Arriving(s.ring).bufIdx;
    assert s.ring.cq[0] in s.ring.cq && i in CqeOwner(s.ring.cq[0]);
    if i in s.ring.held { Exclusive(s.ring, multiset{}, i); }
    forall p | p in s.channel ensures p.bufIdx != i { BagMember(s.channel, PacketOwner, p); }
    forall m | m in s.back ensures m.bufIdx != i { BagMember(s.back, Relay.ReturnOwner, m); }
    CompletedNotLost(s.ring, s.ring.cq[0], i);
  }

  lemma CompletedNotLost(g: Ring, c: Cqe, i: nat)
    requires OwnedOk(g, multiset{}) && c in g.cq && i in CqeOwner(c)
    ensures i !in g.lost
  {
    hide CqeOwner, Owner, Outstanding;
    UpToOnce(POOL_SIZE, i);
    BagMember(g.cq, CqeOwner, c);
  }

  lemma ArrivalDescribed(g: Ring)
    requires RingInv(g) && Receiving(g)
    ensures Described(Complete(g), Arriving(g))
    ensures Arriving(g).bufIdx in g.origin && g.origin[Arriving(g).bufIdx].src == Arriving(g).src
    ensures |g.origin[Arriving(g).bufIdx].data| == Arriving(g).len
    ensures Complete(g).recvLog == g.recvLog + [g.origin[Arriving(g).bufIdx]]
    ensures Complete(g).lost == g.lost
  {
    hide OwnedOk, SendsOk, ContentsOk;
    assert CompletionOk(g, g.cq[0]);
  }

  lemma ArriveRouted(s: State)
    requires Inv(s) && RoutedOk(s) && s.phase.Completing? && s.phase.left > 0 && Receiving(s.ring)
    ensures RoutedOk(LoopComplete(s))
  {
    hide RingInv, LinkOk, PhaseOk, Complete, Receiving, Arriving, Leads, HasRoute;
    var t, i := LoopComplete(s), Arriving(s.ring).bufIdx;
    CompletionThere(s.ring);
    ArrivingAlone(s);
    ArrivalDescribed(s.ring);
    CompleteTicket(s.ring);
    forall m | m in t.back ensures RequestRouted(t, m) { assert RequestRouted(s, m); }
    forall n | n in t.ring.dests ensures DestRouted(t, n) { assert DestRouted(s, n); }
    forall j | j in t.ring.lost ensures LostRouted(t, j) { assert LostRouted(s, j); }
    forall p | p in t.channel ensures Described(t.ring, p) {
      if p in s.channel { assert Described(s.ring, p); }
    }
  }

  lemma FinishRecords(g: Ring)
    requires g.cq != [] && !Receiving(g) && (IsFinal(g.cq[0]) ==> !IsFull(g.sq))
    requires DecodeToken(g.cq[0].token).0 != SendNotif
    ensures SameRecords(g, Complete(g))
  {
    hide Alloc, Push, EncodeToken, DecodeToken;
  }

  lemma FinishRouted(s: State)
    requires Inv(s) && RoutedOk(s) && s.phase.Completing? && !(s.phase.left > 0 && Receiving(s.ring))
    ensures RoutedOk(LoopComplete(s))
  {
    hide Inv, RoutedOk, Complete, Receiving, IsFinal, DecodeToken;
    if s.phase.left > 0 && s.ring.cq != [] {
      if IsFinal(s.ring.cq[0]) { PushAccepted(s); }
      NoNotifToken(s);
      FinishRecords(s.ring);
    }
    SameRouted(s, LoopComplete(s));
  }

  lemma NoNotifToken(s: State)
    requires Inv(s) && s.ring.cq != []
    ensures DecodeToken(s.ring.cq[0].token).0 != SendNotif
  {
    hide LinkOk, PhaseOk, OwnedOk, SendsOk, ContentsOk, DecodeToken;
    assert CompletionOk(s.ring, s.ring.cq[0]);
  }

  // ---- the shard and the kernel

  lemma HandleRouted(s: State)
    requires RoutedOk(s) && s.inHand.Some? && Enabled(s, Step.ShardHandle)
    ensures RoutedOk(Next(s, Step.ShardHandle))
  {
    hide Next, Enabled, Drop;
    var t, p := Next(s, Step.ShardHandle), s.inHand.value;
    ShardAnswers(s);
    DropRecords(s.ring, p.bufIdx);
    assert Described(s.ring, p);
    forall m | m in t.back ensures RequestRouted(t, m) { if m in s.back { assert RequestRouted(s, m); } }
    forall n | n in t.ring.dests ensures DestRouted(t, n) { assert DestRouted(s, n); }
    forall i | i in t.ring.lost ensures LostRouted(t, i) { if i in s.ring.lost { assert LostRouted(s, i); } }
    forall q | q in t.channel ensures Described(t.ring, q) { assert Described(s.ring, q); }
  }

  lemma DropRecords(g: Ring, i: nat)
    ensures var g' := Drop(g, i);
      g'.ticketOf == g.ticketOf && g'.recvLog == g.recvLog && g'.dests == g.dests && g'.lost == g.lost + [i]
  {
  }

  lemma StepRouted(s: State, step: Step)
    requires Inv(s) && RoutedOk(s) && Enabled(s, step)
    ensures RoutedOk(Next(s, step)) && Next(s, step).sessions == s.sessions
  {
    hide Inv, RoutedOk, LoopSeed, LoopSend, LoopComplete, HandlePacket, KernelNext, Receiving, Sync;
    match step
    case Loop => LoopRouted(s);
    case Collect(n) =>
      SyncRecords(s.ring);
      SameRouted(s, Next(s, step));
    case ShardRecv => RecvRouted(s);
    case ShardHandle =>
      HandleRouted(s);
      ShardAnswers(s);
    case Kernel(k) =>
      KernelLeaves(s.ring, k);
      SameRouted(s, Next(s, step));
  }

  lemma LoopRouted(s: State)
    requires Inv(s) && RoutedOk(s) && Enabled(s, Loop)
    ensures RoutedOk(Next(s, Loop)) && Next(s, Loop).sessions == s.sessions
  {
    hide Inv, RoutedOk, Receiving, PostSend, Complete, SeedNext, Sync;
    if s.phase.Seeding? {
      SeedRouted(s);
    } else if s.phase.Sending? {
      SendRouted(s);
    } else if s.phase.left > 0 && Receiving(s.ring) {
      ArriveRouted(s);
    } else {
      FinishRouted(s);
    }
  }

  lemma RecvRouted(s: State)
    requires RoutedOk(s) && Enabled(s, ShardRecv)
    ensures RoutedOk(Next(s, ShardRecv)) && Next(s, ShardRecv).sessions == s.sessions
  {
    hide RelaySafety.PacketOk, Leads, HasRoute;
    var t := Next(s, ShardRecv);
    assert s.channel[0] in s.channel;
    forall m | m in t.back ensures RequestRouted(t, m) { assert RequestRouted(s, m); }
    forall n | n in t.ring.dests ensures DestRouted(t, n) { assert DestRouted(s, n); }
    forall i | i in t.ring.lost ensures LostRouted(t, i) { assert LostRouted(s, i); }
    forall p | p in t.channel ensures Described(t.ring, p) { assert Described(s.ring, p); }
  }

  lemma {:induction false} RunRouted(s: State, steps: seq<Step>)
    requires Inv(s) && RoutedOk(s) && Valid(s, steps)
    ensures RoutedOk(Run(s, steps)) && Run(s, steps).sessions == s.sessions
    decreases |steps|
  {
    hide Inv, RoutedOk, Next, Enabled;
    if steps != [] {
      StepRouted(s, steps[0]);
      StepKeeps(s, steps[0]);
      RunRouted(Next(s, steps[0]), steps[1..]);
    }
  }

  lemma StartRouted(sessions: map<Addr, Relay.Session>)
    ensures RoutedOk(Start(sessions))
  {
  }

  // ---- what was received stays on record

  lemma StepLog(s: State, step: Step)
    requires Enabled(s, step)
    ensures s.ring.recvLog <= Next(s, step).ring.recvLog
  {
    hide Receiving, Arriving, Complete, KernelNext, PostSend, SeedNext, Sync, Answer, Drop;
    DropRecords(s.ring, if s.inHand.Some? then s.inHand.value.bufIdx else 0);
    match step
    case Loop =>
      if s.phase.Seeding? {
        RelaySafety.RingTickets(s.ring, 0, 0);
      } else if s.phase.Sending? {
        RelaySafety.RingTickets(s.ring, s.back[0].bufIdx, s.back[0].dest);
      } else if s.ring.cq != [] {
        CompleteTicket(s.ring);
      }
    case Collect(_) => RelaySafety.RingTickets(s.ring, 0, 0);
    case Kernel(k) => KernelLeaves(s.ring, k);
    case _ =>
  }

  lemma {:induction false} RunLog(s: State, steps: seq<Step>)
    requires Valid(s, steps)
    ensures s.ring.recvLog <= Run(s, steps).ring.recvLog
    decreases |steps|
  {
    hide Next, Enabled;
    if steps != [] {
      StepLog(s, steps[0]);
      RunLog(Next(s, steps[0]), steps[1..]);
    }
  }

  // ---- the theorems

  lemma ReachedRouted(sessions: map<Addr, Relay.Session>, steps: seq<Step>)
    requires Valid(Start(sessions), steps)
    ensures var s := Run(Start(sessions), steps); Inv(s) && RoutedOk(s) && s.sessions == sessions
  {
    hide Inv, RoutedOk, Next, Enabled;
    StartInv(sessions);
    StartRouted(sessions);
    RunKeeps(Start(sessions), steps);
    RunRouted(Start(sessions), steps);
  }

  /** On every run, what is sent for a datagram that the loop takes off the ring goes to the other end
      of its source's session and starts with the bytes the kernel received; without such a session
      nothing is sent for it. */
  lemma RelayedToPartner(sessions: map<Addr, Relay.Session>, before: seq<Step>, after: seq<Step>, e: Sent)
    requires Valid(Start(sessions), before)
    requires var s := Run(Start(sessions), before);
      && s.phase.Completing? && s.phase.left > 0 && Receiving(s.ring) && Valid(s, [Loop] + after)
      && e in Run(s, [Loop] + after).ring.wire && e.ticket == |s.ring.recvLog|
    ensures var g := Run(Start(sessions), before).ring;
      var p := Arriving(g);
      && p.src in sessions && (p.src == sessions[p.src].host || p.src == sessions[p.src].peer)
      && (p.src == sessions[p.src].host ==> e.dest == sessions[p.src].peer)
      && (p.src == sessions[p.src].peer && p.src != sessions[p.src].host ==> e.dest == sessions[p.src].host)
      && p.bufIdx in g.origin && g.origin[p.bufIdx].src == p.src
      && |e.data| == 1500 && p.len <= 1500 && e.data[..p.len] == g.origin[p.bufIdx].data
  {
    hide Inv, RoutedOk, Next, Enabled, Start, Receiving, Arriving;
    var s, steps := Run(Start(sessions), before), [Loop] + after;
    ReachedRouted(sessions, before);
    assert steps[0] == Loop && steps[1..] == after;
    TakesNext(s);
    RunLog(Next(s, Loop), after);
    RunKeeps(s, steps);
    RunRouted(s, steps);
    OnWire(Run(s, steps), e);
  }

  lemma TakesNext(s: State)
    requires Inv(s) && s.phase.Completing? && s.phase.left > 0 && Receiving(s.ring) && Enabled(s, Loop)
    ensures var g, p := s.ring, Arriving(s.ring);
      && p.bufIdx in g.origin && g.origin[p.bufIdx].src == p.src && |g.origin[p.bufIdx].data| == p.len
      && Next(s, Loop).ring.recvLog == g.recvLog + [g.origin[p.bufIdx]]
  {
    hide RingInv, LinkOk, PhaseOk, Complete, Arriving, Receiving;
    ArrivalDescribed(s.ring);
    CompletionThere(s.ring);
  }

  lemma CompletionThere(g: Ring)
    requires Receiving(g)
    ensures g.cq != []
  {
  }

  lemma OnWire(s: State, e: Sent)
    requires Inv(s) && RoutedOk(s) && e in s.ring.wire
    ensures SentOk(s.ring, e) && DestRouted(s, e.ticket)
  {
    hide LinkOk, PhaseOk, OwnedOk, SendsOk, PointersOk, MemoryOk, TicketsOk, Leads, Described;
    assert SentOk(s.ring, e);
  }

  /** On every run a buffer is lost only to a datagram whose source has no session. */
  lemma LostOnlyToStrangers(sessions: map<Addr, Relay.Session>, steps: seq<Step>, i: nat)
    requires Valid(Start(sessions), steps) && i in Run(Start(sessions), steps).ring.lost
    ensures var g := Run(Start(sessions), steps).ring;
      && i in g.ticketOf && g.ticketOf[i] < |g.recvLog|
      && var src := g.recvLog[g.ticketOf[i]].src;
        src !in sessions || (src != sessions[src].host && src != sessions[src].peer)
  {
    hide Inv, Next, Enabled, Start;
    ReachedRouted(sessions, steps);
    assert LostRouted(Run(Start(sessions), steps), i);
  }
}

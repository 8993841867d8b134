/** No send request waits in the submission ring unseen while a loop looks at completions: both loops
    sync after every batch in which they pushed one. */
module Publishing {
  import Basics
  import Token
  import opened IoRing
  import opened IoRingSafety
  import opened LoopOrder
  import Relay
  import RingSizing
  import F = FirstImpl

  /** What is in the ring and not visible to the kernel are receives. */
  ghost predicate NoSendWaits(sq: Sq) {
    forall i | sq.published <= i < |sq.entries| :: sq.entries[i].opcode.RecvMsg?
  }

  // ---- the ring

  lemma SeedWaits(g: Ring)
    requires g.pool.free != [] && g.pool.free[|g.pool.free| - 1] < Token.INDEX_LIMIT && NoSendWaits(g.sq)
    ensures NoSendWaits(SeedNext(g).sq)
  {
    hide Alloc, Token.EncodeToken;
  }

  lemma CompleteWaits(g: Ring)
    requires g.cq != [] && NoSendWaits(g.sq)
    ensures NoSendWaits(Complete(g).sq)
  {
    hide Alloc, Token.EncodeToken, Token.DecodeToken;
  }

  lemma SyncWaits(g: Ring, n: nat)
    requires g.sq.Ok() && n <= |g.sq.Pending()|
    ensures NoSendWaits(Sync(g, n).sq)
  {
  }

  lemma SameWaits(sq: Sq, sq': Sq)
    requires NoSendWaits(sq) && sq'.published == sq.published && sq'.entries == sq.entries
    ensures NoSendWaits(sq')
  {
  }

  // ---- the relay

  /** The loop is in the middle of a batch of sends, or about to sync after one. */
  predicate Batching(phase: Phase) {
    (phase.Sending? && phase.pushed > 0) || phase.Publishing?
  }

  ghost predicate Published(m: Moment) {
    Batching(m.phase) || NoSendWaits(m.server.ring.sq)
  }

  lemma CompletionWaits(s: Relay.Server)
    requires s.ring.cq != [] && NoSendWaits(s.ring.sq)
    ensures NoSendWaits(Relay.ProcessCompletion(s).ring.sq)
  {
    hide Relay.Receiving, Relay.Arriving, Complete, Relay.FinishSend, Relay.Route, NoSendWaits;
    CompleteWaits(s.ring);
    Relay.FinishSendRest(s);
    if Relay.Receiving(s) {
      RingSizing.RouteHead(Relay.Taken(s, Relay.Arriving(s).bufIdx), Relay.Arriving(s));
    } else {
    }
  }

  lemma StepPublishes(m: Moment, step: Relay.Step)
    requires Published(m) && Allowed(m, Do(step))
    ensures Published(Moved(m, Do(step)))
  {
    hide NoSendWaits, Relay.ProcessCompletion, Relay.HandlePacket, KernelNext, Relay.ProcessReturn, SeedNext, Sync;
    var s := m.server;
    match step
    case Seed => SeedWaits(s.ring);
    case SyncRing(n) => SyncWaits(s.ring, n);
    case CompleteOne => CompletionWaits(s);
    case ShardHandle(k) =>
      RingSizing.HandleHead(s, k);
    case Kernel(k) =>
      KernelLeaves(s.ring, k);
      if !Batching(m.phase) { SameWaits(s.ring.sq, KernelNext(s.ring, k).sq); }
    case _ =>
  }

  lemma {:induction false} RunPublishes(m: Moment, moves: seq<Move>)
    requires Published(m) && Allows(m, moves)
    ensures Published(Reached(m, moves))
    decreases |moves|
  {
    hide Published, Moved, Allowed;
    if moves != [] {
      MovePublishes(m, moves[0]);
      RunPublishes(Moved(m, moves[0]), moves[1..]);
    }
  }

  lemma MovePublishes(m: Moment, move: Move)
    requires Published(m) && Allowed(m, move)
    ensures Published(Moved(m, move))
  {
    hide NoSendWaits, Relay.Next, Relay.Enabled;
    if move.Do? {
      StepPublishes(m, move.step);
    } else {
    }
  }

  /** On every run in the loop's order, whenever the loop looks at completions or takes control
      messages, the kernel can see every send request that was ever pushed. */
  lemma SendsPublished(n: nat, capacity: nat, moves: seq<Move>)
    requires Allows(Begin(n, capacity), moves)
    requires var phase := Reached(Begin(n, capacity), moves).phase;
      phase.Collecting? || phase.Completing? || phase.Registering?
    ensures var sq := Reached(Begin(n, capacity), moves).server.ring.sq;
      forall i | sq.published <= i < |sq.entries| :: sq.entries[i].opcode.RecvMsg?
  {
    hide Moved, Allowed;
    RunPublishes(Begin(n, capacity), moves);
  }

  // ---- the older relay

  ghost predicate FirstPublished(s: F.State) {
    (s.phase.Sending? && s.phase.pushed > 0) || NoSendWaits(s.ring.sq)
  }

  lemma FirstLoopPublishes(s: F.State)
    requires F.Inv(s) && FirstPublished(s) && F.Enabled(s, F.Loop)
    ensures FirstPublished(F.Next(s, F.Loop))
  {
    hide NoSendWaits, RingInv, F.LinkOk, Complete, SeedNext, Sync, F.Receiving, PostSend;
    if s.phase.Seeding? {
      if s.phase.left == 0 {
        F.SyncRest(s.ring);
        SyncWaits(s.ring, 0);
      } else {
        if s.ring.pool.free != [] && s.ring.pool.free[|s.ring.pool.free| - 1] < Token.INDEX_LIMIT {
          SeedWaits(s.ring);
        }
      }
    } else if s.phase.Completing? && s.ring.cq != [] {
      CompleteWaits(s.ring);
    }
  }

  lemma FirstStepPublishes(s: F.State, step: F.Step)
    requires F.Inv(s) && FirstPublished(s) && F.Enabled(s, step)
    ensures FirstPublished(F.Next(s, step))
  {
    hide NoSendWaits, RingInv, F.LinkOk, Complete, SeedNext, Sync, F.Receiving, KernelNext, F.Answer, PostSend;
    match step
    case Loop => FirstLoopPublishes(s);
    case Collect(n) =>
      F.SyncRest(s.ring);
      SyncWaits(s.ring, 0);
    case ShardRecv =>
    case ShardHandle =>
    case Kernel(k) =>
      KernelLeaves(s.ring, k);
      if NoSendWaits(s.ring.sq) { SameWaits(s.ring.sq, KernelNext(s.ring, k).sq); }
  }

  lemma {:induction false} FirstRunPublishes(s: F.State, steps: seq<F.Step>)
    requires F.Inv(s) && FirstPublished(s) && F.Valid(s, steps)
    ensures FirstPublished(F.Run(s, steps))
    decreases |steps|
  {
    hide F.Inv, FirstPublished, F.Next, F.Enabled;
    if steps != [] {
      F.StepKeeps(s, steps[0]);
      FirstStepPublishes(s, steps[0]);
      FirstRunPublishes(F.Next(s, steps[0]), steps[1..]);
    }
  }

  /** The same for the older relay, while it works off completions. */
  lemma FirstSendsPublished(sessions: map<Basics.Addr, Relay.Session>, steps: seq<F.Step>)
    requires F.Valid(F.Start(sessions), steps) && F.Run(F.Start(sessions), steps).phase.Completing?
    ensures var sq := F.Run(F.Start(sessions), steps).ring.sq;
      forall i | sq.published <= i < |sq.entries| :: sq.entries[i].opcode.RecvMsg?
  {
    hide F.Inv, F.Next, F.Enabled;
    F.StartInv(sessions);
    FirstRunPublishes(F.Start(sessions), steps);
  }
}

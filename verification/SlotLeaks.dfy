/** No boxed slot is leaked: on every run of either relay each slot on the heap is the live one of its
    buffer, so there are never more of them than buffers that were ever posted. */
module SlotLeaks {
  import opened Basics
  import Token
  import opened IoRing
  import opened IoRingSafety
  import opened RelaySafety
  import Relay
  import F = FirstImpl

  /** Each box is what the map of live slots has for its buffer. */
  ghost predicate NoLeak(p: Pool) {
    forall b | b in p.boxes :: p.boxes[b].buf in p.liveSlots && p.liveSlots[p.boxes[b].buf] == b
  }

  lemma AllocNoLeak(p: Pool, i: nat, addr: Addr)
    requires PoolOk(p) && NoLeak(p)
    ensures NoLeak(Alloc(p, i, addr))
  {
  }

  /** The pool is as before, up to the free list and the addresses in the slots. */
  ghost predicate SameSlots(p: Pool, p': Pool) {
    && p'.liveSlots == p.liveSlots && p'.boxes.Keys == p.boxes.Keys
    && (forall b | b in p.boxes :: p'.boxes[b].buf == p.boxes[b].buf)
  }

  /** Nothing is posted, or a slot for one buffer is. */
  ghost predicate Posts(p: Pool, p': Pool) {
    SameSlots(p, p') || exists q, i, addr :: SameSlots(p, q) && q.nextBox == p.nextBox && p' == Alloc(q, i, addr)
  }

  lemma PostsNoLeak(p: Pool, p': Pool)
    requires PoolOk(p) && NoLeak(p) && Posts(p, p')
    ensures NoLeak(p')
  {
    if !SameSlots(p, p') {
      var q, i, addr :| SameSlots(p, q) && q.nextBox == p.nextBox && p' == Alloc(q, i, addr);
      AllocNoLeak(q, i, addr);
    }
  }

  lemma CompletePosts(g: Ring)
    requires g.cq != []
    ensures Posts(g.pool, Complete(g).pool)
  {
    hide Alloc, Push, Token.EncodeToken, Token.DecodeToken;
    var i := Token.DecodeToken(g.cq[0].token).1;
    assert Complete(g).pool == g.pool || Complete(g).pool == Alloc(g.pool, i, UNSPECIFIED);
    assert SameSlots(g.pool, g.pool);
  }

  lemma SeedPosts(g: Ring)
    requires g.pool.free != [] && g.pool.free[|g.pool.free| - 1] < Token.INDEX_LIMIT
    ensures Posts(g.pool, SeedNext(g).pool)
  {
    hide Alloc, Push, Token.EncodeToken;
    var n := |g.pool.free| - 1;
    var q := g.pool.(free := g.pool.free[..n]);
    assert SameSlots(g.pool, q) && SeedNext(g).pool == Alloc(q, g.pool.free[n], UNSPECIFIED);
  }

  lemma SendPosts(g: Ring, i: Token.u16, dest: Addr)
    ensures Posts(g.pool, PostSend(g, i, dest).pool)
  {
    hide Alloc, Push, Token.EncodeToken;
    assert SameSlots(g.pool, g.pool) && PostSend(g, i, dest).pool == Alloc(g.pool, i, dest);
  }

  lemma FillPosts(g: Ring, ptr: nat, src: Addr, data: bytes)
    requires |data| <= BUFFER_SIZE
    ensures SameSlots(g.pool, Fill(g, ptr, src, data).pool)
  {
    hide Write;
  }

  lemma KernelPosts(g: Ring, k: KernelStep)
    requires KernelEnabled(g, k)
    ensures SameSlots(g.pool, KernelNext(g, k).pool)
  {
    hide Fill, Region, SameSlots;
    Unchanged(g.pool);
    match k
    case Receive(j, src, data) => FillPosts(Detached(g, j), g.inKernel[j].ptr, src, data);
    case ReceiveFail(j, errno) => FillPosts(Detached(g, j), g.inKernel[j].ptr, UNSPECIFIED, []);
    case _ =>
  }

  // ---- both relays

  lemma CompletionPosts(s: Relay.Server)
    requires s.ring.cq != []
    ensures Posts(s.ring.pool, Relay.ProcessCompletion(s).ring.pool)
  {
    hide Complete, Relay.Receiving, Relay.Arriving, Relay.Enqueue, Relay.FinishSend, Posts;
    CompletePosts(s.ring);
    Relay.FinishSendRest(s);
  }

  lemma StepPosts(s: Relay.Server, step: Relay.Step)
    requires Relay.Enabled(s, step)
    ensures Posts(s.ring.pool, Relay.Next(s, step).ring.pool)
  {
    hide SameSlots, Relay.ProcessCompletion, KernelNext, PostSend, SeedNext, Relay.Answer;
    Unchanged(s.ring.pool);
    match step
    case Seed => SeedPosts(s.ring);
    case SendOne(_) => SendPosts(s.ring, s.sqeQueue[0].bufIdx, s.sqeQueue[0].dest);
    case CompleteOne => CompletionPosts(s);
    case Kernel(k) => KernelPosts(s.ring, k);
    case _ =>
  }

  lemma Unchanged(p: Pool)
    ensures SameSlots(p, p)
  {
  }

  lemma InvPool(g: Ring)
    requires RingInv(g)
    ensures PoolOk(g.pool)
  {
    hide OwnedOk, SendsOk, ContentsOk;
  }

  lemma {:induction false} RunNoLeak(s: Relay.Server, steps: seq<Relay.Step>)
    requires RelayInv(s) && NoLeak(s.ring.pool) && Relay.Valid(s, steps)
    ensures NoLeak(Relay.Run(s, steps).ring.pool)
    decreases |steps|
  {
    hide Relay.Next, Relay.Enabled, RelayInv, NoLeak, Posts;
    if steps != [] {
      StepKeeps(s, steps[0]);
      StepPosts(s, steps[0]);
      assert PoolOk(s.ring.pool) by { InvParts(s); InvPool(s.ring); }
      PostsNoLeak(s.ring.pool, Relay.Next(s, steps[0]).ring.pool);
      RunNoLeak(Relay.Next(s, steps[0]), steps[1..]);
    }
  }

  /** On every run each slot on the heap is the live slot of its buffer: replacing one frees it. */
  lemma SlotsOwned(n: nat, capacity: nat, steps: seq<Relay.Step>)
    requires n > 0 && Relay.Valid(Start(n, capacity), steps)
    ensures var p := Relay.Run(Start(n, capacity), steps).ring.pool;
      forall b | b in p.boxes :: p.boxes[b].buf in p.liveSlots && p.liveSlots[p.boxes[b].buf] == b
  {
    hide RelayInv, Relay.Next, Relay.Enabled;
    StartInv(n, capacity);
    RunNoLeak(Start(n, capacity), steps);
  }

  lemma FirstStepPosts(s: F.State, step: F.Step)
    requires F.Enabled(s, step)
    ensures Posts(s.ring.pool, F.Next(s, step).ring.pool)
  {
    hide SameSlots, Complete, KernelNext, PostSend, SeedNext, F.Answer, F.Receiving;
    Unchanged(s.ring.pool);
    match step
    case Loop =>
      if s.phase.Seeding? {
        if s.ring.pool.free != [] && s.ring.pool.free[|s.ring.pool.free| - 1] < Token.INDEX_LIMIT { SeedPosts(s.ring); }
      } else if s.phase.Sending? {
        SendPosts(s.ring, s.back[0].bufIdx, s.back[0].dest);
      } else if s.ring.cq != [] {
        CompletePosts(s.ring);
      }
    case Kernel(k) => KernelPosts(s.ring, k);
    case _ =>
  }

  lemma {:induction false} FirstRunNoLeak(s: F.State, steps: seq<F.Step>)
    requires F.Inv(s) && NoLeak(s.ring.pool) && F.Valid(s, steps)
    ensures NoLeak(F.Run(s, steps).ring.pool)
    decreases |steps|
  {
    hide F.Next, F.Enabled, F.Inv, NoLeak, Posts;
    if steps != [] {
      F.StepKeeps(s, steps[0]);
      FirstStepPosts(s, steps[0]);
      FirstInvPool(s);
      PostsNoLeak(s.ring.pool, F.Next(s, steps[0]).ring.pool);
      FirstRunNoLeak(F.Next(s, steps[0]), steps[1..]);
    }
  }

  lemma FirstInvPool(s: F.State)
    requires F.Inv(s)
    ensures PoolOk(s.ring.pool)
  {
    hide RingInv, F.LinkOk;
    InvPool(s.ring);
  }

  /** The same for the older relay. */
  lemma FirstSlotsOwned(sessions: map<Addr, Relay.Session>, steps: seq<F.Step>)
    requires F.Valid(F.Start(sessions), steps)
    ensures var p := F.Run(F.Start(sessions), steps).ring.pool;
      forall b | b in p.boxes :: p.boxes[b].buf in p.liveSlots && p.liveSlots[p.boxes[b].buf] == b
  {
    hide F.Inv, F.Next, F.Enabled;
    F.StartInv(sessions);
    FirstRunNoLeak(F.Start(sessions), steps);
  }
}

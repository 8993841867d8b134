/** How large the submission ring has to be. The loop sees what the kernel has consumed only when it
    syncs, so an entry may occupy the ring twice over: once since before the last sync, once since. */
module RingSizing {
  import opened Basics
  import opened Bags
  import opened Token
  import opened IoRing
  import opened IoRingSafety
  import opened Relay
  import opened RelaySafety
  import opened RelayBounds

  /** No more entries than buffers were visible to the kernel at the last sync. */
  predicate Sized(sq: Sq) {
    sq.published <= POOL_SIZE && sq.capacity >= 2 * POOL_SIZE
  }

  /** While some index is outside the submission ring, its request fits in. */
  lemma PushFits(g: Ring, hand: multiset<nat>)
    requires OwnedOk(g, hand) && Sized(g.sq)
    requires |g.pool.free| + Sum(g.cq, FinalCount) + |g.held| + |hand| > 0
    ensures !IsFull(g.sq)
  {
    hide OwnedOk;
    assert g.sq.Ok() by { OwnedSq(g, hand); }
    RingSizes(g, hand);
  }

  lemma OwnedSq(g: Ring, hand: multiset<nat>)
    requires OwnedOk(g, hand)
    ensures g.sq.Ok()
  {
  }

  lemma SyncSized(g: Ring, n: nat)
    requires OwnedOk(g, multiset{}) && Sized(g.sq) && n <= |g.sq.Pending()|
    ensures Sized(Sync(g, n).sq)
  {
    hide OwnedOk;
    assert g.sq.Ok() by { OwnedSq(g, multiset{}); }
    RingSizes(g, multiset{});
  }

  /** Neither capacity nor what was published changes between two syncs. */
  ghost predicate SameHead(sq: Sq, sq': Sq) {
    sq'.capacity == sq.capacity && sq'.published == sq.published && sq.entries <= sq'.entries
  }

  /** At most one entry is added, and only if there is room; a send counts as pushed only if it is. */
  ghost predicate Fills(g: Ring, g': Ring) {
    && SameHead(g.sq, g'.sq) && |g'.sq.entries| <= |g.sq.entries| + 1
    && (IsFull(g.sq) ==> g'.sq.entries == g.sq.entries)
    && |g'.pushed| + |g.sq.entries| <= |g.pushed| + |g'.sq.entries|
  }

  lemma SendHead(g: Ring, i: u16, dest: Addr)
    ensures Fills(g, PostSend(g, i, dest))
  {
    hide Alloc, EncodeToken;
  }

  lemma SeedHead(g: Ring)
    requires g.pool.free != [] && g.pool.free[|g.pool.free| - 1] < INDEX_LIMIT
    ensures Fills(g, SeedNext(g))
  {
    hide Alloc, EncodeToken;
  }

  lemma CompleteHead(g: Ring)
    requires g.cq != []
    ensures Fills(g, Complete(g))
  {
    hide Alloc, EncodeToken, DecodeToken;
    var c := g.cq[0];
    if DecodeToken(c.token).0.Recv? || (DecodeToken(c.token).0.Send? && c.more) {
    } else {
    }
  }

  // ---- the relay with a ring of any size

  lemma RouteHead(s: Server, p: Packet)
    ensures Route(s, p).ring.sq == s.ring.sq && Route(s, p).ring.pushed == s.ring.pushed
  {
    hide Enqueue;
    if Target(s, p.src).Some? {
    } else {
    }
  }

  lemma CompletionHead(s: Server)
    requires s.ring.cq != []
    ensures Fills(s.ring, ProcessCompletion(s).ring)
  {
    hide Receiving, Arriving, Complete, FinishSend, Route, IsFull;
    CompleteHead(s.ring);
    FinishSendRest(s);
    if Receiving(s) {
      RouteHead(Taken(s, Arriving(s).bufIdx), Arriving(s));
    } else {
    }
  }

  lemma HandleHead(s: Server, k: nat)
    requires k < |s.shards| && s.shards[k].inHand.Some?
    ensures HandlePacket(s, k).ring.sq == s.ring.sq && HandlePacket(s, k).ring.pushed == s.ring.pushed
  {
    hide Answer;
    if Answer(s, k).Some? {
    } else {
    }
  }

  /** Only a sync refreshes the loop's view. */
  lemma StepHead(s: Server, step: Step)
    requires Enabled(s, step) && !step.SyncRing?
    ensures Fills(s.ring, Next(s, step).ring)
  {
    hide ProcessCompletion, KernelNext, HandlePacket, PostSend, SeedNext, Dequeue, Enqueue, MarkShardDone, MarkSendSqe;
    hide IsFull;
    match step
    case Seed => SeedHead(s.ring);
    case SendOne(_) => SendHead(s.ring, s.sqeQueue[0].bufIdx, s.sqeQueue[0].dest);
    case CompleteOne => CompletionHead(s);
    case ShardHandle(k) => HandleHead(s, k);
    case Kernel(k) => KernelLeaves(s.ring, k);
    case _ =>
  }

  lemma StepSized(s: Server, step: Step)
    requires RelayInv(s) && Sized(s.ring.sq) && Enabled(s, step)
    ensures Sized(Next(s, step).ring.sq)
  {
    hide RingInv, LinkOk, PacketsOk;
    if step.SyncRing? {
      RingOwned(s.ring);
      SyncSized(s.ring, step.n);
    } else {
      KeepSized(s, step);
    }
  }

  lemma KeepSized(s: Server, step: Step)
    requires Sized(s.ring.sq) && Enabled(s, step) && !step.SyncRing?
    ensures Sized(Next(s, step).ring.sq)
  {
    hide Next;
    StepHead(s, step);
  }

  lemma RingOwned(g: Ring)
    requires RingInv(g)
    ensures OwnedOk(g, multiset{})
  {
  }

  lemma {:induction false} RunSized(s: Server, steps: seq<Step>)
    requires RelayInv(s) && Sized(s.ring.sq) && Valid(s, steps)
    ensures Sized(Run(s, steps).ring.sq)
    decreases |steps|
  {
    hide Next, Enabled, RelayInv, Sized;
    if steps != [] {
      StepKeeps(s, steps[0]);
      StepSized(s, steps[0]);
      RunSized(Next(s, steps[0]), steps[1..]);
    }
  }

  /** A step that pushes a request. */
  ghost predicate Pushes(s: Server, step: Step)
    requires Enabled(s, step)
  {
    step.Seed? || step.SendOne? || (step.CompleteOne? && !Receiving(s) && IsFinal(s.ring.cq[0]))
  }

  /** With two entries per buffer no push is ever rejected: on no run does the relay lose a buffer
      to a full ring. */
  lemma LargeRingSuffices(n: nat, capacity: nat, steps: seq<Step>, step: Step)
    requires n > 0 && capacity >= 2048 && Valid(Start(n, capacity), steps)
    requires var s := Run(Start(n, capacity), steps); Enabled(s, step) && Pushes(s, step)
    ensures !IsFull(Run(Start(n, capacity), steps).ring.sq)
  {
    hide RelayInv, Next, Enabled, Pushes;
    StartInv(n, capacity);
    RunKeeps(Start(n, capacity), steps);
    RunSized(Start(n, capacity), steps);
    PushHasRoom(Run(Start(n, capacity), steps), step);
  }

  lemma PushHasRoom(s: Server, step: Step)
    requires RelayInv(s) && Sized(s.ring.sq) && Enabled(s, step) && Pushes(s, step)
    ensures !IsFull(s.ring.sq)
  {
    hide RingInv, LinkOk, PacketsOk, Sum, Receiving, OwnedOk, IsFinal;
    RingOwned(s.ring);
    if step.SendOne? {
      ReturnHeld(s, s.sqeQueue[0]);
      assert |s.ring.held| > 0;
    } else if step.CompleteOne? {
      SumMember(s.ring.cq, FinalCount, s.ring.cq[0]);
    }
    PushFits(s.ring, multiset{});
  }

  // ---- the relay with a smaller ring

  ghost predicate SeededRing(g: Ring, capacity: nat, n: nat) {
    && |g.sq.entries| == n <= POOL_SIZE && g.sq.taken == 0 && g.sq.published == 0
    && g.sq.capacity == capacity && g.pushed == multiset{}
    && g.pool.free == UpTo(POOL_SIZE)[..POOL_SIZE - n]
    && (forall q | q in g.sq.entries :: q.opcode.RecvMsg?)
    && g.inKernel == [] && g.cq == []
  }

  /** `n` receives have been posted, and nothing else has happened. */
  ghost predicate Seeded(s: Server, capacity: nat, n: nat) {
    && SeededRing(s.ring, capacity, n) && s.sqeQueue == [] && s.nextShard == 0
    && (forall sh | sh in s.shards :: sh == Shard([], map[], map[], None))
  }

  lemma SeedRing(g: Ring, capacity: nat, n: nat)
    requires SeededRing(g, capacity, n) && n < POOL_SIZE
    ensures g.pool.free != [] && g.pool.free[|g.pool.free| - 1] < INDEX_LIMIT
    ensures n < capacity ==> SeededRing(SeedNext(g), capacity, n + 1)
  {
    hide EncodeToken;
    var free := g.pool.free;
    assert free[POOL_SIZE - n - 1] == POOL_SIZE - n - 1;
    assert free[..POOL_SIZE - n - 1] == UpTo(POOL_SIZE)[..POOL_SIZE - n - 1];
  }

  lemma SeedOne(s: Server, capacity: nat, n: nat)
    requires Seeded(s, capacity, n) && n < POOL_SIZE
    ensures Enabled(s, Step.Seed)
    ensures n < capacity ==> Seeded(Next(s, Step.Seed), capacity, n + 1)
    ensures |Next(s, Step.Seed).shards| == |s.shards|
  {
    hide SeededRing, SeedNext;
    SeedRing(s.ring, capacity, n);
  }

  lemma {:induction false} SeedAll(shards: nat, capacity: nat, n: nat)
    requires n <= POOL_SIZE && n <= capacity
    ensures Valid(Start(shards, capacity), Seeds(n))
    ensures Seeded(Run(Start(shards, capacity), Seeds(n)), capacity, n)
    ensures |Run(Start(shards, capacity), Seeds(n)).shards| == shards
  {
    hide Seeded, Next, Enabled;
    if n > 0 {
      SeedAll(shards, capacity, n - 1);
      var s := Run(Start(shards, capacity), Seeds(n - 1));
      assert Seeds(n) == Seeds(n - 1) + [Step.Seed];
      SeedOne(s, capacity, n - 1);
      OneStep(s, Step.Seed);
      RunAppend(Start(shards, capacity), Seeds(n - 1), [Step.Seed]);
    } else {
      assert Seeds(0) == [];
      StartSeeded(shards, capacity);
    }
  }

  lemma StartSeeded(shards: nat, capacity: nat)
    ensures Seeded(Start(shards, capacity), capacity, 0)
  {
  }

  predicate NoSync(steps: seq<Step>) {
    forall step | step in steps :: !step.SyncRing?
  }

  /** Until the next sync no more sends get into the ring than it has room for now. */
  lemma {:induction false} RoomUntilSync(s: Server, steps: seq<Step>)
    requires Valid(s, steps) && NoSync(steps) && |s.ring.sq.entries| <= s.ring.sq.capacity
    ensures var sq, sq' := s.ring.sq, Run(s, steps).ring.sq;
      && sq'.capacity == sq.capacity && |sq.entries| <= |sq'.entries| <= sq.capacity
      && |Run(s, steps).ring.pushed| + |sq.entries| <= |s.ring.pushed| + |sq'.entries|
    decreases |steps|
  {
    hide Next, Enabled;
    if steps != [] {
      assert steps[0] in steps;
      StepHead(s, steps[0]);
      RoomUntilSync(Next(s, steps[0]), steps[1..]);
    }
  }

  /** With one entry per buffer the loop's start-up fills the ring. What the kernel consumes during
      the sync after it is all the room there is: of the send requests before the next sync only so
      many enter the ring, and every other is rejected and its buffer lost. */
  lemma SmallRingLosesFirstBatch(shards: nat, consumed: nat, steps: seq<Step>, spent: nat)
    requires shards > 0 && consumed <= POOL_SIZE && NoSync(steps)
    requires var a := Seeds(POOL_SIZE) + [SyncRing(consumed)];
      && Valid(Start(shards, POOL_SIZE), a) && Valid(Run(Start(shards, POOL_SIZE), a), steps)
      && Enabled(Run(Run(Start(shards, POOL_SIZE), a), steps), SendOne(spent))
    ensures var s := Run(Run(Start(shards, POOL_SIZE), Seeds(POOL_SIZE) + [SyncRing(consumed)]), steps);
      && |s.ring.pushed| <= consumed
      && (|s.ring.pushed| == consumed ==> Loses(s, SendOne(spent)))
  {
    hide Next, Enabled, Loses, Start, Seeded;
    var s1 := Run(Start(shards, POOL_SIZE), Seeds(POOL_SIZE) + [SyncRing(consumed)]);
    FirstSyncRoom(shards, consumed);
    RoomUntilSync(s1, steps);
    if |Run(s1, steps).ring.pushed| == consumed {
      FullLoses(Run(s1, steps), spent);
    }
  }

  lemma FullLoses(s: Server, spent: nat)
    requires Enabled(s, SendOne(spent)) && IsFull(s.ring.sq)
    ensures Loses(s, SendOne(spent))
  {
  }

  lemma FirstSyncRoom(shards: nat, consumed: nat)
    requires consumed <= POOL_SIZE
    ensures var steps := Seeds(POOL_SIZE) + [SyncRing(consumed)];
      && Valid(Start(shards, POOL_SIZE), steps)
      && var g := Run(Start(shards, POOL_SIZE), steps).ring;
      && |g.sq.entries| == POOL_SIZE - consumed && g.sq.capacity == POOL_SIZE && g.pushed == multiset{}
  {
    hide Start;
    SeedAll(shards, POOL_SIZE, POOL_SIZE);
    var s := Run(Start(shards, POOL_SIZE), Seeds(POOL_SIZE));
    OneStep(s, SyncRing(consumed));
    RunAppend(Start(shards, POOL_SIZE), Seeds(POOL_SIZE), [SyncRing(consumed)]);
  }
}

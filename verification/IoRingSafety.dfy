/** The ownership invariant of the ring and what rests on it: every raw pointer the kernel holds
    leads to the slot that owns it, no buffer is written while it waits to be sent, and what is sent
    is what was received. */
module IoRingSafety {
  import opened Basics
  import opened Bags
  import opened Token
  import opened IoRing

  // ---- pointers

  /** The heap and the map that owns it agree. */
  ghost predicate PoolOk(p: Pool) {
    && (forall i | i in p.liveSlots ::
          i < POOL_SIZE && p.liveSlots[i] in p.boxes && p.boxes[p.liveSlots[i]].buf == i)
    && (forall b | b in p.boxes :: b < p.nextBox)
  }

  /** The request's pointer is the live slot of the very index its token names. */
  ghost predicate RequestOk(p: Pool, q: Request) {
    && q.token == EncodeToken(OpOf(q.opcode), Index(q))
    && Index(q) in p.liveSlots && p.liveSlots[Index(q)] == q.ptr
  }

  ghost predicate CompletionOk(g: Ring, c: Cqe) {
    var (op, i) := DecodeToken(c.token);
    && op != SendNotif
    && i in g.pool.liveSlots
    && (op == Recv ==>
          && i in g.origin && |g.origin[i].data| == Length(c)
          && PeerAddr(g.pool, i) == g.origin[i].src)
  }

  ghost predicate PointersOk(g: Ring) {
    && g.sq.Ok() && !g.fault
    && PoolOk(g.pool)
    && (forall q | q in Outstanding(g) :: RequestOk(g.pool, q))
    && (forall q | q in g.notifs :: q.opcode.SendMsgZc?)
    && (forall c | c in g.cq :: CompletionOk(g, c))
  }

  // ---- contents

  ghost predicate StoredOk(memory: bytes, i: nat, rx: Rx) {
    && i < POOL_SIZE && |memory| == POOL_SIZE * BUFFER_SIZE && |rx.data| <= BUFFER_SIZE
    && Region(memory, i)[..|rx.data|] == rx.data
  }

  ghost predicate MemoryOk(g: Ring) {
    && |g.memory| == POOL_SIZE * BUFFER_SIZE
    && (forall i | i in g.origin :: StoredOk(g.memory, i, g.origin[i]))
  }

  /** Buffer `i` holds the datagram its ticket stands for. */
  ghost predicate Carries(g: Ring, i: nat) {
    && i in g.ticketOf && g.ticketOf[i] < |g.recvLog|
    && i in g.origin && g.recvLog[g.ticketOf[i]] == g.origin[i]
  }

  ghost predicate HeldOk(g: Ring, i: nat) {
    Carries(g, i) && g.ticketOf[i] !in g.dests
  }

  /** The pending send will go where it was asked to go. */
  ghost predicate SendingOk(g: Ring, q: Request) {
    && Carries(g, Index(q)) && g.ticketOf[Index(q)] in g.dests
    && q.ptr in g.pool.boxes && g.pool.boxes[q.ptr].addr == g.dests[g.ticketOf[Index(q)]]
  }

  /** The datagram on the wire went to the destination asked for its ticket, and its first bytes are
      those received under that ticket. */
  ghost predicate SentOk(g: Ring, e: Sent) {
    && e.ticket < |g.recvLog| && e.ticket in g.dests && e.dest == g.dests[e.ticket]
    && |e.data| == BUFFER_SIZE
    && var data := g.recvLog[e.ticket].data; |data| <= BUFFER_SIZE && e.data[..|data|] == data
  }

  ghost predicate TicketsOk(g: Ring) {
    && (forall i | i in g.ticketOf :: g.ticketOf[i] < |g.recvLog|)
    && (forall i, j | i in g.ticketOf && j in g.ticketOf && i != j :: g.ticketOf[i] != g.ticketOf[j])
    && (forall t | t in g.dests :: t < |g.recvLog|)
  }

  ghost predicate ContentsOk(g: Ring) {
    && g.sq.Ok()
    && MemoryOk(g) && TicketsOk(g)
    && (forall i | i in g.held :: HeldOk(g, i))
    && (forall q | q in Outstanding(g) && q.opcode.SendMsgZc? :: SendingOk(g, q))
    && (forall e | e in g.wire :: SentOk(g, e))
  }

  ghost predicate RingInv(g: Ring) {
    OwnedOk(g, multiset{}) && SendsOk(g, multiset{}) && PointersOk(g) && ContentsOk(g)
  }

  // ---- submissions

  lemma PushedOutstanding(g: Ring, q: Request)
    requires g.sq.Ok() && !IsFull(g.sq)
    ensures var g' := g.(sq := Push(g.sq, q));
      && g'.sq.Ok() && g'.sq.Pending() == g.sq.Pending() + [q]
      && Outstanding(g') == g.inKernel + (g.sq.Pending() + [q]) + g.notifs
      && (forall r :: r in Outstanding(g') <==> r == q || r in Outstanding(g))
  {
    assert (g.sq.entries + [q])[g.sq.taken..] == g.sq.Pending() + [q];
  }

  lemma PushedBag(g: Ring, q: Request, f: Request -> multiset<nat>)
    requires g.sq.Ok() && !IsFull(g.sq)
    ensures g.(sq := Push(g.sq, q)).sq.Ok()
    ensures Bag(Outstanding(g.(sq := Push(g.sq, q))), f) == Bag(Outstanding(g), f) + f(q)
  {
    PushedOutstanding(g, q);
    BagAppend(g.inKernel + (g.sq.Pending() + [q]), g.notifs, f);
    BagAppend(g.inKernel, g.sq.Pending() + [q], f);
    BagSnoc(g.sq.Pending(), q, f);
    BagAppend(g.inKernel + g.sq.Pending(), g.notifs, f);
    BagAppend(g.inKernel, g.sq.Pending(), f);
  }

  lemma PostOwned(g: Ring, opcode: Opcode, i: u16, addr: Addr)
    requires OwnedOk(g, multiset{i})
    ensures OwnedOk(Post(g, opcode, i, addr), multiset{})
  {
    TokenRoundTrip(OpOf(opcode), i);
    if !IsFull(g.sq) {
      PushedBag(g, NewRequest(g.pool, opcode, i), Owner);
    }
  }

  lemma AllocPool(p: Pool, i: nat, addr: Addr)
    requires PoolOk(p) && i < POOL_SIZE
    ensures PoolOk(Alloc(p, i, addr))
    ensures forall q: Request | RequestOk(p, q) && Index(q) != i :: RequestOk(Alloc(p, i, addr), q)
    ensures forall j | j in p.liveSlots && j != i ::
      && p.liveSlots[j] in Alloc(p, i, addr).boxes
      && Alloc(p, i, addr).boxes[p.liveSlots[j]] == p.boxes[p.liveSlots[j]]
  {
  }

  /** Posting on an index nobody else owns frees no slot that a request still points to. */
  lemma PostPointers(g: Ring, opcode: Opcode, i: u16, addr: Addr)
    requires OwnedOk(g, multiset{i}) && PointersOk(g)
    ensures PointersOk(Post(g, opcode, i, addr))
  {
    Exclusive(g, multiset{i}, i);
    TokenRoundTrip(OpOf(opcode), i);
    AllocPool(g.pool, i, addr);
    var g', q := Post(g, opcode, i, addr), NewRequest(g.pool, opcode, i);
    if !IsFull(g.sq) {
      PushedOutstanding(g, q);
    }
    forall r | r in Outstanding(g') ensures RequestOk(g'.pool, r) {
      if r in Outstanding(g) {
        assert RequestOk(g.pool, r) && Index(r) != i;
      }
    }
    forall c | c in g'.cq ensures CompletionOk(g', c) {
      assert CompletionOk(g, c) && i !in CqeOwner(c);
    }
  }

  lemma PostContents(g: Ring, opcode: Opcode, i: u16, addr: Addr)
    requires OwnedOk(g, multiset{i}) && PointersOk(g) && ContentsOk(g)
    requires opcode.SendMsgZc? ==>
      Carries(g, i) && g.ticketOf[i] in g.dests && g.dests[g.ticketOf[i]] == addr
    ensures ContentsOk(Post(g, opcode, i, addr))
  {
    Exclusive(g, multiset{i}, i);
    TokenRoundTrip(OpOf(opcode), i);
    AllocPool(g.pool, i, addr);
    var g', q := Post(g, opcode, i, addr), NewRequest(g.pool, opcode, i);
    if !IsFull(g.sq) {
      PushedOutstanding(g, q);
    }
    forall r | r in Outstanding(g') && r.opcode.SendMsgZc? ensures SendingOk(g', r) {
      if r in Outstanding(g) {
        assert SendingOk(g, r) && RequestOk(g.pool, r) && Index(r) != i;
      }
    }
    forall e | e in g'.wire ensures SentOk(g', e) {
      assert SentOk(g, e);
    }
  }

  lemma PostReceiveSends(g: Ring, i: u16)
    requires SendsOk(g, multiset{})
    ensures SendsOk(Post(g, RecvMsg, i, UNSPECIFIED), multiset{})
  {
    if !IsFull(g.sq) {
      PushedBag(g, NewRequest(g.pool, RecvMsg, i), SendOwner);
    }
  }

  lemma PostReceiveKeeps(g: Ring, i: u16)
    requires OwnedOk(g, multiset{i}) && SendsOk(g, multiset{}) && PointersOk(g) && ContentsOk(g)
    ensures RingInv(Post(g, RecvMsg, i, UNSPECIFIED))
  {
    PostOwned(g, RecvMsg, i, UNSPECIFIED);
    PostPointers(g, RecvMsg, i, UNSPECIFIED);
    PostContents(g, RecvMsg, i, UNSPECIFIED);
    PostReceiveSends(g, i);
  }

  // ---- parts of the state that do not matter to a part of the invariant

  ghost predicate SameRequests(g: Ring, g': Ring) {
    && g'.sq == g.sq && g'.inKernel == g.inKernel && g'.notifs == g.notifs
    && g'.pool.boxes == g.pool.boxes && g'.pool.liveSlots == g.pool.liveSlots
    && g'.pool.nextBox == g.pool.nextBox && g'.origin == g.origin
  }

  lemma FramePointers(g: Ring, g': Ring)
    requires PointersOk(g) && SameRequests(g, g') && g'.fault == g.fault
    requires forall c | c in g'.cq :: c in g.cq
    ensures PointersOk(g')
  {
    forall q | q in Outstanding(g') ensures RequestOk(g'.pool, q) { assert RequestOk(g.pool, q); }
    forall c | c in g'.cq ensures CompletionOk(g', c) { assert CompletionOk(g, c); }
  }

  lemma FrameContents(g: Ring, g': Ring)
    requires ContentsOk(g) && SameRequests(g, g') && g'.held <= g.held
    requires g'.memory == g.memory && g'.recvLog == g.recvLog && g'.ticketOf == g.ticketOf
    requires g'.dests == g.dests && g'.wire == g.wire
    ensures ContentsOk(g')
  {
    forall i | i in g'.held ensures HeldOk(g', i) { assert HeldOk(g, i); }
    forall q | q in Outstanding(g') && q.opcode.SendMsgZc? ensures SendingOk(g', q) {
      assert SendingOk(g, q);
    }
    forall e | e in g'.wire ensures SentOk(g', e) { assert SentOk(g, e); }
  }

  lemma SeedKeeps(g: Ring)
    requires RingInv(g) && g.pool.free != []
    ensures g.pool.free[|g.pool.free| - 1] < INDEX_LIMIT
    ensures RingInv(SeedNext(g))
  {
    var n := |g.pool.free| - 1;
    var i := g.pool.free[n];
    assert g.pool.free == g.pool.free[..n] + [i];
    var g1 := g.(pool := g.pool.(free := g.pool.free[..n]));
    assert OwnedOk(g1, multiset{i});
    Exclusive(g1, multiset{i}, i);
    FramePointers(g, g1);
    FrameContents(g, g1);
    PostReceiveKeeps(g1, i);
  }

  lemma DropKeeps(g: Ring, i: nat)
    requires RingInv(g) && i in g.held
    ensures RingInv(Drop(g, i))
  {
    FramePointers(g, Drop(g, i));
    FrameContents(g, Drop(g, i));
  }

  /** The bookkeeping of a send request, before the slot is replaced. */
  function Asking(g: Ring, i: u16, dest: Addr): Ring {
    var t := TicketIn(g, i);
    g.(held := g.held - multiset{i}, asked := g.asked + [t], dests := g.dests[t := dest],
       pushed := if IsFull(g.sq) then g.pushed else g.pushed + multiset{i})
  }

  lemma AskingSending(g: Ring, i: u16, dest: Addr)
    requires OwnedOk(g, multiset{}) && ContentsOk(g) && i in g.held
    ensures forall q | q in Outstanding(g) && q.opcode.SendMsgZc? :: SendingOk(Asking(g, i, dest), q)
  {
    hide OwnedOk, MemoryOk;
    Exclusive(g, multiset{}, i);
    assert HeldOk(g, i);
    forall q | q in Outstanding(g) && q.opcode.SendMsgZc? ensures SendingOk(Asking(g, i, dest), q) {
      assert SendingOk(g, q) && Index(q) != i;
    }
  }

  lemma AskingHeld(g: Ring, i: u16, dest: Addr)
    requires OwnedOk(g, multiset{}) && ContentsOk(g) && i in g.held
    ensures HeldOk(g, i) && TicketsOk(Asking(g, i, dest))
    ensures forall j | j in Asking(g, i, dest).held :: HeldOk(Asking(g, i, dest), j)
    ensures forall e | e in g.wire :: SentOk(Asking(g, i, dest), e)
  {
    hide OwnedOk, MemoryOk, SendingOk;
    Exclusive(g, multiset{}, i);
    assert HeldOk(g, i);
    var g' := Asking(g, i, dest);
    forall j | j in g'.held ensures HeldOk(g', j) {
      assert HeldOk(g, j) && j != i;
    }
    forall e | e in g.wire ensures SentOk(g', e) {
      assert SentOk(g, e);
    }
  }

  lemma AskingContents(g: Ring, i: u16, dest: Addr)
    requires OwnedOk(g, multiset{}) && ContentsOk(g) && i in g.held
    ensures HeldOk(g, i) && ContentsOk(Asking(g, i, dest))
  {
    hide OwnedOk, TicketsOk, HeldOk, SendingOk, SentOk, StoredOk, TicketIn;
    AskingSending(g, i, dest);
    AskingHeld(g, i, dest);
  }

  lemma PostSendSends(g: Ring, i: u16, dest: Addr)
    requires SendsOk(g, multiset{})
    ensures SendsOk(PostSend(g, i, dest), multiset{})
  {
    TokenRoundTrip(Send, i);
    if !IsFull(g.sq) {
      PushedBag(g, NewRequest(g.pool, SendMsgZc, i), SendOwner);
    }
  }

  lemma AskingOwned(g: Ring, i: u16, dest: Addr)
    requires OwnedOk(g, multiset{}) && i in g.held
    ensures OwnedOk(Asking(g, i, dest), multiset{i})
  {
  }

  lemma PostSendKeeps(g: Ring, i: u16, dest: Addr)
    requires RingInv(g) && i in g.held
    ensures HeldOk(g, i) && RingInv(PostSend(g, i, dest))
  {
    AskingContents(g, i, dest);
    var g1 := Asking(g, i, dest);
    AskingOwned(g, i, dest);
    FramePointers(g, g1);
    PostOwned(g1, SendMsgZc, i, dest);
    PostPointers(g1, SendMsgZc, i, dest);
    PostContents(g1, SendMsgZc, i, dest);
    PostSendSends(g, i, dest);
  }

  // ---- completions

  lemma PopOwned(g: Ring, hand: multiset<nat>)
    requires OwnedOk(g, multiset{}) && g.cq != []
    ensures OwnedOk(g.(cq := g.cq[1..]), CqeOwner(g.cq[0]))
  {
    BagHead(g.cq, CqeOwner);
  }

  function Hold(g: Ring, i: nat, rx: Rx): Ring {
    g.(held := g.held + multiset{i}, ticketOf := g.ticketOf[i := |g.recvLog|], recvLog := g.recvLog + [rx])
  }

  lemma HoldTickets(g: Ring, i: nat, rx: Rx)
    requires TicketsOk(g)
    ensures TicketsOk(Hold(g, i, rx))
    ensures forall j | j != i && Carries(g, j) :: Carries(Hold(g, i, rx), j)
    ensures forall e | SentOk(g, e) :: SentOk(Hold(g, i, rx), e)
  {
  }

  /** The index of a receive completion goes to the router together with what it received. */
  lemma HoldContents(g: Ring, i: nat)
    requires OwnedOk(g, multiset{i}) && ContentsOk(g) && i in g.origin
    ensures ContentsOk(Hold(g, i, g.origin[i]))
  {
    Exclusive(g, multiset{i}, i);
    HoldTickets(g, i, g.origin[i]);
    var g' := Hold(g, i, g.origin[i]);
    forall j | j in g'.held ensures HeldOk(g', j) {
      if j != i { assert HeldOk(g, j); }
    }
    forall q | q in Outstanding(g') && q.opcode.SendMsgZc? ensures SendingOk(g', q) {
      assert SendingOk(g, q);
    }
  }

  lemma CompleteReceiveContents(g: Ring, i: nat)
    requires OwnedOk(g, multiset{}) && ContentsOk(g)
    requires g.cq != [] && DecodeToken(g.cq[0].token) == (Recv, i) && i in g.origin
    ensures ContentsOk(Complete(g))
  {
    PopOwned(g, multiset{i});
    FrameContents(g, g.(cq := g.cq[1..]));
    HoldContents(g.(cq := g.cq[1..]), i);
  }

  lemma CompleteReceiveOwned(g: Ring)
    requires OwnedOk(g, multiset{})
    requires g.cq != [] && DecodeToken(g.cq[0].token).0 == Recv
    ensures OwnedOk(Complete(g), multiset{})
  {
    BagHead(g.cq, CqeOwner);
  }

  lemma CompleteReceiveSends(g: Ring)
    requires SendsOk(g, multiset{}) && g.cq != [] && DecodeToken(g.cq[0].token).0 == Recv
    ensures SendsOk(Complete(g), multiset{})
  {
    BagHead(g.cq, CqeSendOwner);
  }

  lemma CompleteReceiveKeeps(g: Ring)
    requires RingInv(g) && g.cq != [] && DecodeToken(g.cq[0].token).0 == Recv
    ensures RingInv(Complete(g))
  {
    assert CompletionOk(g, g.cq[0]);
    CompleteReceiveContents(g, DecodeToken(g.cq[0].token).1);
    CompleteReceiveOwned(g);
    CompleteReceiveSends(g);
    FramePointers(g, Complete(g));
  }

  lemma CompleteSendKeeps(g: Ring)
    requires RingInv(g) && g.cq != [] && DecodeToken(g.cq[0].token).0 == Send
    ensures RingInv(Complete(g))
  {
    hide DecodeToken, PointersOk, ContentsOk, Bag;
    var c, g1 := g.cq[0], g.(cq := g.cq[1..]);
    var i := DecodeToken(c.token).1;
    PopOwned(g, multiset{i});
    BagHead(g.cq, CqeSendOwner);
    if c.more {
      FramePointers(g, g1);
      FrameContents(g, g1);
    } else {
      var g2 := g1.(reposted := g1.reposted + multiset{i});
      FramePointers(g, g2);
      FrameContents(g, g2);
      PostReceiveKeeps(g2, i);
    }
  }

  lemma CompleteKeeps(g: Ring)
    requires RingInv(g) && g.cq != []
    ensures RingInv(Complete(g))
  {
    assert CompletionOk(g, g.cq[0]);
    if DecodeToken(g.cq[0].token).0 == Recv {
      CompleteReceiveKeeps(g);
    } else {
      CompleteSendKeeps(g);
    }
  }

  /** What a completion does to the loop's own data. */
  lemma CompleteEffect(g: Ring)
    requires RingInv(g) && g.cq != []
    ensures var c, t := g.cq[0], Complete(g);
      var (op, i) := DecodeToken(c.token);
      && i < POOL_SIZE && op != SendNotif && t.cq == g.cq[1..]
      && (IsFinal(c) && op.Send? ==>
            t.pool == Alloc(g.pool, i, UNSPECIFIED) && t.sq == Push(g.sq, NewRequest(g.pool, RecvMsg, i)))
      && (!(IsFinal(c) && op.Send?) ==> t.pool == g.pool && t.sq == g.sq)
  {
    hide DecodeToken, OwnedOk, SendsOk, ContentsOk, Alloc, Push;
    assert CompletionOk(g, g.cq[0]);
  }

  // ---- the kernel

  /** Requests have only been moved or dropped. */
  lemma FewerRequests(g: Ring, g': Ring)
    requires PointersOk(g) && ContentsOk(g)
    requires g' == g.(sq := g'.sq, inKernel := g'.inKernel, notifs := g'.notifs) && g'.sq.Ok()
    requires forall q | q in Outstanding(g') :: q in Outstanding(g)
    requires forall q | q in g'.notifs :: q.opcode.SendMsgZc?
    ensures PointersOk(g') && ContentsOk(g')
  {
    forall q | q in Outstanding(g') ensures RequestOk(g'.pool, q) { assert RequestOk(g.pool, q); }
    forall c | c in g'.cq ensures CompletionOk(g', c) { assert CompletionOk(g, c); }
    forall i | i in g'.held ensures HeldOk(g', i) { assert HeldOk(g, i); }
    forall q | q in Outstanding(g') && q.opcode.SendMsgZc? ensures SendingOk(g', q) { assert SendingOk(g, q); }
    forall e | e in g'.wire ensures SentOk(g', e) { assert SentOk(g, e); }
  }

  lemma SameOutstandingKeeps(g: Ring, g': Ring)
    requires RingInv(g) && g'.sq.Ok() && Outstanding(g') == Outstanding(g)
    requires g' == g.(sq := g'.sq, inKernel := g'.inKernel)
    ensures RingInv(g')
  {
    FewerRequests(g, g');
  }

  lemma SyncOutstanding(g: Ring, n: nat)
    requires g.sq.Ok() && n <= |g.sq.Pending()|
    ensures Sync(g, n).sq.Ok() && Outstanding(Sync(g, n)) == Outstanding(g)
  {
    assert Sync(g, n).sq.Pending() == g.sq.Pending()[n..];
  }

  lemma SyncKeeps(g: Ring, n: nat)
    requires RingInv(g) && n <= |g.sq.Pending()|
    ensures RingInv(Sync(g, n))
  {
    hide Outstanding, PointersOk, ContentsOk;
    SyncOutstanding(g, n);
    SameOutstandingKeeps(g, Sync(g, n));
  }

  lemma TakenOutstanding(g: Ring)
    requires g.sq.Ok() && KernelEnabled(g, Take)
    ensures KernelNext(g, Take).sq.Ok() && Outstanding(KernelNext(g, Take)) == Outstanding(g)
  {
    var g' := KernelNext(g, Take);
    assert g.sq.Pending() == [g.sq.entries[g.sq.taken]] + g'.sq.Pending();
  }

  lemma TakeKeeps(g: Ring)
    requires RingInv(g) && KernelEnabled(g, Take)
    ensures RingInv(KernelNext(g, Take))
  {
    TakenOutstanding(g);
    SameOutstandingKeeps(g, KernelNext(g, Take));
  }

  /** The kernel is about to post completion `c`, whose index nobody owns at this moment. */
  ghost predicate Responding(g: Ring, c: Cqe) {
    && OwnedOk(g, CqeOwner(c)) && SendsOk(g, CqeSendOwner(c))
    && PointersOk(g) && ContentsOk(g) && CompletionOk(g, c)
  }

  lemma RespondPointers(g: Ring, c: Cqe)
    requires PointersOk(g) && CompletionOk(g, c)
    ensures PointersOk(Respond(g, c))
  {
    var g' := Respond(g, c);
    forall d | d in g'.cq ensures CompletionOk(g', d) { assert CompletionOk(g, d); }
    forall q | q in Outstanding(g') ensures RequestOk(g'.pool, q) { assert RequestOk(g.pool, q); }
  }

  lemma RespondKeeps(g: Ring, c: Cqe)
    requires Responding(g, c)
    ensures RingInv(Respond(g, c))
  {
    hide DecodeToken, PointersOk, ContentsOk, CompletionOk, Bag;
    BagSnoc(g.cq, c, CqeOwner);
    BagSnoc(g.cq, c, CqeSendOwner);
    RespondPointers(g, c);
    FrameContents(g, Respond(g, c));
  }

  lemma TokenOfRequest(p: Pool, q: Request)
    requires RequestOk(p, q)
    ensures DecodeToken(q.token) == (OpOf(q.opcode), Index(q))
  {
    TokenRoundTrip(OpOf(q.opcode), Index(q));
  }

  lemma DetachedBag(g: Ring, j: nat, f: Request -> multiset<nat>)
    requires g.sq.Ok() && j < |g.inKernel|
    ensures Bag(Outstanding(g), f) == Bag(Outstanding(Detached(g, j)), f) + f(g.inKernel[j])
  {
    BagWithout(Outstanding(g), j, f);
    assert Without(Outstanding(g), j) == Outstanding(Detached(g, j));
  }

  lemma DetachedSubset(g: Ring, j: nat)
    requires g.sq.Ok() && j < |g.inKernel|
    ensures forall q | q in Outstanding(Detached(g, j)) :: q in Outstanding(g)
    ensures g.inKernel[j] in Outstanding(g)
  {
  }

  /** The kernel is done with request `j`: its index is in nobody's hands until the completion is
      posted. */
  lemma DetachedOwned(g: Ring, j: nat)
    requires OwnedOk(g, multiset{}) && j < |g.inKernel|
    ensures OwnedOk(Detached(g, j), multiset{Index(g.inKernel[j])})
  {
    hide Outstanding;
    DetachedBag(g, j, Owner);
  }

  lemma DetachedSends(g: Ring, j: nat)
    requires SendsOk(g, multiset{}) && j < |g.inKernel|
    ensures SendsOk(Detached(g, j), SendOwner(g.inKernel[j]))
  {
    hide Outstanding;
    DetachedBag(g, j, SendOwner);
  }

  lemma DetachedRest(g: Ring, j: nat)
    requires PointersOk(g) && ContentsOk(g) && j < |g.inKernel|
    ensures PointersOk(Detached(g, j)) && ContentsOk(Detached(g, j))
    ensures var q := g.inKernel[j];
      RequestOk(g.pool, q) && DecodeToken(q.token) == (OpOf(q.opcode), Index(q))
  {
    DetachedSubset(g, j);
    TokenOfRequest(g.pool, g.inKernel[j]);
    FewerRequests(g, Detached(g, j));
  }

  lemma SilencedBag(g: Ring, j: nat, f: Request -> multiset<nat>)
    requires g.sq.Ok() && j < |g.notifs|
    ensures Bag(Outstanding(g), f) == Bag(Outstanding(Silenced(g, j)), f) + f(g.notifs[j])
  {
    var k := |g.inKernel + g.sq.Pending()| + j;
    assert Outstanding(g)[k] == g.notifs[j];
    BagWithout(Outstanding(g), k, f);
    assert Without(Outstanding(g), k) == Outstanding(Silenced(g, j));
  }

  lemma SilencedSubset(g: Ring, j: nat)
    requires g.sq.Ok() && j < |g.notifs|
    ensures forall q | q in Outstanding(Silenced(g, j)) :: q in Outstanding(g)
    ensures g.notifs[j] in Outstanding(g)
  {
  }

  lemma SilencedOwned(g: Ring, j: nat)
    requires OwnedOk(g, multiset{}) && j < |g.notifs|
    ensures OwnedOk(Silenced(g, j), multiset{Index(g.notifs[j])})
  {
    hide Outstanding;
    SilencedBag(g, j, Owner);
  }

  lemma SilencedSends(g: Ring, j: nat)
    requires SendsOk(g, multiset{}) && j < |g.notifs|
    ensures SendsOk(Silenced(g, j), SendOwner(g.notifs[j]))
  {
    hide Outstanding;
    SilencedBag(g, j, SendOwner);
  }

  lemma SilencedRest(g: Ring, j: nat)
    requires PointersOk(g) && ContentsOk(g) && j < |g.notifs|
    ensures PointersOk(Silenced(g, j)) && ContentsOk(Silenced(g, j))
    ensures var q := g.notifs[j];
      RequestOk(g.pool, q) && q.opcode.SendMsgZc? && DecodeToken(q.token) == (Send, Index(q))
  {
    SilencedSubset(g, j);
    TokenOfRequest(g.pool, g.notifs[j]);
    FewerRequests(g, Silenced(g, j));
  }

  lemma NotifyKeeps(g: Ring, j: nat)
    requires RingInv(g) && KernelEnabled(g, Notify(j))
    ensures RingInv(KernelNext(g, Notify(j)))
  {
    hide PointersOk, ContentsOk, OwnedOk, SendsOk;
    SilencedOwned(g, j);
    SilencedSends(g, j);
    SilencedRest(g, j);
    RespondKeeps(Silenced(g, j), Cqe(g.notifs[j].token, 0, false));
  }

  lemma SendDoneKeeps(g: Ring, j: nat, result: int)
    requires RingInv(g) && KernelEnabled(g, SendDone(j, result))
    ensures RingInv(KernelNext(g, SendDone(j, result)))
  {
    hide PointersOk, ContentsOk, OwnedOk, SendsOk;
    DetachedOwned(g, j);
    DetachedSends(g, j);
    DetachedRest(g, j);
    RespondKeeps(Detached(g, j), Cqe(g.inKernel[j].token, result, false));
  }

  lemma DeferredBag(g: Ring, j: nat, f: Request -> multiset<nat>)
    requires g.sq.Ok() && j < |g.inKernel|
    ensures Bag(Outstanding(Deferred(g, j)), f) == Bag(Outstanding(g), f)
  {
    DetachedBag(g, j, f);
    assert Outstanding(Deferred(g, j)) == Outstanding(Detached(g, j)) + [g.inKernel[j]];
    BagSnoc(Outstanding(Detached(g, j)), g.inKernel[j], f);
  }

  lemma DeferredOwned(g: Ring, j: nat)
    requires OwnedOk(g, multiset{}) && SendsOk(g, multiset{}) && j < |g.inKernel|
    ensures OwnedOk(Deferred(g, j), multiset{}) && SendsOk(Deferred(g, j), multiset{})
  {
    hide Outstanding;
    DeferredBag(g, j, Owner);
    DeferredBag(g, j, SendOwner);
  }

  lemma DeferredRest(g: Ring, j: nat)
    requires PointersOk(g) && ContentsOk(g) && j < |g.inKernel| && g.inKernel[j].opcode.SendMsgZc?
    ensures PointersOk(Deferred(g, j)) && ContentsOk(Deferred(g, j))
    ensures RequestOk(g.pool, g.inKernel[j]) && DecodeToken(g.inKernel[j].token).0 == Send
  {
    DetachedSubset(g, j);
    TokenOfRequest(g.pool, g.inKernel[j]);
    FewerRequests(g, Deferred(g, j));
  }

  lemma SendMoreKeeps(g: Ring, j: nat, result: int)
    requires RingInv(g) && KernelEnabled(g, SendMore(j, result))
    ensures RingInv(KernelNext(g, SendMore(j, result)))
  {
    hide PointersOk, ContentsOk, OwnedOk, SendsOk;
    DeferredOwned(g, j);
    DeferredRest(g, j);
    RespondKeeps(Deferred(g, j), Cqe(g.inKernel[j].token, result, true));
  }

  /** Receiving into a slot nobody else points to touches no other buffer. */
  lemma FillContents(g: Ring, q: Request, src: Addr, data: bytes)
    requires OwnedOk(g, multiset{Index(q)}) && PointersOk(g) && ContentsOk(g)
    requires RequestOk(g.pool, q) && |data| <= BUFFER_SIZE
    ensures ContentsOk(Fill(g, q.ptr, src, data))
  {
    var i, g' := Index(q), Fill(g, q.ptr, src, data);
    Exclusive(g, multiset{i}, i);
    forall k | k in g'.origin ensures StoredOk(g'.memory, k, g'.origin[k]) {
      WriteOne(g.memory, i, data, k);
      if k != i { assert StoredOk(g.memory, k, g.origin[k]); }
    }
    forall k | k in g'.held ensures HeldOk(g', k) { assert HeldOk(g, k); }
    forall r | r in Outstanding(g') && r.opcode.SendMsgZc? ensures SendingOk(g', r) {
      assert SendingOk(g, r) && RequestOk(g.pool, r);
    }
    forall e | e in g'.wire ensures SentOk(g', e) { assert SentOk(g, e); }
  }

  lemma FillPointers(g: Ring, q: Request, src: Addr, data: bytes)
    requires OwnedOk(g, multiset{Index(q)}) && PointersOk(g) && MemoryOk(g)
    requires RequestOk(g.pool, q) && |data| <= BUFFER_SIZE
    ensures PointersOk(Fill(g, q.ptr, src, data))
  {
    hide OwnedOk, MemoryOk, CompletionOk, Write, DecodeToken, EncodeToken;
    FillCompletions(g, q, src, data);
    assert |g.memory| == POOL_SIZE * BUFFER_SIZE by { MemorySize(g); }
    var g' := Fill(g, q.ptr, src, data);
    forall r | r in Outstanding(g') ensures RequestOk(g'.pool, r) { assert RequestOk(g.pool, r); }
  }

  lemma MemorySize(g: Ring)
    requires MemoryOk(g)
    ensures |g.memory| == POOL_SIZE * BUFFER_SIZE
  {
  }

  lemma FillCompletions(g: Ring, q: Request, src: Addr, data: bytes)
    requires OwnedOk(g, multiset{Index(q)}) && PointersOk(g) && MemoryOk(g)
    requires RequestOk(g.pool, q) && |data| <= BUFFER_SIZE
    ensures forall c | c in g.cq :: CompletionOk(Fill(g, q.ptr, src, data), c)
  {
    hide OwnedOk, Write, StoredOk, Outstanding;
    var i := Index(q);
    Exclusive(g, multiset{i}, i);
    forall c | c in g.cq ensures CompletionOk(Fill(g, q.ptr, src, data), c) {
      assert CompletionOk(g, c) && i !in CqeOwner(c);
    }
  }

  lemma FillCompletion(g: Ring, q: Request, src: Addr, data: bytes, result: int)
    requires PoolOk(g.pool) && |g.memory| == POOL_SIZE * BUFFER_SIZE
    requires RequestOk(g.pool, q) && DecodeToken(q.token) == (Recv, Index(q))
    requires |data| == (if result < 0 then 0 else result) <= BUFFER_SIZE
    ensures CompletionOk(Fill(g, q.ptr, src, data), Cqe(q.token, result, false))
  {
  }

  lemma FillOwned(g: Ring, ptr: nat, src: Addr, data: bytes, hand: multiset<nat>)
    requires OwnedOk(g, hand) && SendsOk(g, multiset{}) && |data| <= BUFFER_SIZE
    ensures OwnedOk(Fill(g, ptr, src, data), hand) && SendsOk(Fill(g, ptr, src, data), multiset{})
  {
    assert Outstanding(Fill(g, ptr, src, data)) == Outstanding(g);
  }

  lemma FilledResponds(g: Ring, q: Request, src: Addr, data: bytes, result: int)
    requires OwnedOk(g, multiset{Index(q)}) && SendsOk(g, multiset{}) && PointersOk(g) && ContentsOk(g)
    requires RequestOk(g.pool, q) && DecodeToken(q.token) == (Recv, Index(q))
    requires |data| == (if result < 0 then 0 else result) <= BUFFER_SIZE
    ensures Responding(Fill(g, q.ptr, src, data), Cqe(q.token, result, false))
  {
    FillOwned(g, q.ptr, src, data, multiset{Index(q)});
    FillContents(g, q, src, data);
    FillPointers(g, q, src, data);
    FillCompletion(g, q, src, data, result);
  }

  lemma ReceivedKeeps(g: Ring, j: nat, src: Addr, data: bytes, result: int)
    requires RingInv(g) && j < |g.inKernel| && g.inKernel[j].opcode.RecvMsg?
    requires |data| == (if result < 0 then 0 else result) <= BUFFER_SIZE
    ensures RingInv(Respond(Fill(Detached(g, j), g.inKernel[j].ptr, src, data),
                            Cqe(g.inKernel[j].token, result, false)))
  {
    hide PointersOk, ContentsOk, OwnedOk, SendsOk;
    DetachedOwned(g, j);
    DetachedSends(g, j);
    DetachedRest(g, j);
    FilledResponds(Detached(g, j), g.inKernel[j], src, data, result);
    RespondKeeps(Fill(Detached(g, j), g.inKernel[j].ptr, src, data), Cqe(g.inKernel[j].token, result, false));
  }

  lemma ReadOutKeeps(g: Ring, j: nat)
    requires RingInv(g) && KernelEnabled(g, ReadOut(j))
    ensures RingInv(KernelNext(g, ReadOut(j)))
  {
    hide DecodeToken, EncodeToken, Bag, OwnedOk, SendsOk;
    var q := (g.inKernel + g.notifs)[j];
    assert q in Outstanding(g);
    assert RequestOk(g.pool, q) && SendingOk(g, q);
    var i := Index(q);
    assert StoredOk(g.memory, i, g.origin[i]);
    var e := Sent(g.ticketOf[i], g.pool.boxes[q.ptr].addr, Region(g.memory, i));
    assert KernelNext(g, ReadOut(j)) == g.(wire := g.wire + [e]);
    assert SentOk(g, e);
    OnWireKeeps(g, e);
  }

  lemma OnWireKeeps(g: Ring, e: Sent)
    requires RingInv(g) && SentOk(g, e)
    ensures RingInv(g.(wire := g.wire + [e]))
  {
    var g' := g.(wire := g.wire + [e]);
    FramePointers(g, g');
    FrameContents(g, g);
    forall i | i in g'.held ensures HeldOk(g', i) { assert HeldOk(g, i); }
    forall q | q in Outstanding(g') && q.opcode.SendMsgZc? ensures SendingOk(g', q) { assert SendingOk(g, q); }
    forall d | d in g'.wire ensures SentOk(g', d) { assert SentOk(g, d); }
  }

  lemma ReceiveKeeps(g: Ring, j: nat, src: Addr, data: bytes)
    requires RingInv(g) && KernelEnabled(g, Receive(j, src, data))
    ensures RingInv(KernelNext(g, Receive(j, src, data)))
  {
    hide RingInv;
    ReceivedKeeps(g, j, src, data, |data|);
  }

  lemma ReceiveFailKeeps(g: Ring, j: nat, errno: int)
    requires RingInv(g) && KernelEnabled(g, ReceiveFail(j, errno))
    ensures RingInv(KernelNext(g, ReceiveFail(j, errno)))
  {
    hide RingInv;
    ReceivedKeeps(g, j, UNSPECIFIED, [], -errno);
  }

  lemma KernelKeeps(g: Ring, k: KernelStep)
    requires RingInv(g) && KernelEnabled(g, k)
    ensures RingInv(KernelNext(g, k))
  {
    hide RingInv;
    match k
    case Take => TakeKeeps(g);
    case Receive(j, src, data) => ReceiveKeeps(g, j, src, data);
    case ReceiveFail(j, errno) => ReceiveFailKeeps(g, j, errno);
    case ReadOut(j) => ReadOutKeeps(g, j);
    case SendMore(j, result) => SendMoreKeeps(g, j, result);
    case SendDone(j, result) => SendDoneKeeps(g, j, result);
    case Notify(j) => NotifyKeeps(g, j);
  }

  // ---- counting

  function FinalCount(c: Cqe): nat {
    if IsFinal(c) then 1 else 0
  }

  lemma AllIndicesSize()
    ensures |AllIndices()| == POOL_SIZE
  {
    assert |UpTo(POOL_SIZE)| == POOL_SIZE;
  }

  /** However indices move, the stages together always hold as many as there are buffers. */
  lemma RingSizes(g: Ring, hand: multiset<nat>)
    requires OwnedOk(g, hand)
    ensures |g.pool.free| + |g.inKernel| + |g.sq.Pending()| + |g.notifs| + Sum(g.cq, FinalCount)
          + |g.held| + |g.lost| + |hand| == POOL_SIZE
  {
    hide DecodeToken, Bag;
    BagSize(Outstanding(g), Owner);
    BagSum(g.cq, CqeOwner, FinalCount);
    AllIndicesSize();
  }

  /** A send that has been pushed leads to one repost at most, and only once it is done. */
  lemma RepostedOnce(g: Ring, i: nat)
    requires RingInv(g)
    ensures g.reposted <= g.pushed
    ensures (g.pushed - g.reposted)[i] + g.held[i] <= 1
  {
    hide PointersOk, ContentsOk, DecodeToken, Bag;
    BagWithin(Outstanding(g), SendOwner, Owner);
    BagWithin(g.cq, CqeSendOwner, CqeOwner);
    UpToOnce(POOL_SIZE, i);
    assert g.pushed - g.reposted == Bag(Outstanding(g), SendOwner) + Bag(g.cq, CqeSendOwner);
    assert Owned(g)[i] <= 1;
  }

  /** Two requests are never about the same buffer: nothing is received into a buffer between the
      receive that filled it and the completion of its send. */
  lemma OneRequestPerBuffer(g: Ring, x: nat, y: nat)
    requires RingInv(g) && x < y < |Outstanding(g)|
    ensures Index(Outstanding(g)[x]) != Index(Outstanding(g)[y])
  {
    hide PointersOk, ContentsOk, SendsOk, DecodeToken, Bag;
    var q := Outstanding(g);
    var i := Index(q[x]);
    BagWithout(q, x, Owner);
    if Index(q[y]) == i {
      assert Without(q, x)[y - 1] == q[y];
      BagMember(Without(q, x), Owner, q[y]);
      assert Bag(q, Owner)[i] >= 2;
      UpToOnce(POOL_SIZE, i);
    }
  }

  /** What the SAFETY comments promise: the slot a request points to is the live one of its buffer,
      is still allocated, and leads to this buffer's region. */
  lemma PointerAlive(g: Ring, q: Request)
    requires RingInv(g) && q in Outstanding(g)
    ensures Index(q) in g.pool.liveSlots && g.pool.liveSlots[Index(q)] == q.ptr
    ensures Alive(g, q.ptr) && g.pool.boxes[q.ptr].buf == Index(q)
  {
    hide OwnedOk, SendsOk, DecodeToken, Bag;
    assert RequestOk(g.pool, q);
  }

  lemma FreeIndex(g: Ring, n: nat)
    requires RingInv(g) && n < |g.pool.free|
    ensures g.pool.free[n] < POOL_SIZE
  {
    hide PointersOk, ContentsOk, SendsOk, Bag, DecodeToken;
    UpToOnce(POOL_SIZE, g.pool.free[n]);
    assert g.pool.free[n] in multiset(g.pool.free);
    assert g.pool.free[n] in Owned(g);
  }

  // ---- the start

  /** After register_buffer_kernel: every index is on the free list. */
  function Registered(capacity: nat): Ring {
    Ring(Pool(UpTo(POOL_SIZE), map[], map[], 0), Sq(capacity, [], 0, 0),
         seq(POOL_SIZE * BUFFER_SIZE, i => 0), [], [], [], multiset{}, [],
         map[], [], map[], [], map[], [], multiset{}, multiset{}, false)
  }

  lemma RegisteredInv(capacity: nat)
    ensures RingInv(Registered(capacity))
  {
    assert Outstanding(Registered(capacity)) == [];
  }
}

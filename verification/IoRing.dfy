/** The buffer pool, the submission and completion rings and the kernel behind them. A buffer index
    is always in exactly one place; everything a raw pointer is used for rests on that. Indices that
    the event loop has passed on to the router are `held`; indices nobody will ever repost are
    `lost`. The fields from `held` on do not exist in the program: they record where indices are
    and what was received and asked for. */
module IoRing {
  import opened Basics
  import opened Bags
  import opened Token

  const BUFFER_SIZE: nat := 1500
  const POOL_SIZE: nat := 1024

  // What extract_src_addr makes of a slot the kernel did not fill: 0.0.0.0:0.
  const UNSPECIFIED: Addr := 0

  /** A boxed MsgHdrSlot: which buffer its iovec points at, and its address field. */
  datatype Slot = Slot(buf: nat, addr: Addr)

  /** `boxes` is the heap of slots, `liveSlots` the map that owns them: replacing an entry frees the
      box it held. */
  datatype Pool = Pool(free: seq<nat>, liveSlots: map<nat, nat>, boxes: map<nat, Slot>, nextBox: nat)

  datatype Opcode = RecvMsg | SendMsgZc

  /** A submission: its operation, its user_data, and the raw pointer to the slot. */
  datatype Request = Request(opcode: Opcode, token: u64, ptr: nat)

  datatype Cqe = Cqe(token: u64, result: int, more: bool)

  /** The submission ring from the cached head to the local tail. The first `published` entries were
      visible to the kernel at the last sync, and it has consumed the first `taken` of them. */
  datatype Sq = Sq(capacity: nat, entries: seq<Request>, published: nat, taken: nat) {
    predicate Ok() { taken <= published <= |entries| }

    function Pending(): seq<Request>
      requires Ok()
    { entries[taken..] }
  }

  datatype Rx = Rx(src: Addr, data: bytes)
  datatype Sent = Sent(ticket: nat, dest: Addr, data: bytes)

  datatype Ring = Ring(
    pool: Pool, sq: Sq, memory: bytes,
    inKernel: seq<Request>,         // being executed
    notifs: seq<Request>,           // zero-copy sends whose notification is still to come
    cq: seq<Cqe>,
    held: multiset<nat>, lost: seq<nat>,
    origin: map<nat, Rx>,           // what the kernel last received into a buffer
    recvLog: seq<Rx>,               // what was received, in the order it was processed
    ticketOf: map<nat, nat>,        // the position in recvLog of what a buffer carries
    asked: seq<nat>,                // the tickets for which a send was requested, in order
    dests: map<nat, Addr>,          // and where to
    wire: seq<Sent>,
    pushed: multiset<nat>, reposted: multiset<nat>,
    fault: bool)                    // a freed slot was dereferenced

  // ---- buffers

  function Region(memory: bytes, i: nat): bytes
    requires |memory| == POOL_SIZE * BUFFER_SIZE && i < POOL_SIZE
  {
    memory[i * BUFFER_SIZE..(i + 1) * BUFFER_SIZE]
  }

  function Write(memory: bytes, i: nat, data: bytes): bytes
    requires |memory| == POOL_SIZE * BUFFER_SIZE && i < POOL_SIZE && |data| <= BUFFER_SIZE
  {
    memory[..i * BUFFER_SIZE] + data + memory[i * BUFFER_SIZE + |data|..]
  }

  lemma RegionsDisjoint(i: nat, j: nat)
    requires i < j < POOL_SIZE
    ensures (i + 1) * BUFFER_SIZE <= j * BUFFER_SIZE <= POOL_SIZE * BUFFER_SIZE - BUFFER_SIZE
  {
  }

  /** Writing one buffer changes that buffer only. */
  lemma WriteOne(memory: bytes, i: nat, data: bytes, j: nat)
    requires |memory| == POOL_SIZE * BUFFER_SIZE && i < POOL_SIZE && |data| <= BUFFER_SIZE
    requires j < POOL_SIZE
    ensures |Write(memory, i, data)| == |memory|
    ensures j != i ==> Region(Write(memory, i, data), j) == Region(memory, j)
    ensures Region(Write(memory, i, data), i)[..|data|] == data
  {
    var w := Write(memory, i, data);
    if i < j {
      RegionsDisjoint(i, j);
      assert Region(w, j) == Region(memory, j);
    } else if j < i {
      RegionsDisjoint(j, i);
      assert Region(w, j) == Region(memory, j);
    }
    assert Region(w, i)[..|data|] == data;
  }

  // ---- the pool and the submission ring

  function OpOf(opcode: Opcode): OpType {
    if opcode.RecvMsg? then Recv else Send
  }

  /** A fresh slot for buffer `i`; the one it replaces is freed. */
  function Alloc(p: Pool, i: nat, addr: Addr): Pool {
    var rest := if i in p.liveSlots then p.boxes - {p.liveSlots[i]} else p.boxes;
    Pool(p.free, p.liveSlots[i := p.nextBox], rest[p.nextBox := Slot(i, addr)], p.nextBox + 1)
  }

  predicate IsFull(sq: Sq) { |sq.entries| >= sq.capacity }

  function Push(sq: Sq, q: Request): Sq {
    if IsFull(sq) then sq else sq.(entries := sq.entries + [q])
  }

  /** Everything is published; the loop then sees what the kernel has consumed, which may include
      the first `n` of the entries still pending. */
  function SyncSq(sq: Sq, n: nat): Sq
    requires sq.Ok() && n <= |sq.Pending()|
  {
    Sq(sq.capacity, sq.Pending()[n..], |sq.Pending()| - n, 0)
  }

  function NewRequest(p: Pool, opcode: Opcode, i: u16): Request {
    Request(opcode, EncodeToken(OpOf(opcode), i), p.nextBox)
  }

  /** post_recv_sqe and post_send_sqe: the slot is replaced whether or not the push succeeds. */
  function Post(g: Ring, opcode: Opcode, i: u16, addr: Addr): Ring {
    g.(pool := Alloc(g.pool, i, addr),
       sq := Push(g.sq, NewRequest(g.pool, opcode, i)),
       lost := if IsFull(g.sq) then g.lost + [i] else g.lost)
  }

  // ---- what the event loop does

  /** acquire and post_recv_sqe, as done for every buffer at start-up. */
  function SeedNext(g: Ring): Ring
    requires g.pool.free != [] && g.pool.free[|g.pool.free| - 1] < INDEX_LIMIT
  {
    var n := |g.pool.free| - 1;
    Post(g.(pool := g.pool.(free := g.pool.free[..n])), RecvMsg, g.pool.free[n], UNSPECIFIED)
  }

  /** A sync stores the tail and then loads the head. In between, the kernel may consume `n` entries. */
  function Sync(g: Ring, n: nat): Ring
    requires g.sq.Ok() && n <= |g.sq.Pending()|
  {
    g.(sq := SyncSq(g.sq, n), inKernel := g.inKernel + g.sq.Pending()[..n])
  }

  /** The ticket of what buffer `i` carries. */
  function TicketIn(g: Ring, i: nat): nat {
    if i in g.ticketOf then g.ticketOf[i] else 0
  }

  function PostSend(g: Ring, i: u16, dest: Addr): Ring {
    var t := TicketIn(g, i);
    Post(g.(held := g.held - multiset{i}, asked := g.asked + [t], dests := g.dests[t := dest],
            pushed := if IsFull(g.sq) then g.pushed else g.pushed + multiset{i}),
         SendMsgZc, i, dest)
  }

  /** A buffer the router or a shard has dropped. */
  function Drop(g: Ring, i: nat): Ring {
    g.(held := g.held - multiset{i}, lost := g.lost + [i])
  }

  /** get_peer_addr. */
  function PeerAddr(p: Pool, i: nat): Addr {
    if i in p.liveSlots && p.liveSlots[i] in p.boxes then p.boxes[p.liveSlots[i]].addr else UNSPECIFIED
  }

  function Length(c: Cqe): nat {
    if c.result < 0 then 0 else c.result
  }

  /** The loop's handling of one completion, up to the call of the router. */
  function Complete(g: Ring): Ring
    requires g.cq != []
  {
    var c, g1 := g.cq[0], g.(cq := g.cq[1..]);
    var (op, i) := DecodeToken(c.token);
    match op
    case Recv =>
      g1.(held := g1.held + multiset{i}, ticketOf := g1.ticketOf[i := |g1.recvLog|],
          recvLog := g1.recvLog + [if i in g1.origin then g1.origin[i] else Rx(UNSPECIFIED, [])])
    case Send =>
      if c.more then g1
      else Post(g1.(reposted := g1.reposted + multiset{i}), RecvMsg, i, UNSPECIFIED)
    case SendNotif =>
      Post(g1, RecvMsg, i, UNSPECIFIED)
  }

  /** Index `i` is handed out under a new ticket. */
  ghost predicate HandsOut(g: Ring, g': Ring, i: nat) {
    && g'.held == g.held + multiset{i}
    && g'.ticketOf == g.ticketOf[i := |g.recvLog|]
    && |g'.recvLog| == |g.recvLog| + 1 && g.recvLog <= g'.recvLog
    && (i in g.origin ==> g'.recvLog[|g.recvLog|] == g.origin[i])
    && g'.asked == g.asked && g'.dests == g.dests
  }

  /** Nothing changes for the indices outside the ring. */
  ghost predicate SameOutside(g: Ring, g': Ring) {
    && g'.held == g.held && g'.ticketOf == g.ticketOf && g'.recvLog == g.recvLog
    && g'.asked == g.asked && g'.dests == g.dests
  }

  lemma CompleteHeld(g: Ring)
    requires g.cq != []
    ensures DecodeToken(g.cq[0].token).0.Recv? ==> HandsOut(g, Complete(g), DecodeToken(g.cq[0].token).1)
    ensures !DecodeToken(g.cq[0].token).0.Recv? ==> SameOutside(g, Complete(g))
  {
  }

  lemma PostSendEffect(g: Ring, i: u16, dest: Addr)
    ensures var t := PostSend(g, i, dest);
      && t.pool == Alloc(g.pool, i, dest) && t.cq == g.cq
      && t.sq == Push(g.sq, NewRequest(g.pool, SendMsgZc, i))
  {
    hide Alloc, Push, EncodeToken;
  }

  // ---- what the kernel does

  datatype KernelStep =
    | Take                                          // consume the next published submission
    | Receive(j: nat, src: Addr, data: bytes)       // complete a receive
    | ReceiveFail(j: nat, errno: int)
    | ReadOut(j: nat)                              // read the buffer of an outstanding send
    | SendMore(j: nat, result: int)                 // completion with MORE: a notification follows
    | SendDone(j: nat, result: int)                 // the only completion of this send
    | Notify(j: nat)                                // the notification, again under the Send token

  predicate KernelEnabled(g: Ring, k: KernelStep) {
    match k
    case Take => g.sq.taken < g.sq.published <= |g.sq.entries|
    case Receive(j, _, data) => j < |g.inKernel| && g.inKernel[j].opcode.RecvMsg? && |data| <= BUFFER_SIZE
    case ReceiveFail(j, errno) => j < |g.inKernel| && g.inKernel[j].opcode.RecvMsg? && errno > 0
    case ReadOut(j) => j < |g.inKernel + g.notifs| && (g.inKernel + g.notifs)[j].opcode.SendMsgZc?
    case SendMore(j, _) => j < |g.inKernel| && g.inKernel[j].opcode.SendMsgZc?
    case SendDone(j, _) => j < |g.inKernel| && g.inKernel[j].opcode.SendMsgZc?
    case Notify(j) => j < |g.notifs|
  }

  /** The pointer leads to a slot that is still there and points into the pool. */
  predicate Alive(g: Ring, ptr: nat) {
    && ptr in g.pool.boxes && g.pool.boxes[ptr].buf < POOL_SIZE
    && |g.memory| == POOL_SIZE * BUFFER_SIZE
  }

  /** Request `j` is no longer executing. */
  function Detached(g: Ring, j: nat): Ring
    requires j < |g.inKernel|
  {
    g.(inKernel := Without(g.inKernel, j))
  }

  /** Request `j` is done, but its buffer stays with the kernel until a notification. */
  function Deferred(g: Ring, j: nat): Ring
    requires j < |g.inKernel|
  {
    Detached(g, j).(notifs := g.notifs + [g.inKernel[j]])
  }

  function Silenced(g: Ring, j: nat): Ring
    requires j < |g.notifs|
  {
    g.(notifs := Without(g.notifs, j))
  }

  function Respond(g: Ring, c: Cqe): Ring {
    g.(cq := g.cq + [c])
  }

  function Fill(g: Ring, ptr: nat, src: Addr, data: bytes): Ring
    requires |data| <= BUFFER_SIZE
  {
    if !Alive(g, ptr) then g.(fault := true)
    else
      var slot := g.pool.boxes[ptr];
      g.(pool := g.pool.(boxes := g.pool.boxes[ptr := slot.(addr := src)]),
         memory := Write(g.memory, slot.buf, data),
         origin := g.origin[slot.buf := Rx(src, data)])
  }

  function SendFrom(g: Ring, ptr: nat): Ring {
    if !Alive(g, ptr) || g.pool.boxes[ptr].buf !in g.ticketOf then g.(fault := true)
    else
      var slot := g.pool.boxes[ptr];
      g.(wire := g.wire + [Sent(g.ticketOf[slot.buf], slot.addr, Region(g.memory, slot.buf))])
  }

  function KernelNext(g: Ring, k: KernelStep): Ring
    requires KernelEnabled(g, k)
  {
    match k
    case Take =>
      g.(sq := g.sq.(taken := g.sq.taken + 1), inKernel := g.inKernel + [g.sq.entries[g.sq.taken]])
    case Receive(j, src, data) =>
      Respond(Fill(Detached(g, j), g.inKernel[j].ptr, src, data), Cqe(g.inKernel[j].token, |data|, false))
    case ReceiveFail(j, errno) =>
      Respond(Fill(Detached(g, j), g.inKernel[j].ptr, UNSPECIFIED, []), Cqe(g.inKernel[j].token, -errno, false))
    case ReadOut(j) => SendFrom(g, (g.inKernel + g.notifs)[j].ptr)
    case SendMore(j, result) => Respond(Deferred(g, j), Cqe(g.inKernel[j].token, result, true))
    case SendDone(j, result) => Respond(Detached(g, j), Cqe(g.inKernel[j].token, result, false))
    case Notify(j) => Respond(Silenced(g, j), Cqe(g.notifs[j].token, 0, false))
  }

  /** The kernel's part in the bookkeeping is to consume submissions and to add completions. */
  ghost predicate LoopsOwn(g: Ring, g': Ring) {
    && SameOutside(g, g')
    && g'.pushed == g.pushed && g'.reposted == g.reposted && g'.lost == g.lost
    && g'.pool.free == g.pool.free && g.cq <= g'.cq
    && g'.sq.capacity == g.sq.capacity && g'.sq.published == g.sq.published && g'.sq.entries == g.sq.entries
  }

  lemma FillLeaves(g: Ring, ptr: nat, src: Addr, data: bytes)
    requires |data| <= BUFFER_SIZE
    ensures LoopsOwn(g, Fill(g, ptr, src, data))
  {
    hide Write;
  }

  lemma SendLeaves(g: Ring, ptr: nat)
    ensures LoopsOwn(g, SendFrom(g, ptr))
  {
    hide Region;
  }

  lemma KernelLeaves(g: Ring, k: KernelStep)
    requires KernelEnabled(g, k)
    ensures LoopsOwn(g, KernelNext(g, k))
  {
    hide Fill, SendFrom, Without;
    match k
    case Receive(j, src, data) => FillLeaves(Detached(g, j), g.inKernel[j].ptr, src, data);
    case ReceiveFail(j, errno) => FillLeaves(Detached(g, j), g.inKernel[j].ptr, UNSPECIFIED, []);
    case ReadOut(j) => SendLeaves(g, (g.inKernel + g.notifs)[j].ptr);
    case _ =>
  }

  // ---- who owns which index

  function Index(q: Request): u16 { DecodeToken(q.token).1 }

  function Owner(q: Request): multiset<nat> { multiset{Index(q)} }

  function SendOwner(q: Request): multiset<nat> {
    if q.opcode.SendMsgZc? then multiset{Index(q)} else multiset{}
  }

  predicate IsFinal(c: Cqe) {
    DecodeToken(c.token).0.Recv? || !c.more
  }

  function CqeOwner(c: Cqe): multiset<nat> {
    if IsFinal(c) then multiset{DecodeToken(c.token).1} else multiset{}
  }

  function CqeSendOwner(c: Cqe): multiset<nat> {
    if DecodeToken(c.token).0.Send? && !c.more then multiset{DecodeToken(c.token).1} else multiset{}
  }

  /** Every request the kernel has or will have a pointer from. */
  function Outstanding(g: Ring): seq<Request>
    requires g.sq.Ok()
  {
    g.inKernel + g.sq.Pending() + g.notifs
  }

  function Owned(g: Ring): multiset<nat>
    requires g.sq.Ok()
  {
    multiset(g.pool.free) + Bag(Outstanding(g), Owner) + Bag(g.cq, CqeOwner) + g.held + multiset(g.lost)
  }

  function AllIndices(): multiset<nat> {
    multiset(UpTo(POOL_SIZE))
  }

  /** Every index is in one place; those in `hand` are between two places. */
  ghost predicate OwnedOk(g: Ring, hand: multiset<nat>) {
    g.sq.Ok() && Owned(g) + hand == AllIndices()
  }

  /** Sends pushed are sends reposted plus sends under way. */
  ghost predicate SendsOk(g: Ring, hand: multiset<nat>) {
    && g.sq.Ok()
    && g.pushed == g.reposted + Bag(Outstanding(g), SendOwner) + Bag(g.cq, CqeSendOwner) + hand
  }

  lemma Exclusive(g: Ring, hand: multiset<nat>, i: nat)
    requires OwnedOk(g, hand) && i in hand + g.held
    ensures i < POOL_SIZE && (hand + g.held)[i] == 1
    ensures i !in g.pool.free && i !in g.lost
    ensures forall q | q in Outstanding(g) :: Index(q) != i
    ensures forall c | c in g.cq :: i !in CqeOwner(c)
  {
    UpToOnce(POOL_SIZE, i);
    forall q | q in Outstanding(g) ensures Index(q) != i {
      BagMember(Outstanding(g), Owner, q);
      assert Index(q) in Owner(q);
    }
    forall c | c in g.cq ensures i !in CqeOwner(c) {
      BagMember(g.cq, CqeOwner, c);
    }
  }
}

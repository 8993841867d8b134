/** How the program of Statements, caught in the middle of any handlers, looks to someone who sees
    handlers in one piece: as if every handler that has started had finished, with the datagrams it
    still has to send already on their way. Most statements then change nothing. */
module Simulation {
  import opened Basics
  import opened Wire
  import opened SingleConnection
  import R = Receiver
  import S = Sender
  import P = Protocol
  import I = Interleaving
  import opened Statements

  // ---- the handlers' view of a program caught in the middle of them

  /** The packets a scan in progress is still to find. */
  function Due(unacked: S.Unacked, now: nat, order: seq<u32>): seq<u32> {
    if order == [] then []
    else
      (if order[0] in unacked && S.IsOverdue(unacked[order[0]], now) then [order[0]] else []) +
      Due(unacked, now, order[1..])
  }

  lemma {:induction false} DueMembers(unacked: S.Unacked, now: nat, order: seq<u32>, k: u32)
    ensures k in Due(unacked, now, order) <==> k in order && k in unacked && S.IsOverdue(unacked[k], now)
  {
    if order != [] {
      DueMembers(unacked, now, order[1..], k);
    }
  }

  function DuePackets(unacked: S.Unacked, now: nat, order: seq<u32>): seq<Packet> {
    if order == [] then []
    else
      (if order[0] in unacked && S.IsOverdue(unacked[order[0]], now) then [unacked[order[0]].packet] else []) +
      DuePackets(unacked, now, order[1..])
  }

  lemma {:induction false} PacketsAtHead(unacked: S.Unacked, k: u32, rest: seq<u32>)
    requires k in unacked && forall j | j in rest :: j in unacked
    ensures S.PacketsAt(unacked, [k] + rest) == [unacked[k].packet] + S.PacketsAt(unacked, rest)
  {
    var order := [k] + rest;
    if rest == [] {
      assert order[..0] == rest;
    } else {
      var front := rest[..|rest| - 1];
      assert order[..|order| - 1] == [k] + front && order[|order| - 1] == rest[|rest| - 1];
      PacketsAtHead(unacked, k, front);
    }
  }

  lemma {:induction false} DuePacketsAt(unacked: S.Unacked, now: nat, order: seq<u32>)
    ensures forall k | k in Due(unacked, now, order) :: k in unacked
    ensures DuePackets(unacked, now, order) == S.PacketsAt(unacked, Due(unacked, now, order))
  {
    hide S.PacketsAt, S.IsOverdue;
    if order == [] {
      assert S.PacketsAt(unacked, []) == [];
    } else {
      DuePacketsAt(unacked, now, order[1..]);
      if order[0] in unacked && S.IsOverdue(unacked[order[0]], now) {
        PacketsAtHead(unacked, order[0], Due(unacked, now, order[1..]));
      } else {
        assert Due(unacked, now, order) == Due(unacked, now, order[1..]);
      }
    }
  }

  /** What the send handler counts as sent: a message from the moment its time stamp is taken, and a
      scan from its beginning. */
  function Committed(n: Node): S.Sender {
    match n.sendPc
    case LoadAck(_) => S.Sender(Dec(n.send.nextSeq), n.send.unacked)
    case Stamp(_) => S.Sender(Dec(n.send.nextSeq), n.send.unacked)
    case Insert(p, now) => n.send.(unacked := n.send.unacked[p.SeqNum() := S.SentPacket(p, now)])
    case Visit(now, _, _) => n.send.(unacked := S.Restamp(n.send.unacked, now))
    case _ => n.send
  }

  function Dec(x: u32): u32 { if x == 0 then U32_LIMIT - 1 else x - 1 }

  function CommittedGiven(n: Node): seq<bytes> {
    if (n.sendPc.LoadAck? || n.sendPc.Stamp?) && n.given != [] then n.given[..|n.given| - 1] else n.given
  }

  /** The endpoint whose handlers run in one piece: this one with the started handlers finished. */
  function Abs(n: Node): P.Endpoint {
    P.Endpoint(I.Finish(Handler(n)).0, Committed(n), CommittedGiven(n))
  }

  /** What the send task has committed to but not yet put on the socket. */
  function Unsent(n: Node): seq<Packet> {
    match n.sendPc
    case Insert(p, _) => [p]
    case Transmit(p) => [p]
    case Visit(now, order, found) => found + DuePackets(n.send.unacked, now, order)
    case Resend(found) => found
    case _ => []
  }

  function Unanswered(n: Node): seq<Packet> {
    if n.popped.Some? then [R.Ack(n.popped.value)] else []
  }

  /** Every datagram the started handlers have still to send. */
  function Pending(n: Node, x: P.Side): multiset<Datagram> {
    multiset(P.Outgoing(x, I.Finish(Handler(n)).1)) + multiset(P.Outgoing(x, Unsent(n))) +
    multiset(P.Outgoing(x, Unanswered(n)))
  }

  ghost predicate SendTaskOk(n: Node) {
    match n.sendPc
    case LoadAck(payload) => n.given != [] && payload == n.given[|n.given| - 1]
    case Stamp(p) =>
      && n.given != [] && p == Packet(Header(n.send.nextSeq, p.header.ack), Some(n.given[|n.given| - 1]))
      && p.header.ack <= n.recv.acked
    case Insert(p, _) => true
    case Visit(now, order, found) =>
      && (forall k | k in n.send.unacked && S.IsOverdue(n.send.unacked[k], now) :: k in order)
      && (forall i, j | 0 <= i < j < |order| :: order[i] != order[j])
    case _ => true
  }

  ghost predicate NodeOk(n: Node) {
    I.CountersOk(Handler(n)) && n.send.nextSeq == |n.given| <= P.MAX_MESSAGES && SendTaskOk(n)
  }

  ghost predicate Simulates(a: P.System, c: World) {
    && a.clock == c.clock
    && (forall x: P.Side :: NodeOk(c.At(x)) && a.At(x) == Abs(c.At(x)))
    && (forall x: P.Side :: InboxMatches(a, c, x))
  }

  ghost predicate InboxMatches(a: P.System, c: World, x: P.Side) {
    multiset(a.Inbox(x)) == multiset(c.Inbox(x)) + Pending(c.At(x.Other()), x.Other())
  }

  /** None of a node's tasks is in the middle of something. */
  predicate Rests(n: Node) {
    n.recvPc.Idle? && n.sendPc.Waiting? && n.popped.None?
  }

  /** At rest the program is the handlers, and nothing is pending. */
  lemma AtRest(n: Node, x: P.Side)
    requires Rests(n)
    ensures Abs(n) == P.Endpoint(n.recv, n.send, n.given) && Pending(n, x) == multiset{}
  {
    P.OutgoingNone(x);
  }

  // ---- a task of one node takes a step

  /** The node's handlers, seen in one piece, do not move: they only get on with their work. */
  ghost predicate GetsOn(n: Node, n': Node, sent: seq<Packet>, x: P.Side) {
    && NodeOk(n') && Abs(n') == Abs(n)
    && multiset(P.Outgoing(x, sent)) + Pending(n', x) == Pending(n, x)
  }

  /** The node's handlers, seen in one piece, become `e` and send `ps`. */
  ghost predicate Starts(n: Node, n': Node, e: P.Endpoint, ps: seq<Packet>, x: P.Side) {
    && NodeOk(n') && Abs(n') == e
    && Pending(n', x) == Pending(n, x) + multiset(P.Outgoing(x, ps))
  }

  // ---- the receive task

  lemma FinishWire(s: I.State)
    ensures I.Finish(s).0 == I.Finish(s.(wire := [])).0
    ensures I.Finish(s).1 == s.wire + I.Finish(s.(wire := [])).1
    ensures I.CountersOk(s) == I.CountersOk(s.(wire := []))
  {
  }

  lemma HandleGetsOn(n: Node, x: P.Side)
    requires NodeOk(n) && !n.recvPc.Idle?
    ensures var (n', sent) := Handled(n); GetsOn(n, n', sent, x)
  {
    hide I.CountersOk, I.Finish, I.Advanced, P.Outgoing, Unsent, Unanswered;
    var (n', sent) := Handled(n);
    HandleFinishes(n);
    P.OutgoingAppend(x, sent, I.Finish(Handler(n')).1);
  }

  lemma HandleFinishes(n: Node)
    requires I.CountersOk(Handler(n)) && !n.recvPc.Idle?
    ensures var (n', sent) := Handled(n);
      && I.CountersOk(Handler(n')) && n.recv.acked <= n'.recv.acked
      && I.Finish(Handler(n')).0 == I.Finish(Handler(n)).0
      && sent + I.Finish(Handler(n')).1 == I.Finish(Handler(n)).1
      && Unsent(n') == Unsent(n) && Unanswered(n') == Unanswered(n)
  {
    hide I.CountersOk, I.Finish, I.Advanced;
    var h := Handler(n);
    var t := I.Advanced(h);
    I.AdvanceKeepsCounters(h);
    I.AdvanceKeepsFinish(h);
    I.AdvanceLeaves(h);
    FinishWire(t);
    assert Handler(Handled(n).0) == t.(wire := []);
  }

  /** The handlers run in one piece: what a datagram does to them. */
  lemma CompareFinishes(n: Node, peer: Addr, d: Datagram)
    requires n.recvPc.Idle?
    ensures I.Finish(Handler(n.(recvPc := Compare(n.recv, peer, d)))) == OnDatagram(n.recv, peer, d)
    ensures I.Finish(Handler(n)) == (n.recv, [])
  {
    assert [] + [R.Ack(n.recv.acked)] == [R.Ack(n.recv.acked)];
  }

  lemma PendingFromHandler(n: Node, n': Node, x: P.Side)
    requires I.Finish(Handler(n)).1 == [] && Unsent(n') == Unsent(n) && Unanswered(n') == Unanswered(n)
    ensures Pending(n', x) == Pending(n, x) + multiset(P.Outgoing(x, I.Finish(Handler(n')).1))
  {
    hide I.Finish, P.Outgoing, Unsent, Unanswered;
    P.OutgoingNone(x);
  }

  lemma CompareCounters(n: Node, peer: Addr, d: Datagram)
    requires I.CountersOk(Handler(n)) && n.recvPc.Idle?
    requires d.src == peer && Parse(d.data).Some? ==> Parse(d.data).value.SeqNum() + 1 < U32_LIMIT
    ensures I.CountersOk(Handler(n.(recvPc := Compare(n.recv, peer, d))))
  {
  }

  lemma ArriveStarts(n: Node, x: P.Side, d: Datagram)
    requires NodeOk(n) && n.recvPc.Idle?
    requires d.src == x.Other().Address() && Parse(d.data).Some? ==> Parse(d.data).value.SeqNum() + 1 < U32_LIMIT
    ensures var n', (r, sent) := n.(recvPc := Compare(n.recv, x.Other().Address(), d)),
                                 OnDatagram(n.recv, x.Other().Address(), d);
      Abs(n).recv == n.recv && Starts(n, n', Abs(n).(recv := r), sent, x)
  {
    hide I.CountersOk, I.Finish, Pending, P.Outgoing, OnDatagram, Compare;
    CompareFinishes(n, x.Other().Address(), d);
    CompareCounters(n, x.Other().Address(), d);
    PendingFromHandler(n, n.(recvPc := Compare(n.recv, x.Other().Address(), d)), x);
  }

  // ---- the ack task

  /** Nothing in the receive handler looks at the queued acks. */
  lemma FinishWithAcks(s: I.State)
    requires s.recv.acks != []
    ensures var r, t := I.Finish(s).0, s.(recv := s.recv.(acks := s.recv.acks[1..]));
      && r.acks != [] && r.acks[0] == s.recv.acks[0]
      && I.Finish(t) == (r.(acks := r.acks[1..]), I.Finish(s).1)
  {
    hide R.Drain;
    var r := s.recv;
    match s.pc
    case PassPacket(p) => AcksTail(r.acks, p.SeqNum()); DrainTail(R.PassOn(r, p), Inc(p.SeqNum()));
    case CountPacket(p) =>
      AcksTail(r.acks, p.SeqNum());
      DrainTail(r.(expected := Inc(r.expected), acked := p.SeqNum(), acks := r.acks + [p.SeqNum()]), Inc(p.SeqNum()));
    case MarkPacket(p) =>
      AcksTail(r.acks, p.SeqNum());
      DrainTail(r.(acked := p.SeqNum(), acks := r.acks + [p.SeqNum()]), Inc(p.SeqNum()));
    case QueueAck(p) =>
      AcksTail(r.acks, p.SeqNum());
      DrainTail(r.(acks := r.acks + [p.SeqNum()]), Inc(p.SeqNum()));
    case TakeNext(next) => DrainTail(r, next);
    case MarkNext(next, q) =>
      DrainTail(r.(acked := Inc(r.acked), expected := Inc(r.expected), output := r.output + [q]), Inc(next));
    case CountNext(next, q) => DrainTail(r.(expected := Inc(r.expected), output := r.output + [q]), Inc(next));
    case PassNext(next, q) => DrainTail(r.(output := r.output + [q]), Inc(next));
    case EchoAck(p) => AcksTail(r.acks, p.header.ack);
    case _ =>
  }

  lemma DrainTail(r: R.Receiver, next: u32)
    requires r.acks != []
    ensures var d := R.Drain(r, next);
      d.acks == r.acks && R.Drain(r.(acks := r.acks[1..]), next) == d.(acks := d.acks[1..])
  {
    R.DrainKeepsAcks(r, next);
    R.DrainWithAcks(r, next, r.acks[1..]);
  }

  lemma AcksTail(acks: seq<u32>, k: u32)
    requires acks != []
    ensures (acks + [k])[0] == acks[0] && (acks + [k])[1..] == acks[1..] + [k]
  {
  }

  lemma PopStarts(n: Node, x: P.Side)
    requires NodeOk(n) && n.popped.None? && n.recv.acks != []
    ensures var e := Abs(n);
      e.recv.acks != [] &&
      Starts(n, Popped(n), e.(recv := e.recv.(acks := e.recv.acks[1..])), [R.Ack(e.recv.acks[0])], x)
  {
    hide I.CountersOk, I.Finish, P.Outgoing;
    var n' := Popped(n);
    FinishWithAcks(Handler(n));
    assert Handler(n') == Handler(n).(recv := n'.recv);
    CountersWithAcks(Handler(n), n'.recv.acks);
    P.OutgoingNone(x);
    assert Unsent(n') == Unsent(n);
  }

  lemma CountersWithAcks(s: I.State, acks: seq<u32>)
    requires I.CountersOk(s)
    ensures I.CountersOk(s.(recv := s.recv.(acks := acks)))
  {
  }

  lemma AnswerGetsOn(n: Node, x: P.Side)
    requires NodeOk(n) && n.popped.Some?
    ensures GetsOn(n, n.(popped := None), [R.Ack(n.popped.value)], x)
  {
    hide I.CountersOk, I.Finish, P.Outgoing;
    assert Handler(n.(popped := None)) == Handler(n);
    assert Unsent(n.(popped := None)) == Unsent(n);
    P.OutgoingNone(x);
  }

  // ---- the send task

  /** The send task's step leaves the other two tasks alone. */
  lemma SendGetsOn(n: Node, n': Node, sent: seq<Packet>, x: P.Side)
    requires NodeOk(n) && SendTaskOk(n')
    requires n'.recv == n.recv && n'.recvPc == n.recvPc && n'.popped == n.popped && n'.given == n.given
    requires n'.send.nextSeq == n.send.nextSeq
    requires Committed(n') == Committed(n) && CommittedGiven(n') == CommittedGiven(n)
    requires Unsent(n) == sent + Unsent(n')
    ensures GetsOn(n, n', sent, x)
  {
    hide I.CountersOk, I.Finish, P.Outgoing, Unsent, Committed, CommittedGiven, SendTaskOk;
    assert Handler(n') == Handler(n);
    P.OutgoingAppend(x, sent, Unsent(n'));
  }

  /** Visiting one entry of the store. */
  lemma VisitFinds(n: Node, clock: nat)
    requires n.sendPc.Visit? && SendTaskOk(n)
    ensures var n' := Proceeded(n, clock).0;
      SendTaskOk(n') && Committed(n') == Committed(n) && Unsent(n') == Unsent(n)
  {
    var u, now, order, found := n.send.unacked, n.sendPc.now, n.sendPc.order, n.sendPc.found;
    if order == [] {
      assert Unsent(n) == found;
      NoneDue(u, now);
    } else {
      var k, rest := order[0], order[1..];
      assert order == [k] + rest;
      if k in u && S.IsOverdue(u[k], now) {
        var u' := u[k := u[k].(timeSent := now)];
        StampedOnce(u, now, k);
        DueFrame(u, u', now, rest);
        assert found + ([u[k].packet] + DuePackets(u, now, rest))
            == (found + [u[k].packet]) + DuePackets(u', now, rest);
      } else {
        assert [] + DuePackets(u, now, rest) == DuePackets(u, now, rest);
      }
    }
  }

  /** An entry stamped by a scan is not found by it again. */
  lemma StampedOnce(unacked: S.Unacked, now: nat, k: u32)
    requires k in unacked && S.IsOverdue(unacked[k], now)
    ensures S.Restamp(unacked[k := unacked[k].(timeSent := now)], now) == S.Restamp(unacked, now)
  {
  }

  lemma NoneDue(unacked: S.Unacked, now: nat)
    requires forall k | k in unacked :: !S.IsOverdue(unacked[k], now)
    ensures S.Restamp(unacked, now) == unacked
  {
  }

  lemma {:induction false} DueFrame(unacked: S.Unacked, unacked': S.Unacked, now: nat, order: seq<u32>)
    requires forall k | k in order :: (k in unacked <==> k in unacked') && (k in unacked ==> unacked'[k] == unacked[k])
    ensures DuePackets(unacked', now, order) == DuePackets(unacked, now, order)
  {
    if order != [] {
      assert order[0] in order;
      DueFrame(unacked, unacked', now, order[1..]);
    }
  }

  lemma VisitGetsOn(n: Node, clock: nat, x: P.Side)
    requires NodeOk(n) && n.sendPc.Visit?
    ensures GetsOn(n, Proceeded(n, clock).0, [], x)
  {
    hide I.CountersOk, SendTaskOk, Committed, Unsent, GetsOn;
    VisitFinds(n, clock);
    assert [] + Unsent(n) == Unsent(n);
    SendGetsOn(n, Proceeded(n, clock).0, [], x);
  }

  lemma ProceedGetsOn(n: Node, clock: nat, x: P.Side)
    requires NodeOk(n) && !n.sendPc.Waiting? && !n.sendPc.Stamp?
    ensures var (n', sent) := Proceeded(n, clock); GetsOn(n, n', sent, x)
  {
    hide I.CountersOk, GetsOn;
    if n.sendPc.Visit? {
      VisitGetsOn(n, clock, x);
    } else {
      var (n', sent) := Proceeded(n, clock);
      if n.sendPc.Resend? && n.sendPc.found != [] {
        assert n.sendPc.found == [n.sendPc.found[0]] + n.sendPc.found[1..];
      }
      SendGetsOn(n, n', sent, x);
    }
  }

  /** What a scan will find is a listing of the overdue entries. */
  lemma DueLists(unacked: S.Unacked, now: nat, order: seq<u32>)
    requires S.Lists(order, unacked.Keys)
    ensures S.Lists(Due(unacked, now, order), S.Overdue(unacked, now))
  {
    forall k ensures k in Due(unacked, now, order) <==> k in S.Overdue(unacked, now) {
      DueMembers(unacked, now, order, k);
    }
    DueOnce(unacked, now, order);
  }

  lemma {:induction false} DueOnce(unacked: S.Unacked, now: nat, order: seq<u32>)
    requires forall i, j | 0 <= i < j < |order| :: order[i] != order[j]
    ensures var due := Due(unacked, now, order); forall i, j | 0 <= i < j < |due| :: due[i] != due[j]
  {
    if order != [] {
      DueOnce(unacked, now, order[1..]);
      DueMembers(unacked, now, order[1..], order[0]);
    }
  }

  lemma ScanStarts(n: Node, clock: nat, order: seq<u32>, x: P.Side)
    requires NodeOk(n) && n.sendPc.Waiting? && S.Lists(order, n.send.unacked.Keys)
    ensures var e, u := Abs(n), n.send.unacked;
      && e.send == n.send
      && Starts(n, n.(sendPc := Visit(clock, order, [])),
                e.(send := e.send.(unacked := S.Restamp(u, clock))), DuePackets(u, clock, order), x)
  {
    hide I.CountersOk, I.Finish, P.Outgoing, DuePackets, Pending;
    var n' := n.(sendPc := Visit(clock, order, []));
    assert Handler(n') == Handler(n) && Unanswered(n') == Unanswered(n);
    assert Unsent(n) == [] && Unsent(n') == [] + DuePackets(n.send.unacked, clock, order);
    assert Unsent(n') == DuePackets(n.send.unacked, clock, order);
    UnsentGrows(n, n', x);
  }

  /** The send task, with nothing left to send, commits to more. */
  lemma UnsentGrows(n: Node, n': Node, x: P.Side)
    requires Handler(n') == Handler(n) && Unanswered(n') == Unanswered(n) && Unsent(n) == []
    ensures Pending(n', x) == Pending(n, x) + multiset(P.Outgoing(x, Unsent(n')))
  {
    hide I.Finish, P.Outgoing, Unsent, Unanswered;
    P.OutgoingNone(x);
  }

  lemma StampStarts(n: Node, clock: nat, x: P.Side)
    requires NodeOk(n) && n.sendPc.Stamp?
    ensures var n', e, payload, ack := Proceeded(n, clock).0, Abs(n), n.given[|n.given| - 1], n.sendPc.p.header.ack;
      Starts(n, n', e.(send := S.OnData(e.send, payload, ack, clock), given := e.given + [payload]),
             [S.NextPacket(e.send, payload, ack)], x)
  {
    hide I.CountersOk, I.Finish, P.Outgoing, Pending;
    var n', p := Proceeded(n, clock).0, n.sendPc.p;
    assert Handler(n') == Handler(n);
    assert Unsent(n) == [] && Unsent(n') == [p] && Unanswered(n') == Unanswered(n);
    UnsentGrows(n, n', x);
    assert n.given == n.given[..|n.given| - 1] + [n.given[|n.given| - 1]];
  }

  lemma AcceptGetsOn(n: Node, payload: bytes, x: P.Side)
    requires NodeOk(n) && n.sendPc.Waiting? && |n.given| < P.MAX_MESSAGES
    ensures GetsOn(n, Accepted(n, payload), [], x)
  {
    hide I.CountersOk, I.Finish, P.Outgoing;
    assert Handler(Accepted(n, payload)) == Handler(n);
    P.OutgoingNone(x);
  }

  // ---- one node within the whole

  lemma ActsSimulates(a: P.System, c: World, x: P.Side, n': Node, sent: seq<Packet>, ps: seq<Packet>)
    requires Simulates(a, c) && NodeOk(n')
    requires multiset(P.Outgoing(x, sent)) + Pending(n', x) == Pending(c.At(x), x) + multiset(P.Outgoing(x, ps))
    ensures Simulates(P.Acts(a, x, Abs(n'), ps), Acts(c, x, n', sent))
  {
    hide NodeOk, Abs, Pending, P.Outgoing;
    var y := x.Other();
    assert InboxMatches(a, c, x) && InboxMatches(a, c, y);
    Rebalance(a.Inbox(y), c.Inbox(y), Pending(c.At(x), x), P.Outgoing(x, sent), Pending(n', x), P.Outgoing(x, ps));
  }

  lemma Rebalance(qa: seq<Datagram>, qc: seq<Datagram>, pending: multiset<Datagram>, sent: seq<Datagram>,
                  pending': multiset<Datagram>, committed: seq<Datagram>)
    requires multiset(qa) == multiset(qc) + pending
    requires multiset(sent) + pending' == pending + multiset(committed)
    ensures multiset(qa + committed) == multiset(qc + sent) + pending'
  {
    Regroup(multiset(qc), multiset(sent), pending');
    Regroup(multiset(qc), pending, multiset(committed));
  }

  lemma Regroup(a: multiset<Datagram>, b: multiset<Datagram>, c: multiset<Datagram>)
    ensures (a + b) + c == a + (b + c)
  {
  }
}

/** What acknowledgements mean and how many there are: an ack number may be echoed any number of
    times and by either side, so a single ack says little, but two laws hold on every run. */
module Acks {
  import opened Basics
  import opened Bags
  import opened Wire
  import R = Receiver
  import S = Sender
  import opened SingleConnection
  import opened Protocol

  // ---- provenance

  function Frontier(s: System): nat {
    if s.host.recv.expected > s.peer.recv.expected then s.host.recv.expected else s.peer.recv.expected
  }

  /** An ack number covered by a receive frontier `f`. */
  predicate Covered(k: u32, f: nat) {
    k == 0 || k < f
  }

  ghost predicate EndpointAcksOk(e: Endpoint, f: nat) {
    && (forall k | k in e.recv.acks :: Covered(k, f))
    // a data header, frozen at first send, reflects the sender's own frontier
    && (forall k | k in e.send.unacked :: Covered(e.send.unacked[k].packet.header.ack, e.recv.expected))
  }

  predicate DatagramAckOk(d: Datagram, from: Addr, f: nat) {
    d.src == from && Parse(d.data).Some? ==> Covered(Parse(d.data).value.header.ack, f)
  }

  ghost predicate InboxAcksOk(q: seq<Datagram>, from: Addr, f: nat) {
    forall d | d in q :: DatagramAckOk(d, from, f)
  }

  ghost predicate SideAcksOk(s: System, x: Side) {
    && EndpointAcksOk(s.At(x), Frontier(s))
    && InboxAcksOk(s.Inbox(x.Other()), x.Address(), Frontier(s))
  }

  ghost predicate AckInv(s: System) {
    SideAcksOk(s, Host) && SideAcksOk(s, Peer)
  }

  /** `x` acts: its frontier only advances and it puts on the wire only numbers that are covered. */
  lemma ActsKeepsAcks(s: System, x: Side, e: Endpoint, ps: seq<Packet>)
    requires AckInv(s) && s.At(x).recv.expected <= e.recv.expected
    requires EndpointAcksOk(e, Frontier(s.With(x, e)))
    requires forall p | p in ps :: Covered(p.header.ack, Frontier(s.With(x, e)))
    ensures AckInv(Acts(s, x, e, ps))
  {
    var t, f := Acts(s, x, e, ps), Frontier(s.With(x, e));
    var y := x.Other();
    forall d | d in t.Inbox(y) ensures DatagramAckOk(d, x.Address(), f) {
      if d in s.Inbox(y) {
        assert DatagramAckOk(d, x.Address(), Frontier(s));
      } else {
        OutgoingMembers(x, ps, d);
        var p :| p in ps && Leaves(p) && d == Datagram(x.Address(), Serialize(p));
        ParseOfSerialize(p);
      }
    }
    forall d | d in t.Inbox(x) ensures DatagramAckOk(d, y.Address(), f) {
      assert DatagramAckOk(d, y.Address(), Frontier(s));
    }
    assert SideAcksOk(t, x) && SideAcksOk(t, y);
  }

  lemma WithoutKeepsAcks(s: System, x: Side, i: nat)
    requires AckInv(s) && i < |s.Inbox(x)|
    ensures AckInv(s.WithInbox(x, Without(s.Inbox(x), i)))
  {
    var t := s.WithInbox(x, Without(s.Inbox(x), i));
    assert SideAcksOk(t, x) && SideAcksOk(t, x.Other());
  }

  /** The receive handler moves its frontier forward, queues covered numbers, and answers an early
      packet with its own acknowledged number. */
  lemma HandlerAcks(r: R.Receiver, d: Datagram, from: Addr, e: Endpoint, clock: nat, f: nat)
    requires SenderOk(e, clock) && ReceiverOk(r, e.send.unacked) && GenuineDatagram(d, from, e.send.unacked)
    requires r.expected <= f && DatagramAckOk(d, from, f)
    ensures var (r', sent) := OnDatagram(r, from, d);
      && r.expected <= r'.expected
      && (forall k | k in r'.acks :: k in r.acks || Covered(k, f) || Covered(k, r'.expected))
      && (forall p | p in sent :: p == R.Ack(r.acked) && Covered(r.acked, r.expected))
  {
    if d.src == from {
      var p := Parse(d.data).value;
      if p.SeqNum() == r.expected {
        InOrderArrivalKeeps(r, p, e, clock);
      }
    }
  }

  lemma HandleKeepsAcks(s: System, x: Side, d: Datagram)
    requires DirectionOk(s, x.Other()) && AckInv(s)
    requires GenuineDatagram(d, x.Other().Address(), s.At(x.Other()).send.unacked)
    requires DatagramAckOk(d, x.Other().Address(), Frontier(s))
    ensures var (r, sent) := OnDatagram(s.At(x).recv, x.Other().Address(), d);
      AckInv(Acts(s, x, s.At(x).(recv := r), sent))
  {
    hide OnDatagram, SenderOk, ReceiverOk, InboxOk, DatagramAckOk, Acts;
    var y, e := x.Other(), s.At(x);
    HandlerAcks(e.recv, d, y.Address(), s.At(y), s.clock, Frontier(s));
    var (r, sent) := OnDatagram(e.recv, y.Address(), d);
    assert Frontier(s) <= Frontier(s.With(x, e.(recv := r)));
    ActsKeepsAcks(s, x, e.(recv := r), sent);
  }

  lemma DeliverKeepsAcks(s: System, x: Side, i: nat)
    requires SafetyInv(s) && AckInv(s) && i < |s.Inbox(x)|
    ensures AckInv(Next(s, Deliver(x, i)))
  {
    WithoutKeeps(s, x, i);
    WithoutKeepsAcks(s, x, i);
    assert DatagramAckOk(s.Inbox(x)[i], x.Other().Address(), Frontier(s));
    HandleKeepsAcks(s.WithInbox(x, Without(s.Inbox(x), i)), x, s.Inbox(x)[i]);
  }

  lemma SubmitKeepsAcks(s: System, x: Side, payload: bytes, ackRead: u32)
    requires SafetyInv(s) && AckInv(s) && Enabled(s, Submit(x, payload, ackRead))
    ensures AckInv(Next(s, Submit(x, payload, ackRead)))
  {
    hide InboxOk, InboxAcksOk, Acts;
    var e := s.At(x);
    assert DirectionOk(s, x.Other()) && SideAcksOk(s, x);
    ActsKeepsAcks(s, x, e.(send := S.OnData(e.send, payload, ackRead, s.clock), given := e.given + [payload]),
                  [S.NextPacket(e.send, payload, ackRead)]);
  }

  lemma ScanKeepsAcks(s: System, x: Side, order: seq<u32>)
    requires AckInv(s) && Enabled(s, Scan(x, order))
    ensures AckInv(Next(s, Scan(x, order)))
  {
    hide InboxAcksOk, Acts;
    var e := s.At(x);
    assert SideAcksOk(s, x);
    forall p | p in S.PacketsAt(e.send.unacked, order) ensures Covered(p.header.ack, e.recv.expected) {
      var i :| 0 <= i < |order| && p == S.PacketsAt(e.send.unacked, order)[i];
      assert order[i] in order;
    }
    ActsKeepsAcks(s, x, e.(send := e.send.(unacked := S.Restamp(e.send.unacked, s.clock))),
                  S.PacketsAt(e.send.unacked, order));
  }

  lemma SendAckKeepsAcks(s: System, x: Side)
    requires AckInv(s) && Enabled(s, SendAck(x))
    ensures AckInv(Next(s, SendAck(x)))
  {
    hide InboxAcksOk, Acts;
    var e := s.At(x);
    assert SideAcksOk(s, x);
    ActsKeepsAcks(s, x, e.(recv := e.recv.(acks := e.recv.acks[1..])), [R.Ack(e.recv.acks[0])]);
  }

  lemma StepKeepsAcks(s: System, step: Step)
    requires SafetyInv(s) && AckInv(s) && Enabled(s, step)
    ensures AckInv(Next(s, step))
  {
    hide SafetyInv, OnDatagram, EndpointAcksOk;
    var t := Next(s, step);
    match step
    case Submit(x, payload, ackRead) => SubmitKeepsAcks(s, x, payload, ackRead);
    case Scan(x, order) => ScanKeepsAcks(s, x, order);
    case SendAck(x) => SendAckKeepsAcks(s, x);
    case Deliver(x, i) => DeliverKeepsAcks(s, x, i);
    case Lose(x, i) => WithoutKeepsAcks(s, x, i);
    case Duplicate(x, _) => assert SideAcksOk(t, x) && SideAcksOk(t, x.Other());
    case Stray(x, _) => assert SideAcksOk(t, x) && SideAcksOk(t, x.Other());
    case Elapse(_) =>
  }

  lemma {:induction false} AckProvenanceFrom(s: System, steps: seq<Step>)
    requires SafetyInv(s) && AckInv(s) && Valid(s, steps)
    ensures AckInv(Run(s, steps))
    decreases |steps|
  {
    if steps != [] {
      StepKeepsSafety(s, steps[0]);
      StepKeepsAcks(s, steps[0]);
      AckProvenanceFrom(Next(s, steps[0]), steps[1..]);
    }
  }

  /** On every run every ack number on the wire or queued is 0 or below the larger of the two
      expected_sequence counters, and those in data headers below the sender's own. */
  lemma AckProvenance(steps: seq<Step>)
    requires Valid(Init, steps)
    ensures AckInv(Run(Init, steps))
  {
    AckProvenanceFrom(Init, steps);
  }

  // ---- conservation

  predicate IsAckFrom(d: Datagram, from: Addr) {
    d.src == from && Parse(d.data).Some? && Parse(d.data).value.SeqNum() == 0
  }

  function Weight(b: bool): nat { if b then 1 else 0 }

  function CountAcks(q: seq<Datagram>, from: Addr): nat {
    if q == [] then 0 else CountAcks(q[..|q| - 1], from) + Weight(IsAckFrom(q[|q| - 1], from))
  }

  lemma CountAcksAppend(a: seq<Datagram>, b: seq<Datagram>, from: Addr)
    ensures CountAcks(a + b, from) == CountAcks(a, from) + CountAcks(b, from)
  {
    if b == [] {
      assert a + b == a;
    } else {
      assert (a + b)[..|a + b| - 1] == a + b[..|b| - 1];
      CountAcksAppend(a, b[..|b| - 1], from);
    }
  }

  lemma CountAcksWithout(q: seq<Datagram>, i: nat, from: Addr)
    requires i < |q|
    ensures CountAcks(q, from) == CountAcks(Without(q, i), from) + Weight(IsAckFrom(q[i], from))
  {
    assert q == q[..i] + [q[i]] + q[i + 1..];
    CountAcksAppend(q[..i] + [q[i]], q[i + 1..], from);
    CountAcksAppend(q[..i], [q[i]], from);
    CountAcksAppend(q[..i], q[i + 1..], from);
    assert CountAcks([q[i]], from) == Weight(IsAckFrom(q[i], from));
  }

  lemma {:induction false} NoAcksAmongData(x: Side, ps: seq<Packet>)
    requires forall p | p in ps :: p.SeqNum() > 0
    ensures CountAcks(Outgoing(x, ps), x.Address()) == 0
  {
    if ps != [] {
      var front, last := ps[..|ps| - 1], ps[|ps| - 1];
      assert last in ps;
      NoAcksAmongData(x, front);
      OneAck(x, last);
      OutgoingOne(x, last);
      CountAcksAppend(Outgoing(x, front), Outgoing(x, [last]), x.Address());
    }
  }

  lemma OneAck(x: Side, p: Packet)
    ensures CountAcks(Outgoing(x, [p]), x.Address()) == Weight(p.SeqNum() == 0 && Leaves(p))
  {
    ParseOfSerialize(p);
    OutgoingOne(x, p);
    var d := Datagram(x.Address(), Serialize(p));
    assert [d][..0] == [];
  }

  /** Acks on the way from `x`: in flight or still queued. */
  function TokensOf(s: System, x: Side): nat {
    CountAcks(s.Inbox(x.Other()), x.Address()) + |s.At(x).recv.acks|
  }

  function Tokens(s: System): nat {
    TokensOf(s, Host) + TokensOf(s, Peer)
  }

  /** A data packet that arrives in order, early, or late with an empty payload creates one ack. */
  predicate CreatesAck(r: R.Receiver, from: Addr, d: Datagram) {
    d.src == from && Parse(d.data).Some? &&
    var p := Parse(d.data).value;
    p.SeqNum() > 0 && (p.SeqNum() >= r.expected || p.IsEmpty())
  }

  function Change(s: System, step: Step): int {
    match step
    case Deliver(x, i) =>
      if i < |s.Inbox(x)| && CreatesAck(s.At(x).recv, x.Other().Address(), s.Inbox(x)[i]) then 1 else 0
    case Lose(x, i) =>
      if i < |s.Inbox(x)| && IsAckFrom(s.Inbox(x)[i], x.Other().Address()) then -1 else 0
    case Duplicate(x, i) =>
      if i < |s.Inbox(x)| && IsAckFrom(s.Inbox(x)[i], x.Other().Address()) then 1 else 0
    case _ => 0
  }

  ghost function TotalChange(s: System, steps: seq<Step>): int
    requires Valid(s, steps)
    decreases |steps|
  {
    if steps == [] then 0 else Change(s, steps[0]) + TotalChange(Next(s, steps[0]), steps[1..])
  }

  lemma ActsTokens(s: System, x: Side, e: Endpoint, ps: seq<Packet>)
    ensures Tokens(Acts(s, x, e, ps)) ==
      Tokens(s) + CountAcks(Outgoing(x, ps), x.Address()) + |e.recv.acks| - |s.At(x).recv.acks|
  {
    CountAcksAppend(s.Inbox(x.Other()), Outgoing(x, ps), x.Address());
  }

  lemma HandlerTokens(r: R.Receiver, d: Datagram, x: Side, e: Endpoint, clock: nat)
    requires SenderOk(e, clock) && ReceiverOk(r, e.send.unacked)
    requires GenuineDatagram(d, x.Other().Address(), e.send.unacked)
    ensures var from := x.Other().Address();
      var (r', sent) := OnDatagram(r, from, d);
      CountAcks(Outgoing(x, sent), x.Address()) + |r'.acks|
        == |r.acks| + Weight(IsAckFrom(d, from)) + Weight(CreatesAck(r, from, d))
  {
    hide SenderOk, ReceiverOk, R.OnPacket;
    assert Outgoing(x, []) == [];
    if d.src == x.Other().Address() {
      R.PacketAcks(r, Parse(d.data).value);
      OneAck(x, R.Ack(r.acked));
    }
  }

  lemma DeliverTokens(s: System, x: Side, i: nat)
    requires SafetyInv(s) && i < |s.Inbox(x)|
    ensures Tokens(Next(s, Deliver(x, i))) == Tokens(s) + Change(s, Deliver(x, i))
  {
    hide OnDatagram, IsAckFrom, CreatesAck, Leaves;
    var y, e, d := x.Other(), s.At(x), s.Inbox(x)[i];
    assert DirectionOk(s, y);
    HandlerTokens(e.recv, d, x, s.At(y), s.clock);
    CountAcksWithout(s.Inbox(x), i, y.Address());
    var (r, sent) := OnDatagram(e.recv, y.Address(), d);
    var s1 := s.WithInbox(x, Without(s.Inbox(x), i));
    assert Tokens(s1) == Tokens(s) - Weight(IsAckFrom(d, y.Address()));
    ActsTokens(s1, x, e.(recv := r), sent);
  }

  lemma TaskTokens(s: System, step: Step)
    requires step.Submit? || step.Scan? || step.SendAck?
    requires SafetyInv(s) && Enabled(s, step)
    ensures Tokens(Next(s, step)) == Tokens(s)
  {
    var x := step.side;
    var e := s.At(x);
    assert DirectionOk(s, x);
    match step
    case Submit(_, payload, ackRead) =>
      OneAck(x, S.NextPacket(e.send, payload, ackRead));
      ActsTokens(s, x, e.(send := S.OnData(e.send, payload, ackRead, s.clock), given := e.given + [payload]),
                 [S.NextPacket(e.send, payload, ackRead)]);
    case Scan(_, order) =>
      forall p | p in S.PacketsAt(e.send.unacked, order) ensures p.SeqNum() > 0 {
        var i :| 0 <= i < |order| && p == S.PacketsAt(e.send.unacked, order)[i];
        assert order[i] in order;
        assert StoredOk(e.send.unacked[order[i]], order[i], e.given[order[i] - 1], s.clock);
      }
      NoAcksAmongData(x, S.PacketsAt(e.send.unacked, order));
      ActsTokens(s, x, e.(send := e.send.(unacked := S.Restamp(e.send.unacked, s.clock))),
                 S.PacketsAt(e.send.unacked, order));
    case SendAck(_) =>
      OneAck(x, R.Ack(e.recv.acks[0]));
      ActsTokens(s, x, e.(recv := e.recv.(acks := e.recv.acks[1..])), [R.Ack(e.recv.acks[0])]);
  }

  lemma StepTokens(s: System, step: Step)
    requires SafetyInv(s) && Enabled(s, step)
    ensures Tokens(Next(s, step)) == Tokens(s) + Change(s, step)
  {
    match step
    case Submit(_, _, _) => TaskTokens(s, step);
    case Scan(_, _) => TaskTokens(s, step);
    case SendAck(_) => TaskTokens(s, step);
    case Deliver(x, i) => DeliverTokens(s, x, i);
    case Lose(x, i) => CountAcksWithout(s.Inbox(x), i, x.Other().Address());
    case Duplicate(x, i) =>
      CountAcksAppend(s.Inbox(x), [s.Inbox(x)[i]], x.Other().Address());
      assert [s.Inbox(x)[i]][..0] == [];
    case Stray(x, d) =>
      CountAcksAppend(s.Inbox(x), [d], x.Other().Address());
      assert [d][..0] == [];
    case Elapse(_) =>
  }

  lemma {:induction false} ConservationFrom(s: System, steps: seq<Step>)
    requires SafetyInv(s) && Valid(s, steps)
    ensures Tokens(Run(s, steps)) == Tokens(s) + TotalChange(s, steps)
    decreases |steps|
  {
    if steps != [] {
      StepKeepsSafety(s, steps[0]);
      StepTokens(s, steps[0]);
      ConservationFrom(Next(s, steps[0]), steps[1..]);
    }
  }

  /** On every run the acks in flight or queued number exactly the data arrivals that created one,
      plus the acks the network duplicated, less those it lost: an ack arrival consumes one and
      produces one, and draining the buffer adds none. */
  lemma AckConservation(steps: seq<Step>)
    requires Valid(Init, steps)
    ensures Tokens(Run(Init, steps)) == TotalChange(Init, steps)
  {
    ConservationFrom(Init, steps);
  }
}

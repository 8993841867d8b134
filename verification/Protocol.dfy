/** Two endpoints joined by a network that may lose, duplicate, reorder and inject datagrams. Every
    step of a task is one step of the system; a schedule is a sequence of labelled steps. A data
    header may carry any value the send task can have read while the receive handler runs, that is
    any number up to the current receiver_acknowledged. */
module Protocol {
  import opened Basics
  import opened Bags
  import opened Wire
  import R = Receiver
  import S = Sender
  import opened SingleConnection

  // The longest payload of a UDP datagram over IPv4.
  const MAX_DATAGRAM: nat := 65507

  // One more data packet would make the u32 counters wrap.
  const MAX_MESSAGES: nat := U32_LIMIT - 2

  datatype Side = Host | Peer {
    function Other(): Side { if Host? then Peer else Host }
    function Address(): Addr { if Host? then 0 else 1 }
  }

  datatype Endpoint = Endpoint(
    recv: R.Receiver,
    send: S.Sender,
    given: seq<bytes>)      // every payload the application has handed over

  datatype System = System(clock: nat, host: Endpoint, peer: Endpoint,
                           toHost: seq<Datagram>, toPeer: seq<Datagram>)
  {
    function At(x: Side): Endpoint { if x.Host? then host else peer }

    /** The datagrams in flight towards `x`, in no particular order. */
    function Inbox(x: Side): seq<Datagram> { if x.Host? then toHost else toPeer }

    function With(x: Side, e: Endpoint): System {
      if x.Host? then this.(host := e) else this.(peer := e)
    }

    function WithInbox(x: Side, q: seq<Datagram>): System {
      if x.Host? then this.(toHost := q) else this.(toPeer := q)
    }
  }

  const Init := System(0, Endpoint(R.Fresh, S.Fresh, []), Endpoint(R.Fresh, S.Fresh, []), [], [])

  datatype Step =
    | Submit(side: Side, payload: bytes, ackRead: u32)  // send task: a message from the application
    | Scan(side: Side, order: seq<u32>)                 // send task: check_retransmission
    | SendAck(side: Side)                               // ack task: one queued number
    | Deliver(side: Side, i: nat)                       // receive task of `side`
    | Lose(side: Side, i: nat)
    | Duplicate(side: Side, i: nat)
    | Stray(side: Side, d: Datagram)                    // a datagram from somebody else
    | Elapse(dt: nat)

  /** What send_to can put on the network; for a longer datagram it fails, and nobody looks. */
  predicate Leaves(p: Packet) { |Serialize(p)| <= MAX_DATAGRAM }

  function Outgoing(x: Side, ps: seq<Packet>): seq<Datagram> {
    if ps == [] then []
    else
      var p := ps[|ps| - 1];
      Outgoing(x, ps[..|ps| - 1]) + if Leaves(p) then [Datagram(x.Address(), Serialize(p))] else []
  }

  lemma OutgoingOne(x: Side, p: Packet)
    ensures Outgoing(x, [p]) == if Leaves(p) then [Datagram(x.Address(), Serialize(p))] else []
  {
    assert [p][..0] == [];
  }

  lemma OutgoingNone(x: Side)
    ensures Outgoing(x, []) == []
  {
  }

  lemma OutgoingAppend(x: Side, a: seq<Packet>, b: seq<Packet>)
    ensures Outgoing(x, a + b) == Outgoing(x, a) + Outgoing(x, b)
  {
    if b == [] {
      assert a + b == a;
    } else {
      assert (a + b)[..|a + b| - 1] == a + b[..|b| - 1];
      OutgoingAppend(x, a, b[..|b| - 1]);
    }
  }

  /** Exactly the packets that leave are sent. */
  lemma {:induction false} OutgoingMembers(x: Side, ps: seq<Packet>, d: Datagram)
    ensures d in Outgoing(x, ps) <==> exists p :: p in ps && Leaves(p) && d == Datagram(x.Address(), Serialize(p))
  {
    if ps != [] {
      var front, last := ps[..|ps| - 1], ps[|ps| - 1];
      assert ps == front + [last];
      OutgoingMembers(x, front, d);
    }
  }

  ghost predicate Enabled(s: System, step: Step) {
    match step
    case Submit(x, _, ackRead) => |s.At(x).given| < MAX_MESSAGES && ackRead <= s.At(x).recv.acked
    case Scan(x, order) => S.Lists(order, S.Overdue(s.At(x).send.unacked, s.clock))
    case SendAck(x) => s.At(x).recv.acks != []
    case Deliver(x, i) => i < |s.Inbox(x)|
    case Lose(x, i) => i < |s.Inbox(x)|
    case Duplicate(x, i) => i < |s.Inbox(x)|
    case Stray(x, d) => d.src != x.Other().Address()
    case Elapse(_) => true
  }

  /** `x` becomes `e` and puts `ps` on the wire. */
  function Acts(s: System, x: Side, e: Endpoint, ps: seq<Packet>): System {
    s.With(x, e).WithInbox(x.Other(), s.Inbox(x.Other()) + Outgoing(x, ps))
  }

  ghost function Next(s: System, step: Step): System
    requires Enabled(s, step)
  {
    match step
    case Submit(x, payload, ackRead) =>
      var e := s.At(x);
      Acts(s, x, e.(send := S.OnData(e.send, payload, ackRead, s.clock), given := e.given + [payload]),
           [S.NextPacket(e.send, payload, ackRead)])
    case Scan(x, order) =>
      var e := s.At(x);
      Acts(s, x, e.(send := e.send.(unacked := S.Restamp(e.send.unacked, s.clock))),
           S.PacketsAt(e.send.unacked, order))
    case SendAck(x) =>
      var e := s.At(x);
      Acts(s, x, e.(recv := e.recv.(acks := e.recv.acks[1..])), [R.Ack(e.recv.acks[0])])
    case Deliver(x, i) =>
      var e := s.At(x);
      var (r, sent) := OnDatagram(e.recv, x.Other().Address(), s.Inbox(x)[i]);
      Acts(s.WithInbox(x, Without(s.Inbox(x), i)), x, e.(recv := r), sent)
    case Lose(x, i) => s.WithInbox(x, Without(s.Inbox(x), i))
    case Duplicate(x, i) => s.WithInbox(x, s.Inbox(x) + [s.Inbox(x)[i]])
    case Stray(x, d) => s.WithInbox(x, s.Inbox(x) + [d])
    case Elapse(dt) => s.(clock := s.clock + dt)
  }

  ghost predicate Valid(s: System, steps: seq<Step>)
    decreases |steps|
  {
    steps == [] || (Enabled(s, steps[0]) && Valid(Next(s, steps[0]), steps[1..]))
  }

  ghost function Run(s: System, steps: seq<Step>): System
    requires Valid(s, steps)
    decreases |steps|
  {
    if steps == [] then s else Run(Next(s, steps[0]), steps[1..])
  }

  lemma {:induction false} RunAppend(s: System, a: seq<Step>, b: seq<Step>)
    requires Valid(s, a) && Valid(Run(s, a), b)
    ensures Valid(s, a + b) && Run(s, a + b) == Run(Run(s, a), b)
    decreases |a|
  {
    if a == [] {
      assert a + b == b;
    } else {
      assert (a + b)[1..] == a[1..] + b;
      RunAppend(Next(s, a[0]), a[1..], b);
    }
  }

  // ---- what holds of the traffic from an endpoint `e` to a receiver `r`

  /** `unacked` holds exactly the numbers 1..n, each with the message it was given. */
  ghost predicate SenderOk(e: Endpoint, clock: nat) {
    && e.send.nextSeq == |e.given| <= MAX_MESSAGES
    && (forall k :: k in e.send.unacked <==> 1 <= k <= |e.given|)
    && (forall k | k in e.send.unacked :: StoredOk(e.send.unacked[k], k, e.given[k - 1], clock))
  }

  predicate StoredOk(p: S.SentPacket, k: u32, payload: bytes, clock: nat) {
    p.packet.SeqNum() == k && p.packet.payload == Some(payload) && p.timeSent <= clock
  }

  /** A packet that an endpoint with this store can have put on the wire. */
  ghost predicate Genuine(p: Packet, sent: S.Unacked) {
    if p.SeqNum() == 0 then p.payload.None?
    else Sendable(sent, p.SeqNum()) && p == Received(sent[p.SeqNum()].packet)
  }

  predicate Sendable(sent: S.Unacked, k: u32) {
    k in sent && Leaves(sent[k].packet)
  }

  ghost predicate GenuineDatagram(d: Datagram, from: Addr, sent: S.Unacked) {
    d.src == from ==> Parse(d.data).Some? && Genuine(Parse(d.data).value, sent)
  }

  ghost predicate InboxOk(q: seq<Datagram>, from: Addr, sent: S.Unacked) {
    forall d | d in q :: GenuineDatagram(d, from, sent)
  }

  ghost predicate ReceiverOk(r: R.Receiver, sent: S.Unacked) {
    && |r.output| == r.expected
    && r.acked == (if r.expected == 0 then 0 else r.expected - 1)
    && (r.expected > 0 ==> r.output[0].SeqNum() == 0 && r.output[0].payload.None?)
    && (forall k: u32 | 1 <= k < r.expected :: Sendable(sent, k) && r.output[k] == Received(sent[k].packet))
    && (forall k | k in r.buffer :: r.expected < k && Sendable(sent, k) && r.buffer[k] == Received(sent[k].packet))
  }

  ghost predicate DirectionOk(s: System, x: Side) {
    && SenderOk(s.At(x), s.clock)
    && InboxOk(s.Inbox(x.Other()), x.Address(), s.At(x).send.unacked)
    && ReceiverOk(s.At(x.Other()).recv, s.At(x).send.unacked)
  }

  ghost predicate SafetyInv(s: System) {
    DirectionOk(s, Host) && DirectionOk(s, Peer)
  }

  // ---- the store only grows, so everything said about it stays true

  ghost predicate Grows(sent: S.Unacked, sent': S.Unacked) {
    forall k | k in sent :: k in sent' && sent'[k].packet == sent[k].packet
  }

  lemma GrowthKeeps(q: seq<Datagram>, from: Addr, r: R.Receiver, sent: S.Unacked, sent': S.Unacked)
    requires Grows(sent, sent') && InboxOk(q, from, sent) && ReceiverOk(r, sent)
    ensures InboxOk(q, from, sent') && ReceiverOk(r, sent')
  {
    forall d | d in q ensures GenuineDatagram(d, from, sent') {
      assert GenuineDatagram(d, from, sent);
    }
    forall k: u32 | Sendable(sent, k) ensures Sendable(sent', k) {
    }
  }

  lemma OutgoingGenuine(q: seq<Datagram>, x: Side, ps: seq<Packet>, sent: S.Unacked)
    requires InboxOk(q, x.Address(), sent)
    requires forall p | p in ps && Leaves(p) :: Genuine(Received(p), sent)
    ensures InboxOk(q + Outgoing(x, ps), x.Address(), sent)
  {
    forall d | d in q + Outgoing(x, ps) ensures GenuineDatagram(d, x.Address(), sent) {
      if d !in q {
        OutgoingMembers(x, ps, d);
        var p :| p in ps && Leaves(p) && d == Datagram(x.Address(), Serialize(p));
        ParseOfSerialize(p);
      }
    }
  }

  // ---- one packet arrives

  lemma DrainedReceiverOk(r: R.Receiver, sent: S.Unacked, d: R.Receiver)
    requires r.expected > 0 && |r.output| == r.expected && r.acked == r.expected - 1
    requires r.output[0].SeqNum() == 0 && r.output[0].payload.None?
    requires forall k: u32 | 1 <= k < r.expected :: Sendable(sent, k) && r.output[k] == Received(sent[k].packet)
    requires forall k | k in r.buffer ::
      r.expected <= k && Sendable(sent, k) && r.buffer[k] == Received(sent[k].packet)
    requires R.Drained(r, d)
    ensures ReceiverOk(d, sent)
  {
    assert d.output[0] == r.output[0];
    forall k: u32 | 1 <= k < d.expected ensures Sendable(sent, k) && d.output[k] == Received(sent[k].packet) {
      if k < r.expected {
        assert d.output[k] == r.output[k];
      } else {
        assert k in r.buffer;
      }
    }
  }

  lemma InOrderArrivalKeeps(r: R.Receiver, p: Packet, e: Endpoint, clock: nat)
    requires SenderOk(e, clock) && ReceiverOk(r, e.send.unacked) && Genuine(p, e.send.unacked)
    requires p.SeqNum() == r.expected
    ensures ReceiverOk(R.OnPacket(r, p).0, e.send.unacked)
    ensures R.Drained(R.PassOn(r, p), R.OnPacket(r, p).0)
  {
    hide Leaves, Received, R.Drained, R.Drain;
    var passed := R.PassOn(r, p);
    R.DrainClosedForm(passed, |e.given| + 1);
    DrainedReceiverOk(passed, e.send.unacked, R.OnPacket(r, p).0);
  }

  lemma ArrivalKeepsReceiver(r: R.Receiver, p: Packet, e: Endpoint, clock: nat)
    requires SenderOk(e, clock) && ReceiverOk(r, e.send.unacked) && Genuine(p, e.send.unacked)
    ensures ReceiverOk(R.OnPacket(r, p).0, e.send.unacked)
  {
    if p.SeqNum() == r.expected {
      InOrderArrivalKeeps(r, p, e, clock);
    }
  }

  // ---- every step keeps the invariant

  lemma ActsKeeps(s: System, x: Side, e: Endpoint, ps: seq<Packet>)
    requires SafetyInv(s)
    requires SenderOk(e, s.clock) && Grows(s.At(x).send.unacked, e.send.unacked)
    requires ReceiverOk(e.recv, s.At(x.Other()).send.unacked)
    requires forall p | p in ps && Leaves(p) :: Genuine(Received(p), e.send.unacked)
    ensures SafetyInv(Acts(s, x, e, ps))
  {
    var y := x.Other();
    GrowthKeeps(s.Inbox(y), x.Address(), s.At(y).recv, s.At(x).send.unacked, e.send.unacked);
    OutgoingGenuine(s.Inbox(y), x, ps, e.send.unacked);
    assert DirectionOk(Acts(s, x, e, ps), x) && DirectionOk(Acts(s, x, e, ps), y);
  }

  lemma SubmitKeepsSender(e: Endpoint, payload: bytes, ackRead: u32, clock: nat)
    requires SenderOk(e, clock) && |e.given| < MAX_MESSAGES
    ensures var e' := e.(send := S.OnData(e.send, payload, ackRead, clock), given := e.given + [payload]);
      SenderOk(e', clock) && Grows(e.send.unacked, e'.send.unacked)
  {
  }

  lemma ScannedGenuine(e: Endpoint, clock: nat, order: seq<u32>)
    requires SenderOk(e, clock) && S.Lists(order, S.Overdue(e.send.unacked, clock))
    ensures forall p | p in S.PacketsAt(e.send.unacked, order) && Leaves(p) ::
      Genuine(Received(p), S.Restamp(e.send.unacked, clock))
  {
    var ps := S.PacketsAt(e.send.unacked, order);
    forall p | p in ps && Leaves(p) ensures Genuine(Received(p), S.Restamp(e.send.unacked, clock)) {
      var i :| 0 <= i < |ps| && p == ps[i];
      assert order[i] in order;
    }
  }

  lemma RestampKeepsSender(e: Endpoint, clock: nat)
    requires SenderOk(e, clock)
    ensures SenderOk(e.(send := e.send.(unacked := S.Restamp(e.send.unacked, clock))), clock)
    ensures Grows(e.send.unacked, S.Restamp(e.send.unacked, clock))
  {
  }

  lemma WithoutKeeps(s: System, x: Side, i: nat)
    requires SafetyInv(s) && i < |s.Inbox(x)|
    ensures SafetyInv(s.WithInbox(x, Without(s.Inbox(x), i)))
  {
    var t := s.WithInbox(x, Without(s.Inbox(x), i));
    assert DirectionOk(t, x) && DirectionOk(t, x.Other());
  }

  lemma DatagramKeepsReceiver(r: R.Receiver, d: Datagram, e: Endpoint, from: Addr, clock: nat)
    requires SenderOk(e, clock) && ReceiverOk(r, e.send.unacked) && GenuineDatagram(d, from, e.send.unacked)
    ensures ReceiverOk(OnDatagram(r, from, d).0, e.send.unacked)
    ensures forall p | p in OnDatagram(r, from, d).1 :: p.SeqNum() == 0 && p.payload.None?
  {
    hide SenderOk, ReceiverOk, Genuine;
    if d.src == from {
      ArrivalKeepsReceiver(r, Parse(d.data).value, e, clock);
    }
  }

  lemma HandleKeeps(s: System, x: Side, d: Datagram)
    requires SafetyInv(s) && GenuineDatagram(d, x.Other().Address(), s.At(x.Other()).send.unacked)
    ensures var (r, sent) := OnDatagram(s.At(x).recv, x.Other().Address(), d);
      SafetyInv(Acts(s, x, s.At(x).(recv := r), sent))
  {
    var (r, sent) := OnDatagram(s.At(x).recv, x.Other().Address(), d);
    DatagramKeepsReceiver(s.At(x).recv, d, s.At(x.Other()), x.Other().Address(), s.clock);
    ActsKeeps(s, x, s.At(x).(recv := r), sent);
  }

  lemma DeliverKeeps(s: System, x: Side, i: nat)
    requires SafetyInv(s) && i < |s.Inbox(x)|
    ensures SafetyInv(Next(s, Deliver(x, i)))
  {
    WithoutKeeps(s, x, i);
    HandleKeeps(s.WithInbox(x, Without(s.Inbox(x), i)), x, s.Inbox(x)[i]);
  }

  lemma SubmitKeeps(s: System, x: Side, payload: bytes, ackRead: u32)
    requires SafetyInv(s) && Enabled(s, Submit(x, payload, ackRead))
    ensures SafetyInv(Next(s, Submit(x, payload, ackRead)))
  {
    var e := s.At(x);
    SubmitKeepsSender(e, payload, ackRead, s.clock);
    ActsKeeps(s, x, e.(send := S.OnData(e.send, payload, ackRead, s.clock), given := e.given + [payload]),
              [S.NextPacket(e.send, payload, ackRead)]);
  }

  lemma ScanKeeps(s: System, x: Side, order: seq<u32>)
    requires SafetyInv(s) && Enabled(s, Scan(x, order))
    ensures SafetyInv(Next(s, Scan(x, order)))
  {
    var e := s.At(x);
    ScannedGenuine(e, s.clock, order);
    RestampKeepsSender(e, s.clock);
    ActsKeeps(s, x, e.(send := e.send.(unacked := S.Restamp(e.send.unacked, s.clock))),
              S.PacketsAt(e.send.unacked, order));
  }

  lemma SendAckKeeps(s: System, x: Side)
    requires SafetyInv(s) && Enabled(s, SendAck(x))
    ensures SafetyInv(Next(s, SendAck(x)))
  {
    var e := s.At(x);
    ActsKeeps(s, x, e.(recv := e.recv.(acks := e.recv.acks[1..])), [R.Ack(e.recv.acks[0])]);
  }

  lemma NetworkKeeps(s: System, step: Step)
    requires step.Duplicate? || step.Stray?
    requires SafetyInv(s) && Enabled(s, step)
    ensures SafetyInv(Next(s, step))
  {
    var x, y := step.side, step.side.Other();
    assert DirectionOk(Next(s, step), x) && DirectionOk(Next(s, step), y);
  }

  lemma StepKeepsSafety(s: System, step: Step)
    requires SafetyInv(s) && Enabled(s, step)
    ensures SafetyInv(Next(s, step))
  {
    match step
    case Submit(x, payload, ackRead) => SubmitKeeps(s, x, payload, ackRead);
    case Scan(x, order) => ScanKeeps(s, x, order);
    case SendAck(x) => SendAckKeeps(s, x);
    case Deliver(x, i) => DeliverKeeps(s, x, i);
    case Lose(x, i) => WithoutKeeps(s, x, i);
    case Duplicate(_, _) => NetworkKeeps(s, step);
    case Stray(_, _) => NetworkKeeps(s, step);
    case Elapse(_) =>
  }

  lemma {:induction false} RunKeepsSafety(s: System, steps: seq<Step>)
    requires SafetyInv(s) && Valid(s, steps)
    ensures SafetyInv(Run(s, steps))
    decreases |steps|
  {
    if steps != [] {
      StepKeepsSafety(s, steps[0]);
      RunKeepsSafety(Next(s, steps[0]), steps[1..]);
    }
  }

  // ---- end-to-end prefix safety

  /** What the application at the far end can see of the messages `given`: the non-empty ones. */
  function Messages(given: seq<bytes>): seq<bytes> {
    if given == [] then []
    else
      var d := Delivered(given[|given| - 1]);
      Messages(given[..|given| - 1]) + (if d.Some? then [d.value] else [])
  }

  lemma {:induction false} MessagesPrefix(given: seq<bytes>, n: nat)
    requires n <= |given|
    ensures Messages(given[..n]) <= Messages(given)
  {
    if n == |given| {
      assert given[..n] == given;
    } else {
      assert given[..|given| - 1][..n] == given[..n];
      MessagesPrefix(given[..|given| - 1], n);
    }
  }

  lemma {:induction false} PayloadsAreMessages(output: seq<Packet>, given: seq<bytes>, n: nat)
    requires 1 <= n <= |output| && |output| - 1 <= |given|
    requires output[0].payload.None?
    requires forall k | 1 <= k < |output| :: output[k].payload == Delivered(given[k - 1])
    ensures R.Payloads(output[..n]) == Messages(given[..n - 1])
  {
    var last := output[..n];
    assert last[..n - 1] == output[..n - 1];
    if n == 1 {
      assert R.Payloads(last) == [];
    } else {
      assert given[..n - 1][..n - 2] == given[..n - 2];
      PayloadsAreMessages(output, given, n - 1);
    }
  }

  /** The output is one payload-less packet numbered 0 followed by the packets 1, 2, 3, ... each
      once, whose payloads are those first given, and the messages the application sees are a
      prefix of the non-empty messages given. */
  ghost predicate IsPrefixOf(output: seq<Packet>, given: seq<bytes>) {
    InStep(output, given) && R.Payloads(output) <= Messages(given)
  }

  ghost predicate InStep(output: seq<Packet>, given: seq<bytes>) {
    && |output| <= |given| + 1
    && (output != [] ==> output[0].payload.None?)
    && (forall k | 0 <= k < |output| :: output[k].SeqNum() == k)
    && (forall k | 1 <= k < |output| :: output[k].payload == Delivered(given[k - 1]))
  }

  lemma OutputFollowsGiven(e: Endpoint, r: R.Receiver, clock: nat, k: u32)
    requires SenderOk(e, clock) && ReceiverOk(r, e.send.unacked) && 1 <= k < r.expected
    ensures k <= |e.given|
    ensures r.output[k].SeqNum() == k && r.output[k].payload == Delivered(e.given[k - 1])
  {
    assert k in e.send.unacked;
    assert StoredOk(e.send.unacked[k], k, e.given[k - 1], clock);
  }

  lemma OutputInStep(e: Endpoint, r: R.Receiver, clock: nat)
    requires SenderOk(e, clock) && ReceiverOk(r, e.send.unacked)
    ensures InStep(r.output, e.given)
  {
    if r.expected > 1 {
      OutputFollowsGiven(e, r, clock, r.expected - 1);
    }
    forall k: int | 1 <= k < |r.output|
      ensures r.output[k].SeqNum() == k && r.output[k].payload == Delivered(e.given[k - 1])
    {
      OutputFollowsGiven(e, r, clock, k);
    }
  }

  lemma InStepIsPrefix(output: seq<Packet>, given: seq<bytes>)
    requires InStep(output, given)
    ensures IsPrefixOf(output, given)
  {
    if output != [] {
      PayloadsAreMessages(output, given, |output|);
      assert output[..|output|] == output;
      MessagesPrefix(given, |output| - 1);
    }
  }

  /** In every reachable state each endpoint's output is a prefix of what the peer was given. */
  lemma PrefixSafety(steps: seq<Step>, y: Side)
    requires Valid(Init, steps)
    ensures IsPrefixOf(Run(Init, steps).At(y).recv.output, Run(Init, steps).At(y.Other()).given)
  {
    RunKeepsSafety(Init, steps);
    var s := Run(Init, steps);
    assert DirectionOk(s, y.Other());
    OutputInStep(s.At(y.Other()), s.At(y).recv, s.clock);
    InStepIsPrefix(s.At(y).recv.output, s.At(y.Other()).given);
  }
}

/** Where acknowledged numbers come from, between any two statements of any tasks. In the middle of its
    drain loop a receive task has counted a packet in receiver_acknowledged and not yet in
    expected_sequence, so the bound has to count that packet too. */
module StatementAcks {
  import opened Basics
  import opened Bags
  import opened Wire
  import opened SingleConnection
  import R = Receiver
  import S = Sender
  import P = Protocol
  import I = Interleaving
  import opened Acks
  import opened Statements
  import opened Simulation
  import opened Refinement

  /** expected_sequence, or what it is about to become for a packet already acknowledged. */
  function Reach(n: Node): nat {
    n.recv.expected + if n.recvPc.CountNext? then 1 else 0
  }

  function Furthest(c: World): nat {
    if Reach(c.host) > Reach(c.peer) then Reach(c.host) else Reach(c.peer)
  }

  /** The packets the send task has in hand. */
  function InHand(pc: SendPc): seq<Packet> {
    match pc
    case Stamp(p) => [p]
    case Insert(p, _) => [p]
    case Transmit(p) => [p]
    case Visit(_, _, found) => found
    case Resend(found) => found
    case _ => []
  }

  /** What the ack and the receive task pass on is covered by `f`. */
  predicate PassesOn(n: Node, f: nat) {
    && (forall k | k in n.recv.acks :: Covered(k, f))
    && (n.popped.Some? ==> Covered(n.popped.value, f))
    && (n.recvPc.EchoAck? ==> Covered(n.recvPc.p.header.ack, f))
  }

  /** What is in the headers of `n`'s own data is covered by its own reach. */
  predicate HeadersOk(n: Node) {
    && (forall k | k in n.send.unacked :: Covered(n.send.unacked[k].packet.header.ack, Reach(n)))
    && (forall p | p in InHand(n.sendPc) :: Covered(p.header.ack, Reach(n)))
  }

  ghost predicate SideOk(c: World, x: P.Side) {
    && PassesOn(c.At(x), Furthest(c)) && HeadersOk(c.At(x))
    && InboxAcksOk(c.Inbox(x.Other()), x.Address(), Furthest(c))
  }

  ghost predicate AcksCovered(c: World) {
    SideOk(c, P.Host) && SideOk(c, P.Peer)
  }

  // ---- one node

  /** And it puts exactly the number it reads into the header of the message it has in hand. */
  lemma HeaderCarriesReading(c: World, x: P.Side)
    requires c.At(x).sendPc.LoadAck?
    ensures Enabled(c, Proceed(x))
    ensures var n, pc := c.At(x), Next(c, Proceed(x)).At(x).sendPc;
      pc.Stamp? && pc.p == Packet(Header(n.send.nextSeq, n.recv.acked), Some(n.sendPc.payload))
  {
    hide P.Outgoing;
  }

  lemma OneCovered(k: u32, f: nat)
    requires Covered(k, f)
    ensures forall g: nat, p | f <= g && p in [R.Ack(k)] :: Covered(p.header.ack, g)
  {
  }

  /** The send task reads receiver_acknowledged at any moment. */
  lemma AckedWithinReach(n: Node)
    requires I.CountersOk(Handler(n))
    ensures Covered(n.recv.acked, Reach(n))
  {
  }

  /** What `n` becomes and sends is covered by its reach and what was covered before. */
  ghost predicate Covers(n: Node, n': Node, sent: seq<Packet>, f: nat) {
    && Reach(n) <= Reach(n') && HeadersOk(n')
    && (forall g: nat | f <= g && Reach(n') <= g ::
          PassesOn(n', g) && (forall p | p in sent :: Covered(p.header.ack, g)))
  }

  lemma HeadersFurther(n: Node, n': Node)
    requires HeadersOk(n) && n'.send == n.send && n'.sendPc == n.sendPc && Reach(n) <= Reach(n')
    ensures HeadersOk(n')
  {
  }

  lemma HandleReaches(n: Node)
    requires I.CountersOk(Handler(n)) && !n.recvPc.Idle?
    ensures var n' := Handled(n).0;
      && Reach(n) <= Reach(n') && n'.send == n.send && n'.sendPc == n.sendPc && n'.popped == n.popped
      && (n'.recvPc.EchoAck? ==> n.recvPc == n'.recvPc)
      && (n.recvPc.QueueAck? ==> Covered(n.recvPc.p.SeqNum(), Reach(n')))
  {
  }

  /** What the receive task's next statement queues and sends. */
  lemma HandleQueues(n: Node)
    requires !n.recvPc.Idle?
    ensures var (n', sent) := Handled(n);
      && n'.recv.acks == n.recv.acks + (if n.recvPc.QueueAck? then [n.recvPc.p.SeqNum()]
                                        else if n.recvPc.EchoAck? then [n.recvPc.p.header.ack] else [])
      && sent == if n.recvPc.AnswerEarly? then [R.Ack(n.recv.acked)] else []
  {
    assert n.recv.acks + [] == n.recv.acks;
    if n.recvPc.AnswerEarly? {
      assert [] + [R.Ack(n.recv.acked)] == [R.Ack(n.recv.acked)];
    } else {
    }
  }

  lemma HandleCovers(n: Node, f: nat)
    requires I.CountersOk(Handler(n)) && !n.recvPc.Idle? && PassesOn(n, f) && HeadersOk(n)
    ensures var (n', sent) := Handled(n); Covers(n, n', sent, f)
  {
    hide I.CountersOk, Handled, HeadersOk, Reach;
    HandleReaches(n);
    HandleQueues(n);
    HeadersFurther(n, Handled(n).0);
    AckedWithinReach(n);
    OneCovered(n.recv.acked, Reach(n));
  }

  lemma CommitCovers(n: Node, clock: nat, f: nat)
    requires n.sendPc.LoadAck? || n.sendPc.Stamp? || n.sendPc.Insert?
    requires PassesOn(n, f) && HeadersOk(n) && Covered(n.recv.acked, Reach(n))
    ensures var (n', sent) := Proceeded(n, clock); Covers(n, n', sent, f)
  {
    match n.sendPc
    case LoadAck(_) =>
    case Stamp(p) => assert p in InHand(n.sendPc);
    case Insert(p, _) => assert p in InHand(n.sendPc);
  }

  lemma VisitCovers(n: Node, clock: nat, f: nat)
    requires n.sendPc.Visit? && PassesOn(n, f) && HeadersOk(n)
    ensures var (n', sent) := Proceeded(n, clock); Covers(n, n', sent, f)
  {
  }

  lemma TransmitCovers(n: Node, clock: nat, f: nat)
    requires (n.sendPc.Transmit? || n.sendPc.Resend?) && PassesOn(n, f) && HeadersOk(n) && Reach(n) <= f
    ensures var (n', sent) := Proceeded(n, clock); Covers(n, n', sent, f)
  {
    var (n', sent) := Proceeded(n, clock);
    assert forall p | p in sent || p in InHand(n'.sendPc) :: p in InHand(n.sendPc);
  }

  lemma ProceedCovers(n: Node, clock: nat, f: nat)
    requires I.CountersOk(Handler(n)) && !n.sendPc.Waiting? && PassesOn(n, f) && HeadersOk(n)
    requires Reach(n) <= f
    ensures var (n', sent) := Proceeded(n, clock); Covers(n, n', sent, f)
  {
    hide I.CountersOk, Proceeded, PassesOn, HeadersOk, Covers;
    AckedWithinReach(n);
    if n.sendPc.Visit? {
      VisitCovers(n, clock, f);
    } else if n.sendPc.Transmit? || n.sendPc.Resend? {
      TransmitCovers(n, clock, f);
    } else {
      CommitCovers(n, clock, f);
    }
  }

  lemma ArriveCovers(n: Node, x: P.Side, d: Datagram, f: nat)
    requires n.recvPc.Idle? && PassesOn(n, f) && HeadersOk(n) && DatagramAckOk(d, x.Other().Address(), f)
    ensures Covers(n, n.(recvPc := Compare(n.recv, x.Other().Address(), d)), [], f)
  {
  }

  // ---- the whole

  lemma ActsCovered(c: World, x: P.Side, n': Node, sent: seq<Packet>)
    requires AcksCovered(c) && Covers(c.At(x), n', sent, Furthest(c))
    ensures AcksCovered(Acts(c, x, n', sent))
  {
    hide HeadersOk, PassesOn;
    var y, t := x.Other(), Acts(c, x, n', sent);
    assert SideOk(c, x) && SideOk(c, y);
    assert Furthest(c) <= Furthest(t) && Reach(n') <= Furthest(t);
    assert PassesOn(n', Furthest(t));
    forall d | d in t.Inbox(y) ensures DatagramAckOk(d, x.Address(), Furthest(t)) {
      if d in c.Inbox(y) {
        assert DatagramAckOk(d, x.Address(), Furthest(c));
      } else {
        P.OutgoingMembers(x, sent, d);
        var p :| p in sent && P.Leaves(p) && d == Datagram(x.Address(), Serialize(p));
        ParseOfSerialize(p);
      }
    }
    forall d | d in t.Inbox(x) ensures DatagramAckOk(d, y.Address(), Furthest(t)) {
      assert DatagramAckOk(d, y.Address(), Furthest(c));
    }
    PassesFurther(c.At(y), Furthest(c), Furthest(t));
    assert SideOk(t, x) && SideOk(t, y);
  }

  lemma PassesFurther(n: Node, f: nat, g: nat)
    requires PassesOn(n, f) && f <= g
    ensures PassesOn(n, g)
  {
  }

  /** The network moves nothing but datagrams, all of which were there or come from somebody else. */
  lemma NetworkCovered(c: World, x: P.Side, q: seq<Datagram>)
    requires AcksCovered(c) && forall d | d in q :: d in c.Inbox(x) || d.src != x.Other().Address()
    ensures AcksCovered(c.WithInbox(x, q))
  {
    hide HeadersOk, PassesOn;
    var t, y := c.WithInbox(x, q), x.Other();
    assert SideOk(c, x) && SideOk(c, y);
    forall d | d in q ensures DatagramAckOk(d, y.Address(), Furthest(t)) {
      if d in c.Inbox(x) { assert DatagramAckOk(d, y.Address(), Furthest(c)); }
    }
    assert SideOk(t, x) && SideOk(t, y);
  }

  lemma SideParts(c: World, x: P.Side)
    requires AcksCovered(c)
    ensures PassesOn(c.At(x), Furthest(c)) && HeadersOk(c.At(x)) && Reach(c.At(x)) <= Furthest(c)
    ensures InboxAcksOk(c.Inbox(x), x.Other().Address(), Furthest(c))
  {
    assert SideOk(c, x) && SideOk(c, x.Other());
  }

  /** A node changes and sends nothing. */
  lemma WithCovered(c: World, x: P.Side, n': Node)
    requires AcksCovered(c) && Covers(c.At(x), n', [], Furthest(c))
    ensures AcksCovered(c.With(x, n'))
  {
    hide AcksCovered, Covers;
    WithIsActs(c, x, n');
    ActsCovered(c, x, n', []);
  }

  lemma StartCovers(n: Node, clock: nat, order: seq<u32>, payload: bytes, f: nat)
    requires n.sendPc.Waiting? && PassesOn(n, f) && HeadersOk(n)
    ensures Covers(n, n.(sendPc := Visit(clock, order, [])), [], f)
    ensures Covers(n, Accepted(n, payload), [], f)
  {
  }

  lemma AckTaskCovers(n: Node, f: nat)
    requires PassesOn(n, f) && HeadersOk(n)
    ensures n.recv.acks != [] ==> Covers(n, Popped(n), [], f)
    ensures n.popped.Some? ==> Covers(n, n.(popped := None), [R.Ack(n.popped.value)], f)
  {
    if n.recv.acks != [] {
      assert n.recv.acks[0] in n.recv.acks;
      assert forall k | k in n.recv.acks[1..] :: k in n.recv.acks;
    }
    if n.popped.Some? { OneCovered(n.popped.value, f); }
  }

  lemma TaskCovered(c: World, step: Step)
    requires step.Handle? || step.Proceed? || step.Accept? || step.StartScan? || step.Pop? || step.Answer?
    requires AcksCovered(c) && Enabled(c, step) && I.CountersOk(Handler(c.At(step.side)))
    ensures AcksCovered(Next(c, step))
  {
    hide AcksCovered, I.CountersOk, Handled, Proceeded, Covers, PassesOn, HeadersOk, Accepted, Popped, Acts;
    hide Furthest, Reach;
    var x, f := step.side, Furthest(c);
    var n := c.At(x);
    SideParts(c, x);
    match step
    case Handle(_) =>
      HandleCovers(n, f);
      ActsCovered(c, x, Handled(n).0, Handled(n).1);
    case Proceed(_) =>
      ProceedCovers(n, c.clock, f);
      ActsCovered(c, x, Proceeded(n, c.clock).0, Proceeded(n, c.clock).1);
    case Accept(_, payload) =>
      StartCovers(n, c.clock, [], payload, f);
      WithCovered(c, x, Accepted(n, payload));
    case StartScan(_, order) =>
      StartCovers(n, c.clock, order, [], f);
      WithCovered(c, x, n.(sendPc := Visit(c.clock, order, [])));
    case Pop(_) =>
      AckTaskCovers(n, f);
      WithCovered(c, x, Popped(n));
    case Answer(_) =>
      AckTaskCovers(n, f);
      ActsCovered(c, x, n.(popped := None), [R.Ack(n.popped.value)]);
  }

  lemma ArriveCovered(c: World, x: P.Side, i: nat)
    requires AcksCovered(c) && Enabled(c, Arrive(x, i))
    ensures AcksCovered(Next(c, Arrive(x, i)))
  {
    hide AcksCovered, Compare, Covers;
    var n, d, c1 := c.At(x), c.Inbox(x)[i], c.WithInbox(x, Without(c.Inbox(x), i));
    SideParts(c, x);
    assert DatagramAckOk(d, x.Other().Address(), Furthest(c));
    NetworkCovered(c, x, Without(c.Inbox(x), i));
    ArriveCovers(n, x, d, Furthest(c));
    WithCovered(c1, x, n.(recvPc := Compare(n.recv, x.Other().Address(), d)));
  }

  lemma StepCovered(c: World, step: Step)
    requires AcksCovered(c) && Enabled(c, step)
    requires I.CountersOk(Handler(c.host)) && I.CountersOk(Handler(c.peer))
    ensures AcksCovered(Next(c, step))
  {
    hide AcksCovered, I.CountersOk;
    match step
    case Arrive(x, i) => ArriveCovered(c, x, i);
    case Lose(x, i) => NetworkCovered(c, x, Without(c.Inbox(x), i));
    case Duplicate(x, i) => NetworkCovered(c, x, c.Inbox(x) + [c.Inbox(x)[i]]);
    case Stray(x, d) => NetworkCovered(c, x, c.Inbox(x) + [d]);
    case Elapse(dt) => LaterCovered(c, dt);
    case _ => TaskCovered(c, step);
  }

  lemma LaterCovered(c: World, dt: nat)
    requires AcksCovered(c)
    ensures AcksCovered(c.(clock := c.clock + dt))
  {
  }

  lemma {:induction false} RunCovered(a: P.System, c: World, steps: seq<Step>)
    requires Simulates(a, c) && P.SafetyInv(a) && AcksCovered(c) && Valid(c, steps)
    ensures AcksCovered(Run(c, steps))
    decreases |steps|
  {
    hide Simulates, P.SafetyInv, AcksCovered, Next, Enabled, NodeOk;
    if steps != [] {
      CountersHold(a, c);
      StepCovered(c, steps[0]);
      var first := StepSimulates(a, c, steps[0]);
      P.RunKeepsSafety(a, first);
      RunCovered(P.Run(a, first), Next(c, steps[0]), steps[1..]);
    }
  }

  lemma CountersHold(a: P.System, c: World)
    requires Simulates(a, c)
    ensures I.CountersOk(Handler(c.host)) && I.CountersOk(Handler(c.peer))
  {
    hide I.CountersOk;
    assert NodeOk(c.At(P.Host)) && NodeOk(c.At(P.Peer));
  }

  /** Between any two statements of any tasks every ack number queued, in hand, or on the wire is 0 or
      below what the further endpoint has received in order, and one in the header of data sent or
      about to be sent below what its own sender has. */
  lemma StatementAckProvenance(steps: seq<Step>)
    requires Valid(Init, steps)
    ensures AcksCovered(Run(Init, steps))
  {
    hide Simulates, Next, Enabled;
    StartSimulates();
    RunCovered(P.Init, Init, steps);
  }
}

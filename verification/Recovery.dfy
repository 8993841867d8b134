/** Whatever the network has lost, duplicated or reordered, the endpoints can always catch up: there
    is a schedule without losses, duplicates or new messages after which everything ever given has
    been delivered, provided at least one endpoint has sent something. */
module Recovery {
  import opened Basics
  import opened Bags
  import opened Wire
  import R = Receiver
  import S = Sender
  import opened SingleConnection
  import opened Protocol
  import opened Acks

  /** Time passes, packets are retransmitted, datagrams and acks are delivered; nothing else. */
  predicate Quiet(step: Step) {
    step.Elapse? || step.Scan? || step.SendAck? || step.Deliver?
  }

  predicate QuietSchedule(steps: seq<Step>) {
    forall st | st in steps :: Quiet(st)
  }

  /** A schedule that may be run from `s` without loss, duplication or new messages. */
  ghost predicate Catchup(s: System, steps: seq<Step>) {
    Valid(s, steps) && QuietSchedule(steps)
  }

  lemma CatchupAppend(s: System, a: seq<Step>, b: seq<Step>)
    requires Catchup(s, a) && Catchup(Run(s, a), b)
    ensures Catchup(s, a + b) && Run(s, a + b) == Run(Run(s, a), b)
  {
    RunAppend(s, a, b);
  }

  lemma RunOne(s: System, step: Step)
    requires Enabled(s, step)
    ensures Valid(s, [step]) && Run(s, [step]) == Next(s, step)
  {
    assert [step][1..] == [];
    assert Valid(Next(s, step), []);
  }

  // ---- what a quiet schedule cannot undo

  ghost predicate NoLessThan(s: System, t: System) {
    && t.host.given == s.host.given && t.peer.given == s.peer.given
    && s.host.recv.expected <= t.host.recv.expected
    && s.peer.recv.expected <= t.peer.recv.expected
  }

  lemma ExpectedGrows(r: R.Receiver, d: Datagram, e: Endpoint, from: Addr, clock: nat)
    requires SenderOk(e, clock) && ReceiverOk(r, e.send.unacked) && GenuineDatagram(d, from, e.send.unacked)
    ensures r.expected <= OnDatagram(r, from, d).0.expected
  {
    if d.src == from && Parse(d.data).value.SeqNum() == r.expected {
      InOrderArrivalKeeps(r, Parse(d.data).value, e, clock);
    }
  }

  lemma QuietStepKeeps(s: System, step: Step)
    requires SafetyInv(s) && Enabled(s, step) && Quiet(step)
    ensures NoLessThan(s, Next(s, step))
  {
    if step.Deliver? {
      var x := step.side;
      var y := x.Other();
      assert DirectionOk(s, y);
      ExpectedGrows(s.At(x).recv, s.Inbox(x)[step.i], s.At(y), y.Address(), s.clock);
    }
  }

  lemma {:induction false} QuietRunKeeps(s: System, steps: seq<Step>)
    requires SafetyInv(s) && Catchup(s, steps)
    ensures SafetyInv(Run(s, steps)) && NoLessThan(s, Run(s, steps))
    decreases |steps|
  {
    if steps != [] {
      assert steps[0] in steps;
      StepKeepsSafety(s, steps[0]);
      QuietStepKeeps(s, steps[0]);
      QuietRunKeeps(Next(s, steps[0]), steps[1..]);
    }
  }

  // ---- datagrams that wait in an inbox

  /** The datagram in which `x` (re)transmits its packet number `k`. */
  function DataDatagram(s: System, x: Side, k: u32): Datagram
    requires k in s.At(x).send.unacked
  {
    Datagram(x.Address(), Serialize(s.At(x).send.unacked[k].packet))
  }

  /** All data packets of `x` from number `from` on are in flight. */
  ghost predicate DataWaits(s: System, x: Side, from: nat) {
    forall k | Sendable(s.At(x).send.unacked, k) && from <= k :: DataDatagram(s, x, k) in s.Inbox(x.Other())
  }

  lemma DataDatagramParses(s: System, x: Side, k: u32)
    requires SenderOk(s.At(x), s.clock) && k in s.At(x).send.unacked
    ensures Parse(DataDatagram(s, x, k).data) == Some(Received(s.At(x).send.unacked[k].packet))
    ensures Received(s.At(x).send.unacked[k].packet).SeqNum() == k
  {
    assert StoredOk(s.At(x).send.unacked[k], k, s.At(x).given[k - 1], s.clock);
    ParseOfSerialize(s.At(x).send.unacked[k].packet);
  }

  lemma StillThere(q: seq<Datagram>, i: nat, d: Datagram)
    requires i < |q| && d in q && d != q[i]
    ensures d in Without(q, i)
  {
    var j :| 0 <= j < |q| && q[j] == d;
    assert Without(q, i)[if j < i then j else j - 1] == d;
  }

  /** Delivering one datagram that waits at `y` leaves the data packets that differ from it. */
  lemma DeliverWaiting(s: System, y: Side, d: Datagram) returns (step: Step)
    requires SafetyInv(s) && d in s.Inbox(y)
    ensures step.Deliver? && step.side == y && Enabled(s, step)
    ensures var t := Next(s, step);
      var (r, sent) := OnDatagram(s.At(y).recv, y.Other().Address(), d);
      && SafetyInv(t)
      && t.At(y.Other()) == s.At(y.Other())
      && t.At(y) == s.At(y).(recv := r)
      && t.Inbox(y.Other()) == s.Inbox(y.Other()) + Outgoing(y, sent)
      && (forall d' | d' in s.Inbox(y) && d' != d :: d' in t.Inbox(y))
  {
    var i :| 0 <= i < |s.Inbox(y)| && s.Inbox(y)[i] == d;
    step := Deliver(y, i);
    StepKeepsSafety(s, step);
    forall d' | d' in s.Inbox(y) && d' != d ensures d' in Without(s.Inbox(y), i) {
      StillThere(s.Inbox(y), i, d');
    }
  }

  // ---- messages that can leave at all

  /** No message is too long for a datagram. */
  predicate AllLeave(given: seq<bytes>) {
    forall m | m in given :: HEADER_SIZE + |m| <= MAX_DATAGRAM
  }

  lemma MessageLeaves(e: Endpoint, clock: nat, k: u32)
    requires SenderOk(e, clock) && 1 <= k <= |e.given|
    ensures k in e.send.unacked && (Sendable(e.send.unacked, k) <==> HEADER_SIZE + |e.given[k - 1]| <= MAX_DATAGRAM)
    ensures AllLeave(e.given) ==> Sendable(e.send.unacked, k)
  {
    assert k in e.send.unacked && e.given[k - 1] in e.given;
    assert StoredOk(e.send.unacked[k], k, e.given[k - 1], clock);
  }

  // ---- the schedule, piece by piece

  /** A scan that finds every packet overdue puts each that can leave in flight once more. */
  lemma AllScanned(s: System, x: Side, order: seq<u32>)
    requires SafetyInv(s) && Enabled(s, Scan(x, order))
    requires forall k | k in s.At(x).send.unacked :: k in S.Overdue(s.At(x).send.unacked, s.clock)
    ensures DataWaits(Next(s, Scan(x, order)), x, 0)
  {
    hide SafetyInv, Outgoing, Leaves, Serialize;
    var t, e := Next(s, Scan(x, order)), s.At(x);
    var ps := S.PacketsAt(e.send.unacked, order);
    forall k | Sendable(t.At(x).send.unacked, k) ensures DataDatagram(t, x, k) in t.Inbox(x.Other()) {
      var i :| 0 <= i < |order| && order[i] == k;
      assert ps[i] in ps && ps[i] == t.At(x).send.unacked[k].packet;
      OutgoingMembers(x, ps, DataDatagram(t, x, k));
    }
  }

  lemma WaitedLongEnough(s: System, x: Side, k: u32)
    requires SafetyInv(s) && k in s.At(x).send.unacked
    ensures k in S.Overdue(s.At(x).send.unacked, s.clock + S.TIMEOUT + 1)
  {
    var e := s.At(x);
    assert DirectionOk(s, x);
    assert StoredOk(e.send.unacked[k], k, e.given[k - 1], s.clock);
  }

  lemma ScanRest(s: System, x: Side, order: seq<u32>)
    requires SafetyInv(s) && Enabled(s, Scan(x, order))
    ensures var t := Next(s, Scan(x, order));
      && SafetyInv(t) && t.At(x.Other()) == s.At(x.Other()) && t.Inbox(x) == s.Inbox(x)
      && t.At(x).recv == s.At(x).recv && t.At(x).given == s.At(x).given
  {
    hide SafetyInv, Outgoing;
    StepKeepsSafety(s, Scan(x, order));
  }

  lemma WaitRest(s: System)
    requires SafetyInv(s)
    ensures var t := Next(s, Elapse(S.TIMEOUT + 1));
      SafetyInv(t) && t == s.(clock := s.clock + S.TIMEOUT + 1)
  {
    hide SafetyInv;
    StepKeepsSafety(s, Elapse(S.TIMEOUT + 1));
  }

  /** Let the timeout pass and scan: every packet ever sent that can leave is in flight once more. */
  lemma Retransmit(s: System, x: Side) returns (steps: seq<Step>)
    requires SafetyInv(s)
    ensures Catchup(s, steps)
    ensures var t := Run(s, steps);
      && SafetyInv(t) && DataWaits(t, x, 0)
      && t.At(x.Other()) == s.At(x.Other()) && t.Inbox(x) == s.Inbox(x)
      && t.At(x).recv == s.At(x).recv && t.At(x).given == s.At(x).given
  {
    hide SafetyInv, Next, DataWaits;
    var wait := Elapse(S.TIMEOUT + 1);
    var s1 := Next(s, wait);
    WaitRest(s);
    var order := S.SomeListing(S.Overdue(s1.At(x).send.unacked, s1.clock));
    var scan := Scan(x, order);
    forall k | k in s1.At(x).send.unacked ensures k in S.Overdue(s1.At(x).send.unacked, s1.clock) {
      WaitedLongEnough(s, x, k);
    }
    AllScanned(s1, x, order);
    ScanRest(s1, x, order);
    RunOne(s, wait);
    RunOne(s1, scan);
    CatchupAppend(s, [wait], [scan]);
    steps := [wait] + [scan];
  }

  /** One waiting data packet is delivered: the frontier passes it if it was next. */
  lemma DeliverData(s: System, x: Side, k: u32) returns (step: Step)
    requires SafetyInv(s) && DataWaits(s, x, k) && Sendable(s.At(x).send.unacked, k)
    requires 1 <= k <= s.At(x.Other()).recv.expected
    ensures Enabled(s, step) && Quiet(step)
    ensures var t := Next(s, step);
      && SafetyInv(t) && DataWaits(t, x, k + 1) && t.At(x) == s.At(x)
      && k + 1 <= t.At(x.Other()).recv.expected
  {
    var y := x.Other();
    assert DirectionOk(s, x);
    var d := DataDatagram(s, x, k);
    DataDatagramParses(s, x, k);
    step := DeliverWaiting(s, y, d);
    assert GenuineDatagram(d, x.Address(), s.At(x).send.unacked);
    ExpectedGrows(s.At(y).recv, d, s.At(x), x.Address(), s.clock);
    var p := Received(s.At(x).send.unacked[k].packet);
    if k == s.At(y).recv.expected {
      InOrderArrivalKeeps(s.At(y).recv, p, s.At(x), s.clock);
    }
    var t := Next(s, step);
    forall j | Sendable(t.At(x).send.unacked, j) && k + 1 <= j ensures DataDatagram(t, x, j) in t.Inbox(y) {
      DataDatagramParses(s, x, j);
    }
  }

  /** Deliver the waiting data packets in order, from the frontier on. */
  lemma {:induction false} DeliverRest(s: System, x: Side, k: nat) returns (steps: seq<Step>)
    requires SafetyInv(s) && DataWaits(s, x, k) && AllLeave(s.At(x).given)
    requires 1 <= k <= s.At(x.Other()).recv.expected
    ensures Catchup(s, steps)
    ensures |s.At(x).given| < Run(s, steps).At(x.Other()).recv.expected
    decreases |s.At(x).given| - k
  {
    assert DirectionOk(s, x);
    if k > |s.At(x).given| {
      steps := [];
    } else {
      MessageLeaves(s.At(x), s.clock, k);
      var step := DeliverData(s, x, k);
      var rest := DeliverRest(Next(s, step), x, k + 1);
      RunOne(s, step);
      CatchupAppend(s, [step], rest);
      steps := [step] + rest;
    }
  }

  // ---- unlocking slot 0

  lemma AnswerToEarly(r: R.Receiver, d: Datagram, from: Addr)
    requires d.src == from && Parse(d.data).Some? && Parse(d.data).value.SeqNum() > r.expected
    ensures OnDatagram(r, from, d).1 == [R.Ack(r.acked)]
  {
  }

  lemma AckLeaves(q: seq<Datagram>, x: Side, k: u32) returns (a: Datagram)
    ensures a in q + Outgoing(x, [R.Ack(k)]) && IsAckFrom(a, x.Address())
  {
    ParseOfSerialize(R.Ack(k));
    a := Datagram(x.Address(), Serialize(R.Ack(k)));
    OutgoingOne(x, R.Ack(k));
  }

  /** A data packet reaches a receiver that still expects slot 0: it answers with an ack at once. */
  lemma EarlyDataIsAnswered(s: System, x: Side) returns (step: Step, a: Datagram)
    requires SafetyInv(s) && DataWaits(s, x, 0) && s.At(x).given != [] && AllLeave(s.At(x).given)
    requires s.At(x.Other()).recv.expected == 0
    ensures Enabled(s, step) && Quiet(step) && SafetyInv(Next(s, step))
    ensures a in Next(s, step).Inbox(x) && IsAckFrom(a, x.Other().Address())
  {
    var y := x.Other();
    assert DirectionOk(s, x);
    var one: u32 := 1;
    MessageLeaves(s.At(x), s.clock, one);
    var d := DataDatagram(s, x, one);
    DataDatagramParses(s, x, one);
    step := DeliverWaiting(s, y, d);
    AnswerToEarly(s.At(y).recv, d, x.Address());
    a := AckLeaves(s.Inbox(x), y, s.At(y).recv.acked);
  }

  /** An ack packet reaches `y`: it fills slot 0 if that was missing, and is echoed in any case. */
  lemma DeliverAck(s: System, y: Side, a: Datagram) returns (step: Step)
    requires SafetyInv(s) && a in s.Inbox(y) && IsAckFrom(a, y.Other().Address())
    ensures Enabled(s, step) && Quiet(step)
    ensures var t := Next(s, step);
      && SafetyInv(t) && t.At(y.Other()) == s.At(y.Other())
      && t.At(y).recv.expected >= 1 && t.At(y).recv.acks != []
  {
    var x, r := y.Other(), s.At(y).recv;
    assert DirectionOk(s, x);
    assert GenuineDatagram(a, x.Address(), s.At(x).send.unacked);
    var p := Parse(a.data).value;
    step := DeliverWaiting(s, y, a);
    if r.expected == 0 {
      InOrderArrivalKeeps(r, p, s.At(x), s.clock);
    }
  }

  lemma QueuedAckLeaves(s: System, x: Side) returns (a: Datagram)
    requires SafetyInv(s) && s.At(x).recv.acks != []
    ensures Enabled(s, SendAck(x)) && SafetyInv(Next(s, SendAck(x)))
    ensures a in Next(s, SendAck(x)).Inbox(x.Other()) && IsAckFrom(a, x.Address())
  {
    hide SafetyInv, Outgoing, IsAckFrom;
    StepKeepsSafety(s, SendAck(x));
    a := AckLeaves(s.Inbox(x.Other()), x, s.At(x).recv.acks[0]);
  }

  /** The ack that `x` owes is bounced back to `y`. */
  lemma BounceAck(s: System, x: Side, a: Datagram) returns (steps: seq<Step>)
    requires SafetyInv(s) && a in s.Inbox(x) && IsAckFrom(a, x.Other().Address())
    ensures Catchup(s, steps) && SafetyInv(Run(s, steps))
    ensures Run(s, steps).At(x.Other()).recv.expected >= 1
  {
    hide SafetyInv, Next, Enabled;
    var y := x.Other();
    var first := DeliverAck(s, x, a);
    var s1 := Next(s, first);
    var second := SendAck(x);
    var back := QueuedAckLeaves(s1, x);
    var s2 := Next(s1, second);
    var third := DeliverAck(s2, y, back);
    RunOne(s, first);
    RunOne(s1, second);
    RunOne(s2, third);
    CatchupAppend(s, [first], [second]);
    CatchupAppend(s, [first] + [second], [third]);
    steps := [first] + [second] + [third];
  }

  /** If `x` has sent something, `y` gets past slot 0. */
  lemma UnlockByData(s: System, x: Side) returns (steps: seq<Step>)
    requires SafetyInv(s) && s.At(x).given != [] && AllLeave(s.At(x).given)
    ensures Catchup(s, steps) && SafetyInv(Run(s, steps))
    ensures Run(s, steps).At(x.Other()).recv.expected >= 1
  {
    hide SafetyInv, Next, Enabled, AllLeave;
    if s.At(x.Other()).recv.expected >= 1 {
      steps := [];
    } else {
      var resend := Retransmit(s, x);
      var s1 := Run(s, resend);
      var step, a := EarlyDataIsAnswered(s1, x);
      var s2 := Next(s1, step);
      var bounce := BounceAck(s2, x, a);
      RunOne(s1, step);
      CatchupAppend(s1, [step], bounce);
      CatchupAppend(s, resend, [step] + bounce);
      steps := resend + ([step] + bounce);
    }
  }

  /** Everything `x` was given reaches `y`. */
  lemma CatchUpOn(s: System, x: Side) returns (steps: seq<Step>)
    requires SafetyInv(s) && s.At(x).given != [] && AllLeave(s.At(x).given)
    ensures Catchup(s, steps) && SafetyInv(Run(s, steps))
    ensures |s.At(x).given| < Run(s, steps).At(x.Other()).recv.expected
  {
    var unlock := UnlockByData(s, x);
    var s1 := Run(s, unlock);
    QuietRunKeeps(s, unlock);
    var resend := Retransmit(s1, x);
    var s2 := Run(s1, resend);
    var rest := DeliverRest(s2, x, 1);
    CatchupAppend(s1, resend, rest);
    CatchupAppend(s, unlock, resend + rest);
    steps := unlock + (resend + rest);
    QuietRunKeeps(s, steps);
  }

  // ---- when there is nothing to catch up on

  /** As long as `x` has sent no data and `y` is still at slot 0, `y` has sent no ack either, so `x`
      is at slot 0 too. */
  ghost predicate HandshakeOk(s: System, x: Side) {
    var y := x.Other();
    s.At(x).given == [] && s.At(y).recv.expected == 0 ==>
      && s.At(y).recv.acks == []
      && s.At(x).recv.expected == 0
      && (forall d | d in s.Inbox(x) :: !IsAckFrom(d, y.Address()))
  }

  lemma EmptyStoreArrival(r: R.Receiver, d: Datagram, e: Endpoint, from: Addr, clock: nat)
    requires SenderOk(e, clock) && e.given == [] && ReceiverOk(r, e.send.unacked)
    requires GenuineDatagram(d, from, e.send.unacked)
    ensures var (r', sent) := OnDatagram(r, from, d);
      r'.expected == 0 ==> r' == r && sent == []
  {
    if d.src == from && r.expected == 0 {
      InOrderArrivalKeeps(r, Parse(d.data).value, e, clock);
    }
  }

  lemma DataArrival(r: R.Receiver, d: Datagram, e: Endpoint, from: Addr)
    requires GenuineDatagram(d, from, e.send.unacked) && !IsAckFrom(d, from) && r.expected == 0
    ensures OnDatagram(r, from, d).0.expected == 0
  {
  }

  /** Receiving at `y`. */
  lemma DeliverToSilentKeeps(s: System, x: Side, i: nat)
    requires SafetyInv(s) && HandshakeOk(s, x) && i < |s.Inbox(x.Other())|
    ensures HandshakeOk(Next(s, Deliver(x.Other(), i)), x)
  {
    var y := x.Other();
    var d, t := s.Inbox(y)[i], Next(s, Deliver(y, i));
    assert DirectionOk(s, x);
    assert GenuineDatagram(d, x.Address(), s.At(x).send.unacked);
    if t.At(x).given == [] && t.At(y).recv.expected == 0 {
      ExpectedGrows(s.At(y).recv, d, s.At(x), x.Address(), s.clock);
      EmptyStoreArrival(s.At(y).recv, d, s.At(x), x.Address(), s.clock);
      assert t.Inbox(x) == s.Inbox(x);
    }
  }

  /** Receiving at `x`. */
  lemma DeliverFromSilentKeeps(s: System, x: Side, i: nat)
    requires SafetyInv(s) && HandshakeOk(s, x) && i < |s.Inbox(x)|
    ensures HandshakeOk(Next(s, Deliver(x, i)), x)
  {
    var y := x.Other();
    var d := s.Inbox(x)[i];
    assert DirectionOk(s, y);
    assert d in s.Inbox(x);
    if s.At(x).given == [] && s.At(y).recv.expected == 0 {
      DataArrival(s.At(x).recv, d, s.At(y), y.Address());
    }
  }

  /** Data packets are no acks. */
  lemma DataIsNoAck(x: Side, ps: seq<Packet>, d: Datagram)
    requires forall p | p in ps :: p.SeqNum() > 0
    requires d in Outgoing(x, ps)
    ensures !IsAckFrom(d, x.Address())
  {
    OutgoingMembers(x, ps, d);
    var p :| p in ps && Leaves(p) && d == Datagram(x.Address(), Serialize(p));
    ParseOfSerialize(p);
  }

  lemma ScannedNumbers(e: Endpoint, clock: nat, order: seq<u32>)
    requires SenderOk(e, clock) && S.Lists(order, S.Overdue(e.send.unacked, clock))
    ensures forall p | p in S.PacketsAt(e.send.unacked, order) :: p.SeqNum() > 0
  {
    var ps := S.PacketsAt(e.send.unacked, order);
    forall p | p in ps ensures p.SeqNum() > 0 {
      var i :| 0 <= i < |ps| && p == ps[i];
      assert order[i] in order;
      assert StoredOk(e.send.unacked[order[i]], order[i], e.given[order[i] - 1], clock);
    }
  }

  lemma SendTaskKeepsHandshake(s: System, step: Step, x: Side)
    requires step.Submit? || step.Scan?
    requires SafetyInv(s) && HandshakeOk(s, x) && Enabled(s, step)
    ensures HandshakeOk(Next(s, step), x)
  {
    var y := x.Other();
    if step.side == y {
      var e := s.At(y);
      assert DirectionOk(s, y);
      if step.Scan? { ScannedNumbers(e, s.clock, step.order); }
      var ps := if step.Submit? then [S.NextPacket(e.send, step.payload, step.ackRead)]
                else S.PacketsAt(e.send.unacked, step.order);
      forall d | d in Outgoing(y, ps) ensures !IsAckFrom(d, y.Address()) {
        DataIsNoAck(y, ps, d);
      }
      assert Next(s, step).Inbox(x) == s.Inbox(x) + Outgoing(y, ps);
    }
  }

  lemma StepKeepsHandshake(s: System, step: Step, x: Side)
    requires SafetyInv(s) && HandshakeOk(s, x) && Enabled(s, step)
    ensures HandshakeOk(Next(s, step), x)
  {
    hide SafetyInv, OnDatagram, Outgoing;
    match step
    case Submit(_, _, _) => SendTaskKeepsHandshake(s, step, x);
    case Scan(_, _) => SendTaskKeepsHandshake(s, step, x);
    case SendAck(_) =>
    case Deliver(z, i) =>
      if z == x { DeliverFromSilentKeeps(s, x, i); } else { DeliverToSilentKeeps(s, x, i); }
    case Lose(_, _) =>
    case Duplicate(_, _) =>
    case Stray(_, _) =>
    case Elapse(_) =>
  }

  lemma {:induction false} RunKeepsHandshake(s: System, steps: seq<Step>, x: Side)
    requires SafetyInv(s) && HandshakeOk(s, x) && Valid(s, steps)
    ensures HandshakeOk(Run(s, steps), x)
    decreases |steps|
  {
    if steps != [] {
      StepKeepsSafety(s, steps[0]);
      StepKeepsHandshake(s, steps[0], x);
      RunKeepsHandshake(Next(s, steps[0]), steps[1..], x);
    }
  }

  /** Before anything is submitted the two endpoints say nothing. */
  ghost predicate SilentOk(s: System) {
    s.host.given == [] && s.peer.given == [] ==>
      && s.host.recv.expected == 0 && s.host.recv.acks == []
      && s.peer.recv.expected == 0 && s.peer.recv.acks == []
      && (forall d | d in s.toHost :: d.src != Peer.Address())
      && (forall d | d in s.toPeer :: d.src != Host.Address())
  }

  lemma SilentDelivery(s: System, x: Side, i: nat)
    requires SilentOk(s) && s.host.given == [] && s.peer.given == [] && i < |s.Inbox(x)|
    ensures var d := s.Inbox(x)[i];
      OnDatagram(s.At(x).recv, x.Other().Address(), d) == (s.At(x).recv, []) && d in s.Inbox(x)
  {
    assert s.Inbox(x)[i] in s.Inbox(x);
  }

  lemma SilentScan(s: System, x: Side, order: seq<u32>)
    requires SafetyInv(s) && s.At(x).given == [] && S.Lists(order, S.Overdue(s.At(x).send.unacked, s.clock))
    ensures order == []
  {
    assert DirectionOk(s, x);
    if order != [] { FirstMember(order); }
  }

  lemma FirstMember(order: seq<u32>)
    requires order != []
    ensures exists k :: k in order
  {
    assert order[0] in order;
  }

  lemma StepKeepsSilence(s: System, step: Step)
    requires SafetyInv(s) && SilentOk(s) && Enabled(s, step)
    ensures SilentOk(Next(s, step))
  {
    hide SafetyInv, OnDatagram;
    if s.host.given == [] && s.peer.given == [] {
      match step
      case Deliver(x, i) => SilentDelivery(s, x, i);
      case Scan(x, order) => SilentScan(s, x, order);
      case _ =>
    }
  }

  lemma {:induction false} RunKeepsSilence(s: System, steps: seq<Step>)
    requires SafetyInv(s) && SilentOk(s) && Valid(s, steps)
    ensures SilentOk(Run(s, steps))
    decreases |steps|
  {
    if steps != [] {
      StepKeepsSafety(s, steps[0]);
      StepKeepsSilence(s, steps[0]);
      RunKeepsSilence(Next(s, steps[0]), steps[1..]);
    }
  }

  // ---- the main results

  /** `y` holds everything its peer was given, and nothing is left to reorder. */
  ghost predicate HasAll(s: System, y: Side) {
    && s.At(y).recv.expected == |s.At(y.Other()).given| + 1
    && s.At(y).recv.buffer == map[]
    && R.Payloads(s.At(y).recv.output) == Messages(s.At(y.Other()).given)
  }

  lemma AllDelivered(e: Endpoint, r: R.Receiver, clock: nat)
    requires SenderOk(e, clock) && ReceiverOk(r, e.send.unacked) && |e.given| < r.expected
    ensures r.expected == |e.given| + 1 && r.buffer == map[]
    ensures R.Payloads(r.output) == Messages(e.given)
  {
    OutputInStep(e, r, clock);
    PayloadsAreMessages(r.output, e.given, |r.output|);
    assert r.output[..|r.output|] == r.output && e.given[..|e.given|] == e.given;
    assert forall k | k in r.buffer :: k in e.send.unacked;
  }

  lemma EnoughIsAll(s: System, y: Side)
    requires SafetyInv(s) && |s.At(y.Other()).given| < s.At(y).recv.expected
    ensures HasAll(s, y)
  {
    assert DirectionOk(s, y.Other());
    AllDelivered(s.At(y.Other()), s.At(y).recv, s.clock);
  }

  /** What `y` holds all of has left its peer, every message of it. */
  lemma AllHasLeft(s: System, y: Side)
    requires SafetyInv(s) && HasAll(s, y)
    ensures AllLeave(s.At(y.Other()).given)
  {
    hide Leaves, InboxOk, R.Payloads, Messages;
    var e := s.At(y.Other());
    assert DirectionOk(s, y.Other());
    forall m | m in e.given ensures HEADER_SIZE + |m| <= MAX_DATAGRAM {
      var i :| 0 <= i < |e.given| && e.given[i] == m;
      var k: u32 := i + 1;
      assert Sendable(e.send.unacked, k);
      MessageLeaves(e, s.clock, k);
    }
  }

  /** `x` has sent nothing but `y` has: the answer to `y`'s data fills `y`'s slot 0. */
  lemma UnlockByAnswer(s: System, x: Side) returns (steps: seq<Step>)
    requires SafetyInv(s) && HandshakeOk(s, x) && s.At(x).given == []
    requires s.At(x.Other()).given != [] && AllLeave(s.At(x.Other()).given)
    ensures Catchup(s, steps) && SafetyInv(Run(s, steps))
    ensures Run(s, steps).At(x.Other()).recv.expected >= 1
  {
    hide SafetyInv, Next, Enabled;
    var y := x.Other();
    if s.At(y).recv.expected >= 1 {
      steps := [];
    } else {
      var resend := Retransmit(s, y);
      var s1 := Run(s, resend);
      var first, a := EarlyDataIsAnswered(s1, y);
      var s2 := Next(s1, first);
      var second := DeliverAck(s2, y, a);
      RunOne(s1, first);
      RunOne(s2, second);
      CatchupAppend(s1, [first], [second]);
      CatchupAppend(s, resend, [first] + [second]);
      steps := resend + ([first] + [second]);
    }
  }

  /** Some message has been given, and all that have can leave. */
  predicate Sendables(s: System) {
    && (s.host.given != [] || s.peer.given != [])
    && AllLeave(s.host.given) && AllLeave(s.peer.given)
  }

  lemma CatchUpDirection(s: System, x: Side) returns (steps: seq<Step>)
    requires SafetyInv(s) && HandshakeOk(s, x) && Sendables(s)
    ensures Catchup(s, steps) && SafetyInv(Run(s, steps))
    ensures |s.At(x).given| < Run(s, steps).At(x.Other()).recv.expected
  {
    hide SafetyInv, HandshakeOk, Catchup;
    if s.At(x).given != [] {
      steps := CatchUpOn(s, x);
    } else {
      steps := UnlockByAnswer(s, x);
    }
  }

  lemma CatchUpBoth(s: System) returns (steps: seq<Step>)
    requires SafetyInv(s) && HandshakeOk(s, Host) && HandshakeOk(s, Peer) && Sendables(s)
    ensures Catchup(s, steps)
    ensures HasAll(Run(s, steps), Host) && HasAll(Run(s, steps), Peer)
  {
    hide SafetyInv, HandshakeOk, AllLeave, Next, Enabled, HasAll;
    var a := CatchUpDirection(s, Host);
    var s1 := Run(s, a);
    QuietRunKeeps(s, a);
    RunKeepsHandshake(s, a, Peer);
    var b := CatchUpDirection(s1, Peer);
    QuietRunKeeps(s1, b);
    CatchupAppend(s, a, b);
    steps := a + b;
    EnoughIsAll(Run(s1, b), Host);
    EnoughIsAll(Run(s1, b), Peer);
  }

  /** From every reachable state in which `x` has sent at least one message, some schedule without
      losses, duplicates or new messages ends with the other endpoint holding all of them, if and only
      if no message is too long for a datagram. */
  lemma Recoverability(steps: seq<Step>, x: Side)
    requires Valid(Init, steps) && Run(Init, steps).At(x).given != []
    ensures AllLeave(Run(Init, steps).At(x).given) <==>
      exists more :: Catchup(Run(Init, steps), more) && HasAll(Run(Run(Init, steps), more), x.Other())
  {
    hide SafetyInv, AllLeave, Next, Enabled, HasAll;
    RunKeepsSafety(Init, steps);
    var s := Run(Init, steps);
    if AllLeave(s.At(x).given) {
      var more := CatchUpOn(s, x);
      QuietRunKeeps(s, more);
      EnoughIsAll(Run(s, more), x.Other());
    } else {
      forall more | Catchup(s, more) ensures !HasAll(Run(s, more), x.Other()) {
        QuietRunKeeps(s, more);
        if HasAll(Run(s, more), x.Other()) {
          AllHasLeft(Run(s, more), x.Other());
        }
      }
    }
  }

  /** Of a message that cannot leave nothing ever arrives, nor of any given after it. */
  lemma LongMessageBlocks(steps: seq<Step>, x: Side, i: nat)
    requires Valid(Init, steps) && i < |Run(Init, steps).At(x).given|
    requires HEADER_SIZE + |Run(Init, steps).At(x).given[i]| > MAX_DATAGRAM
    ensures |Run(Init, steps).At(x.Other()).recv.output| <= i + 1
  {
    hide Next, Enabled, Leaves;
    RunKeepsSafety(Init, steps);
    var s := Run(Init, steps);
    assert DirectionOk(s, x);
    var e, r, k: u32 := s.At(x), s.At(x.Other()).recv, i + 1;
    if k < r.expected {
      assert Sendable(e.send.unacked, k);
      MessageLeaves(e, s.clock, k);
    }
  }

  lemma SilentHasNothing(s: System)
    requires SilentOk(s) && s.host.given == [] && s.peer.given == []
    ensures !HasAll(s, Host)
  {
  }

  /** Both endpoints can catch up if and only if at least one of them has ever sent something, and
      neither has been given a message too long for a datagram. */
  lemma BothRecoverIff(steps: seq<Step>)
    requires Valid(Init, steps)
    ensures Sendables(Run(Init, steps)) <==>
      exists more :: Catchup(Run(Init, steps), more)
        && HasAll(Run(Run(Init, steps), more), Host) && HasAll(Run(Run(Init, steps), more), Peer)
  {
    hide SafetyInv, HandshakeOk, SilentOk, AllLeave, Next, Enabled, HasAll;
    var s := Run(Init, steps);
    RunKeepsSafety(Init, steps);
    StartsSilent();
    RunKeepsHandshake(Init, steps, Host);
    RunKeepsHandshake(Init, steps, Peer);
    RunKeepsSilence(Init, steps);
    if Sendables(s) {
      var more := CatchUpBoth(s);
    } else {
      forall more | Catchup(s, more)
        ensures !(HasAll(Run(s, more), Host) && HasAll(Run(s, more), Peer))
      {
        var t := Run(s, more);
        QuietRunKeeps(s, more);
        RunKeepsSilence(s, more);
        if HasAll(t, Host) && HasAll(t, Peer) {
          AllHasLeft(t, Host);
          AllHasLeft(t, Peer);
          SilentHasNothing(t);
        }
      }
    }
  }

  lemma StartsSilent()
    ensures HandshakeOk(Init, Host) && HandshakeOk(Init, Peer) && SilentOk(Init)
  {
  }
}

/** The tasks of the source's objects take the steps of Protocol: one datagram received, one event of
    the send task and one queued ack are each one step, and what they put on the socket is what that
    step puts on the network. */
module TaskSteps {
  import opened Basics
  import opened Bags
  import opened Wire
  import R = Receiver
  import S = Sender
  import opened SingleConnection
  import opened Protocol

  /** What becomes of the buffers that `x` hands to the socket: those not too long are on their way. */
  function Departing(x: Side, bufs: seq<bytes>): seq<Datagram> {
    if bufs == [] then []
    else
      var buf := bufs[|bufs| - 1];
      Departing(x, bufs[..|bufs| - 1]) + if |buf| <= 65507 then [Datagram(x.Address(), buf)] else []
  }

  lemma {:induction false} OutgoingDeparts(x: Side, ps: seq<Packet>)
    ensures Outgoing(x, ps) == Departing(x, SerializeAll(ps))
  {
    if ps != [] {
      OutgoingDeparts(x, ps[..|ps| - 1]);
      assert SerializeAll(ps)[..|ps| - 1] == SerializeAll(ps[..|ps| - 1]);
    }
  }

  /** The send task of `x` stands where it stands in the system. */
  predicate SendsAs(s: System, x: Side, a: SendState, acked: u32, now: nat) {
    a.sender == s.At(x).send && acked <= s.At(x).recv.acked && now == s.clock
  }

  /** The step that an event of the send task is. */
  function StepOf(x: Side, acked: u32, ev: SendEvent, order: seq<u32>): Step {
    match ev
    case Message(AckMessage(_), _) => Elapse(0)
    case Message(Data(payload), _) => Submit(x, payload, acked)
    case Tick(_) => Scan(x, order)
  }

  /** One event of the send task is one step of the system: the sender becomes what it becomes there,
      and the new entries of the socket's log are what is new on the way to the other side. */
  lemma WakeIsStep(s: System, x: Side, a: SendState, acked: u32, ev: SendEvent, order: seq<u32>, b: SendState)
    requires SendsAs(s, x, a, acked, ev.now) && SendStep(a, acked, ev, order, b)
    requires ev.Message? ==> |s.At(x).given| < MAX_MESSAGES
    ensures var step, y := StepOf(x, acked, ev, order), x.Other();
      && Enabled(s, step)
      && var t := Next(s, step);
      && t.At(x).send == b.sender && t.At(x).recv == s.At(x).recv && t.At(y) == s.At(y)
      && a.socket <= b.socket && t.Inbox(y) == s.Inbox(y) + Departing(x, b.socket[|a.socket|..])
      && t.Inbox(x) == s.Inbox(x)
  {
    hide Outgoing, Departing, S.OnData, S.NextPacket, S.Restamp, S.PacketsAt, S.Overdue;
    var ps := Emitted(a.sender, acked, ev, order);
    OutgoingDeparts(x, ps);
    assert b.socket[|a.socket|..] == SerializeAll(ps);
    if ev.Message? && ev.message.AckMessage? {
      NothingDeparts(x);
      assert s.Inbox(x.Other()) + [] == s.Inbox(x.Other());
    }
  }

  lemma NothingDeparts(x: Side)
    ensures Departing(x, []) == [] && SerializeAll([]) == []
  {
  }

  /** One datagram received is one delivery. */
  lemma ArrivalIsStep(s: System, x: Side, i: nat, a: ReceiveState, b: ReceiveState)
    requires i < |s.Inbox(x)| && a.receiver == s.At(x).recv
    requires ReceiveStep(a, x.Other().Address(), s.Inbox(x)[i], b)
    ensures var step, y := Deliver(x, i), x.Other();
      && Enabled(s, step)
      && var t := Next(s, step);
      && t.At(x).recv == b.receiver && t.At(x).send == s.At(x).send && t.At(y) == s.At(y)
      && a.socket <= b.socket && t.Inbox(y) == s.Inbox(y) + Departing(x, b.socket[|a.socket|..])
      && t.Inbox(x) == Without(s.Inbox(x), i)
  {
    hide Outgoing, Departing, OnDatagram;
    var sent := OnDatagram(a.receiver, x.Other().Address(), s.Inbox(x)[i]).1;
    OutgoingDeparts(x, sent);
    assert b.socket[|a.socket|..] == SerializeAll(sent);
  }

  /** One queued number sent is one step of the ack task: the datagram carries that number. */
  lemma AckIsStep(s: System, x: Side)
    requires s.At(x).recv.acks != []
    ensures Enabled(s, SendAck(x))
    ensures var t, y, k := Next(s, SendAck(x)), x.Other(), s.At(x).recv.acks[0];
      && t.At(x).recv.acks == s.At(x).recv.acks[1..]
      && exists d :: t.Inbox(y) == s.Inbox(y) + [d] && d.src == x.Address()
          && Parse(d.data) == Some(Packet(Header(0, k), None))
  {
    var p := R.Ack(s.At(x).recv.acks[0]);
    OutgoingOne(x, p);
    ParseOfSerialize(p);
    var d := Datagram(x.Address(), Serialize(p));
    assert Next(s, SendAck(x)).Inbox(x.Other()) == s.Inbox(x.Other()) + [d];
  }

  /** A message submitted leaves with the acknowledged number that was read. */
  lemma SubmitCarries(s: System, x: Side, payload: bytes, ackRead: u32)
    requires SafetyInv(s) && Enabled(s, Submit(x, payload, ackRead)) && 8 + |payload| <= 65507
    ensures var t, y := Next(s, Submit(x, payload, ackRead)), x.Other();
      exists d :: t.Inbox(y) == s.Inbox(y) + [d] && d.src == x.Address()
        && d.data == Serialize(Packet(Header(|s.At(x).given| + 1, ackRead), Some(payload)))
  {
    hide InboxOk, ReceiverOk;
    assert DirectionOk(s, x);
    var p := Packet(Header(|s.At(x).given| + 1, ackRead), Some(payload));
    OutgoingOne(x, p);
    WireFormat(p);
    var d := Datagram(x.Address(), Serialize(p));
    assert Next(s, Submit(x, payload, ackRead)).Inbox(x.Other()) == s.Inbox(x.Other()) + [d];
  }
}

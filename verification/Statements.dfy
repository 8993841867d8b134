/** Both endpoints statement by statement. On each side the receive task, the send task and the ack
    task are interleaved at every access to the counters, the reorder buffer, the store, the channels
    and the socket, and the network acts between any two of them. */
module Statements {
  import opened Basics
  import opened Bags
  import opened Wire
  import opened SingleConnection
  import R = Receiver
  import S = Sender
  import P = Protocol
  import I = Interleaving

  /** The next statement of the send task. */
  datatype SendPc =
    | Waiting                                   // select!
    | LoadAck(payload: bytes)                   // receiver_acknowledged.load(), after next_seq.fetch_add(1)
    | Stamp(p: Packet)                          // Instant::now()
    | Insert(p: Packet, now: nat)               // unacked.insert(seq, ...)
    | Transmit(p: Packet)                       // send_to(&serialize(&p))
    | Visit(now: nat, order: seq<u32>, found: seq<Packet>)   // the entries iter_mut() has yet to visit
    | Resend(found: seq<Packet>)                // what is left of to_retransmit

  datatype Node = Node(
    recv: R.Receiver, recvPc: I.Pc,             // the receive task
    send: S.Sender, sendPc: SendPc,             // the send task
    popped: Option<u32>,                        // the ack task: an ack number taken but not yet sent
    given: seq<bytes>)

  const Fresh := Node(R.Fresh, I.Idle, S.Fresh, Waiting, None, [])

  datatype World = World(clock: nat, host: Node, peer: Node, toHost: seq<Datagram>, toPeer: seq<Datagram>)
  {
    function At(x: P.Side): Node { if x.Host? then host else peer }

    function Inbox(x: P.Side): seq<Datagram> { if x.Host? then toHost else toPeer }

    function With(x: P.Side, n: Node): World {
      if x.Host? then this.(host := n) else this.(peer := n)
    }

    function WithInbox(x: P.Side, q: seq<Datagram>): World {
      if x.Host? then this.(toHost := q) else this.(toPeer := q)
    }
  }

  const Init := World(0, Fresh, Fresh, [], [])

  datatype Step =
    | Arrive(side: P.Side, i: nat)              // recv_from; the packet is decoded and compared
    | Handle(side: P.Side)                      // the next statement of the receive task
    | Accept(side: P.Side, payload: bytes)      // rx.recv() and next_seq.fetch_add(1)
    | StartScan(side: P.Side, order: seq<u32>)       // check_retransmission: Instant::now(), unacked.iter_mut()
    | Proceed(side: P.Side)                     // the next statement of the send task
    | Pop(side: P.Side)                         // the ack task: ack_rx.recv()
    | Answer(side: P.Side)                      // the ack task: send_to
    | Lose(side: P.Side, i: nat)
    | Duplicate(side: P.Side, i: nat)
    | Stray(side: P.Side, d: Datagram)
    | Elapse(dt: nat)

  /** What a datagram makes the receive task do next. */
  function Compare(r: R.Receiver, peer: Addr, d: Datagram): I.Pc {
    if d.src != peer then I.Idle
    else match Parse(d.data)
      case None => I.Idle
      case Some(p) => I.Dispatch(r, p)
  }

  /** The receive task as Interleaving sees it, with nothing sent so far. */
  function Handler(n: Node): I.State {
    I.State(n.recv, n.recvPc, [], [], [])
  }

  /** The receive task's next statement, and what it puts on the socket. */
  function Handled(n: Node): (Node, seq<Packet>)
    requires !n.recvPc.Idle?
  {
    var t := I.Advanced(Handler(n));
    (n.(recv := t.recv, recvPc := t.pc), t.wire)
  }

  /** The send task's next statement, and what it puts on the socket. */
  function Proceeded(n: Node, clock: nat): (Node, seq<Packet>) {
    match n.sendPc
    case Waiting => (n, [])
    case LoadAck(payload) =>
      (n.(sendPc := Stamp(Packet(Header(n.send.nextSeq, n.recv.acked), Some(payload)))), [])
    case Stamp(p) => (n.(sendPc := Insert(p, clock)), [])
    case Insert(p, now) =>
      (n.(send := n.send.(unacked := n.send.unacked[p.SeqNum() := S.SentPacket(p, now)]), sendPc := Transmit(p)), [])
    case Transmit(p) => (n.(sendPc := Waiting), [p])
    case Visit(now, order, found) =>
      if order == [] then (n.(sendPc := Resend(found)), [])
      else
        var k, u := order[0], n.send.unacked;
        if k in u && S.IsOverdue(u[k], now) then
          (n.(send := n.send.(unacked := u[k := u[k].(timeSent := now)]),
              sendPc := Visit(now, order[1..], found + [u[k].packet])), [])
        else (n.(sendPc := Visit(now, order[1..], found)), [])
    case Resend(found) =>
      if found == [] then (n.(sendPc := Waiting), [])
      else (n.(sendPc := Resend(found[1..])), [found[0]])
  }

  ghost predicate Enabled(c: World, step: Step) {
    match step
    case Arrive(x, i) => i < |c.Inbox(x)| && c.At(x).recvPc.Idle?
    case Handle(x) => !c.At(x).recvPc.Idle?
    case Accept(x, _) => c.At(x).sendPc.Waiting? && |c.At(x).given| < P.MAX_MESSAGES
    case StartScan(x, order) => c.At(x).sendPc.Waiting? && S.Lists(order, c.At(x).send.unacked.Keys)
    case Proceed(x) => !c.At(x).sendPc.Waiting?
    case Pop(x) => c.At(x).popped.None? && c.At(x).recv.acks != []
    case Answer(x) => c.At(x).popped.Some?
    case Lose(x, i) => i < |c.Inbox(x)|
    case Duplicate(x, i) => i < |c.Inbox(x)|
    case Stray(x, d) => d.src != x.Other().Address()
    case Elapse(_) => true
  }

  /** `x` becomes `n` and puts `ps` on the wire. */
  function Acts(c: World, x: P.Side, n: Node, ps: seq<Packet>): World {
    c.With(x, n).WithInbox(x.Other(), c.Inbox(x.Other()) + P.Outgoing(x, ps))
  }

  function Next(c: World, step: Step): World
    requires Enabled(c, step)
  {
    match step
    case Arrive(x, i) =>
      var n := c.At(x);
      c.WithInbox(x, Without(c.Inbox(x), i))
       .With(x, n.(recvPc := Compare(n.recv, x.Other().Address(), c.Inbox(x)[i])))
    case Handle(x) =>
      var (n, sent) := Handled(c.At(x));
      Acts(c, x, n, sent)
    case Accept(x, payload) => c.With(x, Accepted(c.At(x), payload))
    case StartScan(x, order) => c.With(x, c.At(x).(sendPc := Visit(c.clock, order, [])))
    case Proceed(x) =>
      var (n, sent) := Proceeded(c.At(x), c.clock);
      Acts(c, x, n, sent)
    case Pop(x) => c.With(x, Popped(c.At(x)))
    case Answer(x) =>
      var n := c.At(x);
      Acts(c, x, n.(popped := None), [R.Ack(n.popped.value)])
    case Lose(x, i) => c.WithInbox(x, Without(c.Inbox(x), i))
    case Duplicate(x, i) => c.WithInbox(x, c.Inbox(x) + [c.Inbox(x)[i]])
    case Stray(x, d) => c.WithInbox(x, c.Inbox(x) + [d])
    case Elapse(dt) => c.(clock := c.clock + dt)
  }

  function Accepted(n: Node, payload: bytes): Node {
    n.(send := n.send.(nextSeq := Inc(n.send.nextSeq)), sendPc := LoadAck(payload), given := n.given + [payload])
  }

  function Popped(n: Node): Node
    requires n.recv.acks != []
  {
    n.(recv := n.recv.(acks := n.recv.acks[1..]), popped := Some(n.recv.acks[0]))
  }

  ghost predicate Valid(c: World, steps: seq<Step>)
    decreases |steps|
  {
    steps == [] || (Enabled(c, steps[0]) && Valid(Next(c, steps[0]), steps[1..]))
  }

  ghost function Run(c: World, steps: seq<Step>): World
    requires Valid(c, steps)
    decreases |steps|
  {
    if steps == [] then c else Run(Next(c, steps[0]), steps[1..])
  }
}

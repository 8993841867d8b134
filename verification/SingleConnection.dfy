/** The objects of one connection. Shared state lives in one object that the receive task and the
    send task both hold; each task's loop is proved against the value-level handlers. The socket,
    the output channel and the ack channel are logs of what was handed to them. */
module SingleConnection {
  import opened Basics
  import opened Wire
  import R = Receiver
  import S = Sender

  datatype Datagram = Datagram(src: Addr, data: bytes)

  /** One datagram as recv_from returns it: strangers and undecodable buffers are ignored. */
  function OnDatagram(r: R.Receiver, peer: Addr, d: Datagram): (R.Receiver, seq<Packet>) {
    if d.src != peer then (r, [])
    else match Parse(d.data)
      case None => (r, [])
      case Some(p) => R.OnPacket(r, p)
  }

  function SerializeAll(ps: seq<Packet>): (bufs: seq<bytes>)
    ensures |bufs| == |ps| && forall i | 0 <= i < |ps| :: bufs[i] == Serialize(ps[i])
  {
    if ps == [] then [] else SerializeAll(ps[..|ps| - 1]) + [Serialize(ps[|ps| - 1])]
  }

  class SharedState {
    // receiver state
    var expectedSequence: u32
    var receiverAcknowledged: u32
    var recvBuffer: map<u32, Packet>
    // sender state
    var nextSeq: u32
    var unacked: S.Unacked

    constructor ()
      ensures expectedSequence == receiverAcknowledged == nextSeq == 0
      ensures recvBuffer == map[] && unacked == map[]
    {
      expectedSequence, receiverAcknowledged, nextSeq := 0, 0, 0;
      recvBuffer, unacked := map[], map[];
    }
  }

  class ReliableOneWayUDP {
    const state: SharedState
    var output: seq<Packet>
    var ackQueue: seq<u32>
    var socket: seq<bytes>

    constructor (state: SharedState)
      ensures this.state == state && output == [] && ackQueue == [] && socket == []
    {
      this.state := state;
      output, ackQueue, socket := [], [], [];
    }

    ghost function View(): R.Receiver
      reads this, state
    {
      R.Receiver(state.expectedSequence, state.receiverAcknowledged, state.recvBuffer, output, ackQueue)
    }

    /** The body of the receive loop for one decoded packet. In order, it is passed on and its own
        number queued; early, it is stored and answered at once with receiver_acknowledged; late and
        without payload, the number it acknowledges is queued; late with payload, it is ignored. */
    method Handle(packet: Packet)
      modifies this, state
      ensures View() == R.OnPacket(old(View()), packet).0
      ensures socket == old(socket) + SerializeAll(R.OnPacket(old(View()), packet).1)
      ensures state.nextSeq == old(state.nextSeq) && state.unacked == old(state.unacked)
      ensures packet.header.seqNum == old(state.expectedSequence) ==>
        && old(output) + [packet] <= output && socket == old(socket)
        && ackQueue == old(ackQueue) + [packet.header.seqNum]
      ensures packet.header.seqNum > old(state.expectedSequence) ==>
        && Answered(old(socket), socket, old(state.receiverAcknowledged))
        && state.recvBuffer == old(state.recvBuffer)[packet.header.seqNum := packet]
        && output == old(output) && ackQueue == old(ackQueue)
      ensures packet.header.seqNum < old(state.expectedSequence) ==>
        && output == old(output) && socket == old(socket) && state.recvBuffer == old(state.recvBuffer)
        && ackQueue == old(ackQueue)
             + if packet.payload.None? || packet.payload == Some([]) then [packet.header.ack] else []
    {
      var packetSeq := packet.SeqNum();
      var expected := state.expectedSequence;
      if packetSeq == expected {
        output := output + [packet];
        state.expectedSequence := Inc(state.expectedSequence);
        state.receiverAcknowledged := packetSeq;
        ackQueue := ackQueue + [packetSeq];
        var nextExpected := Inc(packetSeq);
        while nextExpected in state.recvBuffer
          invariant R.Drain(View(), nextExpected) == R.OnPacket(old(View()), packet).0
          invariant socket == old(socket)
          invariant old(output) + [packet] <= output && ackQueue == old(ackQueue) + [packetSeq]
          invariant state.nextSeq == old(state.nextSeq) && state.unacked == old(state.unacked)
          decreases |state.recvBuffer|
        {
          R.ReleaseShrinks(View(), nextExpected);
          var p := state.recvBuffer[nextExpected];
          state.recvBuffer := state.recvBuffer - {nextExpected};
          state.receiverAcknowledged := Inc(state.receiverAcknowledged);
          state.expectedSequence := Inc(state.expectedSequence);
          output := output + [p];
          nextExpected := Inc(nextExpected);
        }
      } else if packetSeq > expected {
        state.recvBuffer := state.recvBuffer[packetSeq := packet];
        var ackPacket := Packet(Header(0, state.receiverAcknowledged), None);
        var buf := SerializeInto(ackPacket);
        socket := socket + [buf];
        ParseOfSerialize(ackPacket);
        assert SerializeAll([ackPacket]) == [buf];
      } else if packet.payload.None? || |packet.payload.value| == 0 {
        ackQueue := ackQueue + [packet.header.ack];
      }
    }

    ghost function Snapshot(): ReceiveState
      reads this, state
    {
      ReceiveState(View(), socket)
    }

    /** The receive task over the datagrams that reach the socket: `trace` holds its states in
        between, and each datagram takes it from one to the next. */
    method Recv(peerAddr: Addr, arrivals: seq<Datagram>) returns (ghost trace: seq<ReceiveState>)
      modifies this, state
      ensures |trace| == |arrivals| + 1
      ensures trace[0] == old(Snapshot()) && trace[|arrivals|] == Snapshot()
      ensures forall i | 0 <= i < |arrivals| :: ReceiveStep(trace[i], peerAddr, arrivals[i], trace[i + 1])
      ensures state.nextSeq == old(state.nextSeq) && state.unacked == old(state.unacked)
    {
      trace := [Snapshot()];
      for n := 0 to |arrivals|
        invariant |trace| == n + 1 && trace[0] == old(Snapshot()) && trace[n] == Snapshot()
        invariant forall i | 0 <= i < n :: ReceiveStep(trace[i], peerAddr, arrivals[i], trace[i + 1])
        invariant state.nextSeq == old(state.nextSeq) && state.unacked == old(state.unacked)
      {
        var d := arrivals[n];
        if d.src == peerAddr {
          match Parse(d.data)
          case None =>
          case Some(packet) => Handle(packet);
        }
        assert socket == trace[n].socket + SerializeAll(OnDatagram(trace[n].receiver, peerAddr, d).1);
        trace := trace + [Snapshot()];
      }
    }
  }

  /** One datagram was added to the socket's log: an ack of `acked`. */
  predicate Answered(before: seq<bytes>, after: seq<bytes>, acked: u32) {
    && |after| == |before| + 1 && before <= after
    && Parse(after[|before|]) == Some(Packet(Header(0, acked), None))
  }

  /** The receive task at rest, and everything it has put on the socket. */
  datatype ReceiveState = ReceiveState(receiver: R.Receiver, socket: seq<bytes>)

  /** One arriving datagram takes the receive task from `a` to `b`. */
  predicate ReceiveStep(a: ReceiveState, peer: Addr, d: Datagram, b: ReceiveState) {
    && b.receiver == OnDatagram(a.receiver, peer, d).0
    && b.socket == a.socket + SerializeAll(OnDatagram(a.receiver, peer, d).1)
  }

  /** The packets among the arrivals that come from the peer and can be decoded. */
  function FromPeer(peer: Addr, arrivals: seq<Datagram>): seq<Packet> {
    if arrivals == [] then []
    else
      var d := arrivals[|arrivals| - 1];
      FromPeer(peer, arrivals[..|arrivals| - 1]) +
      if d.src == peer && |d.data| >= 8 then [Parse(d.data).value] else []
  }

  /** A chain of receive steps handles exactly the packets from the peer, in order: strangers and short
      buffers in between do not matter. */
  lemma {:induction false} ReceivesFromPeer(trace: seq<ReceiveState>, peer: Addr, arrivals: seq<Datagram>)
    requires |trace| == |arrivals| + 1
    requires forall i | 0 <= i < |arrivals| :: ReceiveStep(trace[i], peer, arrivals[i], trace[i + 1])
    ensures trace[|arrivals|].receiver == R.OnPackets(trace[0].receiver, FromPeer(peer, arrivals))
  {
    hide OnDatagram, R.OnPacket, R.OnPackets, Parse;
    if arrivals == [] {
      NoPackets(trace[0].receiver);
    } else {
      var n := |arrivals| - 1;
      var front, d := arrivals[..n], arrivals[n];
      ReceivesFromPeer(trace[..n + 1], peer, front);
      assert ReceiveStep(trace[n], peer, d, trace[n + 1]);
      OneFromPeer(R.OnPackets(trace[0].receiver, FromPeer(peer, front)), peer, d);
      OnPacketsMore(trace[0].receiver, FromPeer(peer, front), d, peer);
    }
  }

  lemma NoPackets(r: R.Receiver)
    ensures R.OnPackets(r, []) == r
  {
  }

  lemma OneFromPeer(r: R.Receiver, peer: Addr, d: Datagram)
    ensures OnDatagram(r, peer, d).0
      == if d.src == peer && |d.data| >= 8 then R.OnPacket(r, Parse(d.data).value).0 else r
  {
    hide R.OnPacket;
    DecodeThenEncode(Clip(d.data));
  }

  lemma OnPacketsMore(r: R.Receiver, ps: seq<Packet>, d: Datagram, peer: Addr)
    ensures var more := if d.src == peer && |d.data| >= 8 then [Parse(d.data).value] else [];
      R.OnPackets(r, ps + more) == if more == [] then R.OnPackets(r, ps) else R.OnPacket(R.OnPackets(r, ps), more[0]).0
  {
    hide R.OnPacket;
    if d.src == peer && |d.data| >= 8 {
      assert (ps + [Parse(d.data).value])[..|ps|] == ps;
    } else {
      assert ps + [] == ps;
    }
  }

  datatype PacketType = AckMessage(ack: u32) | Data(payload: bytes)

  /** What wakes the send task: a message from the application, or the retransmission tick. */
  datatype SendEvent = Message(message: PacketType, now: nat) | Tick(now: nat)

  function OnEvent(s: S.Sender, acked: u32, ev: SendEvent): S.Sender {
    match ev
    case Message(AckMessage(_), _) => s
    case Message(Data(payload), now) => S.OnData(s, payload, acked, now)
    case Tick(now) => s.(unacked := S.Restamp(s.unacked, now))
  }

  /** `order` is the order in which a scan visits the overdue entries: any order will do. */
  ghost predicate ScanOrder(s: S.Sender, ev: SendEvent, order: seq<u32>) {
    ev.Tick? ==> S.Lists(order, S.Overdue(s.unacked, ev.now))
  }

  /** The packets one event puts on the wire. */
  ghost function Emitted(s: S.Sender, acked: u32, ev: SendEvent, order: seq<u32>): seq<Packet>
    requires ScanOrder(s, ev, order)
  {
    match ev
    case Message(AckMessage(_), _) => []
    case Message(Data(payload), _) => [S.NextPacket(s, payload, acked)]
    case Tick(now) => S.PacketsAt(s.unacked, order)
  }

  /** The send task at rest: its store, and everything it has put on the socket. */
  datatype SendState = SendState(sender: S.Sender, socket: seq<bytes>)

  /** One event takes the send task from `a` to `b`. */
  ghost predicate SendStep(a: SendState, acked: u32, ev: SendEvent, order: seq<u32>, b: SendState) {
    && ScanOrder(a.sender, ev, order)
    && b.sender == OnEvent(a.sender, acked, ev)
    && b.socket == a.socket + SerializeAll(Emitted(a.sender, acked, ev, order))
  }

  class ReliableOneWayUDPHandle {
    const state: SharedState
    var socket: seq<bytes>

    constructor (state: SharedState)
      ensures this.state == state && socket == []
    {
      this.state := state;
      socket := [];
    }

    ghost function View(): S.Sender
      reads this, state
    {
      S.Sender(state.nextSeq, state.unacked)
    }

    /** Stamp the overdue entries and collect their packets, in whatever order the store is visited. */
    method CollectOverdue(now: nat) returns (toRetransmit: seq<Packet>, ghost order: seq<u32>)
      modifies state`unacked
      ensures state.unacked == S.Restamp(old(state.unacked), now)
      ensures S.Lists(order, S.Overdue(old(state.unacked), now))
      ensures toRetransmit == S.PacketsAt(old(state.unacked), order)
    {
      ghost var stored := state.unacked;
      toRetransmit, order := [], [];
      var rest := state.unacked.Keys;
      while rest != {}
        invariant rest <= stored.Keys
        invariant S.HalfScanned(stored, state.unacked, rest, now)
        invariant S.Lists(order, S.Overdue(stored, now) - rest)
        invariant toRetransmit == S.PacketsAt(stored, order)
        decreases rest
      {
        var k :| k in rest;
        S.ScanOne(stored, state.unacked, rest, now, order, k);
        rest := rest - {k};
        var entry := state.unacked[k];
        if S.Since(now, entry.timeSent) > S.TIMEOUT {
          state.unacked := state.unacked[k := entry.(timeSent := now)];
          toRetransmit := toRetransmit + [entry.packet];
          order := order + [k];
        }
      }
      assert state.unacked == S.Restamp(stored, now);
    }

    method Transmit(packets: seq<Packet>)
      modifies this`socket
      ensures socket == old(socket) + SerializeAll(packets)
      ensures |socket| == |old(socket)| + |packets|
      ensures forall i | 0 <= i < |packets| :: socket[|old(socket)| + i] == Serialize(packets[i])
    {
      for i := 0 to |packets|
        invariant socket == old(socket) + SerializeAll(packets[..i])
      {
        var buf := SerializeInto(packets[i]);
        socket := socket + [buf];
        assert packets[..i + 1][..i] == packets[..i];
      }
      assert packets[..|packets|] == packets;
    }

    /** One scan: exactly the packets last sent more than 2000 ms ago are sent, each once and
        unchanged, and exactly their time stamps change. */
    method CheckRetransmission(now: nat) returns (ghost order: seq<u32>)
      modifies this`socket, state`unacked
      ensures View() == OnEvent(old(View()), state.receiverAcknowledged, Tick(now))
      ensures ScanOrder(old(View()), Tick(now), order)
      ensures socket == old(socket) +
        SerializeAll(Emitted(old(View()), state.receiverAcknowledged, Tick(now), order))
      ensures forall k ::
        k in order <==> k in old(state.unacked) && now > old(state.unacked)[k].timeSent + 2_000_000_000
      ensures forall i, j | 0 <= i < j < |order| :: order[i] != order[j]
      ensures |socket| == |old(socket)| + |order| && old(socket) <= socket
      ensures forall i | 0 <= i < |order| ::
        order[i] in old(state.unacked) && socket[|old(socket)| + i] == Serialize(old(state.unacked)[order[i]].packet)
      ensures forall k :: k in state.unacked <==> k in old(state.unacked)
      ensures forall k | k in state.unacked ::
        && state.unacked[k].packet == old(state.unacked)[k].packet
        && state.unacked[k].timeSent == if k in order then now else old(state.unacked)[k].timeSent
    {
      var toRetransmit;
      toRetransmit, order := CollectOverdue(now);
      assert forall i | 0 <= i < |order| :: order[i] in order;
      Transmit(toRetransmit);
    }

    /** One message from the application: data gets the next number and the acknowledged number of
        this moment, is stored and sent; an Ack message does nothing. */
    method SendMessage(message: PacketType, now: nat)
      modifies this`socket, state`nextSeq, state`unacked
      ensures View() == OnEvent(old(View()), state.receiverAcknowledged, Message(message, now))
      ensures socket == old(socket) +
        SerializeAll(Emitted(old(View()), state.receiverAcknowledged, Message(message, now), []))
      ensures message.AckMessage? ==> socket == old(socket) && View() == old(View())
      ensures message.Data? && old(state.nextSeq) + 1 < 0x1_0000_0000 ==>
        var k: u32 := old(state.nextSeq) + 1;
        var p := Packet(Header(k, state.receiverAcknowledged), Some(message.payload));
        && state.nextSeq == k && state.unacked == old(state.unacked)[k := S.SentPacket(p, now)]
        && socket == old(socket) + [Serialize(p)]
    {
      match message
      case AckMessage(_) =>
      case Data(payload) =>
        state.nextSeq := Inc(state.nextSeq);
        var seqNum := state.nextSeq;
        var p := Packet(Header(seqNum, state.receiverAcknowledged), Some(payload));
        state.unacked := state.unacked[seqNum := S.SentPacket(p, now)];
        var buf := SerializeInto(p);
        socket := socket + [buf];
        assert SerializeAll([p]) == [buf];
    }

    ghost function Snapshot(): SendState
      reads this, state
    {
      SendState(View(), socket)
    }

    method Wake(event: SendEvent) returns (ghost order: seq<u32>)
      modifies this`socket, state`nextSeq, state`unacked
      ensures SendStep(old(Snapshot()), state.receiverAcknowledged, event, order, Snapshot())
    {
      match event
      case Message(message, now) => order := []; SendMessage(message, now);
      case Tick(now) => order := CheckRetransmission(now);
    }

    /** The send task over the events that wake it, while the receive task moves its counter: when
        event i is handled receiver_acknowledged stands at `acked[i]`. `trace` holds the send task's
        states in between. */
    method Send(events: seq<SendEvent>, acked: seq<u32>)
      returns (ghost trace: seq<SendState>, ghost orders: seq<seq<u32>>)
      requires |acked| == |events|
      modifies this`socket, state`nextSeq, state`unacked, state`receiverAcknowledged
      ensures |orders| == |events| && |trace| == |events| + 1
      ensures trace[0] == old(Snapshot()) && trace[|events|] == Snapshot()
      ensures forall i | 0 <= i < |events| :: SendStep(trace[i], acked[i], events[i], orders[i], trace[i + 1])
    {
      trace, orders := [Snapshot()], [];
      for n := 0 to |events|
        invariant |orders| == n && |trace| == n + 1
        invariant trace[0] == old(Snapshot()) && trace[n] == Snapshot()
        invariant forall i | 0 <= i < n :: SendStep(trace[i], acked[i], events[i], orders[i], trace[i + 1])
      {
        Interference(acked[n]);
        ghost var order := Wake(events[n]);
        trace, orders := trace + [Snapshot()], orders + [order];
      }
    }

    /** The receive task runs: it changes none of what the send task owns. */
    method Interference(acked: u32)
      modifies state`receiverAcknowledged
      ensures state.receiverAcknowledged == acked && Snapshot() == old(Snapshot())
    {
      state.receiverAcknowledged := acked;
    }

    /** The ack task: every queued number leaves as one payload-less packet with number 0. */
    static method PeriodicAcks(ackRx: seq<u32>) returns (socket: seq<bytes>)
      ensures |socket| == |ackRx|
      ensures forall i | 0 <= i < |ackRx| :: Parse(socket[i]) == Some(Packet(Header(0, ackRx[i]), None))
      ensures forall i | 0 <= i < |ackRx| :: socket[i] == Serialize(R.Ack(ackRx[i]))
    {
      socket := [];
      for i := 0 to |ackRx|
        invariant |socket| == i
        invariant forall j | 0 <= j < i ::
          socket[j] == Serialize(R.Ack(ackRx[j])) && Parse(socket[j]) == Some(Packet(Header(0, ackRx[j]), None))
      {
        var ackPacket := Packet(Header(0, ackRx[i]), None);
        var buf := SerializeInto(ackPacket);
        ParseOfSerialize(ackPacket);
        socket := socket + [buf];
      }
    }
  }
}

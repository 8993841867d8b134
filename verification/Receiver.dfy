/** The receive side of one endpoint as a value: what one datagram does to the reorder buffer, the
    two counters, the output channel and the ack queue, and what that amounts to over any history
    of arrivals. Every output and every queued ack carries the configured peer's address, so the
    address is not stored. */
module Receiver {
  import opened Basics
  import opened Wire

  datatype Receiver = Receiver(
    expected: u32,                // expected_sequence
    acked: u32,                   // receiver_acknowledged
    buffer: map<u32, Packet>,     // recv_buffer
    output: seq<Packet>,          // everything sent down output_tx so far
    acks: seq<u32>)               // ack numbers waiting in the ack channel

  const Fresh := Receiver(0, 0, map[], [], [])

  /** An ack packet is numbered 0, carries the number acknowledged, and nothing else. */
  function Ack(ack: u32): (p: Packet)
    ensures p.header.seqNum == 0 && p.header.ack == ack && p.payload.None?
  {
    Packet(Header(0, ack), None)
  }

  /** Hand over the packet buffered for slot `next`. */
  function Release(r: Receiver, next: u32): Receiver
    requires next in r.buffer
  {
    r.(acked := Inc(r.acked),
       expected := Inc(r.expected),
       output := r.output + [r.buffer[next]],
       buffer := r.buffer - {next})
  }

  lemma ReleaseShrinks(r: Receiver, next: u32)
    requires next in r.buffer
    ensures |Release(r, next).buffer| < |r.buffer|
  {
    assert Release(r, next).buffer.Keys == r.buffer.Keys - {next};
  }

  /** The drain loop: release buffered packets as long as the next slot is filled. */
  function Drain(r: Receiver, next: u32): Receiver
    decreases |r.buffer|
  {
    if next in r.buffer then
      ReleaseShrinks(r, next);
      Drain(Release(r, next), Inc(next))
    else r
  }

  /** The state right before the drain loop, after an in-order packet was passed on. */
  function PassOn(r: Receiver, p: Packet): Receiver {
    r.(output := r.output + [p],
       expected := Inc(r.expected),
       acked := p.SeqNum(),
       acks := r.acks + [p.SeqNum()])
  }

  /** One packet from the peer: the new state and the packets put on the socket at once. */
  function OnPacket(r: Receiver, p: Packet): (Receiver, seq<Packet>) {
    if p.SeqNum() == r.expected then
      (Drain(PassOn(r, p), Inc(p.SeqNum())), [])
    else if p.SeqNum() > r.expected then
      (r.(buffer := r.buffer[p.SeqNum() := p]), [Ack(r.acked)])
    else if p.IsEmpty() then
      (r.(acks := r.acks + [p.header.ack]), [])
    else
      (r, [])
  }

  function OnPackets(r: Receiver, ps: seq<Packet>): Receiver {
    if ps == [] then r else OnPacket(OnPackets(r, ps[..|ps| - 1]), ps[|ps| - 1]).0
  }

  // ---- the drain loop in closed form

  ghost predicate Drained(r: Receiver, d: Receiver) {
    && r.expected <= d.expected
    && (forall k: u32 | r.expected <= k < d.expected :: k in r.buffer)
    && d.expected !in r.buffer
    && (forall k :: k in d.buffer <==> k in r.buffer && !(r.expected <= k < d.expected))
    && (forall k | k in d.buffer :: d.buffer[k] == r.buffer[k])
    && |d.output| == d.expected
    && r.output <= d.output
    && (forall k: u32 | r.expected <= k < d.expected :: d.output[k] == r.buffer[k])
    && d.acked == r.acked + (d.expected - r.expected)
    && d.acks == r.acks
  }

  lemma DrainedAfterRelease(r: Receiver, d: Receiver)
    requires r.expected in r.buffer && r.expected + 1 < U32_LIMIT && r.acked <= r.expected
    requires |r.output| == r.expected
    requires Drained(Release(r, r.expected), d)
    ensures Drained(r, d)
  {
    var r', e := Release(r, r.expected), r.expected;
    assert d.output[e] == r'.output[e];
    forall k: u32 | e <= k < d.expected ensures k in r.buffer && d.output[k] == r.buffer[k] {
      assert k != e ==> k in r'.buffer;
    }
  }

  /** Draining releases exactly the consecutive run that starts at the expected slot, as long as
      there is a slot `gap` at which it must stop. */
  lemma {:induction false} DrainClosedForm(r: Receiver, gap: u32)
    requires r.acked <= r.expected <= gap
    requires |r.output| == r.expected
    requires gap !in r.buffer
    ensures Drained(r, Drain(r, r.expected))
    decreases |r.buffer|
  {
    if r.expected in r.buffer {
      ReleaseShrinks(r, r.expected);
      DrainClosedForm(Release(r, r.expected), gap);
      DrainedAfterRelease(r, Drain(r, r.expected));
    }
  }

  /** Draining queues no acks. */
  lemma {:induction false} DrainKeepsAcks(r: Receiver, next: u32)
    ensures Drain(r, next).acks == r.acks
    decreases |r.buffer|
  {
    if next in r.buffer {
      ReleaseShrinks(r, next);
      DrainKeepsAcks(Release(r, next), Inc(next));
    }
  }

  /** Draining does not look at the queued acks. */
  lemma {:induction false} DrainWithAcks(r: Receiver, next: u32, acks: seq<u32>)
    ensures Drain(r.(acks := acks), next) == Drain(r, next).(acks := acks)
    decreases |r.buffer|
  {
    if next in r.buffer {
      ReleaseShrinks(r, next);
      DrainWithAcks(Release(r, next), Inc(next), acks);
    }
  }

  /** Which acks one packet queues, and what it is answered with at once: in order its own number is
      queued, early the last number acknowledged is answered, and a late packet without payload has
      its ack number queued. */
  lemma PacketAcks(r: Receiver, p: Packet)
    ensures var (r', sent) := OnPacket(r, p);
      && r'.acks == r.acks + (if p.header.seqNum == r.expected then [p.header.seqNum]
                              else if p.header.seqNum < r.expected && p.IsEmpty() then [p.header.ack] else [])
      && sent == if p.header.seqNum > r.expected then [Packet(Header(0, r.acked), None)] else []
  {
    DrainKeepsAcks(PassOn(r, p), Inc(p.SeqNum()));
  }

  // ---- the set-based specification

  /** The first arrival for every slot that ever arrived. */
  function Arrivals(h: seq<Packet>): map<u32, Packet> {
    if h == [] then map[]
    else
      var (m, p) := (Arrivals(h[..|h| - 1]), h[|h| - 1]);
      if p.SeqNum() in m then m else m[p.SeqNum() := p]
  }

  lemma {:induction false} ArrivalsAreTheHistory(h: seq<Packet>)
    ensures forall p | p in h :: p.SeqNum() in Arrivals(h)
    ensures forall k | k in Arrivals(h) :: Arrivals(h)[k] in h && Arrivals(h)[k].SeqNum() == k
  {
    if h == [] {
    } else {
      var front, p := h[..|h| - 1], h[|h| - 1];
      ArrivalsAreTheHistory(front);
      assert h == front + [p];
    }
  }

  /** Each slot from 1 on has one fixed content. */
  ghost predicate Consistent(h: seq<Packet>) {
    forall p, q | p in h && q in h && p.SeqNum() == q.SeqNum() >= 1 :: p == q
  }

  /** Some sequence number never arrived: all 2^32 of them would wrap the counters. */
  ghost predicate NoWrap(m: map<u32, Packet>) {
    exists k: u32 :: k !in m
  }

  /** What a receiver must look like when the first arrivals are `m`, whatever their order. */
  ghost predicate Reflects(r: Receiver, m: map<u32, Packet>) {
    // expected_sequence is the least number that never arrived
    && r.expected !in m
    && (forall k: u32 | k < r.expected :: k in m)
    // the output is every packet below it, in order
    && |r.output| == r.expected
    && (forall k: u32 | k < r.expected :: r.output[k] == m[k])
    // the reorder buffer is every packet above it
    && (forall k :: k in r.buffer <==> k in m && k > r.expected)
    && (forall k | k in r.buffer :: r.buffer[k] == m[k])
    && r.acked == if r.expected == 0 then 0 else r.expected - 1
  }

  lemma DrainedReflects(r: Receiver, m: map<u32, Packet>, p: Packet, d: Receiver)
    requires Reflects(r, m) && p.SeqNum() == r.expected && r.expected + 1 < U32_LIMIT
    requires Drained(PassOn(r, p), d)
    ensures Reflects(d, m[p.SeqNum() := p])
  {
    var passed, m' := PassOn(r, p), m[p.SeqNum() := p];
    forall k: u32 | k < d.expected ensures k in m' && d.output[k] == m'[k] {
      if k < passed.expected {
        assert d.output[k] == passed.output[k];
      } else {
        assert k in passed.buffer;
      }
    }
  }

  lemma InOrderReflects(r: Receiver, m: map<u32, Packet>, p: Packet)
    requires Reflects(r, m) && NoWrap(m[p.SeqNum() := p])
    requires p.SeqNum() == r.expected
    ensures Reflects(OnPacket(r, p).0, m[p.SeqNum() := p])
  {
    var gap: u32 :| gap !in m[p.SeqNum() := p];
    assert r.expected < gap;
    DrainClosedForm(PassOn(r, p), gap);
    DrainedReflects(r, m, p, OnPacket(r, p).0);
  }

  lemma StepReflects(r: Receiver, m: map<u32, Packet>, p: Packet)
    requires Reflects(r, m) && NoWrap(m[p.SeqNum() := p])
    requires p.SeqNum() >= 1 && p.SeqNum() in m ==> m[p.SeqNum()] == p
    ensures Reflects(OnPacket(r, p).0, if p.SeqNum() in m then m else m[p.SeqNum() := p])
  {
    if p.SeqNum() == r.expected {
      InOrderReflects(r, m, p);
    }
  }

  /** Over any sequence of arrivals the receiver is exactly the set-based specification, unless
      every one of the 2^32 sequence numbers has arrived. */
  lemma {:induction false} ReceiverRefinesSet(h: seq<Packet>)
    requires Consistent(h)
    ensures Reflects(OnPackets(Fresh, h), Arrivals(h)) <==> NoWrap(Arrivals(h))
  {
    if h != [] && NoWrap(Arrivals(h)) {
      var front, p := h[..|h| - 1], h[|h| - 1];
      assert h == front + [p];
      var gap: u32 :| gap !in Arrivals(h);
      assert gap !in Arrivals(front)[p.SeqNum() := p];
      ReceiverRefinesSet(front);
      ArrivalsAreTheHistory(front);
      StepReflects(OnPackets(Fresh, front), Arrivals(front), p);
    }
  }

  // ---- order and repetition of the arrivals do not matter

  function Payloads(ps: seq<Packet>): seq<bytes> {
    if ps == [] then []
    else Payloads(ps[..|ps| - 1]) +
         (var last := ps[|ps| - 1].payload; if last.Some? then [last.value] else [])
  }

  lemma PayloadsAgree(a: seq<Packet>, b: seq<Packet>)
    requires |a| == |b|
    requires forall i | 0 <= i < |a| :: a[i].payload == b[i].payload
    ensures Payloads(a) == Payloads(b)
  {
    if a != [] {
      PayloadsAgree(a[..|a| - 1], b[..|b| - 1]);
    }
  }

  /** What counts of a packet: everything, except that the ack number does not for slot 0. */
  function Essence(p: Packet): Packet {
    if p.SeqNum() == 0 then p.(header := Header(0, 0)) else p
  }

  function Essences(h: seq<Packet>): set<Packet> {
    set p | p in h :: Essence(p)
  }

  /** Histories with the same packets for slots 1.. and the same single payload for slot 0. */
  ghost predicate SameArrivals(h1: seq<Packet>, h2: seq<Packet>) {
    && Essences(h1) == Essences(h2)
    && (forall p, q | p in h1 && q in h2 && p.SeqNum() == q.SeqNum() == 0 :: p.payload == q.payload)
  }

  ghost predicate AlikeMaps(m1: map<u32, Packet>, m2: map<u32, Packet>) {
    && m1.Keys == m2.Keys
    && (forall k | k in m1 :: Essence(m1[k]) == Essence(m2[k]))
    && (forall k | k in m1 :: m1[k].SeqNum() == k)
  }

  lemma FirstArrivalMatches(h1: seq<Packet>, h2: seq<Packet>, k: u32)
    requires Consistent(h2) && SameArrivals(h1, h2) && k in Arrivals(h1)
    ensures k in Arrivals(h2) && Essence(Arrivals(h1)[k]) == Essence(Arrivals(h2)[k])
    ensures Arrivals(h1)[k].SeqNum() == k
  {
    ArrivalsAreTheHistory(h1);
    ArrivalsAreTheHistory(h2);
    var p := Arrivals(h1)[k];
    assert Essence(p) in Essences(h2);
    var q :| q in h2 && Essence(q) == Essence(p);
    assert q.SeqNum() in Arrivals(h2);
  }

  lemma SameFirstArrivals(h1: seq<Packet>, h2: seq<Packet>)
    requires Consistent(h1) && Consistent(h2) && SameArrivals(h1, h2)
    ensures AlikeMaps(Arrivals(h1), Arrivals(h2))
  {
    forall k | k in Arrivals(h1)
      ensures k in Arrivals(h2) && Essence(Arrivals(h1)[k]) == Essence(Arrivals(h2)[k])
      ensures Arrivals(h1)[k].SeqNum() == k
    {
      FirstArrivalMatches(h1, h2, k);
    }
    forall k | k in Arrivals(h2) ensures k in Arrivals(h1) {
      FirstArrivalMatches(h2, h1, k);
    }
  }

  lemma SameReflection(r1: Receiver, m1: map<u32, Packet>, r2: Receiver, m2: map<u32, Packet>)
    requires Reflects(r1, m1) && Reflects(r2, m2) && AlikeMaps(m1, m2)
    ensures r1.expected == r2.expected && r1.acked == r2.acked && r1.buffer == r2.buffer
    ensures Payloads(r1.output) == Payloads(r2.output)
    ensures forall k: u32 | 1 <= k < r1.expected :: r1.output[k] == r2.output[k]
  {
    assert r1.expected !in m2 && r2.expected !in m1;
    forall i: u32 | i < r1.expected ensures Essence(r1.output[i]) == Essence(r2.output[i]) {
      assert i in m1;
    }
    PayloadsAgree(r1.output, r2.output);
    assert r1.buffer.Keys == r2.buffer.Keys;
  }

  /** Any permutation or repetition of the same arrivals ends in the same counters, the same
      reorder buffer and the same payload stream. */
  lemma OrderDoesNotMatter(h1: seq<Packet>, h2: seq<Packet>)
    requires Consistent(h1) && Consistent(h2) && SameArrivals(h1, h2) && NoWrap(Arrivals(h1))
    ensures var r1, r2 := OnPackets(Fresh, h1), OnPackets(Fresh, h2);
      && r1.expected == r2.expected && r1.acked == r2.acked && r1.buffer == r2.buffer
      && |r1.output| == |r2.output| == r1.expected
      && Payloads(r1.output) == Payloads(r2.output)
      && (forall k: u32 | 1 <= k < r1.expected :: r1.output[k] == r2.output[k])
  {
    SameFirstArrivals(h1, h2);
    var gap: u32 :| gap !in Arrivals(h1);
    assert gap !in Arrivals(h2);
    ReceiverRefinesSet(h1);
    ReceiverRefinesSet(h2);
    SameReflection(OnPackets(Fresh, h1), Arrivals(h1), OnPackets(Fresh, h2), Arrivals(h2));
  }
}

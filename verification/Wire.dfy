/** The datagram format of the reliable UDP layer: an eight-byte header (sequence number and
    acknowledgement, both big-endian u32) followed by an optional payload. */
module Wire {
  import opened Basics

  const U32_LIMIT: nat := 0x1_0000_0000
  const HEADER_SIZE: nat := 8
  // recv_from is given a buffer of this size; the socket discards whatever does not fit.
  const RECV_BUFFER_SIZE: nat := 6600
  const MAX_PAYLOAD: nat := RECV_BUFFER_SIZE - HEADER_SIZE

  type u32 = x: nat | x < U32_LIMIT

  datatype Header = Header(seqNum: u32, ack: u32)

  datatype Packet = Packet(header: Header, payload: Option<bytes>) {
    function SeqNum(): u32 { header.seqNum }

    // No payload, or an empty one.
    predicate IsEmpty() { payload.None? || payload.value == [] }
  }

  /** Increment of an AtomicU32: wraps at 2^32. */
  function Inc(x: u32): u32 {
    if x + 1 == U32_LIMIT then 0 else x + 1
  }

  function ToBigEndian(x: u32): (b: bytes) {
    var x1 := x / 0x100;
    var x2 := x1 / 0x100;
    [x2 / 0x100, x2 % 0x100, x1 % 0x100, x % 0x100]
  }

  function FromBigEndian(b: bytes): u32
    requires |b| == 4
  {
    var (b0: nat, b1: nat, b2: nat, b3: nat) := (b[0], b[1], b[2], b[3]);
    ((b0 * 0x100 + b1) * 0x100 + b2) * 0x100 + b3
  }

  lemma EncodedDigits(b: bytes)
    requires |b| == 4
    ensures ToBigEndian(FromBigEndian(b)) == b
  {
    var b0: nat, b1: nat, b2: nat := b[0], b[1], b[2];
    var y := FromBigEndian(b);
    assert y / 0x100 == (b0 * 0x100 + b1) * 0x100 + b2;
    assert y / 0x100 / 0x100 == b0 * 0x100 + b1;
  }

  lemma DecodedNumber(x: u32)
    ensures FromBigEndian(ToBigEndian(x)) == x
  {
    var x1 := x / 0x100;
    var x2 := x1 / 0x100;
    assert x == x1 * 0x100 + x % 0x100;
    assert x1 == x2 * 0x100 + x1 % 0x100;
  }

  function Serialize(p: Packet): bytes {
    ToBigEndian(p.header.seqNum) + ToBigEndian(p.header.ack) +
    if p.payload.Some? then p.payload.value else []
  }

  /** The bytes on the wire: both numbers with their highest byte first, then the payload. */
  lemma WireFormat(p: Packet)
    ensures var b, s, a := Serialize(p), p.header.seqNum, p.header.ack;
      && |b| == 8 + (if p.payload.Some? then |p.payload.value| else 0)
      && b[0] == s / 16777216 && b[1] == s / 65536 % 256 && b[2] == s / 256 % 256 && b[3] == s % 256
      && b[4] == a / 16777216 && b[5] == a / 65536 % 256 && b[6] == a / 256 % 256 && b[7] == a % 256
      && (p.payload.Some? ==> b[8..] == p.payload.value)
  {
    var b := Serialize(p);
    assert b[..4] == ToBigEndian(p.header.seqNum) && b[4..8] == ToBigEndian(p.header.ack);
    Digits(p.header.seqNum);
    Digits(p.header.ack);
    assert forall i | 0 <= i < 4 :: b[i] == b[..4][i] && b[4 + i] == b[4..8][i];
  }

  lemma Digits(x: u32)
    ensures var b := ToBigEndian(x);
      |b| == 4 && b[0] == x / 16777216 && b[1] == x / 65536 % 256 && b[2] == x / 256 % 256 && b[3] == x % 256
  {
  }

  method SerializeInto(p: Packet) returns (buf: bytes)
    ensures buf == Serialize(p)
    ensures Deserialize(buf) == Some(Normal(p))
  {
    buf := [];
    buf := buf + ToBigEndian(p.header.seqNum);
    buf := buf + ToBigEndian(p.header.ack);
    if p.payload.Some? {
      buf := buf + p.payload.value;
    }
    RoundTrip(p);
  }

  function Deserialize(buf: bytes): Option<Packet> {
    if |buf| < HEADER_SIZE then None
    else
      var header := Header(FromBigEndian(buf[0..4]), FromBigEndian(buf[4..8]));
      Some(Packet(header, if |buf| > HEADER_SIZE then Some(buf[8..]) else None))
  }

  /** The packet a decoder can see: an empty payload is not distinguishable from none. */
  function Normal(p: Packet): Packet {
    if p.IsEmpty() then p.(payload := None) else p
  }

  lemma RoundTrip(p: Packet)
    ensures Deserialize(Serialize(p)) == Some(Normal(p))
  {
    var b := Serialize(p);
    assert b[0..4] == ToBigEndian(p.header.seqNum);
    assert b[4..8] == ToBigEndian(p.header.ack);
    DecodedNumber(p.header.seqNum);
    DecodedNumber(p.header.ack);
    assert b[8..] == if p.payload.Some? then p.payload.value else [];
  }

  /** Decoding fails exactly on short buffers, and re-encoding gives back the very bytes. */
  lemma DecodeThenEncode(buf: bytes)
    ensures Deserialize(buf).None? <==> |buf| < HEADER_SIZE
    ensures Deserialize(buf).Some? ==> Serialize(Deserialize(buf).value) == buf
  {
    if |buf| >= HEADER_SIZE {
      EncodedDigits(buf[0..4]);
      EncodedDigits(buf[4..8]);
      assert buf == buf[0..4] + buf[4..8] + buf[8..];
    }
  }

  /** Two packets have the same encoding only if they are the same up to an empty payload. */
  lemma SerializeInjective(p: Packet, q: Packet)
    ensures Serialize(p) == Serialize(q) <==> Normal(p) == Normal(q)
  {
    RoundTrip(p);
    RoundTrip(q);
    DecodeThenEncode(Serialize(p));
    DecodeThenEncode(Serialize(q));
  }

  // ---- what the receive buffer does to a datagram

  function Clip(b: bytes): bytes {
    if |b| <= RECV_BUFFER_SIZE then b else b[..RECV_BUFFER_SIZE]
  }

  function Parse(b: bytes): Option<Packet> {
    Deserialize(Clip(b))
  }

  /** The payload that reaches the application when `payload` was handed to the sender. */
  function Delivered(payload: bytes): Option<bytes> {
    if payload == [] then None
    else Some(if |payload| <= MAX_PAYLOAD then payload else payload[..MAX_PAYLOAD])
  }

  function Received(p: Packet): Packet {
    p.(payload := if p.payload.None? then None else Delivered(p.payload.value))
  }

  lemma ParseOfSerialize(p: Packet)
    ensures Parse(Serialize(p)) == Some(Received(p))
  {
    RoundTrip(p);
    RoundTrip(Received(p));
    if |Serialize(p)| > RECV_BUFFER_SIZE {
      assert Clip(Serialize(p)) == Serialize(Received(p));
    }
  }

  /** A message arrives unchanged exactly when it is non-empty and fits the receive buffer. */
  lemma DeliveredUnchanged(payload: bytes)
    ensures Delivered(payload) == Some(payload) <==> 0 < |payload| <= 6592
  {
    if |payload| > MAX_PAYLOAD {
      assert |payload[..MAX_PAYLOAD]| != |payload|;
    }
  }
}

/** The 64-bit user_data of a ring request: the operation and the buffer index. */
module Token {

  const INDEX_LIMIT: nat := 0x1_0000

  type u16 = x: nat | x < INDEX_LIMIT
  type u64 = x: nat | x < 0x1_0000_0000_0000_0000

  datatype OpType = Recv | Send | SendNotif

  function OpBits(op: OpType): nat {
    match op
    case Recv => 0
    case Send => 1
    case SendNotif => 2
  }

  function EncodeToken(op: OpType, bufIdx: u16): u64 {
    OpBits(op) * INDEX_LIMIT + bufIdx
  }

  function DecodeToken(token: u64): (OpType, u16) {
    var op := match token / INDEX_LIMIT
      case 0 => Recv
      case 1 => Send
      case 2 => SendNotif
      case _ => Send;
    (op, token % INDEX_LIMIT)
  }

  lemma TokenRoundTrip(op: OpType, bufIdx: u16)
    ensures DecodeToken(EncodeToken(op, bufIdx)) == (op, bufIdx)
    ensures EncodeToken(op, bufIdx) == bufIdx + if op.Recv? then 0 else if op.Send? then 65536 else 131072
  {
    var t := EncodeToken(op, bufIdx);
    assert t / INDEX_LIMIT == OpBits(op) && t % INDEX_LIMIT == bufIdx;
  }

  /** Only tokens of the three operations survive decoding and encoding again. */
  lemma DecodeThenEncode(token: u64)
    ensures var (op, i) := DecodeToken(token); EncodeToken(op, i) == token <==> token < 3 * INDEX_LIMIT
  {
    assert token == token / INDEX_LIMIT * INDEX_LIMIT + token % INDEX_LIMIT;
  }
}

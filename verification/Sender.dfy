/** The send side of one endpoint as a value: numbering, the store of unacknowledged packets (which
    is never pruned) and timed retransmission. Times are in nanoseconds. */
module Sender {
  import opened Basics
  import opened Wire

  const TIMEOUT: nat := 2_000_000_000

  datatype SentPacket = SentPacket(packet: Packet, timeSent: nat)

  type Unacked = map<u32, SentPacket>

  datatype Sender = Sender(nextSeq: u32, unacked: Unacked)

  const Fresh := Sender(0, map[])

  /** Instant::duration_since saturates at zero. */
  function Since(now: nat, earlier: nat): nat {
    if earlier <= now then now - earlier else 0
  }

  /** `PacketType::Data`: the next number, and the ack the send task happens to read. */
  function NextPacket(s: Sender, payload: bytes, ackRead: u32): Packet {
    Packet(Header(Inc(s.nextSeq), ackRead), Some(payload))
  }

  function OnData(s: Sender, payload: bytes, ackRead: u32, now: nat): Sender {
    var p := NextPacket(s, payload, ackRead);
    Sender(p.SeqNum(), s.unacked[p.SeqNum() := SentPacket(p, now)])
  }

  predicate IsOverdue(p: SentPacket, now: nat) {
    Since(now, p.timeSent) > TIMEOUT
  }

  function Overdue(unacked: Unacked, now: nat): set<u32> {
    set k | k in unacked && IsOverdue(unacked[k], now)
  }

  /** The store after one scan: exactly the overdue entries are stamped with the scan time. */
  function Restamp(unacked: Unacked, now: nat): Unacked {
    map k | k in unacked ::
      if IsOverdue(unacked[k], now) then unacked[k].(timeSent := now) else unacked[k]
  }

  /** `order` names every key exactly once. */
  ghost predicate Lists(order: seq<u32>, keys: set<u32>) {
    && (forall k :: k in order <==> k in keys)
    && (forall i, j | 0 <= i < j < |order| :: order[i] != order[j])
  }

  function PacketsAt(unacked: Unacked, order: seq<u32>): (ps: seq<Packet>)
    requires forall k | k in order :: k in unacked
    ensures |ps| == |order|
    ensures forall i | 0 <= i < |order| :: ps[i] == unacked[order[i]].packet
  {
    if order == [] then []
    else PacketsAt(unacked, order[..|order| - 1]) + [unacked[order[|order| - 1]].packet]
  }

  /** Every key set can be listed, so some iteration order always exists. */
  lemma SomeListing(keys: set<u32>) returns (order: seq<u32>)
    ensures Lists(order, keys)
  {
    order := [];
    var rest := keys;
    while rest != {}
      invariant rest <= keys
      invariant Lists(order, keys - rest)
      decreases rest
    {
      var k :| k in rest;
      rest := rest - {k};
      order := order + [k];
    }
  }

  /** A scan that has `rest` still to visit. */
  ghost predicate HalfScanned(stored: Unacked, current: Unacked, rest: set<u32>, now: nat) {
    && current.Keys == stored.Keys
    && (forall k | k in stored ::
          current[k] == if k in rest then stored[k] else Restamp(stored, now)[k])
  }

  lemma ScanOne(stored: Unacked, current: Unacked, rest: set<u32>, now: nat, order: seq<u32>, k: u32)
    requires rest <= stored.Keys && k in rest
    requires HalfScanned(stored, current, rest, now) && Lists(order, Overdue(stored, now) - rest)
    ensures var entry := current[k];
      if IsOverdue(entry, now) then
        && HalfScanned(stored, current[k := entry.(timeSent := now)], rest - {k}, now)
        && Lists(order + [k], Overdue(stored, now) - (rest - {k}))
        && PacketsAt(stored, order + [k]) == PacketsAt(stored, order) + [entry.packet]
      else
        && HalfScanned(stored, current, rest - {k}, now)
        && Lists(order, Overdue(stored, now) - (rest - {k}))
  {
    assert (order + [k])[..|order|] == order;
    if IsOverdue(current[k], now) {
      assert Overdue(stored, now) - (rest - {k}) == Overdue(stored, now) - rest + {k};
    } else {
      assert Overdue(stored, now) - (rest - {k}) == Overdue(stored, now) - rest;
    }
  }

  // ---- how often and how late one packet is transmitted

  /** The scan times at which a packet last sent at `last` is sent again. */
  function Resends(last: nat, scans: seq<nat>): seq<nat>
    decreases |scans|
  {
    if scans == [] then []
    else if Since(scans[0], last) > TIMEOUT then [scans[0]] + Resends(scans[0], scans[1..])
    else Resends(last, scans[1..])
  }

  function Transmissions(first: nat, scans: seq<nat>): seq<nat> {
    [first] + Resends(first, scans)
  }

  function RestampAll(unacked: Unacked, scans: seq<nat>): Unacked
    decreases |scans|
  {
    if scans == [] then unacked else RestampAll(Restamp(unacked, scans[0]), scans[1..])
  }

  /** Whatever the map order, the store's time stamp follows the list of transmissions, and the
      stored packet, ack number included, never changes. */
  lemma {:induction false} StampsFollowTransmissions(unacked: Unacked, scans: seq<nat>, k: u32)
    requires k in unacked
    decreases |scans|
    ensures k in RestampAll(unacked, scans)
    ensures var ts := Transmissions(unacked[k].timeSent, scans);
      RestampAll(unacked, scans)[k] == SentPacket(unacked[k].packet, ts[|ts| - 1])
  {
    if scans == [] {
    } else {
      StampsFollowTransmissions(Restamp(unacked, scans[0]), scans[1..], k);
    }
  }

  /** The k-th retransmission is more than k timeouts after the first transmission. */
  lemma {:induction false} TransmissionsAreSpaced(first: nat, scans: seq<nat>, k: nat)
    requires k < |Transmissions(first, scans)|
    ensures k > 0 ==> Transmissions(first, scans)[k] > Transmissions(first, scans)[k - 1] + 2_000_000_000
    ensures k > 0 ==> Transmissions(first, scans)[k] > first + k * 2_000_000_000
    decreases |scans|
  {
    var ts := Transmissions(first, scans);
    if k > 0 {
      if Since(scans[0], first) > TIMEOUT {
        var rest := Transmissions(scans[0], scans[1..]);
        assert ts == [first] + rest;
        TransmissionsAreSpaced(scans[0], scans[1..], k - 1);
        assert ts[k] == rest[k - 1];
        if k > 1 { assert ts[k - 1] == rest[k - 2]; }
      } else {
        assert ts == Transmissions(first, scans[1..]);
        TransmissionsAreSpaced(first, scans[1..], k);
      }
    }
  }

  /** Scans go forward in time and are at most `gap` apart, counted from `from`. */
  ghost predicate Regular(from: nat, scans: seq<nat>, gap: nat)
    decreases |scans|
  {
    scans != [] ==>
      from <= scans[0] <= from + gap && Regular(scans[0], scans[1..], gap)
  }

  /** With scans at most `gap` apart, a retransmission is at most TIMEOUT + gap after the previous
      transmission, and at the last scan the packet has been sent within the last TIMEOUT. Here
      `seen` is the latest scan before these (or the transmission itself). */
  lemma {:induction false} TransmissionsAreTimely(first: nat, seen: nat, scans: seq<nat>, gap: nat, k: nat)
    requires first <= seen <= first + TIMEOUT
    requires Regular(seen, scans, gap)
    requires k < |Transmissions(first, scans)|
    ensures k > 0 ==>
      Transmissions(first, scans)[k] <= Transmissions(first, scans)[k - 1] + 2_000_000_000 + gap
    ensures var ts := Transmissions(first, scans);
      scans != [] ==> ts[|ts| - 1] <= scans[|scans| - 1] <= ts[|ts| - 1] + 2_000_000_000
    decreases |scans|
  {
    if scans == [] {
    } else {
      var ts, now := Transmissions(first, scans), scans[0];
      if Since(now, first) > TIMEOUT {
        var rest := Transmissions(now, scans[1..]);
        assert ts == [first] + rest;
        TransmissionsAreTimely(now, now, scans[1..], gap, if k == 0 then 0 else k - 1);
        if k > 0 {
          assert ts[k] == rest[k - 1];
          if k > 1 { assert ts[k - 1] == rest[k - 2]; }
        }
      } else {
        assert ts == Transmissions(first, scans[1..]);
        TransmissionsAreTimely(first, now, scans[1..], gap, k);
      }
    }
  }
}

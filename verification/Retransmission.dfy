/** When the packets of one number leave an endpoint, on every run of the two endpoints: at the times
    at which its message is submitted and its scans find it overdue. A scan takes the time once, at its
    start. */
module Retransmission {
  import opened Basics
  import opened Wire
  import S = Sender
  import opened SingleConnection
  import opened Protocol

  /** This step of `x` puts packet `k` on the socket. */
  predicate Emits(s: System, step: Step, x: Side, k: u32) {
    match step
    case Submit(y, _, _) => y == x && k == |s.At(x).given| + 1
    case Scan(y, order) => y == x && k in order
    case _ => false
  }

  /** The times at which the run puts packet `k` of `x` on the socket. */
  ghost function EmissionTimes(s: System, steps: seq<Step>, x: Side, k: u32): seq<nat>
    requires Valid(s, steps)
    decreases |steps|
  {
    if steps == [] then []
    else EmissionTime(s, steps[0], x, k) + EmissionTimes(Next(s, steps[0]), steps[1..], x, k)
  }

  function EmissionTime(s: System, step: Step, x: Side, k: u32): seq<nat> {
    if Emits(s, step, x, k) then [s.clock] else []
  }

  /** More than 2000 ms apart. */
  predicate Spaced(ts: seq<nat>) {
    forall i | 0 < i < |ts| :: ts[i] > ts[i - 1] + 2_000_000_000
  }

  function Latest(ts: seq<nat>): seq<nat> {
    if ts == [] then [] else [ts[|ts| - 1]]
  }

  /** The time stamp of packet `k`, if it has been sent. */
  function Stamp(unacked: S.Unacked, k: u32): seq<nat> {
    if k in unacked then [unacked[k].timeSent] else []
  }

  function StampAt(s: System, x: Side, k: u32): seq<nat> {
    Stamp(s.At(x).send.unacked, k)
  }

  lemma ScanStamps(s: System, x: Side, order: seq<u32>, k: u32)
    requires Enabled(s, Scan(x, order))
    ensures var stamp, stamp' := StampAt(s, x, k), StampAt(Next(s, Scan(x, order)), x, k);
      && (k in order <==> stamp != [] && s.clock > stamp[0] + S.TIMEOUT)
      && stamp' == if k in order then [s.clock] else stamp
  {
    hide Outgoing, S.PacketsAt;
  }

  lemma SubmitStamps(s: System, x: Side, payload: bytes, ackRead: u32, k: u32)
    requires DirectionOk(s, x) && Enabled(s, Submit(x, payload, ackRead))
    ensures var stamp, stamp' := StampAt(s, x, k), StampAt(Next(s, Submit(x, payload, ackRead)), x, k);
      if k == |s.At(x).given| + 1 then stamp == [] && stamp' == [s.clock] else stamp' == stamp
  {
    hide InboxOk, ReceiverOk, Outgoing;
  }

  lemma StepStamps(s: System, step: Step, x: Side, k: u32)
    requires SafetyInv(s) && Enabled(s, step)
    ensures var stamp, stamp' := StampAt(s, x, k), StampAt(Next(s, step), x, k);
      if Emits(s, step, x, k) then stamp' == [s.clock] && Spaced(stamp + stamp') else stamp' == stamp
  {
    hide DirectionOk, Outgoing, S.PacketsAt, S.Overdue, S.Restamp, S.OnData;
    match step
    case Submit(y, payload, ackRead) => if y == x { SubmitStamps(s, x, payload, ackRead, k); } else { }
    case Scan(y, order) => if y == x { ScanStamps(s, x, order, k); } else { }
    case _ =>
  }

  /** Two spaced runs that meet in one moment. */
  lemma SpacedJoin(a: seq<nat>, now: nat, b: seq<nat>)
    requires Spaced(a + [now]) && Spaced([now] + b)
    ensures Spaced(a + ([now] + b)) && Latest(a + ([now] + b)) == Latest([now] + b)
  {
    var ts := a + ([now] + b);
    forall i | 0 < i < |ts| ensures ts[i] > ts[i - 1] + S.TIMEOUT {
      if i <= |a| {
        assert ts[i] == (a + [now])[i] && ts[i - 1] == (a + [now])[i - 1];
      } else {
        assert ts[i] == ([now] + b)[i - |a|] && ts[i - 1] == ([now] + b)[i - 1 - |a|];
      }
    }
  }

  lemma {:induction false} EmissionsFrom(s: System, steps: seq<Step>, x: Side, k: u32)
    requires SafetyInv(s) && Valid(s, steps)
    ensures var ts := StampAt(s, x, k) + EmissionTimes(s, steps, x, k);
      Spaced(ts) && StampAt(Run(s, steps), x, k) == Latest(ts)
    decreases |steps|
  {
    hide SafetyInv, Next, Enabled, Emits, StampAt, Spaced, Latest;
    var stamp := StampAt(s, x, k);
    if steps == [] {
      OneStamp(s, x, k);
      assert stamp + [] == stamp;
    } else {
      var t, rest := Next(s, steps[0]), steps[1..];
      StepKeepsSafety(s, steps[0]);
      StepStamps(s, steps[0], x, k);
      EmissionsFrom(t, rest, x, k);
      if Emits(s, steps[0], x, k) {
        SpacedJoin(stamp, s.clock, EmissionTimes(t, rest, x, k));
      } else {
        assert [] + EmissionTimes(t, rest, x, k) == EmissionTimes(t, rest, x, k);
      }
    }
  }

  lemma OneStamp(s: System, x: Side, k: u32)
    ensures Spaced(StampAt(s, x, k)) && Latest(StampAt(s, x, k)) == StampAt(s, x, k)
  {
  }

  lemma EmissionsFromStart(steps: seq<Step>, x: Side, k: u32)
    requires Valid(Init, steps)
    ensures var ts := EmissionTimes(Init, steps, x, k);
      Spaced(ts) && StampAt(Run(Init, steps), x, k) == Latest(ts)
  {
    hide Next, Enabled, Spaced, Latest, EmissionTime;
    EmissionsFrom(Init, steps, x, k);
    assert [] + EmissionTimes(Init, steps, x, k) == EmissionTimes(Init, steps, x, k);
  }

  /** On every run the transmissions of one packet lie more than the timeout apart; its time stamp is
      the time of the latest; and the next scan sends it again exactly if that is longer ago than the
      timeout. */
  lemma EmissionsSpaced(steps: seq<Step>, x: Side, k: u32, order: seq<u32>)
    requires Valid(Init, steps) && Enabled(Run(Init, steps), Scan(x, order))
    ensures var s, ts := Run(Init, steps), EmissionTimes(Init, steps, x, k);
      && Spaced(ts) && StampAt(s, x, k) == Latest(ts)
      && (k in order <==> ts != [] && s.clock > ts[|ts| - 1] + 2_000_000_000)
  {
    hide Next, Enabled, Spaced, SafetyInv, StampAt, Emits;
    EmissionsFromStart(steps, x, k);
    ScanStamps(Run(Init, steps), x, order, k);
  }

  /** After a scan no packet that was ever sent has waited longer than the timeout. */
  lemma ScansLeaveNoneWaiting(steps: seq<Step>, x: Side, k: u32, order: seq<u32>)
    requires Valid(Init, steps) && Enabled(Run(Init, steps), Scan(x, order))
    ensures Valid(Init, steps + [Scan(x, order)])
    ensures var ts := EmissionTimes(Init, steps + [Scan(x, order)], x, k);
      ts != [] ==> Run(Init, steps).clock <= ts[|ts| - 1] + 2_000_000_000
  {
    hide Next, Enabled, SafetyInv;
    var s, scan := Run(Init, steps), [Scan(x, order)];
    assert scan[1..] == [] && Valid(Next(s, scan[0]), []);
    RunAppend(Init, steps, scan);
    EmissionsAppend(Init, steps, scan, x, k);
    EmissionsSpaced(steps, x, k, order);
  }

  lemma {:induction false} EmissionsAppend(s: System, a: seq<Step>, b: seq<Step>, x: Side, k: u32)
    requires Valid(s, a) && Valid(Run(s, a), b) && Valid(s, a + b)
    ensures EmissionTimes(s, a + b, x, k) == EmissionTimes(s, a, x, k) + EmissionTimes(Run(s, a), b, x, k)
    decreases |a|
  {
    hide Next, Enabled, EmissionTime;
    if a == [] {
      assert a + b == b;
    } else {
      var t, rest := Next(s, a[0]), a[1..];
      assert (a + b)[0] == a[0] && (a + b)[1..] == rest + b;
      EmissionsAppend(t, rest, b, x, k);
      assert EmissionTimes(s, a + b, x, k) == EmissionTime(s, a[0], x, k) + EmissionTimes(t, rest + b, x, k);
    }
  }

  /** What a task step puts on the way to the other side. */
  ghost function News(s: System, step: Step, x: Side): seq<Datagram>
    requires Enabled(s, step) && |s.Inbox(x.Other())| <= |Next(s, step).Inbox(x.Other())|
  {
    Next(s, step).Inbox(x.Other())[|s.Inbox(x.Other())|..]
  }

  /** The datagram of packet `k` as it is stored. */
  predicate IsPacket(s: System, x: Side, k: u32, d: Datagram) {
    && k in s.At(x).send.unacked
    && d == Datagram(x.Address(), Serialize(s.At(x).send.unacked[k].packet)) && |d.data| <= 65507
  }

  lemma ScanNews(s: System, x: Side, order: seq<u32>, d: Datagram)
    requires forall k | k in order :: k in s.At(x).send.unacked
    ensures d in Outgoing(x, S.PacketsAt(s.At(x).send.unacked, order)) <==>
      exists k :: k in order && IsPacket(s, x, k, d)
  {
    hide S.PacketsAt, Outgoing, Serialize;
    var u := s.At(x).send.unacked;
    var ps := S.PacketsAt(u, order);
    OutgoingMembers(x, ps, d);
    if d in Outgoing(x, ps) {
      var p :| p in ps && Leaves(p) && d == Datagram(x.Address(), Serialize(p));
      var i :| 0 <= i < |ps| && ps[i] == p;
      assert order[i] in order && IsPacket(s, x, order[i], d);
    } else {
      forall i | 0 <= i < |order| ensures !IsPacket(s, x, order[i], d) {
        assert order[i] in order && ps[i] in ps;
      }
    }
  }

  /** What counts as an emission is one: the datagrams that a message submitted or a scan puts on the
      way are exactly those of the packets emitted, as they are stored, that a datagram can hold. */
  lemma EmissionsOnWire(s: System, step: Step, d: Datagram)
    requires SafetyInv(s) && (step.Submit? || step.Scan?) && Enabled(s, step)
    ensures s.Inbox(step.side.Other()) <= Next(s, step).Inbox(step.side.Other())
    ensures d in News(s, step, step.side) <==>
      exists k :: Emits(s, step, step.side, k) && IsPacket(Next(s, step), step.side, k, d)
  {
    var x := step.side;
    assert DirectionOk(s, x);
    match step
    case Submit(_, payload, ackRead) => SubmitOnWire(s, x, payload, ackRead, d);
    case Scan(_, order) => ScanOnWire(s, x, order, d);
  }

  lemma SubmitOnWire(s: System, x: Side, payload: bytes, ackRead: u32, d: Datagram)
    requires DirectionOk(s, x) && Enabled(s, Submit(x, payload, ackRead))
    ensures var step := Submit(x, payload, ackRead);
      s.Inbox(x.Other()) <= Next(s, step).Inbox(x.Other()) &&
      (d in News(s, step, x) <==> exists k :: Emits(s, step, x, k) && IsPacket(Next(s, step), x, k, d))
  {
    hide InboxOk, ReceiverOk, Outgoing;
    var step, k: u32 := Submit(x, payload, ackRead), |s.At(x).given| + 1;
    var p := S.NextPacket(s.At(x).send, payload, ackRead);
    OutgoingOne(x, p);
    assert News(s, step, x) == Outgoing(x, [p]);
    assert Emits(s, step, x, k) && Next(s, step).At(x).send.unacked[k].packet == p;
  }

  lemma ScanOnWire(s: System, x: Side, order: seq<u32>, d: Datagram)
    requires Enabled(s, Scan(x, order))
    ensures var step := Scan(x, order);
      s.Inbox(x.Other()) <= Next(s, step).Inbox(x.Other()) &&
      (d in News(s, step, x) <==> exists k :: Emits(s, step, x, k) && IsPacket(Next(s, step), x, k, d))
  {
    hide Outgoing, S.PacketsAt;
    var step := Scan(x, order);
    assert forall k | k in order :: k in s.At(x).send.unacked;
    ScanNews(s, x, order, d);
    assert News(s, step, x) == Outgoing(x, S.PacketsAt(s.At(x).send.unacked, order));
    assert forall k | k in order :: IsPacket(s, x, k, d) <==> IsPacket(Next(s, step), x, k, d);
  }
}

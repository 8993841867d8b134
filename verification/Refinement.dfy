/** Every run of the program of Statements is a run of the handlers of Protocol, so what is proved
    there of the messages holds here between any two statements. */
module Refinement {
  import opened Basics
  import opened Bags
  import opened Wire
  import opened SingleConnection
  import R = Receiver
  import S = Sender
  import P = Protocol
  import I = Interleaving
  import opened Statements
  import opened Simulation

  // ---- every step of the program is a step of the handlers, or none

  lemma NothingStarts(a: P.System, c: World, x: P.Side, n': Node, sent: seq<Packet>)
    requires Simulates(a, c) && GetsOn(c.At(x), n', sent, x)
    ensures Simulates(a, Acts(c, x, n', sent))
  {
    hide NodeOk, Abs, Pending, P.Outgoing;
    P.OutgoingNone(x);
    ActsSimulates(a, c, x, n', sent, []);
    assert P.Acts(a, x, Abs(n'), []) == a;
  }

  /** A node changes and sends nothing by itself. */
  lemma WithIsActs(c: World, x: P.Side, n: Node)
    ensures c.With(x, n) == Acts(c, x, n, [])
  {
    P.OutgoingNone(x);
    assert c.Inbox(x.Other()) + [] == c.Inbox(x.Other());
  }

  lemma Starting(a: P.System, c: World, x: P.Side, n': Node, e: P.Endpoint, ps: seq<Packet>)
    requires Simulates(a, c) && Starts(c.At(x), n', e, ps, x)
    ensures Simulates(P.Acts(a, x, e, ps), c.With(x, n'))
  {
    hide NodeOk, Abs, Pending, P.Outgoing, Simulates;
    P.OutgoingNone(x);
    WithIsActs(c, x, n');
    ActsSimulates(a, c, x, n', [], ps);
  }

  /** What is in flight here is in flight there. */
  lemma InFlight(a: P.System, c: World, x: P.Side, i: nat) returns (j: nat)
    requires Simulates(a, c) && i < |c.Inbox(x)|
    ensures j < |a.Inbox(x)| && a.Inbox(x)[j] == c.Inbox(x)[i]
  {
    hide NodeOk, Abs, Pending;
    var d := c.Inbox(x)[i];
    assert InboxMatches(a, c, x);
    assert d in multiset(c.Inbox(x));
    assert d in multiset(a.Inbox(x));
    assert d in a.Inbox(x);
    j :| 0 <= j < |a.Inbox(x)| && a.Inbox(x)[j] == d;
  }

  lemma InboxChanges(a: P.System, c: World, x: P.Side, qa: seq<Datagram>, qc: seq<Datagram>)
    requires Simulates(a, c) && multiset(qa) == multiset(qc) + Pending(c.At(x.Other()), x.Other())
    ensures Simulates(a.WithInbox(x, qa), c.WithInbox(x, qc))
  {
    hide NodeOk, Abs, Pending;
    assert InboxMatches(a, c, x.Other());
    assert InboxMatches(a.WithInbox(x, qa), c.WithInbox(x, qc), x.Other());
  }

  lemma WithoutSimulates(a: P.System, c: World, x: P.Side, i: nat, j: nat)
    requires Simulates(a, c) && i < |c.Inbox(x)| && j < |a.Inbox(x)| && a.Inbox(x)[j] == c.Inbox(x)[i]
    ensures Simulates(a.WithInbox(x, Without(a.Inbox(x), j)), c.WithInbox(x, Without(c.Inbox(x), i)))
  {
    hide NodeOk, Abs, Pending, Without;
    var qa, qc := Without(a.Inbox(x), j), Without(c.Inbox(x), i);
    WithoutOne(a.Inbox(x), j);
    WithoutOne(c.Inbox(x), i);
    assert InboxMatches(a, c, x);
    OneLess(multiset(qa), multiset(qc), Pending(c.At(x.Other()), x.Other()), c.Inbox(x)[i]);
    InboxChanges(a, c, x, qa, qc);
  }

  lemma OneLess(a: multiset<Datagram>, b: multiset<Datagram>, p: multiset<Datagram>, d: Datagram)
    requires a + multiset{d} == (b + multiset{d}) + p
    ensures a == b + p
  {
    forall x: Datagram ensures a[x] == (b + p)[x] {
      assert (a + multiset{d})[x] == ((b + multiset{d}) + p)[x];
    }
  }

  lemma OneMore(a: multiset<Datagram>, b: multiset<Datagram>, p: multiset<Datagram>, d: Datagram)
    requires a == b + p
    ensures a + multiset{d} == (b + multiset{d}) + p
  {
  }

  lemma WithoutOne(q: seq<Datagram>, i: nat)
    requires i < |q|
    ensures multiset(q) == multiset(Without(q, i)) + multiset{q[i]}
  {
    assert q == q[..i] + [q[i]] + q[i + 1..];
  }

  lemma MoreSimulates(a: P.System, c: World, x: P.Side, d: Datagram)
    requires Simulates(a, c)
    ensures Simulates(a.WithInbox(x, a.Inbox(x) + [d]), c.WithInbox(x, c.Inbox(x) + [d]))
  {
    hide NodeOk, Abs, Pending;
    assert InboxMatches(a, c, x);
    OneMore(multiset(a.Inbox(x)), multiset(c.Inbox(x)), Pending(c.At(x.Other()), x.Other()), d);
    InboxChanges(a, c, x, a.Inbox(x) + [d], c.Inbox(x) + [d]);
  }

  /** No data packet in flight carries the last number. */
  lemma ArrivesBelowLimit(a: P.System, x: P.Side, d: Datagram)
    requires P.SafetyInv(a) && d in a.Inbox(x) && d.src == x.Other().Address() && Parse(d.data).Some?
    ensures Parse(d.data).value.SeqNum() + 1 < U32_LIMIT
  {
    assert P.DirectionOk(a, x.Other());
    assert P.GenuineDatagram(d, x.Other().Address(), a.At(x.Other()).send.unacked);
  }

  lemma ArriveSimulates(a: P.System, c: World, x: P.Side, i: nat, j: nat)
    requires Simulates(a, c) && P.SafetyInv(a) && Enabled(c, Arrive(x, i))
    requires j < |a.Inbox(x)| && a.Inbox(x)[j] == c.Inbox(x)[i]
    ensures Simulates(P.Next(a, P.Deliver(x, j)), Next(c, Arrive(x, i)))
  {
    hide P.SafetyInv, NodeOk, Abs, Starts, OnDatagram, Compare;
    var d, n := c.Inbox(x)[i], c.At(x);
    if d.src == x.Other().Address() && Parse(d.data).Some? { ArrivesBelowLimit(a, x, d); }
    ArriveStarts(n, x, d);
    WithoutSimulates(a, c, x, i, j);
    var c1, a1 := c.WithInbox(x, Without(c.Inbox(x), i)), a.WithInbox(x, Without(a.Inbox(x), j));
    var (r, sent) := OnDatagram(n.recv, x.Other().Address(), d);
    Starting(a1, c1, x, n.(recvPc := Compare(n.recv, x.Other().Address(), d)), Abs(n).(recv := r), sent);
  }

  lemma StampSimulates(a: P.System, c: World, x: P.Side) returns (submit: P.Step)
    requires Simulates(a, c) && c.At(x).sendPc.Stamp?
    ensures P.Enabled(a, submit) && Simulates(P.Next(a, submit), Next(c, Proceed(x)))
  {
    hide Abs, Starts;
    var n := c.At(x);
    var e, payload, ack := Abs(n), n.given[|n.given| - 1], n.sendPc.p.header.ack;
    submit := P.Submit(x, payload, ack);
    StampAllowed(n);
    StampStarts(n, c.clock, x);
    Starting(a, c, x, Proceeded(n, c.clock).0,
             e.(send := S.OnData(e.send, payload, ack, c.clock), given := e.given + [payload]),
             [S.NextPacket(e.send, payload, ack)]);
    WithIsActs(c, x, Proceeded(n, c.clock).0);
  }

  /** The number read is covered by what the handler under way will have acknowledged. */
  lemma StampAllowed(n: Node)
    requires NodeOk(n) && n.sendPc.Stamp?
    ensures |Abs(n).given| < P.MAX_MESSAGES && n.sendPc.p.header.ack <= Abs(n).recv.acked
  {
    hide I.CountersOk, I.Finish;
    I.BelowFinish(Handler(n));
  }

  lemma ScanSimulates(a: P.System, c: World, x: P.Side, order: seq<u32>)
    requires Simulates(a, c) && Enabled(c, StartScan(x, order))
    ensures var scan := P.Scan(x, Due(c.At(x).send.unacked, c.clock, order));
      P.Enabled(a, scan) && Simulates(P.Next(a, scan), Next(c, StartScan(x, order)))
  {
    hide Abs, NodeOk, Starts, S.Lists;
    var n := c.At(x);
    var e, u := Abs(n), n.send.unacked;
    DueLists(u, c.clock, order);
    DuePacketsAt(u, c.clock, order);
    ScanStarts(n, c.clock, order, x);
    Starting(a, c, x, n.(sendPc := Visit(c.clock, order, [])),
             e.(send := e.send.(unacked := S.Restamp(u, c.clock))), DuePackets(u, c.clock, order));
  }

  lemma PopSimulates(a: P.System, c: World, x: P.Side)
    requires Simulates(a, c) && Enabled(c, Pop(x))
    ensures P.Enabled(a, P.SendAck(x)) && Simulates(P.Next(a, P.SendAck(x)), Next(c, Pop(x)))
  {
    hide Abs, NodeOk, Starts;
    var e := Abs(c.At(x));
    PopStarts(c.At(x), x);
    Starting(a, c, x, Popped(c.At(x)), e.(recv := e.recv.(acks := e.recv.acks[1..])), [R.Ack(e.recv.acks[0])]);
  }

  /** A statement at which no handler starts. */
  predicate Inside(c: World, step: Step) {
    step.Handle? || step.Accept? || step.Answer? || (step.Proceed? && !c.At(step.side).sendPc.Stamp?)
  }

  lemma InsideSimulates(a: P.System, c: World, step: Step)
    requires Simulates(a, c) && Enabled(c, step) && Inside(c, step)
    ensures Simulates(a, Next(c, step))
  {
    hide NodeOk, GetsOn, Accepted, Handled, Proceeded;
    var x := step.side;
    var n := c.At(x);
    match step
    case Handle(_) =>
      HandleGetsOn(n, x);
      NothingStarts(a, c, x, Handled(n).0, Handled(n).1);
    case Accept(_, payload) =>
      AcceptGetsOn(n, payload, x);
      WithIsActs(c, x, Accepted(n, payload));
      NothingStarts(a, c, x, Accepted(n, payload), []);
    case Answer(_) =>
      AnswerGetsOn(n, x);
      NothingStarts(a, c, x, n.(popped := None), [R.Ack(n.popped.value)]);
    case Proceed(_) =>
      ProceedGetsOn(n, c.clock, x);
      NothingStarts(a, c, x, Proceeded(n, c.clock).0, Proceeded(n, c.clock).1);
  }

  /** Each statement of the program is a step of the handlers, or none. */
  lemma StepSimulates(a: P.System, c: World, step: Step) returns (steps: seq<P.Step>)
    requires Simulates(a, c) && P.SafetyInv(a) && Enabled(c, step)
    ensures |steps| <= 1 && P.Valid(a, steps) && Simulates(P.Run(a, steps), Next(c, step))
  {
    hide Simulates, P.SafetyInv, NodeOk, P.Next, Next;
    if Inside(c, step) {
      InsideSimulates(a, c, step);
      steps := [];
    } else {
      var st := CommittedStep(a, c, step);
      steps := [st];
      assert P.Valid(P.Next(a, st), steps[1..]);
    }
  }

  lemma CommittedStep(a: P.System, c: World, step: Step) returns (st: P.Step)
    requires Simulates(a, c) && P.SafetyInv(a) && Enabled(c, step) && !Inside(c, step)
    ensures P.Enabled(a, st) && Simulates(P.Next(a, st), Next(c, step))
  {
    hide P.SafetyInv, NodeOk, Abs, Pending;
    match step
    case Arrive(x, i) =>
      var j := InFlight(a, c, x, i);
      ArriveSimulates(a, c, x, i, j);
      st := P.Deliver(x, j);
    case Proceed(x) =>
      st := StampSimulates(a, c, x);
    case StartScan(x, order) =>
      ScanSimulates(a, c, x, order);
      st := P.Scan(x, Due(c.At(x).send.unacked, c.clock, order));
    case Pop(x) =>
      PopSimulates(a, c, x);
      st := P.SendAck(x);
    case Lose(x, i) =>
      var j := InFlight(a, c, x, i);
      WithoutSimulates(a, c, x, i, j);
      st := P.Lose(x, j);
    case Duplicate(x, i) =>
      var j := InFlight(a, c, x, i);
      MoreSimulates(a, c, x, c.Inbox(x)[i]);
      st := P.Duplicate(x, j);
    case Stray(x, d) =>
      MoreSimulates(a, c, x, d);
      st := P.Stray(x, d);
    case Elapse(dt) =>
      st := P.Elapse(dt);
      LaterSimulates(a, c, dt);
  }

  lemma LaterSimulates(a: P.System, c: World, dt: nat)
    requires Simulates(a, c)
    ensures Simulates(a.(clock := a.clock + dt), c.(clock := c.clock + dt))
  {
    hide NodeOk, Abs, Pending;
    var a', c' := a.(clock := a.clock + dt), c.(clock := c.clock + dt);
    forall x: P.Side ensures InboxMatches(a', c', x) { assert InboxMatches(a, c, x); }
    forall x: P.Side ensures NodeOk(c'.At(x)) && a'.At(x) == Abs(c'.At(x)) {
      assert NodeOk(c.At(x)) && a.At(x) == Abs(c.At(x));
    }
  }

  lemma FreshOk()
    ensures NodeOk(Fresh)
  {
  }

  lemma StartSimulates()
    ensures Simulates(P.Init, Init)
  {
    hide Pending, Abs, NodeOk;
    FreshOk();
    AtRest(Fresh, P.Host);
    AtRest(Fresh, P.Peer);
  }

  lemma {:induction false} RunSimulates(a: P.System, c: World, steps: seq<Step>) returns (asteps: seq<P.Step>)
    requires Simulates(a, c) && P.SafetyInv(a) && Valid(c, steps)
    ensures P.Valid(a, asteps) && Simulates(P.Run(a, asteps), Run(c, steps))
    decreases |steps|
  {
    hide Simulates, P.SafetyInv, Next, Enabled;
    if steps == [] {
      asteps := [];
    } else {
      var first := StepSimulates(a, c, steps[0]);
      P.RunKeepsSafety(a, first);
      var rest := RunSimulates(P.Run(a, first), Next(c, steps[0]), steps[1..]);
      P.RunAppend(a, first, rest);
      asteps := first + rest;
    }
  }

  // ---- what is promised at every moment of the program

  lemma ShorterInStep(output: seq<Packet>, output': seq<Packet>, given: seq<bytes>, given': seq<bytes>)
    requires P.InStep(output, given) && output' <= output && given <= given'
    ensures P.IsPrefixOf(output', given')
  {
    P.InStepIsPrefix(output', given');
  }

  /** Every run of the two programs, statement by statement, is a run of the handlers: the same
      messages, times and traffic, except that started handlers have still to finish. */
  lemma EveryRunRefines(steps: seq<Step>) returns (asteps: seq<P.Step>)
    requires Valid(Init, steps)
    ensures P.Valid(P.Init, asteps) && Simulates(P.Run(P.Init, asteps), Run(Init, steps))
  {
    StartSimulates();
    asteps := RunSimulates(P.Init, Init, steps);
  }

  /** At every moment, between any two statements, the output of each endpoint is a prefix of what
      its peer was given. */
  lemma StatementPrefixSafety(steps: seq<Step>, y: P.Side)
    requires Valid(Init, steps)
    ensures P.IsPrefixOf(Run(Init, steps).At(y).recv.output, Run(Init, steps).At(y.Other()).given)
  {
    hide P.IsPrefixOf, I.CountersOk, I.Finish;
    var asteps := EveryRunRefines(steps);
    var a, c := P.Run(P.Init, asteps), Run(Init, steps);
    P.PrefixSafety(asteps, y);
    I.BelowFinish(Handler(c.At(y)));
    ShorterInStep(a.At(y).recv.output, c.At(y).recv.output, a.At(y.Other()).given, c.At(y.Other()).given);
  }
}

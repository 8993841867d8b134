/** The program of Statements can always get on: the tasks under way come to rest by themselves, every
    schedule of handlers can be carried out statement by statement, and so the endpoints can catch up
    from every moment of every run, in the middle of any handler. */
module StatementRecovery {
  import opened Wire
  import opened SingleConnection
  import R = Receiver
  import S = Sender
  import P = Protocol
  import Recovery
  import I = Interleaving
  import opened Statements
  import opened Simulation
  import opened Refinement

  /** No losses, no duplicates, no strangers and no new messages. */
  predicate Quiet(step: Step) {
    step.Arrive? || step.Handle? || step.StartScan? || step.Proceed? || step.Pop? || step.Answer? || step.Elapse?
  }

  ghost predicate Quietly(c: World, steps: seq<Step>) {
    Valid(c, steps) && forall st | st in steps :: Quiet(st)
  }

  lemma {:induction false} QuietlyAppend(c: World, a: seq<Step>, b: seq<Step>)
    requires Quietly(c, a) && Quietly(Run(c, a), b)
    ensures Quietly(c, a + b) && Run(c, a + b) == Run(Run(c, a), b)
    decreases |a|
  {
    hide Next, Enabled;
    if a == [] {
      assert a + b == b;
    } else {
      assert (a + b)[1..] == a[1..] + b;
      assert a[0] in a;
      assert forall st | st in a[1..] :: st in a;
      QuietlyAppend(Next(c, a[0]), a[1..], b);
    }
  }

  lemma QuietlyOne(c: World, step: Step)
    requires Enabled(c, step) && Quiet(step)
    ensures Quietly(c, [step]) && Run(c, [step]) == Next(c, step)
  {
    assert [step][1..] == [];
    assert Valid(Next(c, step), []);
  }

  lemma QuietlyThen(c: World, step: Step, rest: seq<Step>)
    requires Enabled(c, step) && Quiet(step) && Quietly(Next(c, step), rest)
    ensures Quietly(c, [step] + rest) && Run(c, [step] + rest) == Run(Next(c, step), rest)
  {
    QuietlyOne(c, step);
    QuietlyAppend(c, [step], rest);
  }

  // ---- tasks at rest

  ghost predicate Resting(c: World) {
    forall x: P.Side :: Rests(c.At(x))
  }

  // ---- tasks come to rest

  /** A message has been taken from the application but does not count as sent. */
  predicate Uncommitted(n: Node) {
    n.sendPc.LoadAck? || n.sendPc.Stamp?
  }

  /** How many statements the handlers under way can still take. */
  function Work(n: Node): nat {
    ReceiveWork(n.recv, n.recvPc) + SendWork(n.sendPc) + if n.popped.Some? then 1 else 0
  }

  function ReceiveWork(r: R.Receiver, pc: I.Pc): nat {
    var b := 4 * |r.buffer|;
    match pc
    case Idle => 0
    case PassPacket(_) => b + 5
    case CountPacket(_) => b + 4
    case MarkPacket(_) => b + 3
    case QueueAck(_) => b + 2
    case TakeNext(_) => b + 1
    case MarkNext(_, _) => b + 4
    case CountNext(_, _) => b + 3
    case PassNext(_, _) => b + 2
    case StoreEarly(_) => 2
    case AnswerEarly(_) => 1
    case EchoAck(_) => 1
  }

  function SendWork(pc: SendPc): nat {
    match pc
    case Waiting => 0
    case LoadAck(_) => 4
    case Stamp(_) => 3
    case Insert(_, _) => 2
    case Transmit(_) => 1
    case Visit(_, order, found) => 2 * |order| + |found| + 2
    case Resend(found) => |found| + 1
  }

  lemma AdvanceWorks(s: I.State)
    requires !s.pc.Idle?
    ensures ReceiveWork(I.Advanced(s).recv, I.Advanced(s).pc) < ReceiveWork(s.recv, s.pc)
  {
    if s.pc.TakeNext? && s.pc.next in s.recv.buffer {
      var k := s.pc.next;
      assert (s.recv.buffer - {k}).Keys == s.recv.buffer.Keys - {k};
    } else {
    }
  }

  lemma HandleWorks(n: Node)
    requires !n.recvPc.Idle?
    ensures Work(Handled(n).0) < Work(n) && Handled(n).0.given == n.given
    ensures Uncommitted(Handled(n).0) == Uncommitted(n)
  {
    hide SendWork, ReceiveWork, I.Advanced;
    AdvanceWorks(Handler(n));
  }

  lemma ProceedWorks(n: Node, clock: nat)
    requires !n.sendPc.Waiting?
    ensures Work(Proceeded(n, clock).0) < Work(n) && Proceeded(n, clock).0.given == n.given
    ensures !Uncommitted(n) ==> !Uncommitted(Proceeded(n, clock).0)
  {
    hide ReceiveWork, S.IsOverdue;
    match n.sendPc
    case LoadAck(_) =>
    case Stamp(_) =>
    case Insert(_, _) =>
    case Transmit(_) =>
    case Visit(_, _, _) =>
    case Resend(_) =>
  }

  /** The next statement of a task that is not at rest. */
  function Statement(n: Node, x: P.Side): Step
    requires !Rests(n)
  {
    if !n.recvPc.Idle? then Handle(x) else if n.popped.Some? then Answer(x) else Proceed(x)
  }

  lemma StatementWorks(c: World, x: P.Side)
    requires !Rests(c.At(x))
    ensures var st := Statement(c.At(x), x);
      && Enabled(c, st) && Quiet(st)
      && Work(Next(c, st).At(x)) < Work(c.At(x)) && Next(c, st).At(x).given == c.At(x).given
      && Next(c, st).At(x.Other()) == c.At(x.Other())
      && (!Uncommitted(c.At(x)) ==> Inside(c, st) && !Uncommitted(Next(c, st).At(x)))
  {
    hide Handled, Proceeded;
    var n := c.At(x);
    if !n.recvPc.Idle? {
      HandleWorks(n);
    } else if n.popped.Some? {
    } else {
      ProceedWorks(n, c.clock);
    }
  }

  ghost predicate SameGiven(c: World, c': World) {
    c'.host.given == c.host.given && c'.peer.given == c.peer.given
  }

  /** The handlers under way at `x` are finished: nothing changes for who sees them in one piece. */
  lemma {:induction false} FinishOne(a: P.System, c: World, x: P.Side) returns (steps: seq<Step>)
    requires Simulates(a, c) && !Uncommitted(c.At(x))
    ensures Quietly(c, steps) && Simulates(a, Run(c, steps)) && SameGiven(c, Run(c, steps))
    ensures Rests(Run(c, steps).At(x)) && Run(c, steps).At(x.Other()) == c.At(x.Other())
    decreases Work(c.At(x))
  {
    hide Simulates, Next, Enabled, Work, Inside;
    if Rests(c.At(x)) {
      steps := [];
    } else {
      var st := Statement(c.At(x), x);
      StatementWorks(c, x);
      InsideSimulates(a, c, st);
      var rest := FinishOne(a, Next(c, st), x);
      QuietlyThen(c, st, rest);
      steps := [st] + rest;
    }
  }

  lemma FinishBoth(a: P.System, c: World) returns (steps: seq<Step>)
    requires Simulates(a, c) && !Uncommitted(c.host) && !Uncommitted(c.peer)
    ensures Quietly(c, steps) && Simulates(a, Run(c, steps)) && SameGiven(c, Run(c, steps)) && Resting(Run(c, steps))
  {
    hide Simulates, Next, Enabled;
    var first := FinishOne(a, c, P.Host);
    var c1 := Run(c, first);
    var second := FinishOne(a, c1, P.Peer);
    QuietlyAppend(c, first, second);
    steps := first + second;
    var c2 := Run(c1, second);
    assert Rests(c2.host) && Rests(c2.peer);
  }

  /** A message under way at `x` gets its number read, its time stamp and its place in the store. */
  lemma CommitOne(a: P.System, c: World, x: P.Side) returns (steps: seq<Step>, asteps: seq<P.Step>)
    requires Simulates(a, c)
    ensures Quietly(c, steps) && P.Valid(a, asteps) && Simulates(P.Run(a, asteps), Run(c, steps))
    ensures SameGiven(c, Run(c, steps))
    ensures !Uncommitted(Run(c, steps).At(x)) && Run(c, steps).At(x.Other()) == c.At(x.Other())
    decreases if c.At(x).sendPc.LoadAck? then 1 else 0
  {
    hide Simulates, P.Next, P.Enabled;
    if !Uncommitted(c.At(x)) {
      steps, asteps := [], [];
    } else {
      var st, rest := Proceed(x), [];
      ProceedGiven(c, x);
      if c.At(x).sendPc.LoadAck? {
        InsideSimulates(a, c, st);
        rest, asteps := CommitOne(a, Next(c, st), x);
      } else {
        var submit := StampSimulates(a, c, x);
        asteps := [submit];
        assert P.Valid(P.Next(a, submit), asteps[1..]);
      }
      QuietlyThen(c, st, rest);
      steps := [st] + rest;
    }
  }

  lemma ProceedGiven(c: World, x: P.Side)
    requires Uncommitted(c.At(x))
    ensures var c' := Next(c, Proceed(x));
      SameGiven(c, c') && c'.At(x.Other()) == c.At(x.Other()) &&
      (if c.At(x).sendPc.LoadAck? then c'.At(x).sendPc.Stamp? else c'.At(x).sendPc.Insert?)
  {
  }

  /** From any moment all tasks come to rest. */
  lemma Settle(a: P.System, c: World) returns (steps: seq<Step>, asteps: seq<P.Step>)
    requires Simulates(a, c)
    ensures Quietly(c, steps) && P.Valid(a, asteps) && Simulates(P.Run(a, asteps), Run(c, steps))
    ensures SameGiven(c, Run(c, steps)) && Resting(Run(c, steps))
  {
    hide Simulates, Next, Enabled, P.Next, P.Enabled;
    var first, afirst := CommitOne(a, c, P.Host);
    var a1, c1 := P.Run(a, afirst), Run(c, first);
    var second, asecond := CommitOne(a1, c1, P.Peer);
    var a2, c2 := P.Run(a1, asecond), Run(c1, second);
    assert c2.At(P.Host) == c1.At(P.Host);
    var third := FinishBoth(a2, c2);
    P.RunAppend(a, afirst, asecond);
    QuietlyAppend(c1, second, third);
    QuietlyAppend(c, first, second + third);
    steps, asteps := first + (second + third), afirst + asecond;
  }

  // ---- every quiet schedule of handlers can be carried out

  /** At rest, what is in flight there is in flight here. */
  lemma InFlightHere(a: P.System, c: World, x: P.Side, j: nat) returns (i: nat)
    requires Simulates(a, c) && Resting(c) && j < |a.Inbox(x)|
    ensures i < |c.Inbox(x)| && c.Inbox(x)[i] == a.Inbox(x)[j]
  {
    hide NodeOk, Abs, Pending;
    var d := a.Inbox(x)[j];
    assert InboxMatches(a, c, x);
    AtRest(c.At(x.Other()), x.Other());
    assert d in multiset(a.Inbox(x));
    assert d in multiset(c.Inbox(x));
    assert d in c.Inbox(x);
    i :| 0 <= i < |c.Inbox(x)| && c.Inbox(x)[i] == d;
  }

  /** Any listing of the overdue entries is what some order of visiting the store finds. */
  lemma VisitingOrder(unacked: S.Unacked, now: nat, order: seq<u32>) returns (all: seq<u32>)
    requires S.Lists(order, S.Overdue(unacked, now))
    ensures S.Lists(all, unacked.Keys) && Due(unacked, now, all) == order
  {
    var others := S.SomeListing(unacked.Keys - S.Overdue(unacked, now));
    all := order + others;
    DueOfOverdue(unacked, now, order, others);
    assert forall k | k in others :: k in unacked.Keys - S.Overdue(unacked, now);
    DueOfOthers(unacked, now, others);
    assert order + [] == order;
    forall i, j | 0 <= i < j < |all| ensures all[i] != all[j] {
      if i < |order| <= j {
        assert all[i] in order && all[j] in others;
      }
    }
  }

  lemma {:induction false} DueOfOverdue(unacked: S.Unacked, now: nat, order: seq<u32>, others: seq<u32>)
    requires forall k | k in order :: k in S.Overdue(unacked, now)
    ensures Due(unacked, now, order + others) == order + Due(unacked, now, others)
  {
    if order == [] {
      assert order + others == others;
    } else {
      assert order[0] in order;
      assert (order + others)[1..] == order[1..] + others;
      DueOfOverdue(unacked, now, order[1..], others);
    }
  }

  lemma {:induction false} DueOfOthers(unacked: S.Unacked, now: nat, others: seq<u32>)
    requires forall k | k in others :: k !in S.Overdue(unacked, now)
    ensures Due(unacked, now, others) == []
  {
    if others != [] {
      assert others[0] in others;
      DueOfOthers(unacked, now, others[1..]);
    }
  }

  predicate Begins(st: Step) {
    st.Elapse? || st.StartScan? || st.Pop? || st.Arrive?
  }

  lemma BeginsLeaves(c: World, st: Step)
    requires Resting(c) && Enabled(c, st) && Begins(st)
    ensures SameGiven(c, Next(c, st))
    ensures !Uncommitted(Next(c, st).host) && !Uncommitted(Next(c, st).peer)
  {
    hide Compare;
    assert Rests(c.At(P.Host)) && Rests(c.At(P.Peer));
  }

  /** The statement with which a handler starts. */
  lemma StartOf(a: P.System, c: World, step: P.Step) returns (st: Step)
    requires Simulates(a, c) && P.SafetyInv(a) && Resting(c) && P.Enabled(a, step) && Recovery.Quiet(step)
    ensures Enabled(c, st) && Begins(st) && Simulates(P.Next(a, step), Next(c, st))
  {
    hide P.SafetyInv, NodeOk, Abs, Pending, Compare, OnDatagram, S.Lists;
    forall x: P.Side ensures Rests(c.At(x)) && a.At(x) == P.Endpoint(c.At(x).recv, c.At(x).send, c.At(x).given) {
      assert Rests(c.At(x));
      AtRest(c.At(x), x);
    }
    match step
    case Elapse(dt) =>
      st := Elapse(dt);
      LaterSimulates(a, c, dt);
    case Scan(x, order) =>
      var all := VisitingOrder(c.At(x).send.unacked, c.clock, order);
      st := StartScan(x, all);
      ScanSimulates(a, c, x, all);
    case SendAck(x) =>
      st := Pop(x);
      PopSimulates(a, c, x);
    case Deliver(x, j) =>
      var i := InFlightHere(a, c, x, j);
      st := Arrive(x, i);
      ArriveSimulates(a, c, x, i, j);
  }

  lemma {:induction false} Realise(a: P.System, c: World, asteps: seq<P.Step>) returns (steps: seq<Step>)
    requires Simulates(a, c) && P.SafetyInv(a) && Resting(c) && Recovery.Catchup(a, asteps)
    ensures Quietly(c, steps) && Simulates(P.Run(a, asteps), Run(c, steps))
    ensures SameGiven(c, Run(c, steps)) && Resting(Run(c, steps))
    decreases |asteps|
  {
    hide Simulates, Next, Enabled, P.SafetyInv, P.Next, P.Enabled, Uncommitted;
    if asteps == [] {
      steps := [];
    } else {
      assert asteps[0] in asteps;
      var st := StartOf(a, c, asteps[0]);
      var a1, c1 := P.Next(a, asteps[0]), Next(c, st);
      BeginsLeaves(c, st);
      P.StepKeepsSafety(a, asteps[0]);
      var finish := FinishBoth(a1, c1);
      assert forall other | other in asteps[1..] :: other in asteps;
      var rest := Realise(a1, Run(c1, finish), asteps[1..]);
      QuietlyAppend(c1, finish, rest);
      QuietlyThen(c, st, finish + rest);
      steps := [st] + (finish + rest);
    }
  }

  // ---- the main results

  /** `y` holds everything its peer was given, and nothing is left to reorder. */
  ghost predicate HasAll(c: World, y: P.Side) {
    && c.At(y).recv.expected == |c.At(y.Other()).given| + 1
    && c.At(y).recv.buffer == map[]
    && R.Payloads(c.At(y).recv.output) == P.Messages(c.At(y.Other()).given)
  }

  lemma SameAtRest(a: P.System, c: World, y: P.Side)
    requires Simulates(a, c) && Resting(c)
    ensures HasAll(c, y) <==> Recovery.HasAll(a, y)
    ensures a.host.given == c.host.given && a.peer.given == c.peer.given
  {
    hide NodeOk, Abs, Pending, R.Payloads, P.Messages;
    forall x: P.Side ensures a.At(x) == P.Endpoint(c.At(x).recv, c.At(x).send, c.At(x).given) {
      assert Rests(c.At(x));
      AtRest(c.At(x), x);
    }
    assert a.At(P.Host).given == c.At(P.Host).given && a.At(P.Peer).given == c.At(P.Peer).given;
  }

  lemma {:induction false} QuietlyKeepsGiven(c: World, steps: seq<Step>)
    requires Quietly(c, steps)
    ensures SameGiven(c, Run(c, steps))
    decreases |steps|
  {
    if steps != [] {
      QuietKeepsGiven(c, steps[0]);
      assert forall st | st in steps[1..] :: st in steps;
      QuietlyKeepsGiven(Next(c, steps[0]), steps[1..]);
    }
  }

  lemma QuietKeepsGiven(c: World, step: Step)
    requires Enabled(c, step) && Quiet(step)
    ensures SameGiven(c, Next(c, step))
  {
    hide Compare, P.Outgoing;
    if step.Handle? {
      HandleWorks(c.At(step.side));
    } else if step.Proceed? {
      ProceedWorks(c.At(step.side), c.clock);
    }
  }

  /** A run, continued until everything is at rest, and the handlers' run that goes with it. */
  lemma Settled(steps: seq<Step>) returns (more: seq<Step>, asteps: seq<P.Step>)
    requires Valid(Init, steps)
    ensures Quietly(Run(Init, steps), more) && Resting(Run(Run(Init, steps), more))
    ensures SameGiven(Run(Init, steps), Run(Run(Init, steps), more))
    ensures P.Valid(P.Init, asteps) && Simulates(P.Run(P.Init, asteps), Run(Run(Init, steps), more))
  {
    hide Simulates, Next, Enabled, P.Next, P.Enabled;
    var first := EveryRunRefines(steps);
    var rest;
    more, rest := Settle(P.Run(P.Init, first), Run(Init, steps));
    P.RunAppend(P.Init, first, rest);
    asteps := first + rest;
  }

  lemma Continued(steps: seq<Step>, more: seq<Step>) returns (asteps: seq<P.Step>)
    requires Valid(Init, steps) && Quietly(Run(Init, steps), more)
    ensures P.Valid(P.Init, asteps) && Simulates(P.Run(P.Init, asteps), Run(Run(Init, steps), more))
    ensures SameGiven(Run(Init, steps), Run(Run(Init, steps), more))
  {
    hide Simulates, Next, Enabled, P.Next, P.Enabled;
    var first := EveryRunRefines(steps);
    P.RunKeepsSafety(P.Init, first);
    var rest := RunSimulates(P.Run(P.Init, first), Run(Init, steps), more);
    P.RunAppend(P.Init, first, rest);
    QuietlyKeepsGiven(Run(Init, steps), more);
    asteps := first + rest;
  }

  /** Some quiet continuation from `c` comes to rest with `y` holding everything. */
  ghost predicate CanDeliver(c: World, y: P.Side) {
    exists more :: Quietly(c, more) && Resting(Run(c, more)) && HasAll(Run(c, more), y)
  }

  ghost predicate CanDeliverBoth(c: World) {
    exists more :: Quietly(c, more) && Resting(Run(c, more))
      && HasAll(Run(c, more), P.Host) && HasAll(Run(c, more), P.Peer)
  }

  /** From any moment of any run at which `x` has been given a message, some continuation without
      losses, duplicates or new messages comes to rest with the other endpoint holding all of them, if
      and only if no message is too long for a datagram. */
  lemma StatementRecoverability(steps: seq<Step>, x: P.Side)
    requires Valid(Init, steps) && Run(Init, steps).At(x).given != []
    ensures Recovery.AllLeave(Run(Init, steps).At(x).given) <==> CanDeliver(Run(Init, steps), x.Other())
  {
    hide Simulates, Next, Enabled, HasAll, P.Next, P.Enabled, Recovery.AllLeave, Recovery.HasAll;
    var c := Run(Init, steps);
    if Recovery.AllLeave(c.At(x).given) {
      var settle, asteps := Settled(steps);
      var a1, c1 := P.Run(P.Init, asteps), Run(c, settle);
      SameAtRest(a1, c1, x.Other());
      Recovery.Recoverability(asteps, x);
      var catchup :| Recovery.Catchup(a1, catchup) && Recovery.HasAll(P.Run(a1, catchup), x.Other());
      P.RunKeepsSafety(P.Init, asteps);
      var rest := Realise(a1, c1, catchup);
      SameAtRest(P.Run(a1, catchup), Run(c1, rest), x.Other());
      QuietlyAppend(c, settle, rest);
    } else {
      forall more | Quietly(c, more) && Resting(Run(c, more)) ensures !HasAll(Run(c, more), x.Other()) {
        var asteps := Continued(steps, more);
        var a := P.Run(P.Init, asteps);
        SameAtRest(a, Run(c, more), x.Other());
        Recovery.Recoverability(asteps, x);
        assert Recovery.Catchup(a, []) && P.Run(a, []) == a;
      }
    }
  }

  /** Some message has been given, and all that have fit into a datagram. */
  predicate Sendables(c: World) {
    && (c.host.given != [] || c.peer.given != [])
    && Recovery.AllLeave(c.host.given) && Recovery.AllLeave(c.peer.given)
  }

  /** From any moment of any run both endpoints can catch up if and only if at least one of them has
      ever been given a message, and neither has been given one too long for a datagram. */
  lemma BothStatementsRecoverIff(steps: seq<Step>)
    requires Valid(Init, steps)
    ensures Sendables(Run(Init, steps)) <==> CanDeliverBoth(Run(Init, steps))
  {
    hide Simulates, Next, Enabled, HasAll, P.Next, P.Enabled, Recovery.AllLeave, Recovery.HasAll;
    var c := Run(Init, steps);
    if Sendables(c) {
      var settle, asteps := Settled(steps);
      var a1, c1 := P.Run(P.Init, asteps), Run(c, settle);
      SameAtRest(a1, c1, P.Host);
      Recovery.BothRecoverIff(asteps);
      var catchup :| Recovery.Catchup(a1, catchup) &&
        Recovery.HasAll(P.Run(a1, catchup), P.Host) && Recovery.HasAll(P.Run(a1, catchup), P.Peer);
      P.RunKeepsSafety(P.Init, asteps);
      var rest := Realise(a1, c1, catchup);
      SameAtRest(P.Run(a1, catchup), Run(c1, rest), P.Host);
      SameAtRest(P.Run(a1, catchup), Run(c1, rest), P.Peer);
      QuietlyAppend(c, settle, rest);
    } else {
      forall more | Quietly(c, more) && Resting(Run(c, more))
        ensures !(HasAll(Run(c, more), P.Host) && HasAll(Run(c, more), P.Peer))
      {
        var asteps := Continued(steps, more);
        var a := P.Run(P.Init, asteps);
        SameAtRest(a, Run(c, more), P.Host);
        SameAtRest(a, Run(c, more), P.Peer);
        Recovery.BothRecoverIff(asteps);
        assert Recovery.Catchup(a, []) && P.Run(a, []) == a;
      }
    }
  }
}

/** The order in which the event loop takes its own steps. The relay's steps interleave freely,
    which is what safety needs; a run that is to show that something can happen must also be one the
    loop can take: it drains control messages, then the return channel, syncs if it sent anything,
    and only then looks at completions. */
module LoopOrder {
  import opened IoRing
  import opened Relay
  import opened RelaySafety

  datatype Phase =
    | Seeding(left: nat)
    | Registering              // draining the control messages
    | Sending(pushed: nat)     // draining the return channel
    | Publishing               // about to sync, having sent something
    | Collecting               // about to look for completions
    | Completing(left: nat)    // working off the completions then visible

  datatype Moment = Moment(server: Server, phase: Phase)

  datatype Move =
    | Do(step: Step)           // a step of the relay, the loop's own only in their phase
    | EndRegistering           // no control message is left
    | EndSending               // no send request is left
    | Collect(n: nat)          // cq.sync shows n completions
    | EndCompleting

  predicate InPhase(phase: Phase, step: Step) {
    match step
    case Seed => phase.Seeding? && phase.left > 0
    case SyncRing(_) => phase == Seeding(0) || phase.Publishing?
    case Register(_) => phase.Registering?
    case SendOne(_) => phase.Sending?
    case CompleteOne => phase.Completing? && phase.left > 0
    case _ => true             // shards, kernel and time do not wait for the loop
  }

  function PhaseAfter(phase: Phase, step: Step): Phase
    requires InPhase(phase, step)
  {
    match step
    case Seed => Seeding(phase.left - 1)
    case SyncRing(_) => if phase.Seeding? then Registering else Collecting
    case SendOne(_) => Sending(phase.pushed + 1)
    case CompleteOne => Completing(phase.left - 1)
    case _ => phase
  }

  ghost predicate Allowed(m: Moment, move: Move) {
    match move
    case Do(step) => Enabled(m.server, step) && InPhase(m.phase, step)
    case EndRegistering => m.phase.Registering?
    case EndSending => m.phase.Sending? && m.server.sqeQueue == []
    case Collect(n) => m.phase.Collecting? && n <= |m.server.ring.cq|
    case EndCompleting => m.phase == Completing(0)
  }

  ghost function Moved(m: Moment, move: Move): Moment
    requires Allowed(m, move)
  {
    match move
    case Do(step) => Moment(Next(m.server, step), PhaseAfter(m.phase, step))
    case EndRegistering => m.(phase := Sending(0))
    case EndSending => m.(phase := if m.phase.pushed > 0 then Publishing else Collecting)
    case Collect(n) => m.(phase := Completing(n))
    case EndCompleting => m.(phase := Registering)
  }

  ghost predicate Allows(m: Moment, moves: seq<Move>)
    decreases |moves|
  {
    moves == [] || (Allowed(m, moves[0]) && Allows(Moved(m, moves[0]), moves[1..]))
  }

  ghost function Reached(m: Moment, moves: seq<Move>): Moment
    requires Allows(m, moves)
    decreases |moves|
  {
    if moves == [] then m else Reached(Moved(m, moves[0]), moves[1..])
  }

  /** The server of main before seeding, `n` shards and a ring of `capacity` entries. */
  function Begin(n: nat, capacity: nat): Moment {
    Moment(Start(n, capacity), Seeding(POOL_SIZE))
  }

  lemma {:induction false} MovesAppend(m: Moment, a: seq<Move>, b: seq<Move>)
    requires Allows(m, a) && Allows(Reached(m, a), b)
    ensures Allows(m, a + b) && Reached(m, a + b) == Reached(Reached(m, a), b)
    decreases |a|
  {
    hide Moved, Allowed;
    if a == [] {
      assert a + b == b;
    } else {
      assert (a + b)[0] == a[0] && (a + b)[1..] == a[1..] + b;
      MovesAppend(Moved(m, a[0]), a[1..], b);
    }
  }

  lemma OneMove(m: Moment, move: Move)
    requires Allowed(m, move)
    ensures Allows(m, [move]) && Reached(m, [move]) == Moved(m, move)
  {
    hide Moved, Allowed;
    assert [move][1..] == [];
    assert Allows(Moved(m, move), []);
  }

  // ---- sequences of steps

  function Dos(steps: seq<Step>): seq<Move> {
    seq(|steps|, i requires 0 <= i < |steps| => Do(steps[i]))
  }

  predicate InPhases(phase: Phase, steps: seq<Step>)
    decreases |steps|
  {
    steps == [] || (InPhase(phase, steps[0]) && InPhases(PhaseAfter(phase, steps[0]), steps[1..]))
  }

  function PhaseAfterAll(phase: Phase, steps: seq<Step>): Phase
    requires InPhases(phase, steps)
    decreases |steps|
  {
    if steps == [] then phase else PhaseAfterAll(PhaseAfter(phase, steps[0]), steps[1..])
  }

  lemma {:induction false} DoAll(m: Moment, steps: seq<Step>)
    requires Valid(m.server, steps) && InPhases(m.phase, steps)
    ensures Allows(m, Dos(steps))
    ensures Reached(m, Dos(steps)) == Moment(Run(m.server, steps), PhaseAfterAll(m.phase, steps))
    decreases |steps|
  {
    hide Next, Enabled, InPhase, PhaseAfter;
    if steps != [] {
      assert Dos(steps)[0] == Do(steps[0]) && Dos(steps)[1..] == Dos(steps[1..]);
      DoAll(Moment(Next(m.server, steps[0]), PhaseAfter(m.phase, steps[0])), steps[1..]);
    }
  }

  lemma {:induction false} PhasesAppend(phase: Phase, a: seq<Step>, b: seq<Step>)
    requires InPhases(phase, a) && InPhases(PhaseAfterAll(phase, a), b)
    ensures InPhases(phase, a + b) && PhaseAfterAll(phase, a + b) == PhaseAfterAll(PhaseAfterAll(phase, a), b)
    decreases |a|
  {
    hide InPhase, PhaseAfter;
    if a == [] {
      assert a + b == b;
    } else {
      assert (a + b)[0] == a[0] && (a + b)[1..] == a[1..] + b;
      PhasesAppend(PhaseAfter(phase, a[0]), a[1..], b);
    }
  }

  predicate Free(step: Step) {
    step.ShardTake? || step.ShardHandle? || step.Kernel? || step.Elapse?
  }

  lemma {:induction false} FreeInPhases(phase: Phase, steps: seq<Step>)
    requires forall step | step in steps :: Free(step)
    ensures InPhases(phase, steps) && PhaseAfterAll(phase, steps) == phase
    decreases |steps|
  {
    if steps != [] {
      assert steps[0] in steps;
      FreeInPhases(phase, steps[1..]);
    }
  }

  lemma {:induction false} SeedsInPhase(n: nat, left: nat)
    requires n <= left
    ensures InPhases(Seeding(left), Seeds(n)) && PhaseAfterAll(Seeding(left), Seeds(n)) == Seeding(left - n)
    decreases n
  {
    if n > 0 {
      assert Seeds(n)[0] == Step.Seed && Seeds(n)[1..] == Seeds(n - 1);
      SeedsInPhase(n - 1, left - 1);
    }
  }

  lemma {:induction false} RegistersInPhase(steps: seq<Step>)
    requires forall step | step in steps :: step.Register?
    ensures InPhases(Registering, steps) && PhaseAfterAll(Registering, steps) == Registering
    decreases |steps|
  {
    if steps != [] {
      assert steps[0] in steps;
      RegistersInPhase(steps[1..]);
    }
  }

  /** A drain with no control message and no send request left. */
  lemma QuietTurn(m: Moment)
    requires m.phase.Registering? && m.server.sqeQueue == []
    ensures Allows(m, [EndRegistering, EndSending])
    ensures Reached(m, [EndRegistering, EndSending]) == m.(phase := Collecting)
  {
    OneMove(m, EndRegistering);
    OneMove(Moved(m, EndRegistering), EndSending);
    MovesAppend(m, [EndRegistering], [EndSending]);
    assert [EndRegistering] + [EndSending] == [EndRegistering, EndSending];
  }

  // ---- every run of the loop is a run of the relay

  function StepsOf(moves: seq<Move>): seq<Step> {
    if moves == [] then []
    else (if moves[0].Do? then [moves[0].step] else []) + StepsOf(moves[1..])
  }

  /** What holds on every run of the relay holds on every run in the loop's order. */
  lemma {:induction false} LoopRefinesRelay(m: Moment, moves: seq<Move>)
    requires Allows(m, moves)
    ensures Valid(m.server, StepsOf(moves)) && Reached(m, moves).server == Run(m.server, StepsOf(moves))
    decreases |moves|
  {
    hide Next, Enabled;
    if moves != [] {
      LoopRefinesRelay(Moved(m, moves[0]), moves[1..]);
      if moves[0].Do? {
        assert StepsOf(moves)[0] == moves[0].step && StepsOf(moves)[1..] == StepsOf(moves[1..]);
      } else {
        assert StepsOf(moves) == StepsOf(moves[1..]);
      }
    }
  }
}

/** The receive handler taken statement by statement, with the send task free to read
    receiver_acknowledged between any two of them. The shared counters stay within one of each
    other, and between handlers the state is exactly that of handlers run in one piece. */
module Interleaving {
  import opened Basics
  import opened Wire
  import R = Receiver

  /** The next statement of the receive task. */
  datatype Pc =
    | Idle                                  // waiting for a datagram
    | PassPacket(p: Packet)                 // output_tx.send(packet)
    | CountPacket(p: Packet)                // expected_sequence.fetch_add(1)
    | MarkPacket(p: Packet)                 // receiver_acknowledged.store(packet_seq)
    | QueueAck(p: Packet)                   // ack_tx.send(packet_seq)
    | TakeNext(next: u32)                   // recv_buffer.remove(&next_expected)
    | MarkNext(next: u32, q: Packet)        // receiver_acknowledged.fetch_add(1)
    | CountNext(next: u32, q: Packet)       // expected_sequence.fetch_add(1)
    | PassNext(next: u32, q: Packet)        // output_tx.send(p); next_expected += 1
    | StoreEarly(p: Packet)                 // recv_buffer.insert(seq, packet)
    | AnswerEarly(p: Packet)                // load receiver_acknowledged and send
    | EchoAck(p: Packet)                    // ack_tx.send(packet_ack)

  /** What the send task saw: the ack number, and how far things were at that moment. */
  datatype Reading = Reading(ack: u32, outputs: nat, begun: nat)

  datatype State = State(recv: R.Receiver, pc: Pc, wire: seq<Packet>,
                         begun: seq<Packet>, readings: seq<Reading>)

  datatype Step =
    | Begin(p: Packet)   // a packet arrives, expected_sequence is loaded and compared
    | Advance            // the receive task executes its next statement
    | ReadAck            // the send task loads receiver_acknowledged

  const Init := State(R.Fresh, Idle, [], [], [])

  predicate Enabled(s: State, step: Step) {
    match step
    case Begin(p) => s.pc.Idle? && p.SeqNum() + 1 < U32_LIMIT
    case Advance => !s.pc.Idle?
    case ReadAck => true
  }

  function Dispatch(r: R.Receiver, p: Packet): Pc {
    if p.SeqNum() == r.expected then PassPacket(p)
    else if p.SeqNum() > r.expected then StoreEarly(p)
    else if p.IsEmpty() then EchoAck(p)
    else Idle
  }

  function Advanced(s: State): State
    requires !s.pc.Idle?
  {
    var r := s.recv;
    match s.pc
    case PassPacket(p) => s.(recv := r.(output := r.output + [p]), pc := CountPacket(p))
    case CountPacket(p) => s.(recv := r.(expected := Inc(r.expected)), pc := MarkPacket(p))
    case MarkPacket(p) => s.(recv := r.(acked := p.SeqNum()), pc := QueueAck(p))
    case QueueAck(p) => s.(recv := r.(acks := r.acks + [p.SeqNum()]), pc := TakeNext(Inc(p.SeqNum())))
    case TakeNext(next) =>
      if next in r.buffer then s.(recv := r.(buffer := r.buffer - {next}), pc := MarkNext(next, r.buffer[next]))
      else s.(pc := Idle)
    case MarkNext(next, q) => s.(recv := r.(acked := Inc(r.acked)), pc := CountNext(next, q))
    case CountNext(next, q) => s.(recv := r.(expected := Inc(r.expected)), pc := PassNext(next, q))
    case PassNext(next, q) => s.(recv := r.(output := r.output + [q]), pc := TakeNext(Inc(next)))
    case StoreEarly(p) => s.(recv := r.(buffer := r.buffer[p.SeqNum() := p]), pc := AnswerEarly(p))
    case AnswerEarly(p) => s.(wire := s.wire + [R.Ack(r.acked)], pc := Idle)
    case EchoAck(p) => s.(recv := r.(acks := r.acks + [p.header.ack]), pc := Idle)
  }

  function Next(s: State, step: Step): State
    requires Enabled(s, step)
  {
    match step
    case Begin(p) => s.(pc := Dispatch(s.recv, p), begun := s.begun + [p])
    case Advance => Advanced(s)
    case ReadAck =>
      s.(readings := s.readings + [Reading(s.recv.acked, |s.recv.output|, |s.begun|)])
  }

  predicate Valid(s: State, steps: seq<Step>)
    decreases |steps|
  {
    steps == [] || (Enabled(s, steps[0]) && Valid(Next(s, steps[0]), steps[1..]))
  }

  function Run(s: State, steps: seq<Step>): State
    requires Valid(s, steps)
    decreases |steps|
  {
    if steps == [] then s else Run(Next(s, steps[0]), steps[1..])
  }

  // ---- where the counters can be at each statement

  predicate AtRest(r: R.Receiver) {
    && |r.output| == r.expected
    && r.acked == (if r.expected == 0 then 0 else r.expected - 1)
    && (forall k | k in r.buffer :: r.expected < k)
  }

  predicate CountersOk(s: State) {
    var r := s.recv;
    && U32_LIMIT - 1 !in r.buffer
    && match s.pc
       case Idle => AtRest(r)
       case PassPacket(p) => AtRest(r) && p.SeqNum() == r.expected < U32_LIMIT - 1
       case CountPacket(p) =>
         p.SeqNum() == r.expected < U32_LIMIT - 1 && r.output != [] &&
         AtRest(r.(output := r.output[..|r.output| - 1]))
       case MarkPacket(p) =>
         && |r.output| == r.expected == p.SeqNum() + 1
         && r.acked == (if p.SeqNum() == 0 then 0 else p.SeqNum() - 1)
         && (forall k | k in r.buffer :: r.expected <= k)
       case QueueAck(p) => Draining(r) && p.SeqNum() + 1 == r.expected
       case TakeNext(next) => Draining(r) && next == r.expected
       case MarkNext(next, q) => Draining(r) && next == r.expected < U32_LIMIT - 1 && next !in r.buffer
       case CountNext(next, q) =>
         && |r.output| == r.expected == next == r.acked < U32_LIMIT - 1
         && (forall k | k in r.buffer :: r.expected < k)
       case PassNext(next, q) =>
         && next + 1 == r.expected && r.acked == next == |r.output|
         && (forall k | k in r.buffer :: r.expected <= k)
       case StoreEarly(p) => AtRest(r) && r.expected < p.SeqNum() < U32_LIMIT - 1
       case AnswerEarly(p) => AtRest(r)
       case EchoAck(p) => AtRest(r)
  }

  predicate Draining(r: R.Receiver) {
    && |r.output| == r.expected && r.acked + 1 == r.expected
    && (forall k | k in r.buffer :: r.expected <= k)
  }

  /** What the receive handler will have done when it is through: the state and the answers. */
  function Finish(s: State): (R.Receiver, seq<Packet>) {
    var r := s.recv;
    match s.pc
    case Idle => (r, s.wire)
    case PassPacket(p) => (R.Drain(R.PassOn(r, p), Inc(p.SeqNum())), s.wire)
    case CountPacket(p) =>
      (R.Drain(r.(expected := Inc(r.expected), acked := p.SeqNum(), acks := r.acks + [p.SeqNum()]),
               Inc(p.SeqNum())), s.wire)
    case MarkPacket(p) =>
      (R.Drain(r.(acked := p.SeqNum(), acks := r.acks + [p.SeqNum()]), Inc(p.SeqNum())), s.wire)
    case QueueAck(p) => (R.Drain(r.(acks := r.acks + [p.SeqNum()]), Inc(p.SeqNum())), s.wire)
    case TakeNext(next) => (R.Drain(r, next), s.wire)
    case MarkNext(next, q) =>
      (R.Drain(r.(acked := Inc(r.acked), expected := Inc(r.expected), output := r.output + [q]),
               Inc(next)), s.wire)
    case CountNext(next, q) =>
      (R.Drain(r.(expected := Inc(r.expected), output := r.output + [q]), Inc(next)), s.wire)
    case PassNext(next, q) => (R.Drain(r.(output := r.output + [q]), Inc(next)), s.wire)
    case StoreEarly(p) => (r.(buffer := r.buffer[p.SeqNum() := p]), s.wire + [R.Ack(r.acked)])
    case AnswerEarly(p) => (r, s.wire + [R.Ack(r.acked)])
    case EchoAck(p) => (r.(acks := r.acks + [p.header.ack]), s.wire)
  }

  /** The handlers run in one piece, one after the other. */
  function InOnePiece(ps: seq<Packet>): (R.Receiver, seq<Packet>) {
    if ps == [] then (R.Fresh, [])
    else
      var (r, sent) := InOnePiece(ps[..|ps| - 1]);
      var (r', more) := R.OnPacket(r, ps[|ps| - 1]);
      (r', sent + more)
  }

  predicate ReadingOk(rd: Reading, begun: seq<Packet>) {
    && rd.begun <= |begun|
    // at most one sequence number ahead of what was output
    && rd.ack <= rd.outputs
    // and covered by the handler during which it was read
    && rd.ack <= InOnePiece(begun[..rd.begun]).0.acked
  }

  predicate Inv(s: State) {
    && CountersOk(s)
    && Finish(s) == InOnePiece(s.begun)
    && (forall rd | rd in s.readings :: ReadingOk(rd, s.begun))
  }

  // ---- the proofs

  ghost predicate Onward(s: State, t: State) {
    CountersOk(t) && s.recv.acked <= t.recv.acked && s.recv.expected <= t.recv.expected
  }

  lemma ArrivalKeepsCounters(s: State)
    requires CountersOk(s) && (s.pc.PassPacket? || s.pc.CountPacket? || s.pc.MarkPacket? || s.pc.QueueAck?)
    ensures Onward(s, Advanced(s))
  {
    match s.pc
    case PassPacket(p) =>
      var r := s.recv;
      assert (r.output + [p])[..|r.output|] == r.output;
    case CountPacket(_) =>
    case MarkPacket(_) =>
    case QueueAck(_) =>
  }

  lemma DrainKeepsCounters(s: State)
    requires CountersOk(s) && (s.pc.TakeNext? || s.pc.MarkNext? || s.pc.CountNext? || s.pc.PassNext?)
    ensures Onward(s, Advanced(s))
  {
    match s.pc
    case TakeNext(_) =>
    case MarkNext(_, _) =>
    case CountNext(_, _) =>
    case PassNext(_, _) =>
  }

  lemma AdvanceKeepsCounters(s: State)
    requires !s.pc.Idle? && CountersOk(s)
    ensures Onward(s, Advanced(s))
  {
    if s.pc.PassPacket? || s.pc.CountPacket? || s.pc.MarkPacket? || s.pc.QueueAck? {
      ArrivalKeepsCounters(s);
    } else if s.pc.TakeNext? || s.pc.MarkNext? || s.pc.CountNext? || s.pc.PassNext? {
      DrainKeepsCounters(s);
    } else {
    }
  }

  lemma AdvanceKeepsFinish(s: State)
    requires !s.pc.Idle? && CountersOk(s)
    ensures Finish(Advanced(s)) == Finish(s)
  {
  }

  lemma BeginFinish(s: State, p: Packet)
    requires s.pc.Idle? && Finish(s) == InOnePiece(s.begun)
    ensures Finish(s.(pc := Dispatch(s.recv, p), begun := s.begun + [p])) == InOnePiece(s.begun + [p])
  {
    assert (s.begun + [p])[..|s.begun|] == s.begun;
    assert s.wire + [] == s.wire;
  }

  /** Draining only adds. */
  lemma DrainAdds(r: R.Receiver, next: u32)
    requires r.acked <= r.expected && |r.output| == r.expected && U32_LIMIT - 1 !in r.buffer && next == r.expected
    ensures r.acked <= R.Drain(r, next).acked && r.output <= R.Drain(r, next).output
  {
    R.DrainClosedForm(r, U32_LIMIT - 1);
  }

  lemma BelowFinish(s: State)
    requires CountersOk(s)
    ensures s.recv.acked <= Finish(s).0.acked && s.recv.output <= Finish(s).0.output
  {
    hide R.Drain;
    var r := s.recv;
    match s.pc
    case PassPacket(p) => DrainAdds(R.PassOn(r, p), Inc(p.SeqNum()));
    case CountPacket(p) =>
      DrainAdds(r.(expected := Inc(r.expected), acked := p.SeqNum(), acks := r.acks + [p.SeqNum()]), Inc(p.SeqNum()));
    case MarkPacket(p) => DrainAdds(r.(acked := p.SeqNum(), acks := r.acks + [p.SeqNum()]), Inc(p.SeqNum()));
    case QueueAck(p) => DrainAdds(r.(acks := r.acks + [p.SeqNum()]), Inc(p.SeqNum()));
    case TakeNext(next) => DrainAdds(r, next);
    case MarkNext(next, q) =>
      DrainAdds(r.(acked := Inc(r.acked), expected := Inc(r.expected), output := r.output + [q]), Inc(next));
    case CountNext(next, q) => DrainAdds(r.(expected := Inc(r.expected), output := r.output + [q]), Inc(next));
    case PassNext(next, q) => DrainAdds(r.(output := r.output + [q]), Inc(next));
    case _ =>
  }

  lemma BeginKeepsInv(s: State, p: Packet)
    requires Inv(s) && Enabled(s, Begin(p))
    ensures Inv(Next(s, Begin(p)))
  {
    BeginFinish(s, p);
    forall rd | rd in s.readings ensures ReadingOk(rd, s.begun + [p]) {
      assert (s.begun + [p])[..rd.begun] == s.begun[..rd.begun];
    }
  }

  lemma AdvanceLeaves(s: State)
    requires !s.pc.Idle?
    ensures Advanced(s).begun == s.begun && Advanced(s).readings == s.readings
  {
  }

  lemma AdvanceKeepsInv(s: State)
    requires Inv(s) && !s.pc.Idle?
    ensures Inv(Advanced(s))
    ensures s.recv.acked <= Advanced(s).recv.acked && s.recv.expected <= Advanced(s).recv.expected
  {
    hide Finish, InOnePiece, CountersOk, Advanced, ReadingOk;
    AdvanceKeepsCounters(s);
    AdvanceKeepsFinish(s);
    AdvanceLeaves(s);
  }

  lemma SameButReadings(s: State, t: State)
    requires t == s.(readings := t.readings)
    ensures Finish(t) == Finish(s) && (CountersOk(s) ==> CountersOk(t))
  {
  }

  lemma ReadKeepsInv(s: State)
    requires Inv(s)
    ensures Inv(Next(s, ReadAck))
  {
    hide Finish, InOnePiece, CountersOk;
    BelowFinish(s);
    OutputCovers(s);
    SameButReadings(s, Next(s, ReadAck));
    assert s.begun[..|s.begun|] == s.begun;
  }

  lemma OutputCovers(s: State)
    requires CountersOk(s)
    ensures s.recv.acked <= |s.recv.output|
  {
  }

  lemma StepKeepsInv(s: State, step: Step)
    requires Inv(s) && Enabled(s, step)
    ensures Inv(Next(s, step))
    ensures s.recv.acked <= Next(s, step).recv.acked && s.recv.expected <= Next(s, step).recv.expected
  {
    hide Finish, InOnePiece, CountersOk, Advanced, ReadingOk;
    match step
    case Begin(p) => BeginKeepsInv(s, p);
    case Advance => AdvanceKeepsInv(s);
    case ReadAck => ReadKeepsInv(s);
  }

  lemma {:induction false} RunKeepsInv(s: State, steps: seq<Step>)
    requires Inv(s) && Valid(s, steps)
    ensures Inv(Run(s, steps))
    ensures s.recv.acked <= Run(s, steps).recv.acked && s.recv.expected <= Run(s, steps).recv.expected
    decreases |steps|
  {
    if steps != [] {
      StepKeepsInv(s, steps[0]);
      RunKeepsInv(Next(s, steps[0]), steps[1..]);
    }
  }

  /** How far the output, expected_sequence and receiver_acknowledged are apart at each statement. An
      arriving packet is output before it is counted, a drained one after; and a drained one is
      acknowledged before it is counted. */
  predicate Apart(s: State) {
    var r := s.recv;
    && |r.output| == r.expected + (if s.pc.CountPacket? then 1 else if s.pc.PassNext? then -1 else 0)
    && r.acked == (if s.pc.CountNext? then r.expected
                   else if s.pc.MarkPacket? then (if r.expected < 2 then 0 else r.expected - 2)
                   else if r.expected == 0 then 0 else r.expected - 1)
  }

  lemma CountersApart(s: State)
    requires CountersOk(s)
    ensures Apart(s)
  {
  }

  /** At every moment of every interleaving the output count and both counters are exactly as far apart
      as the next statement says, every ack number the send task has read is at most one ahead of what
      had been output and is covered by the handler it was read during, and between handlers the whole
      state is that of handlers run in one piece. */
  lemma EveryInterleaving(steps: seq<Step>)
    requires Valid(Init, steps)
    ensures var s := Run(Init, steps);
      && Apart(s)
      && (forall rd | rd in s.readings :: ReadingOk(rd, s.begun))
      && (s.pc.Idle? ==> AtRest(s.recv) && (s.recv, s.wire) == InOnePiece(s.begun))
  {
    RunKeepsInv(Init, steps);
    CountersApart(Run(Init, steps));
  }

  /** The counters never decrease from any moment of an interleaving to any later one. */
  lemma CountersNeverDecrease(before: seq<Step>, after: seq<Step>)
    requires Valid(Init, before) && Valid(Run(Init, before), after)
    ensures var s, t := Run(Init, before), Run(Run(Init, before), after);
      s.recv.acked <= t.recv.acked && s.recv.expected <= t.recv.expected
  {
    RunKeepsInv(Init, before);
    RunKeepsInv(Run(Init, before), after);
  }

  // ---- one ahead

  lemma {:induction false} OneMore(s: State, steps: seq<Step>, step: Step)
    requires Valid(s, steps) && Enabled(Run(s, steps), step)
    ensures Valid(s, steps + [step]) && Run(s, steps + [step]) == Next(Run(s, steps), step)
    decreases |steps|
  {
    hide Next, Enabled;
    if steps == [] {
      assert [step][1..] == [];
    } else {
      assert (steps + [step])[0] == steps[0] && (steps + [step])[1..] == steps[1..] + [step];
      OneMore(Next(s, steps[0]), steps[1..], step);
    }
  }

  lemma {:induction false} MoreAdvances(s: State, steps: seq<Step>, n: nat) returns (more: seq<Step>)
    requires Valid(s, steps) && Advances(Run(s, steps), n)
    ensures Valid(s, more) && Run(s, more) == After(Run(s, steps), n)
    decreases n
  {
    if n == 0 {
      more := steps;
    } else {
      OneMore(s, steps, Advance);
      more := MoreAdvances(s, steps + [Advance], n - 1);
    }
  }

  /** The receive task has at least `n` statements left in its handler. */
  predicate Advances(s: State, n: nat)
    decreases n
  {
    n == 0 || (!s.pc.Idle? && Advances(Advanced(s), n - 1))
  }

  function After(s: State, n: nat): State
    requires Advances(s, n)
    decreases n
  {
    if n == 0 then s else After(Advanced(s), n - 1)
  }

  const EarlyPacket := Packet(Header(1, 0), Some([0]))

  /** Packet 1 has arrived before packet 0 and is stored. */
  lemma StoresEarly() returns (steps: seq<Step>)
    ensures Valid(Init, steps)
    ensures Run(Init, steps) ==
      State(R.Fresh.(buffer := map[1 := EarlyPacket]), Idle, [R.Ack(0)], [EarlyPacket], [])
  {
    OneMore(Init, [], Begin(EarlyPacket));
    steps := MoreAdvances(Init, [Begin(EarlyPacket)], 2);
  }

  /** The number read can be as large as expected_sequence, although it acknowledges only what is below:
      packet 1 arrives before packet 0, and the send task reads while packet 1 is being drained. */
  lemma AckReadAhead() returns (steps: seq<Step>)
    ensures Valid(Init, steps)
    ensures var s := Run(Init, steps); s.readings != [] && s.readings[0].ack == s.recv.expected == 1
  {
    hide Valid, Run;
    steps := StoresEarly();
    OneMore(Init, steps, Begin(R.Ack(0)));
    steps := MoreAdvances(Init, steps + [Begin(R.Ack(0))], 6);
    OneMore(Init, steps, ReadAck);
    steps := steps + [ReadAck];
  }
}

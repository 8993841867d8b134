/** A shard with its queue and tables, the channel to the loop, and the router, as objects. */
module Shards {
  import opened Basics
  import opened IoRing
  import R = Relay

  class ShardQueue {
    const capacity: nat
    var items: seq<R.Message>

    constructor (capacity: nat)
      ensures this.capacity == capacity && items == []
    {
      this.capacity := capacity;
      items := [];
    }

    method Enqueue(m: R.Message) returns (ok: bool)
      modifies this
      ensures ok <==> |old(items)| < capacity
      ensures items == if ok then old(items) + [m] else old(items)
    {
      ok := |items| < capacity;
      if ok { items := items + [m]; }
    }

    method Dequeue() returns (m: Option<R.Message>)
      modifies this
      ensures m.None? ==> old(items) == [] == items
      ensures m.Some? ==> old(items) == [m.value] + items
    {
      if items == [] { return None; }
      m := Some(items[0]);
      items := items[1..];
    }
  }

  /** The bounded channel to the loop. */
  class Channel {
    const capacity: nat
    var items: seq<R.SendRequest>

    constructor (capacity: nat)
      ensures this.capacity == capacity && items == []
    {
      this.capacity := capacity;
      items := [];
    }

    method TrySend(m: R.SendRequest) returns (ok: bool)
      modifies this
      ensures ok <==> |old(items)| < capacity
      ensures items == if ok then old(items) + [m] else old(items)
    {
      ok := |items| < capacity;
      if ok { items := items + [m]; }
    }

    method TryRecv() returns (m: Option<R.SendRequest>)
      modifies this
      ensures m.None? ==> old(items) == [] == items
      ensures m.Some? ==> old(items) == [m.value] + items
    {
      if items == [] { return None; }
      m := Some(items[0]);
      items := items[1..];
    }
  }

  /** What a shard does with its first message: its new state, and what it sends to the loop if that
      has room for `room` more. */
  function Handled(sh: R.Shard, id: R.Uuid, room: nat): (R.Shard, seq<R.SendRequest>)
    requires sh.queue != []
  {
    var d := R.Dequeue(sh, id);
    if d.inHand.None? then (d, [])
    else
      var reply := R.Reply(d, d.inHand.value, room > 0);
      (d.(inHand := sh.inHand), if reply.Some? then [reply.value] else [])
  }

  /** A shard between two messages, and everything in its channel to the loop. */
  datatype ShardState = ShardState(shard: R.Shard, sent: seq<R.SendRequest>)

  /** One message takes the shard from `a` to `b`. */
  predicate ShardStep(a: ShardState, id: R.Uuid, capacity: nat, b: ShardState) {
    && a.shard.queue != []
    && b.shard == Handled(a.shard, id, Left(a, capacity)).0
    && b.sent == a.sent + Handled(a.shard, id, Left(a, capacity)).1
  }

  function Left(a: ShardState, capacity: nat): nat {
    if |a.sent| <= capacity then capacity - |a.sent| else 0
  }

  lemma HandledInStep(s: R.Server, k: nat)
    requires k < |s.shards| && s.shards[k].inHand.Some?
    ensures var reply := R.Reply(s.shards[k], s.shards[k].inHand.value, |s.sqeQueue| < s.ReturnCapacity());
      && R.HandlePacket(s, k).shards == s.shards[k := s.shards[k].(inHand := None)]
      && R.HandlePacket(s, k).sqeQueue == s.sqeQueue + if reply.Some? then [reply.value] else []
  {
    hide R.Reply, Drop;
    if R.Answer(s, k).Some? {
    } else {
    }
  }

  /** A turn of the shard is its one or two steps in the relay. */
  lemma TurnRefines(s: R.Server, k: nat, id: R.Uuid)
    requires R.Enabled(s, R.ShardTake(k, id))
    ensures var room := if |s.sqeQueue| < s.ReturnCapacity() then s.ReturnCapacity() - |s.sqeQueue| else 0;
      var (sh, out) := Handled(s.shards[k], id, room);
      var s1 := R.Next(s, R.ShardTake(k, id));
      if s1.shards[k].inHand.None? then s1 == s.(shards := s.shards[k := sh]) && out == []
      else
        && R.Enabled(s1, R.ShardHandle(k))
        && R.Next(s1, R.ShardHandle(k)).shards == s.shards[k := sh]
        && R.Next(s1, R.ShardHandle(k)).sqeQueue == s.sqeQueue + out
  {
    hide R.Reply, R.HandlePacket;
    var s1 := R.Next(s, R.ShardTake(k, id));
    if s1.shards[k].inHand.Some? {
      HandledInStep(s1, k);
    }
  }

  class Shard {
    const recv: ShardQueue
    const txOut: Channel
    var sessionTable: map<R.Uuid, R.Session>
    var sessionId: map<Addr, R.Uuid>

    function Value(): R.Shard
      reads this, recv
    {
      R.Shard(recv.items, sessionTable, sessionId, None)
    }

    function Room(): nat
      reads txOut
    {
      if |txOut.items| <= txOut.capacity then txOut.capacity - |txOut.items| else 0
    }

    constructor (recv: ShardQueue, txOut: Channel)
      ensures this.recv == recv && this.txOut == txOut
      ensures Value() == R.Shard(recv.items, map[], map[], None)
    {
      this.recv, this.txOut := recv, txOut;
      sessionTable, sessionId := map[], map[];
    }

    method AddSession(session: R.Session, id: R.Uuid)
      modifies this
      ensures Value() == old(Value()).WithSession(id, session)
    {
      sessionId := sessionId[session.host := id];
      sessionId := sessionId[session.peer := id];
      sessionTable := sessionTable[id := session];
    }

    method HandlePacket(p: R.Packet)
      modifies txOut
      ensures var reply := R.Reply(Value(), p, old(Room()) > 0);
        txOut.items == old(txOut.items) + if reply.Some? then [reply.value] else []
    {
      if p.src in sessionId {
        if sessionId[p.src] in sessionTable {
          var dst := sessionTable[sessionId[p.src]].RouteTo(p.src);
          if dst.Some? {
            var _ := txOut.TrySend(R.SendRequest(dst.value, p.len, p.bufIdx));
          }
        }
      }
    }

    /** One turn of the loop in run; the id is fresh. */
    method Turn(id: R.Uuid)
      modifies this, recv, txOut
      ensures old(Value()).queue == [] ==> Value() == old(Value()) && txOut.items == old(txOut.items)
      ensures old(Value()).queue != [] ==>
        && Value() == Handled(old(Value()), id, old(Room())).0
        && txOut.items == old(txOut.items) + Handled(old(Value()), id, old(Room())).1
    {
      var m := recv.Dequeue();
      match m
      case None =>
      case Some(AddSession(session)) => AddSession(session, id);
      case Some(Transmit(p)) => HandlePacket(p);
    }

    ghost function Snapshot(): ShardState
      reads this, recv, txOut
    {
      ShardState(Value(), txOut.items)
    }

    /** The loop of run, for as many messages as there are fresh ids: `trace` holds the shard's states
        in between, and each message takes it from one to the next. */
    method Run(ids: seq<R.Uuid>) returns (ghost trace: seq<ShardState>)
      modifies this, recv, txOut
      ensures 1 <= |trace| <= |ids| + 1
      ensures trace[0] == old(Snapshot()) && trace[|trace| - 1] == Snapshot()
      ensures forall i | 0 <= i < |trace| - 1 :: ShardStep(trace[i], ids[i], txOut.capacity, trace[i + 1])
      ensures |trace| == |ids| + 1 || recv.items == []
    {
      hide Handled;
      var n := 0;
      trace := [Snapshot()];
      while n < |ids| && recv.items != []
        invariant n <= |ids| && |trace| == n + 1
        invariant trace[0] == old(Snapshot()) && trace[n] == Snapshot()
        invariant forall i | 0 <= i < n :: ShardStep(trace[i], ids[i], txOut.capacity, trace[i + 1])
      {
        Turn(ids[n]);
        trace := trace + [Snapshot()];
        n := n + 1;
      }
    }
  }

  class ShardRouter {
    const senders: seq<ShardQueue>
    var endpointToShard: map<Addr, nat>
    var nextShard: nat

    ghost predicate Valid()
      reads this
    {
      && nextShard < |senders|
      && (forall a | a in endpointToShard :: endpointToShard[a] < |senders|)
      && (forall i, j | 0 <= i < j < |senders| :: senders[i] != senders[j])
    }

    constructor (senders: seq<ShardQueue>)
      requires senders != [] && forall i, j | 0 <= i < j < |senders| :: senders[i] != senders[j]
      ensures Valid() && this.senders == senders && endpointToShard == map[] && nextShard == 0
    {
      this.senders := senders;
      endpointToShard, nextShard := map[], 0;
    }

    /** Known source and room: the packet is in its shard's queue; otherwise it is gone. */
    method Route(p: R.Packet) returns (ghost k: Option<nat>)
      requires Valid()
      modifies set q | q in senders
      ensures k.Some? <==>
        && p.src in endpointToShard
        && |old(senders[endpointToShard[p.src]].items)| < senders[endpointToShard[p.src]].capacity
      ensures k.Some? ==> k.value == endpointToShard[p.src]
      ensures forall j | 0 <= j < |senders| ::
        senders[j].items == old(senders[j].items) + (if k == Some(j) then [R.Transmit(p)] else [])
    {
      k := None;
      if p.src in endpointToShard {
        var idx := endpointToShard[p.src];
        var ok := senders[idx].Enqueue(R.Transmit(p));
        if ok { k := Some(idx); }
      }
    }

    method NextShard() returns (k: nat)
      requires Valid()
      modifies this`nextShard
      ensures Valid() && k == old(nextShard) && nextShard == (k + 1) % |senders|
    {
      k := nextShard;
      nextShard := (nextShard + 1) % |senders|;
    }
  }
}

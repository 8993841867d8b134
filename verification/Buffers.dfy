/** The buffer pool and the loop's half of the submission ring as objects. */
module Buffers {
  import opened Basics
  import opened Bags
  import opened Token
  import opened IoRing
  import opened IoRingSafety
  import opened Relay

  /** What the loop sees of the submission ring; the kernel's view is refreshed by Sync only. */
  class SubmissionQueue {
    const capacity: nat
    var entries: seq<Request>
    var published: nat
    var taken: nat

    function Value(): Sq
      reads this
    {
      Sq(capacity, entries, published, taken)
    }

    constructor (capacity: nat)
      ensures Value() == Sq(capacity, [], 0, 0)
    {
      this.capacity := capacity;
      entries, published, taken := [], 0, 0;
    }

    method Push(q: Request) returns (ok: bool)
      modifies this
      ensures Value() == IoRing.Push(old(Value()), q)
      ensures ok <==> !IsFull(old(Value()))
    {
      ok := |entries| < capacity;
      if ok { entries := entries + [q]; }
    }

    /** `consumed` entries are what the kernel takes between the store of the tail and the load of
        the head. */
    method Sync(consumed: nat)
      requires Value().Ok() && consumed <= |Value().Pending()|
      modifies this
      ensures Value() == SyncSq(old(Value()), consumed)
      ensures entries == old(entries)[old(taken) + consumed..] && published == |entries| && taken == 0
    {
      entries := entries[taken..][consumed..];
      published, taken := |entries|, 0;
    }
  }

  class BufferPool {
    var freeList: seq<nat>
    var liveSlots: map<nat, nat>
    var heap: map<nat, Slot>          // the boxed slots
    var nextBox: nat
    var timestamp: map<nat, Timing>

    function Value(): Pool
      reads this
    {
      Pool(freeList, liveSlots, heap, nextBox)
    }

    ghost predicate Valid()
      reads this
    {
      PoolOk(Value())
    }

    constructor ()
      ensures Valid() && Value() == Pool([], map[], map[], 0) && timestamp == map[]
    {
      freeList, liveSlots, heap, nextBox, timestamp := [], map[], map[], 0, map[];
    }

    method RegisterBufferKernel()
      modifies this`freeList
      ensures freeList == old(freeList) + UpTo(POOL_SIZE)
    {
      for i := 0 to POOL_SIZE
        invariant freeList == old(freeList) + UpTo(i)
      {
        freeList := freeList + [i];
        assert UpTo(i + 1) == UpTo(i) + [i];
      }
    }

    method Acquire() returns (idx: Option<nat>)
      requires Valid()
      modifies this`freeList
      ensures Valid()
      ensures idx.None? ==> old(freeList) == [] && freeList == []
      ensures idx.Some? ==> old(freeList) == freeList + [idx.value]
    {
      if freeList == [] { return None; }
      idx := Some(freeList[|freeList| - 1]);
      freeList := freeList[..|freeList| - 1];
    }

    /** A new box with a slot that points at buffer `idx`; slice_mut wants the index in bounds. */
    method MsgHdrPtrFor(idx: u16, addr: Addr) returns (ptr: nat)
      requires idx < POOL_SIZE
      modifies this`heap, this`nextBox
      ensures ptr == old(nextBox) && nextBox == ptr + 1
      ensures heap == old(heap)[ptr := Slot(idx, addr)]
    {
      ptr := nextBox;
      heap := heap[ptr := Slot(idx, addr)];
      nextBox := nextBox + 1;
    }

    /** The box that was live for `idx` is freed. */
    method InsertSlot(idx: u16, ptr: nat)
      modifies this`liveSlots, this`heap
      ensures liveSlots == old(liveSlots)[idx := ptr]
      ensures heap == old(heap) - (if idx in old(liveSlots) then {old(liveSlots)[idx]} else {})
    {
      if idx in liveSlots { heap := heap - {liveSlots[idx]}; }
      liveSlots := liveSlots[idx := ptr];
    }

    method NewSlot(idx: u16, addr: Addr) returns (ptr: nat)
      requires Valid() && idx < POOL_SIZE
      modifies this`heap, this`nextBox, this`liveSlots
      ensures Valid() && ptr == old(nextBox)
      ensures Value() == Alloc(old(Value()), idx, addr)
    {
      ghost var before := Value();
      AllocPool(before, idx, addr);
      ptr := MsgHdrPtrFor(idx, addr);
      InsertSlot(idx, ptr);
      assert heap == Alloc(before, idx, addr).boxes;
    }

    method PostRecvSqe(sq: SubmissionQueue, idx: u16)
      requires Valid() && idx < POOL_SIZE
      modifies this`heap, this`nextBox, this`liveSlots, sq
      ensures Valid()
      ensures Value() == Alloc(old(Value()), idx, UNSPECIFIED)
      ensures sq.Value() == IoRing.Push(old(sq.Value()), NewRequest(old(Value()), RecvMsg, idx))
    {
      var ptr := NewSlot(idx, UNSPECIFIED);
      var _ := sq.Push(Request(RecvMsg, EncodeToken(Recv, idx), ptr));
    }

    /** The length is not used: the whole buffer is sent. */
    method PostSendSqe(sq: SubmissionQueue, len: nat, idx: u16, dest: Addr)
      requires Valid() && idx < POOL_SIZE
      modifies this`heap, this`nextBox, this`liveSlots, sq
      ensures Valid()
      ensures Value() == Alloc(old(Value()), idx, dest)
      ensures sq.Value() == IoRing.Push(old(sq.Value()), NewRequest(old(Value()), SendMsgZc, idx))
    {
      var ptr := NewSlot(idx, dest);
      var _ := sq.Push(Request(SendMsgZc, EncodeToken(Send, idx), ptr));
    }

    method Release(idx: u16, sq: SubmissionQueue)
      requires Valid() && idx < POOL_SIZE
      modifies this`heap, this`nextBox, this`liveSlots, sq
      ensures Valid()
      ensures Value() == Alloc(old(Value()), idx, UNSPECIFIED)
      ensures sq.Value() == IoRing.Push(old(sq.Value()), NewRequest(old(Value()), RecvMsg, idx))
    {
      PostRecvSqe(sq, idx);
    }

    method MarkRecvFor(idx: u16, now: nat)
      modifies this`timestamp
      ensures timestamp == old(timestamp)[idx := Timing(now, None, None)]
    {
      timestamp := timestamp[idx := Timing(now, None, None)];
    }

    method MarkShardDoneAt(idx: u16, now: nat)
      modifies this`timestamp
      ensures timestamp == MarkShardDone(old(timestamp), idx, now)
      ensures timestamp.Keys == old(timestamp).Keys
      ensures forall i | i in timestamp ::
        timestamp[i] == if i == idx then old(timestamp)[i].(shardDoneAt := Some(now)) else old(timestamp)[i]
    {
      if idx in timestamp { timestamp := timestamp[idx := timestamp[idx].(shardDoneAt := Some(now))]; }
    }

    method MarkSendSqeAt(idx: u16, now: nat)
      modifies this`timestamp
      ensures timestamp == MarkSendSqe(old(timestamp), idx, now)
      ensures timestamp.Keys == old(timestamp).Keys
      ensures forall i | i in timestamp ::
        timestamp[i] == if i == idx then old(timestamp)[i].(sendSqeAt := Some(now)) else old(timestamp)[i]
    {
      if idx in timestamp { timestamp := timestamp[idx := timestamp[idx].(sendSqeAt := Some(now))]; }
    }

    method TakeRecvFor(idx: u16) returns (t: Option<Timing>)
      modifies this`timestamp
      ensures t == if idx in old(timestamp) then Some(old(timestamp)[idx]) else None
      ensures timestamp == old(timestamp) - {idx}
    {
      t := None;
      if idx in timestamp {
        t := Some(timestamp[idx]);
        timestamp := timestamp - {idx};
      }
    }

    method GetPeerAddr(idx: u16) returns (addr: Addr)
      ensures addr == PeerAddr(Value(), idx)
    {
      addr := UNSPECIFIED;
      if idx in liveSlots && liveSlots[idx] in heap { addr := heap[liveSlots[idx]].addr; }
    }
  }
}

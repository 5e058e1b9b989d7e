/**
  Buffer ownership in a V4L2 queue. Buffer indices move between the free list, the device and the
  references handed to clients; a reference may outlive the allocation it came from. Weak pointers
  to the queue are modelled by a generation number that deallocation advances.
 */
module V4L2Queues {
  import opened Options

  /** 0..n-1. */
  ghost function Indices(n: nat): (s: set<nat>)
    ensures forall i :: i in s <==> 0 <= i < n
  {
    if n == 0 then {} else Indices(n - 1) + {n - 1}
  }

  /** Every index below n is in exactly one of the three sets, and nothing else is in any. */
  ghost predicate Partition(free: set<nat>, queued: set<nat>, held: set<nat>, n: nat) {
    && (forall i :: i in free ==> i < n && i !in queued && i !in held)
    && (forall i :: i in queued ==> i < n && i !in held)
    && (forall i :: i in held ==> i < n)
    && (forall i :: 0 <= i < n ==> i in free || i in queued || i in held)
  }

  predicate IsLeast(s: set<nat>, m: nat) {
    m in s && forall y :: y in s ==> m <= y
  }

  lemma {:induction false} LeastExists(s: set<nat>, x: nat)
    requires x in s
    ensures exists m :: m in s && IsLeast(s, m)
    decreases x
  {
    if y :| y in s && y < x {
      LeastExists(s, y);
    } else {
      assert IsLeast(s, x);
    }
  }

  /** V4L2BuffersList: the indices nobody owns. */
  class BuffersList {
    ghost const generation: nat
    var free: set<nat>

    constructor (ghost generation: nat)
      ensures free == {} && this.generation == generation
    {
      this.generation := generation;
      free := {};
    }

    method ReturnBuffer(id: nat)
      modifies this
      ensures free == old(free) + {id}
    {
      free := free + {id};
    }

    /** Takes the least free index. */
    method GetFreeBuffer() returns (id: Option<nat>)
      modifies this
      ensures id.None? <==> old(free) == {}
      ensures id.Some? ==> IsLeast(old(free), id.value)
      ensures free == if id.Some? then old(free) - {id.value} else old(free)
    {
      if free == {} {
        return None;
      }
      ghost var some :| some in free;
      LeastExists(free, some);
      var x :| x in free && IsLeast(free, x);
      free := free - {x};
      return Some(x);
    }

    method GetFreeBufferById(requested: nat) returns (id: Option<nat>)
      modifies this
      ensures id == if requested in old(free) then Some(requested) else None
      ensures free == old(free) - {requested}
    {
      id := if requested in free then Some(requested) else None;
      free := free - {requested};
    }
  }

  /** V4L2BufferRefBase: exclusive use of one buffer until it is queued or dropped. */
  class BufferRef {
    const index: nat
    const generation: nat
    const returnTo: BuffersList
    ghost var live: bool

    ghost predicate WellFormed() {
      returnTo.generation == generation
    }

    constructor (index: nat, generation: nat, returnTo: BuffersList)
      requires returnTo.generation == generation
      ensures this.index == index && this.generation == generation && this.returnTo == returnTo
      ensures live && WellFormed()
    {
      this.index := index;
      this.generation := generation;
      this.returnTo := returnTo;
      live := true;
    }
  }

  /** What a DQBUF call answers. */
  datatype Dqbuf = Buffer(index: nat) | Again | Failed

  class V4L2Queue {
    var count: nat
    var freeBuffers: BuffersList?
    var queued: set<nat>
    var streaming: bool
    var generation: nat
    ghost var held: map<nat, BufferRef>

    ghost function Free(): set<nat>
      reads this, freeBuffers
    {
      if freeBuffers == null then {} else freeBuffers.free
    }

    ghost function Snap(): Places
      reads this, freeBuffers
    {
      Places(count, Free(), queued, held.Keys, streaming, generation)
    }

    /** Every index is in exactly one place: free, at the device, or behind one live reference. */
    ghost predicate Valid()
      reads this, freeBuffers, held.Values
    {
      && (freeBuffers == null ==> count == 0)
      && (freeBuffers != null ==> freeBuffers.generation == generation)
      && Partition(Free(), queued, held.Keys, count)
      && (forall i :: i in held ==>
            && held[i].index == i && held[i].live
            && held[i].returnTo == freeBuffers && held[i].generation == generation)
    }

    /** r is the reference that owns its buffer in the current allocation. */
    ghost predicate Owns(r: BufferRef)
      reads this
    {
      r.index in held && held[r.index] == r
    }

    /** r comes from an allocation that is gone. */
    ghost predicate Stale(r: BufferRef)
      reads this
    {
      r.generation < generation
    }

    constructor ()
      ensures Valid() && held == map[] && freeBuffers == null && Snap() == NO_BUFFERS
    {
      count, freeBuffers, queued, streaming, generation, held := 0, null, {}, false, 0, map[];
    }

    /** REQBUFS grants `granted` buffers or fails; creating buffer `failAt` may fail. */
    method AllocateBuffers(requested: nat, granted: Option<nat>, failAt: Option<nat>) returns (n: nat)
      requires Valid()
      modifies this
      ensures Valid() && streaming == old(streaming) && generation >= old(generation)
      ensures old(streaming) || old(count) != 0 || requested == 0 || granted.None? ==> n == 0 && unchanged(this)
      ensures !(old(streaming) || old(count) != 0 || requested == 0 || granted.None?) ==>
                && held == map[] && queued == {} && n == count
                && count == (if failAt.Some? && failAt.value < granted.value then 0 else granted.value)
                && (count > 0 ==> fresh(freeBuffers)) && Free() == Indices(count)
                && generation == old(generation)
                                 + (if failAt.Some? && failAt.value < granted.value && failAt.value > 0 then 1 else 0)
      ensures freeBuffers != old(freeBuffers) && freeBuffers != null ==> fresh(freeBuffers)
    {
      if streaming || count != 0 || requested == 0 || granted.None? {
        return 0;
      }
      freeBuffers := new BuffersList(generation);
      var i := 0;
      while i < granted.value
        invariant i <= granted.value && count == i && Valid()
        invariant fresh(freeBuffers) && held == map[] && queued == {} && !streaming && generation == old(generation)
        invariant Free() == Indices(i)
        invariant failAt.Some? && failAt.value < granted.value ==> i <= failAt.value
      {
        if failAt == Some(i) {
          var _ := DeallocateBuffers(true);
          return 0;
        }
        count := count + 1;
        freeBuffers.ReturnBuffer(i);
        i := i + 1;
      }
      return count;
    }

    /** The caller has nothing queued; references that are still out become stale. */
    method DeallocateBuffers(reqbufsOk: bool) returns (ok: bool)
      requires Valid() && (!streaming ==> queued == {})
      modifies this
      ensures Valid() && streaming == old(streaming) && queued == old(queued) && generation >= old(generation)
      ensures old(streaming) ==> !ok && unchanged(this)
      ensures !old(streaming) && old(count) == 0 ==> ok && unchanged(this)
      ensures !old(streaming) && old(count) > 0 ==>
                && ok == reqbufsOk && count == 0 && freeBuffers == null && held == map[]
                && generation == old(generation) + 1
                && forall i :: i in old(held) ==> Stale(old(held)[i])
    {
      if streaming {
        return false;
      }
      if count == 0 {
        return true;
      }
      generation := generation + 1;
      count := 0;
      freeBuffers := null;
      held := map[];
      return reqbufsOk;
    }

    method GetFreeBuffer() returns (r: BufferRef?)
      requires Valid()
      modifies this`held, freeBuffers
      ensures Valid() && unchanged(this`queued, this`count, this`freeBuffers, this`generation, this`streaming)
      ensures r == null <==> old(Free()) == {}
      ensures r == null ==> held == old(held) && Free() == old(Free())
      ensures r != null ==>
                && fresh(r) && r.live && r.WellFormed() && Owns(r)
                && IsLeast(old(Free()), r.index)
                && Free() == old(Free()) - {r.index} && held == old(held)[r.index := r]
    {
      if freeBuffers == null {
        return null;
      }
      var id := freeBuffers.GetFreeBuffer();
      if id.None? {
        return null;
      }
      r := new BufferRef(id.value, generation, freeBuffers);
      held := held[id.value := r];
    }

    method GetFreeBufferById(requested: nat) returns (r: BufferRef?)
      requires Valid()
      modifies this`held, freeBuffers
      ensures Valid() && unchanged(this`queued, this`count, this`freeBuffers, this`generation, this`streaming)
      ensures r == null <==> requested !in old(Free())
      ensures r == null ==> held == old(held) && Free() == old(Free())
      ensures r != null ==>
                && fresh(r) && r.live && r.WellFormed() && Owns(r) && r.index == requested
                && Free() == old(Free()) - {requested} && held == old(held)[requested := r]
    {
      if freeBuffers == null {
        return null;
      }
      var id := freeBuffers.GetFreeBufferById(requested);
      if id.None? {
        return null;
      }
      r := new BufferRef(id.value, generation, freeBuffers);
      held := held[id.value := r];
    }

    /** Queues the buffer behind r and gives r up, whether or not QBUF succeeds. */
    method QueueBuffer(r: BufferRef, qbufOk: bool) returns (ok: bool)
      requires Valid() && r.live && r.WellFormed() && (Owns(r) || Stale(r))
      modifies this`queued, this`held, r, r.returnTo
      ensures Valid() && !r.live
      ensures ok <==> qbufOk && old(Owns(r)) && !old(Stale(r))
      ensures ok ==>
                && queued == old(queued) + {r.index} && held == old(held) - {r.index} && Free() == old(Free())
      ensures !ok && !Stale(r) ==>
                && queued == old(queued) && held == old(held) - {r.index} && Free() == old(Free()) + {r.index}
      ensures Stale(r) ==>
                && queued == old(queued) && held == old(held) && Free() == old(Free())
                && r.returnTo.free == old(r.returnTo.free) + {r.index}
    {
      ok := false;
      if r.generation == generation && qbufOk {
        if r.index in queued {
          assert false;
        }
        queued := queued + {r.index};
        ok := true;
      }
      if ok {
        held := held - {r.index};
        r.live := false;
      } else {
        DropRef(r);
      }
    }

    /** A reference that goes out of scope returns its buffer to the list it was taken from. */
    method DropRef(r: BufferRef)
      requires Valid() && r.live && r.WellFormed() && (Owns(r) || Stale(r))
      modifies this`held, r, r.returnTo
      ensures Valid() && !r.live
      ensures !Stale(r) ==> held == old(held) - {r.index} && Free() == old(Free()) + {r.index}
      ensures Stale(r) ==>
                && held == old(held) && Free() == old(Free())
                && r.returnTo.free == old(r.returnTo.free) + {r.index}
    {
      r.returnTo.ReturnBuffer(r.index);
      if r.generation == generation {
        held := held - {r.index};
      }
      r.live := false;
    }

    /** The driver answers DQBUF only with a buffer it was given. */
    method DequeueBuffer(answer: Dqbuf) returns (success: bool, r: BufferRef?)
      requires Valid() && (answer.Buffer? && streaming && queued != {} ==> answer.index in queued)
      modifies this`queued, this`held
      ensures Valid() && Free() == old(Free())
      ensures success <==> !(answer.Failed? && streaming && old(queued) != {})
      ensures r != null <==> answer.Buffer? && streaming && old(queued) != {}
      ensures r == null ==> queued == old(queued) && held == old(held)
      ensures r != null ==>
                && fresh(r) && r.live && r.WellFormed() && Owns(r) && r.index == answer.index
                && queued == old(queued) - {r.index} && held == old(held)[r.index := r]
    {
      if queued == {} || !streaming || answer.Again? {
        return true, null;
      }
      if answer.Failed? {
        return false, null;
      }
      queued := queued - {answer.index};
      r := new BufferRef(answer.index, generation, freeBuffers);
      held := held[answer.index := r];
      return true, r;
    }

    method Streamon(ioctlOk: bool) returns (ok: bool)
      requires Valid()
      modifies this`streaming
      ensures Valid() && streaming == ok && ok == (old(streaming) || ioctlOk)
    {
      if streaming {
        return true;
      }
      streaming := ioctlOk;
      return ioctlOk;
    }

    /** STREAMOFF hands every queued buffer back, whether or not the queue was streaming. */
    method Streamoff(ioctlOk: bool) returns (ok: bool)
      requires Valid()
      modifies this`queued, this`streaming, freeBuffers
      ensures Valid() && ok == ioctlOk && held == old(held)
      ensures ok ==> !streaming && queued == {} && Free() == old(Free()) + old(queued)
      ensures !ok ==> streaming == old(streaming) && queued == old(queued) && Free() == old(Free())
    {
      if !ioctlOk {
        return false;
      }
      ReturnQueued();
      queued := {};
      streaming := false;
      return true;
    }

    /** Puts the queued buffers on the free list, one by one. */
    method ReturnQueued()
      requires queued != {} ==> freeBuffers != null
      modifies freeBuffers
      ensures Free() == old(Free()) + queued
    {
      var rest := queued;
      while rest != {}
        invariant rest <= queued
        invariant Free() == old(Free()) + (queued - rest)
        decreases |rest|
      {
        var id :| id in rest;
        freeBuffers.ReturnBuffer(id);
        rest := rest - {id};
      }
    }

    /** The counts the clients read add up to the allocation, whoever holds what. */
    lemma CountsAddUp()
      requires Valid()
      ensures |Free()| + |queued| + |held.Keys| == count
    {
      IndicesSize(count);
      assert Free() + queued + held.Keys == Indices(count);
      assert |Free() + queued| == |Free()| + |queued|;
      assert |Free() + queued + held.Keys| == |Free() + queued| + |held.Keys|;
    }
  }

  lemma {:induction false} IndicesSize(n: nat)
    ensures |Indices(n)| == n
  {
    if n > 0 {
      var below := Indices(n - 1);
      IndicesSize(n - 1);
      assert Indices(n) == below + {n - 1} && n - 1 !in below;
    }
  }

  // ----- Every run -----

  /** What clients and the driver may do to a queue; a reference is picked by index and generation. */
  datatype Op =
    | Allocate(requested: nat, granted: Option<nat>, failAt: Option<nat>)
    | Deallocate(reqbufsOk: bool)
    | Get
    | GetById(id: nat)
    | Queue(index: nat, generation: nat, qbufOk: bool)
    | Drop(index: nat, generation: nat)
    | Dequeue(answer: Dqbuf)
    | Streamon(ioctlOk: bool)
    | Streamoff(ioctlOk: bool)

  /** Where the indices are. */
  datatype Places =
    Places(count: nat, free: set<nat>, queued: set<nat>, held: set<nat>, streaming: bool, generation: nat)
  {
    ghost predicate Take(i: nat, t: Places) {
      t == this.(free := free - {i}, held := held + {i})
    }

    ghost predicate Give(i: nat, t: Places) {
      t == this.(free := free + {i}, held := held - {i})
    }

    /** A reference of this index and generation owns the buffer. */
    ghost predicate Current(i: nat, g: nat) {
      i in held && g == generation
    }
  }

  const NO_BUFFERS: Places := Places(0, {}, {}, {}, false, 0)

  /** What an operation does; one whose contract with the caller or the driver does not hold is skipped. */
  ghost predicate Moves(s: Places, op: Op, t: Places) {
    match op
    case Allocate(requested, granted, failAt) =>
      if s.streaming || s.count != 0 || requested == 0 || granted.None? then t == s
      else if failAt.Some? && failAt.value < granted.value then
        t == Places(0, {}, {}, {}, false, s.generation + if failAt.value > 0 then 1 else 0)
      else t == Places(granted.value, Indices(granted.value), {}, {}, false, s.generation)
    case Deallocate(_) =>
      if s.streaming || s.queued != {} || s.count == 0 then t == s
      else t == Places(0, {}, {}, {}, false, s.generation + 1)
    case Get => if s.free == {} then t == s else exists i :: IsLeast(s.free, i) && s.Take(i, t)
    case GetById(id) => if id !in s.free then t == s else s.Take(id, t)
    case Queue(index, generation, qbufOk) =>
      if !s.Current(index, generation) then t == s
      else if !qbufOk then s.Give(index, t)
      else t == s.(queued := s.queued + {index}, held := s.held - {index})
    case Drop(index, generation) => if !s.Current(index, generation) then t == s else s.Give(index, t)
    case Dequeue(answer) =>
      if !s.streaming || !answer.Buffer? || answer.index !in s.queued then t == s
      else t == s.(queued := s.queued - {answer.index}, held := s.held + {answer.index})
    case Streamon(ioctlOk) => t == s.(streaming := s.streaming || ioctlOk)
    case Streamoff(ioctlOk) =>
      if !ioctlOk then t == s else t == s.(streaming := false, queued := {}, free := s.free + s.queued)
  }

  /** The references in clients' hands: alive, each the owner of its buffer or stale, none missing. */
  ghost predicate InHand(q: V4L2Queue, refs: set<BufferRef>)
    reads q, refs
  {
    && (forall r :: r in refs ==> r.live && r.WellFormed() && (q.Owns(r) || q.Stale(r)))
    && (forall i :: i in q.held ==> q.held[i] in refs)
  }

  /**
    From an empty queue, after any sequence of operations: every buffer index is free, at the device,
    or owned by exactly one reference in a client's hand, and all other references are stale.
   */
  method Run(ops: seq<Op>) returns (q: V4L2Queue, refs: set<BufferRef>, ghost history: seq<Places>)
    ensures q.Valid() && InHand(q, refs)
    ensures |history| == |ops| + 1 && history[0] == NO_BUFFERS && history[|ops|] == q.Snap()
    ensures forall n :: 0 <= n < |ops| ==> Moves(history[n], ops[n], history[n + 1])
  {
    q := new V4L2Queue();
    refs := {};
    history := [q.Snap()];
    for n := 0 to |ops|
      invariant fresh(q) && q.Valid() && InHand(q, refs)
      invariant q.freeBuffers != null ==> fresh(q.freeBuffers)
      invariant forall r :: r in refs ==> fresh(r) && fresh(r.returnTo)
      invariant |history| == n + 1 && history[0] == NO_BUFFERS && history[n] == q.Snap()
      invariant forall k :: 0 <= k < n ==> Moves(history[k], ops[k], history[k + 1])
    {
      hide V4L2Queue.Valid, InHand, Moves;
      refs := Step(q, refs, ops[n]);
      history := history + [q.Snap()];
    }
  }

  method Step(q: V4L2Queue, refs: set<BufferRef>, op: Op) returns (refs': set<BufferRef>)
    requires q.Valid() && InHand(q, refs)
    modifies q, q.freeBuffers, refs, set r | r in refs :: r.returnTo
    ensures q.Valid() && InHand(q, refs') && Moves(old(q.Snap()), op, q.Snap())
    ensures q.freeBuffers != null && q.freeBuffers != old(q.freeBuffers) ==> fresh(q.freeBuffers)
    ensures forall r :: r in refs' ==> r in refs || (fresh(r) && r.returnTo == q.freeBuffers)
  {
    refs' := refs;
    if op.Get? || op.GetById? || op.Dequeue? {
      hide Moves;
      var r := Take(q, op);
      if r != null {
        refs' := refs + {r};
      }
    } else if op.Queue? || op.Drop? {
      if r :| r in refs && r.index == op.index && r.generation == op.generation {
        hide Moves;
        Give(q, refs, r, op);
        refs' := refs - {r};
      }
    } else {
      hide Moves;
      Manage(q, op);
    }
  }

  method Take(q: V4L2Queue, op: Op) returns (r: BufferRef?)
    requires q.Valid() && (op.Get? || op.GetById? || op.Dequeue?)
    modifies q`held, q`queued, q.freeBuffers
    ensures q.Valid() && Moves(old(q.Snap()), op, q.Snap())
    ensures r == null ==> q.held == old(q.held)
    ensures r != null ==>
              && fresh(r) && r.live && r.WellFormed() && q.Owns(r) && r.returnTo == q.freeBuffers
              && r.index !in old(q.held) && q.held == old(q.held)[r.index := r]
  {
    r := null;
    if op.Get? {
      r := q.GetFreeBuffer();
    } else if op.GetById? {
      r := q.GetFreeBufferById(op.id);
    } else if !(op.answer.Buffer? && op.answer.index !in q.queued) {
      var success;
      success, r := q.DequeueBuffer(op.answer);
    }
  }

  method Give(q: V4L2Queue, ghost refs: set<BufferRef>, r: BufferRef, op: Op)
    requires q.Valid() && InHand(q, refs) && r in refs && (op.Queue? || op.Drop?)
    requires r.index == op.index && r.generation == op.generation
    modifies q`held, q`queued, r, r.returnTo
    ensures q.Valid() && InHand(q, refs - {r}) && Moves(old(q.Snap()), op, q.Snap())
  {
    if op.Queue? {
      var _ := q.QueueBuffer(r, op.qbufOk);
    } else {
      q.DropRef(r);
    }
  }

  method Manage(q: V4L2Queue, op: Op)
    requires q.Valid() && (op.Allocate? || op.Deallocate? || op.Streamon? || op.Streamoff?)
    modifies q, q.freeBuffers
    ensures q.Valid() && q.generation >= old(q.generation) && Moves(old(q.Snap()), op, q.Snap())
    ensures q.held == old(q.held) || q.held == map[]
    ensures forall i :: i in old(q.held) && i !in q.held ==> q.Stale(old(q.held)[i])
    ensures q.freeBuffers != null && q.freeBuffers != old(q.freeBuffers) ==> fresh(q.freeBuffers)
  {
    if op.Allocate? {
      var _ := q.AllocateBuffers(op.requested, op.granted, op.failAt);
    } else if op.Deallocate? {
      if q.streaming || q.queued == {} {
        var _ := q.DeallocateBuffers(op.reqbufsOk);
      }
    } else if op.Streamon? {
      var _ := q.Streamon(op.ioctlOk);
    } else {
      var _ := q.Streamoff(op.ioctlOk);
    }
  }
}

/**
  The buffers tracked across a surface switch. A tracked buffer is registered at the current producer or
  waits to be migrated to it; migration moves buffers between the two and loses none.
 */
module SurfaceSwitch {
  import opened Options

  type Slot = nat
  type UniqueId = nat
  type Allocation = nat

  /** BufferQueueDefs::NUM_BUFFER_SLOTS. */
  const NUM_BUFFER_SLOTS: nat := 64

  /** Migration of these slots succeeds: their buffers are tracked, and each is in one slot only. */
  ghost predicate Migratable(slots: set<Slot>, buffers: map<Slot, UniqueId>, tracked: set<UniqueId>)
    requires slots <= buffers.Keys
  {
    && (forall s :: s in slots ==> buffers[s] in tracked)
    && (forall s, t :: s in slots && t in slots && buffers[s] == buffers[t] ==> s == t)
  }

  /** Which old slot had each buffer that is registered again. */
  ghost predicate RegisteredBy(origin: map<UniqueId, Slot>, slots: set<Slot>, buffers: map<Slot, UniqueId>,
                               ids: set<UniqueId>)
    requires slots <= buffers.Keys
  {
    && (forall id :: id in origin <==> id in ids)
    && (forall id :: id in origin ==> origin[id] in slots && buffers[origin[id]] == id)
    && (forall s :: s in slots ==> buffers[s] in origin && origin[buffers[s]] == s)
  }

  /** Every new slot holds the buffer of an old slot that was moved there. */
  ghost predicate MovedTo(after: map<Slot, UniqueId>, slots: set<Slot>, moves: map<Slot, Slot>,
                          before: map<Slot, UniqueId>)
    requires slots <= before.Keys && slots <= moves.Keys
  {
    && (forall s :: s in slots ==> moves[s] in after)
    && (forall n :: n in after ==> exists s :: s in slots && moves[s] == n && before[s] == after[n])
  }

  /** One more slot migrates: its buffer must still be waiting. */
  lemma OneMoreMigrates(origin: map<UniqueId, Slot>, slots: set<Slot>, buffers: map<Slot, UniqueId>, ids: set<UniqueId>,
                        tracked: set<UniqueId>, s: Slot)
    requires slots <= buffers.Keys && s in buffers && s !in slots && ids <= tracked
    requires RegisteredBy(origin, slots, buffers, ids) && Migratable(slots, buffers, tracked)
    ensures Migratable(slots + {s}, buffers, tracked) <==> buffers[s] in tracked - ids
    ensures buffers[s] !in ids ==> RegisteredBy(origin[buffers[s] := s], slots + {s}, buffers, ids + {buffers[s]})
  {
    if buffers[s] in ids {
      var t := origin[buffers[s]];
      assert t in slots + {s} && s in slots + {s} && t != s;
    }
  }

  lemma OneMoreMoved(after: map<Slot, UniqueId>, slots: set<Slot>, moves: map<Slot, Slot>, before: map<Slot, UniqueId>,
                     s: Slot)
    requires slots <= before.Keys && slots <= moves.Keys && s in before && s in moves
    requires MovedTo(after, slots, moves, before)
    ensures MovedTo(after[moves[s] := before[s]], slots + {s}, moves, before)
  {
    var after' := after[moves[s] := before[s]];
    forall n | n in after'
      ensures exists x :: x in slots + {s} && moves[x] == n && before[x] == after'[n]
    {
      if n == moves[s] {
        assert s in slots + {s};
      } else {
        var x :| x in slots && moves[x] == n && before[x] == after[n];
        assert x in slots + {s};
      }
    }
  }

  lemma NothingMoved(moves: map<Slot, Slot>, buffers: map<Slot, UniqueId>, tracked: set<UniqueId>)
    ensures RegisteredBy(map[], {}, buffers, {}) && Migratable({}, buffers, tracked)
    ensures MovedTo(map[], {}, moves, buffers)
  {
  }

  /** A set of slots that cannot migrate cannot be part of one that can. */
  lemma MigratableSubset(slots: set<Slot>, more: set<Slot>, buffers: map<Slot, UniqueId>, tracked: set<UniqueId>)
    requires slots <= more <= buffers.Keys && Migratable(more, buffers, tracked)
    ensures Migratable(slots, buffers, tracked)
  {
  }

  /** Each tracked buffer is registered or waits, not both. */
  ghost predicate Split(all: map<UniqueId, Allocation>, registered: map<UniqueId, Allocation>,
                        waiting: map<UniqueId, Allocation>)
  {
    && (forall id :: id in registered ==> id !in waiting && id in all && registered[id] == all[id])
    && (forall id :: id in waiting ==> id in all && waiting[id] == all[id])
    && (forall id :: id in all ==> id in registered || id in waiting)
  }

  /** What is tracked, as a value: the buffer of each slot, the slots with a block, and the two kinds of ids. */
  datatype Tracking = Tracking(slotBuffers: map<Slot, UniqueId>, poolData: set<Slot>, registered: set<UniqueId>,
                               waiting: set<UniqueId>, lostCounter: nat)
  {
    ghost function Ids(): set<UniqueId> {
      registered + waiting
    }

    /** Buffers still wait although each slot had its turn. */
    predicate NeedsLost() {
      lostCounter == 0 && waiting != {}
    }
  }

  const NOTHING: Tracking := Tracking(map[], {}, {}, {}, 0)

  predicate IsLeast(id: UniqueId, ids: set<UniqueId>) {
    id in ids && forall x :: x in ids ==> id <= x
  }

  /** The first id in order. */
  ghost function Least(ids: set<UniqueId>): (id: UniqueId)
    requires ids != {}
    ensures IsLeast(id, ids)
  {
    LeastExists(ids);
    var id :| IsLeast(id, ids);
    id
  }

  lemma {:induction false} LeastExists(ids: set<UniqueId>)
    requires ids != {}
    ensures exists id :: IsLeast(id, ids)
    decreases |ids|
  {
    var id :| id in ids;
    var rest := ids - {id};
    assert forall x :: x in ids ==> x == id || x in rest;
    if rest == {} {
      assert IsLeast(id, ids);
    } else {
      LeastExists(rest);
      var y :| IsLeast(y, rest);
      assert IsLeast(if id <= y then id else y, ids);
    }
  }

  /** A buffer that waits is registered. */
  ghost function Registering(t: Tracking, id: UniqueId): Tracking {
    if id in t.waiting then t.(registered := t.registered + {id}, waiting := t.waiting - {id}) else t
  }

  /** A new buffer is registered. */
  ghost function WithId(t: Tracking, id: UniqueId): (t': Tracking)
    ensures t'.Ids() == t.Ids() + {id}
  {
    t.(registered := t.registered + {id})
  }

  ghost function WithBuffer(t: Tracking, slot: Slot, id: UniqueId): Tracking {
    t.(slotBuffers := t.slotBuffers[slot := id])
  }

  /** A buffer came out of the producer. */
  ghost function CameOut(t: Tracking, slot: Slot): Tracking
    requires slot in t.slotBuffers
  {
    Registering(t, t.slotBuffers[slot]).(lostCounter := if t.lostCounter > 0 then t.lostCounter - 1 else 0)
  }

  /** The first lost buffer is attached to a slot, and registered once it is wrapped. */
  ghost function LostAttached(t: Tracking, slot: Slot, wrapped: bool): Tracking
    requires t.waiting != {}
  {
    var u := WithBuffer(t, slot, Least(t.waiting));
    if wrapped then Registering(u, Least(t.waiting)) else u
  }

  /** A buffer that waited is registered, perhaps with a new allocation. */
  lemma MoveKeeps(all: map<UniqueId, Allocation>, registered: map<UniqueId, Allocation>,
                  waiting: map<UniqueId, Allocation>, id: UniqueId, allocation: Allocation)
    requires Split(all, registered, waiting) && id in waiting
    ensures var registered', waiting' := registered[id := allocation], waiting - {id};
            && Split(all[id := allocation], registered', waiting')
            && registered'.Keys == registered.Keys + {id} && waiting'.Keys == waiting.Keys - {id}
            && registered'.Keys + waiting'.Keys == registered.Keys + waiting.Keys
            && (allocation == waiting[id] ==> all[id := allocation] == all)
  {
  }

  /** The buffers of the slots that the new producer takes are tracked, and all different. */
  ghost predicate CanMigrate(t: Tracking, moves: map<Slot, Slot>) {
    t.poolData <= t.slotBuffers.Keys && Migratable(t.poolData * moves.Keys, t.slotBuffers, t.Ids())
  }

  /** They are registered under their new slots, and all others wait. */
  ghost predicate Migrated(t: Tracking, moves: map<Slot, Slot>, t': Tracking) {
    && t.poolData <= t.slotBuffers.Keys && t'.Ids() == t.Ids()
    && t'.lostCounter == NUM_BUFFER_SLOTS && t'.poolData == t'.slotBuffers.Keys
    && MovedTo(t'.slotBuffers, t.poolData * moves.Keys, moves, t.slotBuffers)
    && exists origin :: RegisteredBy(origin, t.poolData * moves.Keys, t.slotBuffers, t'.registered)
  }

  class TrackedGraphicBuffers {
    var slotBuffers: map<Slot, UniqueId>
    var poolData: set<Slot>
    var registered: map<UniqueId, Allocation>
    var toBeMigrated: map<UniqueId, Allocation>
    var lostBufferCounter: nat
    ghost var all: map<UniqueId, Allocation>

    ghost predicate Valid()
      reads this`slotBuffers, this`poolData, this`registered, this`toBeMigrated, this`all
    {
      && Split(all, registered, toBeMigrated)
      && poolData <= slotBuffers.Keys
    }

    ghost function Value(): Tracking
      reads this`slotBuffers, this`poolData, this`registered, this`toBeMigrated, this`lostBufferCounter
    {
      Tracking(slotBuffers, poolData, registered.Keys, toBeMigrated.Keys, lostBufferCounter)
    }

    lemma IdsAreAll()
      requires Valid()
      ensures all.Keys == Value().Ids() && |Value().Ids()| == Size() && Value().registered !! Value().waiting
      ensures poolData <= slotBuffers.Keys
    {
      assert |registered.Keys + toBeMigrated.Keys| == |registered.Keys| + |toBeMigrated.Keys|;
    }

    constructor ()
      ensures Valid() && Value() == NOTHING && Value().Ids() == {}
    {
      slotBuffers, poolData, registered, toBeMigrated, lostBufferCounter := map[], {}, map[], map[], 0;
      all := map[];
    }

    method Reset()
      modifies this
      ensures Valid() && Value() == NOTHING && Value().Ids() == {}
    {
      slotBuffers, poolData, registered, toBeMigrated, lostBufferCounter := map[], {}, map[], map[], 0;
      all := map[];
    }

    method RegisterUniqueId(id: UniqueId, allocation: Allocation)
      requires Valid() && !HasUniqueId(id)
      modifies this`registered, this`all
      ensures Valid() && all == old(all)[id := allocation]
      ensures Value() == WithId(old(Value()), id) && id in registered
    {
      registered := registered[id := allocation];
      all := all[id := allocation];
    }

    lemma HasMeans(id: UniqueId)
      ensures HasUniqueId(id) <==> id in Value().Ids()
    {
    }

    predicate HasUniqueId(id: UniqueId)
      reads this
    {
      id in registered || id in toBeMigrated
    }

    function Size(): nat
      reads this
    {
      |registered| + |toBeMigrated|
    }

    /** Registers a buffer that waits to be migrated; a duplicate cannot occur. */
    method MoveBufferToRegistered(id: UniqueId) returns (moved: bool)
      requires Valid()
      modifies this`registered, this`toBeMigrated
      ensures Valid() && moved == (id in old(toBeMigrated)) && Value() == Registering(old(Value()), id)
      ensures Value().Ids() == old(Value().Ids())
      ensures moved ==>
                registered == old(registered)[id := old(toBeMigrated)[id]] && toBeMigrated == old(toBeMigrated) - {id}
      ensures !moved ==> registered == old(registered) && toBeMigrated == old(toBeMigrated)
    {
      if id !in toBeMigrated {
        return false;
      }
      if id in registered {
        assert false;  // duplicated id
      }
      MoveKeeps(all, registered, toBeMigrated, id, toBeMigrated[id]);
      hide Split;
      registered := registered[id := toBeMigrated[id]];
      toBeMigrated := toBeMigrated - {id};
      return true;
    }

    /** Unregisters everything: it waits to be migrated. */
    method MoveAllToBeMigrated()
      requires Valid()
      modifies this`registered, this`toBeMigrated
      ensures Valid() && registered == map[]
    {
      var left := registered.Keys;
      while left != {}
        invariant left <= registered.Keys && registered == old(registered)
        invariant forall id :: id in toBeMigrated <==> id in old(toBeMigrated) || (id in registered && id !in left)
        invariant forall id :: id in toBeMigrated ==> id in all && toBeMigrated[id] == all[id]
        decreases |left|
      {
        var id :| id in left;
        if id in toBeMigrated {
          assert false;  // duplicated id
        }
        toBeMigrated := toBeMigrated[id := registered[id]];
        left := left - {id};
      }
      registered := map[];
    }

    /** How far the migration of the slots that the new producer takes has got. */
    ghost predicate Progress(moves: map<Slot, Slot>, done: set<Slot>, newSlotBuffers: map<Slot, UniqueId>,
                             origin: map<UniqueId, Slot>)
      reads this`slotBuffers, this`poolData, this`registered, this`toBeMigrated, this`all
      requires Valid()
    {
      && done <= poolData * moves.Keys
      && RegisteredBy(origin, done, slotBuffers, registered.Keys)
      && Migratable(done, slotBuffers, all.Keys)
      && MovedTo(newSlotBuffers, done, moves, slotBuffers)
    }

    /** The buffer of one slot goes to the new producer. */
    method MigrateSlot(oldSlot: Slot, moves: map<Slot, Slot>, buffers: map<Slot, UniqueId>, ghost done: set<Slot>,
                       ghost origin: map<UniqueId, Slot>)
      returns (ok: bool, newSlotBuffers: map<Slot, UniqueId>)
      requires Valid() && oldSlot in poolData * moves.Keys && oldSlot !in done && Progress(moves, done, buffers, origin)
      modifies this`registered, this`toBeMigrated
      ensures Valid()
      ensures ok ==> Progress(moves, done + {oldSlot}, newSlotBuffers, origin[slotBuffers[oldSlot] := oldSlot])
      ensures !ok ==> !Migratable(poolData * moves.Keys, slotBuffers, all.Keys)
    {
      assert registered.Keys <= all.Keys;
      assert slotBuffers[oldSlot] in toBeMigrated <==> slotBuffers[oldSlot] in all.Keys - registered.Keys;
      hide RegisteredBy, Migratable, MovedTo, Split;
      OneMoreMigrates(origin, done, slotBuffers, registered.Keys, all.Keys, oldSlot);
      OneMoreMoved(buffers, done, moves, slotBuffers, oldSlot);
      ghost var ids := registered.Keys;
      var uniqueId := slotBuffers[oldSlot];
      newSlotBuffers := buffers[moves[oldSlot] := uniqueId];
      ok := MoveBufferToRegistered(uniqueId);
      if ok {
        assert registered.Keys == ids + {uniqueId};
      } else if Migratable(poolData * moves.Keys, slotBuffers, all.Keys) {
        MigratableSubset(done + {oldSlot}, poolData * moves.Keys, slotBuffers, all.Keys);
      }
    }

    /**
      A surface switch: of the slots with a live block, those that the new producer takes (`moves`) are
      registered again under their new slot; all other buffers wait. It succeeds exactly when the buffers
      of the moved slots are tracked and all different; even when it fails, nothing tracked is lost.
     */
    method MigrateLocalBuffers(moves: map<Slot, Slot>) returns (ok: bool)
      requires Valid()
      modifies this`slotBuffers, this`poolData, this`registered, this`toBeMigrated, this`lostBufferCounter
      ensures Valid() && Value().Ids() == old(Value().Ids())
      ensures ok <==> CanMigrate(old(Value()), moves)
      ensures ok ==> Migrated(old(Value()), moves, Value())
      ensures !ok ==> slotBuffers == old(slotBuffers) && poolData == old(poolData)
    {
      hide Migratable, MovedTo, RegisteredBy, Valid, Tracking.Ids;
      IdsAreAll();
      MoveAllToBeMigrated();
      ghost var origin;
      var newSlotBuffers;
      ok, newSlotBuffers, origin := MigrateSlots(moves);
      if ok {
        assert RegisteredBy(origin, poolData * moves.Keys, slotBuffers, registered.Keys);
        Adopt(newSlotBuffers);
      }
      IdsAreAll();
    }

    method MigrateSlots(moves: map<Slot, Slot>)
      returns (ok: bool, newSlotBuffers: map<Slot, UniqueId>, ghost origin: map<UniqueId, Slot>)
      requires Valid() && registered == map[]
      modifies this`registered, this`toBeMigrated
      ensures Valid()
      ensures ok <==> Migratable(poolData * moves.Keys, slotBuffers, all.Keys)
      ensures ok ==> MovedTo(newSlotBuffers, poolData * moves.Keys, moves, slotBuffers)
      ensures ok ==> RegisteredBy(origin, poolData * moves.Keys, slotBuffers, registered.Keys)
    {
      newSlotBuffers, origin, ok := map[], map[], true;
      StartProgress(moves);
      hide Progress, Valid, Migratable, MovedTo, RegisteredBy;
      var left := poolData * moves.Keys;
      ghost var done: set<Slot> := {};
      while left != {}
        invariant ok && Valid() && left <= poolData * moves.Keys
        invariant Progress(moves, done, newSlotBuffers, origin)
        invariant forall s :: s in left ==> s !in done
        invariant forall s :: s in poolData * moves.Keys ==> s in left || s in done
        decreases |left|
      {
        var oldSlot :| oldSlot in left;
        left := left - {oldSlot};
        ok, newSlotBuffers := MigrateSlot(oldSlot, moves, newSlotBuffers, done, origin);
        if !ok {
          return;
        }
        origin := origin[slotBuffers[oldSlot] := oldSlot];
        done := done + {oldSlot};
      }
      ProgressMade(moves, done, newSlotBuffers, origin);
    }

    lemma StartProgress(moves: map<Slot, Slot>)
      requires Valid() && registered == map[]
      ensures Progress(moves, {}, map[], map[])
    {
      NothingMoved(moves, slotBuffers, all.Keys);
      assert registered.Keys == {};
    }

    lemma ProgressMade(moves: map<Slot, Slot>, done: set<Slot>, newSlotBuffers: map<Slot, UniqueId>,
                       origin: map<UniqueId, Slot>)
      requires Valid() && Progress(moves, done, newSlotBuffers, origin)
      requires forall s :: s in poolData * moves.Keys ==> s in done
      ensures RegisteredBy(origin, poolData * moves.Keys, slotBuffers, registered.Keys)
      ensures Migratable(poolData * moves.Keys, slotBuffers, all.Keys)
      ensures MovedTo(newSlotBuffers, poolData * moves.Keys, moves, slotBuffers)
    {
      assert done == poolData * moves.Keys;
    }

    method Adopt(newSlotBuffers: map<Slot, UniqueId>)
      requires Valid()
      modifies this`slotBuffers, this`poolData, this`lostBufferCounter
      ensures Valid() && slotBuffers == newSlotBuffers && poolData == newSlotBuffers.Keys
      ensures lostBufferCounter == NUM_BUFFER_SLOTS
    {
      slotBuffers, poolData := newSlotBuffers, newSlotBuffers.Keys;
      lostBufferCounter := NUM_BUFFER_SLOTS;
    }

    method UpdatePoolData(slot: Slot)
      requires Valid() && slot in slotBuffers
      modifies this`poolData
      ensures Valid() && Value() == old(Value()).(poolData := old(poolData) + {slot})
      ensures Value().Ids() == old(Value().Ids())
    {
      poolData := poolData + {slot};
    }

    predicate NeedMigrateLostBuffers()
      reads this
    {
      lostBufferCounter == 0 && toBeMigrated != map[]
    }

    /**
      Attaches the first buffer that never came back. The producer may have no free slot, and wrapping the buffer may
      fail; then the buffer still waits. When the buffer cannot even be made, the source returns `false` for a
      status, which means success, and leaves the slot unset.
     */
    method MigrateLostBuffer(bufferOk: bool, attached: Option<Slot>, wrapped: Option<Allocation>)
      returns (ok: bool, slot: Option<Slot>)
      requires Valid() && NeedMigrateLostBuffers()
      modifies this`slotBuffers, this`registered, this`toBeMigrated, this`all
      ensures Valid() && Value().Ids() == old(Value().Ids())
      ensures ok == (!bufferOk || (attached.Some? && wrapped.Some?))
      ensures slot == if bufferOk && wrapped.Some? then attached else None
      ensures Value() == if bufferOk && attached.Some? then LostAttached(old(Value()), attached.value, wrapped.Some?)
                         else old(Value())
    {
      if !bufferOk {
        return true, None;
      }
      if attached.None? {
        return false, None;
      }
      LeastExists(toBeMigrated.Keys);
      var id :| id in toBeMigrated && IsLeast(id, toBeMigrated.Keys);
      assert id == Least(toBeMigrated.Keys);
      if wrapped.Some? {
        MoveKeeps(all, registered, toBeMigrated, id, wrapped.value);
      }
      hide Split, Least;
      slotBuffers := slotBuffers[attached.value := id];
      if wrapped.None? {
        return false, None;
      }
      registered := registered[id := wrapped.value];
      toBeMigrated := toBeMigrated - {id};
      all := all[id := wrapped.value];
      return true, attached;
    }

    /** A buffer that comes out of the new producer is registered there. */
    method OnBufferDequeued(slot: Slot)
      requires Valid() && slot in slotBuffers
      modifies this`registered, this`toBeMigrated, this`lostBufferCounter
      ensures Valid() && Value() == CameOut(old(Value()), slot)
      ensures Value().Ids() == old(Value().Ids())
      ensures slotBuffers[slot] !in toBeMigrated
    {
      hide Split;
      var _ := MoveBufferToRegistered(slotBuffers[slot]);
      if lostBufferCounter > 0 {
        lostBufferCounter := lostBufferCounter - 1;
      }
    }
  }

  // ----- The pool -----

  /** What the producer and the allocator answer during one fetch. */
  datatype FetchAnswers = FetchAnswers(
    lostBufferOk: bool,               // a lost buffer could be made again
    attached: Option<Slot>,           // the slot of an attached lost buffer
    lostWrapped: Option<Allocation>,  // the allocation made for a lost buffer
    dequeued: Option<Slot>,           // the slot that dequeueBuffer() gives
    needsReallocation: bool,
    requested: Option<UniqueId>,      // the id of the buffer that requestBuffer() gives
    wrapped: Option<Allocation>,      // the allocation made for a new buffer
    detachOk: bool,
    allowOk: bool,
    blockOk: bool,                    // a block could be made
    fenceOk: bool)

  /** What the producer answers during a surface switch. */
  datatype SwitchAnswers = SwitchAnswers(
    allowOk: bool,             // allowAllocation(true)
    timeoutOk: bool,           // setDequeueTimeout()
    maxCountOk: bool,          // setMaxDequeuedBufferCount()
    queryOk: bool,             // queryGenerationAndUsage()
    moves: map<Slot, Slot>,    // the slots of the buffers that migrate
    denyOk: bool,              // allowAllocation(false)
    connectOk: bool)           // connecting the listener

  /** `Undefined`: the source goes on with a slot that was never set. */
  datatype Fetched = Block(slot: Slot, id: UniqueId) | NoBlock | Undefined

  /** The pool as a value. */
  datatype Snapshot =
    Snapshot(producerId: Option<nat>, configureError: bool, allowAllocation: bool, buffersRequested: nat, format: nat,
             hasNotifier: bool, tracking: Tracking)
  {
    ghost function Ids(): set<UniqueId> {
      tracking.Ids()
    }

    /** A fetch in this format gets as far as the producer. */
    predicate Open(wantedFormat: nat) {
      wantedFormat == format && !configureError && producerId.Some?
    }
  }

  const INITIAL: Snapshot := Snapshot(None, false, false, 0, 0, false, NOTHING)

  // ----- A fetch, on values -----

  /** `ok` without a slot is the slot that was never set. */
  datatype SlotResult = SlotResult(after: Tracking, ok: bool, slot: Option<Slot>)

  /** A slot that the producer has free; a buffer that is not known yet must be requested. */
  ghost function FromProducer(t: Tracking, a: FetchAnswers): SlotResult {
    if a.dequeued.None? then SlotResult(t, false, None)
    else
      var slot := a.dequeued.value;
      if slot in t.slotBuffers && !a.needsReallocation then SlotResult(CameOut(t, slot), true, Some(slot))
      else if a.requested.None? then SlotResult(t, false, None)
      else SlotResult(CameOut(WithBuffer(t, slot, a.requested.value), slot), true, Some(slot))
  }

  /** A lost buffer goes first. */
  ghost function FreeSlot(t: Tracking, a: FetchAnswers): SlotResult {
    if !t.NeedsLost() then FromProducer(t, a)
    else if !a.lostBufferOk then SlotResult(t, true, None)
    else if a.attached.None? then FromProducer(t, a)
    else
      var u := LostAttached(t, a.attached.value, a.lostWrapped.Some?);
      if a.lostWrapped.Some? then SlotResult(u, true, a.attached) else FromProducer(u, a)
  }

  /** The producer must not allocate any more. */
  ghost function Denied(s: Snapshot, ok: bool): Snapshot {
    if s.producerId.Some? && ok then s.(allowAllocation := false) else s
  }

  datatype TrackResult = TrackResult(after: Snapshot, ok: bool)

  /** A buffer that is seen for the first time. */
  ghost function NewTracked(s: Snapshot, id: UniqueId, a: FetchAnswers): TrackResult {
    if |s.Ids()| >= s.buffersRequested then TrackResult(if a.detachOk then Denied(s, a.allowOk) else s, false)
    else if a.wrapped.None? then TrackResult(s, false)
    else
      var u := s.(tracking := WithId(s.tracking, id));
      if |s.Ids()| + 1 < s.buffersRequested then TrackResult(u, true)
      else TrackResult(Denied(u, a.allowOk), u.producerId.Some? && (!u.allowAllocation || a.allowOk))
  }

  datatype FetchResult = FetchResult(after: Snapshot, fetched: Fetched)

  ghost function WithBlock(s: Snapshot, slot: Slot): (t: Snapshot)
    ensures t.Ids() == s.Ids()
  {
    s.(tracking := s.tracking.(poolData := s.tracking.poolData + {slot}))
  }

  /** The buffer of a slot becomes a block. */
  ghost function BlockFor(s: Snapshot, slot: Slot, a: FetchAnswers): FetchResult
    requires slot in s.tracking.slotBuffers
  {
    var id := s.tracking.slotBuffers[slot];
    var n := if id in s.Ids() then TrackResult(s, true) else NewTracked(s, id, a);
    if !n.ok then FetchResult(n.after, NoBlock)
    else FetchResult(WithBlock(n.after, slot), if a.blockOk && a.fenceOk then Block(slot, id) else NoBlock)
  }

  ghost function AfterFetch(s: Snapshot, wantedFormat: nat, a: FetchAnswers): FetchResult {
    if !s.Open(wantedFormat) then FetchResult(s, NoBlock)
    else
      var r := FreeSlot(s.tracking, a);
      if !r.ok then FetchResult(s.(tracking := r.after), NoBlock)
      else if r.slot.None? then FetchResult(s.(tracking := r.after), Undefined)
      else
        FreeSlotMeans(s.tracking, a);
        BlockFor(s.(tracking := r.after), r.slot.value, a)
  }

  // ----- What that means -----

  /** Which slot a fetch gets: that of a lost buffer, or one that the producer gives and whose buffer is known. */
  ghost function SlotFor(t: Tracking, a: FetchAnswers): Option<Slot> {
    if t.NeedsLost() && !a.lostBufferOk then None
    else if t.NeedsLost() && a.attached.Some? && a.lostWrapped.Some? then a.attached
    else if a.dequeued.None? then None
    else
      var attached := t.NeedsLost() && a.attached == a.dequeued;
      var known := (a.dequeued.value in t.slotBuffers || attached) && !a.needsReallocation;
      if known || a.requested.Some? then a.dequeued else None
  }

  /** The buffer in that slot. */
  ghost function IdFor(t: Tracking, a: FetchAnswers): UniqueId
    requires SlotFor(t, a).Some?
  {
    var slot := SlotFor(t, a).value;
    if t.NeedsLost() && a.attached.Some? && a.lostWrapped.Some? then Least(t.waiting)
    else if t.NeedsLost() && a.attached == Some(slot) && !a.needsReallocation then Least(t.waiting)
    else if slot in t.slotBuffers && !a.needsReallocation then t.slotBuffers[slot]
    else a.requested.value
  }

  /** The fetch gets a slot exactly when it says, no buffer is lost, and the slot's buffer waits no longer. */
  lemma FreeSlotMeans(t: Tracking, a: FetchAnswers)
    ensures var r := FreeSlot(t, a);
            && r.slot == SlotFor(t, a)
            && (r.ok <==> r.slot.Some? || (t.NeedsLost() && !a.lostBufferOk))
            && (t.NeedsLost() && !a.lostBufferOk ==> r.slot.None?)
            && r.after.Ids() == t.Ids() && r.after.poolData == t.poolData
            && t.slotBuffers.Keys <= r.after.slotBuffers.Keys
            && (t.registered !! t.waiting ==> r.after.registered !! r.after.waiting)
            && (r.slot.Some? ==>
                  && r.slot.value in r.after.slotBuffers && r.after.slotBuffers[r.slot.value] == IdFor(t, a)
                  && IdFor(t, a) !in r.after.waiting)
  {
  }

  /** Slots other than the one that the producer gives and that of a lost buffer keep their buffers. */
  lemma OtherSlotsStay(t: Tracking, a: FetchAnswers, slot: Slot)
    requires slot in FreeSlot(t, a).after.slotBuffers && Some(slot) != a.dequeued && Some(slot) != a.attached
    ensures slot in t.slotBuffers && FreeSlot(t, a).after.slotBuffers[slot] == t.slotBuffers[slot]
  {
  }

  /** There is room for a new buffer, and it can be wrapped. */
  ghost predicate CanTrack(s: Snapshot, a: FetchAnswers) {
    |s.Ids()| < s.buffersRequested && a.wrapped.Some?
  }

  /** The buffer with this id is tracked already, or is now; and the producer can be told that it was the last one. */
  ghost predicate GetsTracked(s: Snapshot, id: UniqueId, a: FetchAnswers) {
    || id in s.Ids()
    || (&& CanTrack(s, a)
        && (|s.Ids()| + 1 == s.buffersRequested ==> s.producerId.Some? && (!s.allowAllocation || a.allowOk)))
  }

  /** The buffer is new, and there were enough already, or there are now: the producer is not to allocate any more. */
  ghost predicate ToldToStop(s: Snapshot, id: UniqueId, a: FetchAnswers) {
    && id !in s.Ids() && a.allowOk
    && (if |s.Ids()| >= s.buffersRequested then a.detachOk
        else a.wrapped.Some? && |s.Ids()| + 1 == s.buffersRequested)
  }

  lemma NewTrackedMeans(s: Snapshot, id: UniqueId, a: FetchAnswers)
    requires |s.Ids()| <= s.buffersRequested && id !in s.Ids()
    ensures var n := NewTracked(s, id, a);
            && (n.ok <==> GetsTracked(s, id, a))
            && n.after.Ids() == (if CanTrack(s, a) then s.Ids() + {id} else s.Ids())
            && |n.after.Ids()| <= s.buffersRequested
            && n.after.tracking == s.tracking.(registered := n.after.tracking.registered)
            && n.after.allowAllocation == (s.allowAllocation && !(s.producerId.Some? && ToldToStop(s, id, a)))
  {
    hide Tracking.Ids;
  }

  /** What becomes of a slot: its buffer is tracked if it can be, and a block is made of it. */
  lemma BlockForMeans(s: Snapshot, slot: Slot, a: FetchAnswers)
    requires slot in s.tracking.slotBuffers && |s.Ids()| <= s.buffersRequested
    ensures var r, id := BlockFor(s, slot, a), s.tracking.slotBuffers[slot];
            && r.after.Ids() == (if CanTrack(s, a) then s.Ids() + {id} else s.Ids())
            && |r.after.Ids()| <= s.buffersRequested && !r.fetched.Undefined?
            && (r.fetched.Block? <==> GetsTracked(s, id, a) && a.blockOk && a.fenceOk)
            && (r.fetched.Block? ==> r.fetched == Block(slot, id) && slot in r.after.tracking.poolData)
            && r.after.tracking.waiting == s.tracking.waiting
            && r.after.tracking.poolData == s.tracking.poolData + (if GetsTracked(s, id, a) then {slot} else {})
            && r.after.allowAllocation == (s.allowAllocation && !(s.producerId.Some? && ToldToStop(s, id, a)))
  {
    var id := s.tracking.slotBuffers[slot];
    hide Tracking.Ids, NewTracked;
    if id in s.Ids() {
      assert s.Ids() + {id} == s.Ids();
    } else {
      NewTrackedMeans(s, id, a);
    }
  }
  /**
    What a fetch comes to, by the answers. Exactly one buffer may be new: that of the slot, while there is room and it
    can be wrapped. A block comes with a registered buffer exactly when the buffer was tracked or can be, the producer
    can be told after the last one, and the block can be made.
   */
  ghost predicate Outcome(s: Snapshot, wantedFormat: nat, a: FetchAnswers, t: Snapshot, fetched: Fetched) {
    var slot := SlotFor(s.tracking, a);
    && (!s.Open(wantedFormat) ==> t == s && fetched.NoBlock?)
    && (fetched.Undefined? <==> s.Open(wantedFormat) && s.tracking.NeedsLost() && !a.lostBufferOk)
    && t.Ids() == (if s.Open(wantedFormat) && slot.Some? && CanTrack(s, a) then s.Ids() + {IdFor(s.tracking, a)}
                   else s.Ids())
    && (fetched.Block? <==>
        s.Open(wantedFormat) && slot.Some? && GetsTracked(s, IdFor(s.tracking, a), a) && a.blockOk && a.fenceOk)
    && (fetched.Block? ==>
          && fetched == Block(slot.value, IdFor(s.tracking, a))
          && slot.value in t.tracking.poolData && fetched.id in t.tracking.registered)
    && t.tracking.poolData ==
       s.tracking.poolData + (if s.Open(wantedFormat) && slot.Some? && GetsTracked(s, IdFor(s.tracking, a), a)
                              then {slot.value} else {})
    && t.allowAllocation ==
       (s.allowAllocation && !(s.Open(wantedFormat) && slot.Some? && ToldToStop(s, IdFor(s.tracking, a), a)))
  }

  lemma FetchMeans(s: Snapshot, wantedFormat: nat, a: FetchAnswers)
    requires |s.Ids()| <= s.buffersRequested
    ensures var r := AfterFetch(s, wantedFormat, a);
            Outcome(s, wantedFormat, a, r.after, r.fetched) && |r.after.Ids()| <= s.buffersRequested
  {
    FreeSlotMeans(s.tracking, a);
    hide FreeSlot, SlotFor, IdFor, BlockFor;
    var f := FreeSlot(s.tracking, a);
    if s.Open(wantedFormat) && f.slot.Some? {
      BlockForMeans(s.(tracking := f.after), f.slot.value, a);
    }
  }

  lemma FetchKeeps(s: Snapshot, wantedFormat: nat, a: FetchAnswers)
    ensures s.Ids() <= AfterFetch(s, wantedFormat, a).after.Ids()
  {
    FreeSlotMeans(s.tracking, a);
    hide FreeSlot, SlotFor, IdFor, Tracking.Ids;
  }

  // ----- When a buffer counts as lost -----

  datatype FetchCall = FetchCall(wantedFormat: nat, answers: FetchAnswers)

  /** The pool after some fetches. */
  ghost function FetchAll(s: Snapshot, fetches: seq<FetchCall>): Snapshot {
    if fetches == [] then s
    else
      var n := |fetches| - 1;
      AfterFetch(FetchAll(s, fetches[..n]), fetches[n].wantedFormat, fetches[n].answers).after
  }

  /** The producer gives a slot, and its buffer is known or can be requested. */
  predicate Gives(s: Snapshot, f: FetchCall) {
    && s.Open(f.wantedFormat) && f.answers.dequeued.Some?
    && (|| (f.answers.dequeued.value in s.tracking.slotBuffers && !f.answers.needsReallocation)
        || f.answers.requested.Some?)
  }

  /** How many buffers came out of the producer. */
  ghost function CountOut(s: Snapshot, fetches: seq<FetchCall>): nat {
    if fetches == [] then 0
    else
      var n := |fetches| - 1;
      CountOut(s, fetches[..n]) + if Gives(FetchAll(s, fetches[..n]), fetches[n]) then 1 else 0
  }

  lemma BlockForLeaves(s: Snapshot, slot: Slot, a: FetchAnswers)
    requires slot in s.tracking.slotBuffers
    ensures var r := BlockFor(s, slot, a);
            && r.after.tracking.lostCounter == s.tracking.lostCounter
            && r.after.tracking.slotBuffers == s.tracking.slotBuffers
            && (r.fetched.Block? ==> r.fetched.slot == slot)
            && r.after == s.(tracking := r.after.tracking, allowAllocation := r.after.allowAllocation)
  {
    hide Tracking.Ids, NewTracked;
    NewTrackedLeaves(s, s.tracking.slotBuffers[slot], a);
  }

  lemma NewTrackedLeaves(s: Snapshot, id: UniqueId, a: FetchAnswers)
    ensures var t := NewTracked(s, id, a).after;
            && t == s.(tracking := t.tracking, allowAllocation := t.allowAllocation)
            && t.tracking == s.tracking.(registered := t.tracking.registered)
  {
    hide Tracking.Ids;
  }

  /** Only the slot that the producer gave may have another buffer now. */
  ghost predicate OnlySlot(slot: Option<Slot>, before: map<Slot, UniqueId>, after: map<Slot, UniqueId>) {
    forall x :: x in after && Some(x) != slot ==> x in before && after[x] == before[x]
  }

  /** While the countdown runs, a fetch gets its slot from the producer only, and counts it. */
  lemma CountsDown(s: Snapshot, f: FetchCall)
    requires s.tracking.lostCounter > 0
    ensures var r := AfterFetch(s, f.wantedFormat, f.answers);
            && r.after.tracking.lostCounter == s.tracking.lostCounter - (if Gives(s, f) then 1 else 0)
            && (!Gives(s, f) ==> r.after == s && r.fetched.NoBlock?)
            && (r.fetched.Block? ==> Some(r.fetched.slot) == f.answers.dequeued)
            && OnlySlot(f.answers.dequeued, s.tracking.slotBuffers, r.after.tracking.slotBuffers)
  {
    hide BlockFor;
    var r := FreeSlot(s.tracking, f.answers);
    FreeSlotMeans(s.tracking, f.answers);
    hide SlotFor, IdFor;
    if s.Open(f.wantedFormat) && r.slot.Some? {
      BlockForLeaves(s.(tracking := r.after), r.slot.value, f.answers);
    }
  }

  lemma StaysZero(s: Snapshot, f: FetchCall)
    ensures var t := AfterFetch(s, f.wantedFormat, f.answers).after;
            && (s.tracking.lostCounter == 0 ==> t.tracking.lostCounter == 0)
            && t == s.(tracking := t.tracking, allowAllocation := t.allowAllocation)
  {
    hide BlockFor;
    var r := FreeSlot(s.tracking, f.answers);
    FreeSlotMeans(s.tracking, f.answers);
    hide SlotFor, IdFor;
    if s.Open(f.wantedFormat) && r.slot.Some? {
      BlockForLeaves(s.(tracking := r.after), r.slot.value, f.answers);
    }
  }

  /** The countdown is what it was, less the buffers that came out. */
  lemma {:induction false} Countdown(s: Snapshot, fetches: seq<FetchCall>)
    ensures var t, n, out := FetchAll(s, fetches), s.tracking.lostCounter, CountOut(s, fetches);
            && t.tracking.lostCounter == (if out >= n then 0 else n - out)
            && t == s.(tracking := t.tracking, allowAllocation := t.allowAllocation)
    decreases |fetches|
  {
    if fetches != [] {
      var n := |fetches| - 1;
      Countdown(s, fetches[..n]);
      var u := FetchAll(s, fetches[..n]);
      hide AfterFetch;
      StaysZero(u, fetches[n]);
      if u.tracking.lostCounter > 0 {
        CountsDown(u, fetches[n]);
      }
    }
  }

  /**
    After a migration, a buffer that still waits when as many buffers came out of the producer as there are slots counts
    as lost: the next fetch in the pool's format that can attach and wrap it gets a block of it, the first that waits.
   */
  lemma LostBufferComesBack(s: Snapshot, fetches: seq<FetchCall>, a: FetchAnswers)
    requires s.tracking.lostCounter == NUM_BUFFER_SLOTS && s.Open(s.format)
    requires CountOut(s, fetches) >= NUM_BUFFER_SLOTS
    requires FetchAll(s, fetches).tracking.waiting != {}
    requires a.lostBufferOk && a.attached.Some? && a.lostWrapped.Some? && a.blockOk && a.fenceOk
    ensures var t := FetchAll(s, fetches);
            AfterFetch(t, s.format, a).fetched == Block(a.attached.value, Least(t.tracking.waiting))
  {
    Countdown(s, fetches);
    hide FetchAll, CountOut;
    var t := FetchAll(s, fetches);
    assert Least(t.tracking.waiting) in t.Ids();
  }

  /** Before that no lost buffer is attached: a fetch leaves all slots alone but the one that the producer gives. */
  lemma NoneIsLostBefore(s: Snapshot, fetches: seq<FetchCall>, f: FetchCall)
    requires CountOut(s, fetches) < s.tracking.lostCounter
    ensures var t := FetchAll(s, fetches);
            var r := AfterFetch(t, f.wantedFormat, f.answers);
            && !t.tracking.NeedsLost()
            && (r.fetched.Block? ==> Some(r.fetched.slot) == f.answers.dequeued)
            && OnlySlot(f.answers.dequeued, t.tracking.slotBuffers, r.after.tracking.slotBuffers)
  {
    Countdown(s, fetches);
    hide FetchAll, CountOut, AfterFetch;
    CountsDown(FetchAll(s, fetches), f);
  }

  class BqBlockPool {
    const tracked: TrackedGraphicBuffers
    var producerId: Option<nat>
    var configureError: bool
    var allowAllocation: bool
    var buffersRequested: nat
    var format: nat
    var hasNotifier: bool

    /** Never more buffers are tracked than were requested. */
    ghost predicate Valid()
      reads this, tracked
    {
      && tracked.Valid()
      && |tracked.Value().Ids()| <= buffersRequested
    }

    ghost function Ids(): set<UniqueId>
      reads tracked
    {
      tracked.Value().Ids()
    }

    ghost function Snap(): Snapshot
      reads this, tracked
    {
      Snapshot(producerId, configureError, allowAllocation, buffersRequested, format, hasNotifier, tracked.Value())
    }

    constructor ()
      ensures Valid() && Snap() == INITIAL && fresh(tracked)
    {
      tracked := new TrackedGraphicBuffers();
      producerId, configureError, allowAllocation, buffersRequested, format := None, false, false, 0, 0;
      hasNotifier := false;
    }

    method AllowAllocation(allow: bool, ok: bool) returns (done: bool)
      modifies this`allowAllocation
      ensures done == (producerId.Some? && (old(allowAllocation) == allow || ok))
      ensures allowAllocation == if done then allow else old(allowAllocation)
    {
      if producerId.None? {
        return false;
      }
      if allowAllocation == allow {
        return true;
      }
      if ok {
        allowAllocation := allow;
      }
      return ok;
    }

    /**
      A free slot: a lost buffer that is attached, or a buffer that the producer has free. It is left unset exactly
      when a lost buffer is due and cannot be made.
     */
    method GetFreeSlot(a: FetchAnswers) returns (ok: bool, slot: Option<Slot>)
      requires Valid()
      modifies tracked
      ensures Valid() && SlotResult(tracked.Value(), ok, slot) == FreeSlot(old(tracked.Value()), a)
      ensures Ids() == old(Ids()) && slot == SlotFor(old(tracked.Value()), a)
      ensures ok <==> slot.Some? || (old(tracked.NeedMigrateLostBuffers()) && !a.lostBufferOk)
    {
      FreeSlotMeans(tracked.Value(), a);
      hide Split, LostAttached, CameOut, SlotFor, IdFor;
      if tracked.NeedMigrateLostBuffers() {
        ok, slot := tracked.MigrateLostBuffer(a.lostBufferOk, a.attached, a.lostWrapped);
        if ok {
          return;
        }
      }
      if a.dequeued.None? {
        return false, None;
      }
      slot := a.dequeued;
      if slot.value !in tracked.slotBuffers || a.needsReallocation {
        if a.requested.None? {
          return false, None;
        }
        tracked.slotBuffers := tracked.slotBuffers[slot.value := a.requested.value];
      }
      tracked.OnBufferDequeued(slot.value);
      ok := true;
    }

    /** The producer is told not to allocate any more. */
    method Deny(answer: bool) returns (ok: bool)
      modifies this`allowAllocation
      ensures Snap() == Denied(old(Snap()), answer) && ok == (producerId.Some? && (!old(allowAllocation) || answer))
    {
      ok := AllowAllocation(false, answer);
    }

    /** Registers a buffer that is seen for the first time, unless there are enough already. */
    method TrackNew(id: UniqueId, a: FetchAnswers) returns (ok: bool)
      requires Valid() && id !in Ids()
      modifies this`allowAllocation, tracked`registered, tracked`all
      ensures Valid() && TrackResult(Snap(), ok) == NewTracked(old(Snap()), id, a) && (ok ==> id in tracked.registered)
      ensures id in Ids() <==> |old(Ids())| < buffersRequested && a.wrapped.Some?
    {
      hide TrackedGraphicBuffers.Valid, Tracking.Ids, TrackedGraphicBuffers.Size, Denied, WithId;
      tracked.IdsAreAll();
      if tracked.Size() >= buffersRequested {
        if a.detachOk {
          var done := Deny(a.allowOk);
        }
        return false;
      }
      if a.wrapped.None? {
        return false;
      }
      Register(id, a.wrapped.value);
      ok := true;
      tracked.IdsAreAll();
      if tracked.Size() == buffersRequested {
        ok := Deny(a.allowOk);
      }
    }

    method Register(id: UniqueId, allocation: Allocation)
      requires Valid() && id !in Ids() && |Ids()| < buffersRequested
      modifies tracked`registered, tracked`all
      ensures Valid() && id in Ids() && |Ids()| == |old(Ids())| + 1 && id in tracked.registered
      ensures tracked.Value() == WithId(old(tracked.Value()), id)
    {
      hide TrackedGraphicBuffers.Valid, Tracking.Ids, TrackedGraphicBuffers.HasUniqueId;
      tracked.HasMeans(id);
      tracked.RegisterUniqueId(id, allocation);
    }

    /**
      A block comes with a registered buffer; no buffer is lost, and at most one is added. The fetch uses a slot
      that was never set exactly when a lost buffer is due and cannot be made.
     */
    method FetchGraphicBlock(wantedFormat: nat, a: FetchAnswers) returns (fetched: Fetched)
      requires Valid()
      modifies this`allowAllocation, tracked
      ensures Valid() && FetchResult(Snap(), fetched) == AfterFetch(old(Snap()), wantedFormat, a)
      ensures Outcome(old(Snap()), wantedFormat, a, Snap(), fetched)
    {
      hide FreeSlot, SlotFor, IdFor, TrackedGraphicBuffers.Valid, NewTracked, Tracking.Ids, Outcome;
      FetchMeans(Snap(), wantedFormat, a);
      FreeSlotMeans(tracked.Value(), a);
      if wantedFormat != format || configureError || producerId.None? {
        return NoBlock;
      }
      var ok, slot := GetFreeSlot(a);
      if !ok {
        return NoBlock;
      }
      if slot.None? {
        return Undefined;
      }
      var id := tracked.slotBuffers[slot.value];
      tracked.HasMeans(id);
      if !tracked.HasUniqueId(id) {
        ok := TrackNew(id, a);
        if !ok {
          return NoBlock;
        }
      }
      if id !in tracked.registered {
        assert false;  // getRegisteredAllocation
      }
      tracked.UpdatePoolData(slot.value);
      return if a.blockOk && a.fenceOk then Block(slot.value, id) else NoBlock;
    }

    /** A new buffer set forgets the old one; asking for the same set again changes nothing. */
    method RequestNewBufferSet(bufferCount: int, wantedFormat: nat, allowOk: bool) returns (ok: bool)
      requires Valid()
      modifies this`allowAllocation, this`buffersRequested, this`format, tracked
      ensures Valid()
      ensures ok <==> bufferCount > 0 && producerId.Some?
                      && (Same(old(Snap()), bufferCount, wantedFormat) || old(allowAllocation) || allowOk)
      ensures !ok || Same(old(Snap()), bufferCount, wantedFormat) ==> unchanged(this) && unchanged(tracked)
      ensures ok ==> buffersRequested == bufferCount && format == wantedFormat
      ensures ok && !Same(old(Snap()), bufferCount, wantedFormat) ==> tracked.Value() == NOTHING && allowAllocation
    {
      if bufferCount <= 0 || producerId.None? {
        return false;
      }
      if buffersRequested == bufferCount && format == wantedFormat {
        return true;
      }
      var done := AllowAllocation(true, allowOk);
      if !done {
        return false;
      }
      tracked.Reset();
      buffersRequested, format := bufferCount, wantedFormat;
      return true;
    }

    /**
      A surface switch keeps every tracked buffer, even when it fails; only losing the surface forgets them. Whoever
      waits for a block is told when the switch has succeeded.
     */
    method ConfigureProducer(producer: Option<nat>, idOk: bool, answers: SwitchAnswers) returns (notified: bool)
      requires Valid()
      modifies this`producerId, this`configureError, this`allowAllocation, this`hasNotifier, tracked
      ensures Valid()
      ensures producer.None? ==>
                && tracked.Value() == NOTHING && producerId.None? && !notified
                && unchanged(this`configureError, this`allowAllocation, this`hasNotifier)
      ensures producer.Some? ==> tracked.all == old(tracked.all)
      ensures producer.Some? && !idOk ==>
                && configureError && !notified && unchanged(tracked)
                && unchanged(this`producerId, this`allowAllocation, this`hasNotifier)
      ensures producer.Some? && idOk && producer == old(producerId) ==>
                unchanged(this) && unchanged(tracked) && !notified
      ensures producer.Some? && idOk && producer != old(producerId) ==>
                && producerId == producer && notified == !configureError
                && Switched(old(Snap()), answers, Snap())
    {
      hide TrackedGraphicBuffers.Valid, CanMigrate, Migrated, Tracking.Ids, TrackedGraphicBuffers.Size;
      notified := false;
      if producer.None? {
        producerId := None;
        tracked.Reset();
        return;
      }
      if !idOk {
        configureError := true;
        return;
      }
      if producer == producerId {
        return;
      }
      producerId, configureError, allowAllocation := producer, false, false;
      var done := AllowAllocation(true, answers.allowOk);
      if !done || !answers.timeoutOk || !answers.maxCountOk {
        configureError := true;
        return;
      }
      tracked.IdsAreAll();
      if tracked.Size() > 0 {
        SwitchBuffers(answers);
        if configureError {
          return;
        }
      }
      hasNotifier := hasNotifier || answers.connectOk;
      notified := true;
    }

    /** The tracked buffers migrate; with all of them there, the new producer must not allocate more. */
    method SwitchBuffers(answers: SwitchAnswers)
      requires Valid() && producerId.Some? && allowAllocation && !configureError
      modifies this`configureError, this`allowAllocation, tracked
      ensures Valid() && tracked.all == old(tracked.all) && Ids() == old(Ids())
      ensures configureError == MigrationFails(old(Snap()), answers)
      ensures !answers.queryOk ==> unchanged(tracked)
      ensures !configureError ==> Migrated(old(tracked.Value()), answers.moves, tracked.Value())
      ensures allowAllocation == (configureError || |Ids()| < buffersRequested)
    {
      hide CanMigrate, Migrated, TrackedGraphicBuffers.Valid, Tracking.Ids, TrackedGraphicBuffers.Size;
      if !answers.queryOk {
        configureError := true;
        return;
      }
      var migrated := tracked.MigrateLocalBuffers(answers.moves);
      tracked.IdsAreAll();
      if !migrated {
        configureError := true;
        return;
      }
      if tracked.Size() == buffersRequested {
        var done := AllowAllocation(false, answers.denyOk);
        if !done {
          configureError := true;
        }
      }
    }
  }

  // ----- Every run -----

  /** The request repeats the last one. */
  ghost predicate Same(s: Snapshot, bufferCount: int, format: nat) {
    s.buffersRequested == bufferCount && s.format == format
  }

  ghost predicate MigrationFails(s: Snapshot, answers: SwitchAnswers) {
    || !answers.queryOk
    || !CanMigrate(s.tracking, answers.moves)
    || (|s.Ids()| == s.buffersRequested && !answers.denyOk)
  }

  ghost predicate SwitchFails(s: Snapshot, answers: SwitchAnswers) {
    || !answers.allowOk || !answers.timeoutOk || !answers.maxCountOk
    || (s.Ids() != {} && MigrationFails(s, answers))
  }

  /** A switch to another producer: what is tracked migrates, or is left alone. */
  ghost predicate Switched(s: Snapshot, answers: SwitchAnswers, t: Snapshot) {
    && t.Ids() == s.Ids() && t.configureError == SwitchFails(s, answers)
    && t.hasNotifier == (s.hasNotifier || (!t.configureError && answers.connectOk))
    && (t.buffersRequested, t.format) == (s.buffersRequested, s.format)
    && (s.Ids() == {} || !answers.allowOk || !answers.timeoutOk || !answers.maxCountOk || !answers.queryOk ==>
          t.tracking == s.tracking)
    && (s.Ids() != {} && !t.configureError ==> Migrated(s.tracking, answers.moves, t.tracking))
    && t.allowAllocation == (answers.allowOk && (t.configureError || s.Ids() == {} || |s.Ids()| < s.buffersRequested))
  }

  datatype Op =
    | Fetch(fetchFormat: nat, fetchAnswers: FetchAnswers)
    | Request(bufferCount: int, wantedFormat: nat, allowOk: bool)
    | Switch(producer: Option<nat>, idOk: bool, switchAnswers: SwitchAnswers)

  /** The calls that make the pool forget its buffers: a different buffer set, or the loss of the surface. */
  ghost predicate Resets(s: Snapshot, op: Op) {
    match op
    case Fetch(_, _) => false
    case Request(bufferCount, format, allowOk) =>
      bufferCount > 0 && s.producerId.Some? && !Same(s, bufferCount, format) && (s.allowAllocation || allowOk)
    case Switch(producer, _, _) => producer.None?
  }

  /** What a call does. */
  ghost predicate Next(s: Snapshot, op: Op, t: Snapshot) {
    match op
    case Fetch(format, answers) => t == AfterFetch(s, format, answers).after
    case Request(bufferCount, format, allowOk) =>
      if !Resets(s, op) then t == s
      else
        t == s.(allowAllocation := true, buffersRequested := bufferCount, format := format, tracking := NOTHING)
    case Switch(None, idOk, answers) => t == s.(producerId := None, tracking := NOTHING)
    case Switch(Some(producer), idOk, answers) =>
      if !idOk then t == s.(configureError := true)
      else if s.producerId == Some(producer) then t == s
      else t.producerId == Some(producer) && Switched(s, answers, t)
  }

  /** Every snapshot follows from the one before. */
  ghost predicate Chain(history: seq<Snapshot>, ops: seq<Op>) {
    && |history| == |ops| + 1
    && forall n :: 0 <= n < |ops| ==> Next(history[n], ops[n], history[n + 1])
  }

  /** Buffers are kept from any point of a run up to the next reset. */
  lemma {:induction false} KeptBetweenResets(history: seq<Snapshot>, ops: seq<Op>, i: nat, j: nat)
    requires Chain(history, ops) && i <= j < |history|
    requires forall k :: i <= k < j ==> !Resets(history[k], ops[k])
    ensures history[i].Ids() <= history[j].Ids()
    decreases j
  {
    hide Next, Resets, Tracking.Ids;
    if i < j {
      KeptBetweenResets(history, ops, i, j - 1);
      KeptOnce(history[j - 1], ops[j - 1], history[j]);
    }
  }

  lemma KeptOnce(s: Snapshot, op: Op, t: Snapshot)
    requires Next(s, op, t) && !Resets(s, op)
    ensures s.Ids() <= t.Ids()
  {
    hide AfterFetch;
    if op.Fetch? {
      FetchKeeps(s, op.fetchFormat, op.fetchAnswers);
    }
  }

  /** One call; only a new buffer set or the loss of the surface makes the pool forget a buffer. */
  method Step(pool: BqBlockPool, op: Op)
    requires pool.Valid()
    modifies pool, pool.tracked
    ensures pool.Valid() && Next(old(pool.Snap()), op, pool.Snap())
  {
    hide BqBlockPool.Valid, TrackedGraphicBuffers.NeedMigrateLostBuffers, MigrationFails;
    match op {
      case Fetch(format, answers) => var fetched := pool.FetchGraphicBlock(format, answers);
      case Request(bufferCount, format, allowOk) => var ok := pool.RequestNewBufferSet(bufferCount, format, allowOk);
      case Switch(producer, idOk, answers) => var notified := pool.ConfigureProducer(producer, idOk, answers);
    }
  }

  /**
    From an empty pool, after any calls: tracked buffers are split in two, and no more than requested. From any point
    of the run up to the next reset, no buffer is lost.
   */
  method Run(ops: seq<Op>) returns (pool: BqBlockPool, ghost history: seq<Snapshot>)
    ensures pool.Valid()
    ensures Chain(history, ops) && history[0] == INITIAL && history[|ops|] == pool.Snap()
    ensures forall i, j :: 0 <= i <= j <= |ops| && (forall k :: i <= k < j ==> !Resets(history[k], ops[k])) ==>
              history[i].Ids() <= history[j].Ids()
  {
    pool := new BqBlockPool();
    history := [pool.Snap()];
    for n := 0 to |ops|
      invariant fresh(pool) && fresh(pool.tracked) && pool.Valid()
      invariant |history| == n + 1 && history[0] == INITIAL && history[n] == pool.Snap()
      invariant forall k :: 0 <= k < n ==> Next(history[k], ops[k], history[k + 1])
    {
      hide BqBlockPool.Valid, Next;
      Step(pool, ops[n]);
      history := history + [pool.Snap()];
    }
    forall i, j | 0 <= i <= j <= |ops| && (forall k :: i <= k < j ==> !Resets(history[k], ops[k]))
      ensures history[i].Ids() <= history[j].Ids()
    {
      KeptBetweenResets(history, ops, i, j);
    }
  }

  /** All goes well: the producer gives slot 0, with this buffer if it is asked for. */
  function GoodFetch(id: UniqueId, needsReallocation: bool): FetchAnswers {
    FetchAnswers(true, None, None, Some(0), needsReallocation, Some(id), Some(0), true, true, true, true)
  }

  function GoodSwitch(moves: map<Slot, Slot>): SwitchAnswers {
    SwitchAnswers(true, true, true, true, moves, true, true)
  }

  /** Slot 0 has a block, and this buffer; buffer 1 is all that was asked for. */
  function OneTracked(id: UniqueId): Snapshot {
    Snapshot(Some(1), false, false, 1, 0, true, Tracking(map[0 := id], {0}, {1}, {}, 0))
  }

  lemma FirstIsTracked()
    ensures AfterFetch(Snapshot(Some(1), false, true, 1, 0, true, NOTHING), 0, GoodFetch(1, false)).after
            == OneTracked(1)
  {
  }

  lemma SecondIsRefused()
    ensures AfterFetch(OneTracked(1), 0, GoodFetch(2, true)).after == OneTracked(2)
  {
  }

  /**
    A switch can fail although every answer is good. The producer reallocates the buffer of a slot that has a block,
    when enough buffers are tracked: the new buffer is refused but stays in the slot, and cannot migrate.
   */
  method RefusedBufferStopsMigration() returns (pool: BqBlockPool)
    ensures pool.Valid() && pool.configureError && pool.Ids() == {1}
  {
    pool := new BqBlockPool();
    hide AfterFetch, Outcome;
    FirstIsTracked();
    SecondIsRefused();
    var notified := pool.ConfigureProducer(Some(1), true, GoodSwitch(map[]));
    var ok := pool.RequestNewBufferSet(1, 0, true);
    var first := pool.FetchGraphicBlock(0, GoodFetch(1, false));
    var second := pool.FetchGraphicBlock(0, GoodFetch(2, true));
    notified := pool.ConfigureProducer(Some(2), true, GoodSwitch(map[0 := 0]));
  }
}

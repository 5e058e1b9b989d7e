/**
  The output half of the decoder: which V4L2 buffer carries which graphic block, and which frames the
  device holds. It spans the decoder, its CAPTURE queue and the pool that bounds the set of blocks.
 */
module DecoderFrames {
  import opened Options
  import opened V4L2Queues

  type BlockId = nat

  /** C2VdaPooledBlockPool: offers at most bufferCount different blocks per buffer set. */
  class PooledBlockPool {
    var bufferIds: set<BlockId>
    var bufferCount: nat

    ghost predicate Valid()
      reads this
    {
      |bufferIds| <= bufferCount
    }

    constructor ()
      ensures Valid() && bufferIds == {} && bufferCount == 0
    {
      bufferIds, bufferCount := {}, 0;
    }

    /** The buffer pool underneath answers with a block or fails; a block too many is put back. */
    method FetchGraphicBlock(fetched: Option<BlockId>) returns (block: Option<BlockId>)
      requires Valid()
      modifies this`bufferIds
      ensures Valid() && old(bufferIds) <= bufferIds
      ensures block.Some? ==> block == fetched && block.value in bufferIds
      ensures block.None? && fetched.Some? ==> |bufferIds| == bufferCount && fetched.value !in bufferIds
      ensures bufferIds == if fetched.Some? && |old(bufferIds)| < bufferCount
                           then old(bufferIds) + {fetched.value} else old(bufferIds)
      ensures fetched.None? ==> block.None?
    {
      if fetched.None? {
        return None;
      }
      if |bufferIds| < bufferCount {
        bufferIds := bufferIds + {fetched.value};
      }
      return if fetched.value in bufferIds then fetched else None;
    }

    method RequestNewBufferSet(count: int) returns (ok: bool)
      requires Valid()
      modifies this
      ensures Valid() && (ok <==> count > 0)
      ensures if ok then bufferIds == {} && bufferCount == count else unchanged(this)
    {
      if count <= 0 {
        return false;
      }
      bufferIds, bufferCount := {}, count;
      return true;
    }
  }

  /** One turn of the output loop: DQBUF's answer, whether it holds data, and a possible re-QBUF. */
  datatype OutputTurn = OutputTurn(dqbuf: Dqbuf, hasData: bool, requeueOk: bool)

  /**
    The blocks seen since the last resolution change, in order of appearance: the n-th one owns buffer
    n, which makes the assignment a bijection onto the first buffers.
   */
  ghost predicate Assigned(ids: map<BlockId, nat>, blocks: seq<BlockId>) {
    && |ids| == |blocks|
    && (forall i :: 0 <= i < |blocks| ==> blocks[i] in ids && ids[blocks[i]] == i)
    && (forall b :: b in ids ==> ids[b] < |blocks| && blocks[ids[b]] == b)
  }

  /** The device holds, on each queued buffer, the block that owns the buffer. */
  ghost predicate Holds(frames: map<nat, BlockId>, blocks: seq<BlockId>, queued: set<nat>) {
    && frames.Keys == queued
    && (forall i :: i in frames ==> i < |blocks| && frames[i] == blocks[i])
  }

  /** The assignment is injective and onto 0..size-1. */
  lemma AssignmentIsBijective(ids: map<BlockId, nat>, blocks: seq<BlockId>)
    requires Assigned(ids, blocks)
    ensures forall a, b :: a in ids && b in ids && ids[a] == ids[b] ==> a == b
    ensures ids.Values == Indices(|ids|)
  {
    forall i | i in Indices(|ids|)
      ensures i in ids.Values
    {
      assert blocks[i] in ids.Keys && ids[blocks[i]] == i;
    }
  }

  /** A block keeps its buffer; a new one gets the next. */
  function WithBuffer(ids: map<BlockId, nat>, b: BlockId): (ids': map<BlockId, nat>)
    ensures b in ids' && forall c :: c in ids ==> c in ids' && ids'[c] == ids[c]
  {
    if b in ids then ids else ids[b := |ids|]
  }

  lemma AssignNext(ids: map<BlockId, nat>, blocks: seq<BlockId>, b: BlockId)
    requires Assigned(ids, blocks) && b !in ids
    ensures Assigned(ids[b := |ids|], blocks + [b])
  {
    assert |ids[b := |ids|]| == |ids| + 1;
  }

  /** Queues buffer id, if it is free and QBUF succeeds. */
  method Enqueue(q: V4L2Queue, id: nat, qbufOk: bool) returns (ok: bool)
    requires q.Valid() && q.held == map[] && id in q.Free()
    modifies q`queued, q`held, q.freeBuffers
    ensures q.Valid() && q.held == map[]
    ensures ok == qbufOk
    ensures q.Free() == if ok then old(q.Free()) - {id} else old(q.Free())
    ensures q.queued == if ok then old(q.queued) + {id} else old(q.queued)
  {
    var outputBuffer := q.GetFreeBufferById(id);
    if outputBuffer == null {
      assert false;  // V4L2 buffer not available
    }
    ok := q.QueueBuffer(outputBuffer, qbufOk);
  }

  /** Dequeues a buffer and drops the reference at once. */
  method DequeueAndDrop(q: V4L2Queue, answer: Dqbuf) returns (success: bool, id: Option<nat>)
    requires q.Valid() && q.held == map[] && (answer.Buffer? ==> answer.index in q.queued)
    modifies q`queued, q`held, q.freeBuffers
    ensures q.Valid() && q.held == map[]
    ensures success <==> !(answer.Failed? && q.streaming && old(q.queued) != {})
    ensures id == if answer.Buffer? && q.streaming then Some(answer.index) else None
    ensures q.queued == if id.Some? then old(q.queued) - {id.value} else old(q.queued)
    ensures q.Free() == if id.Some? then old(q.Free()) + {id.value} else old(q.Free())
  {
    var dequeued;
    success, dequeued := q.DequeueBuffer(answer);
    if dequeued == null {
      return success, None;
    }
    id := Some(dequeued.index);
    q.DropRef(dequeued);
  }

  lemma SmallerThanSuperset<T>(a: set<T>, b: set<T>, x: T)
    requires a <= b && x in b && x !in a
    ensures |a| < |b|
  {
    assert a <= b - {x};
    SubsetSize(a, b - {x});
  }

  lemma {:induction false} SubsetSize<T>(a: set<T>, b: set<T>)
    requires a <= b
    ensures |a| <= |b|
  {
    if a != {} {
      var x :| x in a;
      SubsetSize(a - {x}, b - {x});
    }
  }

  class DecoderOutput {
    const outputQueue: V4L2Queue
    const pool: PooledBlockPool
    var frameAtDevice: map<nat, BlockId>
    var blockIdToV4L2Id: map<BlockId, nat>
    var error: bool
    ghost var blocks: seq<BlockId>

    ghost function Snap(): Snapshot
      reads this, outputQueue, pool
    {
      Snapshot(frameAtDevice, blockIdToV4L2Id, outputQueue.count, outputQueue.streaming, pool.bufferIds,
               pool.bufferCount, error)
    }

    ghost predicate Valid()
      reads this, outputQueue, outputQueue.freeBuffers, outputQueue.held.Values, pool
    {
      && outputQueue.Valid() && outputQueue.held == map[]
      && pool.Valid()
      && Assigned(blockIdToV4L2Id, blocks)
      && |blocks| <= outputQueue.count
      && (forall i :: |blocks| <= i < outputQueue.count ==> i in outputQueue.Free())
      && Holds(frameAtDevice, blocks, outputQueue.queued)
      && (!error ==> blockIdToV4L2Id.Keys <= pool.bufferIds && pool.bufferCount == outputQueue.count)
    }

    constructor ()
      ensures Valid() && Snap() == INITIAL && fresh(outputQueue) && fresh(pool) && outputQueue.freeBuffers == null
    {
      outputQueue := new V4L2Queue();
      pool := new PooledBlockPool();
      frameAtDevice, blockIdToV4L2Id, error, blocks := map[], map[], false, [];
    }

    /** The block is on its way to the client or back, not at the device. */
    ghost predicate Available(block: BlockId)
      reads this, pool
    {
      block in pool.bufferIds && forall i :: i in frameAtDevice ==> frameAtDevice[i] != block
    }

    /** The V4L2 buffer that carries the block; a block that is new gets the next unused one. */
    method BufferFor(blockId: BlockId) returns (id: nat)
      requires Valid() && !error && Available(blockId)
      modifies this`blockIdToV4L2Id, this`blocks
      ensures Valid()
      ensures blockId in blockIdToV4L2Id && id == blockIdToV4L2Id[blockId] && id in outputQueue.Free()
      ensures blockIdToV4L2Id == WithBuffer(old(blockIdToV4L2Id), blockId)
    {
      if blockId !in blockIdToV4L2Id {
        SmallerThanSuperset(blockIdToV4L2Id.Keys, pool.bufferIds, blockId);
        if |blockIdToV4L2Id| >= outputQueue.count {
          assert false;  // more different blocks than V4L2 buffers
        }
        AssignNext(blockIdToV4L2Id, blocks, blockId);
        blockIdToV4L2Id := blockIdToV4L2Id[blockId := |blockIdToV4L2Id|];
        blocks := blocks + [blockId];
      }
      return blockIdToV4L2Id[blockId];
    }

    /** QBUF of a block on the free buffer it owns. */
    method QueueFrame(v4l2Id: nat, blockId: BlockId, qbufOk: bool)
      requires Valid() && v4l2Id in outputQueue.Free() && v4l2Id < |blocks| && blocks[v4l2Id] == blockId
      modifies this`frameAtDevice, this`error, outputQueue`queued, outputQueue`held, outputQueue.freeBuffers
      ensures Valid() && error == (old(error) || !qbufOk)
      ensures frameAtDevice == if qbufOk then old(frameAtDevice)[v4l2Id := blockId] else old(frameAtDevice)
    {
      var queued := Enqueue(outputQueue, v4l2Id, qbufOk);
      if !queued {
        error := true;
        return;
      }
      if v4l2Id in frameAtDevice {
        assert false;  // already enqueued
      }
      frameAtDevice := frameAtDevice[v4l2Id := blockId];
    }

    /**
      Queues a fetched block on its V4L2 buffer. For a block from the pool that the device does not
      hold, the only errors left are a missing frame and a failing QBUF.
     */
    method OnVideoFrameReady(frame: Option<BlockId>, qbufOk: bool)
      requires Valid() && !error && (frame.Some? ==> Available(frame.value))
      modifies this, outputQueue`queued, outputQueue`held, outputQueue.freeBuffers
      ensures Valid()
      ensures error <==> frame.None? || !qbufOk
      ensures frame.Some? ==>
                && frame.value in blockIdToV4L2Id && blockIdToV4L2Id == WithBuffer(old(blockIdToV4L2Id), frame.value)
      ensures frame.None? ==> blockIdToV4L2Id == old(blockIdToV4L2Id)
      ensures !error ==> frameAtDevice == old(frameAtDevice)[blockIdToV4L2Id[frame.value] := frame.value]
      ensures error ==> frameAtDevice == old(frameAtDevice)
    {
      if frame.None? {
        error := true;
        return;
      }
      var v4l2Id := BufferFor(frame.value);
      QueueFrame(v4l2Id, frame.value, qbufOk);
    }

    /** DQBUF of a CAPTURE buffer: the frame on it leaves the device. */
    method TakeFrame(answer: Dqbuf) returns (taken: Option<(nat, BlockId)>)
      requires Valid() && !error && (answer.Buffer? ==> answer.index in outputQueue.queued)
      modifies this`frameAtDevice, this`error, outputQueue`queued, outputQueue`held, outputQueue.freeBuffers
      ensures Valid()
      ensures taken.None? ==> frameAtDevice == old(frameAtDevice)
      ensures taken.Some? <==> answer.Buffer? && outputQueue.streaming
      ensures error <==> answer.Failed? && outputQueue.streaming && old(frameAtDevice) != map[]
      ensures taken.Some? ==>
                && !error && answer == Buffer(taken.value.0)
                && taken.value.0 in old(frameAtDevice) && taken.value.1 == old(frameAtDevice)[taken.value.0]
                && frameAtDevice == old(frameAtDevice) - {taken.value.0}
                && taken.value.0 in outputQueue.Free()
    {
      var success, dequeued := DequeueAndDrop(outputQueue, answer);
      if !success {
        error := true;
        return None;
      }
      if dequeued.None? {
        return None;
      }
      taken := Some((dequeued.value, frameAtDevice[dequeued.value]));
      frameAtDevice := frameAtDevice - {dequeued.value};
    }

    /** One dequeued CAPTURE buffer: its frame goes to the client, or an empty one is recycled. */
    method ServiceOutputTurn(turn: OutputTurn) returns (more: bool, delivered: Option<BlockId>)
      requires Valid() && !error
      requires turn.dqbuf.Buffer? ==> turn.dqbuf.index in outputQueue.queued
      modifies this`frameAtDevice, this`error, outputQueue`queued, outputQueue`held, outputQueue.freeBuffers
      ensures Valid()
      ensures more == (turn.dqbuf.Buffer? && outputQueue.streaming && (turn.hasData || turn.requeueOk))
      ensures error <==>
                && outputQueue.streaming
                && (|| (turn.dqbuf.Failed? && old(frameAtDevice) != map[])
                    || (turn.dqbuf.Buffer? && !turn.hasData && !turn.requeueOk))
      ensures delivered.Some? <==> more && turn.hasData
      ensures delivered.Some? ==>
                turn.dqbuf.index in old(frameAtDevice) && delivered == Some(old(frameAtDevice)[turn.dqbuf.index])
      ensures frameAtDevice == if delivered.Some? || (turn.dqbuf.Buffer? && error)
                               then old(frameAtDevice) - {turn.dqbuf.index} else old(frameAtDevice)
    {
      ghost var atDevice := frameAtDevice;
      var taken := TakeFrame(turn.dqbuf);
      if taken.None? {
        return false, None;
      }
      if turn.hasData {
        return true, Some(taken.value.1);
      }
      QueueFrame(taken.value.0, taken.value.1, turn.requeueOk);
      assert !error ==> frameAtDevice == atDevice;
      return !error, None;
    }

    /** STREAMOFF gives every frame back; the block-to-buffer assignment survives a flush. */
    method Flush(streamonOk: bool)
      requires Valid() && !error
      modifies this`frameAtDevice, outputQueue`queued, outputQueue`streaming, outputQueue.freeBuffers
      ensures Valid() && frameAtDevice == map[] && outputQueue.queued == {}
      ensures outputQueue.Free() == old(outputQueue.Free()) + old(outputQueue.queued)
      ensures outputQueue.streaming == (old(outputQueue.streaming) && streamonOk)
    {
      var isOutputStreaming := outputQueue.streaming;
      var off := outputQueue.Streamoff(true);
      frameAtDevice := map[];
      if isOutputStreaming {
        var on := outputQueue.Streamon(streamonOk);
      }
    }

    /** STREAMOFF and REQBUFS(0), then new buffers; no frame and no assignment survives. */
    method Reallocate(numOutputBuffers: nat, granted: Option<nat>, failAt: Option<nat>) returns (adjusted: nat)
      requires Valid()
      modifies this, outputQueue, outputQueue.freeBuffers
      ensures error == old(error)
      ensures outputQueue.Valid() && outputQueue.held == map[] && outputQueue.queued == {}
      ensures frameAtDevice == map[] && blockIdToV4L2Id == map[] && blocks == []
      ensures outputQueue.Free() == Indices(outputQueue.count) && !outputQueue.streaming
      ensures adjusted == outputQueue.count == Granted(numOutputBuffers, granted, failAt)
      ensures outputQueue.freeBuffers != old(outputQueue.freeBuffers) && outputQueue.freeBuffers != null ==>
                fresh(outputQueue.freeBuffers)
    {
      var off := outputQueue.Streamoff(true);
      var gone := outputQueue.DeallocateBuffers(true);
      frameAtDevice, blockIdToV4L2Id, blocks := map[], map[], [];
      adjusted := outputQueue.AllocateBuffers(numOutputBuffers, granted, failAt);
    }

    /** A new resolution: new buffers, a new buffer set of the same size, and no assignment. */
    method ChangeResolution(formatOk: bool, numOutputBuffers: nat, granted: Option<nat>, failAt: Option<nat>,
                            streamonOk: bool, poolOk: bool)
      requires Valid() && !error
      modifies this, outputQueue, outputQueue.freeBuffers, pool
      ensures Valid()
      ensures error <==> !(formatOk && Granted(numOutputBuffers, granted, failAt) > 0 && streamonOk && poolOk)
      ensures formatOk ==>
                && frameAtDevice == map[] && blockIdToV4L2Id == map[]
                && outputQueue.count == Granted(numOutputBuffers, granted, failAt)
                && outputQueue.streaming == (outputQueue.count > 0 && streamonOk)
      ensures !formatOk ==> unchanged(outputQueue) && unchanged(this`frameAtDevice, this`blockIdToV4L2Id)
      ensures outputQueue.freeBuffers != old(outputQueue.freeBuffers) && outputQueue.freeBuffers != null ==>
                fresh(outputQueue.freeBuffers)
      ensures if error then unchanged(pool) else pool.bufferIds == {} && pool.bufferCount == outputQueue.count
    {
      if !formatOk {
        error := true;
        return;
      }
      var adjusted := Reallocate(numOutputBuffers, granted, failAt);
      if adjusted == 0 {
        error := true;
        return;
      }
      var on := outputQueue.Streamon(streamonOk);
      if !on {
        error := true;
        return;
      }
      if !poolOk {
        error := true;
        return;
      }
      var ok := pool.RequestNewBufferSet(adjusted);
    }
  }

  /** How many buffers an allocation ends with. */
  function Granted(requested: nat, granted: Option<nat>, failAt: Option<nat>): nat {
    if requested == 0 || granted.None? || (failAt.Some? && failAt.value < granted.value) then 0 else granted.value
  }

  // ----- Every run -----

  /** What the client, the pool and the device do; each carries the answers of the calls below it. */
  datatype Event =
    | FetchedFrame(fetched: Option<BlockId>, qbufOk: bool)
    | ServiceOutput(turns: seq<OutputTurn>)
    | FlushRequest(flushStreamonOk: bool)
    | NewResolution(formatOk: bool, numOutputBuffers: nat, granted: Option<nat>, failAt: Option<nat>, streamonOk: bool,
                    poolOk: bool)

  datatype Snapshot =
    Snapshot(frames: map<nat, BlockId>, ids: map<BlockId, nat>, count: nat, streaming: bool, poolIds: set<BlockId>,
             poolCount: nat, error: bool)

  const INITIAL: Snapshot := Snapshot(map[], map[], 0, false, {}, 0, false)

  /** What the output loop leaves at the device, whether it failed, and the blocks it delivered. */
  datatype Served = Served(frames: map<nat, BlockId>, error: bool, delivered: seq<BlockId>)

  /** The driver answers only with buffers it was given; such an answer ends the turns. */
  ghost function Serve(frames: map<nat, BlockId>, turns: seq<OutputTurn>, streaming: bool): Served
    decreases |turns|
  {
    if turns == [] || frames == map[] || !streaming then Served(frames, false, [])
    else
      match turns[0].dqbuf
      case Again => Served(frames, false, [])
      case Failed => Served(frames, true, [])
      case Buffer(index) =>
        if index !in frames then Served(frames, false, [])
        else if turns[0].hasData then
          var later := Serve(frames - {index}, turns[1..], streaming);
          later.(delivered := [frames[index]] + later.delivered)
        else if turns[0].requeueOk then Serve(frames, turns[1..], streaming)
        else Served(frames - {index}, true, [])
  }

  /** Frames with different blocks: none is delivered twice, and one that was at the device is there or delivered. */
  lemma {:induction false} EachFrameOnce(frames: map<nat, BlockId>, turns: seq<OutputTurn>, streaming: bool)
    requires forall i, j :: i in frames && j in frames && frames[i] == frames[j] ==> i == j
    ensures var r := Serve(frames, turns, streaming);
            && (forall i :: i in r.frames ==> i in frames && r.frames[i] == frames[i])
            && (forall k :: 0 <= k < |r.delivered| ==>
                  r.delivered[k] in frames.Values && r.delivered[k] !in r.frames.Values)
            && (forall j, k :: 0 <= j < k < |r.delivered| ==> r.delivered[j] != r.delivered[k])
            && (!r.error ==> forall i :: i in frames ==> i in r.frames || frames[i] in r.delivered)
    decreases |turns|
  {
    if turns != [] && frames != map[] && streaming && turns[0].dqbuf.Buffer? && turns[0].dqbuf.index in frames {
      var index := turns[0].dqbuf.index;
      if turns[0].hasData {
        EachFrameOnce(frames - {index}, turns[1..], streaming);
        var later := Serve(frames - {index}, turns[1..], streaming);
        assert frames[index] !in (frames - {index}).Values;
        assert frames[index] !in later.frames.Values;
        assert forall b :: b in (frames - {index}).Values ==> b in frames.Values;
      } else if turns[0].requeueOk {
        EachFrameOnce(frames, turns[1..], streaming);
      }
    }
  }

  /** What an event does to a decoder without error. */
  ghost predicate Next(s: Snapshot, event: Event, t: Snapshot) {
    match event
    case FetchedFrame(None, qbufOk) => t == s.(error := true)
    case FetchedFrame(Some(b), qbufOk) =>
      var ids := if |s.poolIds| < s.poolCount then s.poolIds + {b} else s.poolIds;
      if b in s.frames.Values || b !in ids then t == s  // not offered, or put back: the fetch is tried again
      else if !qbufOk then t == s.(poolIds := ids, ids := WithBuffer(s.ids, b), error := true)
      else t == s.(poolIds := ids, ids := WithBuffer(s.ids, b), frames := s.frames[WithBuffer(s.ids, b)[b] := b])
    case ServiceOutput(turns) =>
      var r := Serve(s.frames, turns, s.streaming);
      t == s.(frames := r.frames, error := r.error)
    case FlushRequest(streamonOk) => t == s.(frames := map[], streaming := s.streaming && streamonOk)
    case NewResolution(formatOk, num, granted, failAt, streamonOk, poolOk) =>
      var count := Granted(num, granted, failAt);
      if !formatOk then t == s.(error := true)
      else if count == 0 || !streamonOk || !poolOk then
        t == s.(frames := map[], ids := map[], count := count, streaming := count > 0 && streamonOk, error := true)
      else
        t == Snapshot(map[], map[], count, true, {}, count, false)
  }

  /** The output loop of the service task. */
  method ServiceOutputs(d: DecoderOutput, turns: seq<OutputTurn>) returns (delivered: seq<BlockId>)
    requires d.Valid() && !d.error
    modifies d`frameAtDevice, d`error, d.outputQueue`queued, d.outputQueue`held, d.outputQueue.freeBuffers
    ensures d.Valid()
    ensures Served(d.frameAtDevice, d.error, delivered) == Serve(old(d.frameAtDevice), turns, d.outputQueue.streaming)
  {
    delivered := [];
    ghost var goal := Serve(d.frameAtDevice, turns, d.outputQueue.streaming);
    var n, more := 0, true;
    while more && n < |turns| && d.outputQueue.queued != {}
      invariant n <= |turns| && d.Valid() && (more ==> !d.error)
      invariant more ==> goal == Later(delivered, Serve(d.frameAtDevice, turns[n..], d.outputQueue.streaming))
      invariant !more ==> goal == Served(d.frameAtDevice, d.error, delivered)
    {
      if turns[n].dqbuf.Buffer? && turns[n].dqbuf.index !in d.outputQueue.queued {
        return;
      }
      var block;
      ghost var before := d.frameAtDevice;
      more, block := d.ServiceOutputTurn(turns[n]);
      ServeTurn(before, turns[n..], d.outputQueue.streaming, delivered);
      if block.Some? {
        delivered := delivered + [block.value];
      }
      n := n + 1;
    }
  }

  ghost function Later(delivered: seq<BlockId>, r: Served): Served {
    r.(delivered := delivered + r.delivered)
  }

  /** One turn of the loop. */
  lemma ServeTurn(frames: map<nat, BlockId>, turns: seq<OutputTurn>, streaming: bool, delivered: seq<BlockId>)
    requires turns != [] && frames != map[] && (turns[0].dqbuf.Buffer? ==> turns[0].dqbuf.index in frames)
    ensures Later(delivered, Serve(frames, turns, streaming)) ==
            if !streaming || !turns[0].dqbuf.Buffer? then Served(frames, streaming && turns[0].dqbuf.Failed?, delivered)
            else
              var index := turns[0].dqbuf.index;
              if turns[0].hasData then
                Later(delivered + [frames[index]], Serve(frames - {index}, turns[1..], streaming))
              else if turns[0].requeueOk then Later(delivered, Serve(frames, turns[1..], streaming))
              else Served(frames - {index}, true, delivered)
  {
  }

  /** The pool fetches, and a block that the device still holds is never offered; one too many is not passed on. */
  method FetchAndQueue(d: DecoderOutput, fetched: Option<BlockId>, qbufOk: bool)
    requires d.Valid() && !d.error
    modifies d, d.pool`bufferIds, d.outputQueue`queued, d.outputQueue`held, d.outputQueue.freeBuffers
    ensures d.Valid() && Next(old(d.Snap()), FetchedFrame(fetched, qbufOk), d.Snap())
  {
    if fetched.Some? && fetched.value in d.frameAtDevice.Values {
      return;
    }
    var block := d.pool.FetchGraphicBlock(fetched);
    assert d.Valid();
    if block.None? && fetched.Some? {
      return;
    }
    assert block.Some? ==> d.Available(block.value);
    d.OnVideoFrameReady(block, qbufOk);
  }

  method Handle(d: DecoderOutput, event: Event)
    requires d.Valid() && !d.error
    modifies d, d.pool, d.outputQueue, d.outputQueue.freeBuffers
    ensures d.Valid() && Next(old(d.Snap()), event, d.Snap())
    ensures d.outputQueue.freeBuffers != old(d.outputQueue.freeBuffers) && d.outputQueue.freeBuffers != null ==>
              fresh(d.outputQueue.freeBuffers)
  {
    hide DecoderOutput.Valid;
    match event {
      case FetchedFrame(fetched, qbufOk) => FetchAndQueue(d, fetched, qbufOk);
      case ServiceOutput(turns) => var delivered := ServiceOutputs(d, turns);
      case FlushRequest(streamonOk) => d.Flush(streamonOk);
      case NewResolution(formatOk, num, granted, failAt, streamonOk, poolOk) =>
        d.ChangeResolution(formatOk, num, granted, failAt, streamonOk, poolOk);
    }
  }

  /**
    After any sequence of events, until the first failing device or pool call: each block has its own
    buffer, the device holds exactly the queued ones, and no bookkeeping error of the decoder occurred.
    An error ends the run; the history has one entry for each event before that.
   */
  method Run(events: seq<Event>) returns (d: DecoderOutput, ghost history: seq<Snapshot>)
    ensures d.Valid()
    ensures 0 < |history| <= |events| + 1 && history[0] == INITIAL && history[|history| - 1] == d.Snap()
    ensures forall n :: 0 <= n < |history| - 1 ==> !history[n].error && Next(history[n], events[n], history[n + 1])
    ensures !d.error ==> |history| == |events| + 1
  {
    d := new DecoderOutput();
    history := [d.Snap()];
    for n := 0 to |events|
      invariant d.Valid() && fresh(d) && fresh(d.pool) && fresh(d.outputQueue)
      invariant d.outputQueue.freeBuffers != null ==> fresh(d.outputQueue.freeBuffers)
      invariant |history| == n + 1 && history[0] == INITIAL && history[n] == d.Snap()
      invariant forall k :: 0 <= k < n ==> !history[k].error && Next(history[k], events[k], history[k + 1])
    {
      if d.error {
        return;
      }
      hide DecoderOutput.Valid, Next;
      Handle(d, events[n]);
      history := history + [d.Snap()];
    }
  }
}

/**
  What the client gets of an output buffer: the encoder's choice of a block, over the bytes in the blocks. A key frame
  is copied behind the cached parameter sets into another block, which goes out in its place if the copy fits.
 */
module EncodedOutput {
  import opened NalStream
  import opened EncodeHelpers
  import opened Options
  import EncoderStates

  type OutputBlock = EncoderStates.OutputBlock

  /** A block fetched for the copy, with its memory. */
  datatype Copy = Copy(block: OutputBlock, memory: array<byte>)

  /** The copy of a frame can be written: there is something to write, it fits, and no set that it needs is missing. */
  ghost predicate Rewritable(frame: seq<byte>, sps: Nal, pps: Nal, capacity: nat) {
    var ns, c := Nals(frame), Caches(sps, pps, false);
    && ns != [] && PrintedSize(Expanded(ns, |ns|, c)) <= capacity
    && (NeedsParams(ns, false) ==> sps != [] && pps != [])
  }

  /** The units that the client is to get of a frame. */
  ghost function Promised(frame: seq<byte>, sps: Nal, pps: Nal, rewritten: bool): seq<Nal> {
    var ns := Nals(frame);
    if rewritten then Expanded(ns, |ns|, Caches(sps, pps, false)) else ns
  }

  /** The cached parameter sets. */
  datatype Sets = Sets(sps: Nal, pps: Nal)

  ghost function Capacity(copy: Option<Copy>): Option<nat> {
    if copy.None? then None else Some(copy.value.memory.Length)
  }

  /** The cached sets after a frame: those of the scan, or of the rewrite into a block of this capacity. */
  ghost function NextSets(frame: seq<byte>, injects: bool, keyFrame: bool, capacity: Option<nat>, sets: Sets): Sets {
    if frame == [] || !injects || (keyFrame && capacity.None?) then sets
    else if !keyFrame then
      var r := Collect(Nals(frame), ParameterSets(sets.sps, sets.pps, false, false));
      Sets(r.sps, r.pps)
    else
      var c := Inject(Nals(frame), Caches(sets.sps, sets.pps, false), capacity.value).caches;
      Sets(c.sps, c.pps)
  }

  class OutputPath {
    const encoder: EncoderStates.V4L2Encoder
    const injects: bool
    var sps: Nal
    var pps: Nal

    ghost predicate Valid()
      reads this, encoder
    {
      encoder.Valid() && CacheInvariant(Caches(sps, pps, false))
    }

    constructor (encoder: EncoderStates.V4L2Encoder, injects: bool)
      requires encoder.Valid()
      ensures Valid() && this.encoder == encoder && this.injects == injects && sps == [] && pps == []
    {
      this.encoder, this.injects, sps, pps := encoder, injects, [], [];
    }

    /** The bytes of a delivered block: those of the copy, or of the frame. */
    ghost function Bytes(delivered: OutputBlock, size: nat, frame: seq<byte>, copy: Option<Copy>): seq<byte>
      reads if copy.Some? then {copy.value.memory} else {}
      requires size <= if copy.Some? && copy.value.block == delivered then copy.value.memory.Length else |frame|
    {
      if copy.Some? && copy.value.block == delivered then copy.value.memory[..size] else frame[..size]
    }

    /** The rewritten key frame, or the update of the caches from a frame that goes out as it is. */
    method Prepare(frame: seq<byte>, keyFrame: bool, copy: Option<Copy>) returns (data: EncoderStates.Data, size: nat)
      requires CacheInvariant(Caches(sps, pps, false)) && NoBareEnd(frame)
      modifies this`sps, this`pps, if copy.Some? then {copy.value.memory} else {}
      ensures CacheInvariant(Caches(sps, pps, false))
      ensures frame == [] ==> data.Nothing?
      ensures frame != [] && !(injects && keyFrame) ==> data.AsIs? && size == |frame|
      ensures frame != [] && injects && keyFrame ==>
                && data.Prepend? && data.copy == (if copy.None? then None else Some(copy.value.block))
                && (copy.Some? ==>
                      && (data.fits <==> Rewritable(frame, old(sps), old(pps), copy.value.memory.Length))
                      && size <= (if data.fits then copy.value.memory.Length else |frame|)
                      && (!data.fits ==> size == |frame|)
                      && (data.fits ==> Nals(copy.value.memory[..size]) == Promised(frame, old(sps), old(pps), true)))
      ensures Sets(sps, pps) == NextSets(frame, injects, keyFrame, Capacity(copy), Sets(old(sps), old(pps)))
    {
      size := |frame|;
      if frame == [] {
        return EncoderStates.Nothing, size;
      }
      if !injects {
        return EncoderStates.AsIs, size;
      }
      if !keyFrame {
        Extract(frame);
        return EncoderStates.AsIs, size;
      }
      if copy.None? {
        return EncoderStates.Prepend(None, false), size;
      }
      var fits;
      fits, size := Rewrite(frame, copy.value.memory);
      return EncoderStates.Prepend(Some(copy.value.block), fits), size;
    }

    /** Parameter sets in a frame that is no key frame are remembered. */
    method Extract(frame: seq<byte>)
      requires CacheInvariant(Caches(sps, pps, false)) && NoBareEnd(frame)
      modifies this`sps, this`pps
      ensures CacheInvariant(Caches(sps, pps, false))
      ensures var r := Collect(Nals(frame), ParameterSets(old(sps), old(pps), false, false));
              sps == r.sps && pps == r.pps
    {
      ScannedUnitsAreClean(frame, NextStart(frame, 0));
      CollectKeepsCaches(Nals(frame), ParameterSets(sps, pps, false, false));
      var found;
      found, sps, pps := ExtractSPSPPS(frame, sps, pps);
    }

    /** A key frame is written into the copy, behind its parameter sets; a size of 0 says that it was not. */
    method Rewrite(frame: seq<byte>, memory: array<byte>) returns (fits: bool, size: nat)
      requires CacheInvariant(Caches(sps, pps, false)) && NoBareEnd(frame)
      modifies this`sps, this`pps, memory
      ensures CacheInvariant(Caches(sps, pps, false))
      ensures fits <==> Rewritable(frame, old(sps), old(pps), memory.Length)
      ensures size <= (if fits then memory.Length else |frame|) && (!fits ==> size == |frame|)
      ensures fits ==> Nals(memory[..size]) == Promised(frame, old(sps), old(pps), true)
      ensures var c := Inject(Nals(frame), Caches(old(sps), old(pps), false), memory.Length).caches;
              sps == c.sps && pps == c.pps
    {
      ghost var ns, c := Nals(frame), Caches(sps, pps, false);
      InjectMeans(ns, c, memory.Length);
      RewriteReadsBack(frame, c, memory.Length);
      SomethingWritten(ns, c);
      PrintedSizeIsSize(Expanded(ns, |ns|, c));
      hide Inject, Expanded, NeedsParams, PrintedSize, Print, Nals, CacheInvariant;
      var newSize;
      newSize, sps, pps := PrependSPSPPSToIDR(frame, memory, sps, pps);
      SameCaches(Inject(ns, c, memory.Length).caches, sps, pps);
      fits := newSize > 0;
      size := if fits then newSize else |frame|;
    }

    /**
      DQBUF of encoded data. The client gets a block exactly when there is data and, for a key frame that is to be
      rewritten, a block for the copy. It reads there the units of the frame, with the cached parameter sets before each
      key frame that had none, if these can be written; otherwise the frame itself.
     */
    method Dequeue(index: nat, frame: seq<byte>, keyFrame: bool, copy: Option<Copy>, isLast: bool, startOk: bool,
                   newBlock: Option<OutputBlock>)
      returns (delivered: Option<OutputBlock>, size: nat)
      requires Valid() && !encoder.state.Error? && index in encoder.outputQueued && NoBareEnd(frame)
      requires copy.Some? && index < |encoder.outputBuffers| ==> encoder.outputBuffers[index] != Some(copy.value.block)
      modifies this, encoder, if copy.Some? then {copy.value.memory} else {}
      ensures Valid()
      ensures delivered.Some? <==> frame != [] && (injects && keyFrame ==> copy.Some?)
      ensures delivered.Some? ==>
                var rewritten := injects && keyFrame && Rewritable(frame, old(sps), old(pps), copy.value.memory.Length);
                && size <= (if copy.Some? && copy.value.block == delivered.value then copy.value.memory.Length
                            else |frame|)
                && Nals(Bytes(delivered.value, size, frame, copy)) == Promised(frame, old(sps), old(pps), rewritten)
                && (!rewritten ==> Bytes(delivered.value, size, frame, copy) == frame)
                && (rewritten ==> !NeedsParams(Nals(Bytes(delivered.value, size, frame, copy)), false))
      ensures Sets(sps, pps) == NextSets(frame, injects, keyFrame, Capacity(copy), Sets(old(sps), old(pps)))
      ensures encoder.state.Error? <==>
                var refused := frame != [] && injects && keyFrame && copy.None?;
                refused || (old(encoder.state).Draining? && isLast && !refused && !startOk) || newBlock.None?
    {
      ghost var was := Caches(sps, pps, false);
      hide EncoderStates.V4L2Encoder.Valid, Rewritable, CacheInvariant, Nals, NeedsParams, EncoderStates.FilledOne,
           NextSets, Expanded;
      var data;
      data, size := Prepare(frame, keyFrame, copy);
      var more, drained;
      more, delivered, drained :=
        encoder.DequeueOutputBuffer(EncoderStates.Buffer(index), data, isLast, startOk, newBlock);
      if frame != [] && injects && keyFrame && copy.Some? && data.fits {
        PromisedIsSettled(frame, was, copy.value.memory.Length);
      }
      assert frame[..|frame|] == frame;
    }
  }

  lemma SameCaches(c: Caches, sps: Nal, pps: Nal)
    requires CacheInvariant(c) && c.sps == sps && c.pps == pps
    ensures CacheInvariant(Caches(sps, pps, false))
  {
  }

  lemma SomethingWritten(ns: seq<Nal>, c: Caches)
    ensures PrintedSize(Expanded(ns, |ns|, c)) > 0 <==> ns != []
  {
    if ns != [] {
      ExpandedCons(ns, |ns|, c);
    }
  }

  lemma PromisedIsSettled(frame: seq<byte>, c: Caches, capacity: nat)
    requires CacheInvariant(c) && !c.seen && Rewritable(frame, c.sps, c.pps, capacity)
    ensures !NeedsParams(Promised(frame, c.sps, c.pps, true), false)
  {
    InjectMeans(Nals(frame), c, capacity);
    RewriteIsSettled(Nals(frame), c, capacity);
  }

  lemma {:induction false} CollectKeepsCaches(ns: seq<Nal>, p: ParameterSets)
    requires CacheInvariant(Caches(p.sps, p.pps, false)) && forall n :: n in ns ==> Clean(n)
    ensures CacheInvariant(Caches(Collect(ns, p).sps, Collect(ns, p).pps, false))
  {
    if !p.Complete() && ns != [] {
      CollectKeepsCaches(ns[1..], p.After(ns[0]));
    }
  }
}

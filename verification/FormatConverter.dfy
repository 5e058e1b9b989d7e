/**
  The blocks of the format converter. A frame is converted into a block, or passed on as it is, and given back when the
  encoder is done with it.
 */
module FormatConverters {
  import opened Options

  /** FormatConverter::kNoFrameAssociated. */
  const NO_FRAME: nat := 0xffff_ffff_ffff_ffff

  datatype Conversion = Copied | ZeroCopy | Unsupported

  /**
    The frame of each block, the blocks in the queue, the frames passed on, and whether the index that stands for no
    frame was taken for that of a frame.
   */
  datatype Blocks = Blocks(frames: seq<nat>, available: seq<nat>, zeroCopied: seq<nat>, reserved: bool)
  {
    predicate IsReady() {
      available != []
    }

    /** The frame was converted or passed on, and not returned yet. */
    predicate Knows(f: nat) {
      f in frames || f in zeroCopied
    }

    /** The queue names blocks; without the reserved index it names exactly those without a frame. */
    ghost predicate Ok() {
      && (forall k :: 0 <= k < |available| ==> available[k] < |frames|)
      && (!reserved ==> Matches(available, frames))
    }
  }

  /** How many blocks have no frame. */
  ghost function Unassociated(frames: seq<nat>): nat {
    if frames == [] then 0 else Unassociated(frames[1..]) + if frames[0] == NO_FRAME then 1 else 0
  }

  /** How many blocks have one. */
  ghost function InUse(frames: seq<nat>): nat {
    if frames == [] then 0 else InUse(frames[1..]) + if frames[0] == NO_FRAME then 0 else 1
  }

  /** The available blocks are exactly those without a frame, each once. */
  ghost predicate Matches(available: seq<nat>, frames: seq<nat>) {
    && (forall k :: 0 <= k < |available| ==> available[k] < |frames| && frames[available[k]] == NO_FRAME)
    && (forall j, k :: 0 <= j < k < |available| ==> available[j] != available[k])
    && |available| == Unassociated(frames)
  }

  /** The frames that were known still are. */
  ghost predicate StillKnown(b: Blocks, c: Blocks) {
    forall f :: f != NO_FRAME && b.Knows(f) ==> c.Knows(f)
  }

  /** So are they, except for one that was returned. */
  ghost predicate KnownBut(frame: nat, b: Blocks, c: Blocks) {
    forall f :: f != frame && f != NO_FRAME && b.Knows(f) ==> c.Knows(f)
  }

  // ----- What the converter does, on values -----

  function AllFree(numBlocks: nat): Blocks {
    Blocks(seq(numBlocks, _ => NO_FRAME), seq(numBlocks, k => k), [], false)
  }

  /** A frame gets the first block of the queue, or is passed on. */
  function Converted(b: Blocks, frame: nat, conversion: Conversion): Option<Blocks>
    requires b.Ok()
  {
    if !b.IsReady() || conversion.Unsupported? then None
    else
      var reserved := b.reserved || frame == NO_FRAME;
      if conversion.ZeroCopy? then Some(b.(zeroCopied := b.zeroCopied + [frame], reserved := reserved))
      else
        Some(b.(frames := b.frames[b.available[0] := frame], available := b.available[1..], reserved := reserved))
  }

  /** The first place of a value, or the length. */
  function IndexOf(s: seq<nat>, x: nat): (i: nat)
    ensures i <= |s| && (i < |s| <==> x in s)
    ensures i < |s| ==> s[i] == x
    ensures forall j :: 0 <= j < i ==> s[j] != x
  {
    if s == [] || s[0] == x then 0 else 1 + IndexOf(s[1..], x)
  }

  /** The first block with this frame gets in the queue, or a passed-on frame is forgotten. */
  function Returned(b: Blocks, frame: nat): Option<Blocks> {
    var k, z := IndexOf(b.frames, frame), IndexOf(b.zeroCopied, frame);
    var reserved := b.reserved || frame == NO_FRAME;
    if k < |b.frames| then
      Some(b.(frames := b.frames[k := NO_FRAME], available := b.available + [k], reserved := reserved))
    else if z < |b.zeroCopied| then
      Some(b.(zeroCopied := b.zeroCopied[..z] + b.zeroCopied[z + 1..], reserved := reserved))
    else None
  }

  // ----- What that means -----

  lemma {:induction false} Associate(frames: seq<nat>, b: nat, frame: nat)
    requires b < |frames|
    ensures Unassociated(frames[b := frame]) ==
            Unassociated(frames) + (if frame == NO_FRAME then 1 else 0) - (if frames[b] == NO_FRAME then 1 else 0)
  {
    var frames' := frames[b := frame];
    if b == 0 {
      assert frames'[1..] == frames[1..];
    } else {
      assert frames'[1..] == frames[1..][b - 1 := frame];
      Associate(frames[1..], b - 1, frame);
    }
  }

  /**
    A conversion succeeds exactly with a block at hand and a supported format; other frames keep their blocks. Blocks
    and queue stay together if and only if the index is not the reserved one, or no block is used.
   */
  lemma ConvertedMeans(b: Blocks, frame: nat, conversion: Conversion)
    requires b.Ok()
    ensures Converted(b, frame, conversion).Some? <==> b.IsReady() && !conversion.Unsupported?
    ensures var r := Converted(b, frame, conversion);
            r.Some? ==>
              && r.value.Ok() && r.value.Knows(frame) && |r.value.frames| == |b.frames|
              && (if conversion.Copied? then
                    && b.available == [b.available[0]] + r.value.available && r.value.frames[b.available[0]] == frame
                    && r.value.zeroCopied == b.zeroCopied
                  else r.value.frames == b.frames && r.value.available == b.available)
              && (Matches(b.available, b.frames) ==>
                    && StillKnown(b, r.value)
                    && (Matches(r.value.available, r.value.frames) <==> conversion.ZeroCopy? || frame != NO_FRAME))
  {
    if b.IsReady() && conversion.Copied? {
      Associate(b.frames, b.available[0], frame);
      StillThere(b.frames, b.available[0], frame);
    }
  }

  /**
    A frame can be returned exactly when it is known; other frames keep their blocks. The reserved index finds a block
    that is in the queue already: blocks and queue stay together if and only if the index is another one, or no block is
    available.
   */
  lemma ReturnedMeans(b: Blocks, frame: nat)
    requires b.Ok()
    ensures Returned(b, frame).Some? <==> b.Knows(frame)
    ensures var r := Returned(b, frame);
            r.Some? ==>
              && r.value.Ok() && |r.value.frames| == |b.frames| && b.available <= r.value.available
              && |r.value.available| == |b.available| + (if frame in b.frames then 1 else 0)
              && KnownBut(frame, b, r.value)
              && (Matches(b.available, b.frames) ==>
                    (Matches(r.value.available, r.value.frames) <==> frame != NO_FRAME || b.available == []))
  {
    SomeUnassociated(b.frames);
    var k, z := IndexOf(b.frames, frame), IndexOf(b.zeroCopied, frame);
    if k < |b.frames| {
      Associate(b.frames, k, NO_FRAME);
      StillThere(b.frames, k, NO_FRAME);
    } else if z < |b.zeroCopied| {
      StillThereWithout(b.zeroCopied, z);
    }
  }

  /** A block is available if and only if it has no frame. */
  lemma AvailableIffUnassociated(b: Blocks, k: nat)
    requires b.Ok() && !b.reserved && k < |b.frames|
    ensures k in b.available <==> b.frames[k] == NO_FRAME
  {
    if k !in b.available && b.frames[k] == NO_FRAME {
      DistinctBlocks(b.available + [k], b.frames);
      assert false;
    }
  }

  /** Blocks in use and available blocks make up all blocks. */
  lemma BlocksAddUp(b: Blocks)
    requires b.Ok() && !b.reserved
    ensures |b.available| + InUse(b.frames) == |b.frames|
  {
    InUseOrNot(b.frames);
  }

  lemma {:induction false} SomeUnassociated(frames: seq<nat>)
    ensures Unassociated(frames) == 0 <==> NO_FRAME !in frames
  {
    if frames != [] {
      SomeUnassociated(frames[1..]);
      assert frames == [frames[0]] + frames[1..];
    }
  }

  lemma StillThere(s: seq<nat>, i: nat, x: nat)
    requires i < |s|
    ensures x in s[i := x] && forall f :: f != s[i] && f in s ==> f in s[i := x]
  {
    assert s[i := x][i] == x;
    forall f | f != s[i] && f in s
      ensures f in s[i := x]
    {
      var k :| 0 <= k < |s| && s[k] == f;
      assert s[i := x][k] == f;
    }
  }

  lemma StillThereWithout(s: seq<nat>, i: nat)
    requires i < |s|
    ensures forall f :: f != s[i] && f in s ==> f in s[..i] + s[i + 1..]
  {
    assert s == s[..i] + [s[i]] + s[i + 1..];
  }

  lemma {:induction false} DistinctBlocks(blocks: seq<nat>, frames: seq<nat>)
    requires forall k :: 0 <= k < |blocks| ==> blocks[k] < |frames| && frames[blocks[k]] == NO_FRAME
    requires forall j, k :: 0 <= j < k < |blocks| ==> blocks[j] != blocks[k]
    ensures |blocks| <= Unassociated(frames)
  {
    if blocks != [] {
      var last := |blocks| - 1;
      Associate(frames, blocks[last], 0);
      DistinctBlocks(blocks[..last], frames[blocks[last] := 0]);
    }
  }

  lemma {:induction false} InUseOrNot(frames: seq<nat>)
    ensures InUse(frames) + Unassociated(frames) == |frames|
  {
    if frames != [] {
      InUseOrNot(frames[1..]);
    }
  }

  lemma {:induction false} OneMoreBlock(frames: seq<nat>)
    ensures Unassociated(frames + [NO_FRAME]) == Unassociated(frames) + 1
  {
    if frames != [] {
      assert (frames + [NO_FRAME])[1..] == frames[1..] + [NO_FRAME];
      OneMoreBlock(frames[1..]);
    }
  }

  // ----- The object -----

  method Find(s: seq<nat>, x: nat) returns (i: nat)
    ensures i == IndexOf(s, x)
  {
    i := 0;
    while i < |s| && s[i] != x
      invariant i <= |s|
      invariant forall j :: 0 <= j < i ==> s[j] != x
    {
      i := i + 1;
    }
  }

  class FormatConverter {
    var frames: seq<nat>
    var available: seq<nat>
    var zeroCopied: seq<nat>
    var reserved: bool

    ghost function Value(): Blocks
      reads this
    {
      Blocks(frames, available, zeroCopied, reserved)
    }

    ghost predicate Valid()
      reads this
    {
      Value().Ok()
    }

    predicate IsReady()
      reads this
    {
      available != []
    }

    constructor (numBlocks: nat)
      ensures Valid() && Value() == AllFree(numBlocks)
    {
      var blocks: seq<nat>, queue: seq<nat> := [], [];
      for i := 0 to numBlocks
        invariant |blocks| == |queue| == i && Matches(queue, blocks)
        invariant forall k :: 0 <= k < i ==> queue[k] == k && blocks[k] == NO_FRAME
      {
        OneMoreBlock(blocks);
        blocks, queue := blocks + [NO_FRAME], queue + [i];
      }
      frames, available, zeroCopied, reserved := blocks, queue, [], false;
    }

    /** Converts a frame into the first available block, or passes it on. */
    method ConvertBlock(frameIndex: nat, conversion: Conversion) returns (ok: bool)
      requires Valid()
      modifies this
      ensures Valid() && ok == (old(available) != [] && !conversion.Unsupported?)
      ensures ok ==> Some(Value()) == Converted(old(Value()), frameIndex, conversion)
      ensures !ok ==> Value() == old(Value())
      ensures ok && !old(reserved) && conversion.Copied? ==> (Matches(available, frames) <==> frameIndex != NO_FRAME)
    {
      ConvertedMeans(Value(), frameIndex, conversion);
      if available == [] || conversion.Unsupported? {
        return false;
      }
      reserved := reserved || frameIndex == NO_FRAME;
      if conversion.ZeroCopy? {
        zeroCopied := zeroCopied + [frameIndex];
        return true;
      }
      frames := frames[available[0] := frameIndex];
      available := available[1..];
      return true;
    }

    /** A converted block becomes available again; a passed-on frame is forgotten. */
    method ReturnBlock(frameIndex: nat) returns (ok: bool)
      requires Valid()
      modifies this
      ensures Valid() && ok == old(Value().Knows(frameIndex))
      ensures ok ==> Some(Value()) == Returned(old(Value()), frameIndex)
      ensures !ok ==> Value() == old(Value())
      ensures !old(reserved) ==> (Matches(available, frames) <==> frameIndex != NO_FRAME || old(available) == [])
    {
      ReturnedMeans(Value(), frameIndex);
      SomeUnassociated(frames);
      var b := Find(frames, frameIndex);
      if b < |frames| {
        frames := frames[b := NO_FRAME];
        available := available + [b];
        reserved := reserved || frameIndex == NO_FRAME;
        return true;
      }
      var z := Find(zeroCopied, frameIndex);
      if z < |zeroCopied| {
        zeroCopied := zeroCopied[..z] + zeroCopied[z + 1..];
        reserved := reserved || frameIndex == NO_FRAME;
        return true;
      }
      return false;
    }
  }
}

/**
  Incremental MD5. The context keeps a two-word bit count and a 64-byte block; however a message is cut into
  pieces, the result is the fold of the compression function over the padded message (sections 3.1 to 3.4 of
  RFC 1321). The compression function itself is a parameter.
 */
module Md5 {
  import opened Arithmetic

  newtype byte = x: int | 0 <= x < 0x100

  const W32: int := 0x1_0000_0000
  const W64: int := 0x1_0000_0000_0000_0000
  const BLOCK: int := 64

  // ----- RFC 1321 -----

  function Zeros(n: nat): (z: seq<byte>)
    ensures |z| == n
    ensures forall i :: 0 <= i < n ==> z[i] == 0
  {
    seq(n, _ => 0)
  }

  /** The bytes of an n-byte number, low-order byte first. */
  function LittleEndian(x: nat, n: nat): (s: seq<byte>)
    ensures |s| == n
  {
    if n == 0 then [] else [(x % 256) as byte] + LittleEndian(x / 256, n - 1)
  }

  function Pow256(n: nat): (p: nat)
    ensures p > 0
  {
    if n == 0 then 1 else 256 * Pow256(n - 1)
  }

  /** What bytes are worth, the i-th weighted by 256^i. */
  function Worth(bytes: seq<byte>): nat {
    if bytes == [] then 0 else bytes[0] as nat + 256 * Worth(bytes[1..])
  }

  /** The bytes of a number that fits are worth it. */
  lemma {:induction false} LittleEndianWorth(x: nat, n: nat)
    requires x < Pow256(n)
    ensures Worth(LittleEndian(x, n)) == x
  {
    if n > 0 {
      LittleEndianWorth(x / 256, n - 1);
    }
  }

  lemma {:induction false} WorthWeights(bytes: seq<byte>, more: byte)
    ensures Worth(bytes + [more]) == Worth(bytes) + Pow256(|bytes|) * more as nat
  {
    if bytes != [] {
      WorthWeights(bytes[1..], more);
      assert (bytes + [more])[1..] == bytes[1..] + [more];
      assert 256 * (Pow256(|bytes| - 1) * more as nat) == Pow256(|bytes|) * more as nat;
    } else {
      assert (bytes + [more])[1..] == [];
    }
  }

  /** Two words in a row are one long word. */
  lemma {:induction false} LittleEndianWords(x: nat, y: nat, m: nat, n: nat)
    requires x < Pow256(m)
    ensures LittleEndian(x + Pow256(m) * y, m + n) == LittleEndian(x, m) + LittleEndian(y, n)
  {
    if m == 0 {
      assert LittleEndian(x, m) == [];
    } else {
      var p := Pow256(m - 1);
      assert Pow256(m) * y == 256 * (p * y);
      assert (x + 256 * (p * y)) % 256 == x % 256 && (x + 256 * (p * y)) / 256 == x / 256 + p * y;
      LittleEndianWords(x / 256, y, m - 1, n);
    }
  }

  /** The padding after the one bit, when `used` bytes are in the last block. */
  ghost function PaddingTail(used: nat, low: nat, high: nat): (tail: seq<byte>)
    requires used < BLOCK
    ensures |tail| == (if used <= 55 then 63 - used else 127 - used)
  {
    Zeros(if used <= 55 then 55 - used else 119 - used) + (LittleEndian(low, 4) + LittleEndian(high, 4))
  }

  /** The padding of a message that leaves `used` bytes in the last block. */
  lemma PaddingShape(length: nat, low: nat, high: nat)
    requires low < W32 && high < W32 && low + W32 * high == 8 * length % W64
    ensures var used := length % BLOCK;
            Padding(length) == [0x80] + PaddingTail(used, low, high)
  {
    var used := length % BLOCK;
    assert (55 - length) % BLOCK == (if used <= 55 then 55 - used else 119 - used) by {
      DivMod(55 - length, BLOCK, -(length / BLOCK) - (if used <= 55 then 0 else 1),
             if used <= 55 then 55 - used else 119 - used);
    }
    assert LittleEndian(8 * length % W64, 8) == LittleEndian(low, 4) + LittleEndian(high, 4) by {
      PowersOf256();
      LittleEndianWords(low, high, 4, 4);
    }
  }

  lemma PowersOf256()
    ensures Pow256(4) == W32
  {
    assert Pow256(1) == 256 && Pow256(2) == 65536 && Pow256(3) == 16777216;
  }

  /** A one bit, as few zeros as lead to 56 modulo 64, and the bit length modulo 2^64, low-order word first. */
  function Padding(length: nat): (p: seq<byte>)
    ensures (length + |p|) % BLOCK == 0 && 9 <= |p| <= 72
  {
    [0x80] + Zeros((55 - length) % BLOCK) + LittleEndian(8 * length % W64, 8)
  }

  /** The compression function, over the blocks of some data. */
  ghost function Fold<S>(transform: (S, seq<byte>) -> S, state: S, data: seq<byte>): S
    requires |data| % BLOCK == 0
    decreases |data|
  {
    if |data| == 0 then state else Fold(transform, transform(state, data[..BLOCK]), data[BLOCK..])
  }

  ghost function Digest<S>(transform: (S, seq<byte>) -> S, init: S, message: seq<byte>): S {
    Fold(transform, init, message + Padding(|message|))
  }

  lemma {:induction false} FoldAppend<S>(transform: (S, seq<byte>) -> S, state: S, a: seq<byte>, b: seq<byte>)
    requires |a| % BLOCK == 0 && |b| % BLOCK == 0
    ensures (|a| + |b|) % BLOCK == 0
    ensures Fold(transform, state, a + b) == Fold(transform, Fold(transform, state, a), b)
    decreases |a|
  {
    if a == [] {
      assert a + b == b;
    } else {
      assert (a + b)[..BLOCK] == a[..BLOCK];
      assert (a + b)[BLOCK..] == a[BLOCK..] + b;
      FoldAppend(transform, transform(state, a[..BLOCK]), a[BLOCK..], b);
    }
  }

  lemma FoldOne<S>(transform: (S, seq<byte>) -> S, state: S, block: seq<byte>)
    requires |block| == BLOCK
    ensures Fold(transform, state, block) == transform(state, block)
  {
    assert block[..BLOCK] == block;
  }

  // ----- The bit count -----

  /** The low word after adding len bytes, with the 32-bit shift and wrap-around. */
  function LowWord(low: nat, len: nat): nat {
    (low + len % W32 * 8 % W32) % W32
  }

  /** The high word: the carry shows as a low word that got smaller. */
  function HighWord(low: nat, high: nat, len: nat): nat {
    (high + (if LowWord(low, len) < low then 1 else 0) + len / 0x2000_0000 % W32) % W32
  }

  /** The two words count bits modulo 2^64. */
  lemma BitCount(low: nat, high: nat, n: nat, len: nat)
    requires low < W32 && high < W32 && low + W32 * high == 8 * n % W64
    ensures LowWord(low, len) < W32 && HighWord(low, high, len) < W32
    ensures LowWord(low, len) + W32 * HighWord(low, high, len) == 8 * (n + len) % W64
  {
    var l, h := len % 0x2000_0000, len / 0x2000_0000;
    ShiftedLength(len);
    var carry := if low + 8 * l >= W32 then 1 else 0;
    assert LowWord(low, len) == low + 8 * l - carry * W32;
    var sum := high + carry + h % W32;
    var newHigh := HighWord(low, high, len);
    assert newHigh == sum % W32;
    var q := sum / W32 + h / W32;
    var p := 8 * n / W64;
    assert sum == W32 * (sum / W32) + newHigh;
    assert h == W32 * (h / W32) + h % W32;
    DivMod(8 * (n + len), W64, p + q, LowWord(low, len) + W32 * newHigh);
  }

  /** Wrapping after each of two additions is wrapping once. */
  lemma AddTwice(x: nat, carry: nat, y: nat)
    requires x < W32 && carry <= 1 && y < W32
    ensures (if carry == 1 then (x + 1) % W32 else x) + y < 2 * W32
    ensures ((if carry == 1 then (x + 1) % W32 else x) + y) % W32 == (x + carry + y) % W32
  {
  }

  lemma ShiftedLength(len: nat)
    ensures len % W32 * 8 % W32 == 8 * (len % 0x2000_0000)
  {
    var w, l := len % W32, len % 0x2000_0000;
    var top := w / 0x2000_0000;
    assert w % 0x2000_0000 == l by {
      assert len == W32 * (len / W32) + w;
      DivMod(len, 0x2000_0000, 8 * (len / W32) + top, w % 0x2000_0000);
    }
    DivMod(w * 8, W32, top, 8 * l);
  }

  /** The low word tells how many bytes of the block are used. */
  lemma UsedBytes(low: nat, high: nat, n: nat)
    requires low < W32 && high < W32 && low + W32 * high == 8 * n % W64
    ensures low / 8 % BLOCK == n % BLOCK
  {
    var p := 8 * n / W64;
    assert 8 * n == W64 * p + low + W32 * high;
    assert low % 8 == 0 by {
      DivMod(low, 8, n - (W64 / 8) * p - (W32 / 8) * high, 0);
    }
    var r := low / 8;
    assert n == (W64 / 8) * p + (W32 / 8) * high + r;
    DivMod(n, BLOCK, (W64 / 512) * p + (W32 / 512) * high + r / BLOCK, r % BLOCK);
  }

  lemma AfterTail(message: seq<byte>, k: nat, rest: seq<byte>)
    requires k <= |message|
    ensures var m := message + ([0x80] + rest);
            var end := |message| + 1;
            m[k..end] == message[k..] + [0x80] && m[end..] == rest
  {
  }

  // ----- The context -----

  class Context<S> {
    const transform: (S, seq<byte>) -> S
    const init: S
    var buf: S
    var low: nat
    var high: nat
    const block: array<byte>
    ghost var message: seq<byte>

    /** How much of the message the state has absorbed. */
    ghost predicate Absorbed(k: nat)
      reads this`buf, this`message
    {
      k <= |message| && k % BLOCK == 0 && buf == Fold(transform, init, message[..k])
    }

    /** The block starts with what the state has not absorbed. */
    ghost predicate Valid()
      reads this, block
    {
      var used := |message| % BLOCK;
      && block.Length == BLOCK
      && low < W32 && high < W32
      && low + W32 * high == 8 * |message| % W64
      && Absorbed(|message| - used)
      && block[..used] == message[|message| - used..]
    }

    constructor (transform: (S, seq<byte>) -> S, init: S)
      ensures Valid() && message == [] && fresh(block)
      ensures this.transform == transform && this.init == init
    {
      this.transform, this.init, buf, low, high, message := transform, init, init, 0, 0, [];
      block := new byte[64];
    }

    /** memcpy into the block. */
    method CopyIn(at: nat, data: seq<byte>)
      requires at + |data| <= block.Length
      modifies block
      ensures block[at..at + |data|] == data
      ensures block[..at] == old(block[..at]) && block[at + |data|..] == old(block[at + |data|..])
    {
      for i := 0 to |data|
        invariant forall j :: 0 <= j < block.Length ==>
                    block[j] == if at <= j < at + i then data[j - at] else old(block[j])
      {
        block[at + i] := data[i];
      }
    }

    /** Adds to the two-word bit count. */
    method AddBits(len: nat)
      requires low < W32 && high < W32 && low + W32 * high == 8 * |message| % W64
      modifies this`low, this`high
      ensures low < W32 && high < W32 && low + W32 * high == 8 * (|message| + len) % W64
    {
      BitCount(low, high, |message|, len);
      var t, h := low, high;
      low := (t + len % W32 * 8 % W32) % W32;
      if low < t {
        high := (high + 1) % W32;
      }
      AddTwice(h, if low < t then 1 else 0, len / 0x2000_0000 % W32);
      high := (high + len / 0x2000_0000 % W32) % W32;
    }

    /** One full block goes into the state. */
    method Absorb(ghost k: nat)
      requires block.Length == BLOCK && Absorbed(k) && k + BLOCK <= |message| && block[..] == message[k..k + BLOCK]
      modifies this`buf
      ensures Absorbed(k + BLOCK)
    {
      assert message[..k + BLOCK] == message[..k] + message[k..k + BLOCK];
      FoldAppend(transform, init, message[..k], message[k..k + BLOCK]);
      FoldOne(transform, buf, message[k..k + BLOCK]);
      buf := transform(buf, block[..]);
    }

    /** The message grows; what was absorbed stays absorbed. */
    ghost method Extend(data: seq<byte>, k: nat)
      requires Absorbed(k)
      modifies this`message
      ensures message == old(message) + data && Absorbed(k)
    {
      assert (message + data)[..k] == message[..k];
      message := message + data;
    }

    /** Fills up a block that is partly used, if the data is long enough. */
    method FillBlock(data: seq<byte>, used: nat, ghost before: seq<byte>) returns (pos: nat)
      requires block.Length == BLOCK && 0 < used < BLOCK && message == before + data
      requires used == |before| % BLOCK && Absorbed(|before| - used) && block[..used] == before[|before| - used..]
      modifies this`buf, block
      ensures pos <= |data|
      ensures |data| < BLOCK - used ==>
                pos == |data| && Absorbed(|before| - used) && block[..used + |data|] == message[|before| - used..]
      ensures |data| >= BLOCK - used ==> pos == BLOCK - used && Absorbed(|before| + pos)
    {
      var room := 64 - used;
      if |data| < room {
        CopyIn(used, data);
        assert block[..used + |data|] == before[|before| - used..] + data;
        return |data|;
      }
      CopyIn(used, data[..room]);
      ghost var k := |before| - used;
      assert block[..] == before[k..] + data[..room] == message[k..k + BLOCK];
      Absorb(k);
      return room;
    }

    /** Data is added to the message, in full blocks where possible. */
    method Update(data: seq<byte>)
      requires Valid()
      modifies this, block
      ensures Valid() && message == old(message) + data
    {
      hide Absorbed, Fold;
      UsedBytes(low, high, |message|);
      var used := low / 8 % 64;
      ghost var before := message;
      AddBits(|data|);
      Extend(data, |before| - used);
      var pos := 0;
      if used != 0 {
        pos := FillBlock(data, used, before);
        if |data| < 64 - used {
          FewBytes(|before|, |data|);
          return;
        }
      }
      AbsorbBlocks(data, pos, before);
    }

    /** If the data does not fill the block, only the block changes. */
    static lemma FewBytes(n: nat, len: nat)
      requires n % BLOCK + len < BLOCK
      ensures (n + len) % BLOCK == n % BLOCK + len
    {
    }

    /** Whole blocks go into the state, the rest into the block. */
    method AbsorbBlocks(data: seq<byte>, start: nat, ghost before: seq<byte>)
      requires block.Length == BLOCK && start <= |data| && message == before + data && Absorbed(|before| + start)
      modifies this`buf, block
      ensures var used := |message| % BLOCK; Absorbed(|message| - used) && block[..used] == message[|message| - used..]
    {
      var pos := start;
      while |data| - pos >= 64
        invariant start <= pos <= |data| && Absorbed(|before| + pos)
      {
        hide Absorbed;
        CopyIn(0, data[pos..pos + 64]);
        assert block[..] == data[pos..pos + 64] == message[|before| + pos..|before| + pos + BLOCK];
        Absorb(|before| + pos);
        pos := pos + 64;
      }
      CopyIn(0, data[pos..]);
      FewBytes(|before| + pos, |data| - pos);
      assert data[pos..] == message[|before| + pos..];
    }

    /** memset to zero. */
    method ZeroOut(from: nat, to: nat)
      requires from <= to <= block.Length
      modifies block
      ensures block[from..to] == Zeros(to - from)
      ensures block[..from] == old(block[..from]) && block[to..] == old(block[to..])
    {
      CopyIn(from, Zeros(to - from));
      assert block[from..from + (to - from)] == block[from..to];
    }

    /** Pads the message and gives the digest. */
    method Final() returns (digest: S)
      requires Valid()
      modifies this, block
      ensures digest == Digest(transform, init, old(message))
    {
      hide PaddingTail, Padding;
      var count := StartPadding();
      ghost var k := |old(message)| - count;
      if 64 - 1 - count < 8 {
        k := FillAndAbsorb(count, k);
      } else {
        FillTo56(count, k);
      }
      AppendLength(k);
      assert message[..k + BLOCK] == message;
      return buf;
    }

    /** The one bit of the padding. */
    method StartPadding() returns (count: nat)
      requires Valid()
      modifies this`message, block
      ensures message == old(message) + Padding(|old(message)|)
      ensures block.Length == BLOCK && count == |old(message)| % BLOCK
      ensures var k := |old(message)| - count;
              Absorbed(k) && k + count + 1 <= |message| && Padded(k, count)
    {
      UsedBytes(low, high, |message|);
      PaddingShape(|message|, low, high);
      count := low / 8 % 64;
      hide Padding, PaddingTail;
      ghost var k := |message| - count;
      AfterTail(message, k, PaddingTail(count, low, high));
      Extend(Padding(|message|), k);
      CopyIn(count, [0x80]);
      assert block[..count + 1] == block[..count] + block[count..count + 1];
    }

    /** The block holds the end of the message and the one bit; the rest of the padding is to come. */
    ghost predicate Padded(k: nat, count: nat)
      reads this, block
      requires block.Length == BLOCK && count < BLOCK && k + count + 1 <= |message|
    {
      && block[..count + 1] == message[k..k + count + 1]
      && message[k + count + 1..] == PaddingTail(count, low, high)
    }

    /** Zeros up to the length. */
    method FillTo56(count: nat, ghost k: nat)
      requires block.Length == BLOCK && count <= 55 && k + count + 1 <= |message| && Padded(k, count)
      modifies block
      ensures |message| == k + BLOCK && block[..56] == message[k..k + 56]
      ensures message[k + 56..] == LittleEndian(low, 4) + LittleEndian(high, 4)
    {
      ghost var rest, length := message[k + count + 1..], LittleEndian(low, 4) + LittleEndian(high, 4);
      hide LittleEndian;
      var free := 64 - 1 - count;
      ZeroOut(count + 1, count + 1 + (free - 8));
      assert block[..56] == block[..count + 1] + block[count + 1..56];
      assert message[k..k + 56] == message[k..k + count + 1] + rest[..55 - count];
      assert message[k + 56..] == rest[55 - count..];
    }

    /** Zeros up to the end of the block, which is absorbed, and most of the next one. */
    method FillAndAbsorb(count: nat, ghost k: nat) returns (ghost k': nat)
      requires block.Length == BLOCK && 55 < count < BLOCK && k + count + 1 <= |message| && Padded(k, count)
      requires Absorbed(k)
      modifies this`buf, block
      ensures k' == k + BLOCK && Absorbed(k')
      ensures |message| == k' + BLOCK && block[..56] == message[k'..k' + 56]
      ensures message[k' + 56..] == LittleEndian(low, 4) + LittleEndian(high, 4)
    {
      ghost var rest, length := message[k + count + 1..], LittleEndian(low, 4) + LittleEndian(high, 4);
      hide LittleEndian;
      k' := k + BLOCK;
      ZeroOut(count + 1, 64);
      assert block[..] == block[..count + 1] + block[count + 1..64];
      assert message[k..k + BLOCK] == message[k..k + count + 1] + rest[..63 - count];
      Absorb(k);
      ZeroOut(0, 56);
      assert message[k'..k' + 56] == rest[63 - count..119 - count] == Zeros(56);
      assert message[k' + 56..] == rest[119 - count..];
    }

    /** The last 8 bytes of the last block. */
    method AppendLength(ghost k: nat)
      requires block.Length == BLOCK && Absorbed(k) && |message| == k + BLOCK && block[..56] == message[k..k + 56]
      requires message[k + 56..] == LittleEndian(low, 4) + LittleEndian(high, 4)
      modifies this`buf, block
      ensures Absorbed(k + BLOCK)
    {
      CopyIn(56, LittleEndian(low, 4));
      assert block[..60] == message[k..k + 56] + LittleEndian(low, 4);
      CopyIn(60, LittleEndian(high, 4));
      assert block[..] == block[..60] + block[60..64];
      assert message[k..k + BLOCK] == message[k..k + 56] + message[k + 56..];
      Absorb(k);
    }
  }

  /** The pieces of a message, put together. */
  function Concat(pieces: seq<seq<byte>>): seq<byte> {
    if pieces == [] then [] else Concat(pieces[..|pieces| - 1]) + pieces[|pieces| - 1]
  }

  /** Incremental equals one-shot, for any split of the message. */
  method DigestOf<S>(transform: (S, seq<byte>) -> S, init: S, pieces: seq<seq<byte>>) returns (digest: S)
    ensures digest == Digest(transform, init, Concat(pieces))
  {
    var context := new Context(transform, init);
    for n := 0 to |pieces|
      invariant context.Valid() && context.message == Concat(pieces[..n])
      invariant fresh(context) && fresh(context.block)
      invariant context.transform == transform && context.init == init
    {
      assert pieces[..n + 1][..n] == pieces[..n];
      context.Update(pieces[n]);
    }
    assert pieces[..|pieces|] == pieces;
    digest := context.Final();
  }
}

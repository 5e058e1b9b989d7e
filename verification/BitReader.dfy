/**
  Bits and Exp-Golomb codes (sections 7.2, 9.1 and 9.1.1 of ITU-T H.264): the reader the SPS parser
  uses, the writer the standard defines, and the proof that reading inverts writing for every code
  number that fits the parser's 32-bit arithmetic.
 */
module BitReader {
  import opened Arithmetic

  type Bits = seq<bool>

  const TWO_32: nat := 0x1_0000_0000

  /** Code numbers of ue(v): everything up to 2^32 - 2. */
  type Ue = x: int | 0 <= x <= 0xFFFF_FFFE

  /** Values of se(v). */
  type Se = x: int | -0x7FFF_FFFF <= x <= 0x7FFF_FFFF

  /** The value that 1u << 32 happens to have; the C++ standard leaves it undefined. */
  const UNDEFINED_SHIFT: nat

  function Pow2(n: nat): (r: nat)
    ensures r > 0
  {
    if n == 0 then 1 else 2 * Pow2(n - 1)
  }

  // ----- Fixed-length fields -----

  /** The unsigned value of a bit string, most significant bit first. */
  function Value(bs: Bits): nat {
    if bs == [] then 0 else 2 * Value(bs[..|bs| - 1]) + (if bs[|bs| - 1] then 1 else 0)
  }

  /** u(n): v in n bits. */
  function Fixed(n: nat, v: nat): Bits {
    if n == 0 then [] else Fixed(n - 1, v / 2) + [v % 2 == 1]
  }

  lemma {:induction false} FixedValue(n: nat, v: nat)
    requires v < Pow2(n)
    ensures |Fixed(n, v)| == n && Value(Fixed(n, v)) == v
  {
    if n > 0 {
      FixedValue(n - 1, v / 2);
      assert Fixed(n, v)[..n - 1] == Fixed(n - 1, v / 2);
    }
  }

  /** Bit j of u(n) is that of the binary expansion, most significant first. */
  lemma {:induction false} FixedBit(n: nat, v: nat, j: nat)
    requires j < n
    ensures |Fixed(n, v)| == n && Fixed(n, v)[j] == (v / Pow2(n - 1 - j) % 2 == 1)
  {
    if n > 1 {
      FixedBit(n - 1, v / 2, if j < n - 1 then j else 0);
    }
    if j < n - 1 {
      HalfFirst(v, n - 2 - j);
    }
  }

  lemma HalfFirst(v: nat, k: nat)
    ensures v / 2 / Pow2(k) == v / Pow2(k + 1)
  {
    var p := Pow2(k);
    var q, r := v / (2 * p), v % (2 * p);
    assert v == 2 * (p * q) + r && (2 * (p * q) + r) / 2 == p * q + r / 2;
    DivMod(p * q + r / 2, p, q, r / 2);
  }

  lemma {:induction false} ValueFixed(bs: Bits)
    ensures Value(bs) < Pow2(|bs|) && Fixed(|bs|, Value(bs)) == bs
  {
    if bs != [] {
      ValueFixed(bs[..|bs| - 1]);
      assert bs == bs[..|bs| - 1] + [bs[|bs| - 1]];
    }
  }

  // ----- The result of a read -----

  datatype Read<T> = Read(ok: bool, value: T, rest: Bits)

  /** getBitsGraceful: more than 32 bits are refused, too few use up what is left. */
  function GetBits(n: nat, bs: Bits): Read<nat> {
    if n > 32 then Read(false, 0, bs)
    else if n > |bs| then Read(false, 0, [])
    else Read(true, Value(bs[..n]), bs[n..])
  }

  function SkipBits(n: nat, bs: Bits): Bits {
    GetBits(n, bs).rest
  }

  lemma GetFixed(n: nat, v: nat, rest: Bits)
    requires n <= 32 && v < Pow2(n)
    ensures GetBits(n, Fixed(n, v) + rest) == Read(true, v, rest)
  {
    FixedValue(n, v);
    assert (Fixed(n, v) + rest)[..n] == Fixed(n, v) && (Fixed(n, v) + rest)[n..] == rest;
  }

  function Flag(b: bool): Bits { [b] }

  lemma GetFlag(b: bool, rest: Bits)
    ensures GetBits(1, Flag(b) + rest) == Read(true, if b then 1 else 0, rest)
  {
    var s := Flag(b) + rest;
    assert s[..1] == [b] && s[1..] == rest && [b][..0] == [];
    assert Value([b]) == if b then 1 else 0;
  }

  // ----- Exp-Golomb codes -----

  function LeadingZeros(bs: Bits): nat {
    if bs == [] || bs[0] then 0 else 1 + LeadingZeros(bs[1..])
  }

  lemma {:induction false} LeadingZerosBound(bs: Bits)
    ensures LeadingZeros(bs) <= |bs|
    ensures LeadingZeros(bs) < |bs| ==> bs[LeadingZeros(bs)]
  {
    if bs != [] && !bs[0] {
      LeadingZerosBound(bs[1..]);
    }
  }

  /** (1u << z) - 1 in 32-bit arithmetic. */
  function Offset(z: nat): nat {
    if z < 32 then (Pow2(z) - 1) % TWO_32 else (UNDEFINED_SHIFT + TWO_32 - 1) % TWO_32
  }

  /** The part of parseUE after the first one bit. */
  function Suffix(z: nat, bs: Bits): Read<nat> {
    var r := GetBits(z, bs);
    if r.ok then Read(true, (r.value + Offset(z)) % TWO_32, r.rest) else r
  }

  /** parseUE. */
  function ParseUE(bs: Bits): Read<nat> {
    LeadingZerosBound(bs);
    var z := LeadingZeros(bs);
    if z == |bs| then Read(false, 0, []) else Suffix(z, bs[z + 1..])
  }

  /** parseSE; the 32-bit conversions are the identity on the values that occur (ParseWritesSE). */
  function ParseSE(bs: Bits): Read<int> {
    var r := ParseUE(bs);
    if !r.ok then Read(false, 0, r.rest)
    else Read(true, if r.value % 2 == 1 then ((r.value + 1) % TWO_32) / 2 else -(r.value / 2), r.rest)
  }

  function Log2(n: nat): nat
    requires n > 0
  {
    if n == 1 then 0 else 1 + Log2(n / 2)
  }

  lemma {:induction false} Log2Bounds(n: nat)
    requires n > 0
    ensures Pow2(Log2(n)) <= n < 2 * Pow2(Log2(n))
  {
    if n > 1 {
      Log2Bounds(n / 2);
    }
  }

  lemma {:induction false} Pow2Monotone(a: nat, b: nat)
    requires a <= b
    ensures Pow2(a) <= Pow2(b)
  {
    if a < b {
      Pow2Monotone(a, b - 1);
    }
  }

  lemma Pow2Of32()
    ensures Pow2(32) == TWO_32
  {
    assert Pow2(8) == 256;
    assert Pow2(16) == 0x1_0000;
    assert Pow2(24) == 0x100_0000;
  }

  function Zeros(z: nat): Bits {
    seq(z, _ => false)
  }

  /** ue(v), section 9.1: z zeros, a one, and the z low bits of k + 1. */
  function UE(k: nat): Bits {
    var z := Log2(k + 1);
    Log2Bounds(k + 1);
    Zeros(z) + [true] + Fixed(z, k + 1 - Pow2(z))
  }

  /** se(v), section 9.1.1. */
  function SE(v: int): Bits {
    UE(CodeNum(v))
  }

  function CodeNum(v: int): nat {
    if v > 0 then 2 * v - 1 else -2 * v
  }

  lemma {:induction false} LeadingZerosOf(z: nat, rest: Bits)
    ensures LeadingZeros(Zeros(z) + [true] + rest) == z
  {
    var s := Zeros(z) + [true] + rest;
    if z > 0 {
      LeadingZerosOf(z - 1, rest);
      assert s[1..] == Zeros(z - 1) + [true] + rest;
    }
  }

  lemma ZeroCountBelow32(k: Ue)
    ensures Log2(k + 1) < 32 && Pow2(Log2(k + 1)) <= TWO_32
  {
    Log2Bounds(k + 1);
    Pow2Of32();
    if Log2(k + 1) >= 32 {
      Pow2Monotone(32, Log2(k + 1));
    } else {
      Pow2Monotone(Log2(k + 1), 32);
    }
  }

  lemma SuffixInverts(z: nat, p: nat, k: nat, rest: Bits)
    requires z < 32 && p == Pow2(z) <= TWO_32 && p <= k + 1 < 2 * p && k < TWO_32
    ensures Suffix(z, Fixed(z, k + 1 - p) + rest) == Read(true, k, rest)
  {
    GetFixed(z, k + 1 - p, rest);
    assert (p - 1) % TWO_32 == p - 1;
    assert (k + 1 - p + (p - 1)) % TWO_32 == k;
  }

  lemma ParseSplits(z: nat, after: Bits, s: Bits)
    requires s == Zeros(z) + [true] + after
    ensures ParseUE(s) == Suffix(z, after)
  {
    LeadingZerosOf(z, after);
    assert s[z + 1..] == after;
  }

  /** Reading a written code number gives it back and consumes exactly its bits. */
  lemma ParseWritesUE(k: Ue, rest: Bits)
    ensures ParseUE(UE(k) + rest) == Read(true, k, rest)
  {
    var z := Log2(k + 1);
    var p := Pow2(z);
    Log2Bounds(k + 1);
    ZeroCountBelow32(k);
    var low := Fixed(z, k + 1 - p);
    var s := UE(k) + rest;
    assert s == Zeros(z) + [true] + (low + rest) by {
      assert UE(k) == Zeros(z) + [true] + low;
    }
    ParseSplits(z, low + rest, s);
    SuffixInverts(z, p, k, rest);
  }

  /** The same for signed values; parseUE also consumes exactly the bits of a signed value. */
  lemma ParseWritesSE(v: Se, rest: Bits)
    ensures ParseSE(SE(v) + rest) == Read(true, v, rest)
    ensures ParseUE(SE(v) + rest) == Read(true, CodeNum(v), rest)
  {
    ParseWritesUE(CodeNum(v), rest);
    SignedValue(v);
  }

  lemma SignedValue(v: Se)
    ensures var k := CodeNum(v);
            v == if k % 2 == 1 then ((k + 1) % TWO_32) / 2 else -(k / 2)
  {
  }

  // ----- The reader object -----

  class Reader {
    const bits: Bits
    var pos: nat

    ghost predicate Valid()
      reads this
    {
      pos <= |bits|
    }

    ghost function Left(): Bits
      requires Valid()
      reads this
    {
      bits[pos..]
    }

    constructor (bits: Bits)
      ensures Valid() && Left() == bits
    {
      this.bits := bits;
      pos := 0;
    }

    method GetBitsGraceful(n: nat) returns (ok: bool, value: nat)
      requires Valid()
      modifies this
      ensures Valid()
      ensures var r := GetBits(n, old(Left())); ok == r.ok && Left() == r.rest && (ok ==> value == r.value)
    {
      if n > 32 {
        return false, 0;
      }
      ghost var start := bits[pos..];
      var i := 0;
      value := 0;
      while i < n
        invariant 0 <= i <= n && Valid() && pos == old(pos) + i
        invariant value == Value(bits[old(pos)..pos])
      {
        if pos == |bits| {
          return false, 0;
        }
        ValueStep(bits, old(pos), pos);
        value := 2 * value + if bits[pos] then 1 else 0;
        pos := pos + 1;
        i := i + 1;
      }
      assert start[..n] == bits[old(pos)..pos] && start[n..] == bits[pos..];
      ok := true;
    }

    method Skip(n: nat)
      requires Valid()
      modifies this
      ensures Valid() && Left() == SkipBits(n, old(Left()))
    {
      var _, _ := GetBitsGraceful(n);
    }

    method ReadFlag() returns (ok: bool, flag: bool)
      requires Valid()
      modifies this
      ensures Valid()
      ensures ok <==> old(Left()) != []
      ensures if ok then flag == old(Left())[0] && Left() == old(Left())[1..] else Left() == []
    {
      OneBit(Left());
      var value;
      ok, value := GetBitsGraceful(1);
      flag := value == 1;
    }

    /** The leading zeros of a code, and the one bit that ends them. */
    method CountZeroes() returns (ok: bool, numZeroes: nat)
      requires Valid()
      modifies this
      ensures Valid()
      ensures ok <==> LeadingZeros(old(Left())) < |old(Left())|
      ensures if ok then numZeroes == LeadingZeros(old(Left())) && Left() == old(Left())[numZeroes + 1..]
              else Left() == []
    {
      ghost var start := Left();
      LeadingZerosBound(start);
      numZeroes := 0;
      var bit;
      ok, bit := ReadFlag();
      while ok && !bit
        invariant Valid() && numZeroes <= |start|
        invariant numZeroes + LeadingZeros(start[numZeroes..]) == LeadingZeros(start)
        invariant if ok then numZeroes < |start| && bit == start[numZeroes] && start[numZeroes + 1..] == Left()
                  else numZeroes == |start| && Left() == []
        decreases ok, |start| - numZeroes
      {
        ZeroStep(start, numZeroes);
        numZeroes := numZeroes + 1;
        ok, bit := ReadFlag();
      }
    }

    method ReadUE() returns (ok: bool, value: nat)
      requires Valid()
      modifies this
      ensures Valid()
      ensures var r := ParseUE(old(Left())); ok == r.ok && Left() == r.rest && (ok ==> value == r.value)
    {
      ghost var start := Left();
      LeadingZerosBound(start);
      var numZeroes;
      value := 0;
      ok, numZeroes := CountZeroes();
      if !ok {
        return;
      }
      assert ParseUE(start) == Suffix(numZeroes, Left());
      ok, value := GetBitsGraceful(numZeroes);
      if ok {
        value := (value + Offset(numZeroes)) % TWO_32;
      }
    }

    method ReadSE() returns (ok: bool, value: int)
      requires Valid()
      modifies this
      ensures Valid()
      ensures var r := ParseSE(old(Left())); ok == r.ok && Left() == r.rest && (ok ==> value == r.value)
    {
      var codeNum;
      value := 0;
      ok, codeNum := ReadUE();
      if !ok {
        return;
      }
      value := if codeNum % 2 == 1 then ((codeNum + 1) % TWO_32) / 2 else -(codeNum / 2);
    }
  }

  lemma ZeroStep(bs: Bits, k: nat)
    requires k < |bs| && !bs[k]
    ensures LeadingZeros(bs[k..]) == 1 + LeadingZeros(bs[k + 1..])
  {
    assert bs[k..][1..] == bs[k + 1..];
  }

  lemma ValueStep(bs: Bits, from: nat, to: nat)
    requires from <= to < |bs|
    ensures Value(bs[from..to + 1]) == 2 * Value(bs[from..to]) + if bs[to] then 1 else 0
  {
    assert bs[from..to + 1][..to - from] == bs[from..to];
  }

  lemma OneBit(bs: Bits)
    ensures GetBits(1, bs) == if bs == [] then Read(false, 0, []) else Read(true, if bs[0] then 1 else 0, bs[1..])
  {
    if bs != [] {
      assert bs[..1] == [bs[0]] && [bs[0]][..0] == [];
      assert Value([bs[0]]) == if bs[0] then 1 else 0;
    }
  }
}

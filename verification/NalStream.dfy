/**
  The H.264 byte stream (section B.1 of ITU-T H.264) as NalParser sees it: a scanner for NAL
  units, the printer that puts a four-byte start code before each unit, and the proof that the
  two undo each other exactly when no unit contains a start code.
 */
module NalStream {

  newtype byte = x: int | 0 <= x < 256

  type Nal = seq<byte>

  const IDR_TYPE: byte := 5
  const SPS_TYPE: byte := 7
  const PPS_TYPE: byte := 8

  const START_CODE: seq<byte> := [0, 0, 0, 1]

  // ----- What a start code is, and where the next one lies -----

  predicate StartCodeAt(d: seq<byte>, i: int) {
    0 <= i && i + 3 <= |d| && d[i] == 0 && d[i + 1] == 0 && d[i + 2] == 1
  }

  /** No three-byte start code lies inside d. */
  ghost predicate Clean(d: seq<byte>) {
    forall i :: 0 <= i < |d| ==> !StartCodeAt(d, i)
  }

  /** The first start code at or after `from`, or |d| when there is none. */
  function NextStart(d: seq<byte>, from: nat): (r: nat)
    requires from <= |d|
    ensures from <= r <= |d|
    ensures r < |d| ==> StartCodeAt(d, r)
    ensures forall i :: from <= i < r ==> !StartCodeAt(d, i)
    decreases |d| - from
  {
    if from == |d| || StartCodeAt(d, from) then from else NextStart(d, from + 1)
  }

  // ----- The units of a stream -----

  /** A position where scanning may resume: a start code or the end of the data. */
  predicate Resumable(d: seq<byte>, p: int) {
    p == |d| || StartCodeAt(d, p)
  }

  /**
    The unit whose data begins at c when the next start code is at q. One zero byte in front of
    that start code belongs to the start code, not to the unit. The byte before c is the 01 that
    ends the unit's own start code, so an empty unit never loses a byte it does not have.
   */
  function UnitAt(d: seq<byte>, c: nat, q: nat): Nal
    requires 1 <= c <= q <= |d| && d[c - 1] == 1
  {
    if q < |d| && d[q - 1] == 0 then d[c..q - 1] else d[c..q]
  }

  /** The units found by scanning d from the resumable position p. */
  function NalsFrom(d: seq<byte>, p: nat): seq<Nal>
    requires Resumable(d, p)
    decreases |d| - p
  {
    if p == |d| then []
    else
      var q := NextStart(d, p + 3);
      [UnitAt(d, p + 3, q)] + NalsFrom(d, q)
  }

  function Nals(d: seq<byte>): seq<Nal> {
    NalsFrom(d, NextStart(d, 0))
  }

  /** nal_unit_type; an empty unit that is followed by another start code reads as type 0. */
  function NalType(n: Nal): byte {
    if n == [] then 0 else n[0] % 32
  }

  /** The data does not stop right after a start code, where the parser would read past the end. */
  ghost predicate NoBareEnd(d: seq<byte>) {
    !StartCodeAt(d, |d| - 3)
  }

  // ----- Printing -----

  /** A unit behind its start code. */
  function Framed(n: Nal): seq<byte> {
    START_CODE + n
  }

  function Print(nals: seq<Nal>): seq<byte> {
    if nals == [] then [] else Framed(nals[0]) + Print(nals[1..])
  }

  lemma Assoc<T>(a: seq<T>, b: seq<T>, c: seq<T>)
    ensures (a + b) + c == a + (b + c)
  {
  }

  lemma {:induction false} PrintAppend(a: seq<Nal>, b: seq<Nal>)
    ensures Print(a + b) == Print(a) + Print(b)
  {
    if a == [] {
      assert a + b == b;
    } else {
      PrintAppend(a[1..], b);
      assert (a + b)[0] == a[0] && (a + b)[1..] == a[1..] + b;
      Assoc(Framed(a[0]), Print(a[1..]), Print(b));
    }
  }

  // ----- Scanning yields clean units -----

  lemma UnitIsClean(d: seq<byte>, c: nat, q: nat)
    requires 1 <= c <= q <= |d| && d[c - 1] == 1
    requires forall i :: c <= i < q ==> !StartCodeAt(d, i)
    ensures Clean(UnitAt(d, c, q))
  {
    var u := UnitAt(d, c, q);
    forall i | 0 <= i < |u|
      ensures !StartCodeAt(u, i)
    {
      assert !StartCodeAt(d, c + i);
    }
  }

  lemma {:induction false} ScannedUnitsAreClean(d: seq<byte>, p: nat)
    requires Resumable(d, p)
    ensures forall n :: n in NalsFrom(d, p) ==> Clean(n)
    decreases |d| - p
  {
    if p < |d| {
      var q := NextStart(d, p + 3);
      UnitIsClean(d, p + 3, q);
      ScannedUnitsAreClean(d, q);
    }
  }

  /** In a stream without a bare start code at its end, only the last unit reaches the end. */
  lemma {:induction false} LastUnitNotEmpty(d: seq<byte>, p: nat)
    requires Resumable(d, p) && NoBareEnd(d)
    ensures var ns := NalsFrom(d, p); ns != [] ==> ns[|ns| - 1] != []
    decreases |d| - p
  {
    if p < |d| {
      LastUnitNotEmpty(d, NextStart(d, p + 3));
    }
  }

  // ----- Scanning does not look back -----

  lemma StartCodeShift(a: seq<byte>, d: seq<byte>, s: seq<byte>, i: nat)
    requires s == a + d
    ensures StartCodeAt(s, |a| + i) <==> StartCodeAt(d, i)
  {
  }

  lemma {:induction false} NextStartShift(a: seq<byte>, d: seq<byte>, s: seq<byte>, from: nat)
    requires s == a + d && from <= |d|
    ensures NextStart(s, |a| + from) == |a| + NextStart(d, from)
    decreases |d| - from
  {
    StartCodeShift(a, d, s, from);
    if from < |d| && !StartCodeAt(d, from) {
      NextStartShift(a, d, s, from + 1);
    }
  }

  lemma UnitAtShift(a: seq<byte>, d: seq<byte>, s: seq<byte>, c: nat, q: nat)
    requires s == a + d && 1 <= c <= q <= |d| && d[c - 1] == 1
    ensures UnitAt(s, |a| + c, |a| + q) == UnitAt(d, c, q)
  {
    assert s[|a| + c..|a| + q] == d[c..q];
    assert q > c ==> s[|a| + c..|a| + q - 1] == d[c..q - 1];
  }

  lemma {:induction false} NalsFromShift(a: seq<byte>, d: seq<byte>, s: seq<byte>, p: nat)
    requires s == a + d && Resumable(d, p)
    ensures Resumable(s, |a| + p)
    ensures NalsFrom(s, |a| + p) == NalsFrom(d, p)
    decreases |d| - p
  {
    StartCodeShift(a, d, s, p);
    if p < |d| {
      var q, p', q' := NextStart(d, p + 3), |a| + p, |a| + NextStart(d, p + 3);
      assert NextStart(s, p' + 3) == q' && UnitAt(s, p' + 3, q') == UnitAt(d, p + 3, q) by {
        NextStartShift(a, d, s, p + 3);
        UnitAtShift(a, d, s, p + 3, q);
      }
      NalsFromShift(a, d, s, q);
      NalsFromUnfolds(d, p, q);
      NalsFromUnfolds(s, p', q');
    }
  }

  lemma NalsFromUnfolds(d: seq<byte>, p: nat, q: nat)
    requires StartCodeAt(d, p) && q == NextStart(d, p + 3)
    ensures NalsFrom(d, p) == [UnitAt(d, p + 3, q)] + NalsFrom(d, q)
  {
  }

  // ----- Print and scan undo each other -----

  lemma NextStartIs(d: seq<byte>, from: nat, r: nat)
    requires from <= r <= |d| && Resumable(d, r)
    requires forall i :: from <= i < r ==> !StartCodeAt(d, i)
    ensures NextStart(d, from) == r
  {
  }

  /** The scan of a printed list starts at offset 1: the start code's first zero is skipped. */
  lemma FirstStartOfPrint(nals: seq<Nal>)
    ensures NextStart(Print(nals), 0) == if nals == [] then 0 else 1
    ensures nals != [] ==>
              var d := Print(nals); |d| >= 4 && d[0] == 0 && d[1] == 0 && d[2] == 0 && d[3] == 1
  {
    if nals != [] {
      var d := Print(nals);
      assert |d| >= 4 && d[0] == 0 && d[1] == 0 && d[2] == 0 && d[3] == 1;
      NextStartIs(d, 0, 1);
    }
  }

  /** After a clean unit the scanner stops at the end, or at the start code of what follows. */
  lemma NextStartAfterUnit(n: Nal, more: seq<byte>, d: seq<byte>)
    requires Clean(n) && d == Framed(n) + more
    requires more == [] || (|more| >= 4 && more[0] == 0 && more[1] == 0 && more[2] == 0 && more[3] == 1)
    ensures NextStart(d, 4) == if more == [] then 4 + |n| else 4 + |n| + 1
  {
    var r := if more == [] then 4 + |n| else 4 + |n| + 1;
    assert more != [] ==> d[4 + |n|] == 0 && d[5 + |n|] == 0 && d[6 + |n|] == 0 && d[7 + |n|] == 1;
    forall i | 4 <= i < r
      ensures !StartCodeAt(d, i)
    {
      if i + 3 <= 4 + |n| {
        assert d[i] == n[i - 4] && d[i + 1] == n[i - 3] && d[i + 2] == n[i - 2];
        assert !StartCodeAt(n, i - 4);
      }
    }
    NextStartIs(d, 4, r);
  }

  lemma FirstUnitOfPrint(n: Nal, more: seq<byte>, d: seq<byte>)
    requires Clean(n) && d == Framed(n) + more
    requires more == [] || (|more| >= 4 && more[0] == 0 && more[1] == 0 && more[2] == 0 && more[3] == 1)
    ensures Resumable(d, 1) && UnitAt(d, 4, NextStart(d, 4)) == n
  {
    assert d[0] == 0 && d[1] == 0 && d[2] == 0 && d[3] == 1;
    NextStartAfterUnit(n, more, d);
    assert d[4..4 + |n|] == n;
    if more != [] {
      assert d[4 + |n|] == more[0];
    }
  }

  lemma {:induction false} ScanOfPrint(nals: seq<Nal>)
    requires forall n :: n in nals ==> Clean(n)
    ensures Nals(Print(nals)) == nals
  {
    FirstStartOfPrint(nals);
    if nals != [] {
      var n, rest := nals[0], nals[1..];
      var d, more := Print(nals), Print(rest);
      ScanOfPrint(rest);
      FirstStartOfPrint(rest);
      NextStartAfterUnit(n, more, d);
      FirstUnitOfPrint(n, more, d);
      NalsFromShift(Framed(n), more, d, NextStart(more, 0));
    }
  }

  /** Printing any list and scanning it back is the identity exactly on lists of clean units. */
  lemma ScanInvertsPrint(nals: seq<Nal>)
    ensures Nals(Print(nals)) == nals <==> forall n :: n in nals ==> Clean(n)
  {
    if forall n :: n in nals ==> Clean(n) {
      ScanOfPrint(nals);
    }
    var d := Print(nals);
    ScannedUnitsAreClean(d, NextStart(d, 0));
  }

  /** A rescan of the canonical form finds the same units, whatever start codes d used. */
  lemma PrintNormalises(d: seq<byte>)
    ensures Nals(Print(Nals(d))) == Nals(d)
  {
    ScannedUnitsAreClean(d, NextStart(d, 0));
    ScanInvertsPrint(Nals(d));
  }

  // ----- Three-byte start codes -----

  const SHORT_CODE: seq<byte> := [0, 0, 1]

  function PrintShort(nals: seq<Nal>): seq<byte> {
    if nals == [] then [] else SHORT_CODE + nals[0] + PrintShort(nals[1..])
  }

  predicate EndsInZero(n: Nal) {
    n != [] && n[|n| - 1] == 0
  }

  /** A zero at the end of a unit is taken for part of the start code that follows. */
  function Trimmed(n: Nal): Nal {
    if EndsInZero(n) then n[..|n| - 1] else n
  }

  function TrimmedButLast(nals: seq<Nal>): seq<Nal> {
    if |nals| <= 1 then nals else [Trimmed(nals[0])] + TrimmedButLast(nals[1..])
  }

  lemma ShortUnit(n: Nal, more: seq<byte>, d: seq<byte>)
    requires Clean(n) && d == SHORT_CODE + n + more && (more == [] || StartCodeAt(more, 0))
    ensures NextStart(d, 3) == 3 + |n| && Resumable(d, 0) && d[2] == 1
    ensures UnitAt(d, 3, 3 + |n|) == if more == [] then n else Trimmed(n)
  {
    assert d[0] == 0 && d[1] == 0 && d[2] == 1 && d[3..3 + |n|] == n;
    assert more != [] ==> d[3 + |n|] == 0 && d[4 + |n|] == 0 && d[5 + |n|] == 1;
    forall i | 3 <= i < 3 + |n|
      ensures !StartCodeAt(d, i)
    {
      if i + 3 <= 3 + |n| {
        assert d[i] == n[i - 3] && d[i + 1] == n[i - 2] && d[i + 2] == n[i - 1];
        assert !StartCodeAt(n, i - 3);
      }
    }
    NextStartIs(d, 3, 3 + |n|);
    if n != [] {
      assert d[2 + |n|] == n[|n| - 1] && d[3..2 + |n|] == n[..|n| - 1];
    }
  }

  lemma {:induction false} ScanOfShortPrint(nals: seq<Nal>)
    requires forall n :: n in nals ==> Clean(n)
    ensures NextStart(PrintShort(nals), 0) == 0 && Nals(PrintShort(nals)) == TrimmedButLast(nals)
    ensures nals != [] ==> StartCodeAt(PrintShort(nals), 0)
  {
    if nals != [] {
      var n, rest := nals[0], nals[1..];
      var d, more := PrintShort(nals), PrintShort(rest);
      ScanOfShortPrint(rest);
      ShortUnit(n, more, d);
      NalsFromShift(SHORT_CODE + n, more, d, 0);
    }
  }

  lemma {:induction false} TrimmedIff(nals: seq<Nal>)
    ensures |TrimmedButLast(nals)| == |nals|
    ensures TrimmedButLast(nals) == nals <==> forall k :: 0 <= k < |nals| - 1 ==> !EndsInZero(nals[k])
  {
    if |nals| > 1 {
      TrimmedIff(nals[1..]);
      assert nals == [nals[0]] + nals[1..];
      assert TrimmedButLast(nals)[1..] == TrimmedButLast(nals[1..]);
      assert forall k :: 0 <= k < |nals| - 2 ==> nals[1..][k] == nals[k + 1];
      if TrimmedButLast(nals) == nals {
        assert Trimmed(nals[0]) == nals[0];
        forall k | 0 <= k < |nals| - 1
          ensures !EndsInZero(nals[k])
        {
          if k > 0 {
            assert nals[1..][k - 1] == nals[k];
          }
        }
      }
    }
  }

  /** Clean units behind three-byte start codes scan back if and only if none but the last ends in a zero. */
  lemma ScanInvertsShortPrint(nals: seq<Nal>)
    requires forall n :: n in nals ==> Clean(n)
    ensures Nals(PrintShort(nals)) == nals <==> forall k :: 0 <= k < |nals| - 1 ==> !EndsInZero(nals[k])
  {
    ScanOfShortPrint(nals);
    TrimmedIff(nals);
  }

  // ----- The parser object -----

  class NalParser {
    const data: seq<byte>
    var currNalDataPos: nat
    var nextNalStartCodePos: nat

    ghost predicate Valid()
      reads this
    {
      && currNalDataPos <= nextNalStartCodePos <= |data|
      && Resumable(data, nextNalStartCodePos)
      && nextNalStartCodePos == NextStart(data, currNalDataPos)
    }

    /** locateNextNal() has returned true: data(), length() and type() may be called. */
    ghost predicate Located()
      reads this
    {
      Valid() && StartCodeAt(data, currNalDataPos - 3)
    }

    ghost function Remaining(): seq<Nal>
      requires Valid()
      reads this
    {
      NalsFrom(data, nextNalStartCodePos)
    }

    ghost function Current(): Nal
      requires Located()
      reads this
    {
      UnitAt(data, currNalDataPos, nextNalStartCodePos)
    }

    constructor (data: seq<byte>)
      ensures this.data == data && Valid() && Remaining() == Nals(data)
    {
      this.data := data;
      currNalDataPos := 0;
      new;
      nextNalStartCodePos := FindNextStartCodePos();
    }

    method FindNextStartCodePos() returns (pos: nat)
      requires currNalDataPos <= |data|
      ensures pos == NextStart(data, currNalDataPos)
    {
      pos := currNalDataPos;
      while pos < |data| && !StartCodeAt(data, pos)
        invariant currNalDataPos <= pos <= |data|
        invariant NextStart(data, pos) == NextStart(data, currNalDataPos)
      {
        pos := pos + 1;
      }
    }

    method LocateNextNal() returns (found: bool)
      requires Valid()
      modifies this
      ensures Valid()
      ensures found <==> old(Remaining()) != []
      ensures found ==> Located() && old(Remaining()) == [Current()] + Remaining()
      ensures found && NoBareEnd(data) ==> currNalDataPos < |data|
      ensures !found ==> unchanged(this)
      ensures nextNalStartCodePos >= old(nextNalStartCodePos)
      ensures found ==> nextNalStartCodePos > old(nextNalStartCodePos)
    {
      if nextNalStartCodePos == |data| {
        return false;
      }
      currNalDataPos := nextNalStartCodePos + 3;
      nextNalStartCodePos := FindNextStartCodePos();
      return true;
    }

    /** length() never underflows: the subtraction happens only when the unit has a byte to lose. */
    method Length() returns (length: nat)
      requires Located()
      ensures length == |Current()|
    {
      if nextNalStartCodePos == |data| {
        return |data| - currNalDataPos;
      }
      length := nextNalStartCodePos - currNalDataPos;
      if data[nextNalStartCodePos - 1] == 0 {
        length := length - 1;
      }
    }

    method Data() returns (unit: Nal)
      requires Located()
      ensures unit == Current()
    {
      var length := Length();
      unit := data[currNalDataPos..currNalDataPos + length];
    }

    method Type() returns (t: byte)
      requires Located() && currNalDataPos < |data|
      ensures t == NalType(Current())
    {
      t := data[currNalDataPos] % 32;
    }

    method LocateSPS() returns (found: bool)
      requires Valid()
      modifies this
      ensures Valid()
      ensures found <==> exists n :: n in old(Remaining()) && n != [] && NalType(n) == SPS_TYPE
      ensures found ==>
                && Located()
                && Current() != [] && NalType(Current()) == SPS_TYPE
                && FirstSps(old(Remaining())) == [Current()]
    {
      while true
        invariant Valid()
        invariant FirstSps(Remaining()) == FirstSps(old(Remaining()))
        decreases |data| - nextNalStartCodePos
      {
        ghost var before := Remaining();
        FirstSpsIff(before);
        FirstSpsIff(old(Remaining()));
        var more := LocateNextNal();
        if !more {
          return false;
        }
        assert before[0] == Current() && before[1..] == Remaining();
        var length := Length();
        if length == 0 {
          continue;
        }
        var t := Type();
        if t != SPS_TYPE {
          continue;
        }
        return true;
      }
    }
  }

  /** The first non-empty SPS unit of a list, as a list of at most one. */
  function FirstSps(ns: seq<Nal>): (r: seq<Nal>)
    ensures r != [] ==> |r| == 1 && r[0] != []
  {
    if ns == [] then []
    else if ns[0] != [] && NalType(ns[0]) == SPS_TYPE then [ns[0]]
    else FirstSps(ns[1..])
  }

  lemma {:induction false} FirstSpsIff(ns: seq<Nal>)
    ensures FirstSps(ns) != [] <==> exists n :: n in ns && n != [] && NalType(n) == SPS_TYPE
  {
    if ns != [] {
      FirstSpsIff(ns[1..]);
    }
  }
}

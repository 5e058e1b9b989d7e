/**
  The encoder's stream helpers: copying a unit behind a start code, extracting SPS and PPS, building
  codec-specific data, and rewriting a stream so that every key frame carries its parameter sets.
 */
module EncodeHelpers {
  import opened NalStream

  // ----- copyNALUPrependingStartCode -----

  /** Writes one unit at `pos`; on failure nothing is written and the position stays. */
  method CopyNALUPrependingStartCode(src: Nal, dst: array<byte>, pos: nat) returns (ok: bool, pos': nat)
    requires pos <= dst.Length
    modifies dst
    ensures ok <==> 4 + |src| <= dst.Length - pos
    ensures ok ==> pos' == pos + 4 + |src| && dst[..pos'] == old(dst[..pos]) + Framed(src)
    ensures !ok ==> pos' == pos && dst[..] == old(dst[..])
  {
    var naluSize := |src| + 4;
    if naluSize > dst.Length - pos {
      return false, pos;
    }
    forall i | 0 <= i < 4 {
      dst[pos + i] := START_CODE[i];
    }
    forall i | 0 <= i < |src| {
      dst[pos + 4 + i] := src[i];
    }
    assert dst[pos..pos + naluSize] == Framed(src);
    assert dst[..pos + naluSize] == dst[..pos] + dst[pos..pos + naluSize];
    return true, pos + naluSize;
  }

  /** One step of a loop over the parser: locateNextNal(), then type() and data(). */
  method NextUnit(parser: NalParser) returns (more: bool, t: byte, n: Nal)
    requires parser.Valid() && NoBareEnd(parser.data)
    modifies parser
    ensures parser.Valid()
    ensures more <==> old(parser.Remaining()) != []
    ensures more ==> old(parser.Remaining()) == [n] + parser.Remaining() && t == NalType(n)
    ensures more ==> parser.nextNalStartCodePos > old(parser.nextNalStartCodePos)
  {
    t, n := 0, [];
    more := parser.LocateNextNal();
    if more {
      t := parser.Type();
      n := parser.Data();
    }
  }

  // ----- extractSPSPPS and extractCSDInfo -----

  datatype ParameterSets = ParameterSets(sps: Nal, pps: Nal, foundSPS: bool, foundPPS: bool) {
    predicate Complete() { foundSPS && foundPPS }

    /** The sets after meeting one more unit. */
    function After(n: Nal): ParameterSets {
      if NalType(n) == SPS_TYPE then this.(sps := n, foundSPS := true)
      else if NalType(n) == PPS_TYPE then this.(pps := n, foundPPS := true)
      else this
    }
  }

  /** The scan that stops as soon as both sets have been found. */
  function Collect(ns: seq<Nal>, p: ParameterSets): ParameterSets {
    if p.Complete() || ns == [] then p else Collect(ns[1..], p.After(ns[0]))
  }

  predicate HasType(ns: seq<Nal>, t: byte) {
    exists n :: n in ns && NalType(n) == t
  }

  /** The last unit of type t, or `fallback` when there is none. */
  function LastOfType(ns: seq<Nal>, t: byte, fallback: Nal): Nal {
    if ns == [] then fallback
    else if NalType(ns[|ns| - 1]) == t then ns[|ns| - 1]
    else LastOfType(ns[..|ns| - 1], t, fallback)
  }

  lemma {:induction false} LastOfTypeCons(n: Nal, ns: seq<Nal>, t: byte, fallback: Nal)
    ensures LastOfType([n] + ns, t, fallback) == LastOfType(ns, t, if NalType(n) == t then n else fallback)
  {
    var all := [n] + ns;
    if ns == [] {
      assert all[..|all| - 1] == [];
    } else {
      assert all[..|all| - 1] == [n] + ns[..|ns| - 1];
      if NalType(ns[|ns| - 1]) != t {
        LastOfTypeCons(n, ns[..|ns| - 1], t, fallback);
      }
    }
  }

  predicate BothBy(ns: seq<Nal>, p: ParameterSets, k: nat)
    requires k <= |ns|
  {
    (p.foundSPS || HasType(ns[..k], SPS_TYPE)) && (p.foundPPS || HasType(ns[..k], PPS_TYPE))
  }

  lemma HasTypeCons(n: Nal, ns: seq<Nal>, t: byte)
    ensures HasType([n] + ns, t) <==> NalType(n) == t || HasType(ns, t)
  {
    assert n in [n] + ns;
    assert forall m :: m in ns ==> m in [n] + ns;
  }

  lemma BothByCons(ns: seq<Nal>, p: ParameterSets, k: nat)
    requires 1 <= k <= |ns|
    ensures BothBy(ns, p, k) <==> BothBy(ns[1..], p.After(ns[0]), k - 1)
  {
    assert ns[..k] == [ns[0]] + ns[1..][..k - 1];
    HasTypeCons(ns[0], ns[1..][..k - 1], SPS_TYPE);
    HasTypeCons(ns[0], ns[1..][..k - 1], PPS_TYPE);
  }

  /**
    What the early stop leaves behind: extraction succeeds exactly when the stream has both an SPS
    and a PPS, and then each set is the last of its kind in the shortest prefix that has both.
   */
  lemma {:induction false} CollectFinds(ns: seq<Nal>, p: ParameterSets) returns (k: nat)
    ensures k <= |ns|
    ensures Collect(ns, p).Complete() <==> BothBy(ns, p, |ns|)
    ensures Collect(ns, p).Complete() <==> BothBy(ns, p, k)
    ensures forall j :: 0 <= j < k ==> !BothBy(ns, p, j)
    ensures Collect(ns, p).sps == LastOfType(ns[..k], SPS_TYPE, p.sps)
    ensures Collect(ns, p).pps == LastOfType(ns[..k], PPS_TYPE, p.pps)
  {
    if p.Complete() || ns == [] {
      k := 0;
      assert ns[..0] == [];
    } else {
      var n, rest := ns[0], ns[1..];
      var k' := CollectFinds(rest, p.After(n));
      k := k' + 1;
      BothByCons(ns, p, k);
      BothByCons(ns, p, |ns|);
      forall j | 0 <= j < k
        ensures !BothBy(ns, p, j)
      {
        if j > 0 {
          BothByCons(ns, p, j);
        } else {
          assert ns[..0] == [];
        }
      }
      assert ns[..k] == [n] + rest[..k'];
      LastOfTypeCons(n, rest[..k'], SPS_TYPE, p.sps);
      LastOfTypeCons(n, rest[..k'], PPS_TYPE, p.pps);
    }
  }

  method ExtractSPSPPS(data: seq<byte>, sps0: Nal, pps0: Nal) returns (ok: bool, sps: Nal, pps: Nal)
    requires NoBareEnd(data)
    ensures var r := Collect(Nals(data), ParameterSets(sps0, pps0, false, false));
            ok == r.Complete() && sps == r.sps && pps == r.pps
  {
    sps, pps := sps0, pps0;
    var foundSPS, foundPPS := false, false;
    var parser := new NalParser(data);
    ghost var goal := Collect(Nals(data), ParameterSets(sps0, pps0, false, false));
    while !(foundSPS && foundPPS)
      invariant fresh(parser) && parser.Valid() && parser.data == data
      invariant Collect(parser.Remaining(), ParameterSets(sps, pps, foundSPS, foundPPS)) == goal
      decreases |data| - parser.nextNalStartCodePos, !(foundSPS && foundPPS)
    {
      var more, t, n := NextUnit(parser);
      if !more {
        break;
      }
      assert ([n] + parser.Remaining())[1..] == parser.Remaining();
      if t == SPS_TYPE {
        sps, foundSPS := n, true;
      } else if t == PPS_TYPE {
        pps, foundPPS := n, true;
      }
    }
    ok := foundSPS && foundPPS;
  }

  /** The codec-specific data fits its allocation exactly and holds the two extracted units. */
  method ExtractCSDInfo(data: seq<byte>) returns (ok: bool, csd: array<byte>)
    requires NoBareEnd(data)
    ensures ok <==> HasType(Nals(data), SPS_TYPE) && HasType(Nals(data), PPS_TYPE)
    ensures ok ==>
              var r := Collect(Nals(data), ParameterSets([], [], false, false));
              && csd[..] == Print([r.sps, r.pps])
              && csd.Length == |r.sps| + |r.pps| + 8
              && Nals(csd[..]) == [r.sps, r.pps]
  {
    csd := new byte[0];
    var found, sps, pps := ExtractSPSPPS(data, [], []);
    ghost var k := CollectFinds(Nals(data), ParameterSets([], [], false, false));
    assert Nals(data)[..|Nals(data)|] == Nals(data);
    if !found {
      return false, csd;
    }
    csd := new byte[|sps| + |pps| + 8];
    var pos: nat := 0;
    ok, pos := CopyUnit(sps, csd, pos, []);
    ok, pos := CopyUnit(pps, csd, pos, [] + [sps]);
    assert csd[..] == csd[..pos] && [] + [sps] + [pps] == [sps, pps];
    CollectedUnitsAreClean(data);
    ScanInvertsPrint([sps, pps]);
  }

  lemma CollectedUnitsAreClean(data: seq<byte>)
    ensures var r := Collect(Nals(data), ParameterSets([], [], false, false));
            Clean(r.sps) && Clean(r.pps)
  {
    ScannedUnitsAreClean(data, NextStart(data, 0));
    CollectKeepsClean(Nals(data), ParameterSets([], [], false, false));
  }

  lemma {:induction false} CollectKeepsClean(ns: seq<Nal>, p: ParameterSets)
    requires Clean(p.sps) && Clean(p.pps) && forall n :: n in ns ==> Clean(n)
    ensures Clean(Collect(ns, p).sps) && Clean(Collect(ns, p).pps)
  {
    if !p.Complete() && ns != [] {
      CollectKeepsClean(ns[1..], p.After(ns[0]));
    }
  }

  // ----- prependSPSPPSToIDR -----

  /** The cached parameter sets, and whether this stream has shown one yet. */
  datatype Caches = Caches(sps: Nal, pps: Nal, seen: bool) {
    function After(n: Nal): Caches {
      if NalType(n) == SPS_TYPE then Caches(n, pps, true)
      else if NalType(n) == PPS_TYPE then Caches(sps, n, true)
      else this
    }

    /** n is a key frame that no parameter set precedes. */
    predicate Bare(n: Nal) { NalType(n) == IDR_TYPE && !seen }

    predicate Lacking(n: Nal) { Bare(n) && (sps == [] || pps == []) }

    /** What is written for n. */
    function Units(n: Nal): seq<Nal> { if Bare(n) then [sps, pps, n] else [n] }
  }

  /** Everything a rewrite leaves behind: the units written, the caches, and whether it finished. */
  datatype Rewrite = Rewrite(ok: bool, out: seq<Nal>, caches: Caches) {
    function Prepend(units: seq<Nal>): Rewrite { this.(out := units + out) }
  }

  function PrintedSize(units: seq<Nal>): nat {
    if units == [] then 0 else 4 + |units[0]| + PrintedSize(units[1..])
  }

  lemma {:induction false} PrintedSizeIsSize(units: seq<Nal>)
    ensures PrintedSize(units) == |Print(units)|
  {
    if units != [] {
      PrintedSizeIsSize(units[1..]);
    }
  }

  /**
    The rewrite of the units `ns` into `room` bytes. A unit that does not fit, or a key frame that
    needs an empty cache, ends it.
   */
  function Inject(ns: seq<Nal>, c: Caches, room: int): Rewrite {
    if ns == [] then Rewrite(true, [], c)
    else if c.Lacking(ns[0]) then Rewrite(false, [], c)
    else if PrintedSize(c.Units(ns[0])) > room then Rewrite(false, [], c.After(ns[0]))
    else Inject(ns[1..], c.After(ns[0]), room - PrintedSize(c.Units(ns[0]))).Prepend(c.Units(ns[0]))
  }

  /** Appends one unit to a printed list. */
  method CopyUnit(n: Nal, dst: array<byte>, pos: nat, ghost written: seq<Nal>) returns (ok: bool, pos': nat)
    requires pos <= dst.Length && dst[..pos] == Print(written)
    modifies dst
    ensures ok <==> 4 + |n| <= dst.Length - pos
    ensures ok ==> pos' == pos + 4 + |n| && dst[..pos'] == Print(written + [n])
  {
    SizeOfOne(n);
    PrintAppend(written, [n]);
    ok, pos' := CopyNALUPrependingStartCode(n, dst, pos);
  }

  /** One turn of the loop: the unit n, preceded by the cached sets when it is a bare key frame. */
  method RewriteUnit(n: Nal, t: byte, dst: array<byte>, pos: nat, c: Caches, ghost written: seq<Nal>)
      returns (ok: bool, pos': nat, c': Caches)
    requires pos <= dst.Length && t == NalType(n) && dst[..pos] == Print(written)
    modifies dst
    ensures c' == c.After(n)
    ensures ok <==> !c.Lacking(n) && PrintedSize(c.Units(n)) <= dst.Length - pos
    ensures ok ==> pos' == pos + PrintedSize(c.Units(n)) && pos' <= dst.Length
    ensures ok ==> dst[..pos'] == Print(written + c.Units(n))
  {
    ok, pos', c' := true, pos, c;
    SizeOfOne(n);
    if t == SPS_TYPE {
      c' := Caches(n, c.pps, true);
    } else if t == PPS_TYPE {
      c' := Caches(c.sps, n, true);
    } else if t == IDR_TYPE && !c.seen {
      SizeOfThree(c.sps, c.pps, n);
      if c.sps == [] || c.pps == [] {
        ok := false;
        return;
      }
      ok, pos' := CopyUnit(c.sps, dst, pos', written);
      if !ok {
        return;
      }
      ok, pos' := CopyUnit(c.pps, dst, pos', written + [c.sps]);
      if !ok {
        return;
      }
      ok, pos' := CopyUnit(n, dst, pos', written + [c.sps] + [c.pps]);
      assert written + [c.sps] + [c.pps] + [n] == written + [c.sps, c.pps, n];
      return;
    }
    ok, pos' := CopyUnit(n, dst, pos', written);
  }

  /** The same turn, seen as progress towards the rewrite of the whole stream. */
  method RewriteTurn(n: Nal, t: byte, dst: array<byte>, pos: nat, c: Caches,
                     ghost written: seq<Nal>, ghost rest: seq<Nal>, ghost goal: Rewrite)
      returns (ok: bool, pos': nat, c': Caches, ghost written': seq<Nal>)
    requires pos <= dst.Length && t == NalType(n) && dst[..pos] == Print(written)
    requires goal == Inject([n] + rest, c, dst.Length - pos).Prepend(written)
    modifies dst
    ensures ok ==>
              && pos' <= dst.Length && dst[..pos'] == Print(written')
              && goal == Inject(rest, c', dst.Length - pos').Prepend(written')
    ensures !ok ==> !goal.ok && goal.caches == c'
  {
    InjectTurn(n, rest, c, dst.Length - pos, written);
    ok, pos', c' := RewriteUnit(n, t, dst, pos, c, written);
    written' := written + c.Units(n);
  }

  method PrependSPSPPSToIDR(src: seq<byte>, dst: array<byte>, sps0: Nal, pps0: Nal)
      returns (size: nat, sps: Nal, pps: Nal)
    requires NoBareEnd(src)
    modifies dst
    ensures var r := Inject(Nals(src), Caches(sps0, pps0, false), dst.Length);
            && sps == r.caches.sps && pps == r.caches.pps
            && size == (if r.ok then |Print(r.out)| else 0)
            && size <= dst.Length
            && (r.ok ==> dst[..size] == Print(r.out))
  {
    var c := Caches(sps0, pps0, false);
    var pos: nat := 0;
    var parser := new NalParser(src);
    ghost var goal := Inject(Nals(src), c, dst.Length);
    ghost var written: seq<Nal> := [];
    while true
      invariant fresh(parser) && parser.Valid() && parser.data == src
      invariant pos <= dst.Length && dst[..pos] == Print(written)
      invariant goal == Inject(parser.Remaining(), c, dst.Length - pos).Prepend(written)
      decreases |src| - parser.nextNalStartCodePos
    {
      var more, t, n := NextUnit(parser);
      if !more {
        break;
      }
      var ok;
      ok, pos, c, written := RewriteTurn(n, t, dst, pos, c, written, parser.Remaining(), goal);
      if !ok {
        return 0, c.sps, c.pps;
      }
    }
    assert written + [] == written;
    return pos, c.sps, c.pps;
  }

  /** One turn of the loop moves a unit from the input to what has been written, or ends the rewrite. */
  lemma InjectTurn(n: Nal, rest: seq<Nal>, c: Caches, room: int, written: seq<Nal>)
    ensures var units, c' := c.Units(n), c.After(n);
            if !c.Lacking(n) && PrintedSize(units) <= room then
              Inject([n] + rest, c, room).Prepend(written)
              == Inject(rest, c', room - PrintedSize(units)).Prepend(written + units)
            else
              Inject([n] + rest, c, room) == Rewrite(false, [], c')
  {
    var units := c.Units(n);
    assert ([n] + rest)[1..] == rest;
    var r := Inject(rest, c.After(n), room - PrintedSize(units));
    assert written + (units + r.out) == (written + units) + r.out;
  }

  lemma SizeOfOne(n: Nal)
    ensures PrintedSize([n]) == 4 + |n| && Print([n]) == Framed(n)
  {
    assert [n][1..] == [];
  }

  lemma SizeOfThree(a: Nal, b: Nal, c: Nal)
    ensures PrintedSize([a, b, c]) == 12 + |a| + |b| + |c|
    ensures [a, b, c] == [a] + [b] + [c]
  {
    assert [a, b, c][1..] == [b, c] && [b, c][1..] == [c];
    SizeOfOne(c);
  }

  // ----- What a rewrite means -----

  /** An SPS or a PPS lies in the list. */
  predicate HasParams(ns: seq<Nal>) {
    HasType(ns, SPS_TYPE) || HasType(ns, PPS_TYPE)
  }

  /** Unit i is a key frame with no parameter set before it in this stream. */
  predicate BareAt(ns: seq<Nal>, i: nat, seen: bool)
    requires i < |ns|
  {
    NalType(ns[i]) == IDR_TYPE && !seen && !HasParams(ns[..i])
  }

  predicate NeedsParams(ns: seq<Nal>, seen: bool) {
    exists i | 0 <= i < |ns| :: BareAt(ns, i, seen)
  }

  /**
    The reference rewrite of the first k units, which mentions no cache update: every unit stays in
    its place, and the initial caches go before each bare key frame.
   */
  function Expanded(ns: seq<Nal>, k: nat, c: Caches): seq<Nal>
    requires k <= |ns|
  {
    if k == 0 then []
    else Expanded(ns, k - 1, c)
         + (if BareAt(ns, k - 1, c.seen) then [c.sps, c.pps, ns[k - 1]] else [ns[k - 1]])
  }

  lemma BareAtCons(ns: seq<Nal>, i: nat, c: Caches)
    requires 1 <= i < |ns|
    ensures BareAt(ns, i, c.seen) <==> BareAt(ns[1..], i - 1, c.After(ns[0]).seen)
  {
    assert ns[..i] == [ns[0]] + ns[1..][..i - 1];
    HasTypeCons(ns[0], ns[1..][..i - 1], SPS_TYPE);
    HasTypeCons(ns[0], ns[1..][..i - 1], PPS_TYPE);
  }

  lemma {:induction false} ExpandedCons(ns: seq<Nal>, k: nat, c: Caches)
    requires 1 <= k <= |ns|
    ensures Expanded(ns, k, c) == c.Units(ns[0]) + Expanded(ns[1..], k - 1, c.After(ns[0]))
  {
    assert ns[..0] == [];
    if k > 1 {
      ExpandedCons(ns, k - 1, c);
      BareAtCons(ns, k - 1, c);
    }
  }

  lemma NeedsParamsCons(ns: seq<Nal>, c: Caches)
    requires ns != []
    ensures NeedsParams(ns, c.seen) <==> c.Bare(ns[0]) || NeedsParams(ns[1..], c.After(ns[0]).seen)
  {
    assert ns[..0] == [];
    assert BareAt(ns, 0, c.seen) <==> c.Bare(ns[0]);
    forall i | 1 <= i < |ns|
      ensures BareAt(ns, i, c.seen) <==> BareAt(ns[1..], i - 1, c.After(ns[0]).seen)
    {
      BareAtCons(ns, i, c);
    }
    if NeedsParams(ns[1..], c.After(ns[0]).seen) {
      var j :| 0 <= j < |ns[1..]| && BareAt(ns[1..], j, c.After(ns[0]).seen);
      assert BareAt(ns, j + 1, c.seen);
    }
  }

  lemma {:induction false} PrintedSizeAppend(a: seq<Nal>, b: seq<Nal>)
    ensures PrintedSize(a + b) == PrintedSize(a) + PrintedSize(b)
  {
    if a == [] {
      assert a + b == b;
    } else {
      PrintedSizeAppend(a[1..], b);
      assert (a + b)[1..] == a[1..] + b;
    }
  }

  /**
    The rewrite succeeds exactly when the reference output fits and, if a key frame comes before any
    parameter set, both caches are filled; then it wrote exactly the reference output.
   */
  lemma {:induction false} InjectMeans(ns: seq<Nal>, c: Caches, room: nat)
    ensures Inject(ns, c, room).ok
            <==> && PrintedSize(Expanded(ns, |ns|, c)) <= room
                 && (NeedsParams(ns, c.seen) ==> c.sps != [] && c.pps != [])
    ensures Inject(ns, c, room).ok ==> Inject(ns, c, room).out == Expanded(ns, |ns|, c)
  {
    if ns != [] {
      var units, rest, c' := c.Units(ns[0]), ns[1..], c.After(ns[0]);
      var all, later := Expanded(ns, |ns|, c), Expanded(rest, |rest|, c');
      assert all == units + later && PrintedSize(all) == PrintedSize(units) + PrintedSize(later) by {
        ExpandedCons(ns, |ns|, c);
        PrintedSizeAppend(units, later);
      }
      NeedsParamsCons(ns, c);
      if PrintedSize(units) <= room {
        InjectMeans(rest, c', room - PrintedSize(units));
      }
    }
  }

  /** After a finished rewrite the caches hold the last SPS and the last PPS of the stream. */
  lemma {:induction false} InjectCaches(ns: seq<Nal>, c: Caches, room: int)
    requires Inject(ns, c, room).ok
    ensures Inject(ns, c, room).caches
            == Caches(LastOfType(ns, SPS_TYPE, c.sps), LastOfType(ns, PPS_TYPE, c.pps), c.seen || HasParams(ns))
  {
    if ns != [] {
      assert ns == [ns[0]] + ns[1..];
      LastOfTypeCons(ns[0], ns[1..], SPS_TYPE, c.sps);
      LastOfTypeCons(ns[0], ns[1..], PPS_TYPE, c.pps);
      HasTypeCons(ns[0], ns[1..], SPS_TYPE);
      HasTypeCons(ns[0], ns[1..], PPS_TYPE);
      InjectCaches(ns[1..], c.After(ns[0]), room - PrintedSize(c.Units(ns[0])));
    }
  }

  // ----- The stream after a rewrite -----

  /** What the encoder's caches always satisfy: scanned units of the right type, or still empty. */
  ghost predicate CacheInvariant(c: Caches) {
    && Clean(c.sps) && (c.sps != [] ==> NalType(c.sps) == SPS_TYPE)
    && Clean(c.pps) && (c.pps != [] ==> NalType(c.pps) == PPS_TYPE)
  }

  lemma {:induction false} InjectKeepsCaches(ns: seq<Nal>, c: Caches, room: int)
    requires CacheInvariant(c) && forall n :: n in ns ==> Clean(n)
    ensures CacheInvariant(Inject(ns, c, room).caches)
  {
    if ns != [] {
      InjectKeepsCaches(ns[1..], c.After(ns[0]), room - PrintedSize(c.Units(ns[0])));
    }
  }

  lemma {:induction false} ExpandedUnits(ns: seq<Nal>, k: nat, c: Caches)
    requires k <= |ns|
    ensures forall u :: u in Expanded(ns, k, c) ==> u in ns || u == c.sps || u == c.pps
  {
    if k > 0 {
      ExpandedUnits(ns, k - 1, c);
    }
  }

  /**
    A rewritten stream, read back by the parser, is the input's list of units with the cached SPS
    and PPS in front of every key frame that had no parameter set before it, and nothing else. The
    caches stay fit for the next call, whether or not this one succeeded.
   */
  lemma RewriteReadsBack(src: seq<byte>, c: Caches, room: nat)
    requires CacheInvariant(c)
    ensures CacheInvariant(Inject(Nals(src), c, room).caches)
    ensures Inject(Nals(src), c, room).ok ==>
              Nals(Print(Inject(Nals(src), c, room).out)) == Expanded(Nals(src), |Nals(src)|, c)
  {
    var ns := Nals(src);
    ScannedUnitsAreClean(src, NextStart(src, 0));
    InjectKeepsCaches(ns, c, room);
    InjectMeans(ns, c, room);
    ExpandedUnits(ns, |ns|, c);
    ScanInvertsPrint(Expanded(ns, |ns|, c));
  }

  /** A list in which every key frame already has a parameter set before it is left alone. */
  lemma {:induction false} NothingToInject(ns: seq<Nal>, k: nat, c: Caches)
    requires k <= |ns| && !NeedsParams(ns, c.seen)
    ensures Expanded(ns, k, c) == ns[..k]
  {
    if k > 0 {
      NothingToInject(ns, k - 1, c);
    }
  }

  lemma HasParamsAppend(a: seq<Nal>, b: seq<Nal>)
    ensures HasParams(a + b) <==> HasParams(a) || HasParams(b)
  {
    assert forall u :: u in a + b <==> u in a || u in b;
  }

  /** The reference output never has a key frame before its first parameter set. */
  lemma {:induction false} ExpandedIsSettled(ns: seq<Nal>, k: nat, c: Caches)
    requires k <= |ns| && !c.seen && NalType(c.sps) == SPS_TYPE && NalType(c.pps) == PPS_TYPE
    ensures !NeedsParams(Expanded(ns, k, c), false)
    ensures HasParams(ns[..k]) ==> HasParams(Expanded(ns, k, c))
  {
    if k > 0 {
      ExpandedIsSettled(ns, k - 1, c);
      var front := Expanded(ns, k - 1, c);
      var units := if BareAt(ns, k - 1, false) then [c.sps, c.pps, ns[k - 1]] else [ns[k - 1]];
      var out := Expanded(ns, k, c);
      assert out == front + units;
      HasParamsAppend(front, units);
      assert ns[..k] == ns[..k - 1] + [ns[k - 1]];
      HasParamsAppend(ns[..k - 1], [ns[k - 1]]);
      forall i | 0 <= i < |out|
        ensures !BareAt(out, i, false)
      {
        if i < |front| {
          assert out[..i] == front[..i] && !BareAt(front, i, false);
        } else {
          assert out[..i] == front + units[..i - |front|];
          HasParamsAppend(front, units[..i - |front|]);
          if i == |front| + 2 {
            assert units[0] in units[..2];
          }
        }
      }
    }
  }

  lemma SettledRewrite(ns: seq<Nal>, c: Caches, room: nat)
    requires !NeedsParams(ns, c.seen)
    ensures Inject(ns, c, room).ok <==> |Print(ns)| <= room
    ensures Inject(ns, c, room).ok ==> Inject(ns, c, room).out == ns
  {
    InjectMeans(ns, c, room);
    NothingToInject(ns, |ns|, c);
    assert ns[..|ns|] == ns;
    PrintedSizeIsSize(ns);
  }

  lemma RewriteIsSettled(ns: seq<Nal>, c: Caches, room: nat)
    requires CacheInvariant(c) && !c.seen && Inject(ns, c, room).ok
    ensures !NeedsParams(Inject(ns, c, room).out, false)
  {
    InjectMeans(ns, c, room);
    if NeedsParams(ns, false) {
      ExpandedIsSettled(ns, |ns|, c);
    } else {
      NothingToInject(ns, |ns|, c);
      assert ns[..|ns|] == ns;
    }
  }

  /**
    Rewriting twice is rewriting once: on a rewritten stream a second pass, with any caches, writes
    exactly the same bytes, and succeeds whenever they fit.
   */
  lemma SecondRewriteInjectsNothing(src: seq<byte>, c: Caches, room: nat, c2: Caches, room2: nat)
    requires CacheInvariant(c) && !c.seen && !c2.seen && Inject(Nals(src), c, room).ok
    ensures var once := Print(Inject(Nals(src), c, room).out);
            var twice := Inject(Nals(once), c2, room2);
            && (twice.ok <==> |once| <= room2)
            && (twice.ok ==> Print(twice.out) == once)
  {
    var out := Inject(Nals(src), c, room).out;
    RewriteIsSettled(Nals(src), c, room);
    RewriteReadsBack(src, c, room);
    InjectMeans(Nals(src), c, room);
    SettledRewrite(out, c2, room2);
  }
}

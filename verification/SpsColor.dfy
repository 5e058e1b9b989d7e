/**
  Colour aspects in a sequence parameter set. The parser skips its way through the SPS (section
  7.3.2.1.1 of ITU-T H.264) to the colour description in the VUI parameters (section E.1.1). Here is
  that walk, the standard's own syntax as a writer, and the proof that the walk returns exactly the
  colour description of every SPS the writer can produce, and none where there is none, for all
  profiles but four that the parser does not know.
 */
module SpsColor {
  import opened BitReader
  import opened Options
  import NalStream

  datatype ColorAspects = ColorAspects(primaries: nat, transfer: nat, coeffs: nat, fullRange: bool)

  /** profile_idc values the parser treats as carrying the chroma and scaling fields. */
  const HIGH_PROFILES: set<nat> := {100, 110, 122, 244, 44, 83, 86, 118, 128}

  /** profile_idc values that carry these fields in section 7.3.2.1.1, but not in the parser's list. */
  const MISSED_PROFILES: set<nat> := {138, 139, 134, 135}

  predicate CarriesHigh(profile: nat) {
    profile in HIGH_PROFILES || profile in MISSED_PROFILES
  }

  // ----- The walk -----

  /** Where a stage of the walk ends: it gave up, or it stopped in front of these bits. */
  datatype Walk = Fail | At(rest: Bits)

  function AfterUE(bs: Bits): Bits { ParseUE(bs).rest }

  function AfterSE(bs: Bits): Bits { ParseSE(bs).rest }

  function Clamp(d: int): int {
    if d < -128 then -128 else if d > 127 then 127 else d
  }

  function NextScale(last: nat, delta: int): nat {
    (last + (Clamp(delta) + 256)) % 256
  }

  /** skipScalingList with n entries to go. */
  function WalkScalingList(bs: Bits, n: nat, last: nat, next: nat): Walk
    decreases n
  {
    if n == 0 then At(bs)
    else if next == 0 then WalkScalingList(bs, n - 1, last, 0)
    else
      var r := ParseSE(bs);
      if !r.ok then Fail
      else
        var next' := NextScale(last, r.value);
        WalkScalingList(r.rest, n - 1, if next' == 0 then last else next', next')
  }

  function ListSize(i: nat): nat { if i < 6 then 16 else 64 }

  /** skipScalingMatrix from list i on. */
  function WalkScalingMatrix(bs: Bits, i: nat, count: nat): Walk
    requires i <= count
    decreases count - i
  {
    if i == count then At(bs)
    else
      var flag := GetBits(1, bs);
      if !flag.ok then Fail
      else if flag.value == 0 then WalkScalingMatrix(flag.rest, i + 1, count)
      else
        match WalkScalingList(flag.rest, ListSize(i), 8, 8)
        case Fail => Fail
        case At(rest) => WalkScalingMatrix(rest, i + 1, count)
  }

  /** The bit depths and the scaling matrix of `lists` lists. */
  function WalkDepths(bs: Bits, lists: nat): Walk {
    var matrix := GetBits(1, SkipBits(1, AfterUE(AfterUE(bs))));
    if !matrix.ok then Fail
    else if matrix.value == 0 then At(matrix.rest)
    else WalkScalingMatrix(matrix.rest, 0, lists)
  }

  /** chroma_format_idc up to the scaling matrix. */
  function WalkHighFields(bs: Bits): Walk {
    var chroma := ParseUE(bs);
    if !chroma.ok then Fail
    else if chroma.value == 3 then WalkDepths(SkipBits(1, chroma.rest), 12)
    else WalkDepths(chroma.rest, 8)
  }

  /** profile_idc up to the end of the profile-dependent fields. */
  function WalkHeader(bs: Bits): Walk {
    var profile := GetBits(8, bs);
    if !profile.ok then Fail
    else
      var b := AfterUE(SkipBits(16, profile.rest));
      if profile.value in HIGH_PROFILES then WalkHighFields(b) else At(b)
  }

  /** offset_for_ref_frame, n times; the parser reads these signed codes with parseUE. */
  function SkipOffsets(bs: Bits, n: nat): Bits
    decreases n
  {
    if n == 0 then bs else SkipOffsets(AfterUE(bs), n - 1)
  }

  /** log2_max_frame_num_minus4 and the picture order count fields. */
  function WalkPicOrder(bs: Bits): Walk {
    var poc := ParseUE(AfterUE(bs));
    if !poc.ok then Fail
    else if poc.value == 0 then At(AfterUE(poc.rest))
    else if poc.value == 1 then
      var cycle := ParseUE(AfterSE(AfterSE(SkipBits(1, poc.rest))));
      if !cycle.ok then Fail else At(SkipOffsets(cycle.rest, cycle.value))
    else At(poc.rest)
  }

  /** num_ref_frames up to the cropping rectangle. */
  function WalkGeometry(bs: Bits): Walk {
    var frameMbsOnly := GetBits(1, AfterUE(AfterUE(SkipBits(1, AfterUE(bs)))));
    if !frameMbsOnly.ok then Fail
    else
      var b1 := if frameMbsOnly.value == 0 then SkipBits(1, frameMbsOnly.rest) else frameMbsOnly.rest;
      var crop := GetBits(1, SkipBits(1, b1));
      if !crop.ok then Fail
      else if crop.value == 0 then At(crop.rest)
      else At(AfterUE(AfterUE(AfterUE(AfterUE(crop.rest)))))
  }

  /** aspect_ratio_info and overscan_info. */
  function WalkVuiStart(bs: Bits): Walk {
    var aspect := GetBits(1, bs);
    if !aspect.ok then Fail
    else
      var idc := GetBits(8, aspect.rest);
      if aspect.value != 0 && !idc.ok then Fail
      else
        var b1 := if aspect.value == 0 then aspect.rest
                  else if idc.value == 255 then SkipBits(32, idc.rest) else idc.rest;
        var overscan := GetBits(1, b1);
        if !overscan.ok then Fail
        else At(if overscan.value != 0 then SkipBits(1, overscan.rest) else overscan.rest)
  }

  /** video_signal_type and the colour description. */
  function ColorsAt(bs: Bits): Option<ColorAspects> {
    var signal := GetBits(1, bs);
    if !signal.ok || signal.value == 0 then None
    else
      var range := GetBits(1, SkipBits(3, signal.rest));
      var described := GetBits(1, range.rest);
      if !range.ok || !described.ok || described.value == 0 then None
      else
        var primaries := GetBits(8, described.rest);
        var transfer := GetBits(8, primaries.rest);
        var coeffs := GetBits(8, transfer.rest);
        if primaries.ok && transfer.ok && coeffs.ok
        then Some(ColorAspects(primaries.value, transfer.value, coeffs.value, range.value != 0))
        else None
  }

  /** findCodedColorAspects on the bits behind the unit's first byte. */
  function FindColors(bs: Bits): Option<ColorAspects> {
    match WalkHeader(bs)
    case Fail => None
    case At(b1) =>
      match WalkPicOrder(b1)
      case Fail => None
      case At(b2) =>
        match WalkGeometry(b2)
        case Fail => None
        case At(b3) =>
          var vui := GetBits(1, b3);
          if !vui.ok || vui.value == 0 then None
          else
            match WalkVuiStart(vui.rest)
            case Fail => None
            case At(b4) => ColorsAt(b4)
  }

  // ----- The syntax of the standard -----

  type Delta = x: int | -128 <= x <= 127

  type ScalingList = Option<seq<Delta>>

  datatype High = High(chromaFormat: Ue, separatePlanes: bool, lumaDepth: Ue, chromaDepth: Ue,
                       lossless: bool, matrix: Option<seq<ScalingList>>)
  {
    function Lists(): nat { if chromaFormat != 3 then 8 else 12 }

    /** One entry per list of the matrix, one delta per coefficient of each list present. */
    predicate Valid() {
      matrix.Some? ==>
        && |matrix.value| == Lists()
        && forall i | 0 <= i < |matrix.value| :: matrix.value[i].Some? ==> |matrix.value[i].value| == ListSize(i)
    }
  }

  datatype PicOrder =
    | Type0(log2MaxLsb: Ue)
    | Type1(alwaysZero: bool, nonRef: Se, topToBottom: Se, offsets: seq<Se>)
    | Type2

  datatype Crop = Crop(left: Ue, right: Ue, top: Ue, bottom: Ue)

  datatype Aspect = Aspect(idc: nat, sar: nat)

  datatype VideoSignal = VideoSignal(format: nat, fullRange: bool, colour: Option<Colour>)

  datatype Colour = Colour(primaries: nat, transfer: nat, coeffs: nat)

  datatype Vui = Vui(aspect: Option<Aspect>, overscan: Option<bool>, signal: Option<VideoSignal>)
  {
    predicate Valid() {
      && (aspect.Some? ==> aspect.value.idc < 256 && aspect.value.sar < TWO_32)
      && (signal.Some? ==>
            && signal.value.format < 8
            && (signal.value.colour.Some? ==>
                  var c := signal.value.colour.value;
                  c.primaries < 256 && c.transfer < 256 && c.coeffs < 256))
    }
  }

  datatype Sps = Sps(profile: nat, constraintsAndLevel: nat, id: Ue, high: High, log2MaxFrameNum: Ue,
                     picOrder: PicOrder, maxRefFrames: Ue, gaps: bool, width: Ue, height: Ue,
                     fields: Option<bool>, direct8x8: bool, crop: Option<Crop>, vui: Option<Vui>)
  {
    predicate Valid() {
      && profile < 256 && constraintsAndLevel < 0x1_0000
      && high.Valid()
      && (picOrder.Type1? ==> |picOrder.offsets| <= 0xFFFF_FFFE)
      && (vui.Some? ==> vui.value.Valid())
    }

    /** The colour description this parameter set carries. */
    function Colors(): Option<ColorAspects> {
      if vui.Some? && vui.value.signal.Some? && vui.value.signal.value.colour.Some? then
        var signal := vui.value.signal.value;
        var c := signal.colour.value;
        Some(ColorAspects(c.primaries, c.transfer, c.coeffs, signal.fullRange))
      else None
    }
  }

  // Each Put function is the syntax table of the standard, written in front of the bits that follow.

  /** scaling_list(): a delta is present only while the next scale is not zero. */
  function PutScalingList(deltas: seq<Delta>, last: nat, next: nat, rest: Bits): Bits {
    if deltas == [] then rest
    else if next == 0 then PutScalingList(deltas[1..], last, 0, rest)
    else
      var next' := (last + deltas[0] + 256) % 256;
      SE(deltas[0]) + PutScalingList(deltas[1..], if next' == 0 then last else next', next', rest)
  }

  function PutLists(lists: seq<ScalingList>, rest: Bits): Bits {
    if lists == [] then rest
    else
      var later := PutLists(lists[1..], rest);
      Flag(lists[0].Some?) + (if lists[0].Some? then PutScalingList(lists[0].value, 8, 8, later) else later)
  }

  function PutDepths(h: High, rest: Bits): Bits {
    UE(h.lumaDepth) + (UE(h.chromaDepth) + (Flag(h.lossless) + (Flag(h.matrix.Some?)
    + (if h.matrix.Some? then PutLists(h.matrix.value, rest) else rest))))
  }

  function PutHigh(h: High, rest: Bits): Bits {
    UE(h.chromaFormat)
    + (if h.chromaFormat == 3 then Flag(h.separatePlanes) + PutDepths(h, rest) else PutDepths(h, rest))
  }

  function PutHeader(s: Sps, rest: Bits): Bits {
    Fixed(8, s.profile) + (Fixed(16, s.constraintsAndLevel)
    + (UE(s.id) + (if CarriesHigh(s.profile) then PutHigh(s.high, rest) else rest)))
  }

  function PutOffsets(offsets: seq<Se>, rest: Bits): Bits {
    if offsets == [] then rest else SE(offsets[0]) + PutOffsets(offsets[1..], rest)
  }

  function PutPicOrder(s: Sps, rest: Bits): Bits {
    UE(s.log2MaxFrameNum) +
    match s.picOrder
    case Type0(lsb) => UE(0) + (UE(lsb) + rest)
    case Type1(zero, nonRef, topToBottom, offsets) =>
      UE(1) + (Flag(zero) + (SE(nonRef) + (SE(topToBottom) + (UE(|offsets|) + PutOffsets(offsets, rest)))))
    case Type2 => UE(2) + rest
  }

  function PutCrop(crop: Option<Crop>, rest: Bits): Bits {
    Flag(crop.Some?) +
    match crop
    case None => rest
    case Some(c) => UE(c.left) + (UE(c.right) + (UE(c.top) + (UE(c.bottom) + rest)))
  }

  function PutGeometry(s: Sps, rest: Bits): Bits {
    var inference := Flag(s.direct8x8) + PutCrop(s.crop, rest);
    UE(s.maxRefFrames) + (Flag(s.gaps) + (UE(s.width) + (UE(s.height)
    + (Flag(s.fields.None?) + (if s.fields.Some? then Flag(s.fields.value) + inference else inference)))))
  }

  function PutVuiStart(v: Vui, rest: Bits): Bits {
    var overscan := Flag(v.overscan.Some?) + (if v.overscan.Some? then Flag(v.overscan.value) + rest else rest);
    Flag(v.aspect.Some?) +
    match v.aspect
    case None => overscan
    case Some(a) => Fixed(8, a.idc) + (if a.idc == 255 then Fixed(32, a.sar) + overscan else overscan)
  }

  function PutSignal(signal: Option<VideoSignal>, rest: Bits): Bits {
    Flag(signal.Some?) +
    match signal
    case None => rest
    case Some(v) =>
      Fixed(3, v.format) + (Flag(v.fullRange) + (Flag(v.colour.Some?) +
      match v.colour
      case None => rest
      case Some(c) => Fixed(8, c.primaries) + (Fixed(8, c.transfer) + (Fixed(8, c.coeffs) + rest))))
  }

  /** seq_parameter_set_data() up to the colour description, then whatever follows it. */
  function PutSps(s: Sps, rest: Bits): Bits {
    var vui := Flag(s.vui.Some?)
      + (if s.vui.Some? then PutVuiStart(s.vui.value, PutSignal(s.vui.value.signal, rest)) else rest);
    PutHeader(s, PutPicOrder(s, PutGeometry(s, vui)))
  }

  // ----- The walk reads what the standard writes -----

  lemma SkipFlag(b: bool, rest: Bits)
    ensures SkipBits(1, Flag(b) + rest) == rest
  {
    GetFlag(b, rest);
  }

  lemma SkipUE(k: Ue, rest: Bits)
    ensures AfterUE(UE(k) + rest) == rest
  {
    ParseWritesUE(k, rest);
  }

  lemma SkipSE(v: Se, rest: Bits)
    ensures AfterSE(SE(v) + rest) == rest && AfterUE(SE(v) + rest) == rest
  {
    ParseWritesSE(v, rest);
  }

  lemma SmallPowers()
    ensures Pow2(3) == 8 && Pow2(8) == 256 && Pow2(16) == 0x1_0000 && Pow2(32) == TWO_32
  {
    Pow2Of32();
    assert Pow2(8) == 256;
    assert Pow2(16) == 0x1_0000;
  }

  lemma WalkOneDelta(bs: Bits, delta: Delta, more: Bits, n: nat, last: nat, next: nat)
    requires ParseSE(bs) == Read(true, delta, more) && n > 0 && next != 0
    ensures var next' := (last + delta + 256) % 256;
            WalkScalingList(bs, n, last, next)
            == WalkScalingList(more, n - 1, if next' == 0 then last else next', next')
  {
  }

  lemma WalkNoDelta(bs: Bits, n: nat, last: nat)
    requires n > 0
    ensures WalkScalingList(bs, n, last, 0) == WalkScalingList(bs, n - 1, last, 0)
  {
  }

  lemma {:induction false} WalkReadsScalingList(deltas: seq<Delta>, last: nat, next: nat, rest: Bits)
    ensures WalkScalingList(PutScalingList(deltas, last, next, rest), |deltas|, last, next) == At(rest)
  {
    if deltas != [] {
      hide WalkScalingList, ParseSE, SE;
      var bs := PutScalingList(deltas, last, next, rest);
      if next == 0 {
        WalkNoDelta(bs, |deltas|, last);
        WalkReadsScalingList(deltas[1..], last, 0, rest);
      } else {
        var next' := (last + deltas[0] + 256) % 256;
        var last' := if next' == 0 then last else next';
        var more := PutScalingList(deltas[1..], last', next', rest);
        assert ParseSE(bs) == Read(true, deltas[0], more) by {
          ParseWritesSE(deltas[0], more);
        }
        WalkOneDelta(bs, deltas[0], more, |deltas|, last, next);
        WalkReadsScalingList(deltas[1..], last', next', rest);
      }
    }
  }

  lemma WalkOneList(bs: Bits, list: ScalingList, body: Bits, later: Bits, i: nat, count: nat)
    requires i < count && GetBits(1, bs) == Read(true, if list.Some? then 1 else 0, body)
    requires if list.Some? then WalkScalingList(body, ListSize(i), 8, 8) == At(later) else body == later
    ensures WalkScalingMatrix(bs, i, count) == WalkScalingMatrix(later, i + 1, count)
  {
  }

  lemma {:induction false} WalkReadsLists(lists: seq<ScalingList>, i: nat, rest: Bits)
    requires forall j | 0 <= j < |lists| :: lists[j].Some? ==> |lists[j].value| == ListSize(i + j)
    ensures WalkScalingMatrix(PutLists(lists, rest), i, i + |lists|) == At(rest)
    decreases |lists|
  {
    if lists != [] {
      var bs, later := PutLists(lists, rest), PutLists(lists[1..], rest);
      var body := if lists[0].Some? then PutScalingList(lists[0].value, 8, 8, later) else later;
      assert GetBits(1, bs) == Read(true, if lists[0].Some? then 1 else 0, body) by {
        GetFlag(lists[0].Some?, body);
      }
      if lists[0].Some? {
        WalkReadsScalingList(lists[0].value, 8, 8, later);
      }
      WalkOneList(bs, lists[0], body, later, i, i + |lists|);
      WalkReadsLists(lists[1..], i + 1, rest);
    }
  }

  lemma WalkReadsDepths(h: High, rest: Bits)
    requires h.Valid()
    ensures WalkDepths(PutDepths(h, rest), h.Lists()) == At(rest)
  {
    var lists := if h.matrix.Some? then PutLists(h.matrix.value, rest) else rest;
    var b3 := Flag(h.matrix.Some?) + lists;
    var b2 := Flag(h.lossless) + b3;
    var b1 := UE(h.chromaDepth) + b2;
    SkipUE(h.lumaDepth, b1);
    SkipUE(h.chromaDepth, b2);
    SkipFlag(h.lossless, b3);
    GetFlag(h.matrix.Some?, lists);
    if h.matrix.Some? {
      WalkReadsLists(h.matrix.value, 0, rest);
    }
  }

  lemma WalkReadsHigh(h: High, rest: Bits)
    requires h.Valid()
    ensures WalkHighFields(PutHigh(h, rest)) == At(rest)
  {
    var depths := PutDepths(h, rest);
    ParseWritesUE(h.chromaFormat, if h.chromaFormat == 3 then Flag(h.separatePlanes) + depths else depths);
    SkipFlag(h.separatePlanes, depths);
    WalkReadsDepths(h, rest);
  }

  lemma WalkToHighFields(s: Sps, fields: Bits)
    requires s.Valid()
    ensures WalkHeader(Fixed(8, s.profile) + (Fixed(16, s.constraintsAndLevel) + (UE(s.id) + fields)))
            == if s.profile in HIGH_PROFILES then WalkHighFields(fields) else At(fields)
  {
    SmallPowers();
    var b1 := UE(s.id) + fields;
    var b2 := Fixed(16, s.constraintsAndLevel) + b1;
    GetFixed(8, s.profile, b2);
    GetFixed(16, s.constraintsAndLevel, b1);
    SkipUE(s.id, fields);
  }

  /** Where the walk over the header ends: in front of what follows, or of the fields of a missed profile. */
  lemma WalkOverHeader(s: Sps, rest: Bits)
    requires s.Valid()
    ensures WalkHeader(PutHeader(s, rest)) == At(if s.profile in MISSED_PROFILES then PutHigh(s.high, rest) else rest)
  {
    hide WalkHeader, WalkHighFields, PutHigh, UE;
    WalkToHighFields(s, if CarriesHigh(s.profile) then PutHigh(s.high, rest) else rest);
    WalkReadsHigh(s.high, rest);
  }

  /** The header is consumed exactly if and only if the parser knows of the profile's fields. */
  lemma WalkReadsHeader(s: Sps, rest: Bits)
    requires s.Valid()
    ensures WalkHeader(PutHeader(s, rest)) == At(rest) <==> s.profile !in MISSED_PROFILES
  {
    WalkOverHeader(s, rest);
    HighIsLonger(s.high, rest);
  }

  lemma HighIsLonger(h: High, rest: Bits)
    ensures |PutHigh(h, rest)| > |rest|
  {
    if h.matrix.Some? {
      ListsAreLonger(h.matrix.value, rest);
    }
  }

  lemma {:induction false} ListsAreLonger(lists: seq<ScalingList>, rest: Bits)
    ensures |PutLists(lists, rest)| >= |rest|
  {
    if lists != [] {
      var later := PutLists(lists[1..], rest);
      ListsAreLonger(lists[1..], rest);
      if lists[0].Some? {
        DeltasAreLonger(lists[0].value, 8, 8, later);
      }
    }
  }

  lemma {:induction false} DeltasAreLonger(deltas: seq<Delta>, last: nat, next: nat, rest: Bits)
    ensures |PutScalingList(deltas, last, next, rest)| >= |rest|
  {
    if deltas != [] {
      var next' := if next == 0 then 0 else (last + deltas[0] + 256) % 256;
      DeltasAreLonger(deltas[1..], if next' == 0 then last else next', next', rest);
    }
  }

  lemma {:induction false} SkipReadsOffsets(offsets: seq<Se>, rest: Bits)
    ensures SkipOffsets(PutOffsets(offsets, rest), |offsets|) == rest
  {
    if offsets != [] {
      SkipSE(offsets[0], PutOffsets(offsets[1..], rest));
      SkipReadsOffsets(offsets[1..], rest);
    }
  }

  lemma WalkReadsPicOrder(s: Sps, rest: Bits)
    requires s.Valid()
    ensures WalkPicOrder(PutPicOrder(s, rest)) == At(rest)
  {
    match s.picOrder
    case Type0(lsb) =>
      var b1 := UE(lsb) + rest;
      SkipUE(s.log2MaxFrameNum, UE(0) + b1);
      ParseWritesUE(0, b1);
      SkipUE(lsb, rest);
    case Type1(zero, nonRef, topToBottom, offsets) =>
      var b1 := PutOffsets(offsets, rest);
      var b2 := UE(|offsets|) + b1;
      var b3 := SE(topToBottom) + b2;
      var b4 := SE(nonRef) + b3;
      var b5 := Flag(zero) + b4;
      SkipUE(s.log2MaxFrameNum, UE(1) + b5);
      ParseWritesUE(1, b5);
      SkipFlag(zero, b4);
      SkipSE(nonRef, b3);
      SkipSE(topToBottom, b2);
      ParseWritesUE(|offsets|, b1);
      SkipReadsOffsets(offsets, rest);
    case Type2 =>
      SkipUE(s.log2MaxFrameNum, UE(2) + rest);
      ParseWritesUE(2, rest);
  }

  lemma WalkReadsGeometry(s: Sps, rest: Bits)
    ensures WalkGeometry(PutGeometry(s, rest)) == At(rest)
  {
    var cropped := match s.crop
      case None => rest
      case Some(c) => UE(c.left) + (UE(c.right) + (UE(c.top) + (UE(c.bottom) + rest)));
    var crop := Flag(s.crop.Some?) + cropped;
    var inference := Flag(s.direct8x8) + crop;
    var fields := if s.fields.Some? then Flag(s.fields.value) + inference else inference;
    var b1 := Flag(s.fields.None?) + fields;
    var b2 := UE(s.height) + b1;
    var b3 := UE(s.width) + b2;
    SkipUE(s.maxRefFrames, Flag(s.gaps) + b3);
    SkipFlag(s.gaps, b3);
    SkipUE(s.width, b2);
    SkipUE(s.height, b1);
    GetFlag(s.fields.None?, fields);
    if s.fields.Some? {
      SkipFlag(s.fields.value, inference);
    }
    SkipFlag(s.direct8x8, crop);
    GetFlag(s.crop.Some?, cropped);
    if s.crop.Some? {
      var c := s.crop.value;
      SkipUE(c.left, UE(c.right) + (UE(c.top) + (UE(c.bottom) + rest)));
      SkipUE(c.right, UE(c.top) + (UE(c.bottom) + rest));
      SkipUE(c.top, UE(c.bottom) + rest);
      SkipUE(c.bottom, rest);
    }
  }

  lemma WalkReadsVuiStart(v: Vui, rest: Bits)
    requires v.Valid()
    ensures WalkVuiStart(PutVuiStart(v, rest)) == At(rest)
  {
    SmallPowers();
    var b1 := if v.overscan.Some? then Flag(v.overscan.value) + rest else rest;
    var overscan := Flag(v.overscan.Some?) + b1;
    if v.aspect.Some? {
      var a := v.aspect.value;
      var b2 := if a.idc == 255 then Fixed(32, a.sar) + overscan else overscan;
      GetFlag(true, Fixed(8, a.idc) + b2);
      GetFixed(8, a.idc, b2);
      GetFixed(32, a.sar, overscan);
    } else {
      GetFlag(false, overscan);
    }
    GetFlag(v.overscan.Some?, b1);
    if v.overscan.Some? {
      SkipFlag(v.overscan.value, rest);
    }
  }

  lemma ColorsOfSignal(v: Vui, rest: Bits)
    requires v.Valid()
    ensures ColorsAt(PutSignal(v.signal, rest))
            == if v.signal.Some? && v.signal.value.colour.Some? then
                 var c := v.signal.value.colour.value;
                 Some(ColorAspects(c.primaries, c.transfer, c.coeffs, v.signal.value.fullRange))
               else None
  {
    SmallPowers();
    if v.signal.None? {
      GetFlag(false, rest);
    } else {
      var signal := v.signal.value;
      var colour := match signal.colour
        case None => rest
        case Some(c) => Fixed(8, c.primaries) + (Fixed(8, c.transfer) + (Fixed(8, c.coeffs) + rest));
      var b1 := Flag(signal.colour.Some?) + colour;
      var b2 := Flag(signal.fullRange) + b1;
      GetFlag(true, Fixed(3, signal.format) + b2);
      GetFixed(3, signal.format, b2);
      GetFlag(signal.fullRange, b1);
      GetFlag(signal.colour.Some?, colour);
      if signal.colour.Some? {
        var c := signal.colour.value;
        GetFixed(8, c.primaries, Fixed(8, c.transfer) + (Fixed(8, c.coeffs) + rest));
        GetFixed(8, c.transfer, Fixed(8, c.coeffs) + rest);
        GetFixed(8, c.coeffs, rest);
      }
    }
  }

  /**
    For every parameter set the standard's syntax can express in a profile the parser knows, followed by any bits at
    all, the parser returns exactly the colour description it carries, and reports none when it carries none.
   */
  lemma FindsTheColors(s: Sps, rest: Bits)
    requires s.Valid() && s.profile !in MISSED_PROFILES
    ensures FindColors(PutSps(s, rest)) == s.Colors()
  {
    var v := if s.vui.Some? then PutVuiStart(s.vui.value, PutSignal(s.vui.value.signal, rest)) else rest;
    var b3 := Flag(s.vui.Some?) + v;
    var b2 := PutGeometry(s, b3);
    WalkReadsHeader(s, PutPicOrder(s, b2));
    WalkReadsPicOrder(s, b2);
    WalkReadsGeometry(s, b3);
    GetFlag(s.vui.Some?, v);
    if s.vui.Some? {
      WalkReadsVuiStart(s.vui.value, PutSignal(s.vui.value.signal, rest));
      ColorsOfSignal(s.vui.value, rest);
    }
  }

  /** 1280x720 in a missed profile, with the colours c. */
  function Missed(profile: nat, c: Colour): Sps {
    Sps(profile, 0, 0, High(1, false, 0, 0, false, None), 0, Type2, 1, false, 79, 44, None, true, None,
        Some(Vui(None, None, Some(VideoSignal(5, false, Some(c))))))
  }

  /** What the parser takes it for, and the bits it then stops in front of. */
  const TAKEN_FOR: Sps :=
    Sps(66, 0, 0, High(1, false, 0, 0, false, None), 1, Type0(0), 4, true, 1, 159, Some(false), false, None,
        Some(Vui(None, Some(true), None)))

  function LeftOver(c: Colour, rest: Bits): Bits {
    [true] + EndOfMissed(c, rest)
  }

  /** The bits of a missed parameter set behind its size. */
  function EndOfMissed(c: Colour, rest: Bits): Bits {
    [true, true, false, true, false, false, true, true, false, true, false, true]
    + (Fixed(8, c.primaries) + (Fixed(8, c.transfer) + (Fixed(8, c.coeffs) + rest)))
  }

  lemma Code44()
    ensures UE(44) == [false, false, false, false, false, true, false, true, true, false, true]
  {
    assert Log2(45) == 5 && Pow2(5) == 32;
    assert Fixed(5, 13) == [false, true, true, false, true];
    assert Zeros(5) == [false, false, false, false, false];
  }

  lemma Code79()
    ensures UE(79) == [false, false, false, false, false, false, true, false, true, false, false, false, false]
  {
    assert Log2(80) == 6 && Pow2(6) == 64;
    assert Fixed(6, 16) == [false, true, false, false, false, false];
    assert Zeros(6) == [false, false, false, false, false, false];
  }

  lemma Code159()
    ensures UE(159) == [false, false, false, false, false, false, false, true, false, true, false, false, false, false,
                        false]
  {
    assert Log2(160) == 7 && Pow2(7) == 128;
    assert Fixed(4, 4) == [false, true, false, false];
    assert Fixed(5, 8) == [false, true, false, false, false];
    assert Fixed(6, 16) == [false, true, false, false, false, false];
    assert Fixed(7, 32) == [false, true, false, false, false, false, false];
    assert Zeros(7) == [false, false, false, false, false, false, false];
  }

  lemma ShortCodes()
    ensures UE(0) == [true] && UE(1) == [false, true, false] && UE(2) == [false, true, true]
    ensures UE(4) == [false, false, true, false, true]
    ensures Fixed(3, 5) == [true, false, true]
  {
    assert Log2(1) == 0 && Log2(2) == 1 && Log2(3) == 1 && Log2(5) == 2;
    assert Pow2(0) == 1 && Pow2(1) == 2 && Pow2(2) == 4;
    assert Fixed(1, 0) == [false] && Fixed(1, 1) == [true] && Fixed(2, 1) == [false, true];
    assert Zeros(1) == [false] && Zeros(2) == [false, false];
  }

  lemma BitsOfMissed(profile: nat, c: Colour, rest: Bits)
    ensures var s := Missed(profile, c);
            var vui := Flag(true) + PutVuiStart(s.vui.value, PutSignal(s.vui.value.signal, rest));
            PutHigh(s.high, PutPicOrder(s, PutGeometry(s, vui)))
            == [false, true, false, true, true, false, false, true, false, true, true, false, true, false, false]
               + (UE(79) + (UE(44) + EndOfMissed(c, rest)))
  {
    ShortCodes();
    hide UE, Fixed;
    var s := Missed(profile, c);
    var colours := Fixed(8, c.primaries) + (Fixed(8, c.transfer) + (Fixed(8, c.coeffs) + rest));
    var vui := Flag(true) + PutVuiStart(s.vui.value, PutSignal(s.vui.value.signal, rest));
    assert vui == [true, false, false, true, true, false, true, false, true] + colours;
    assert PutGeometry(s, vui) == [false, true, false, false] + (UE(79) + (UE(44) + EndOfMissed(c, rest))) by {
      assert [true] + ([true] + ([false] + vui)) == EndOfMissed(c, rest);
    }
    assert PutPicOrder(s, PutGeometry(s, vui)) == [true, false, true, true] + PutGeometry(s, vui);
    assert PutHigh(s.high, PutPicOrder(s, PutGeometry(s, vui)))
           == [false, true, false, true, true, false, false] + PutPicOrder(s, PutGeometry(s, vui));
  }

  lemma BitsOfTakenFor(c: Colour, rest: Bits)
    ensures var s := TAKEN_FOR;
            var vui := Flag(true) + PutVuiStart(s.vui.value, PutSignal(None, LeftOver(c, rest)));
            PutPicOrder(s, PutGeometry(s, vui))
            == [false, true, false, true, true, false, false, true, false, true, true, false, true, false]
               + (UE(159) + ([false, false, false, false, true, false, true, true, false] + LeftOver(c, rest)))
  {
    ShortCodes();
    hide UE, LeftOver;
    var s := TAKEN_FOR;
    var vui := Flag(true) + PutVuiStart(s.vui.value, PutSignal(None, LeftOver(c, rest)));
    assert vui == [true, false, true, true, false] + LeftOver(c, rest);
    assert PutGeometry(s, vui)
           == [false, false, true, false, true, true, false, true, false]
              + (UE(159) + ([false, false, false, false, true, false, true, true, false] + LeftOver(c, rest)));
    assert PutPicOrder(s, PutGeometry(s, vui)) == [false, true, false, true, true] + PutGeometry(s, vui);
  }

  /** The size of a missed parameter set reads as the height of another. */
  lemma SizeReadsAsHeight(end: Bits)
    ensures [false] + (UE(79) + (UE(44) + end))
            == UE(159) + ([false, false, false, false, true, false, true, true, false] + ([true] + end))
  {
    Code44();
    Code79();
    Code159();
    hide UE;
    assert UE(159) == [false] + UE(79) + [false];
    assert UE(44) == [false] + [false, false, false, false, true, false, true, true, false] + [true];
  }

  /** Behind its header a missed parameter set reads as another one. */
  lemma ReadsAsAnother(profile: nat, c: Colour, rest: Bits)
    ensures var s := Missed(profile, c);
            var vui := Flag(true) + PutVuiStart(s.vui.value, PutSignal(s.vui.value.signal, rest));
            var vui' := Flag(true) + PutVuiStart(TAKEN_FOR.vui.value, PutSignal(None, LeftOver(c, rest)));
            PutHigh(s.high, PutPicOrder(s, PutGeometry(s, vui))) == PutPicOrder(TAKEN_FOR, PutGeometry(TAKEN_FOR, vui'))
  {
    hide PutHigh, PutPicOrder, PutGeometry, PutVuiStart, PutSignal, UE, EndOfMissed;
    BitsOfMissed(profile, c, rest);
    BitsOfTakenFor(c, rest);
    SizeReadsAsHeight(EndOfMissed(c, rest));
    var head: Bits := [false, true, false, true, true, false, false, true, false, true, true, false, true, false];
    var size := UE(79) + (UE(44) + EndOfMissed(c, rest));
    assert head + [false] + size == head + ([false] + size);
  }

  /** In each missed profile there are parameter sets, of any colours, in which the parser finds none. */
  lemma MissedProfileLosesColors(profile: nat, c: Colour, rest: Bits)
    requires profile in MISSED_PROFILES && c.primaries < 256 && c.transfer < 256 && c.coeffs < 256
    ensures Missed(profile, c).Valid() && FindColors(PutSps(Missed(profile, c), rest)) == None
    ensures Missed(profile, c).Colors() == Some(ColorAspects(c.primaries, c.transfer, c.coeffs, false))
  {
    hide WalkHeader, PutHeader, PutPicOrder, PutGeometry, PutVuiStart, PutSignal, WalkPicOrder, PutHigh, LeftOver;
    var s := Missed(profile, c);
    ReadsAsAnother(profile, c, rest);
    var vui := Flag(true) + PutVuiStart(s.vui.value, PutSignal(s.vui.value.signal, rest));
    WalkOverHeader(s, PutPicOrder(s, PutGeometry(s, vui)));
    var vui' := Flag(true) + PutVuiStart(TAKEN_FOR.vui.value, PutSignal(None, LeftOver(c, rest)));
    WalkOverHeader(TAKEN_FOR, PutPicOrder(TAKEN_FOR, PutGeometry(TAKEN_FOR, vui')));
    FindsTheColors(TAKEN_FOR, LeftOver(c, rest));
  }

  // ----- The parser's methods -----

  method SkipScalingList(br: Reader, scalingListSize: nat) returns (ok: bool)
    requires br.Valid()
    modifies br
    ensures br.Valid()
    ensures WalkScalingList(old(br.Left()), scalingListSize, 8, 8) == if ok then At(br.Left()) else Fail
  {
    ghost var goal := WalkScalingList(br.Left(), scalingListSize, 8, 8);
    var nextScale, lastScale := 8, 8;
    for j := 0 to scalingListSize
      invariant br.Valid() && 0 <= nextScale && 0 <= lastScale
      invariant WalkScalingList(br.Left(), scalingListSize - j, lastScale, nextScale) == goal
    {
      if nextScale != 0 {
        var deltaScale;
        ok, deltaScale := br.ReadSE();
        if !ok {
          return false;
        }
        if deltaScale < -128 {
          deltaScale := -128;
        } else if deltaScale > 127 {
          deltaScale := 127;
        }
        nextScale := (lastScale + (deltaScale + 256)) % 256;
      }
      lastScale := if nextScale == 0 then lastScale else nextScale;
    }
    ok := true;
  }

  method SkipScalingMatrix(br: Reader, numScalingLists: nat) returns (ok: bool)
    requires br.Valid()
    modifies br
    ensures br.Valid()
    ensures WalkScalingMatrix(old(br.Left()), 0, numScalingLists) == if ok then At(br.Left()) else Fail
  {
    ghost var goal := WalkScalingMatrix(br.Left(), 0, numScalingLists);
    for i := 0 to numScalingLists
      invariant br.Valid()
      invariant WalkScalingMatrix(br.Left(), i, numScalingLists) == goal
    {
      var flag;
      ok, flag := br.GetBitsGraceful(1);
      if !ok {
        return false;
      }
      if flag != 0 {
        if i < 6 {
          ok := SkipScalingList(br, 16);
        } else {
          ok := SkipScalingList(br, 64);
        }
        if !ok {
          return false;
        }
      }
    }
    ok := true;
  }

  method SkipHeader(br: Reader) returns (ok: bool)
    requires br.Valid()
    modifies br
    ensures br.Valid()
    ensures WalkHeader(old(br.Left())) == if ok then At(br.Left()) else Fail
  {
    var profileIDC;
    ok, profileIDC := br.GetBitsGraceful(8);
    if !ok {
      return;
    }
    br.Skip(16);
    var _, _ := br.ReadUE();
    if profileIDC == 100 || profileIDC == 110 || profileIDC == 122 || profileIDC == 244 || profileIDC == 44
       || profileIDC == 83 || profileIDC == 86 || profileIDC == 118 || profileIDC == 128 {
      var chromaFormatIDC, matrixPresent;
      ok, chromaFormatIDC := br.ReadUE();
      if !ok {
        return;
      }
      if chromaFormatIDC == 3 {
        br.Skip(1);
      }
      var _, _ := br.ReadUE();
      var _, _ := br.ReadUE();
      br.Skip(1);
      ok, matrixPresent := br.GetBitsGraceful(1);
      if !ok {
        return;
      }
      if matrixPresent != 0 {
        ok := SkipScalingMatrix(br, if chromaFormatIDC != 3 then 8 else 12);
      }
    }
  }

  method SkipPicOrder(br: Reader) returns (ok: bool)
    requires br.Valid()
    modifies br
    ensures br.Valid()
    ensures WalkPicOrder(old(br.Left())) == if ok then At(br.Left()) else Fail
  {
    var _, _ := br.ReadUE();
    var pictureOrderCountType;
    ok, pictureOrderCountType := br.ReadUE();
    if !ok {
      return;
    }
    if pictureOrderCountType == 0 {
      var _, _ := br.ReadUE();
    } else if pictureOrderCountType == 1 {
      br.Skip(1);
      var _, _ := br.ReadSE();
      var _, _ := br.ReadSE();
      var numReferenceFrames;
      ok, numReferenceFrames := br.ReadUE();
      if !ok {
        return;
      }
      ghost var goal := SkipOffsets(br.Left(), numReferenceFrames);
      for i := 0 to numReferenceFrames
        invariant br.Valid() && SkipOffsets(br.Left(), numReferenceFrames - i) == goal
      {
        var _, _ := br.ReadUE();
      }
    }
  }

  method SkipGeometry(br: Reader) returns (ok: bool)
    requires br.Valid()
    modifies br
    ensures br.Valid()
    ensures WalkGeometry(old(br.Left())) == if ok then At(br.Left()) else Fail
  {
    var _, _ := br.ReadUE();
    br.Skip(1);
    var _, _ := br.ReadUE();
    var _, _ := br.ReadUE();
    var frameMbsOnlyFlag, frameCroppingFlag;
    ok, frameMbsOnlyFlag := br.GetBitsGraceful(1);
    if !ok {
      return;
    }
    if frameMbsOnlyFlag == 0 {
      br.Skip(1);
    }
    br.Skip(1);
    ok, frameCroppingFlag := br.GetBitsGraceful(1);
    if !ok {
      return;
    }
    if frameCroppingFlag != 0 {
      var _, _ := br.ReadUE();
      var _, _ := br.ReadUE();
      var _, _ := br.ReadUE();
      var _, _ := br.ReadUE();
    }
  }

  method SkipVuiStart(br: Reader) returns (ok: bool)
    requires br.Valid()
    modifies br
    ensures br.Valid()
    ensures WalkVuiStart(old(br.Left())) == if ok then At(br.Left()) else Fail
  {
    var aspectPresent, aspectRatioIdc, overscanPresent;
    ok, aspectPresent := br.GetBitsGraceful(1);
    if !ok {
      return;
    }
    if aspectPresent != 0 {
      ok, aspectRatioIdc := br.GetBitsGraceful(8);
      if !ok {
        return;
      }
      if aspectRatioIdc == 255 {
        br.Skip(32);
      }
    }
    ok, overscanPresent := br.GetBitsGraceful(1);
    if !ok {
      return;
    }
    if overscanPresent != 0 {
      br.Skip(1);
    }
  }

  method ReadColors(br: Reader) returns (result: Option<ColorAspects>)
    requires br.Valid()
    modifies br
    ensures br.Valid() && result == ColorsAt(old(br.Left()))
  {
    var ok, present, range, described, primaries, transfer, coeffs;
    ok, present := br.GetBitsGraceful(1);
    if !ok || present == 0 {
      return None;
    }
    br.Skip(3);
    ok, range := br.GetBitsGraceful(1);
    if !ok {
      return None;
    }
    ok, described := br.GetBitsGraceful(1);
    if !ok || described == 0 {
      return None;
    }
    ok, primaries := br.GetBitsGraceful(8);
    if !ok {
      return None;
    }
    ok, transfer := br.GetBitsGraceful(8);
    if !ok {
      return None;
    }
    ok, coeffs := br.GetBitsGraceful(8);
    if !ok {
      return None;
    }
    return Some(ColorAspects(primaries, transfer, coeffs, range != 0));
  }

  /** The bits of a byte string, most significant bit of each byte first. */
  function BitsOf(bytes: seq<NalStream.byte>): Bits {
    if bytes == [] then [] else Fixed(8, bytes[0] as nat) + BitsOf(bytes[1..])
  }

  /** Eight bits for each byte; bit j of byte i is the one of weight 2^(7-j). */
  lemma {:induction false} BitsOfAt(bytes: seq<NalStream.byte>, i: nat, j: nat)
    requires i < |bytes| && j < 8
    ensures |BitsOf(bytes)| == 8 * |bytes| && BitsOf(bytes)[8 * i + j] == (bytes[i] as nat / Pow2(7 - j) % 2 == 1)
  {
    FixedBit(8, bytes[0] as nat, j);
    if |bytes| > 1 {
      BitsOfAt(bytes[1..], if i > 0 then i - 1 else 0, j);
    }
  }

  /** Bits packed into bytes. */
  function Pack(bits: Bits): (bytes: seq<NalStream.byte>)
    requires |bits| % 8 == 0
  {
    if bits == [] then []
    else
      ValueFixed(bits[..8]);
      Pow2Of8();
      [Value(bits[..8]) as NalStream.byte] + Pack(bits[8..])
  }

  lemma Pow2Of8()
    ensures Pow2(8) == 256
  {
    assert Pow2(4) == 16;
  }

  /** Reading packed bits gives them back, and every byte string is packed from its bits. */
  lemma {:induction false} BitsOfPack(bits: Bits)
    requires |bits| % 8 == 0
    ensures BitsOf(Pack(bits)) == bits
  {
    if bits != [] {
      BitsOfPack(bits[8..]);
      ValueFixed(bits[..8]);
      Pow2Of8();
      var byte := Value(bits[..8]) as NalStream.byte;
      assert Pack(bits)[0] == byte && Pack(bits)[1..] == Pack(bits[8..]);
      assert bits == bits[..8] + bits[8..];
    }
  }

  method FindCodedColorAspects(nal: NalStream.Nal) returns (result: Option<ColorAspects>)
    requires nal != []
    ensures result == FindColors(BitsOf(nal[1..]))
  {
    var br := new Reader(BitsOf(nal[1..]));
    var ok := SkipHeader(br);
    if !ok {
      return None;
    }
    ok := SkipPicOrder(br);
    if !ok {
      return None;
    }
    ok := SkipGeometry(br);
    if !ok {
      return None;
    }
    var vuiPresent;
    ok, vuiPresent := br.GetBitsGraceful(1);
    if !ok || vuiPresent == 0 {
      return None;
    }
    ok := SkipVuiStart(br);
    if !ok {
      return None;
    }
    result := ReadColors(br);
  }

  /** The decoder's use of the parser: the first SPS of the codec-specific data decides. */
  method ParseCodedColorAspects(data: seq<NalStream.byte>) returns (result: Option<ColorAspects>)
    ensures var sps := NalStream.FirstSps(NalStream.Nals(data));
            result == if sps == [] then None else FindColors(BitsOf(sps[0][1..]))
  {
    var parser := new NalStream.NalParser(data);
    NalStream.FirstSpsIff(NalStream.Nals(data));
    var found := parser.LocateSPS();
    if !found {
      return None;
    }
    var nal := parser.Data();
    result := FindCodedColorAspects(nal);
  }

  /**
    From the encoder's units to the decoder's colours: if the first SPS among clean units carries the packed bits of a
    parameter set, then printing the units and parsing the stream yields its colour description.
   */
  method ParsePrintedStream(nals: seq<NalStream.Nal>, ghost s: Sps, ghost rest: Bits)
    returns (result: Option<ColorAspects>)
    requires s.Valid() && s.profile !in MISSED_PROFILES && forall n :: n in nals ==> NalStream.Clean(n)
    requires |PutSps(s, rest)| % 8 == 0 && NalStream.FirstSps(nals) != []
    requires NalStream.FirstSps(nals)[0][1..] == Pack(PutSps(s, rest))
    ensures result == s.Colors()
  {
    PrintedStreamKeepsColors(nals, s, rest);
    result := ParseCodedColorAspects(NalStream.Print(nals));
  }

  lemma PrintedStreamKeepsColors(nals: seq<NalStream.Nal>, s: Sps, rest: Bits)
    requires s.Valid() && s.profile !in MISSED_PROFILES && forall n :: n in nals ==> NalStream.Clean(n)
    requires |PutSps(s, rest)| % 8 == 0 && NalStream.FirstSps(nals) != []
    requires NalStream.FirstSps(nals)[0][1..] == Pack(PutSps(s, rest))
    ensures var sps := NalStream.FirstSps(NalStream.Nals(NalStream.Print(nals)));
            sps != [] && FindColors(BitsOf(sps[0][1..])) == s.Colors()
  {
    NalStream.ScanInvertsPrint(nals);
    BitsOfPack(PutSps(s, rest));
    FindsTheColors(s, rest);
  }
}

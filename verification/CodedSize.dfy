/**
  The coded size behind a V4L2 format: width from the bytes per line of the first plane, height from the total
  image size and the bits per pixel. It undoes the allocation size of a pixel format.
 */
module CodedSize {
  import opened Arithmetic
  import opened Options

  datatype PixelFormat =
    | I420 | YV12 | I422 | I420A | I444 | NV12 | NV21 | YUY2
    | ARGB | XRGB | RGB24 | MJPEG | Y16 | ABGR | XBGR | P016LE | XR30 | XB30 | BGRA | RGBA
    | YUV420P9 | YUV420P10 | YUV420P12 | YUV422P9 | YUV422P10 | YUV422P12 | YUV444P9 | YUV444P10 | YUV444P12
    | UNKNOWN

  const INT_MAX: int := 0x7fff_ffff

  datatype Size = Size(width: nat, height: nat)

  function Area(s: Size): nat {
    s.width * s.height
  }

  function NumPlanes(f: PixelFormat): nat {
    match f
    case YUY2 | ARGB | BGRA | RGBA | XRGB | RGB24 | MJPEG | Y16 | ABGR | XBGR | XR30 | XB30 => 1
    case NV12 | NV21 | P016LE => 2
    case I420A => 4
    case UNKNOWN => 0
    case _ => 3
  }

  predicate RequiresEvenSizeAllocation(f: PixelFormat) {
    match f
    case ARGB | XRGB | RGB24 | Y16 | ABGR | XBGR | XR30 | XB30 | BGRA | RGBA | UNKNOWN => false
    case _ => true
  }

  function BytesPerElement(f: PixelFormat, plane: nat): nat
    requires plane < NumPlanes(f)
  {
    match f
    case ARGB | BGRA | RGBA | XRGB | ABGR | XBGR | XR30 | XB30 => 4
    case RGB24 => 3
    case NV12 | NV21 => if plane == 0 then 1 else 2
    case YV12 | I420 | I422 | I420A | I444 => 1
    case MJPEG => 0
    case _ => 2
  }

  /** How many pixels share an element of a plane, across and down. */
  function SampleSize(f: PixelFormat, plane: nat): (s: Size)
    requires plane < NumPlanes(f)
    ensures 1 <= s.width <= 2 && 1 <= s.height <= s.width
  {
    if plane == 0 || plane == 3 then Size(1, 1)
    else
      match f
      case I444 | YUV444P9 | YUV444P10 | YUV444P12 => Size(1, 1)
      case I422 | YUV422P9 | YUV422P10 | YUV422P12 => Size(2, 1)
      case _ => Size(2, 2)
  }

  /** x divided by a sample size, which is 1 or 2. */
  function Share(x: nat, n: nat): nat
    requires 1 <= n <= 2
  {
    if n == 2 then x / 2 else x
  }

  function HorizontalBitsPerPixel(f: PixelFormat, plane: nat): nat
    requires plane < NumPlanes(f)
  {
    Share(8 * BytesPerElement(f, plane), SampleSize(f, plane).width)
  }

  function BitsPerPixel(f: PixelFormat, plane: nat): nat
    requires plane < NumPlanes(f)
  {
    Share(HorizontalBitsPerPixel(f, plane), SampleSize(f, plane).height)
  }

  /** The next even number. */
  function Align2(x: nat): (y: nat)
    ensures y % 2 == 0 && x <= y <= x + 1
  {
    (x + 1) / 2 * 2
  }

  function Aligned(f: PixelFormat, size: Size): Size {
    if RequiresEvenSizeAllocation(f) then Size(Align2(size.width), Align2(size.height)) else size
  }

  function PlaneSize(f: PixelFormat, plane: nat, size: Size): Size
    requires plane < NumPlanes(f)
  {
    var aligned := Aligned(f, size);
    Size(Share(BytesPerElement(f, plane) * aligned.width, SampleSize(f, plane).width),
         Share(aligned.height, SampleSize(f, plane).height))
  }

  /** Bytes in the first planes. */
  ghost function PlanesBytes(f: PixelFormat, size: Size, planes: nat): nat
    requires planes <= NumPlanes(f)
  {
    if planes == 0 then 0
    else PlanesBytes(f, size, planes - 1) + Area(PlaneSize(f, planes - 1, size))
  }

  ghost function PlanesBits(f: PixelFormat, planes: nat): nat
    requires planes <= NumPlanes(f)
  {
    if planes == 0 then 0 else PlanesBits(f, planes - 1) + BitsPerPixel(f, planes - 1)
  }

  ghost function TotalBits(f: PixelFormat): nat {
    PlanesBits(f, NumPlanes(f))
  }

  ghost function ImageBytes(f: PixelFormat, size: Size): nat {
    PlanesBytes(f, size, NumPlanes(f))
  }

  /** Formats with several planes are allocated with even sizes, and of those with one plane YUY2 and MJPEG. */
  lemma EvenSizes(f: PixelFormat)
    ensures RequiresEvenSizeAllocation(f) <==> NumPlanes(f) > 1 || f.YUY2? || f.MJPEG?
  {
  }

  /** Exactly these are aligned, up to the next even numbers. */
  lemma AlignedMeans(f: PixelFormat, size: Size)
    ensures var a := Aligned(f, size);
            if NumPlanes(f) > 1 || f.YUY2? || f.MJPEG? then
              && a.width % 2 == 0 && size.width <= a.width <= size.width + 1
              && a.height % 2 == 0 && size.height <= a.height <= size.height + 1
            else a == size
  {
    EvenSizes(f);
  }

  /** The bits per pixel of each format, over all planes. */
  lemma BitsOfFormats(f: PixelFormat)
    ensures TotalBits(f) == match f
                            case I420 | YV12 | NV12 | NV21 => 12
                            case I422 | YUY2 | Y16 => 16
                            case I420A | P016LE => 20
                            case I444 | RGB24 => 24
                            case ARGB | XRGB | ABGR | XBGR | XR30 | XB30 | BGRA | RGBA => 32
                            case YUV420P9 | YUV420P10 | YUV420P12 => 24
                            case YUV422P9 | YUV422P10 | YUV422P12 => 32
                            case YUV444P9 | YUV444P10 | YUV444P12 => 48
                            case MJPEG | UNKNOWN => 0
  {
    var n := NumPlanes(f);
    assert n >= 1 ==> PlanesBits(f, 1) == BitsPerPixel(f, 0);
    assert n >= 2 ==> PlanesBits(f, 2) == PlanesBits(f, 1) + BitsPerPixel(f, 1);
    assert n >= 3 ==> PlanesBits(f, 3) == PlanesBits(f, 2) + BitsPerPixel(f, 2);
    assert n >= 4 ==> PlanesBits(f, 4) == PlanesBits(f, 3) + BitsPerPixel(f, 3);
  }

  // ----- Bits per pixel and bytes agree -----

  /** The divisions that give the bits per pixel are exact. */
  lemma BitsAreExact(f: PixelFormat, plane: nat)
    requires plane < NumPlanes(f)
    ensures var s, bits, bytes := SampleSize(f, plane), BitsPerPixel(f, plane), BytesPerElement(f, plane);
            || (s == Size(1, 1) && bits == 8 * bytes)
            || (s == Size(2, 1) && bits * 2 == 8 * bytes)
            || (s == Size(2, 2) && bits * 4 == 8 * bytes)
  {
    ShareExact(BytesPerElement(f, plane));
    hide BytesPerElement, SampleSize, NumPlanes, Share;
    var s := SampleSize(f, plane);
    assert s == Size(1, 1) || s == Size(2, 1) || s == Size(2, 2);
  }

  lemma ShareExact(bytes: nat)
    ensures Share(8 * bytes, 1) == 8 * bytes && Share(8 * bytes, 2) == 4 * bytes
    ensures Share(4 * bytes, 1) == 4 * bytes && Share(4 * bytes, 2) == 2 * bytes
  {
  }

  lemma PlaneBits(f: PixelFormat, plane: nat, size: Size)
    requires plane < NumPlanes(f)
    ensures var a, p := Aligned(f, size), PlaneSize(f, plane, size);
            8 * (p.width * p.height) == a.width * a.height * BitsPerPixel(f, plane)
  {
    var a, s, b := Aligned(f, size), SampleSize(f, plane), BytesPerElement(f, plane);
    BitsAreExact(f, plane);
    if s.width == 2 {
      assert RequiresEvenSizeAllocation(f);
      var w := a.width / 2;
      assert a.width == 2 * w && b * a.width == 2 * (b * w);
      if s.height == 2 {
        var h := a.height / 2;
        assert a.height == 2 * h;
        ExactProduct(w, h, b, BitsPerPixel(f, plane), 2, 2);
      } else {
        ExactProduct(w, a.height, b, BitsPerPixel(f, plane), 2, 1);
      }
    } else {
      ExactProduct(a.width, a.height, b, BitsPerPixel(f, plane), 1, 1);
    }
  }

  lemma ExactProduct(w: nat, h: nat, bytes: nat, bits: nat, sw: nat, sh: nat)
    requires bits * sw * sh == 8 * bytes
    ensures 8 * ((bytes * w) * h) == (sw * w) * (sh * h) * bits
  {
    assert (sw * w) * (sh * h) * bits == (bits * sw * sh) * (w * h);
    assert 8 * ((bytes * w) * h) == (8 * bytes) * (w * h);
  }

  lemma SumOfAreas(area: nat, x: nat, y: nat, bytes: nat, more: nat)
    requires 8 * bytes == area * x && 8 * more == area * y
    ensures 8 * (bytes + more) == area * (x + y)
  {
  }

  /** The image size in bits is the product of the aligned size and the bits per pixel. */
  lemma {:induction false} PlanesBytesAreBits(f: PixelFormat, size: Size, planes: nat)
    requires planes <= NumPlanes(f)
    ensures var a := Aligned(f, size); 8 * PlanesBytes(f, size, planes) == a.width * a.height * PlanesBits(f, planes)
  {
    hide Aligned, PlaneSize, BitsPerPixel, NumPlanes;
    if planes > 0 {
      var a, p := Aligned(f, size), PlaneSize(f, planes - 1, size);
      PlanesBytesAreBits(f, size, planes - 1);
      PlaneBits(f, planes - 1, size);
      SumOfAreas(a.width * a.height, PlanesBits(f, planes - 1), BitsPerPixel(f, planes - 1),
                 PlanesBytes(f, size, planes - 1), Area(p));
    }
  }

  /** So many bytes are the bits of all pixels of the aligned size. */
  ghost predicate IsArea(bytes: nat, f: PixelFormat, size: Size) {
    var a := Aligned(f, size);
    8 * bytes == a.width * a.height * TotalBits(f)
  }

  method AllocationSize(f: PixelFormat, size: Size) returns (total: nat)
    ensures total == ImageBytes(f, size)
    ensures IsArea(total, f, size)
  {
    hide Aligned, PlaneSize, BitsPerPixel, NumPlanes, PlanesBits;
    total := 0;
    for i := 0 to NumPlanes(f)
      invariant total == PlanesBytes(f, size, i)
    {
      var p := PlaneSize(f, i, size);
      total := total + Area(p);
    }
    PlanesBytesAreBits(f, size, NumPlanes(f));
  }

  // ----- Recovery -----

  datatype PlaneFormat = PlaneFormat(bytesPerLine: nat, sizeimage: nat)

  /** A V4L2 format: its pixel format, if its fourcc is known, and its planes. */
  datatype V4L2Format = V4L2Format(pixelFormat: Option<PixelFormat>, planes: seq<PlaneFormat>)

  ghost function SizeSum(planes: seq<PlaneFormat>): nat {
    if planes == [] then 0 else SizeSum(planes[..|planes| - 1]) + planes[|planes| - 1].sizeimage
  }

  /** A height that does not fit a 32-bit int wraps around. */
  function ToInt32(x: nat): (r: int)
    ensures -0x8000_0000 <= r < 0x8000_0000 && (x - r) % 0x1_0000_0000 == 0
  {
    (x + 0x8000_0000) % 0x1_0000_0000 - 0x8000_0000
  }

  /** The format can be used: its divisors are not zero, and its lines are whole pixels. */
  ghost predicate Usable(v: V4L2Format)
    requires v.planes != []
  {
    && v.pixelFormat.Some?
    && var f := v.pixelFormat.value;
       && NumPlanes(f) > 0 && BytesPerElement(f, 0) > 0
       && SizeSum(v.planes) > 0 && v.planes[0].bytesPerLine > 0
       && v.planes[0].bytesPerLine % BytesPerElement(f, 0) == 0
  }

  /** Bits per pixel of all planes. */
  method AddBits(f: PixelFormat) returns (total: nat)
    ensures total == TotalBits(f)
  {
    hide BitsPerPixel;
    total := 0;
    for i := 0 to NumPlanes(f)
      invariant total == PlanesBits(f, i)
    {
      total := total + BitsPerPixel(f, i);
    }
  }

  method AddSizes(planes: seq<PlaneFormat>) returns (total: nat)
    ensures total == SizeSum(planes)
  {
    total := 0;
    for i := 0 to |planes|
      invariant total == SizeSum(planes[..i])
    {
      assert planes[..i + 1][..i] == planes[..i];
      total := total + planes[i].sizeimage;
    }
    assert planes[..|planes|] == planes;
  }

  /** The first plane is not subsampled, and its bits are among the total. */
  lemma FirstPlane(f: PixelFormat)
    requires NumPlanes(f) > 0
    ensures HorizontalBitsPerPixel(f, 0) == 8 * BytesPerElement(f, 0) == BitsPerPixel(f, 0)
    ensures TotalBits(f) >= BitsPerPixel(f, 0)
  {
    MoreBits(f, 1, NumPlanes(f));
    assert PlanesBits(f, 0) == 0;
  }

  lemma {:induction false} MoreBits(f: PixelFormat, m: nat, n: nat)
    requires m <= n <= NumPlanes(f)
    ensures PlanesBits(f, m) <= PlanesBits(f, n)
  {
    if m < n {
      MoreBits(f, m, n - 1);
    }
  }

  function LineBytes(f: PixelFormat, width: nat): nat
    requires NumPlanes(f) > 0
  {
    width * BytesPerElement(f, 0)
  }

  /** As many lines of that many pixels as fit into some bits. */
  ghost predicate Fills(bits: nat, width: nat, height: nat, bitsPerPixel: nat) {
    width * height * bitsPerPixel <= bits < width * (height + 1) * bitsPerPixel
  }

  ghost predicate LargestHeight(v: V4L2Format, width: nat, height: nat) {
    v.pixelFormat.Some? && Fills(8 * SizeSum(v.planes), width, height, TotalBits(v.pixelFormat.value))
  }

  /**
    The coded size, with the height as the source computes it. It is missing exactly for a format that cannot be
    used, and otherwise it is the largest height whose pixels fit the image size.
   */
  method AllocatedSizeFromV4L2Format(v: V4L2Format) returns (size: Option<(nat, int)>)
    requires v.planes != []
    requires forall i :: 0 <= i < |v.planes| ==> v.planes[i].bytesPerLine <= INT_MAX && v.planes[i].sizeimage <= INT_MAX
    ensures size.Some? <==> Usable(v)
    ensures size.Some? ==>
              && v.planes[0].bytesPerLine == LineBytes(v.pixelFormat.value, size.value.0) && 0 < size.value.0 <= INT_MAX
              && exists h :: size.value.1 == ToInt32(h) && LargestHeight(v, size.value.0, h)
  {
    var bytesPerLine := v.planes[0].bytesPerLine;
    var sizeimage := AddSizes(v.planes);
    if v.pixelFormat.None? {
      return None;
    }
    var f := v.pixelFormat.value;
    if NumPlanes(f) == 0 {
      return None;
    }
    FirstPlane(f);
    var horizontalBits := HorizontalBitsPerPixel(f, 0);
    var totalBpp := AddBits(f);
    hide PlanesBits, BitsPerPixel, HorizontalBitsPerPixel, SizeSum, Fills;
    WholePixels(bytesPerLine, BytesPerElement(f, 0));
    if sizeimage == 0 || bytesPerLine == 0 || horizontalBits == 0 || totalBpp == 0
       || bytesPerLine * 8 % horizontalBits != 0
    {
      return None;
    }
    var codedWidth := bytesPerLine * 8 / horizontalBits;
    var codedHeight := DivideTwice(sizeimage * 8, codedWidth, totalBpp);
    assert LargestHeight(v, codedWidth, codedHeight);
    return Some((codedWidth, ToInt32(codedHeight)));
  }

  method DivideTwice(bits: nat, width: nat, bitsPerPixel: nat) returns (height: nat)
    requires width > 0 && bitsPerPixel > 0
    ensures Fills(bits, width, height, bitsPerPixel)
  {
    hide Fills;
    var lines := bits / width;
    Quotient(bits, width, lines);
    height := lines / bitsPerPixel;
    Quotient(lines, bitsPerPixel, height);
    Floor(bits, width, bitsPerPixel, lines, height);
  }

  /** Lines of whole pixels: the width is the line divided by the bytes of a pixel. */
  lemma WholePixels(line: nat, bytes: nat)
    requires bytes <= 4
    ensures bytes > 0 ==> (line * 8 % (8 * bytes) == 0 <==> line % bytes == 0)
    ensures bytes > 0 && line % bytes == 0 ==> line * 8 / (8 * bytes) * bytes == line
    ensures bytes > 0 && line % bytes == 0 && line > 0 ==> 0 < line * 8 / (8 * bytes) <= line
  {
    if bytes == 1 {
      assert line * 8 / 8 == line;
    } else if bytes == 2 {
      assert line * 8 / 16 == line / 2;
    } else if bytes == 3 {
      assert line * 8 / 24 == line / 3;
    } else if bytes == 4 {
      assert line * 8 / 32 == line / 4;
    }
  }

  lemma Quotient(x: nat, a: nat, q: nat)
    requires a > 0 && q == x / a
    ensures a * q <= x < a * (q + 1)
  {
    assert x == a * q + x % a;
  }

  /** Dividing twice rounds down once. */
  lemma Floor(x: nat, a: nat, b: nat, q: nat, h: nat)
    requires a * q <= x < a * (q + 1) && b * h <= q < b * (h + 1)
    ensures Fills(x, a, h, b)
  {
    assert a * (b * h) <= a * q;
    assert a * (q + 1) <= a * (b * (h + 1));
    assert a * (b * h) == a * h * b && a * (b * (h + 1)) == a * (h + 1) * b;
  }

  // ----- Round trip -----

  /** Only one height fills an image. */
  lemma OnlyHeight(bits: nat, w: nat, t: nat, h: nat, h': nat)
    requires w > 0 && t > 0 && Fills(bits, w, h, t) && Fills(bits, w, h', t)
    ensures h == h'
  {
    Monotone(w, t, h, h');
    Monotone(w, t, h', h);
  }

  lemma Monotone(w: nat, t: nat, h: nat, h': nat)
    requires w > 0 && t > 0
    ensures h + 1 <= h' ==> w * (h + 1) * t <= w * h' * t
  {
    if h + 1 <= h' {
      assert w * (h + 1) <= w * h';
      assert (w * (h + 1)) * t <= (w * h') * t;
    }
  }

  lemma ExactFill(w: nat, h: nat, t: nat)
    requires w > 0 && t > 0
    ensures Fills(w * h * t, w, h, t)
  {
    assert w * (h + 1) == w * h + w;
    assert (w * h + w) * t == w * h * t + w * t;
    assert w * t > 0;
  }

  /** The size that a format is allocated for is the size that is recovered. */
  lemma RecoversSize(f: PixelFormat, size: Size, v: V4L2Format, w: nat, h: nat)
    requires NumPlanes(f) > 0 && BytesPerElement(f, 0) > 0 && Aligned(f, size) == size && size.width > 0
    requires v.pixelFormat == Some(f) && v.planes != []
    requires v.planes[0].bytesPerLine == PlaneSize(f, 0, size).width && SizeSum(v.planes) == ImageBytes(f, size)
    requires LineBytes(f, w) == v.planes[0].bytesPerLine && LargestHeight(v, w, h)
    ensures w == size.width && h == size.height
  {
    FirstPlane(f);
    PlanesBytesAreBits(f, size, NumPlanes(f));
    SameProduct(w, size.width, BytesPerElement(f, 0));
    hide Fills, PlanesBits, PlanesBytes, SizeSum, Aligned;
    ExactFill(size.width, size.height, TotalBits(f));
    OnlyHeight(8 * ImageBytes(f, size), w, TotalBits(f), h, size.height);
  }

  lemma SameProduct(a: nat, b: nat, k: nat)
    requires k > 0 && a * k == k * b
    ensures a == b
  {
    assert (a - b) * k == 0;
  }

  /** Allocating an image and asking for its coded size gives the size back, for every format with pixels in bytes. */
  method RoundTrip(f: PixelFormat, size: Size) returns (recovered: Option<(nat, int)>)
    requires NumPlanes(f) > 0 && BytesPerElement(f, 0) > 0
    requires size.width > 0 && 0 < size.height <= INT_MAX && Aligned(f, size) == size
    requires 0 < ImageBytes(f, size) <= INT_MAX && PlaneSize(f, 0, size).width <= INT_MAX
    ensures recovered == Some((size.width, size.height))
  {
    Lines(f, size);
    hide Fills, PlanesBits, PlanesBytes, IsArea, Aligned, PlaneSize, LargestHeight, TotalBits, ImageBytes, LineBytes,
         ToInt32;
    var line := PlaneSize(f, 0, size).width;
    var bytes := AllocationSize(f, size);
    var v := V4L2Format(Some(f), [PlaneFormat(line, bytes)]);
    assert v.planes[..0] == [] && SizeSum(v.planes) == bytes;
    recovered := AllocatedSizeFromV4L2Format(v);
    ghost var h :| recovered.value.1 == ToInt32(h) && LargestHeight(v, recovered.value.0, h);
    RecoversSize(f, size, v, recovered.value.0, h);
    FitsInt32(h);
  }

  lemma FitsInt32(h: nat)
    requires h <= INT_MAX
    ensures ToInt32(h) == h
  {
  }

  lemma Lines(f: PixelFormat, size: Size)
    requires NumPlanes(f) > 0 && BytesPerElement(f, 0) > 0 && size.width > 0 && Aligned(f, size) == size
    ensures PlaneSize(f, 0, size).width > 0 && PlaneSize(f, 0, size).width % BytesPerElement(f, 0) == 0
  {
    DivMod(BytesPerElement(f, 0) * size.width, BytesPerElement(f, 0), size.width, 0);
  }

  // ----- The final check of the source -----

  /**
    The source asserts that the image is no larger than the allocation for the coded size: that is, than the bits of
    the aligned size. For a coded size that needs no alignment this holds if and only if the image is filled exactly;
    for an odd height that is aligned it always holds.
   */
  lemma ImageFitsIff(f: PixelFormat, sizeimage: nat, size: Size)
    requires Fills(8 * sizeimage, size.width, size.height, TotalBits(f))
    ensures var aligned := Aligned(f, size);
            sizeimage <= ImageBytes(f, size) <==> 8 * sizeimage <= aligned.width * aligned.height * TotalBits(f)
    ensures Aligned(f, size) == size ==>
              (sizeimage <= ImageBytes(f, size) <==> 8 * sizeimage == size.width * size.height * TotalBits(f))
    ensures Aligned(f, size).height > size.height ==> sizeimage <= ImageBytes(f, size)
  {
    PlanesBytesAreBits(f, size, NumPlanes(f));
    var aligned := Aligned(f, size);
    if aligned.height > size.height {
      Product(size.width, aligned.width, size.height + 1, aligned.height, TotalBits(f));
    }
  }

  lemma Product(a: nat, a': nat, b: nat, b': nat, t: nat)
    requires a <= a' && b <= b'
    ensures a * b * t <= a' * b' * t
  {
    assert a * b <= a' * b && a' * b <= a' * b';
    assert (a' * b' - a * b) * t >= 0;
  }

  /** It also asserts that the visible size is within the coded size: the visible lines and the visible image fit. */
  lemma VisibleFitsIff(v: V4L2Format, w: nat, h: nat, visible: Size)
    requires v.planes != [] && LargestHeight(v, w, h) && NumPlanes(v.pixelFormat.value) > 0
    requires BytesPerElement(v.pixelFormat.value, 0) > 0 && TotalBits(v.pixelFormat.value) > 0 && w > 0
    requires v.planes[0].bytesPerLine == LineBytes(v.pixelFormat.value, w)
    ensures visible.width <= w && visible.height <= h <==>
            && LineBytes(v.pixelFormat.value, visible.width) <= v.planes[0].bytesPerLine
            && w * visible.height * TotalBits(v.pixelFormat.value) <= 8 * SizeSum(v.planes)
  {
    var f := v.pixelFormat.value;
    Scaled(visible.width, w, BytesPerElement(f, 0));
    if visible.height <= h {
      Product(w, w, visible.height, h, TotalBits(f));
    } else {
      Product(w, w, h + 1, visible.height, TotalBits(f));
    }
  }

  lemma Scaled(a: nat, b: nat, k: nat)
    requires k > 0
    ensures a <= b <==> a * k <= b * k
  {
    if a <= b {
      assert (b - a) * k >= 0;
    } else {
      assert (a - b) * k > 0;
    }
  }

  /** One byte of padding after a 16x16 NV12 image breaks it. */
  lemma PaddedImageDoesNotFit()
    ensures Fills(8 * 385, 16, 16, TotalBits(NV12)) && ImageBytes(NV12, Size(16, 16)) == 384
  {
    assert PlanesBits(NV12, 1) == 8 && PlanesBits(NV12, 2) == 12;
    assert PlanesBytes(NV12, Size(16, 16), 1) == 256 && PlanesBytes(NV12, Size(16, 16), 2) == 384;
  }
}

/** The pure helpers of src/caffe/util/io.cpp: the extension test `matchExt`, the
    depth to element-size table, the label shape a label byte string gets, and the
    HWC to CHW byte copy of `CVMatToDatum`. */
module DatumIo {

  import opened Wrappers
  import Text
  import Index

  /** DatumShape::DataDepth (and the matching OpenCV depths CV_8S .. CV_64F);
      `Other` is any value outside the table. */
  datatype Depth = Depth8S | Depth8U | Depth16S | Depth16U | Depth32S | Depth32F | Depth64F
                 | Other(code: int)

  /** Element width in bits, as the depth's name spells it. */
  function Bits(depth: Depth): nat
    requires !depth.Other?
  {
    match depth
    case Depth8S => 8
    case Depth8U => 8
    case Depth16S => 16
    case Depth16U => 16
    case Depth32S => 32
    case Depth32F => 32
    case Depth64F => 64
  }

  /** The element-size table (sizeof of the C type for each depth); any other
      depth is fatal. */
  function ElemSize(depth: Depth): (r: Result<nat>)
    ensures r.Ok? <==> !depth.Other?
    ensures r.Ok? ==> r.value * 8 == Bits(depth) && r.value > 0
  {
    match depth
    case Depth8S => Ok(1)
    case Depth8U => Ok(1)
    case Depth16S => Ok(2)
    case Depth16U => Ok(2)
    case Depth32S => Ok(4)
    case Depth32F => Ok(4)
    case Depth64F => Ok(8)
    case Other(_) => Fail("Unknow deth")
  }

  datatype Shape = Shape(depth: Depth, channels: int, height: int, width: int)

  /** The protobuf Datum fields this model touches. */
  datatype Datum = Datum(dataShape: Option<Shape>, labelShape: Option<Shape>,
                         data: seq<bv8>, labelBytes: seq<bv8>, encoded: bool)

  /** Shape recorded for a label byte string of the given depth: as many channels as
      whole elements fit in the bytes, height and width 1. */
  function LabelShapeOf(depth: Depth, labelBytes: seq<bv8>): (r: Result<Shape>)
    ensures r.Ok? <==> !depth.Other?
    ensures r.Ok? ==> r.value.depth == depth && r.value.height == 1 && r.value.width == 1
    ensures r.Ok? ==> 0 <= r.value.channels * ElemSize(depth).value <= |labelBytes|
                       < (r.value.channels + 1) * ElemSize(depth).value
  {
    var size :- ElemSize(depth);
    var channels := |labelBytes| / size;
    Index.FlatSplit(|labelBytes|, |labelBytes| + 1, size);
    Ok(Shape(depth, channels, 1, 1))
  }

  // ------------------------------------------------------------------ matchExt

  /** The extension `matchExt` compares: the suffix from the last '.', the dot
      included, or the whole name when it has no dot. */
  function Extension(fn: string): (ext: string)
    ensures '.' in fn ==> 0 < |ext| && ext[0] == '.' && '.' !in ext[1..]
    ensures '.' in fn ==> |ext| <= |fn| && fn == fn[..|fn| - |ext|] + ext
    ensures '.' !in fn ==> ext == fn
  {
    var p := Text.LastIndexOf(fn, '.');
    if p.Some? then
      assert fn == fn[..p.value] + fn[p.value..];
      fn[p.value..]
    else fn
  }

  /** Does the file's extension match the requested encoding, ignoring case, with
      "jpg" also accepting "jpeg"? */
  function MatchExt(fn: string, en: string): bool
  {
    var ext := Text.ToLower(Extension(fn));
    var enc := Text.ToLower(en);
    ext == enc || (enc == "jpg" && ext == "jpeg")
  }

  lemma LowerKeepsDot(s: string)
    ensures ('.' in Text.ToLower(s)) <==> ('.' in s)
  {
    var t := Text.ToLower(s);
    if '.' in s {
      var i :| 0 <= i < |s| && s[i] == '.';
      assert t[i] == '.';
    }
    if '.' in t {
      var i :| 0 <= i < |t| && t[i] == '.';
      assert s[i] == '.';
    }
  }

  /** The encoding the list tool guesses for a dotted name (its lowered extension)
      always matches that name. */
  lemma MatchExtOfGuess(fn: string)
    requires '.' in fn
    ensures MatchExt(fn, Text.ToLower(Extension(fn)))
  {
    Text.ToLowerIdempotent(Extension(fn));
  }

  /** A dotted name matches only encodings that themselves start with '.', so for
      such names the "jpg"/"jpeg" alias never applies. */
  lemma MatchExtNeedsDot(fn: string, en: string)
    requires '.' in fn && MatchExt(fn, en)
    ensures 0 < |en| && en[0] == '.'
    ensures Text.ToLower(en) != "jpg"
  {
    var ext := Extension(fn);
    var low := Text.ToLower(ext);
    var enc := Text.ToLower(en);
    assert low[0] == '.';
    assert low != "jpeg";
    assert enc == low;
    assert !Text.IsUpper(en[0]);
  }

  /** Case never matters on either side. */
  lemma MatchExtIgnoresCase(fn: string, en: string)
    ensures MatchExt(fn, en) == MatchExt(fn, Text.ToLower(en))
  {
    Text.ToLowerIdempotent(en);
  }

  // ------------------------------------------------------------------ CVMatToDatum

  /** Extents of an image: channels, rows, columns and bytes per element. */
  datatype Dims = Dims(channels: nat, height: nat, width: nat, elem: nat)

  /** Byte e of element (c, h, w). */
  datatype Coord = Coord(c: nat, h: nat, w: nat, e: nat)

  predicate InBox(d: Dims, p: Coord)
  {
    p.c < d.channels && p.h < d.height && p.w < d.width && p.e < d.elem
  }

  /** Bytes in the planar buffer: C*H*W*E. */
  function Size(d: Dims): nat
  {
    d.channels * d.height * d.width * d.elem
  }

  /** Position of byte p in the planar (channel-major) datum buffer. */
  function DatumIndex(d: Dims, p: Coord): nat
  {
    ((p.c * d.height + p.h) * d.width + p.w) * d.elem + p.e
  }

  /** Position of byte p in the interleaved (pixel-major) image data. */
  function ImageIndex(d: Dims, p: Coord): nat
  {
    ((p.h * d.width + p.w) * d.channels + p.c) * d.elem + p.e
  }

  lemma DatumIndexBound(d: Dims, p: Coord)
    requires InBox(d, p)
    ensures DatumIndex(d, p) < Size(d)
  {
    Index.FlatBound(p.c, p.h, d.channels, d.height);
    Index.FlatBound(p.c * d.height + p.h, p.w, d.channels * d.height, d.width);
    Index.FlatBound((p.c * d.height + p.h) * d.width + p.w, p.e,
                    d.channels * d.height * d.width, d.elem);
  }

  lemma ImageIndexBound(d: Dims, p: Coord)
    requires InBox(d, p)
    ensures ImageIndex(d, p) < Size(d)
  {
    Index.FlatBound(p.h, p.w, d.height, d.width);
    Index.FlatBound(p.h * d.width + p.w, p.c, d.height * d.width, d.channels);
    Index.FlatBound((p.h * d.width + p.w) * d.channels + p.c, p.e,
                    d.height * d.width * d.channels, d.elem);
    SizeReordered(d);
  }

  lemma SizeReordered(d: Dims)
    ensures d.height * d.width * d.channels * d.elem == Size(d)
  {
    var hw := d.height * d.width;
    assert hw * d.channels == d.channels * d.height * d.width;
  }

  /** Two mixed-radix positions agree only when all their digits do. */
  lemma ThreeDigitsUnique(x0: nat, x1: nat, x2: nat, x3: nat, y0: nat, y1: nat, y2: nat, y3: nat,
                          m1: nat, m2: nat, m3: nat)
    requires x1 < m1 && y1 < m1 && x2 < m2 && y2 < m2 && x3 < m3 && y3 < m3
    requires ((x0 * m1 + x1) * m2 + x2) * m3 + x3 == ((y0 * m1 + y1) * m2 + y2) * m3 + y3
    ensures x0 == y0 && x1 == y1 && x2 == y2 && x3 == y3
  {
    var xa := x0 * m1 + x1;
    var ya := y0 * m1 + y1;
    Index.MulMono(0, x0, m1);
    Index.MulMono(0, y0, m1);
    var xb := xa * m2 + x2;
    var yb := ya * m2 + y2;
    Index.MulMono(0, xa, m2);
    Index.MulMono(0, ya, m2);
    Index.FlatUnique(xb, x3, yb, y3, m3);
    Index.FlatUnique(xa, x2, ya, y2, m2);
    Index.FlatUnique(x0, x1, y0, y1, m1);
  }

  /** Distinct bytes go to distinct buffer positions. */
  lemma DatumIndexInjective(d: Dims, p: Coord, q: Coord)
    requires InBox(d, p) && InBox(d, q) && DatumIndex(d, p) == DatumIndex(d, q)
    ensures p == q
  {
    ThreeDigitsUnique(p.c, p.h, p.w, p.e, q.c, q.h, q.w, q.e, d.height, d.width, d.elem);
  }

  /** Distinct bytes are read from distinct image positions. */
  lemma ImageIndexInjective(d: Dims, p: Coord, q: Coord)
    requires InBox(d, p) && InBox(d, q) && ImageIndex(d, p) == ImageIndex(d, q)
    ensures p == q
  {
    ThreeDigitsUnique(p.h, p.w, p.c, p.e, q.h, q.w, q.c, q.e, d.width, d.channels, d.elem);
  }

  /** Every buffer position belongs to some byte. */
  lemma DatumIndexOnto(d: Dims, i: nat) returns (p: Coord)
    requires i < Size(d)
    ensures InBox(d, p) && DatumIndex(d, p) == i
  {
    var chw := d.channels * d.height * d.width;
    Index.FlatSplit(i, chw, d.elem);
    var x1 := i / d.elem;
    Index.FlatSplit(x1, d.channels * d.height, d.width);
    var x2 := x1 / d.width;
    Index.FlatSplit(x2, d.channels, d.height);
    p := Coord(x2 / d.height, x2 % d.height, x1 % d.width, i % d.elem);
  }

  /** Every image position is the source of some byte. */
  lemma ImageIndexOnto(d: Dims, j: nat) returns (p: Coord)
    requires j < Size(d)
    ensures InBox(d, p) && ImageIndex(d, p) == j
  {
    SizeReordered(d);
    var hwc := d.height * d.width * d.channels;
    Index.FlatSplit(j, hwc, d.elem);
    var x1 := j / d.elem;
    Index.FlatSplit(x1, d.height * d.width, d.channels);
    var x2 := x1 / d.channels;
    Index.FlatSplit(x2, d.height, d.width);
    p := Coord(x1 % d.channels, x2 / d.width, x2 % d.width, j % d.elem);
  }

  /** buf holds, for every byte whose image position is below k, that image byte at
      its planar position. */
  ghost predicate Copied(buf: seq<bv8>, img: seq<bv8>, d: Dims, k: int)
  {
    forall p {:trigger DatumIndex(d, p)} :: InBox(d, p) && ImageIndex(d, p) < k ==>
      DatumIndex(d, p) < |buf| && ImageIndex(d, p) < |img| &&
      buf[DatumIndex(d, p)] == img[ImageIndex(d, p)]
  }

  /** The whole planar buffer: every byte of the image at its planar position. */
  ghost predicate Planar(buf: seq<bv8>, img: seq<bv8>, d: Dims)
  {
    |buf| == Size(d) && |img| == Size(d) && Copied(buf, img, d, Size(d))
  }

  /** The planar buffer is determined by the image: no byte of the initial fill
      survives and no position is written twice with different values. */
  lemma PlanarUnique(b1: seq<bv8>, b2: seq<bv8>, img: seq<bv8>, d: Dims)
    requires Planar(b1, img, d) && Planar(b2, img, d)
    ensures b1 == b2
  {
    forall i | 0 <= i < |b1|
      ensures b1[i] == b2[i]
    {
      var p := DatumIndexOnto(d, i);
      ImageIndexBound(d, p);
      assert b1[DatumIndex(d, p)] == img[ImageIndex(d, p)];
    }
  }

  /** Every image byte appears in the planar buffer. */
  lemma PlanarKeepsEveryByte(buf: seq<bv8>, img: seq<bv8>, d: Dims, j: nat)
    requires Planar(buf, img, d) && j < |img|
    ensures exists i :: 0 <= i < |buf| && buf[i] == img[j]
  {
    var p := ImageIndexOnto(d, j);
    DatumIndexBound(d, p);
    assert buf[DatumIndex(d, p)] == img[j];
  }

  lemma CopyStart(buf: seq<bv8>, img: seq<bv8>, d: Dims)
    ensures ImageIndex(d, Coord(0, 0, 0, 0)) == 0
    ensures Copied(buf, img, d, 0)
  {
  }

  /** Writing byte p, the next one in image order, extends the copied prefix. */
  lemma CopyStep(buf: seq<bv8>, img: seq<bv8>, d: Dims, p: Coord, datumIndex: int, imgIndex: int)
    requires InBox(d, p) && |buf| == Size(d) && |img| == Size(d)
    requires datumIndex == DatumIndex(d, p) && imgIndex == ImageIndex(d, p)
    requires Copied(buf, img, d, imgIndex)
    ensures 0 <= datumIndex < |buf| && 0 <= imgIndex < |img|
    ensures Copied(buf[datumIndex := img[imgIndex]], img, d,
                   ImageIndex(d, Coord(p.c, p.h, p.w, p.e + 1)))
  {
    DatumIndexBound(d, p);
    ImageIndexBound(d, p);
    var buf' := buf[datumIndex := img[imgIndex]];
    forall q | InBox(d, q) && ImageIndex(d, q) < imgIndex + 1
      ensures DatumIndex(d, q) < |buf'| && ImageIndex(d, q) < |img|
      ensures buf'[DatumIndex(d, q)] == img[ImageIndex(d, q)]
    {
      DatumIndexBound(d, q);
      ImageIndexBound(d, q);
      if q != p {
        if DatumIndex(d, q) == DatumIndex(d, p) {
          DatumIndexInjective(d, p, q);
        }
        if ImageIndex(d, q) == ImageIndex(d, p) {
          ImageIndexInjective(d, p, q);
        }
      }
    }
  }

  /** Image positions run on without a gap from one loop level to the next. */
  lemma Carry(d: Dims, c: nat, h: nat, w: nat)
    ensures ImageIndex(d, Coord(c, h, w, d.elem)) == ImageIndex(d, Coord(c + 1, h, w, 0))
    ensures ImageIndex(d, Coord(d.channels, h, w, 0)) == ImageIndex(d, Coord(0, h, w + 1, 0))
    ensures ImageIndex(d, Coord(0, h, d.width, 0)) == ImageIndex(d, Coord(0, h + 1, 0, 0))
    ensures ImageIndex(d, Coord(0, d.height, 0, 0)) == Size(d)
  {
    var x := (h * d.width + w) * d.channels + c;
    assert (x + 1) * d.elem == x * d.elem + d.elem;
    var y := h * d.width + w;
    assert (y + 1) * d.channels == y * d.channels + d.channels;
    assert (h + 1) * d.width == h * d.width + d.width;
    SizeReordered(d);
  }

  lemma CopyDone(buf: seq<bv8>, img: seq<bv8>, d: Dims)
    requires |buf| == Size(d) && |img| == Size(d)
    requires Copied(buf, img, d, Size(d))
    ensures Planar(buf, img, d)
  {
  }

  /** The two inner loops of CVMatToDatum (io.cpp lines 420-426): copy every byte of
      every channel of pixel (h, w) to its planar position. */
  method CopyPixel(buffer: array<bv8>, img: seq<bv8>, d: Dims, h: nat, w: nat)
    requires h < d.height && w < d.width
    requires buffer.Length == Size(d) && |img| == Size(d)
    requires Copied(buffer[..], img, d, ImageIndex(d, Coord(0, h, w, 0)))
    modifies buffer
    ensures Copied(buffer[..], img, d, ImageIndex(d, Coord(0, h, w + 1, 0)))
  {
    var c := 0;
    while c < d.channels
      invariant c <= d.channels
      invariant Copied(buffer[..], img, d, ImageIndex(d, Coord(c, h, w, 0)))
    {
      var e := 0;
      while e < d.elem
        invariant e <= d.elem
        invariant Copied(buffer[..], img, d, ImageIndex(d, Coord(c, h, w, e)))
      {
        var imgIndex := ((h * d.width + w) * d.channels + c) * d.elem + e;
        var datumIndex := ((c * d.height + h) * d.width + w) * d.elem + e;
        CopyStep(buffer[..], img, d, Coord(c, h, w, e), datumIndex, imgIndex);
        ghost var before := buffer[..];
        buffer[datumIndex] := img[imgIndex];
        assert buffer[..] == before[datumIndex := img[imgIndex]];
        e := e + 1;
      }
      Carry(d, c, h, w);
      c := c + 1;
    }
    Carry(d, c, h, w);
  }

  /** CVMatToDatum: record the image's shape (depth, channels, rows, columns) in the
      label or the data shape, and copy its interleaved bytes into a planar buffer
      stored as the label or the data; `encoded` becomes false. `img` is the Mat's
      continuous pixel data. An unknown depth is fatal. */
  method CVMatToDatum(img: seq<bv8>, depth: Depth, channels: nat, rows: nat, cols: nat,
                      isLabel: bool, datum: Datum) returns (r: Result<Datum>)
    requires !depth.Other? ==> |img| == Size(Dims(channels, rows, cols, ElemSize(depth).value))
    ensures r.Ok? <==> !depth.Other?
    ensures r.Ok? ==> !r.value.encoded
    ensures r.Ok? && isLabel ==>
      r.value.labelShape == Some(Shape(depth, channels, rows, cols)) &&
      r.value.dataShape == datum.dataShape && r.value.data == datum.data &&
      Planar(r.value.labelBytes, img, Dims(channels, rows, cols, ElemSize(depth).value))
    ensures r.Ok? && !isLabel ==>
      r.value.dataShape == Some(Shape(depth, channels, rows, cols)) &&
      r.value.labelShape == datum.labelShape && r.value.labelBytes == datum.labelBytes &&
      Planar(r.value.data, img, Dims(channels, rows, cols, ElemSize(depth).value))
  {
    var elemSize := ElemSize(depth);
    if elemSize.Fail? {
      return Fail(elemSize.reason);
    }
    var shape := Shape(depth, channels, rows, cols);
    var d := Dims(channels, rows, cols, elemSize.value);
    var buffer := new bv8[channels * rows * cols * elemSize.value](_ => 32);
    CopyStart(buffer[..], img, d);
    var h := 0;
    while h < rows
      invariant h <= rows
      invariant Copied(buffer[..], img, d, ImageIndex(d, Coord(0, h, 0, 0)))
    {
      var w := 0;
      while w < cols
        invariant w <= cols
        invariant Copied(buffer[..], img, d, ImageIndex(d, Coord(0, h, w, 0)))
      {
        CopyPixel(buffer, img, d, h, w);
        w := w + 1;
      }
      Carry(d, 0, h, w);
      h := h + 1;
    }
    Carry(d, 0, h, 0);
    CopyDone(buffer[..], img, d);
    if isLabel {
      r := Ok(datum.(labelShape := Some(shape), encoded := false, labelBytes := buffer[..]));
    } else {
      r := Ok(datum.(dataShape := Some(shape), encoded := false, data := buffer[..]));
    }
  }
}

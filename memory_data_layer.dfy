/** MemoryDataLayer (src/caffe/layers/memory_data_layer.cpp): a layer that serves
    batches from arrays held in memory. AddDatumVector fills a label blob from the
    datums' label bytes and hands data and labels to Reset; each Forward serves the
    batch at the cursor `pos` and advances it modulo the item count `n`. */
module MemoryData {

  import opened Wrappers
  import DatumIo
  import Index

  /** Reading element `id` of a label byte string of the given depth as a Dtype
      (the pointer casts of lines 63-111). */
  type Decoder = (DatumIo.Depth, seq<bv8>, nat) -> real

  /** What AddDatumVector reads from one datum: its label shape and label bytes. */
  datatype Item = Item(shape: DatumIo.Shape, bytes: seq<bv8>)

  /** Blob::Reshape's check on a four-axis shape: no dimension is negative. */
  predicate NonNegative(num: int, c: int, h: int, w: int)
  {
    num >= 0 && c >= 0 && h >= 0 && w >= 0
  }

  /** C++ `%` on int: the remainder takes the sign of the dividend. */
  function CRem(a: int, b: int): (r: int)
    requires b != 0
    ensures a >= 0 && b > 0 ==> r == a % b
    ensures a >= 0 ==> r >= 0
    ensures a < 0 ==> r <= 0
  {
    var m := if b > 0 then b else -b;
    if a >= 0 then a % m else -((-a) % m)
  }

  // ------------------------------------------------------------------ label copy

  /** Number of label elements an item's bytes hold: whole elements of the depth's
      size. Bytes of an unknown depth are all counted, so any of them is fatal. */
  function ElemCount(depth: DatumIo.Depth, bytes: seq<bv8>): nat
  {
    match DatumIo.ElemSize(depth)
    case Ok(e) => |bytes| / e
    case Fail(_) => |bytes|
  }

  function Count(items: seq<Item>, k: nat): nat
    requires k < |items|
  {
    ElemCount(items[k].shape.depth, items[k].bytes)
  }

  /** Item k's elements land at k*count .. k*count + count - 1. */
  predicate Fits(items: seq<Item>, k: nat, len: nat)
    requires k < |items|
  {
    k * Count(items, k) + Count(items, k) <= len
  }

  /** What the loop of lines 54-113 checks for item k: the first item's label shape,
      a known depth for any element it copies, and (undefined behaviour in the
      source, a failure here) every write inside the label blob. */
  predicate ItemOk(items: seq<Item>, k: nat, len: nat)
    requires k < |items|
  {
    items[k].shape == items[0].shape &&
    (Count(items, k) > 0 ==> !items[0].shape.depth.Other?) &&
    Fits(items, k, len)
  }

  predicate ItemsOkBefore(items: seq<Item>, k: nat, len: nat)
    requires k <= |items|
  {
    forall j :: 0 <= j < k ==> ItemOk(items, j, len)
  }

  predicate LabelsOk(items: seq<Item>, len: nat)
  {
    ItemsOkBefore(items, |items|, len)
  }

  /** The blob after writing the first `id` elements of one item at `offset`. */
  function WriteItem(base: seq<real>, depth: DatumIo.Depth, bytes: seq<bv8>, offset: nat,
                     decode: Decoder, id: nat): (r: seq<real>)
    requires id == 0 || offset + id <= |base|
    ensures |r| == |base|
  {
    if id == 0 then base
    else WriteItem(base, depth, bytes, offset, decode, id - 1)[offset + id - 1 := decode(depth, bytes, id - 1)]
  }

  predicate FitBefore(items: seq<Item>, k: nat, len: nat)
    requires k <= |items|
  {
    forall j :: 0 <= j < k ==> Fits(items, j, len)
  }

  /** The label blob after items 0 .. k-1 have been copied, in order. */
  function Written(init: seq<real>, items: seq<Item>, decode: Decoder, k: nat): (r: seq<real>)
    requires k <= |items| && FitBefore(items, k, |init|)
    ensures |r| == |init|
  {
    if k == 0 then init
    else
      var j := k - 1;
      assert Fits(items, j, |init|);
      WriteItem(Written(init, items, decode, j), items[0].shape.depth, items[j].bytes,
                j * Count(items, j), decode, Count(items, j))
  }

  lemma WriteItemAt(base: seq<real>, depth: DatumIo.Depth, bytes: seq<bv8>, offset: nat,
                    decode: Decoder, id: nat, i: int)
    requires offset + id <= |base| && 0 <= i < |base|
    ensures offset <= i < offset + id ==>
      WriteItem(base, depth, bytes, offset, decode, id)[i] == decode(depth, bytes, i - offset)
    ensures !(offset <= i < offset + id) ==> WriteItem(base, depth, bytes, offset, decode, id)[i] == base[i]
  {
    if id > 0 {
      WriteItemAt(base, depth, bytes, offset, decode, id - 1, i);
    }
  }

  predicate Uniform(items: seq<Item>, size: nat)
  {
    forall k :: 0 <= k < |items| ==> ElemCount(items[k].shape.depth, items[k].bytes) == size
  }

  /** Label element id of item k sits at k*size + id when every item holds `size`
      elements: item k's labels are the block k of the blob. */
  lemma {:induction false} WrittenPlaces(init: seq<real>, items: seq<Item>, decode: Decoder,
                                         k: nat, size: nat, j: nat, id: nat)
    requires k <= |items| && FitBefore(items, k, |init|) && Uniform(items, size)
    requires j < k && id < size
    ensures j * size + id < |init|
    ensures Written(init, items, decode, k)[j * size + id] ==
            decode(items[0].shape.depth, items[j].bytes, id)
  {
    var last := k - 1;
    assert Fits(items, j, |init|) && Fits(items, last, |init|);
    assert Count(items, last) == size && Count(items, j) == size;
    var prev := Written(init, items, decode, last);
    var i := j * size + id;
    WriteItemAt(prev, items[0].shape.depth, items[last].bytes, last * size, decode, size, i);
    if j < last {
      WrittenPlaces(init, items, decode, last, size, j, id);
      Index.FlatBound(j, id, last, size);
    }
  }

  /** Labels shaped the way io.cpp shapes them (one row of channels*E bytes, height
      and width 1) always fit the blob AddDatumVector reshapes for them. */
  lemma ShapedLabelsFit(items: seq<Item>, k: nat, e: nat)
    requires k < |items| && items[k].shape == items[0].shape
    requires DatumIo.ElemSize(items[0].shape.depth) == Ok(e)
    requires items[0].shape.height == 1 && items[0].shape.width == 1
    requires items[0].shape.channels >= 0
    requires |items[k].bytes| == items[0].shape.channels * e
    ensures Count(items, k) == items[0].shape.channels
    ensures Fits(items, k, |items| * (items[0].shape.channels * 1 * 1))
  {
    var c := items[0].shape.channels;
    Index.MulDiv(c, e);
    Index.MulMono(k + 1, |items|, c);
  }

  /** Item k's label loop (lines 60-113): `Count` elements, each decoded with the
      first item's depth and written at k*Count + id. */
  method CopyItem(top: array<real>, items: seq<Item>, decode: Decoder, k: nat) returns (o: Outcome)
    requires k < |items| && items[k].shape == items[0].shape
    modifies top
    ensures o.Pass? <==> ItemOk(items, k, top.Length)
    ensures o.Pass? ==> top[..] == WriteItem(old(top[..]), items[0].shape.depth, items[k].bytes,
                                              k * Count(items, k), decode, Count(items, k))
  {
    var depth := items[0].shape.depth;
    var count := Count(items, k);
    var offset := k * count;
    var id := 0;
    ghost var base := top[..];
    while id < count
      invariant id <= count
      invariant id > 0 ==> offset + id <= top.Length && !depth.Other?
      invariant top[..] == WriteItem(base, depth, items[k].bytes, offset, decode, id)
    {
      if depth.Other? {
        return Stop("Unknow deth of label!");
      }
      if offset + id >= top.Length {
        return Stop("label write outside the label blob");
      }
      ghost var before := top[..];
      top[offset + id] := decode(depth, items[k].bytes, id);
      assert top[..] == before[offset + id := decode(depth, items[k].bytes, id)];
      id := id + 1;
    }
    o := Pass;
  }

  function Zeros(len: nat): (r: seq<real>)
    ensures |r| == len
  {
    seq(len, i => 0.0)
  }

  /** The label loop of lines 53-120 over a freshly reshaped blob of `len` elements:
      it fails exactly when some item breaks ItemOk, and otherwise leaves every item's
      elements written in order. */
  method CopyLabels(items: seq<Item>, decode: Decoder, len: nat) returns (o: Outcome, labels: seq<real>)
    requires |items| > 0
    ensures o.Pass? <==> LabelsOk(items, len)
    ensures o.Pass? ==> FitBefore(items, |items|, len) &&
                        labels == Written(Zeros(len), items, decode, |items|)
  {
    var top := new real[len](i => 0.0);
    var k := 0;
    while k < |items|
      invariant k <= |items| && ItemsOkBefore(items, k, len) && FitBefore(items, k, len)
      invariant top[..] == Written(Zeros(len), items, decode, k)
    {
      if items[k].shape != items[0].shape {
        assert !ItemOk(items, k, len);
        return Stop("label shape differs from the first datum's"), [];
      }
      o := CopyItem(top, items, decode, k);
      if o.Stop? {
        assert !ItemOk(items, k, len);
        return o, [];
      }
      k := k + 1;
    }
    return Pass, top[..];
  }

  // ------------------------------------------------------------------ cursor

  /** The cursor step of line 186. */
  function Advance(pos: int, batch: int, n: int): int
    requires n != 0
  {
    CRem(pos + batch, n)
  }

  /** The cursor invariant: a positive batch size dividing a positive item count,
      and the cursor a multiple of the batch size below the count. */
  predicate CursorOk(pos: int, batch: int, n: int)
  {
    batch > 0 && n > 0 && n % batch == 0 && pos % batch == 0 && 0 <= pos < n
  }

  lemma NextMultiple(pos: int, batch: int, n: int)
    requires CursorOk(pos, batch, n)
    ensures pos + batch <= n && (pos + batch) % batch == 0
  {
    var q := pos / batch;
    var m := n / batch;
    assert pos == q * batch && n == m * batch;
    if q + 1 > m {
      Index.MulMono(m, q, batch);
    }
    Index.MulMono(q + 1, m, batch);
    assert pos + batch == (q + 1) * batch;
    Index.MulDiv(q + 1, batch);
  }

  /** Advancing keeps the invariant, moves to the next batch, and wraps to 0
      exactly after the last batch. */
  lemma AdvanceKeepsCursor(pos: int, batch: int, n: int)
    requires CursorOk(pos, batch, n)
    ensures CursorOk(Advance(pos, batch, n), batch, n)
    ensures Advance(pos, batch, n) == 0 <==> pos + batch == n
    ensures Advance(pos, batch, n) != 0 ==> Advance(pos, batch, n) == pos + batch
  {
    NextMultiple(pos, batch, n);
    if pos + batch == n {
      Index.MulDiv(1, n);
    } else {
      Index.ModOfMultiple(0, pos + batch, n);
    }
  }

  /** The batch a Forward serves lies inside the data array of n*size values. */
  lemma ServedInside(pos: int, batch: int, n: int, size: nat)
    requires CursorOk(pos, batch, n)
    ensures 0 <= pos * size && pos * size + batch * size <= n * size
  {
    NextMultiple(pos, batch, n);
    Index.MulMono(0, pos, size);
    Index.MulMono(pos + batch, n, size);
  }

  /** Cursor after j Forward calls starting from a Reset. */
  function Position(batch: int, n: int, j: nat): int
    requires n != 0
  {
    if j == 0 then 0 else Advance(Position(batch, n, j - 1), batch, n)
  }

  /** One pass: the j-th Forward (j < n/batch) serves items j*batch .. j*batch+batch-1,
      so every item is served once, and the cursor is back at 0 after n/batch calls. */
  lemma {:induction false} PassServesEachBatch(batch: int, n: int, j: nat)
    requires CursorOk(0, batch, n) && j <= n / batch
    ensures j < n / batch ==> Position(batch, n, j) == j * batch && CursorOk(j * batch, batch, n)
    ensures j == n / batch ==> Position(batch, n, j) == 0
  {
    var m := n / batch;
    assert n == m * batch;
    if j > 0 {
      PassServesEachBatch(batch, n, j - 1);
      var p := (j - 1) * batch;
      Distribute(j - 1, 1, batch);
      AdvanceKeepsCursor(p, batch, n);
      if j < m {
        Index.MulDiv(j, batch);
        Index.MulMono(j + 1, m, batch);
        Distribute(j, 1, batch);
      }
    }
  }

  /** Start of the labels a Forward serves: the cursor times the per-item label
      count. Line 185 offsets by the cursor alone (LabelStartAsWritten). */
  function LabelStart(pos: int, stride: int): int
  {
    pos * stride
  }

  /** Line 185 as written. */
  function LabelStartAsWritten(pos: int): int
  {
    pos
  }

  lemma Distribute(a: int, b: int, c: int)
    ensures a * c + b * c == (a + b) * c
  {
  }

  /** With `stride` labels per item, label id of the b-th item of the batch served
      at pos is that item's own label element. */
  lemma ServedLabelsOfBatch(items: seq<Item>, decode: Decoder, len: nat, stride: nat,
                            pos: nat, b: nat, id: nat)
    requires FitBefore(items, |items|, len) && Uniform(items, stride)
    requires pos + b < |items| && id < stride
    ensures LabelStart(pos, stride) + b * stride + id < len
    ensures Written(Zeros(len), items, decode, |items|)[LabelStart(pos, stride) + b * stride + id]
            == decode(items[0].shape.depth, items[pos + b].bytes, id)
  {
    Distribute(pos, b, stride);
    WrittenPlaces(Zeros(len), items, decode, |items|, stride, pos + b, id);
  }

  /** The defect of line 185: two items of two 8-bit labels each, batch size 1. The
      second Forward serves item 1, but at offset 1 the blob holds item 0's second
      label; item 1's first label is at offset 2. */
  lemma LabelStrideFinding(decode: Decoder)
    ensures var shape := DatumIo.Shape(DatumIo.Depth8U, 2, 1, 1);
            var items := [Item(shape, [1, 2]), Item(shape, [3, 4])];
            FitBefore(items, 2, 4) &&
            Advance(0, 1, 2) == 1 &&
            Written(Zeros(4), items, decode, 2)[LabelStartAsWritten(1)] == decode(DatumIo.Depth8U, [1, 2], 1) &&
            Written(Zeros(4), items, decode, 2)[LabelStart(1, 2)] == decode(DatumIo.Depth8U, [3, 4], 0)
  {
    var shape := DatumIo.Shape(DatumIo.Depth8U, 2, 1, 1);
    var items := [Item(shape, [1, 2]), Item(shape, [3, 4])];
    assert Count(items, 0) == 2 && Count(items, 1) == 2;
    assert Uniform(items, 2);
    assert FitBefore(items, 2, 4);
    WrittenPlaces(Zeros(4), items, decode, 2, 2, 0, 1);
    WrittenPlaces(Zeros(4), items, decode, 2, 2, 1, 0);
  }

  /** Lines 60-62 as written: the loop bound is the label's byte count. */
  function ElemCountAsWritten(bytes: seq<bv8>): nat
  {
    |bytes|
  }

  /** The defect of lines 60-62: a 16-bit label of one element (two bytes, shaped
      1x1x1 as io.cpp shapes it) makes the loop write two values into a one-element
      blob; counting elements (ElemCount) writes exactly one. */
  lemma ByteCountFinding()
    ensures var shape := DatumIo.Shape(DatumIo.Depth16S, 1, 1, 1);
            var items := [Item(shape, [0, 7])];
            var blob := |items| * (shape.channels * shape.height * shape.width);
            DatumIo.LabelShapeOf(DatumIo.Depth16S, [0, 7]) == Ok(shape) &&
            0 * ElemCountAsWritten(items[0].bytes) + ElemCountAsWritten(items[0].bytes) > blob &&
            Fits(items, 0, blob)
  {
    var shape := DatumIo.Shape(DatumIo.Depth16S, 1, 1, 1);
    var items := [Item(shape, [0, 7])];
    ShapedLabelsFit(items, 0, 2);
  }

  // ------------------------------------------------------------------ the layer

  class MemoryDataLayer {
    var batchSize: int
    var channels: int
    var height: int
    var width: int
    /** channels * height * width: values per item. */
    var size: int
    /** data_ and labels_: None while the pointer is NULL. */
    var data: Option<seq<real>>
    var labels: Option<seq<real>>
    /** Labels per item in `labels`; the source keeps no such field (line 185). */
    var labelStride: int
    var n: int
    var pos: int
    var hasNewData: bool

    /** A layer before set-up: no arrays and no pending data. */
    constructor ()
      ensures data.None? && labels.None? && !hasNewData && pos == 0 && n == 0
    {
      batchSize, channels, height, width, size := 0, 0, 0, 0, 0;
      data, labels := None, None;
      labelStride, n, pos := 1, 0, 0;
      hasNewData := false;
    }

    /** DataLayerSetUp (lines 12-31): record the batch geometry; the product of the
        batch size and the item size must be positive, and the reshapes of lines 23-26
        refuse a negative dimension; both arrays are cleared. */
    method DataLayerSetUp(batch: int, c: int, h: int, w: int) returns (o: Outcome)
      modifies this
      ensures batchSize == batch && channels == c && height == h && width == w
      ensures size == c * h * w
      ensures o.Pass? <==> batch * (c * h * w) > 0 && NonNegative(batch, c, h, w)
      ensures o.Pass? ==> data.None? && labels.None?
      ensures o.Stop? ==> data == old(data) && labels == old(labels)
      ensures n == old(n) && pos == old(pos) && hasNewData == old(hasNewData) && labelStride == old(labelStride)
    {
      batchSize, channels, height, width := batch, c, h, w;
      size := c * h * w;
      if !(batchSize * size > 0) {
        return Stop("batch_size, channels, height, and width must be specified and positive");
      }
      if !NonNegative(batchSize, channels, height, width) {
        return Stop("Blob::Reshape: a dimension is negative");
      }
      data, labels := None, None;
      o := Pass;
    }

    /** Reset (lines 154-167): both arrays must be given and the count must be a
        multiple of the batch size; the cursor restarts at 0. `stride` is the number
        of labels per item in `l`. */
    method Reset(d: Option<seq<real>>, l: Option<seq<real>>, count: int, stride: int) returns (o: Outcome)
      modifies this
      ensures o.Pass? <==> d.Some? && l.Some? && batchSize != 0 && CRem(count, batchSize) == 0
      ensures o.Pass? ==> data == d && labels == l && n == count && pos == 0 && labelStride == stride
      ensures o.Pass? && count > 0 && batchSize > 0 ==> CursorOk(pos, batchSize, n)
      ensures batchSize == old(batchSize) && size == old(size) && hasNewData == old(hasNewData)
      ensures channels == old(channels) && height == old(height) && width == old(width)
      ensures o.Stop? ==> data == old(data) && labels == old(labels) && n == old(n) && pos == old(pos)
                          && labelStride == old(labelStride)
    {
      if d.None? {
        return Stop("data must not be NULL");
      }
      if l.None? {
        return Stop("labels must not be NULL");
      }
      // batch_size_ == 0 divides by zero: undefined behaviour, a failure here.
      if batchSize == 0 || CRem(count, batchSize) != 0 {
        return Stop("n must be a multiple of batch size");
      }
      data, labels, n, pos, labelStride := d, l, count, 0, stride;
      o := Pass;
    }

    /** AddDatumVector (lines 34-125): refuse while a pass is pending; the item count
        must be a positive multiple of the batch size; copy the labels into a blob of
        |items| x (channels x height x width of the first label shape); then Reset
        with the transformed `images` and mark a pass pending. */
    method AddDatumVector(items: seq<Item>, images: seq<real>, decode: Decoder) returns (o: Outcome)
      modifies this
      ensures o.Pass? <==>
        !old(hasNewData) && |items| > 0 && old(batchSize) > 0 && |items| % old(batchSize) == 0 &&
        items[0].shape.channels >= 0 && items[0].shape.height >= 0 && items[0].shape.width >= 0 &&
        LabelsOk(items, |items| * (items[0].shape.channels * items[0].shape.height * items[0].shape.width))
      ensures o.Pass? ==>
        var len := |items| * (items[0].shape.channels * items[0].shape.height * items[0].shape.width);
        FitBefore(items, |items|, len) &&
        data == Some(images) && labels == Some(Written(Zeros(len), items, decode, |items|)) &&
        n == |items| && pos == 0 && hasNewData && labelStride == Count(items, 0) &&
        CursorOk(pos, batchSize, n)
      ensures batchSize == old(batchSize) && size == old(size)
      ensures channels == old(channels) && height == old(height) && width == old(width)
      ensures o.Stop? ==> data == old(data) && labels == old(labels) && n == old(n) && pos == old(pos)
                          && labelStride == old(labelStride) && hasNewData == old(hasNewData)
    {
      if hasNewData {
        return Stop("Can't add data until current data has been consumed.");
      }
      var num := |items|;
      if num == 0 {
        return Stop("There is no datum to add.");
      }
      // num is a size_t: a negative batch size converts to a huge unsigned value
      // that leaves num as the remainder, and zero divides by zero.
      if batchSize <= 0 || num % batchSize != 0 {
        return Stop("The added data must be a multiple of the batch size.");
      }
      var shape := items[0].shape;
      if shape.channels < 0 || shape.height < 0 || shape.width < 0 {
        return Stop("negative label blob dimension");
      }
      var len := num * (shape.channels * shape.height * shape.width);
      Index.MulMono(0, num, shape.channels * shape.height * shape.width);
      var copied, top := CopyLabels(items, decode, len);
      if copied.Stop? {
        return copied;
      }
      o := Reset(Some(images), Some(top), num, Count(items, 0));
      hasNewData := true;
    }

    /** set_batch_size (lines 170-176): refused while a pass is pending; the reshape
        of the added blobs (lines 174-175) then refuses a negative dimension, after the
        batch size is stored. */
    method SetBatchSize(newSize: int) returns (o: Outcome)
      modifies this
      ensures o.Pass? <==> !old(hasNewData) && NonNegative(newSize, channels, height, width)
      ensures !old(hasNewData) ==> batchSize == newSize
      ensures old(hasNewData) ==> batchSize == old(batchSize)
      ensures data == old(data) && labels == old(labels) && n == old(n) && pos == old(pos)
      ensures hasNewData == old(hasNewData)
      ensures size == old(size) && labelStride == old(labelStride)
      ensures channels == old(channels) && height == old(height) && width == old(width)
    {
      if hasNewData {
        return Stop("Can't change batch_size until current data has been consumed.");
      }
      batchSize := newSize;
      if !NonNegative(batchSize, channels, height, width) {
        return Stop("Blob::Reshape: a dimension is negative");
      }
      o := Pass;
    }

    /** Forward_cpu (lines 179-189): serve the batch at the cursor (data from
        pos*size, labels from pos*labelStride), advance the cursor modulo n, and
        end the pending pass when it wraps to 0. */
    method Forward() returns (o: Outcome, dataStart: int, labelStart: int)
      modifies this
      ensures batchSize == old(batchSize) && n == old(n) && data == old(data) && labels == old(labels)
      ensures size == old(size) && labelStride == old(labelStride)
      ensures channels == old(channels) && height == old(height) && width == old(width)
      ensures o.Pass? <==> old(data).Some? && NonNegative(batchSize, channels, height, width) && old(n) != 0
      ensures o.Pass? ==> dataStart == old(pos) * size && labelStart == LabelStart(old(pos), labelStride)
      ensures o.Pass? ==> pos == Advance(old(pos), batchSize, n)
      ensures o.Pass? ==> hasNewData == (old(hasNewData) && pos != 0)
      ensures o.Pass? && CursorOk(old(pos), batchSize, n) ==>
        CursorOk(pos, batchSize, n) && (pos == 0 <==> old(pos) + batchSize == n)
      ensures o.Stop? ==> pos == old(pos) && hasNewData == old(hasNewData)
    {
      if data.None? {
        return Stop("MemoryDataLayer needs to be initialized by calling Reset"), 0, 0;
      }
      if !NonNegative(batchSize, channels, height, width) {
        return Stop("Blob::Reshape: a dimension is negative"), 0, 0;
      }
      // n_ == 0 (a Reset with no items) divides by zero: undefined behaviour.
      if n == 0 {
        return Stop("modulo by zero items"), 0, 0;
      }
      dataStart := pos * size;
      labelStart := LabelStart(pos, labelStride);
      if CursorOk(pos, batchSize, n) {
        AdvanceKeepsCursor(pos, batchSize, n);
      }
      pos := Advance(pos, batchSize, n);
      if pos == 0 {
        hasNewData := false;
      }
      o := Pass;
    }
  }
}

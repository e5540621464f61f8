/** ExtractGroundTruth and ExtractPredBoxes (src/caffe/util/box.cpp:6-170): turning the
    labels, ground-truth location, default-box, location-prediction and confidence blobs
    into box records whose coordinate pointers address the blobs by row-major offset.

    Arena ids name the blob a `Ref` points into; the caller chooses them. Each check of
    the original is a `Fail` here. The box dimension count comes from the size of a
    repeated protobuf field, so it is a `nat`. */
module BoxExtract {
  import opened Wrappers
  import opened Index
  import opened BoxTypes

  // ------------------------------------------------------------------ ground truth

  /** The shape conditions ExtractGroundTruth checks (box.cpp:9-20, 34-35). */
  predicate GroundTruthShapesOk(labels: seq<int>, location: seq<int>, dims: nat)
  {
    |labels| == |location| && |labels| >= 3 && labels[0] == location[0] && labels[1] == 1
    && (forall a :: 2 <= a < |labels| ==> location[a] == labels[a])
    && location[1] % 2 == 0 && dims == location[1] / 2
  }

  /** Offset of channel `ch` of cell `i` of image `n` in a blob [num, channels, cells].
      box.cpp:40,44 compute `ch*co + i` and never add the image's own offset
      `n*channels*co`; that is the evident intent and is modelled here. */
  function CellOffset(n: nat, ch: nat, i: nat, channels: nat, co: nat): nat
  {
    (n * channels + ch) * co + i
  }

  /** The record built for cell `i` of image `n`: minimum d at location channel d,
      maximum d at channel dims+d, label at label-blob cell i (box.cpp:28 also lacks the
      image offset `n*co`, added here). */
  function GroundTruthBox(n: nat, i: nat, co: nat, dims: nat, labelArena: nat, locArena: nat): GTBox
  {
    GTBox(Box(seq(dims, d requires 0 <= d < dims => Ref(locArena, CellOffset(n, d, i, 2 * dims, co))),
              seq(dims, d requires 0 <= d < dims => Ref(locArena, CellOffset(n, dims + d, i, 2 * dims, co)))),
          Ref(labelArena, CellOffset(n, 0, i, 1, co)), map[])
  }

  predicate IsGroundTruth(boxes: seq<seq<GTBox>>, num: nat, co: nat, dims: nat, labelArena: nat, locArena: nat)
  {
    |boxes| == num
    && forall n :: 0 <= n < num ==>
         |boxes[n]| == co
         && forall i :: 0 <= i < co ==> boxes[n][i] == GroundTruthBox(n, i, co, dims, labelArena, locArena)
  }

  method GroundTruthCell(n: nat, i: nat, co: nat, dims: nat, labelArena: nat, locArena: nat)
    returns (box: GTBox)
    ensures box == GroundTruthBox(n, i, co, dims, labelArena, locArena)
  {
    var minLoc: seq<Ref> := [];
    var d := 0;
    while d < dims
      invariant 0 <= d <= dims && |minLoc| == d
      invariant forall e :: 0 <= e < d ==> minLoc[e] == Ref(locArena, CellOffset(n, e, i, 2 * dims, co))
    {
      minLoc := minLoc + [Ref(locArena, CellOffset(n, d, i, 2 * dims, co))];
      d := d + 1;
    }
    var maxLoc: seq<Ref> := [];
    d := 0;
    while d < dims
      invariant 0 <= d <= dims && |maxLoc| == d
      invariant forall e :: 0 <= e < d ==> maxLoc[e] == Ref(locArena, CellOffset(n, dims + e, i, 2 * dims, co))
    {
      maxLoc := maxLoc + [Ref(locArena, CellOffset(n, dims + d, i, 2 * dims, co))];
      d := d + 1;
    }
    box := GTBox(Box(minLoc, maxLoc), Ref(labelArena, CellOffset(n, 0, i, 1, co)), map[]);
  }

  /** ExtractGroundTruth (box.cpp:6-49). The caller clears `boxes` first
      (multibox_loss_layer.cpp:36), so the model builds a fresh vector. The label pass
      (box.cpp:25-31) and the coordinate pass (box.cpp:36-48) fill the same records and
      are fused; the two checks between them (box.cpp:34-35) come first, which changes
      nothing since a failed check aborts. */
  method ExtractGroundTruth(labels: Tensor, location: Tensor, dims: nat, labelArena: nat, locArena: nat)
    returns (r: Result<seq<seq<GTBox>>>)
    requires ValidTensor(labels) && ValidTensor(location)
    ensures r.Ok? <==> GroundTruthShapesOk(labels.shape, location.shape, dims)
    ensures r.Ok? ==> IsGroundTruth(r.value, labels.shape[0], CountFrom(location.shape, 2), dims, labelArena, locArena)
  {
    if |labels.shape| != |location.shape| { return Fail("labels and location differ in axes"); }
    if |labels.shape| < 3 { return Fail("fewer than 3 axes"); }
    var num := labels.shape[0];
    if num != location.shape[0] { return Fail("labels and location differ in batch size"); }
    if labels.shape[1] != 1 { return Fail("labels channels must be 1"); }
    var co := 1;
    var a := 2;
    while a < |labels.shape|
      invariant 2 <= a <= |labels.shape|
      invariant forall b :: 2 <= b < a ==> location.shape[b] == labels.shape[b]
      invariant co == Prod(location.shape[2..a])
    {
      if location.shape[a] != labels.shape[a] { return Fail("spatial shapes differ"); }
      ProdAppend(location.shape[2..a], [location.shape[a]]);
      assert location.shape[2..a + 1] == location.shape[2..a] + [location.shape[a]];
      co := co * location.shape[a];
      a := a + 1;
    }
    assert location.shape[2..a] == location.shape[2..];
    if location.shape[1] % 2 != 0 { return Fail("location channels must be even"); }
    if dims != location.shape[1] / 2 { return Fail("location channels must be 2 * dims"); }
    assert NonNeg(location.shape[2..]);
    ProdNonNeg(location.shape[2..]);

    var boxes: seq<seq<GTBox>> := [];
    var n := 0;
    while n < num
      invariant 0 <= n <= num && |boxes| == n
      invariant forall m :: 0 <= m < n ==>
                  |boxes[m]| == co
                  && forall i :: 0 <= i < co ==> boxes[m][i] == GroundTruthBox(m, i, co, dims, labelArena, locArena)
    {
      var row: seq<GTBox> := [];
      var i := 0;
      while i < co
        invariant 0 <= i <= co && |row| == i
        invariant forall j :: 0 <= j < i ==> row[j] == GroundTruthBox(n, j, co, dims, labelArena, locArena)
      {
        var box := GroundTruthCell(n, i, co, dims, labelArena, locArena);
        row := row + [box];
        i := i + 1;
      }
      boxes := boxes + [row];
      n := n + 1;
    }
    return Ok(boxes);
  }

  /** A cell offset lies inside its blob. */
  lemma CellOffsetBound(n: nat, ch: nat, i: nat, num: nat, channels: nat, co: nat)
    requires n < num && ch < channels && i < co
    ensures CellOffset(n, ch, i, channels, co) < num * channels * co
  {
    FlatBound(n, ch, num, channels);
    FlatBound(n * channels + ch, i, num * channels, co);
  }

  /** Distinct (image, channel, cell) triples get distinct offsets. */
  lemma CellOffsetInjective(n: nat, ch: nat, i: nat, n': nat, ch': nat, i': nat, channels: nat, co: nat)
    requires ch < channels && ch' < channels && i < co && i' < co
    requires CellOffset(n, ch, i, channels, co) == CellOffset(n', ch', i', channels, co)
    ensures n == n' && ch == ch' && i == i'
  {
    FlatUnique(n * channels + ch, i, n' * channels + ch', i', co);
    FlatUnique(n, ch, n', ch', channels);
  }

  lemma ThreeAxisCount(shape: seq<int>)
    requires |shape| >= 2
    ensures Prod(shape) == shape[0] * shape[1] * Prod(shape[2..])
  {
    var rest := Prod(shape[2..]);
    assert shape[1..][1..] == shape[2..];
    assert Prod(shape[1..]) == shape[1] * rest;
    MulAssoc(shape[0], shape[1], rest);
  }

  /** Every pointer ExtractGroundTruth produces is inside its blob; CellOffsetInjective
      keeps the pointers of distinct boxes and coordinates apart. */
  lemma GroundTruthRefsValid(boxes: seq<seq<GTBox>>, labels: Tensor, location: Tensor, dims: nat,
                             mem: Memory, labelArena: nat, locArena: nat)
    requires ValidTensor(labels) && ValidTensor(location)
    requires GroundTruthShapesOk(labels.shape, location.shape, dims)
    requires IsGroundTruth(boxes, labels.shape[0], CountFrom(location.shape, 2), dims, labelArena, locArena)
    requires labelArena < |mem| && mem[labelArena] == labels.data
    requires locArena < |mem| && mem[locArena] == location.data
    ensures forall n, i :: 0 <= n < |boxes| && 0 <= i < |boxes[n]| ==>
              ValidBox(mem, boxes[n][i].box) && ValidRef(mem, boxes[n][i].labelRef)
  {
    var num, co := labels.shape[0], CountFrom(location.shape, 2);
    ThreeAxisCount(labels.shape);
    ThreeAxisCount(location.shape);
    assert labels.shape[2..] == location.shape[2..];
    forall n, i | 0 <= n < |boxes| && 0 <= i < |boxes[n]|
      ensures ValidBox(mem, boxes[n][i].box) && ValidRef(mem, boxes[n][i].labelRef)
    {
      var b := boxes[n][i];
      assert b == GroundTruthBox(n, i, co, dims, labelArena, locArena);
      forall d | 0 <= d < dims
        ensures ValidRef(mem, b.box.minLoc[d]) && ValidRef(mem, b.box.maxLoc[d])
      {
        CellOffsetBound(n, d, i, num, 2 * dims, co);
        CellOffsetBound(n, dims + d, i, num, 2 * dims, co);
      }
      CellOffsetBound(n, 0, i, num, 1, co);
    }
  }

  // ------------------------------------------------------------------ predictions

  /** The layout ExtractPredBoxes derives from its blobs: dims D, box kinds K, classes C,
      cells co, and the channel counts of the location and confidence predictions. */
  datatype PredLayout = PredLayout(dims: nat, kinds: nat, classes: nat, share: bool, co: nat,
                                   locChannels: nat, confChannels: nat,
                                   defArena: nat, locArena: nat, confArena: nat)

  /** The checks of box.cpp:62-88. */
  predicate PredShapesOk(def: seq<int>, loc: seq<int>, conf: seq<int>, dims: nat, share: bool, classes: int)
  {
    |def| == |loc| && |def| == |conf| && |def| >= 3
    && def[0] == 2 && conf[0] == loc[0]
    && ChannelsOk(def[1], loc[1], conf[1], dims, share, classes)
    && (forall a :: 2 <= a < |def| ==> loc[a] == def[a] && conf[a] == def[a])
  }

  /** The channel checks of box.cpp:70-81. A zero divisor (no dimensions, or no box
      kinds) is a division by zero in the original and a failure here. */
  predicate ChannelsOk(defCh: int, locCh: int, confCh: int, dims: nat, share: bool, classes: int)
  {
    dims > 0 && defCh % (2 * dims) == 0
    && share == (defCh == locCh)
    && defCh / (2 * dims) != 0 && locCh % (defCh / (2 * dims)) == 0
    && classes == confCh / (defCh / (2 * dims))
    && (!share ==> locCh % defCh == 0 && classes == locCh / defCh)
  }

  /** The checks of box.cpp:89-100 and 116-123 on the output vectors. Lines 89-100 test
      `!empty()` where `empty()` is evidently meant (as written, a non-empty vector is
      resized and an empty one must already hold `num` images); the intent is modelled. */
  predicate PredStateOk(defBoxes: seq<seq<DefBox>>, drBoxes: seq<seq<seq<DRBox>>>, num: int, classes: int)
  {
    (|defBoxes| == 0 || |defBoxes| == num)
    && (|drBoxes| == 0 || |drBoxes| == num)
    && forall n :: 0 <= n < |drBoxes| ==> |drBoxes[n]| == 0 || |drBoxes[n]| == classes
  }

  function BaseDefs(defBoxes: seq<seq<DefBox>>, num: nat): seq<seq<DefBox>>
  {
    if |defBoxes| == 0 then seq(num, _ => []) else defBoxes
  }

  function BaseDRs(drBoxes: seq<seq<seq<DRBox>>>, num: nat, classes: nat): seq<seq<seq<DRBox>>>
    requires |drBoxes| == 0 || |drBoxes| == num
  {
    seq(num, n requires 0 <= n < num =>
      if |drBoxes| == 0 || |drBoxes[n]| == 0 then seq(classes, _ => []) else drBoxes[n])
  }

  /** Class whose location a prediction uses: 0 when locations are shared (box.hpp:54). */
  function LocClass(g: PredLayout, c: nat): nat
  {
    if g.share then 0 else c
  }

  function LocClasses(g: PredLayout): nat
  {
    if g.share then 1 else g.classes
  }

  /** Default box (cell i, kind k), coordinate d of 2D (min first): plane 0 of the
      default-location blob [2, 2DK, cells] (box.cpp:136,141). */
  function DefOffset(g: PredLayout, i: nat, k: nat, d: nat): nat
  {
    (k * (2 * g.dims) + d) * g.co + i
  }

  /** The same coordinate's variance: plane 1 of that blob (box.cpp:127,138,143). */
  function VarOffset(g: PredLayout, i: nat, k: nat, d: nat): nat
  {
    g.kinds * (2 * g.dims) * g.co + DefOffset(g, i, k, d)
  }

  /** Location prediction of image n, cell i, kind k, class c, coordinate d, laid out
      kind-major then class (box.hpp:55-59). box.cpp:152,157 add the kind offset twice
      (once in `k*loc_kinds_offset`, once in `box_index`), step classes by `co` instead
      of a whole 2D-channel group, and never add the image offset; the documented
      layout is modelled. */
  function LocOffset(g: PredLayout, n: nat, i: nat, k: nat, c: nat, d: nat): nat
  {
    n * (g.locChannels * g.co) + ((k * LocClasses(g) + LocClass(g, c)) * (2 * g.dims) + d) * g.co + i
  }

  /** Confidence of image n, cell i, kind k, class c (box.cpp:160, plus the image offset
      the original omits). */
  function ConfOffset(g: PredLayout, n: nat, i: nat, k: nat, c: nat): nat
  {
    n * (g.confChannels * g.co) + (k * g.classes + c) * g.co + i
  }

  function DefCorner(g: PredLayout, i: nat, k: nat, first: nat): seq<Ref>
  {
    seq(g.dims, d requires 0 <= d < g.dims => Ref(g.defArena, DefOffset(g, i, k, first + d)))
  }

  function VarCorner(g: PredLayout, i: nat, k: nat, first: nat): seq<Ref>
  {
    seq(g.dims, d requires 0 <= d < g.dims => Ref(g.defArena, VarOffset(g, i, k, first + d)))
  }

  function LocCorner(g: PredLayout, n: nat, i: nat, k: nat, c: nat, first: nat): seq<Ref>
  {
    seq(g.dims, d requires 0 <= d < g.dims => Ref(g.locArena, LocOffset(g, n, i, k, c, first + d)))
  }

  /** The default box of (cell i, kind k) linked to the given predictions. */
  function DefBoxAt(g: PredLayout, i: nat, k: nat, drs: seq<DRRef>): DefBox
  {
    DefBox(Box(DefCorner(g, i, k, 0), DefCorner(g, i, k, g.dims)), map[], drs,
           VarCorner(g, i, k, 0), VarCorner(g, i, k, g.dims))
  }

  /** The prediction of class c decoded from default box `defId` of (cell i, kind k). */
  function DRBoxAt(g: PredLayout, n: nat, i: nat, k: nat, c: nat, defId: nat): DRBox
  {
    DRBox(Box(LocCorner(g, n, i, k, c, 0), LocCorner(g, n, i, k, c, g.dims)), defId,
          Ref(g.confArena, ConfOffset(g, n, i, k, c)))
  }

  /** Pointers to the predictions of slot t in every class below c, where class c' of
      the image already held lens[c'] predictions. */
  function DRRefs(lens: seq<nat>, t: nat, c: nat): (refs: seq<DRRef>)
    requires c <= |lens|
    ensures |refs| == c
  {
    seq(c, c' requires 0 <= c' < c => DRRef(c', lens[c'] + t))
  }

  function Lens<T>(lists: seq<seq<T>>): (lens: seq<nat>)
    ensures |lens| == |lists|
    ensures forall c :: 0 <= c < |lists| ==> lens[c] == |lists[c]|
  {
    seq(|lists|, c requires 0 <= c < |lists| => |lists[c]|)
  }

  /** Slot t = i*K + k of an image is (cell i, kind k), in loop order (box.cpp:129-130). */
  function SlotDef(g: PredLayout, t: nat, lens: seq<nat>): DefBox
    requires g.kinds > 0 && |lens| == g.classes
  {
    DefBoxAt(g, t / g.kinds, t % g.kinds, DRRefs(lens, t, g.classes))
  }

  function SlotDR(g: PredLayout, n: nat, t: nat, c: nat, defBase: nat): DRBox
    requires g.kinds > 0
  {
    DRBoxAt(g, n, t / g.kinds, t % g.kinds, c, defBase + t)
  }

  /** The default boxes one image gains: one per (cell, kind). */
  function ImageDefs(g: PredLayout, lens: seq<nat>): (defs: seq<DefBox>)
    requires g.kinds > 0 && |lens| == g.classes
    ensures |defs| == g.co * g.kinds
  {
    seq(g.co * g.kinds, t requires 0 <= t < g.co * g.kinds => SlotDef(g, t, lens))
  }

  /** The predictions each class of one image gains, appended to what it held. */
  function ExtendDRs(g: PredLayout, n: nat, drs: seq<seq<DRBox>>, defBase: nat): (drs': seq<seq<DRBox>>)
    requires g.kinds > 0
    ensures |drs'| == |drs|
  {
    seq(|drs|, c requires 0 <= c < |drs| =>
      drs[c] + seq(g.co * g.kinds, t requires 0 <= t < g.co * g.kinds => SlotDR(g, n, t, c, defBase)))
  }

  lemma SlotDigits(i: nat, k: nat, kinds: nat)
    requires k < kinds
    ensures (i * kinds + k) / kinds == i && (i * kinds + k) % kinds == k
  {
    var t := i * kinds + k;
    FlatSplit(t, i + 1, kinds);
    FlatUnique(i, k, t / kinds, t % kinds, kinds);
  }

  /** Progress through the slots of one image: the first s slots are in place. */
  predicate Filled(g: PredLayout, n: nat, defs0: seq<DefBox>, drs0: seq<seq<DRBox>>,
                   defs: seq<DefBox>, drs: seq<seq<DRBox>>, s: nat)
    requires g.kinds > 0 && |drs0| == g.classes
  {
    |defs| == |defs0| + s && defs[..|defs0|] == defs0
    && (forall t :: 0 <= t < s ==> defs[|defs0| + t] == SlotDef(g, t, Lens(drs0)))
    && |drs| == g.classes
    && forall c :: 0 <= c < g.classes ==>
         |drs[c]| == |drs0[c]| + s && drs[c][..|drs0[c]|] == drs0[c]
         && forall t :: 0 <= t < s ==> drs[c][|drs0[c]| + t] == SlotDR(g, n, t, c, |defs0|)
  }

  function Shift(first: nat, d: nat): nat
  {
    first + d
  }

  method Corner(arena: nat, offsets: seq<nat>) returns (refs: seq<Ref>)
    ensures |refs| == |offsets|
    ensures forall d :: 0 <= d < |offsets| ==> refs[d] == Ref(arena, offsets[d])
  {
    refs := [];
    var d := 0;
    while d < |offsets|
      invariant 0 <= d <= |offsets| && |refs| == d
      invariant forall e :: 0 <= e < d ==> refs[e] == Ref(arena, offsets[e])
    {
      refs := refs + [Ref(arena, offsets[d])];
      d := d + 1;
    }
  }

  /** One (cell, kind) step of box.cpp:131-166: push the default box, then for every
      class push its prediction and link the two. box.cpp:145-165 index `def_boxes[num]`
      and `dr_boxes[num]` where the image `n` is meant, and take the new prediction's
      index from `dr_boxes.size()` where `dr_boxes[n][c].size()` is meant; the intent is
      modelled. */
  method AddSlot(g: PredLayout, n: nat, i: nat, k: nat, defs0: seq<DefBox>, drs0: seq<seq<DRBox>>,
                 defsIn: seq<DefBox>, drsIn: seq<seq<DRBox>>)
    returns (defs: seq<DefBox>, drs: seq<seq<DRBox>>)
    requires k < g.kinds && |drs0| == g.classes
    requires Filled(g, n, defs0, drs0, defsIn, drsIn, i * g.kinds + k)
    ensures Filled(g, n, defs0, drs0, defs, drs, i * g.kinds + k + 1)
  {
    var t := i * g.kinds + k;
    SlotDigits(i, k, g.kinds);
    var box := NewDefBox(g, i, k);
    defs, drs := LinkClasses(g, n, i, k, Lens(drs0), t, defsIn + [box], drsIn);
    FilledNext(g, n, defs0, drs0, defsIn, drsIn, defs, drs, t);
  }

  /** box.cpp:132-144: the default box of (cell i, kind k), not yet linked. */
  method NewDefBox(g: PredLayout, i: nat, k: nat) returns (box: DefBox)
    ensures box == DefBoxAt(g, i, k, [])
  {
    var offsets: seq<nat> := seq(g.dims, d requires 0 <= d < g.dims => DefOffset(g, i, k, d));
    var minLoc := Corner(g.defArena, offsets);
    offsets := seq(g.dims, d requires 0 <= d < g.dims => DefOffset(g, i, k, Shift(g.dims, d)));
    var maxLoc := Corner(g.defArena, offsets);
    offsets := seq(g.dims, d requires 0 <= d < g.dims => VarOffset(g, i, k, d));
    var minVar := Corner(g.defArena, offsets);
    offsets := seq(g.dims, d requires 0 <= d < g.dims => VarOffset(g, i, k, Shift(g.dims, d)));
    var maxVar := Corner(g.defArena, offsets);
    assert minLoc == DefCorner(g, i, k, 0) && maxLoc == DefCorner(g, i, k, g.dims);
    assert minVar == VarCorner(g, i, k, 0) && maxVar == VarCorner(g, i, k, g.dims);
    box := DefBox(Box(minLoc, maxLoc), map[], [], minVar, maxVar);
  }

  /** box.cpp:150-161: the prediction of class c, decoded from default box `defId`. */
  method NewDRBox(g: PredLayout, n: nat, i: nat, k: nat, c: nat, defId: nat) returns (dr: DRBox)
    ensures dr == DRBoxAt(g, n, i, k, c, defId)
  {
    var offsets: seq<nat> := seq(g.dims, d requires 0 <= d < g.dims => LocOffset(g, n, i, k, c, d));
    var pMin := Corner(g.locArena, offsets);
    offsets := seq(g.dims, d requires 0 <= d < g.dims => LocOffset(g, n, i, k, c, Shift(g.dims, d)));
    var pMax := Corner(g.locArena, offsets);
    assert pMin == LocCorner(g, n, i, k, c, 0) && pMax == LocCorner(g, n, i, k, c, g.dims);
    dr := DRBox(Box(pMin, pMax), defId, Ref(g.confArena, ConfOffset(g, n, i, k, c)));
  }

  /** box.cpp:145-166: for every class, push the prediction of the newest default box
      and link the two. Class c held lens[c] + t predictions before. */
  method LinkClasses(g: PredLayout, n: nat, i: nat, k: nat, lens: seq<nat>, t: nat,
                     defsIn: seq<DefBox>, drsIn: seq<seq<DRBox>>)
    returns (defs: seq<DefBox>, drs: seq<seq<DRBox>>)
    requires |defsIn| > 0 && defsIn[|defsIn| - 1] == DefBoxAt(g, i, k, [])
    requires |lens| == g.classes && |drsIn| == g.classes
    requires forall c :: 0 <= c < g.classes ==> |drsIn[c]| == lens[c] + t
    ensures defs == defsIn[|defsIn| - 1 := DefBoxAt(g, i, k, DRRefs(lens, t, g.classes))]
    ensures |drs| == g.classes
    ensures forall c :: 0 <= c < g.classes ==> drs[c] == drsIn[c] + [DRBoxAt(g, n, i, k, c, |defsIn| - 1)]
  {
    var lastDef := |defsIn| - 1;
    defs, drs := defsIn, drsIn;
    var c := 0;
    while c < g.classes
      invariant 0 <= c <= g.classes
      invariant defs == defsIn[lastDef := DefBoxAt(g, i, k, DRRefs(lens, t, c))]
      invariant |drs| == g.classes
      invariant forall c' :: 0 <= c' < c ==> drs[c'] == drsIn[c'] + [DRBoxAt(g, n, i, k, c', lastDef)]
      invariant forall c' :: c <= c' < g.classes ==> drs[c'] == drsIn[c']
    {
      var dr := NewDRBox(g, n, i, k, c, lastDef);
      var lastDr := |drs[c]|;
      drs := drs[c := drs[c] + [dr]];
      assert DRRefs(lens, t, c + 1) == DRRefs(lens, t, c) + [DRRef(c, lastDr)];
      defs := defs[lastDef := defs[lastDef].(drBoxes := defs[lastDef].drBoxes + [DRRef(c, lastDr)])];
      c := c + 1;
    }
  }

  /** Placing slot t after the first t slots fills the first t + 1. */
  lemma FilledNext(g: PredLayout, n: nat, defs0: seq<DefBox>, drs0: seq<seq<DRBox>>,
                   defsIn: seq<DefBox>, drsIn: seq<seq<DRBox>>, defs: seq<DefBox>, drs: seq<seq<DRBox>>, t: nat)
    requires g.kinds > 0 && |drs0| == g.classes
    requires Filled(g, n, defs0, drs0, defsIn, drsIn, t)
    requires defs == defsIn + [SlotDef(g, t, Lens(drs0))]
    requires |drs| == g.classes
    requires forall c :: 0 <= c < g.classes ==> drs[c] == drsIn[c] + [SlotDR(g, n, t, c, |defs0|)]
    ensures Filled(g, n, defs0, drs0, defs, drs, t + 1)
  {
    var base := |defs0|;
    forall t' | 0 <= t' < t + 1
      ensures defs[base + t'] == SlotDef(g, t', Lens(drs0))
    {
      if t' < t {
        assert defs[base + t'] == defsIn[base + t'];
      }
    }
    forall c' | 0 <= c' < g.classes
      ensures drs[c'][..|drs0[c']|] == drs0[c']
      ensures forall t' :: 0 <= t' < t + 1 ==> drs[c'][|drs0[c']| + t'] == SlotDR(g, n, t', c', base)
    {
      assert drsIn[c'][..|drs0[c']|] == drs0[c'];
    }
    assert defs[..base] == defsIn[..base];
  }

  /** box.cpp:129-168 for one image: all cells, all kinds, all classes. */
  method ExtractImage(g: PredLayout, n: nat, defs0: seq<DefBox>, drs0: seq<seq<DRBox>>)
    returns (defs: seq<DefBox>, drs: seq<seq<DRBox>>)
    requires g.kinds > 0 && |drs0| == g.classes
    ensures defs == defs0 + ImageDefs(g, Lens(drs0))
    ensures drs == ExtendDRs(g, n, drs0, |defs0|)
  {
    defs, drs := defs0, drs0;
    assert defs[..|defs0|] == defs0;
    assert forall c :: 0 <= c < g.classes ==> drs[c][..|drs0[c]|] == drs0[c];
    var i := 0;
    while i < g.co
      invariant 0 <= i <= g.co
      invariant Filled(g, n, defs0, drs0, defs, drs, i * g.kinds)
    {
      var k := 0;
      while k < g.kinds
        invariant 0 <= k <= g.kinds
        invariant Filled(g, n, defs0, drs0, defs, drs, i * g.kinds + k)
      {
        defs, drs := AddSlot(g, n, i, k, defs0, drs0, defs, drs);
        k := k + 1;
      }
      i := i + 1;
    }
    FilledAll(g, n, defs0, drs0, defs, drs);
  }

  lemma FilledAll(g: PredLayout, n: nat, defs0: seq<DefBox>, drs0: seq<seq<DRBox>>,
                  defs: seq<DefBox>, drs: seq<seq<DRBox>>)
    requires g.kinds > 0 && |drs0| == g.classes
    requires Filled(g, n, defs0, drs0, defs, drs, g.co * g.kinds)
    ensures defs == defs0 + ImageDefs(g, Lens(drs0))
    ensures drs == ExtendDRs(g, n, drs0, |defs0|)
  {
    var all := defs0 + ImageDefs(g, Lens(drs0));
    forall p | 0 <= p < |defs|
      ensures defs[p] == all[p]
    {
      if p < |defs0| {
        assert defs[p] == defs[..|defs0|][p];
      } else {
        var t := p - |defs0|;
        assert defs[|defs0| + t] == SlotDef(g, t, Lens(drs0));
      }
    }
    var ext := ExtendDRs(g, n, drs0, |defs0|);
    forall c | 0 <= c < g.classes
      ensures drs[c] == ext[c]
    {
      forall p | 0 <= p < |drs[c]|
        ensures drs[c][p] == ext[c][p]
      {
        if p < |drs0[c]| {
          assert drs[c][p] == drs[c][..|drs0[c]|][p];
        } else {
          var t := p - |drs0[c]|;
          assert drs[c][|drs0[c]| + t] == SlotDR(g, n, t, c, |defs0|);
        }
      }
    }
  }

  /** The layout the checks of box.cpp:70-88 establish. */
  function LayoutOf(def: seq<int>, loc: seq<int>, conf: seq<int>, dims: nat, share: bool, classes: int,
                    defArena: nat, locArena: nat, confArena: nat): PredLayout
    requires PredShapesOk(def, loc, conf, dims, share, classes) && NonNeg(def) && NonNeg(loc) && NonNeg(conf)
  {
    ProdNonNeg(def[2..]);
    assert NonNeg(def[2..]);
    PredLayout(dims, def[1] / (2 * dims), classes, share, Prod(def[2..]), loc[1], conf[1],
               defArena, locArena, confArena)
  }

  predicate Extracted(g: PredLayout, num: nat, base: seq<seq<DefBox>>, baseDrs: seq<seq<seq<DRBox>>>,
                      defs: seq<seq<DefBox>>, drs: seq<seq<seq<DRBox>>>)
    requires g.kinds > 0 && |base| == num && |baseDrs| == num
    requires forall n :: 0 <= n < num ==> |baseDrs[n]| == g.classes
  {
    |defs| == num && |drs| == num
    && forall n :: 0 <= n < num ==>
         defs[n] == base[n] + ImageDefs(g, Lens(baseDrs[n]))
         && drs[n] == ExtendDRs(g, n, baseDrs[n], |base[n]|)
  }

  /** The checks of box.cpp:62-88, in their order. */
  method CheckPredShapes(defShape: seq<int>, locShape: seq<int>, confShape: seq<int>, dims: nat, share: bool, classes: int)
    returns (o: Outcome)
    ensures o.Pass? <==> PredShapesOk(defShape, locShape, confShape, dims, share, classes)
  {
    if |defShape| != |locShape| || |defShape| != |confShape| { return Stop("blobs differ in axes"); }
    if |defShape| < 3 { return Stop("fewer than 3 axes"); }
    if defShape[0] != 2 { return Stop("default boxes need 2 planes"); }
    if confShape[0] != locShape[0] { return Stop("confidence batch size differs"); }
    o := CheckChannels(defShape[1], locShape[1], confShape[1], dims, share, classes);
    if o.Stop? { return; }
    var a := 2;
    while a < |defShape|
      invariant 2 <= a <= |defShape|
      invariant forall b :: 2 <= b < a ==> locShape[b] == defShape[b] && confShape[b] == defShape[b]
    {
      if defShape[a] != locShape[a] { return Stop("location spatial shape differs"); }
      if defShape[a] != confShape[a] { return Stop("confidence spatial shape differs"); }
      a := a + 1;
    }
    return Pass;
  }

  method CheckChannels(defCh: int, locCh: int, confCh: int, dims: nat, share: bool, classes: int)
    returns (o: Outcome)
    ensures o.Pass? <==> ChannelsOk(defCh, locCh, confCh, dims, share, classes)
  {
    if dims == 0 { return Stop("division by zero"); }
    if defCh % (2 * dims) != 0 { return Stop("default channels not a multiple of 2 * dims"); }
    var kinds := defCh / (2 * dims);
    if share != (defCh == locCh) { return Stop("share_location disagrees with channels"); }
    if kinds == 0 { return Stop("division by zero"); }
    if locCh % kinds != 0 { return Stop("location channels not a multiple of kinds"); }
    if classes != confCh / kinds { return Stop("num_classes disagrees with confidence channels"); }
    if !share {
      if locCh % defCh != 0 { return Stop("location channels not a multiple of default channels"); }
      if classes != locCh / defCh { return Stop("num_classes disagrees with location channels"); }
    }
    return Pass;
  }

  /** What ExtractPredBoxes returns: a result exactly when the blobs pass the shape
      checks and the vectors it appends to hold `num` images of C classes; the result is
      the batch size and the vectors grown by one pyramid layer in every image. */
  predicate PredsExtracted(def: Tensor, loc: Tensor, conf: Tensor, dims: nat, share: bool, classes: int,
                           defBoxes: seq<seq<DefBox>>, drBoxes: seq<seq<seq<DRBox>>>,
                           defArena: nat, locArena: nat, confArena: nat,
                           r: Result<(nat, seq<seq<DefBox>>, seq<seq<seq<DRBox>>>)>)
    requires ValidTensor(def) && ValidTensor(loc) && ValidTensor(conf)
  {
    (r.Ok? <==> PredShapesOk(def.shape, loc.shape, conf.shape, dims, share, classes)
                && PredStateOk(defBoxes, drBoxes, loc.shape[0], classes))
    && (r.Ok? ==>
          var g := LayoutOf(def.shape, loc.shape, conf.shape, dims, share, classes, defArena, locArena, confArena);
          var num := loc.shape[0];
          var base := BaseDefs(defBoxes, num);
          var baseDrs := BaseDRs(drBoxes, num, g.classes);
          r.value.0 == num && |base| == num
          && Extracted(g, num, base, baseDrs, r.value.1, r.value.2))
  }

  /** ExtractPredBoxes (box.cpp:56-170). Returns the batch size `num` together with the
      grown vectors; each call appends one pyramid layer's boxes to every image. */
  method ExtractPredBoxes(def: Tensor, loc: Tensor, conf: Tensor, dims: nat, share: bool, classes: int,
                          defBoxes: seq<seq<DefBox>>, drBoxes: seq<seq<seq<DRBox>>>,
                          defArena: nat, locArena: nat, confArena: nat)
    returns (r: Result<(nat, seq<seq<DefBox>>, seq<seq<seq<DRBox>>>)>)
    requires ValidTensor(def) && ValidTensor(loc) && ValidTensor(conf)
    ensures PredsExtracted(def, loc, conf, dims, share, classes, defBoxes, drBoxes, defArena, locArena, confArena, r)
  {
    var shapes := CheckPredShapes(def.shape, loc.shape, conf.shape, dims, share, classes);
    if shapes.Stop? { return Fail(shapes.reason); }
    var num := loc.shape[0];
    if |defBoxes| != 0 && |defBoxes| != num { return Fail("def_boxes size differs from num"); }
    if |drBoxes| != 0 && |drBoxes| != num { return Fail("dr_boxes size differs from num"); }
    var classesOk := CheckDRClasses(drBoxes, num, classes);
    if classesOk.Stop? { return Fail(classesOk.reason); }
    var g := LayoutOf(def.shape, loc.shape, conf.shape, dims, share, classes, defArena, locArena, confArena);
    var defsAll, drsAll := ExtendImages(g, num, BaseDefs(defBoxes, num), BaseDRs(drBoxes, num, g.classes));
    return Ok((num, defsAll, drsAll));
  }

  /** The check of box.cpp:116-123: every image's prediction vector is empty or holds
      one list per class. */
  method CheckDRClasses(drBoxes: seq<seq<seq<DRBox>>>, num: nat, classes: int) returns (o: Outcome)
    requires |drBoxes| == 0 || |drBoxes| == num
    ensures o.Pass? <==> forall n :: 0 <= n < |drBoxes| ==> |drBoxes[n]| == 0 || |drBoxes[n]| == classes
  {
    var n := 0;
    while n < num
      invariant 0 <= n <= num
      invariant forall m :: 0 <= m < n && m < |drBoxes| ==> |drBoxes[m]| == 0 || |drBoxes[m]| == classes
    {
      if |drBoxes| != 0 && |drBoxes[n]| != 0 && |drBoxes[n]| != classes {
        return Stop("dr_boxes classes differ from num_classes");
      }
      n := n + 1;
    }
    return Pass;
  }

  /** The loop of box.cpp:128-169 over the images: every image gains the layer's
      default boxes and predictions. */
  method ExtendImages(g: PredLayout, num: nat, base: seq<seq<DefBox>>, baseDrs: seq<seq<seq<DRBox>>>)
    returns (defsAll: seq<seq<DefBox>>, drsAll: seq<seq<seq<DRBox>>>)
    requires g.kinds > 0 && |base| == num && |baseDrs| == num
    requires forall n :: 0 <= n < num ==> |baseDrs[n]| == g.classes
    ensures Extracted(g, num, base, baseDrs, defsAll, drsAll)
  {
    defsAll, drsAll := base, baseDrs;
    var n := 0;
    while n < num
      invariant 0 <= n <= num && |defsAll| == num && |drsAll| == num
      invariant forall m :: 0 <= m < n ==>
                  defsAll[m] == base[m] + ImageDefs(g, Lens(baseDrs[m]))
                  && drsAll[m] == ExtendDRs(g, m, baseDrs[m], |base[m]|)
      invariant forall m :: n <= m < num ==> defsAll[m] == base[m] && drsAll[m] == baseDrs[m]
    {
      var defs, drs := ExtractImage(g, n, defsAll[n], drsAll[n]);
      defsAll := defsAll[n := defs];
      drsAll := drsAll[n := drs];
      n := n + 1;
    }
  }

  // ------------------------------------------------------------------ properties

  /** Every prediction names the default box it was decoded from, and that default box
      lists it among its predictions (box.hpp:35,43; box.cpp:162,165). */
  predicate Linked(defs: seq<DefBox>, drs: seq<seq<DRBox>>)
  {
    (forall c, j :: 0 <= c < |drs| && 0 <= j < |drs[c]| ==>
       drs[c][j].defBox < |defs| && DRRef(c, j) in defs[drs[c][j].defBox].drBoxes)
    && (forall p, q :: 0 <= p < |defs| && 0 <= q < |defs[p].drBoxes| ==>
          LinkTarget(defs[p].drBoxes[q], drs, p))
  }

  predicate LinkTarget(r: DRRef, drs: seq<seq<DRBox>>, p: nat)
  {
    r.cls < |drs| && r.index < |drs[r.cls]| && drs[r.cls][r.index].defBox == p
  }

  /** Extracting one image keeps the default and prediction records linked. */
  lemma ExtractImageLinked(g: PredLayout, n: nat, defs: seq<DefBox>, drs: seq<seq<DRBox>>)
    requires g.kinds > 0 && |drs| == g.classes && Linked(defs, drs)
    ensures Linked(defs + ImageDefs(g, Lens(drs)), ExtendDRs(g, n, drs, |defs|))
  {
    PredictionsLinked(g, n, defs, drs);
    DefaultBoxesLinked(g, n, defs, drs);
  }

  /** After one image, every prediction names a default box that lists it. */
  lemma PredictionsLinked(g: PredLayout, n: nat, defs: seq<DefBox>, drs: seq<seq<DRBox>>)
    requires g.kinds > 0 && |drs| == g.classes && Linked(defs, drs)
    ensures var defs', drs' := defs + ImageDefs(g, Lens(drs)), ExtendDRs(g, n, drs, |defs|);
            forall c, j :: 0 <= c < |drs'| && 0 <= j < |drs'[c]| ==>
              drs'[c][j].defBox < |defs'| && DRRef(c, j) in defs'[drs'[c][j].defBox].drBoxes
  {
    var lens := Lens(drs);
    var defs': seq<DefBox> := defs + ImageDefs(g, lens);
    var drs': seq<seq<DRBox>> := ExtendDRs(g, n, drs, |defs|);
    forall c, j | 0 <= c < |drs'| && 0 <= j < |drs'[c]|
      ensures drs'[c][j].defBox < |defs'| && DRRef(c, j) in defs'[drs'[c][j].defBox].drBoxes
    {
      if j < |drs[c]| {
        assert drs'[c][j] == drs[c][j];
        assert defs'[drs[c][j].defBox] == defs[drs[c][j].defBox];
      } else {
        var t := j - |drs[c]|;
        assert drs'[c][j] == SlotDR(g, n, t, c, |defs|);
        assert defs'[|defs| + t] == SlotDef(g, t, lens);
        assert DRRefs(lens, t, g.classes)[c] == DRRef(c, j);
      }
    }
  }

  /** After one image, every link of a default box reaches a prediction that names it. */
  lemma DefaultBoxesLinked(g: PredLayout, n: nat, defs: seq<DefBox>, drs: seq<seq<DRBox>>)
    requires g.kinds > 0 && |drs| == g.classes && Linked(defs, drs)
    ensures var defs', drs' := defs + ImageDefs(g, Lens(drs)), ExtendDRs(g, n, drs, |defs|);
            forall p, q :: 0 <= p < |defs'| && 0 <= q < |defs'[p].drBoxes| ==> LinkTarget(defs'[p].drBoxes[q], drs', p)
  {
    var lens := Lens(drs);
    var defs': seq<DefBox> := defs + ImageDefs(g, lens);
    var drs': seq<seq<DRBox>> := ExtendDRs(g, n, drs, |defs|);
    forall p, q | 0 <= p < |defs'| && 0 <= q < |defs'[p].drBoxes|
      ensures LinkTarget(defs'[p].drBoxes[q], drs', p)
    {
      if p < |defs| {
        assert defs'[p] == defs[p];
        OldLinkKept(g, n, defs, drs, p, q);
      } else {
        var t := p - |defs|;
        assert defs'[p] == SlotDef(g, t, lens);
        NewLinkTarget(g, n, defs, drs, t, q);
      }
    }
  }

  /** A link of an earlier default box still reaches its prediction. */
  lemma OldLinkKept(g: PredLayout, n: nat, defs: seq<DefBox>, drs: seq<seq<DRBox>>, p: nat, q: nat)
    requires g.kinds > 0 && Linked(defs, drs) && p < |defs| && q < |defs[p].drBoxes|
    ensures LinkTarget(defs[p].drBoxes[q], ExtendDRs(g, n, drs, |defs|), p)
  {
    var r := defs[p].drBoxes[q];
    assert LinkTarget(r, drs, p);
    assert ExtendDRs(g, n, drs, |defs|)[r.cls][r.index] == drs[r.cls][r.index];
  }

  /** Link q of the image's default box t reaches prediction t of class q, which names it. */
  lemma NewLinkTarget(g: PredLayout, n: nat, defs: seq<DefBox>, drs: seq<seq<DRBox>>, t: nat, q: nat)
    requires g.kinds > 0 && |drs| == g.classes && t < g.co * g.kinds
    requires q < |SlotDef(g, t, Lens(drs)).drBoxes|
    ensures LinkTarget(SlotDef(g, t, Lens(drs)).drBoxes[q], ExtendDRs(g, n, drs, |defs|), |defs| + t)
  {
    var lens := Lens(drs);
    assert SlotDef(g, t, lens).drBoxes[q] == DRRef(q, lens[q] + t);
    assert ExtendDRs(g, n, drs, |defs|)[q][lens[q] + t] == SlotDR(g, n, t, q, |defs|);
  }

  /** The records ExtractPredBoxes returns are linked in every image, given linked
      records to start from (a fresh, empty image is linked). */
  lemma ExtractPredBoxesLinked(g: PredLayout, num: nat, base: seq<seq<DefBox>>, baseDrs: seq<seq<seq<DRBox>>>,
                               defs: seq<seq<DefBox>>, drs: seq<seq<seq<DRBox>>>)
    requires g.kinds > 0 && |base| == num && |baseDrs| == num
    requires forall n :: 0 <= n < num ==> |baseDrs[n]| == g.classes && Linked(base[n], baseDrs[n])
    requires Extracted(g, num, base, baseDrs, defs, drs)
    ensures forall n :: 0 <= n < num ==> Linked(defs[n], drs[n])
  {
    forall n | 0 <= n < num
      ensures Linked(defs[n], drs[n])
    {
      ExtractImageLinked(g, n, base[n], baseDrs[n]);
    }
  }

  /** A fresh image (no default boxes, C empty prediction lists) is linked. */
  lemma FreshImageLinked(classes: nat)
    ensures Linked([], seq(classes, _ => []))
  {
  }

  /** What the checks guarantee about the channel counts. */
  predicate LayoutOk(g: PredLayout)
  {
    g.dims > 0 && g.kinds > 0
    && g.locChannels == g.kinds * LocClasses(g) * (2 * g.dims)
    && g.kinds * g.classes <= g.confChannels
  }

  lemma {:induction false} LayoutOfOk(def: seq<int>, loc: seq<int>, conf: seq<int>, dims: nat, share: bool,
                                      classes: int, defArena: nat, locArena: nat, confArena: nat)
    requires PredShapesOk(def, loc, conf, dims, share, classes) && NonNeg(def) && NonNeg(loc) && NonNeg(conf)
    ensures LayoutOk(LayoutOf(def, loc, conf, dims, share, classes, defArena, locArena, confArena))
    ensures def[1] == LayoutOf(def, loc, conf, dims, share, classes, defArena, locArena, confArena).kinds * (2 * dims)
  {
    var g := LayoutOf(def, loc, conf, dims, share, classes, defArena, locArena, confArena);
    var kinds := def[1] / (2 * dims);
    assert def[1] == kinds * (2 * dims) + def[1] % (2 * dims);
    assert def[1] == kinds * (2 * dims);
    if !share {
      assert loc[1] == (loc[1] / def[1]) * def[1] + loc[1] % def[1];
      assert loc[1] == classes * (kinds * (2 * dims));
    }
    assert conf[1] == classes * kinds + conf[1] % kinds;
  }

  /** The offsets of one slot stay inside their blobs. The confidence index within an
      image, `k*C*co + c*co + i`, stays below `K*C*co` (box.cpp:160). */
  lemma {:induction false} SlotOffsetsBounded(g: PredLayout, num: nat, n: nat, i: nat, k: nat, c: nat, d: nat)
    requires LayoutOk(g) && n < num && i < g.co && k < g.kinds && c < g.classes && d < 2 * g.dims
    ensures DefOffset(g, i, k, d) < g.kinds * (2 * g.dims) * g.co
    ensures VarOffset(g, i, k, d) < 2 * (g.kinds * (2 * g.dims) * g.co)
    ensures (k * g.classes + c) * g.co + i < g.kinds * g.classes * g.co
    ensures ConfOffset(g, n, i, k, c) < num * (g.confChannels * g.co)
    ensures LocOffset(g, n, i, k, c, d) < num * (g.locChannels * g.co)
  {
    var D2 := 2 * g.dims;
    FlatBound(k, d, g.kinds, D2);
    FlatBound(k * D2 + d, i, g.kinds * D2, g.co);
    FlatBound(k, c, g.kinds, g.classes);
    FlatBound(k * g.classes + c, i, g.kinds * g.classes, g.co);
    MulMono(g.kinds * g.classes, g.confChannels, g.co);
    FlatBound(n, (k * g.classes + c) * g.co + i, num, g.confChannels * g.co);
    var lc := LocClass(g, c);
    FlatBound(k, lc, g.kinds, LocClasses(g));
    FlatBound(k * LocClasses(g) + lc, d, g.kinds * LocClasses(g), D2);
    FlatBound((k * LocClasses(g) + lc) * D2 + d, i, g.kinds * LocClasses(g) * D2, g.co);
    FlatBound(n, ((k * LocClasses(g) + lc) * D2 + d) * g.co + i, num, g.locChannels * g.co);
  }

  /** Distinct predictions have distinct location pointers when locations are not
      shared; with the layout of box.cpp:152,157 they can coincide (see below). */
  lemma {:induction false} LocOffsetInjective(g: PredLayout, n: nat, i: nat, k: nat, c: nat, d: nat,
                                              n': nat, i': nat, k': nat, c': nat, d': nat)
    requires LayoutOk(g) && !g.share
    requires i < g.co && i' < g.co && k < g.kinds && k' < g.kinds
    requires c < g.classes && c' < g.classes && d < 2 * g.dims && d' < 2 * g.dims
    requires LocOffset(g, n, i, k, c, d) == LocOffset(g, n', i', k', c', d')
    ensures n == n' && i == i' && k == k' && c == c' && d == d'
  {
    var D2 := 2 * g.dims;
    var x := ((k * g.classes + c) * D2 + d) * g.co + i;
    var x' := ((k' * g.classes + c') * D2 + d') * g.co + i';
    FlatBound(k, c, g.kinds, g.classes);
    FlatBound(k * g.classes + c, d, g.kinds * g.classes, D2);
    FlatBound((k * g.classes + c) * D2 + d, i, g.kinds * g.classes * D2, g.co);
    FlatBound(k', c', g.kinds, g.classes);
    FlatBound(k' * g.classes + c', d', g.kinds * g.classes, D2);
    FlatBound((k' * g.classes + c') * D2 + d', i', g.kinds * g.classes * D2, g.co);
    FlatUnique(n, x, n', x', g.locChannels * g.co);
    FlatUnique((k * g.classes + c) * D2 + d, i, (k' * g.classes + c') * D2 + d', i', g.co);
    FlatUnique(k * g.classes + c, d, k' * g.classes + c', d', D2);
    FlatUnique(k, c, k', c', g.classes);
  }

  /** Distinct predictions have distinct confidence pointers, in one image and across
      the images of a batch. */
  lemma {:induction false} ConfOffsetInjective(g: PredLayout, n: nat, i: nat, k: nat, c: nat,
                                               n': nat, i': nat, k': nat, c': nat)
    requires LayoutOk(g)
    requires i < g.co && i' < g.co && k < g.kinds && k' < g.kinds && c < g.classes && c' < g.classes
    requires ConfOffset(g, n, i, k, c) == ConfOffset(g, n', i', k', c')
    ensures n == n' && i == i' && k == k' && c == c'
  {
    var x := (k * g.classes + c) * g.co + i;
    var x' := (k' * g.classes + c') * g.co + i';
    FlatBound(k, c, g.kinds, g.classes);
    FlatBound(k * g.classes + c, i, g.kinds * g.classes, g.co);
    FlatBound(k', c', g.kinds, g.classes);
    FlatBound(k' * g.classes + c', i', g.kinds * g.classes, g.co);
    MulMono(g.kinds * g.classes, g.confChannels, g.co);
    FlatUnique(n, x, n', x', g.confChannels * g.co);
    FlatUnique(k * g.classes + c, i, k' * g.classes + c', i', g.co);
    FlatUnique(k, c, k', c', g.classes);
  }

  /** box.cpp:160 as written: the confidence pointer of (cell i, kind k, class c), the
      same for every image n of the batch (lines 152 and 157 likewise have no image
      term). */
  function AsWrittenConfIndex(g: PredLayout, n: nat, i: nat, k: nat, c: nat): nat
  {
    (k * g.classes + c) * g.co + i
  }

  /** As written, image 0 and image 1 of a batch read the same confidence (and the same
      location, which AsWrittenLocIndex computes without an image); with the image
      offset their pointers differ. */
  lemma AsWrittenPredsShared()
    ensures var g := PredLayout(1, 1, 1, true, 1, 2, 1, 0, 1, 2);
            LayoutOk(g)
            && AsWrittenConfIndex(g, 0, 0, 0, 0) == AsWrittenConfIndex(g, 1, 0, 0, 0)
            && ConfOffset(g, 0, 0, 0, 0) != ConfOffset(g, 1, 0, 0, 0)
            && LocOffset(g, 0, 0, 0, 0, 0) != LocOffset(g, 1, 0, 0, 0, 0)
  {
  }

  /** box.cpp:163-165 as written: the link to a new prediction indexes its class list at
      `dr_boxes.size()`, the number of images, whatever the list holds. */
  function AsWrittenLinkIndex(images: nat): nat
  {
    images
  }

  /** In a batch of one image the first prediction of class 0 is pushed into an empty
      list, which then holds one entry: as written the link points at index 1, past the
      end, while the default box's link (DRRefs) names index 0, the entry pushed. */
  lemma AsWrittenLinkPastEnd()
    ensures AsWrittenLinkIndex(1) >= 0 + 1
    ensures DRRefs([0], 0, 1) == [DRRef(0, 0)]
  {
  }

  /** box.cpp:152,157 as written: the pointer of coordinate d of class c, kind k, cell i. */
  function AsWrittenLocIndex(g: PredLayout, i: nat, k: nat, c: nat, d: nat): nat
  {
    k * (2 * g.dims * LocClasses(g) * g.co) + LocClass(g, c) * g.co + (2 * k * g.dims + d) * g.co + i
  }

  /** With two classes, one dimension, one kind and one cell, class 1's minimum and
      class 0's maximum get the same pointer as written, while the intended layout
      keeps them apart. */
  lemma AsWrittenLocIndexCollides()
    ensures var g := PredLayout(1, 1, 2, false, 1, 4, 2, 0, 1, 2);
            LayoutOk(g)
            && AsWrittenLocIndex(g, 0, 0, 1, 0) == AsWrittenLocIndex(g, 0, 0, 0, 1)
            && LocOffset(g, 0, 0, 0, 1, 0) != LocOffset(g, 0, 0, 0, 0, 1)
  {
  }

  /** box.cpp:40,44 as written: the location pointer of channel ch of cell i, the same
      for every image. */
  function AsWrittenGroundTruthIndex(n: nat, ch: nat, i: nat, co: nat): nat
  {
    ch * co + i
  }

  /** As written, image 0 and image 1 of a batch read the same ground-truth
      coordinates; with the image offset they are disjoint. */
  lemma AsWrittenGroundTruthShared()
    ensures AsWrittenGroundTruthIndex(0, 0, 0, 1) == AsWrittenGroundTruthIndex(1, 0, 0, 1)
    ensures CellOffset(0, 0, 0, 2, 1) != CellOffset(1, 0, 0, 2, 1)
  {
  }

  /** box.cpp:89-100 as written: a vector that is not empty is resized to `num`, and
      an empty one must already hold `num` images. */
  predicate AsWrittenVectorOk(size: nat, num: int)
  {
    size != 0 || size == num
  }

  /** On the first call the caller's vectors are empty: as written the check then
      fails for every non-empty batch, while the intended check accepts them. */
  lemma AsWrittenEmptyRejected(num: nat)
    requires num > 0
    ensures !AsWrittenVectorOk(0, num)
    ensures PredStateOk([], [], num, 1)
  {
  }

  /** box.cpp:145-165 as written index the image vectors at `num`; after the resize
      of lines 89-97 they hold exactly `num` images, so the index is past the end
      (undefined behaviour, a failure here). */
  function AsWrittenImageIndex(size: nat, num: nat): Result<nat>
  {
    if num < size then Ok(num) else Fail("def_boxes[num] is past the end")
  }

  /** Every image n of a batch of `num` is a valid index, while the index as written
      never is. */
  lemma AsWrittenImageIndexPastEnd(num: nat, n: nat)
    requires n < num
    ensures AsWrittenImageIndex(num, num).Fail?
    ensures AsWrittenImageIndex(num, n) == Ok(n)
  {
  }
}

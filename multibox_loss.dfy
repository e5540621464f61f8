/** MultiBoxLossLayer (src/caffe/layers/multibox_loss_layer.cpp): the parameter checks of
    LayerSetUp, the extraction of ground-truth and prediction records in Reshape, and the
    per-image pipeline of Forward_cpu (overlaps, matching, negative mining and the count
    of negatives to train on).

    Bottom i is arena i: the pointers in the records address `bottoms[i].data`. The
    bottoms are [def 0, loc 0, conf 0, ..., def L-1, loc L-1, conf L-1, labels, ground
    truth]. */
module MultiBoxLoss {
  import opened Wrappers
  import opened Index
  import opened BoxTypes
  import opened BoxExtract
  import opened Jaccard
  import opened Overlap
  import opened Matching
  import Negatives

  /** The detection and multibox-loss parameters LayerSetUp reads (lines 21-29). The
      original never assigns `neg_pos_ratio_` or `min_negtive_`; they are evidently meant
      to come from the same parameter message and are taken from it here. */
  datatype LossParam = LossParam(dims: nat, shareLocation: bool, numClasses: int,
                                 matchType: MatchType, overlapThreshold: real, confLossType: int,
                                 backgroundLabel: int, negPosRatio: real, minNegative: int)

  /** What the extraction of the pyramid layers so far has produced: the batch size
      (`num_`), the default boxes and the predictions of every image. */
  datatype Extraction = Extraction(num: nat, defs: seq<seq<DefBox>>, drs: seq<seq<seq<DRBox>>>)

  /** What the pipeline computes for one image. */
  datatype ImageResult = ImageResult(overlaps: Overlaps, matches: Match,
                                     negatives: seq<Negatives.Negative>, trainNegatives: int)

  predicate BottomsValid(bottoms: seq<Tensor>)
  {
    forall i :: 0 <= i < |bottoms| ==> ValidTensor(bottoms[i])
  }

  /** The memory the records point into: bottom i is arena i. */
  function Data(bottoms: seq<Tensor>): (mem: Memory)
    ensures |mem| == |bottoms|
    ensures forall i :: 0 <= i < |bottoms| ==> mem[i] == bottoms[i].data
  {
    seq(|bottoms|, i requires 0 <= i < |bottoms| => bottoms[i].data)
  }

  // ------------------------------------------------------------------ Reshape

  /** The blobs of pyramid layer `layer` pass ExtractPredBoxes' shape checks. */
  predicate LayerShapesOk(bottoms: seq<Tensor>, layer: nat, dims: nat, share: bool, classes: int)
    requires 3 * layer + 2 < |bottoms|
  {
    PredShapesOk(bottoms[3 * layer].shape, bottoms[3 * layer + 1].shape, bottoms[3 * layer + 2].shape,
                 dims, share, classes)
  }

  /** The layout of pyramid layer `layer`, whose blobs are arenas 3*layer, 3*layer+1 and
      3*layer+2. */
  function LayerLayout(bottoms: seq<Tensor>, layer: nat, dims: nat, share: bool, classes: int): (g: PredLayout)
    requires BottomsValid(bottoms) && 3 * layer + 2 < |bottoms|
    requires LayerShapesOk(bottoms, layer, dims, share, classes)
    ensures LayoutOk(g) && g.dims == dims && g.share == share && g.classes == classes
    ensures g.defArena == 3 * layer && g.locArena == 3 * layer + 1 && g.confArena == 3 * layer + 2
  {
    var id := 3 * layer;
    var def, loc, conf := bottoms[id].shape, bottoms[id + 1].shape, bottoms[id + 2].shape;
    LayoutOfOk(def, loc, conf, dims, share, classes, id, id + 1, id + 2);
    LayoutOf(def, loc, conf, dims, share, classes, id, id + 1, id + 2)
  }

  /** The records one successful ExtractPredBoxes call with layout `g` leaves, given
      those of the calls before (box.cpp:89-169): every image gains one default box per
      (cell, kind) and, in every class, one prediction per default box. */
  function Step(g: PredLayout, prev: Extraction, num: nat): (e: Extraction)
    requires g.kinds > 0 && PredStateOk(prev.defs, prev.drs, num, g.classes)
    ensures e.num == num && |e.defs| == num && |e.drs| == num
    ensures forall n :: 0 <= n < num ==> |e.drs[n]| == g.classes
  {
    BaseShapes(prev, num, g.classes);
    var base := BaseDefs(prev.defs, num);
    var baseDrs := BaseDRs(prev.drs, num, g.classes);
    Extraction(num,
               seq(num, n requires 0 <= n < num => base[n] + ImageDefs(g, Lens(baseDrs[n]))),
               seq(num, n requires 0 <= n < num => ExtendDRs(g, n, baseDrs[n], |base[n]|)))
  }

  /** The records an ExtractPredBoxes call starts from have one entry per image and C
      prediction lists per image. */
  lemma BaseShapes(prev: Extraction, num: nat, classes: nat)
    requires PredStateOk(prev.defs, prev.drs, num, classes)
    ensures |BaseDefs(prev.defs, num)| == num
    ensures forall n :: 0 <= n < num ==> |BaseDRs(prev.drs, num, classes)[n]| == classes
  {
  }

  /** The records after ExtractPredBoxes has run on the first `layers` pyramid layers
      (lines 43-47), each call appending to the records of the one before; None when a
      call fails. */
  function Pyramid(bottoms: seq<Tensor>, dims: nat, share: bool, classes: int, layers: nat): (r: Option<Extraction>)
    requires BottomsValid(bottoms) && 3 * layers <= |bottoms|
    ensures r.Some? && layers > 0 ==> classes >= 0 && Shaped(r.value, classes)
    ensures layers == 0 ==> r == Some(Extraction(0, [], []))
  {
    if layers == 0 then Some(Extraction(0, [], []))
    else
      var prev := Pyramid(bottoms, dims, share, classes, layers - 1);
      var layer := layers - 1;
      if prev.None? || !LayerShapesOk(bottoms, layer, dims, share, classes) then None
      else
        var num := bottoms[3 * layer + 1].shape[0];
        if !PredStateOk(prev.value.defs, prev.value.drs, num, classes) then None
        else Some(Step(LayerLayout(bottoms, layer, dims, share, classes), prev.value, num))
  }

  /** Once a pyramid layer fails, the whole extraction fails. */
  lemma PyramidFailureStays(bottoms: seq<Tensor>, dims: nat, share: bool, classes: int, failed: nat, layers: nat)
    requires BottomsValid(bottoms) && failed <= layers && 3 * layers <= |bottoms|
    requires Pyramid(bottoms, dims, share, classes, failed).None?
    ensures Pyramid(bottoms, dims, share, classes, layers).None?
  {
    var k := failed;
    while k < layers
      invariant failed <= k <= layers
      invariant Pyramid(bottoms, dims, share, classes, k).None?
    {
      PyramidNoneNext(bottoms, dims, share, classes, k + 1);
      k := k + 1;
    }
  }

  lemma PyramidNoneNext(bottoms: seq<Tensor>, dims: nat, share: bool, classes: int, layers: nat)
    requires BottomsValid(bottoms) && 0 < layers && 3 * layers <= |bottoms|
    requires Pyramid(bottoms, dims, share, classes, layers - 1).None?
    ensures Pyramid(bottoms, dims, share, classes, layers).None?
  {
  }

  /** A successful ExtractPredBoxes call on layer `layer` takes the records of the first
      `layer` layers to those of the first `layer + 1`. */
  lemma PyramidStep(bottoms: seq<Tensor>, dims: nat, share: bool, classes: int, layer: nat,
                    prev: Extraction, next: Extraction)
    requires BottomsValid(bottoms) && 3 * layer + 2 < |bottoms|
    requires Pyramid(bottoms, dims, share, classes, layer) == Some(prev)
    requires LayerShapesOk(bottoms, layer, dims, share, classes)
    requires PredStateOk(prev.defs, prev.drs, bottoms[3 * layer + 1].shape[0], classes)
    requires var id := 3 * layer;
             var g := LayoutOf(bottoms[id].shape, bottoms[id + 1].shape, bottoms[id + 2].shape, dims, share, classes,
                               id, id + 1, id + 2);
             var num := bottoms[id + 1].shape[0];
             var base := BaseDefs(prev.defs, num);
             var baseDrs := BaseDRs(prev.drs, num, g.classes);
             next.num == num && |base| == num
             && Extracted(g, num, base, baseDrs, next.defs, next.drs)
    ensures Pyramid(bottoms, dims, share, classes, layer + 1) == Some(next)
  {
    var g := LayerLayout(bottoms, layer, dims, share, classes);
    StepIs(g, prev, next.num, next);
  }

  /** Records that extend `prev` as one ExtractPredBoxes call with layout `g` does are
      the records Step gives. */
  lemma StepIs(g: PredLayout, prev: Extraction, num: nat, next: Extraction)
    requires g.kinds > 0 && PredStateOk(prev.defs, prev.drs, num, g.classes)
    requires var base := BaseDefs(prev.defs, num);
             var baseDrs := BaseDRs(prev.drs, num, g.classes);
             next.num == num && |base| == num
             && Extracted(g, num, base, baseDrs, next.defs, next.drs)
    ensures Step(g, prev, num) == next
  {
    BaseShapes(prev, num, g.classes);
    var base := BaseDefs(prev.defs, num);
    var baseDrs := BaseDRs(prev.drs, num, g.classes);
    var r := Step(g, prev, num);
    assert r.defs == next.defs by {
      forall n | 0 <= n < num
        ensures r.defs[n] == next.defs[n]
      {
        assert r.defs[n] == base[n] + ImageDefs(g, Lens(baseDrs[n]));
      }
    }
    assert r.drs == next.drs by {
      forall n | 0 <= n < num
        ensures r.drs[n] == next.drs[n]
      {
        assert r.drs[n] == ExtendDRs(g, n, baseDrs[n], |base[n]|);
      }
    }
  }

  /** A failing ExtractPredBoxes call on layer `layer` fails the extraction. */
  lemma PyramidStepFails(bottoms: seq<Tensor>, dims: nat, share: bool, classes: int, layer: nat,
                         prev: Extraction)
    requires BottomsValid(bottoms) && 3 * layer + 2 < |bottoms|
    requires Pyramid(bottoms, dims, share, classes, layer) == Some(prev)
    requires var id := 3 * layer;
             !(PredShapesOk(bottoms[id].shape, bottoms[id + 1].shape, bottoms[id + 2].shape, dims, share, classes)
               && PredStateOk(prev.defs, prev.drs, bottoms[id + 1].shape[0], classes))
    ensures Pyramid(bottoms, dims, share, classes, layer + 1).None?
  {
  }

  /** Whatever ExtractPredBoxes returns on layer `layer`, the extraction of the first
      `layer + 1` layers agrees with it. */
  lemma PyramidNext(bottoms: seq<Tensor>, dims: nat, share: bool, classes: int, layer: nat, prev: Extraction,
                    x: Result<(nat, seq<seq<DefBox>>, seq<seq<seq<DRBox>>>)>)
    requires BottomsValid(bottoms) && 3 * layer + 2 < |bottoms|
    requires Pyramid(bottoms, dims, share, classes, layer) == Some(prev)
    requires var id := 3 * layer;
             PredsExtracted(bottoms[id], bottoms[id + 1], bottoms[id + 2], dims, share, classes,
                            prev.defs, prev.drs, id, id + 1, id + 2, x)
    ensures x.Ok? <==> Pyramid(bottoms, dims, share, classes, layer + 1).Some?
    ensures x.Ok? ==> Pyramid(bottoms, dims, share, classes, layer + 1)
                      == Some(Extraction(x.value.0, x.value.1, x.value.2))
  {
    if x.Ok? {
      PyramidStep(bottoms, dims, share, classes, layer, prev, Extraction(x.value.0, x.value.1, x.value.2));
    } else {
      PyramidStepFails(bottoms, dims, share, classes, layer, prev);
    }
  }

  /** The records of a completed extraction: one entry per image, C prediction lists
      per image. */
  predicate Shaped(e: Extraction, classes: nat)
  {
    |e.defs| == e.num && |e.drs| == e.num
    && forall n :: 0 <= n < e.num ==> |e.drs[n]| == classes
  }

  /** The next call starts from fresh images when the records are empty and from the
      records themselves otherwise. */
  lemma BaseIsPrevious(prev: Extraction, num: nat, classes: nat)
    requires Shaped(prev, classes) && PredStateOk(prev.defs, prev.drs, num, classes)
    ensures prev.num == 0 ==> forall n :: 0 <= n < num ==>
              BaseDefs(prev.defs, num)[n] == [] && BaseDRs(prev.drs, num, classes)[n] == seq(classes, _ => [])
    ensures prev.num > 0 ==> num == prev.num && BaseDefs(prev.defs, num) == prev.defs
                             && BaseDRs(prev.drs, num, classes) == prev.drs
  {
    if prev.num > 0 {
      var baseDrs := BaseDRs(prev.drs, num, classes);
      forall n | 0 <= n < num
        ensures baseDrs[n] == prev.drs[n]
      {
        if |prev.drs[n]| == 0 {
          assert seq(classes, _ => []) == prev.drs[n];
        }
      }
    }
  }

  /** Every image's prediction records and default boxes name each other. */
  predicate AllLinked(e: Extraction)
  {
    forall n :: 0 <= n < e.num && n < |e.defs| && n < |e.drs| ==> Linked(e.defs[n], e.drs[n])
  }

  /** The extraction of `layers > 0` layers is one call on the extraction before it. */
  lemma PyramidUnfold(bottoms: seq<Tensor>, dims: nat, share: bool, classes: int, layers: nat)
    returns (prev: Extraction, g: PredLayout, num: nat)
    requires BottomsValid(bottoms) && 0 < layers && 3 * layers <= |bottoms|
    requires Pyramid(bottoms, dims, share, classes, layers).Some?
    ensures Pyramid(bottoms, dims, share, classes, layers - 1) == Some(prev)
    ensures classes >= 0 && Shaped(prev, classes) && LayoutOk(g) && g.classes == classes
    ensures PredStateOk(prev.defs, prev.drs, num, classes) && LayerShapesOk(bottoms, layers - 1, dims, share, classes)
    ensures g == LayerLayout(bottoms, layers - 1, dims, share, classes) && num == bottoms[3 * layers - 2].shape[0]
    ensures Pyramid(bottoms, dims, share, classes, layers).value == Step(g, prev, num)
  {
    var layer := layers - 1;
    prev := Pyramid(bottoms, dims, share, classes, layer).value;
    g := LayerLayout(bottoms, layer, dims, share, classes);
    num := bottoms[3 * layer + 1].shape[0];
  }

  /** A call keeps every image's records linked. */
  lemma StepLinked(g: PredLayout, prev: Extraction, num: nat)
    requires g.kinds > 0 && Shaped(prev, g.classes) && PredStateOk(prev.defs, prev.drs, num, g.classes)
    requires AllLinked(prev)
    ensures AllLinked(Step(g, prev, num))
  {
    var e := Step(g, prev, num);
    BaseIsPrevious(prev, num, g.classes);
    BaseShapes(prev, num, g.classes);
    var base := BaseDefs(prev.defs, num);
    var baseDrs := BaseDRs(prev.drs, num, g.classes);
    forall n | 0 <= n < num
      ensures Linked(e.defs[n], e.drs[n])
    {
      if prev.num == 0 {
        FreshImageLinked(g.classes);
      }
      assert Linked(base[n], baseDrs[n]);
      ExtractImageLinked(g, n, base[n], baseDrs[n]);
    }
  }

  /** Every prediction of every image names the default box it was decoded from, and
      that default box lists it, across all pyramid layers. */
  lemma PyramidLinked(bottoms: seq<Tensor>, dims: nat, share: bool, classes: int, layers: nat)
    requires BottomsValid(bottoms) && 3 * layers <= |bottoms|
    requires Pyramid(bottoms, dims, share, classes, layers).Some?
    ensures AllLinked(Pyramid(bottoms, dims, share, classes, layers).value)
  {
    var k := 0;
    while k < layers
      invariant k <= layers && Pyramid(bottoms, dims, share, classes, k).Some?
      invariant AllLinked(Pyramid(bottoms, dims, share, classes, k).value)
    {
      PyramidPrefix(bottoms, dims, share, classes, k + 1, layers);
      var prev, g, num := PyramidUnfold(bottoms, dims, share, classes, k + 1);
      StepLinked(g, prev, num);
      k := k + 1;
    }
  }

  /** A completed extraction completed every shorter prefix of the pyramid. */
  lemma PyramidPrefix(bottoms: seq<Tensor>, dims: nat, share: bool, classes: int, k: nat, layers: nat)
    requires BottomsValid(bottoms) && k <= layers && 3 * layers <= |bottoms|
    requires Pyramid(bottoms, dims, share, classes, layers).Some?
    ensures Pyramid(bottoms, dims, share, classes, k).Some?
  {
    if Pyramid(bottoms, dims, share, classes, k).None? {
      PyramidFailureStays(bottoms, dims, share, classes, k, layers);
    }
  }

  /** A prediction record of layer `g` points inside the location and confidence blobs. */
  lemma SlotReadable(mem: Memory, g: PredLayout, num: nat, n: nat, t: nat, c: nat, defBase: nat)
    requires LayoutOk(g) && n < num && t < g.co * g.kinds && c < g.classes
    requires BlobsFit(mem, g, num)
    ensures Readable(mem, SlotDR(g, n, t, c, defBase).box) && ValidRef(mem, SlotDR(g, n, t, c, defBase).conf)
  {
    FlatSplit(t, g.co, g.kinds);
    var i, k := t / g.kinds, t % g.kinds;
    forall d | 0 <= d < 2 * g.dims
      ensures LocOffset(g, n, i, k, c, d) < num * (g.locChannels * g.co)
    {
      SlotOffsetsBounded(g, num, n, i, k, c, d);
    }
    SlotOffsetsBounded(g, num, n, i, k, c, 0);
  }

  /** The blobs of layer `layer` hold num * channels * cells elements. */
  lemma LayerSizes(bottoms: seq<Tensor>, layer: nat, dims: nat, share: bool, classes: int)
    requires BottomsValid(bottoms) && 3 * layer + 2 < |bottoms|
    requires LayerShapesOk(bottoms, layer, dims, share, classes)
    ensures var g := LayerLayout(bottoms, layer, dims, share, classes);
            var num := bottoms[3 * layer + 1].shape[0];
            num >= 0
            && |bottoms[3 * layer + 1].data| == num * (g.locChannels * g.co)
            && |bottoms[3 * layer + 2].data| == num * (g.confChannels * g.co)
  {
    var id := 3 * layer;
    var def, loc, conf := bottoms[id].shape, bottoms[id + 1].shape, bottoms[id + 2].shape;
    ThreeAxisCount(loc);
    ThreeAxisCount(conf);
    assert loc[2..] == def[2..];
    assert conf[2..] == def[2..];
  }

  /** The location and confidence blobs of layout `g` hold num * channels * cells
      elements. */
  predicate BlobsFit(mem: Memory, g: PredLayout, num: nat)
  {
    g.locArena < |mem| && |mem[g.locArena]| == num * (g.locChannels * g.co)
    && g.confArena < |mem| && |mem[g.confArena]| == num * (g.confChannels * g.co)
  }

  /** Every pointer of an image's prediction records stays inside its blob. */
  predicate PredsWithin(mem: Memory, drs: seq<seq<DRBox>>)
  {
    PredsReadable(mem, drs) && Negatives.ConfsReadable(mem, drs)
  }

  /** Every pointer of every image's prediction records stays inside its blob. */
  predicate AllWithin(mem: Memory, e: Extraction)
  {
    forall n :: 0 <= n < e.num && n < |e.drs| ==> PredsWithin(mem, e.drs[n])
  }

  /** The predictions one image gains from a call with layout `g` stay inside the blobs. */
  lemma ImageWithin(mem: Memory, g: PredLayout, num: nat, n: nat, before: seq<seq<DRBox>>, defBase: nat)
    requires LayoutOk(g) && n < num && |before| == g.classes
    requires BlobsFit(mem, g, num)
    requires PredsWithin(mem, before)
    ensures PredsWithin(mem, ExtendDRs(g, n, before, defBase))
  {
    var after: seq<seq<DRBox>> := ExtendDRs(g, n, before, defBase);
    forall c, j | 0 <= c < |after| && 0 <= j < |after[c]|
      ensures Readable(mem, after[c][j].box) && ValidRef(mem, after[c][j].conf)
    {
      if j >= |before[c]| {
        var t := j - |before[c]|;
        assert after[c][j] == SlotDR(g, n, t, c, defBase);
        SlotReadable(mem, g, num, n, t, c, defBase);
      }
    }
  }

  /** A call whose blobs hold num * channels * cells elements keeps every prediction
      record inside its blob. */
  lemma StepReadable(mem: Memory, g: PredLayout, prev: Extraction, num: nat)
    requires LayoutOk(g) && Shaped(prev, g.classes) && PredStateOk(prev.defs, prev.drs, num, g.classes)
    requires BlobsFit(mem, g, num)
    requires AllWithin(mem, prev)
    ensures AllWithin(mem, Step(g, prev, num))
  {
    var e := Step(g, prev, num);
    BaseIsPrevious(prev, num, g.classes);
    BaseShapes(prev, num, g.classes);
    var base := BaseDefs(prev.defs, num);
    var baseDrs := BaseDRs(prev.drs, num, g.classes);
    forall n | 0 <= n < num
      ensures PredsWithin(mem, e.drs[n])
    {
      assert PredsWithin(mem, baseDrs[n]);
      ImageWithin(mem, g, num, n, baseDrs[n], |base[n]|);
    }
  }

  /** Every pointer of every prediction record stays inside its blob. */
  lemma PyramidReadable(bottoms: seq<Tensor>, dims: nat, share: bool, classes: int, layers: nat)
    requires BottomsValid(bottoms) && 3 * layers <= |bottoms|
    requires Pyramid(bottoms, dims, share, classes, layers).Some?
    ensures AllWithin(Data(bottoms), Pyramid(bottoms, dims, share, classes, layers).value)
  {
    var e := PyramidWithin(Data(bottoms), bottoms, dims, share, classes, layers);
  }

  lemma {:induction false} PyramidWithin(mem: Memory, bottoms: seq<Tensor>, dims: nat, share: bool, classes: int,
                                         layers: nat)
    returns (e: Extraction)
    requires BottomsValid(bottoms) && 3 * layers <= |bottoms| && mem == Data(bottoms)
    requires Pyramid(bottoms, dims, share, classes, layers).Some?
    ensures Pyramid(bottoms, dims, share, classes, layers) == Some(e) && AllWithin(mem, e)
  {
    if layers == 0 {
      e := Extraction(0, [], []);
    } else {
      PyramidPrefix(bottoms, dims, share, classes, layers - 1, layers);
      var before := PyramidWithin(mem, bottoms, dims, share, classes, layers - 1);
      e := LayerReadable(mem, bottoms, dims, share, classes, layers, before);
    }
  }

  /** One more pyramid layer keeps every prediction record inside its blob. */
  lemma LayerReadable(mem: Memory, bottoms: seq<Tensor>, dims: nat, share: bool, classes: int, layers: nat,
                      before: Extraction)
    returns (after: Extraction)
    requires BottomsValid(bottoms) && 0 < layers && 3 * layers <= |bottoms| && mem == Data(bottoms)
    requires Pyramid(bottoms, dims, share, classes, layers).Some?
    requires Pyramid(bottoms, dims, share, classes, layers - 1) == Some(before) && AllWithin(mem, before)
    ensures Pyramid(bottoms, dims, share, classes, layers) == Some(after) && AllWithin(mem, after)
  {
    var prev, g, num := PyramidUnfold(bottoms, dims, share, classes, layers);
    LayerFits(bottoms, dims, share, classes, layers);
    StepReadable(mem, g, prev, num);
    after := Step(g, prev, num);
  }

  /** The blobs of layer `layers - 1` fit its layout. */
  lemma LayerFits(bottoms: seq<Tensor>, dims: nat, share: bool, classes: int, layers: nat)
    requires BottomsValid(bottoms) && 0 < layers && 3 * layers <= |bottoms|
    requires LayerShapesOk(bottoms, layers - 1, dims, share, classes)
    ensures BlobsFit(Data(bottoms), LayerLayout(bottoms, layers - 1, dims, share, classes), bottoms[3 * layers - 2].shape[0])
  {
    LayerSizes(bottoms, layers - 1, dims, share, classes);
  }

  /** Every pointer of the records Reshape leaves stays inside its blob. */
  lemma RecordsReadable(bottoms: seq<Tensor>, dims: nat, share: bool, classes: int,
                        gts: seq<seq<GTBox>>, layers: nat, e: Extraction)
    requires Records(bottoms, dims, share, classes, gts, layers, e)
    ensures forall n :: 0 <= n < |gts| ==> GtReadable(Data(bottoms), gts[n])
    ensures |e.drs| == e.num && forall n :: 0 <= n < e.num ==> PredsWithin(Data(bottoms), e.drs[n])
  {
    PyramidReadable(bottoms, dims, share, classes, layers);
    GroundTruthReadable(bottoms, dims, gts);
  }

  /** Every pointer of every ground-truth record stays inside its blob. */
  lemma GroundTruthReadable(bottoms: seq<Tensor>, dims: nat, gts: seq<seq<GTBox>>)
    requires BottomsValid(bottoms) && |bottoms| >= 2
    requires var p := |bottoms| - 2;
             GroundTruthShapesOk(bottoms[p].shape, bottoms[p + 1].shape, dims)
             && IsGroundTruth(gts, bottoms[p].shape[0], CountFrom(bottoms[p + 1].shape, 2), dims, p, p + 1)
    ensures forall n :: 0 <= n < |gts| ==> GtReadable(Data(bottoms), gts[n])
  {
    var p := |bottoms| - 2;
    GroundTruthRefsValid(gts, bottoms[p], bottoms[p + 1], dims, Data(bottoms), p, p + 1);
  }

  /** One iteration of lines 43-47: ExtractPredBoxes on the blobs of layer `layer`,
      appending to the records of the layers before. */
  method ExtractLayer(bottoms: seq<Tensor>, dims: nat, share: bool, classes: int, layer: nat, prev: Extraction)
    returns (r: Result<Extraction>)
    requires BottomsValid(bottoms) && 3 * layer + 2 < |bottoms|
    requires Pyramid(bottoms, dims, share, classes, layer) == Some(prev)
    ensures r.Ok? <==> Pyramid(bottoms, dims, share, classes, layer + 1).Some?
    ensures r.Ok? ==> Pyramid(bottoms, dims, share, classes, layer + 1) == Some(r.value)
  {
    var id := 3 * layer;
    var x := ExtractPredBoxes(bottoms[id], bottoms[id + 1], bottoms[id + 2], dims, share, classes,
                              prev.defs, prev.drs, id, id + 1, id + 2);
    PyramidNext(bottoms, dims, share, classes, layer, prev, x);
    if x.Fail? { return Fail(x.reason); }
    return Ok(Extraction(x.value.0, x.value.1, x.value.2));
  }

  /** The loop of lines 43-47: every pyramid layer in turn, each call appending to the
      records the calls before it left. */
  method ExtractPyramid(bottoms: seq<Tensor>, dims: nat, share: bool, classes: int, layers: nat)
    returns (r: Result<Extraction>)
    requires BottomsValid(bottoms) && 3 * layers <= |bottoms|
    ensures r.Ok? <==> Pyramid(bottoms, dims, share, classes, layers).Some?
    ensures r.Ok? ==> Pyramid(bottoms, dims, share, classes, layers) == Some(r.value)
  {
    var e := Extraction(0, [], []);
    var i := 0;
    while i < layers
      invariant 0 <= i <= layers
      invariant Pyramid(bottoms, dims, share, classes, i) == Some(e)
    {
      var next := ExtractLayer(bottoms, dims, share, classes, i, e);
      if next.Fail? {
        PyramidFailureStays(bottoms, dims, share, classes, i + 1, layers);
        return Fail(next.reason);
      }
      e := next.value;
      i := i + 1;
    }
    return Ok(e);
  }

  /** Reshape completes: the ground-truth blobs pass ExtractGroundTruth, the other
      bottoms come in threes (line 40), and every pyramid layer passes ExtractPredBoxes. */
  predicate ReshapeOk(bottoms: seq<Tensor>, dims: nat, share: bool, classes: int)
    requires BottomsValid(bottoms) && |bottoms| >= 2
  {
    var p := |bottoms| - 2;
    GroundTruthShapesOk(bottoms[p].shape, bottoms[p + 1].shape, dims)
    && p % 3 == 0 && Pyramid(bottoms, dims, share, classes, p / 3).Some?
  }

  /** The records Reshape leaves: the ground truth of the last two bottoms, L layers
      taking the other 3L bottoms, and the predictions extracted from all of them. */
  predicate Records(bottoms: seq<Tensor>, dims: nat, share: bool, classes: int,
                    gts: seq<seq<GTBox>>, layers: nat, e: Extraction)
  {
    BottomsValid(bottoms) && |bottoms| >= 2 && 3 * layers + 2 == |bottoms|
    && var p := |bottoms| - 2;
    GroundTruthShapesOk(bottoms[p].shape, bottoms[p + 1].shape, dims)
    && IsGroundTruth(gts, bottoms[p].shape[0], CountFrom(bottoms[p + 1].shape, 2), dims, p, p + 1)
    && Pyramid(bottoms, dims, share, classes, layers) == Some(e)
  }

  /** Lines 36-47: the ground truth from the last two bottoms (arenas |bottoms|-2 and
      |bottoms|-1), the check that the rest come in threes, then every pyramid layer. */
  method ExtractRecords(bottoms: seq<Tensor>, dims: nat, share: bool, classes: int)
    returns (r: Result<(seq<seq<GTBox>>, nat, Extraction)>)
    requires BottomsValid(bottoms) && |bottoms| >= 2
    ensures r.Ok? <==> ReshapeOk(bottoms, dims, share, classes)
    ensures r.Ok? ==> Records(bottoms, dims, share, classes, r.value.0, r.value.1, r.value.2)
                      && r.value.1 == (|bottoms| - 2) / 3
  {
    var pyramidBoxSize := |bottoms| - 2;
    var gt := ExtractGroundTruth(bottoms[pyramidBoxSize], bottoms[pyramidBoxSize + 1], dims,
                                 pyramidBoxSize, pyramidBoxSize + 1);
    if gt.Fail? { return Fail(gt.reason); }
    if pyramidBoxSize % 3 != 0 { return Fail("bottoms do not come in threes"); }
    var numPyramidLayer := pyramidBoxSize / 3;
    var e := ExtractPyramid(bottoms, dims, share, classes, numPyramidLayer);
    if e.Fail? { return Fail(e.reason); }
    RecordsOf(bottoms, dims, share, classes, gt.value, numPyramidLayer, e.value);
    return Ok((gt.value, numPyramidLayer, e.value));
  }

  /** The pieces ExtractRecords has checked make up its records. */
  lemma RecordsOf(bottoms: seq<Tensor>, dims: nat, share: bool, classes: int,
                  gts: seq<seq<GTBox>>, layers: nat, e: Extraction)
    requires BottomsValid(bottoms) && 3 * layers + 2 == |bottoms|
    requires var p := |bottoms| - 2;
             GroundTruthShapesOk(bottoms[p].shape, bottoms[p + 1].shape, dims)
             && IsGroundTruth(gts, bottoms[p].shape[0], CountFrom(bottoms[p + 1].shape, 2), dims, p, p + 1)
    requires Pyramid(bottoms, dims, share, classes, layers) == Some(e)
    ensures Records(bottoms, dims, share, classes, gts, layers, e)
    ensures ReshapeOk(bottoms, dims, share, classes)
  {
  }

  /** A bottom's role: pyramid layer, kind within the layer (0 default boxes, 1 location,
      2 confidence), or -1 for the two ground-truth bottoms. */
  function Role(pyramid: nat, b: nat): (int, nat)
  {
    if b < 3 * pyramid then (b / 3, b % 3) else (-1, b - 3 * pyramid)
  }

  /** With L = (|bottoms| - 2) / 3 layers, the bottoms split exactly into L triples and
      the two ground-truth bottoms (lines 38-45): each bottom has one role, and each
      role one bottom. */
  lemma BottomRoles(count: nat, layers: nat)
    requires count >= 2 && (count - 2) % 3 == 0 && layers == (count - 2) / 3
    ensures 3 * layers + 2 == count
    ensures forall b :: 0 <= b < count ==>
              var (l, k) := Role(layers, b);
              (l >= 0 ==> l < layers && k < 3 && 3 * l + k == b)
              && (l < 0 ==> k < 2 && b == count - 2 + k)
  {
    forall b | 0 <= b < count && b < 3 * layers
      ensures b / 3 < layers && 3 * (b / 3) + b % 3 == b
    {
      FlatSplit(b, layers, 3);
    }
  }

  // ------------------------------------------------------------------ Forward_cpu

  /** The negatives to train on (lines 72-77): the matched count times the ratio, rounded
      half up by truncation, at most the available negatives when the ratio is positive,
      and at least `min_negtive_`. Line 77 as written discards the ratio-based count; see
      AsWrittenTrainCount. */
  function TrainCount(matched: nat, available: nat, ratio: real, minNegative: int): (count: int)
    ensures count >= minNegative
    ensures count == minNegative || count == Clamped(matched, available, ratio)
    ensures count >= Clamped(matched, available, ratio)
    ensures ratio > 0.0 && minNegative <= available ==> count <= available
  {
    var clamped := Clamped(matched, available, ratio);
    if clamped < minNegative then minNegative else clamped
  }

  /** Lines 72-75: `static_cast<int>(matched * ratio + 0.5)`, then at most `available`
      when the ratio is positive. */
  function Clamped(matched: nat, available: nat, ratio: real): (count: int)
    ensures ratio > 0.0 ==> 0 <= count <= available
    ensures ratio > 0.0 ==> count == available || count == RatioCount(matched, ratio)
  {
    var byRatio := RatioCount(matched, ratio);
    if ratio > 0.0 && available < byRatio then available else byRatio
  }

  /** Line 72: the conversion truncates toward zero. For a non-negative ratio the result
      is `matched * ratio` rounded to the nearest integer, halves up. */
  function RatioCount(matched: nat, ratio: real): (count: int)
    ensures ratio >= 0.0 ==> count >= 0
    ensures ratio >= 0.0 ==> count as real - 0.5 <= matched as real * ratio < count as real + 0.5
  {
    MulNonNegR(matched as real, ratio);
    Trunc(matched as real * ratio + 0.5)
  }

  lemma MulNonNegR(x: real, y: real)
    ensures x >= 0.0 && y >= 0.0 ==> x * y >= 0.0
  {
  }

  /** Line 77 as written: `max(num_negtive, min_negtive_)`, the available count. */
  function AsWrittenTrainCount(matched: nat, available: nat, ratio: real, minNegative: int): int
  {
    if available < minNegative then minNegative else available
  }

  /** After the CHECK of line 76, line 77 as written trains on every negative whatever
      the ratio: with one match, ratio 3 and ten negatives it trains ten, where the
      ratio-based count is three. */
  lemma AsWrittenTrainCountIgnoresRatio(matched: nat, available: nat, ratio: real, minNegative: int)
    requires minNegative <= available
    ensures AsWrittenTrainCount(matched, available, ratio, minNegative) == available
    ensures AsWrittenTrainCount(1, 10, 3.0, 0) == 10 && TrainCount(1, 10, 3.0, 0) == 3
  {
    assert RatioCount(1, 3.0) == 3;
  }

  class MultiBoxLossLayer {
    var shareLocation: bool
    var numPyramidLayer: nat
    var boxDimensions: nat
    var numClasses: int
    var num: nat
    var backgroundLabel: int
    var matchType: MatchType
    var confLossType: int
    var overlapThreshold: real
    var negPosRatio: real
    var minNegative: int
    var defBoxes: seq<seq<DefBox>>
    var gtBoxes: seq<seq<GTBox>>
    var predBoxes: seq<seq<seq<DRBox>>>

    constructor()
      ensures defBoxes == [] && gtBoxes == [] && predBoxes == [] && num == 0
    {
      shareLocation, numPyramidLayer, boxDimensions, numClasses := false, 0, 0, 0;
      num, backgroundLabel, matchType, confLossType := 0, 0, Bipartite, 0;
      overlapThreshold, negPosRatio, minNegative := 0.0, 0.0, 0;
      defBoxes, gtBoxes, predBoxes := [], [], [];
    }

    /** Lines 21-30: the parameters, then the background label must be positive. */
    method LayerSetUp(p: LossParam) returns (o: Outcome)
      modifies this`boxDimensions, this`shareLocation, this`numClasses, this`matchType,
               this`overlapThreshold, this`confLossType, this`backgroundLabel,
               this`negPosRatio, this`minNegative
      ensures o.Pass? <==> p.backgroundLabel > 0
      ensures boxDimensions == p.dims && shareLocation == p.shareLocation && numClasses == p.numClasses
      ensures matchType == p.matchType && overlapThreshold == p.overlapThreshold
      ensures confLossType == p.confLossType && backgroundLabel == p.backgroundLabel
      ensures negPosRatio == p.negPosRatio && minNegative == p.minNegative
    {
      boxDimensions := p.dims;
      shareLocation := p.shareLocation;
      numClasses := p.numClasses;
      matchType := p.matchType;
      overlapThreshold := p.overlapThreshold;
      confLossType := p.confLossType;
      backgroundLabel := p.backgroundLabel;
      negPosRatio := p.negPosRatio;
      minNegative := p.minNegative;
      o := Need(backgroundLabel > 0, "background label must be positive");
    }

    /** The state a successful Reshape on bottoms of these shapes leaves. */
    predicate Reshaped(bottoms: seq<Tensor>)
      reads this
    {
      Records(bottoms, boxDimensions, shareLocation, numClasses, gtBoxes, numPyramidLayer,
              Extraction(num, defBoxes, predBoxes))
    }

    /** Reshape (lines 34-51): clear the records, extract the ground truth from the last
        two bottoms, check that the rest come in threes, and extract every pyramid layer's
        predictions into the same records. The call at line 45 omits the `def_boxes`
        argument ExtractPredBoxes declares (box.hpp:63-67); the model keeps them in
        `defBoxes`, cleared with the other records. */
    method Reshape(bottoms: seq<Tensor>) returns (o: Outcome)
      requires BottomsValid(bottoms) && |bottoms| >= 5
      modifies this`gtBoxes, this`defBoxes, this`predBoxes, this`num, this`numPyramidLayer
      ensures o.Pass? <==> ReshapeOk(bottoms, boxDimensions, shareLocation, numClasses)
      ensures o.Pass? ==> Reshaped(bottoms) && numPyramidLayer == (|bottoms| - 2) / 3
    {
      gtBoxes, defBoxes, predBoxes := [], [], [];
      var r := ExtractRecords(bottoms, boxDimensions, shareLocation, numClasses);
      if r.Fail? { return Stop(r.reason); }
      var (gts, layers, e) := r.value;
      gtBoxes, numPyramidLayer := gts, layers;
      num, defBoxes, predBoxes := e.num, e.defs, e.drs;
      return Pass;
    }

    /** The parameters LayerSetUp stored. */
    function Param(): LossParam
      reads this
    {
      LossParam(boxDimensions, shareLocation, numClasses, matchType, overlapThreshold, confLossType,
                backgroundLabel, negPosRatio, minNegative)
    }

    /** Forward_cpu (lines 54-91) up to the training negatives: the pipeline on every
        image in turn; `results` holds the images processed before any failure. */
    method Forward(bottoms: seq<Tensor>) returns (o: Outcome, results: seq<ImageResult>)
      requires Reshaped(bottoms) && num <= |gtBoxes|
      ensures |results| <= num && (o.Pass? <==> |results| == num)
      ensures AllDone(Param(), Data(bottoms), gtBoxes, predBoxes, results)
      ensures o.Stop? ==> StoppedAt(Param(), Data(bottoms), gtBoxes, predBoxes, |results|)
    {
      RecordsReadable(bottoms, boxDimensions, shareLocation, numClasses, gtBoxes, numPyramidLayer,
                      Extraction(num, defBoxes, predBoxes));
      o, results := ForwardImages(Param(), Data(bottoms), gtBoxes, predBoxes, num);
    }
  }

  // ------------------------------------------------------------------ Forward_cpu

  /** The calls of lines 67-70 complete for an image, whatever the matching finds (that
      is MatchingOk): labelled ground truth is never the background, the match type is known, the negative mining's class lists agree,
      and at least `min_negtive_` negatives are available (line 76). */
  predicate ImageOk(p: LossParam, mem: Memory, gts: seq<GTBox>, preds: seq<seq<DRBox>>)
    requires GtReadable(mem, gts) && PredsWithin(mem, preds)
  {
    OverlapsOk(mem, gts, preds, p.shareLocation, p.backgroundLabel)
    && !p.matchType.OtherType?
    && Negatives.NegativesOk(preds, p.backgroundLabel)
    && p.minNegative <= |Negatives.Negatives(Negatives.Ranked(mem, preds, p.backgroundLabel as nat,
                                                               |preds[p.backgroundLabel]|))|
  }

  /** The matching MathBoxes computes for the match type. */
  ghost predicate Matched(p: LossParam, ov: Overlaps, gtCount: nat, predCounts: seq<nat>, m: Match)
  {
    (p.matchType.Bipartite? ==>
       BipartiteMatches(ov.byGt, |predCounts|, gtCount, predCounts, p.overlapThreshold) == Some(m)
       && MatchedBelow(ov.byGt, |predCounts|, gtCount, predCounts, p.overlapThreshold, m))
    && (p.matchType.PerPrediction? ==>
          PerPredictionOf(ov.byPred, |predCounts|, gtCount, predCounts, p.overlapThreshold, m))
  }

  /** The matching of line 69 completes: under the bipartite policy, no round of the
      image's overlap table finds its best overlap below the threshold. */
  predicate MatchingOk(p: LossParam, mem: Memory, gts: seq<GTBox>, preds: seq<seq<DRBox>>)
    requires GtReadable(mem, gts) && PredsReadable(mem, preds)
  {
    p.matchType.Bipartite? ==>
      BipartiteMatches(Table(mem, gts, preds, p.shareLocation), |preds|, |gts|, Lens(preds), p.overlapThreshold).Some?
  }

  /** What lines 64-77 compute for one image from that image's records alone. */
  ghost predicate ImageDone(p: LossParam, mem: Memory, gts: seq<GTBox>, preds: seq<seq<DRBox>>, res: ImageResult)
    requires GtReadable(mem, gts) && PredsWithin(mem, preds)
  {
    ImageOk(p, mem, gts, preds)
    && IsTable(mem, gts, preds, p.shareLocation, res.overlaps.byGt)
    && res.overlaps.byPred == Mirror(res.overlaps.byGt)
    && Matched(p, res.overlaps, |gts|, Lens(preds), res.matches)
    && res.negatives == Negatives.Negatives(Negatives.Ranked(mem, preds, p.backgroundLabel as nat,
                                                            |preds[p.backgroundLabel]|))
    && res.trainNegatives == TrainCount(|res.matches|, |res.negatives|, p.negPosRatio, p.minNegative)
  }

  /** One iteration of lines 61-77. The match table, overlap table and negative list
      are fresh for every image, so nothing but the image's own records and the layer's
      parameters decides the result. */
  method ForwardImage(p: LossParam, mem: Memory, gts: seq<GTBox>, preds: seq<seq<DRBox>>)
    returns (o: Outcome, res: ImageResult)
    requires GtReadable(mem, gts) && PredsWithin(mem, preds)
    ensures o.Pass? <==> ImageOk(p, mem, gts, preds) && MatchingOk(p, mem, gts, preds)
    ensures o.Pass? ==> ImageDone(p, mem, gts, preds, res)
  {
    res := ImageResult(Overlaps(map[], map[]), map[], [], 0);
    var ov := JaccardOverlaps(mem, gts, preds, p.shareLocation, p.backgroundLabel);
    if ov.Fail? { o := Stop(ov.reason); return; }
    TableBounds(mem, gts, preds, p.shareLocation, ov.value);
    TableUnique(mem, gts, preds, p.shareLocation, ov.value.byGt);
    var m := MathBoxes(ov.value, p.matchType, p.overlapThreshold, |preds|, |gts|, Lens(preds));
    if m.Fail? { o := Stop(m.reason); return; }
    var negs := Negatives.ExtractNegatives(mem, preds, p.backgroundLabel);
    if negs.Fail? { o := Stop(negs.reason); return; }
    var available := |negs.value|;
    if p.minNegative > available { o := Stop("fewer negatives than min_negtive"); return; }
    var count := TrainCount(|m.value|, available, p.negPosRatio, p.minNegative);
    res := ImageResult(ov.value, m.value, negs.value, count);
    o := Pass;
  }

  /** Image n's records point inside the blobs. */
  predicate ImageReadable(mem: Memory, gts: seq<seq<GTBox>>, preds: seq<seq<seq<DRBox>>>, n: nat)
  {
    n < |gts| && n < |preds| && GtReadable(mem, gts[n]) && PredsWithin(mem, preds[n])
  }

  /** Image n went through the pipeline with result `res`. */
  ghost predicate DoneAt(p: LossParam, mem: Memory, gts: seq<seq<GTBox>>, preds: seq<seq<seq<DRBox>>>,
                         n: nat, res: ImageResult)
  {
    ImageReadable(mem, gts, preds, n) && ImageDone(p, mem, gts[n], preds[n], res)
  }

  /** The pipeline stopped at image n: a call of lines 67-76 cannot complete. */
  predicate StoppedAt(p: LossParam, mem: Memory, gts: seq<seq<GTBox>>, preds: seq<seq<seq<DRBox>>>, n: nat)
  {
    ImageReadable(mem, gts, preds, n)
    && !(ImageOk(p, mem, gts[n], preds[n]) && MatchingOk(p, mem, gts[n], preds[n]))
  }

  /** The loop of lines 61-89 over the first `num` images. */
  method ForwardImages(p: LossParam, mem: Memory, gts: seq<seq<GTBox>>, preds: seq<seq<seq<DRBox>>>, num: nat)
    returns (o: Outcome, results: seq<ImageResult>)
    requires num <= |gts| && num <= |preds|
    requires forall n :: 0 <= n < num ==> ImageReadable(mem, gts, preds, n)
    ensures |results| <= num && (o.Pass? <==> |results| == num)
    ensures AllDone(p, mem, gts, preds, results)
    ensures o.Stop? ==> StoppedAt(p, mem, gts, preds, |results|)
  {
    results := [];
    var n := 0;
    while n < num
      invariant 0 <= n <= num && |results| == n
      invariant AllDone(p, mem, gts, preds, results)
    {
      assert ImageReadable(mem, gts, preds, n);
      var o', res := ForwardImage(p, mem, gts[n], preds[n]);
      if o'.Stop? { o := o'; return; }
      DoneExtend(p, mem, gts, preds, results, res);
      results := results + [res];
      n := n + 1;
    }
    o := Pass;
  }

  /** Every image processed so far went through the pipeline. */
  ghost predicate AllDone(p: LossParam, mem: Memory, gts: seq<seq<GTBox>>, preds: seq<seq<seq<DRBox>>>,
                          results: seq<ImageResult>)
  {
    forall n :: 0 <= n < |results| ==> DoneAt(p, mem, gts, preds, n, results[n])
  }

  lemma DoneExtend(p: LossParam, mem: Memory, gts: seq<seq<GTBox>>, preds: seq<seq<seq<DRBox>>>,
                   results: seq<ImageResult>, res: ImageResult)
    requires AllDone(p, mem, gts, preds, results)
    requires ImageReadable(mem, gts, preds, |results|)
    requires ImageDone(p, mem, gts[|results|], preds[|results|], res)
    ensures AllDone(p, mem, gts, preds, results + [res])
  {
    var next := results + [res];
    forall n | 0 <= n < |next|
      ensures DoneAt(p, mem, gts, preds, n, next[n])
    {
      if n < |results| {
        assert next[n] == results[n];
      }
    }
  }

  /** The overlap table's keys index real classes, ground truths and predictions, as
      MathBoxes needs. */
  lemma TableBounds(mem: Memory, gts: seq<GTBox>, preds: seq<seq<DRBox>>, share: bool, ov: Overlaps)
    requires GtReadable(mem, gts) && PredsReadable(mem, preds)
    requires IsTable(mem, gts, preds, share, ov.byGt) && ov.byPred == Mirror(ov.byGt)
    ensures forall c, i, j :: (c, i, j) in ov.byGt ==> c < |preds| && i < |gts| && j < Lens(preds)[c]
    ensures forall c, j, i :: (c, j, i) in ov.byPred ==> c < |preds| && j < Lens(preds)[c] && i < |gts|
  {
    forall c, j, i | (c, j, i) in ov.byPred
      ensures c < |preds| && j < Lens(preds)[c] && i < |gts|
    {
      var k :| k in ov.byGt && (k.0, k.2, k.1) == (c, j, i);
    }
  }
}

/** JaccardOverlaps (src/caffe/util/box.cpp:217-244): the overlap table of one image.

    The original keeps `overlaps[0][class][gt][pred]` and `overlaps[1][class][pred][gt]`
    as nested maps keyed by box pointers. A ground-truth pointer is its index in the
    image's ground-truth list and a prediction pointer is its index in its class's list,
    so each direction is one flat map keyed (class, first, second); an inner map of the
    original exists exactly when it holds an entry, so nothing is lost. */
module Overlap {
  import opened Wrappers
  import opened BoxTypes
  import opened Jaccard

  type Key = (nat, nat, nat)

  /** The two directions: (class, gt, pred) and (class, pred, gt). */
  datatype Overlaps = Overlaps(byGt: map<Key, real>, byPred: map<Key, real>)

  /** C++ `(int)` conversion: truncation toward zero. */
  function Trunc(x: real): int
  {
    if x >= 0.0 then x.Floor else -((-x).Floor)
  }

  predicate GtReadable(mem: Memory, gts: seq<GTBox>)
  {
    forall i :: 0 <= i < |gts| ==> ValidRef(mem, gts[i].labelRef) && Readable(mem, gts[i].box)
  }

  predicate PredsReadable(mem: Memory, preds: seq<seq<DRBox>>)
  {
    forall c, j :: 0 <= c < |preds| && 0 <= j < |preds[c]| ==> Readable(mem, preds[c][j].box)
  }

  /** The label of a ground-truth box (box.cpp:225). */
  function LabelOf(mem: Memory, gt: GTBox): int
    requires ValidRef(mem, gt.labelRef)
  {
    Trunc(Deref(mem, gt.labelRef))
  }

  /** Whether the call completes: every labelled ground truth is not background
      (box.cpp:227) and, with shared locations, has as many dimensions as every
      prediction (the CHECKs inside JaccardOverlap). */
  predicate OverlapsOk(mem: Memory, gts: seq<GTBox>, preds: seq<seq<DRBox>>, share: bool, background: int)
    requires GtReadable(mem, gts)
  {
    OkBefore(mem, gts, preds, share, background, |gts|)
  }

  /** The first `n` ground truths pass those checks. */
  predicate OkBefore(mem: Memory, gts: seq<GTBox>, preds: seq<seq<DRBox>>, share: bool, background: int, n: nat)
    requires GtReadable(mem, gts) && n <= |gts|
  {
    forall i :: 0 <= i < n ==> GtOk(mem, gts, preds, share, background, i)
  }

  predicate GtOk(mem: Memory, gts: seq<GTBox>, preds: seq<seq<DRBox>>, share: bool, background: int, i: nat)
    requires GtReadable(mem, gts) && i < |gts|
  {
    LabelOf(mem, gts[i]) >= 0 ==>
      LabelOf(mem, gts[i]) != background && (share ==> GtComparable(gts, preds, i, |preds|))
  }

  /** Entry (class c, gt i, prediction j) is computed: locations are shared (the
      original has no other branch), the ground truth is labelled, and the boxes are
      comparable. */
  predicate InTable(mem: Memory, gts: seq<GTBox>, preds: seq<seq<DRBox>>, share: bool, c: nat, i: nat, j: nat)
    requires GtReadable(mem, gts)
  {
    share && c < |preds| && i < |gts| && j < |preds[c]|
    && LabelOf(mem, gts[i]) >= 0 && Comparable(gts[i].box, preds[c][j].box)
  }

  function OverlapOf(mem: Memory, gts: seq<GTBox>, preds: seq<seq<DRBox>>, c: nat, i: nat, j: nat): real
    requires GtReadable(mem, gts) && PredsReadable(mem, preds)
    requires c < |preds| && i < |gts| && j < |preds[c]|
  {
    Iou2(CornersOf(mem, gts[i].box), CornersOf(mem, preds[c][j].box))
  }

  /** Iou where the boxes are comparable, 0 elsewhere (never used there). */
  function Iou2(a: Corners, b: Corners): real
  {
    if SameDims(a, b) then Iou(a, b) else 0.0
  }

  /** Loop order of box.cpp:223-233: gt i, then class c, then prediction j. */
  predicate Before(i: nat, c: nat, j: nat, i0: nat, c0: nat, j0: nat)
  {
    i < i0 || (i == i0 && (c < c0 || (c == c0 && j < j0)))
  }

  /** `t` holds exactly the entries written before position (i0, c0, j0) of the loops,
      each with its overlap. */
  ghost predicate TableBefore(mem: Memory, gts: seq<GTBox>, preds: seq<seq<DRBox>>, share: bool,
                        t: map<Key, real>, i0: nat, c0: nat, j0: nat)
    requires GtReadable(mem, gts) && PredsReadable(mem, preds)
  {
    (forall k :: k in t ==>
       InTable(mem, gts, preds, share, k.0, k.1, k.2) && Before(k.1, k.0, k.2, i0, c0, j0)
       && t[k] == OverlapOf(mem, gts, preds, k.0, k.1, k.2))
    && (forall c: nat, i: nat, j: nat ::
          InTable(mem, gts, preds, share, c, i, j) && Before(i, c, j, i0, c0, j0) ==> (c, i, j) in t)
  }

  /** `t` is the whole (class, gt, pred) direction: one entry per labelled ground truth,
      class and prediction, holding their Jaccard overlap. */
  ghost predicate IsTable(mem: Memory, gts: seq<GTBox>, preds: seq<seq<DRBox>>, share: bool, t: map<Key, real>)
    requires GtReadable(mem, gts) && PredsReadable(mem, preds)
  {
    TableBefore(mem, gts, preds, share, t, |gts|, 0, 0)
  }

  /** The table as a closed form: the overlap of every computed (class, ground truth,
      prediction). */
  function Table(mem: Memory, gts: seq<GTBox>, preds: seq<seq<DRBox>>, share: bool): (t: map<Key, real>)
    requires GtReadable(mem, gts) && PredsReadable(mem, preds)
    ensures IsTable(mem, gts, preds, share, t)
    ensures forall c, i, j :: (c, i, j) in t ==> c < |preds| && i < |gts| && j < |preds[c]|
  {
    var keys := set c: nat, i: nat, j: nat | c < |preds| && i < |gts| && j < |preds[c]|
                                           && InTable(mem, gts, preds, share, c, i, j) :: (c, i, j);
    map k | k in keys :: OverlapOf(mem, gts, preds, k.0, k.1, k.2)
  }

  /** The table is determined by the records: IsTable has one solution. */
  lemma TableUnique(mem: Memory, gts: seq<GTBox>, preds: seq<seq<DRBox>>, share: bool, t: map<Key, real>)
    requires GtReadable(mem, gts) && PredsReadable(mem, preds)
    requires IsTable(mem, gts, preds, share, t)
    ensures t == Table(mem, gts, preds, share)
  {
    var u := Table(mem, gts, preds, share);
    forall k | k in u
      ensures k in t
    {
      assert InTable(mem, gts, preds, share, k.0, k.1, k.2);
    }
  }

  /** The other direction: the same entries with gt and prediction swapped. */
  function Mirror(t: map<Key, real>): map<Key, real>
  {
    map k | k in t :: (k.0, k.2, k.1) := t[k]
  }

  lemma MirrorAgrees(t: map<Key, real>)
    ensures forall c: nat, a: nat, b: nat :: (c, a, b) in t <==> (c, b, a) in Mirror(t)
    ensures forall c: nat, a: nat, b: nat :: (c, a, b) in t ==> Mirror(t)[(c, b, a)] == t[(c, a, b)]
  {
    forall c: nat, a: nat, b: nat | (c, b, a) in Mirror(t)
      ensures (c, a, b) in t
    {
      var k :| k in t && (k.0, k.2, k.1) == (c, b, a);
    }
  }

  /** Mirroring twice gives the table back. */
  lemma MirrorInvolution(t: map<Key, real>)
    ensures Mirror(Mirror(t)) == t
  {
    MirrorAgrees(t);
    MirrorAgrees(Mirror(t));
    forall k | k in Mirror(Mirror(t))
      ensures k in t
    {
      assert (k.0, k.2, k.1) in Mirror(t);
    }
  }

  lemma MirrorUpdate(t: map<Key, real>, c: nat, a: nat, b: nat, v: real)
    ensures Mirror(t[(c, a, b) := v]) == Mirror(t)[(c, b, a) := v]
  {
    var l := Mirror(t[(c, a, b) := v]);
    var r := Mirror(t)[(c, b, a) := v];
    forall k | k in l
      ensures k in r && l[k] == r[k]
    {
      var k' :| k' in t[(c, a, b) := v] && (k'.0, k'.2, k'.1) == k;
      if k' != (c, a, b) {
        assert k' in t;
      }
    }
    forall k | k in r
      ensures k in l
    {
      if k != (c, b, a) {
        var k' :| k' in t && (k'.0, k'.2, k'.1) == k;
        assert k' in t[(c, a, b) := v];
      }
    }
  }

  lemma TableStep(mem: Memory, gts: seq<GTBox>, preds: seq<seq<DRBox>>, t: map<Key, real>,
                  i: nat, c: nat, j: nat, v: real)
    requires GtReadable(mem, gts) && PredsReadable(mem, preds)
    requires TableBefore(mem, gts, preds, true, t, i, c, j) && InTable(mem, gts, preds, true, c, i, j)
    requires v == OverlapOf(mem, gts, preds, c, i, j)
    ensures TableBefore(mem, gts, preds, true, t[(c, i, j) := v], i, c, j + 1)
  {
    var t' := t[(c, i, j) := v];
    forall k | k in t'
      ensures InTable(mem, gts, preds, true, k.0, k.1, k.2) && Before(k.1, k.0, k.2, i, c, j + 1)
              && t'[k] == OverlapOf(mem, gts, preds, k.0, k.1, k.2)
    {
      if k != (c, i, j) {
        assert k in t;
      }
    }
  }

  lemma TableClassDone(mem: Memory, gts: seq<GTBox>, preds: seq<seq<DRBox>>, t: map<Key, real>, i: nat, c: nat)
    requires GtReadable(mem, gts) && PredsReadable(mem, preds) && c < |preds|
    requires TableBefore(mem, gts, preds, true, t, i, c, |preds[c]|)
    ensures TableBefore(mem, gts, preds, true, t, i, c + 1, 0)
  {
  }

  /** The first `n` predictions of class c are comparable with ground truth i. */
  predicate ClassComparable(gts: seq<GTBox>, preds: seq<seq<DRBox>>, i: nat, c: nat, n: nat)
    requires i < |gts| && c < |preds| && n <= |preds[c]|
  {
    forall j :: 0 <= j < n ==> Comparable(gts[i].box, preds[c][j].box)
  }

  /** Ground truth i is comparable with every prediction of the first `n` classes. */
  predicate GtComparable(gts: seq<GTBox>, preds: seq<seq<DRBox>>, i: nat, n: nat)
    requires i < |gts| && n <= |preds|
  {
    forall c :: 0 <= c < n ==> ClassComparable(gts, preds, i, c, |preds[c]|)
  }

  /** The state of the prediction loop of box.cpp:231-238 before prediction j: every
      earlier prediction was comparable, `byGt` holds the entries written so far and
      `byPred` mirrors it. */
  ghost predicate ClassState(mem: Memory, gts: seq<GTBox>, preds: seq<seq<DRBox>>, i: nat, c: nat, j: nat,
                             byGt: map<Key, real>, byPred: map<Key, real>)
    requires GtReadable(mem, gts) && PredsReadable(mem, preds)
  {
    i < |gts| && c < |preds| && j <= |preds[c]|
    && ClassComparable(gts, preds, i, c, j)
    && TableBefore(mem, gts, preds, true, byGt, i, c, j)
    && byPred == Mirror(byGt)
  }

  /** One prediction of the loop: both directions get the entry. */
  lemma ClassStep(mem: Memory, gts: seq<GTBox>, preds: seq<seq<DRBox>>, i: nat, c: nat, j: nat,
                  byGt: map<Key, real>, byPred: map<Key, real>, v: real)
    requires GtReadable(mem, gts) && PredsReadable(mem, preds)
    requires ClassState(mem, gts, preds, i, c, j, byGt, byPred) && j < |preds[c]|
    requires LabelOf(mem, gts[i]) >= 0 && Comparable(gts[i].box, preds[c][j].box)
    requires v == Iou(CornersOf(mem, gts[i].box), CornersOf(mem, preds[c][j].box))
    ensures ClassState(mem, gts, preds, i, c, j + 1, byGt[(c, i, j) := v], byPred[(c, j, i) := v])
  {
    TableStep(mem, gts, preds, byGt, i, c, j, v);
    MirrorUpdate(byGt, c, i, j, v);
  }

  lemma ClassStart(mem: Memory, gts: seq<GTBox>, preds: seq<seq<DRBox>>, i: nat, c: nat,
                   byGt: map<Key, real>, byPred: map<Key, real>)
    requires GtReadable(mem, gts) && PredsReadable(mem, preds) && i < |gts| && c < |preds|
    requires TableBefore(mem, gts, preds, true, byGt, i, c, 0) && byPred == Mirror(byGt)
    ensures ClassState(mem, gts, preds, i, c, 0, byGt, byPred)
  {
  }

  lemma ClassDone(mem: Memory, gts: seq<GTBox>, preds: seq<seq<DRBox>>, i: nat, c: nat,
                  byGt: map<Key, real>, byPred: map<Key, real>)
    requires GtReadable(mem, gts) && PredsReadable(mem, preds) && c < |preds|
    requires ClassState(mem, gts, preds, i, c, |preds[c]|, byGt, byPred)
    ensures ClassComparable(gts, preds, i, c, |preds[c]|)
    ensures TableBefore(mem, gts, preds, true, byGt, i, c + 1, 0) && byPred == Mirror(byGt)
  {
    TableClassDone(mem, gts, preds, byGt, i, c);
  }

  /** The entries of one ground truth and one class (box.cpp:231-238). */
  method OverlapClass(mem: Memory, gts: seq<GTBox>, preds: seq<seq<DRBox>>, i: nat, c: nat,
                      byGt0: map<Key, real>, byPred0: map<Key, real>)
    returns (r: Result<Overlaps>)
    requires GtReadable(mem, gts) && PredsReadable(mem, preds)
    requires i < |gts| && c < |preds| && LabelOf(mem, gts[i]) >= 0
    requires TableBefore(mem, gts, preds, true, byGt0, i, c, 0) && byPred0 == Mirror(byGt0)
    ensures r.Ok? <==> ClassComparable(gts, preds, i, c, |preds[c]|)
    ensures r.Ok? ==> TableBefore(mem, gts, preds, true, r.value.byGt, i, c + 1, 0)
                      && r.value.byPred == Mirror(r.value.byGt)
  {
    var byGt: map<Key, real>, byPred: map<Key, real> := byGt0, byPred0;
    var j: nat := 0;
    ClassStart(mem, gts, preds, i, c, byGt, byPred);
    while j < |preds[c]|
      invariant ClassState(mem, gts, preds, i, c, j, byGt, byPred)
      decreases |preds[c]| - j
    {
      var overlap := JaccardOverlap(mem, gts[i].box, preds[c][j].box);
      if overlap.Fail? {
        return Fail(overlap.reason);
      }
      ClassStep(mem, gts, preds, i, c, j, byGt, byPred, overlap.value);
      byGt := byGt[(c, i, j) := overlap.value];
      byPred := byPred[(c, j, i) := overlap.value];
      j := j + 1;
    }
    ClassDone(mem, gts, preds, i, c, byGt, byPred);
    return Ok(Overlaps(byGt, byPred));
  }

  /** The state of the class loop of box.cpp:229-239 before class c. */
  ghost predicate GtState(mem: Memory, gts: seq<GTBox>, preds: seq<seq<DRBox>>, i: nat, c: nat, t: Overlaps)
    requires GtReadable(mem, gts) && PredsReadable(mem, preds)
  {
    i < |gts| && c <= |preds| && GtComparable(gts, preds, i, c)
    && TableBefore(mem, gts, preds, true, t.byGt, i, c, 0) && t.byPred == Mirror(t.byGt)
  }

  lemma GtStep(mem: Memory, gts: seq<GTBox>, preds: seq<seq<DRBox>>, i: nat, c: nat, t: Overlaps, t': Overlaps)
    requires GtReadable(mem, gts) && PredsReadable(mem, preds)
    requires GtState(mem, gts, preds, i, c, t) && c < |preds|
    requires ClassComparable(gts, preds, i, c, |preds[c]|)
    requires TableBefore(mem, gts, preds, true, t'.byGt, i, c + 1, 0) && t'.byPred == Mirror(t'.byGt)
    ensures GtState(mem, gts, preds, i, c + 1, t')
  {
  }

  lemma GtStart(mem: Memory, gts: seq<GTBox>, preds: seq<seq<DRBox>>, i: nat, t: Overlaps)
    requires GtReadable(mem, gts) && PredsReadable(mem, preds) && i < |gts|
    requires TableBefore(mem, gts, preds, true, t.byGt, i, 0, 0) && t.byPred == Mirror(t.byGt)
    ensures GtState(mem, gts, preds, i, 0, t)
  {
  }

  /** After the last class the next ground truth starts. */
  lemma GtDone(mem: Memory, gts: seq<GTBox>, preds: seq<seq<DRBox>>, i: nat, t: Overlaps)
    requires GtReadable(mem, gts) && PredsReadable(mem, preds)
    requires GtState(mem, gts, preds, i, |preds|, t)
    ensures GtComparable(gts, preds, i, |preds|)
    ensures TableBefore(mem, gts, preds, true, t.byGt, i + 1, 0, 0) && t.byPred == Mirror(t.byGt)
  {
  }

  /** The entries of one labelled ground truth, class by class (box.cpp:229-239). */
  method OverlapGroundTruth(mem: Memory, gts: seq<GTBox>, preds: seq<seq<DRBox>>, i: nat,
                            byGt0: map<Key, real>, byPred0: map<Key, real>)
    returns (r: Result<Overlaps>)
    requires GtReadable(mem, gts) && PredsReadable(mem, preds)
    requires i < |gts| && LabelOf(mem, gts[i]) >= 0
    requires TableBefore(mem, gts, preds, true, byGt0, i, 0, 0) && byPred0 == Mirror(byGt0)
    ensures r.Ok? <==> GtComparable(gts, preds, i, |preds|)
    ensures r.Ok? ==> TableBefore(mem, gts, preds, true, r.value.byGt, i + 1, 0, 0)
                      && r.value.byPred == Mirror(r.value.byGt)
  {
    var t := Overlaps(byGt0, byPred0);
    var c := 0;
    GtStart(mem, gts, preds, i, t);
    while c < |preds|
      invariant c <= |preds|
      invariant GtState(mem, gts, preds, i, c, t)
    {
      var next := OverlapClass(mem, gts, preds, i, c, t.byGt, t.byPred);
      if next.Fail? {
        assert !ClassComparable(gts, preds, i, c, |preds[c]|);
        return Fail(next.reason);
      }
      GtStep(mem, gts, preds, i, c, t, next.value);
      t := next.value;
      c := c + 1;
    }
    GtDone(mem, gts, preds, i, t);
    return Ok(t);
  }

  /** JaccardOverlaps (box.cpp:217-244). Line 234 takes `loc_boxes[i]`, the ground
      truth's index, where the prediction's `loc_boxes[j]` is evidently meant (as
      written, every prediction of a class overwrites one entry); the intent is
      modelled. The match type is unused by the original and is not a parameter. */
  method JaccardOverlaps(mem: Memory, gts: seq<GTBox>, preds: seq<seq<DRBox>>, share: bool, background: int)
    returns (r: Result<Overlaps>)
    requires GtReadable(mem, gts) && PredsReadable(mem, preds)
    ensures r.Ok? <==> OverlapsOk(mem, gts, preds, share, background)
    ensures r.Ok? ==> IsTable(mem, gts, preds, share, r.value.byGt)
    ensures r.Ok? ==> r.value.byPred == Mirror(r.value.byGt)
  {
    var t := Overlaps(map[], map[]);
    var i := 0;
    while i < |gts|
      invariant 0 <= i <= |gts|
      invariant OkBefore(mem, gts, preds, share, background, i)
      invariant TableBefore(mem, gts, preds, share, t.byGt, i, 0, 0) && t.byPred == Mirror(t.byGt)
    {
      var gtLabel := LabelOf(mem, gts[i]);
      if gtLabel >= 0 {
        if gtLabel == background {
          assert !GtOk(mem, gts, preds, share, background, i);
          return Fail("ground truth labelled as background");
        }
        if share {
          var next := OverlapGroundTruth(mem, gts, preds, i, t.byGt, t.byPred);
          if next.Fail? {
            assert !GtOk(mem, gts, preds, share, background, i);
            return Fail(next.reason);
          }
          t := next.value;
        }
      }
      i := i + 1;
    }
    return Ok(t);
  }

  /** Every stored overlap is a Jaccard overlap in [0, 1], and the two directions hold
      the same entries with the same values (box.cpp:236-237). */
  lemma TableAgrees(mem: Memory, gts: seq<GTBox>, preds: seq<seq<DRBox>>, share: bool, t: map<Key, real>)
    requires GtReadable(mem, gts) && PredsReadable(mem, preds)
    requires IsTable(mem, gts, preds, share, t)
    ensures forall k :: k in t ==> 0.0 <= t[k] <= 1.0
    ensures forall c: nat, i: nat, j: nat :: (c, i, j) in t <==> (c, j, i) in Mirror(t)
    ensures forall c: nat, i: nat, j: nat :: (c, i, j) in t ==> Mirror(t)[(c, j, i)] == t[(c, i, j)]
  {
    forall k | k in t
      ensures 0.0 <= t[k] <= 1.0
    {
      var a := CornersOf(mem, gts[k.1].box);
      var b := CornersOf(mem, preds[k.0][k.2].box);
      IouRange(a, b);
    }
    MirrorAgrees(t);
  }

  /** box.cpp:234 as written: the prediction paired with ground truth i at step j of
      the loop is `loc_boxes[i]`. */
  function AsWrittenPredRead(i: nat, j: nat): nat
  {
    i
  }

  /** As written, ground truth 0 of a class with two predictions reaches only
      prediction 0, and ground truth 2 reaches index 2, past the end; the intended
      table (IsTable) holds one entry for every prediction. */
  lemma AsWrittenOverlapRow()
    ensures forall j :: 0 <= j < 2 ==> AsWrittenPredRead(0, j) == 0
    ensures AsWrittenPredRead(2, 0) >= 2
  {
  }
}


/** JaccardOverlap (src/caffe/util/box.cpp:184-211): intersection over union of two
    axis-aligned D-dimensional boxes, computed from their coordinates. */
module Jaccard {
  import opened Wrappers
  import opened BoxTypes

  function Min(a: real, b: real): real { if a <= b then a else b }
  function Max(a: real, b: real): real { if a >= b then a else b }

  /** Product of side lengths, multiplied from the first dimension on (box.cpp:205-209). */
  function Volume(lens: seq<real>): real
  {
    if |lens| == 0 then 1.0 else lens[0] * Volume(lens[1..])
  }

  /** The coordinates of one box: its minimum and maximum corner. */
  datatype Corners = Corners(lo: seq<real>, hi: seq<real>)

  predicate SameDims(a: Corners, b: Corners)
  {
    |a.lo| == |a.hi| == |b.lo| == |b.hi|
  }

  function Lengths(a: Corners): (lens: seq<real>)
    requires |a.lo| == |a.hi|
    ensures |lens| == |a.lo|
  {
    seq(|a.lo|, i requires 0 <= i < |a.lo| => a.hi[i] - a.lo[i])
  }

  /** Length of the intersection along each dimension (box.cpp:194-195). */
  function OverlapLengths(a: Corners, b: Corners): (lens: seq<real>)
    requires SameDims(a, b)
    ensures |lens| == |a.lo|
  {
    seq(|a.lo|, i requires 0 <= i < |a.lo| => Min(a.hi[i], b.hi[i]) - Max(a.lo[i], b.lo[i]))
  }

  /** Some dimension has no positive intersection: the early return of box.cpp:196-198. */
  predicate Disjoint(a: Corners, b: Corners)
    requires SameDims(a, b)
  {
    exists i :: 0 <= i < |a.lo| && OverlapLengths(a, b)[i] <= 0.0
  }

  predicate AllPositive(lens: seq<real>)
  {
    forall i :: 0 <= i < |lens| ==> lens[i] > 0.0
  }

  /** Intersection over union. The early return makes the result 0 for boxes that do
      not overlap in every dimension; otherwise every side of either box is at least the
      intersection's, so the union is positive and the division is defined. */
  function Iou(a: Corners, b: Corners): real
    requires SameDims(a, b)
  {
    if Disjoint(a, b) then 0.0
    else
      var inter := Volume(OverlapLengths(a, b));
      var union := Volume(Lengths(a)) + Volume(Lengths(b)) - inter;
      UnionCoversIntersection(a, b);
      inter / union
  }

  predicate Readable(mem: Memory, box: Box)
  {
    ValidRefs(mem, box.minLoc) && ValidRefs(mem, box.maxLoc)
  }

  /** The coordinates a box's pointers name. */
  function CornersOf(mem: Memory, box: Box): (a: Corners)
    requires Readable(mem, box)
    ensures |a.lo| == |box.minLoc| && |a.hi| == |box.maxLoc|
  {
    Corners(Values(mem, box.minLoc), Values(mem, box.maxLoc))
  }

  /** Both boxes have the same number of minimum and maximum coordinates. */
  predicate Comparable(box1: Box, box2: Box)
  {
    |box1.maxLoc| == |box1.minLoc| == |box2.minLoc| == |box2.maxLoc|
  }

  /** JaccardOverlap on box records: reads the coordinates the pointers name. A
      dimension-count mismatch is the fatal CHECK of box.cpp:187-189. */
  function JaccardOverlap(mem: Memory, box1: Box, box2: Box): (r: Result<real>)
    requires Readable(mem, box1) && Readable(mem, box2)
    ensures r.Ok? <==> Comparable(box1, box2)
    ensures r.Ok? ==> r.value == Iou(CornersOf(mem, box1), CornersOf(mem, box2))
  {
    if |box1.maxLoc| != |box1.minLoc| || |box2.minLoc| != |box1.minLoc| || |box2.maxLoc| != |box1.minLoc| then
      Fail("box dimensions differ")
    else
      Ok(Iou(CornersOf(mem, box1), CornersOf(mem, box2)))
  }

  // ------------------------------------------------------------------ arithmetic

  lemma MulNonNeg(p: real, q: real)
    requires p >= 0.0 && q >= 0.0
    ensures p * q >= 0.0
  {
  }

  lemma MulPos(p: real, q: real)
    requires p > 0.0 && q > 0.0
    ensures p * q > 0.0
  {
  }

  lemma MulLe(x: real, y: real, u: real, v: real)
    requires 0.0 < x <= y && 0.0 < u <= v
    ensures 0.0 < x * u <= y * v
  {
    MulPos(x, u);
    MulNonNeg(y - x, u);
    MulNonNeg(y, v - u);
  }

  lemma MulLt(x: real, y: real, u: real, v: real)
    requires 0.0 < x <= y && 0.0 < u <= v && (x < y || u < v)
    ensures x * u < y * v
  {
    var yu := y * u;
    assert (y - x) * u == yu - x * u;
    assert y * (v - u) == y * v - yu;
    if x < y {
      MulPos(y - x, u);
      MulNonNeg(y, v - u);
      assert x * u < yu;
    } else {
      MulNonNeg(y - x, u);
      MulPos(y, v - u);
    }
  }

  lemma DivAtMostOne(i: real, u: real)
    requires 0.0 < i <= u
    ensures 0.0 < i / u <= 1.0
  {
  }

  /** Shrinking every side of a box shrinks its volume; strictly when one side shrinks. */
  lemma VolumeMono(a: seq<real>, b: seq<real>)
    requires |a| == |b| && AllPositive(a)
    requires forall i :: 0 <= i < |a| ==> a[i] <= b[i]
    ensures 0.0 < Volume(a) <= Volume(b)
    ensures (exists i :: 0 <= i < |a| && a[i] < b[i]) ==> Volume(a) < Volume(b)
  {
    VolumeLe(a, b);
    if exists i :: 0 <= i < |a| && a[i] < b[i] {
      var i :| 0 <= i < |a| && a[i] < b[i];
      VolumeLt(a, b, i);
    }
  }

  lemma {:induction false} VolumeLe(a: seq<real>, b: seq<real>)
    requires |a| == |b| && AllPositive(a)
    requires forall i :: 0 <= i < |a| ==> a[i] <= b[i]
    ensures 0.0 < Volume(a) <= Volume(b)
  {
    if |a| > 0 {
      var a', b' := a[1..], b[1..];
      VolumeLe(a', b');
      MulLe(a[0], b[0], Volume(a'), Volume(b'));
    }
  }

  lemma {:induction false} VolumeLt(a: seq<real>, b: seq<real>, i: nat)
    requires |a| == |b| && AllPositive(a)
    requires forall j :: 0 <= j < |a| ==> a[j] <= b[j]
    requires i < |a| && a[i] < b[i]
    ensures Volume(a) < Volume(b)
  {
    var a', b' := a[1..], b[1..];
    VolumeLe(a', b');
    if i > 0 {
      VolumeLt(a', b', i - 1);
    }
    MulLt(a[0], b[0], Volume(a'), Volume(b'));
  }

  /** Along each dimension the intersection is no longer than either side. */
  lemma OverlapWithinSides(a: Corners, b: Corners)
    requires SameDims(a, b)
    ensures forall i :: 0 <= i < |a.lo| ==>
              OverlapLengths(a, b)[i] <= Lengths(a)[i] && OverlapLengths(a, b)[i] <= Lengths(b)[i]
  {
  }

  lemma UnionCoversIntersection(a: Corners, b: Corners)
    requires SameDims(a, b) && !Disjoint(a, b)
    ensures 0.0 < Volume(OverlapLengths(a, b)) <= Volume(Lengths(a))
    ensures Volume(OverlapLengths(a, b)) <= Volume(Lengths(b))
    ensures Volume(Lengths(a)) + Volume(Lengths(b)) - Volume(OverlapLengths(a, b)) > 0.0
  {
    OverlapWithinSides(a, b);
    VolumeMono(OverlapLengths(a, b), Lengths(a));
    VolumeMono(OverlapLengths(a, b), Lengths(b));
  }

  // ------------------------------------------------------------------ properties

  /** The overlap does not depend on the order of the two boxes. */
  lemma IouSymmetric(a: Corners, b: Corners)
    requires SameDims(a, b)
    ensures Iou(a, b) == Iou(b, a)
  {
    assert OverlapLengths(a, b) == OverlapLengths(b, a);
  }

  /** Boxes that overlap in every dimension have an overlap in (0, 1]; the others 0. */
  lemma IouRange(a: Corners, b: Corners)
    requires SameDims(a, b)
    ensures Disjoint(a, b) ==> Iou(a, b) == 0.0
    ensures !Disjoint(a, b) ==> 0.0 < Iou(a, b) <= 1.0
  {
    if !Disjoint(a, b) {
      UnionCoversIntersection(a, b);
      var inter := Volume(OverlapLengths(a, b));
      var union := Volume(Lengths(a)) + Volume(Lengths(b)) - inter;
      DivAtMostOne(inter, union);
    }
  }

  predicate NonDegenerate(a: Corners)
  {
    |a.lo| == |a.hi| && forall i :: 0 <= i < |a.lo| ==> a.lo[i] < a.hi[i]
  }

  /** The overlap is 1 exactly when both boxes are the same non-degenerate box. */
  lemma IouOne(a: Corners, b: Corners)
    requires SameDims(a, b)
    ensures Iou(a, b) == 1.0 <==> a == b && NonDegenerate(a)
  {
    if a == b && NonDegenerate(a) {
      IouSelf(a);
    }
    if Iou(a, b) == 1.0 {
      IouOneSameBox(a, b);
    }
  }

  /** A non-degenerate box overlaps itself completely. */
  lemma IouSelf(a: Corners)
    requires NonDegenerate(a)
    ensures Iou(a, a) == 1.0
  {
    assert OverlapLengths(a, a) == Lengths(a);
    assert !Disjoint(a, a) by {
      assert forall i :: 0 <= i < |a.lo| ==> OverlapLengths(a, a)[i] > 0.0;
    }
    UnionCoversIntersection(a, a);
    var v := Volume(Lengths(a));
    assert Volume(OverlapLengths(a, a)) == v;
    assert Iou(a, a) == v / (v + v - v);
    assert v + v - v == v;
    DivSelf(v);
  }

  lemma DivSelf(v: real)
    requires v > 0.0
    ensures v / v == 1.0
  {
  }

  /** An overlap of 1 means intersection, first box and second box have one volume. */
  lemma IouOneVolumes(a: Corners, b: Corners)
    requires SameDims(a, b) && Iou(a, b) == 1.0
    ensures !Disjoint(a, b)
    ensures Volume(OverlapLengths(a, b)) == Volume(Lengths(a)) == Volume(Lengths(b))
  {
    UnionCoversIntersection(a, b);
    var inter := Volume(OverlapLengths(a, b));
    var union := Volume(Lengths(a)) + Volume(Lengths(b)) - inter;
    DivIsOne(inter, union);
  }

  lemma DivIsOne(i: real, u: real)
    requires u > 0.0 && i / u == 1.0
    ensures i == u
  {
    assert i / u * u == i;
  }

  /** Equal volumes with no side longer force equal sides. */
  lemma SidesOfEqualVolume(ov: seq<real>, lens: seq<real>)
    requires |ov| == |lens| && AllPositive(ov)
    requires forall i :: 0 <= i < |ov| ==> ov[i] <= lens[i]
    requires Volume(ov) == Volume(lens)
    ensures forall i :: 0 <= i < |ov| ==> ov[i] == lens[i]
  {
    forall i | 0 <= i < |ov|
      ensures ov[i] == lens[i]
    {
      if ov[i] < lens[i] {
        VolumeLt(ov, lens, i);
      }
    }
  }

  lemma IouOneSameBox(a: Corners, b: Corners)
    requires SameDims(a, b) && Iou(a, b) == 1.0
    ensures a == b && NonDegenerate(a)
  {
    IouOneVolumes(a, b);
    var ov := OverlapLengths(a, b);
    OverlapWithinSides(a, b);
    SidesOfEqualVolume(ov, Lengths(a));
    SidesOfEqualVolume(ov, Lengths(b));
    forall i | 0 <= i < |a.lo|
      ensures a.lo[i] == b.lo[i] && a.hi[i] == b.hi[i] && a.lo[i] < a.hi[i]
    {
      assert ov[i] == Lengths(a)[i] && ov[i] == Lengths(b)[i] && ov[i] > 0.0;
    }
    assert a.lo == b.lo && a.hi == b.hi;
  }
}

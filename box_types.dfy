/** The box records of the detector (include/caffe/util/box.hpp).

    The original keeps raw pointers into tensor memory and between records. Here every
    pointer is an index: a coordinate, label or confidence pointer is a `Ref` naming a
    tensor (its arena) and an element offset in it, a `DefBox` pointer is an index into
    the image's default-box list, and a `DRBox` pointer is a class id and an index into
    that class's prediction list. */
module BoxTypes {
  import opened Index

  /** A pointer into tensor memory: which tensor, and which element of it. */
  datatype Ref = Ref(arena: nat, offset: nat)

  /** A pointer to dr_boxes[image][cls][index] of the current image. */
  datatype DRRef = DRRef(cls: nat, index: nat)

  /** An axis-aligned D-dimensional box: D minimum and D maximum coordinate pointers. */
  datatype Box = Box(minLoc: seq<Ref>, maxLoc: seq<Ref>)

  /** Ground-truth box: a box, a pointer to its label, and overlaps with default boxes. */
  datatype GTBox = GTBox(box: Box, labelRef: Ref, defBoxes: map<nat, real>)

  /** Default (anchor) box: a box, overlaps with ground truth, the predictions decoded
      from it, and pointers to its D minimum and D maximum variances. */
  datatype DefBox = DefBox(box: Box, gtBoxes: map<nat, real>, drBoxes: seq<DRRef>,
                           minVar: seq<Ref>, maxVar: seq<Ref>)

  /** Detection-result box: a box, its one anchor, and a pointer to its confidence. */
  datatype DRBox = DRBox(box: Box, defBox: nat, conf: Ref)

  /** A blob as the core sees it: its shape and its elements in row-major order. */
  datatype Tensor = Tensor(shape: seq<int>, data: seq<real>)

  predicate ValidTensor(t: Tensor)
  {
    NonNeg(t.shape) && |t.data| == Prod(t.shape)
  }

  /** Number of elements from axis `start` on (Blob::count(start)). */
  function CountFrom(shape: seq<int>, start: nat): nat
    requires start <= |shape| && NonNeg(shape)
  {
    assert NonNeg(shape[start..]);
    ProdNonNeg(shape[start..]);
    Prod(shape[start..])
  }

  /** The tensors of one forward pass, indexed by arena id. */
  type Memory = seq<seq<real>>

  predicate ValidRef(mem: Memory, r: Ref)
  {
    r.arena < |mem| && r.offset < |mem[r.arena]|
  }

  predicate ValidRefs(mem: Memory, refs: seq<Ref>)
  {
    forall k :: 0 <= k < |refs| ==> ValidRef(mem, refs[k])
  }

  predicate ValidBox(mem: Memory, b: Box)
  {
    |b.minLoc| == |b.maxLoc| && ValidRefs(mem, b.minLoc) && ValidRefs(mem, b.maxLoc)
  }

  function Deref(mem: Memory, r: Ref): real
    requires ValidRef(mem, r)
  {
    mem[r.arena][r.offset]
  }

  /** The values the pointers point to. */
  function Values(mem: Memory, refs: seq<Ref>): (vs: seq<real>)
    requires ValidRefs(mem, refs)
    ensures |vs| == |refs|
    ensures forall k :: 0 <= k < |refs| ==> vs[k] == Deref(mem, refs[k])
  {
    seq(|refs|, k requires 0 <= k < |refs| => Deref(mem, refs[k]))
  }
}

/** SSDLayer (src/caffe/layers/ssd_layer.cpp:66-234): the set-up that turns the detection
    parameters into normalised box shapes, variances and output channel counts, and the
    reshape that sizes the def-box top and fills it with CalDefaultBox (DefaultBoxes).

    The convolution sub-layers the original creates and forwards through a layer
    registry are not part of this model: their output shapes come in as parameters. */
module SsdLayer {
  import opened Wrappers
  import opened Index
  import DefaultBoxes
  import BoxExtract

  /** One `default_box` entry: its size and its side-ratio lists. */
  datatype DefaultBoxParam = DefaultBoxParam(size: real, sideRatios: seq<seq<real>>)

  /** The parameters the set-up reads: `range` of the detection parameter, the default
      boxes, the variances, the class count and `share_location`. */
  datatype SsdParam = SsdParam(range: seq<int>, defaultBoxes: seq<DefaultBoxParam>, variances: seq<real>,
                               numClasses: nat, shareLocation: bool)

  // ------------------------------------------------------------------ box shapes (lines 79-105)

  function Pow(x: real, n: nat): real
  {
    if n == 0 then 1.0 else Pow(x, n - 1) * x
  }

  /** The running product of line 95, left to right. */
  function ProductR(s: seq<real>): real
  {
    if |s| == 0 then 1.0 else ProductR(s[..|s| - 1]) * s[|s| - 1]
  }

  /** `root` computes positive n-th roots of positive numbers, as pow(x, 1/n) does at
      line 99. */
  ghost predicate IsRoot(root: (real, nat) -> real)
  {
    forall x: real, n: nat :: x > 0.0 && n > 0 ==> root(x, n) > 0.0 && Pow(root(x, n), n) == x
  }

  /** The checks of lines 91, 92 and 98 on one side ratio. */
  predicate SideRatioOk(dims: nat, ratios: seq<real>)
  {
    |ratios| > 0 && |ratios| == dims && ProductR(ratios) > 0.0
  }

  /** Every ratio times c. */
  function ScaleAll(ratios: seq<real>, c: real): (r: seq<real>)
    ensures |r| == |ratios| && forall i :: 0 <= i < |r| ==> r[i] == ratios[i] * c
  {
    seq(|ratios|, i requires 0 <= i < |ratios| => ratios[i] * c)
  }

  /** The normalised shape of one side ratio (lines 96 and 101): every ratio times the
      box size, divided by the solver, the D-th root of the ratios' product. */
  function ShapeOf(ratios: seq<real>, size: real, solver: real): (shape: seq<real>)
    requires solver != 0.0
  {
    ScaleAll(ratios, size / solver)
  }

  /** The solver of line 99 for one side ratio. */
  function Solver(ratios: seq<real>, root: (real, nat) -> real): (solver: real)
    requires IsRoot(root) && |ratios| > 0 && ProductR(ratios) > 0.0
    ensures solver > 0.0 && Pow(solver, |ratios|) == ProductR(ratios)
  {
    root(ProductR(ratios), |ratios|)
  }

  predicate SideRatiosOk(dims: nat, sideRatios: seq<seq<real>>)
  {
    forall j :: 0 <= j < |sideRatios| ==> SideRatioOk(dims, sideRatios[j])
  }

  /** The checks of lines 83 and 86 and those of every side ratio of one default box. */
  predicate DefaultBoxOk(dims: nat, b: DefaultBoxParam)
  {
    b.size > 0.0 && |b.sideRatios| > 0 && SideRatiosOk(dims, b.sideRatios)
  }

  predicate DefaultBoxesOk(dims: nat, boxes: seq<DefaultBoxParam>)
  {
    forall i :: 0 <= i < |boxes| ==> DefaultBoxOk(dims, boxes[i])
  }

  /** The shapes one default box pushes, one per side ratio, in order. */
  function ShapesOf(size: real, sideRatios: seq<seq<real>>, dims: nat, root: (real, nat) -> real): seq<seq<real>>
    requires IsRoot(root) && SideRatiosOk(dims, sideRatios)
  {
    seq(|sideRatios|, j requires 0 <= j < |sideRatios| => ShapeOf(sideRatios[j], size, Solver(sideRatios[j], root)))
  }

  /** `box_shapes_` after the loop of lines 80-105. */
  function BoxShapes(boxes: seq<DefaultBoxParam>, dims: nat, root: (real, nat) -> real): seq<seq<real>>
    requires IsRoot(root) && DefaultBoxesOk(dims, boxes)
  {
    if |boxes| == 0 then []
    else
      var last := boxes[|boxes| - 1];
      BoxShapes(boxes[..|boxes| - 1], dims, root) + ShapesOf(last.size, last.sideRatios, dims, root)
  }

  /** The number of side-ratio entries across the default boxes. */
  function NumSideRatios(boxes: seq<DefaultBoxParam>): nat
  {
    if |boxes| == 0 then 0 else NumSideRatios(boxes[..|boxes| - 1]) + |boxes[|boxes| - 1].sideRatios|
  }

  /** One shape per side ratio, each with one extent per dimension. */
  lemma {:induction false} BoxShapesCount(boxes: seq<DefaultBoxParam>, dims: nat, root: (real, nat) -> real)
    requires IsRoot(root) && DefaultBoxesOk(dims, boxes)
    ensures |BoxShapes(boxes, dims, root)| == NumSideRatios(boxes)
    ensures forall s :: 0 <= s < |BoxShapes(boxes, dims, root)| ==> |BoxShapes(boxes, dims, root)[s]| == dims
  {
    if |boxes| > 0 {
      var init := boxes[..|boxes| - 1];
      assert DefaultBoxesOk(dims, init) by {
        forall i | 0 <= i < |init| ensures DefaultBoxOk(dims, init[i]) {
          assert init[i] == boxes[i];
        }
      }
      BoxShapesCount(init, dims, root);
      var last := boxes[|boxes| - 1];
      assert DefaultBoxOk(dims, last);
      var front := BoxShapes(init, dims, root);
      var tail := ShapesOf(last.size, last.sideRatios, dims, root);
      forall s | 0 <= s < |front + tail|
        ensures |(front + tail)[s]| == dims
      {
        if s >= |front| {
          assert SideRatioOk(dims, last.sideRatios[s - |front|]);
        }
      }
    }
  }

  lemma {:induction false} PowMul(x: real, y: real, xy: real, n: nat)
    requires xy == x * y
    ensures Pow(xy, n) == Pow(x, n) * Pow(y, n)
  {
    if n > 0 {
      PowMul(x, y, xy, n - 1);
      ScaleStep(Pow(x, n - 1), Pow(y, n - 1), x, y);
    }
  }

  /** Scaling every ratio by c scales the product by c to the D. */
  lemma {:induction false} ProductScaled(ratios: seq<real>, c: real)
    ensures ProductR(ScaleAll(ratios, c)) == ProductR(ratios) * Pow(c, |ratios|)
  {
    if |ratios| > 0 {
      var n := |ratios| - 1;
      ProductScaled(ratios[..n], c);
      ScalePrefix(ratios, c, n);
      ScaleStep(ProductR(ratios[..n]), Pow(c, n), ratios[n], c);
    } else {
      assert ScaleAll(ratios, c) == [];
    }
  }

  /** Scaling commutes with taking a prefix. */
  lemma ScalePrefix(ratios: seq<real>, c: real, n: nat)
    requires n <= |ratios|
    ensures ScaleAll(ratios, c)[..n] == ScaleAll(ratios[..n], c)
  {
    assert forall i :: 0 <= i < n ==> ScaleAll(ratios, c)[..n][i] == ScaleAll(ratios[..n], c)[i];
  }

  /** One step of ProductScaled, on plain numbers. */
  lemma ScaleStep(pf: real, q: real, r: real, c: real)
    ensures (pf * q) * (r * c) == (pf * r) * (q * c)
  {
  }

  lemma DivAssoc(x: real, y: real, z: real)
    requires z != 0.0
    ensures x * y / z == x * (y / z) && y / z == y * (1.0 / z) && z * (1.0 / z) == 1.0
  {
  }

  /** The closing step of ShapeVolume, on plain numbers: the volume is
      product * (size*inv)^D = product * size^D * inv^D, and product * inv^D is
      solver^D * inv^D = 1. */
  lemma VolumeStep(volume: real, product: real, power: real, ps: real, pi: real, solverPow: real)
    requires volume == product * power && power == ps * pi && solverPow * pi == 1.0 && solverPow == product
    ensures volume == ps
  {
    assert volume == ps * (product * pi);
  }

  /** Normalisation keeps the volume: the extents of each shape multiply to size^D
      (line 99 divides by the D-th root of the ratios' product). */
  lemma ShapeVolume(ratios: seq<real>, size: real, solver: real)
    requires solver > 0.0 && Pow(solver, |ratios|) == ProductR(ratios)
    ensures ProductR(ShapeOf(ratios, size, solver)) == Pow(size, |ratios|)
  {
    var d := |ratios|;
    var inv := 1.0 / solver;
    DivAssoc(1.0, size, solver);
    ProductScaled(ratios, size / solver);
    PowMul(size, inv, size / solver, d);
    PowMul(solver, inv, 1.0, d);
    PowOne(d);
    VolumeStep(ProductR(ShapeOf(ratios, size, solver)), ProductR(ratios), Pow(size / solver, d), Pow(size, d), Pow(inv, d), Pow(solver, d));
  }

  lemma {:induction false} PowOne(n: nat)
    ensures Pow(1.0, n) == 1.0
  {
    if n > 0 {
      PowOne(n - 1);
    }
  }

  /** Normalisation keeps the aspect: extent i over extent j is ratio i over ratio j. */
  lemma ShapeAspect(ratios: seq<real>, size: real, solver: real, i: nat, j: nat)
    requires solver != 0.0 && i < |ratios| && j < |ratios|
    ensures ShapeOf(ratios, size, solver)[i] * ratios[j] == ShapeOf(ratios, size, solver)[j] * ratios[i]
  {
    CrossScale(ShapeOf(ratios, size, solver)[i], ShapeOf(ratios, size, solver)[j], ratios[i], ratios[j], size / solver);
  }

  lemma CrossScale(si: real, sj: real, a: real, b: real, k: real)
    requires si == a * k && sj == b * k
    ensures si * b == sj * a
  {
  }

  /** (ratio * size) / solver, entry by entry, is the normalised shape. */
  lemma DividedIsScaleAll(r: seq<real>, ratios: seq<real>, size: real, solver: real)
    requires solver != 0.0
    requires |r| == |ratios| && forall k :: 0 <= k < |r| ==> r[k] == ratios[k] * size / solver
    ensures r == ShapeOf(ratios, size, solver)
  {
    forall k | 0 <= k < |r|
      ensures r[k] == ShapeOf(ratios, size, solver)[k]
    {
      DivAssoc(ratios[k], size, solver);
    }
  }

  /** One side ratio (lines 89-103): the checks of lines 91 and 92, the product and the
      scaled extents of lines 93-97 in a buffer, the check of line 98 and the division of
      lines 99-102. */
  method BoxShape(ratios: seq<real>, size: real, dims: nat, root: (real, nat) -> real)
    returns (o: Outcome, shape: seq<real>)
    requires IsRoot(root)
    ensures o.Pass? <==> SideRatioOk(dims, ratios)
    ensures o.Pass? ==> shape == ShapeOf(ratios, size, Solver(ratios, root))
  {
    shape := [];
    var ratioSize := |ratios|;
    var buffer := new real[ratioSize];
    if ratioSize <= 0 { return Stop("no ratios"), shape; }
    if dims != ratioSize { return Stop("ratio count differs from the box dimensions"), shape; }
    var product := 1.0;
    var i := 0;
    while i < ratioSize
      invariant 0 <= i <= ratioSize
      invariant product == ProductR(ratios[..i])
      invariant forall k :: 0 <= k < i ==> buffer[k] == ratios[k] * size
    {
      assert ratios[..i + 1][..i] == ratios[..i];
      product := product * ratios[i];
      buffer[i] := ratios[i] * size;
      i := i + 1;
    }
    assert ratios[..ratioSize] == ratios;
    if product <= 0.0 { return Stop("ratio product is not positive"), shape; }
    var solver := root(product, ratioSize);
    i := 0;
    while i < ratioSize
      invariant 0 <= i <= ratioSize
      invariant forall k :: 0 <= k < i ==> buffer[k] == ratios[k] * size / solver
      invariant forall k :: i <= k < ratioSize ==> buffer[k] == ratios[k] * size
    {
      buffer[i] := buffer[i] / solver;
      i := i + 1;
    }
    assert solver == Solver(ratios, root);
    DividedIsScaleAll(buffer[..], ratios, size, solver);
    shape := buffer[..];
    return Pass, shape;
  }

  // ------------------------------------------------------------------ variances (lines 108-122)

  /** std::vector::resize: keep the first n entries, pad with `fill`. */
  function Resize(v: seq<real>, n: nat, fill: real): (r: seq<real>)
    ensures |r| == n
    ensures forall i :: 0 <= i < n ==> r[i] == if i < |v| then v[i] else fill
  {
    if n <= |v| then v[..n] else v + seq(n - |v|, _ => fill)
  }

  predicate AllPositive(v: seq<real>)
  {
    forall i :: 0 <= i < |v| ==> v[i] > 0.0
  }

  /** `variances_` after lines 108-122, from its earlier value. Several variances must be
      2*D positive values and replace the defaults; a single one must be positive and,
      as evidently intended, applies to all 2*D entries (line 121 as written only
      shrinks the vector to D entries, see AsWrittenSingleVariance). */
  function SetUpVariances(prior: seq<real>, given: seq<real>, dims: nat): Result<seq<real>>
  {
    var base := Resize(prior, 2 * dims, 1.0);
    if |given| > 1 then
      if |given| != 2 * dims then Fail("variance count is not 2 * box dimensions")
      else if !AllPositive(given) then Fail("variance is not positive")
      else Ok(given)
    else if |given| == 1 then
      if given[0] <= 0.0 then Fail("variance is not positive")
      else Ok(seq(2 * dims, _ => given[0]))
    else Ok(base)
  }

  /** The loop of lines 112-116: every given variance is checked positive and copied
      over the default at its position. */
  method CopyVariances(base: seq<real>, given: seq<real>) returns (ok: bool, v: seq<real>)
    requires |base| == |given|
    ensures ok <==> AllPositive(given)
    ensures ok ==> v == given
  {
    v := base;
    var i := 0;
    while i < |given|
      invariant 0 <= i <= |given| && |v| == |given|
      invariant AllPositive(given[..i])
      invariant forall k :: 0 <= k < i ==> v[k] == given[k]
    {
      if given[i] <= 0.0 {
        assert !AllPositive(given);
        return false, v;
      }
      v := v[i := given[i]];
      i := i + 1;
    }
    assert given[..i] == given;
    return true, v;
  }

  /** On success there is one variance per coordinate, each one given when any are
      given, and the defaults are ones on a fresh layer. */
  lemma VariancesShape(prior: seq<real>, given: seq<real>, dims: nat)
    requires SetUpVariances(prior, given, dims).Ok?
    ensures |SetUpVariances(prior, given, dims).value| == 2 * dims
    ensures |given| > 1 ==> SetUpVariances(prior, given, dims).value == given
    ensures |given| == 1 ==> forall i :: 0 <= i < 2 * dims ==> SetUpVariances(prior, given, dims).value[i] == given[0]
    ensures |given| > 0 || prior == [] ==> AllPositive(SetUpVariances(prior, given, dims).value)
  {
  }

  /** The set-up fails exactly on a wrong count or a non-positive variance. */
  lemma VariancesFail(prior: seq<real>, given: seq<real>, dims: nat)
    ensures SetUpVariances(prior, given, dims).Fail? <==>
            (|given| > 1 && (|given| != 2 * dims || !AllPositive(given))) || (|given| == 1 && given[0] <= 0.0)
  {
  }

  /** Line 121 as written: a single variance v only resizes the 2*D defaults to D. */
  function AsWrittenSingleVariance(prior: seq<real>, v: real, dims: nat): seq<real>
  {
    Resize(Resize(prior, 2 * dims, 1.0), dims, v)
  }

  /** With two dimensions and variance 0.1 the vector keeps two ones: the value is never
      applied, and CalDefaultBox then reads variances[2] and [3] past its end. */
  lemma AsWrittenSingleVarianceIgnored()
    ensures AsWrittenSingleVariance([], 0.1, 2) == [1.0, 1.0]
    ensures SetUpVariances([], [0.1], 2) == Ok([0.1, 0.1, 0.1, 0.1])
  {
    assert Resize([], 4, 1.0) == [1.0, 1.0, 1.0, 1.0];
    assert Resize([1.0, 1.0, 1.0, 1.0], 2, 0.1) == [1.0, 1.0];
    assert seq(4, _ => 0.1) == [0.1, 0.1, 0.1, 0.1];
  }

  // ------------------------------------------------------------------ output counts (lines 130-134)

  /** pow(num_classes, !share_location): one class per location when shared. */
  function ClassFactor(numClasses: nat, share: bool): nat
  {
    if share then 1 else numClasses
  }

  function DefOutputs(dims: nat, shapes: nat): nat
  {
    2 * dims * shapes
  }

  function LocOutputs(dims: nat, shapes: nat, numClasses: nat, share: bool): nat
  {
    DefOutputs(dims, shapes) * ClassFactor(numClasses, share)
  }

  /** K*C confidence channels, one per box shape and class, as ExtractPredBoxes reads
      them (box.cpp:76). Line 134 as written multiplies by the class factor once more,
      see AsWrittenConfOutputs. */
  function ConfOutputs(shapes: nat, numClasses: nat): nat
  {
    shapes * numClasses
  }

  /** The channel counts the layer produces pass the checks ExtractPredBoxes makes on
      them (box.cpp:70-81) exactly when the location is shared or there is more than one
      class: with one class and unshared locations the two location blobs have equal
      channels, which ExtractPredBoxes reads as shared. */
  lemma OutputsAccepted(dims: nat, shapes: nat, numClasses: nat, share: bool)
    requires dims > 0 && shapes > 0 && numClasses > 0
    ensures BoxExtract.ChannelsOk(DefOutputs(dims, shapes), LocOutputs(dims, shapes, numClasses, share),
                                  ConfOutputs(shapes, numClasses), dims, share, numClasses)
            <==> share || numClasses != 1
  {
    var def := DefOutputs(dims, shapes);
    var f := ClassFactor(numClasses, share);
    assert def == shapes * (2 * dims);
    MulDiv(shapes, 2 * dims);
    assert LocOutputs(dims, shapes, numClasses, share) == (2 * dims * f) * shapes;
    MulDiv(2 * dims * f, shapes);
    assert ConfOutputs(shapes, numClasses) == numClasses * shapes;
    MulDiv(numClasses, shapes);
    if !share {
      assert LocOutputs(dims, shapes, numClasses, share) == numClasses * def;
      MulDiv(numClasses, def);
      if numClasses != 1 {
        MulMono(2, numClasses, def);
      }
    }
  }

  /** Line 134 as written: K*C*C confidence channels when locations are not shared. */
  function AsWrittenConfOutputs(shapes: nat, numClasses: nat, share: bool): nat
  {
    shapes * numClasses * ClassFactor(numClasses, share)
  }

  /** One dimension, one box shape, two classes, unshared: the layer as written
      produces 4 confidence channels where ExtractPredBoxes wants 2 and stops. */
  lemma AsWrittenConfRejected()
    ensures AsWrittenConfOutputs(1, 2, false) == 4 && ConfOutputs(1, 2) == 2
    ensures !BoxExtract.ChannelsOk(DefOutputs(1, 1), LocOutputs(1, 1, 2, false), AsWrittenConfOutputs(1, 2, false), 1, false, 2)
    ensures BoxExtract.ChannelsOk(DefOutputs(1, 1), LocOutputs(1, 1, 2, false), ConfOutputs(1, 2), 1, false, 2)
  {
    OutputsAccepted(1, 1, 2, false);
  }

  // ------------------------------------------------------------------ reshape (lines 194-234)

  /** Every shape has numAxis axes and agrees with shapes[ref] on the spatial axes. */
  predicate Agree(shapes: seq<seq<int>>, from: nat, ref: nat, first: nat, numAxis: nat)
    requires ref < |shapes|
  {
    (forall i :: from <= i < |shapes| ==> |shapes[i]| == numAxis)
    && (|shapes[ref]| == numAxis ==>
          forall i, j :: from <= i < |shapes| && first <= j < numAxis ==> shapes[i][j] == shapes[ref][j])
  }

  /** Every axis below numAxis of every shape is positive. */
  predicate PositiveAxes(shapes: seq<seq<int>>, numAxis: nat)
  {
    forall i, j :: 0 <= i < |shapes| && 0 <= j < numAxis && j < |shapes[i]| ==> shapes[i][j] > 0
  }

  /** The spatial dimensions of the location top (line 217). */
  function Spatial(top: seq<int>, first: nat, numAxis: nat): seq<int>
    requires first < numAxis ==> numAxis <= |top|
  {
    if first < numAxis then top[first..numAxis] else []
  }

  /** The def-box top shape of lines 213-218: [2, 2*D*K, spatial...]. */
  function DefTopShape(dims: nat, shapes: nat, top: seq<int>, first: nat, numAxis: nat): (shape: seq<int>)
    requires first < numAxis ==> numAxis <= |top|
  {
    [2, DefOutputs(dims, shapes)] + Spatial(top, first, numAxis)
  }

  /** The checks Reshape makes (lines 199-209 and 220-230), the location top having
      the spatial axes line 217 reads, and the CHECK of CalDefaultBox (line 51). */
  predicate ReshapeOk(dims: nat, shapes: nat, channelAxis: nat, bottoms: seq<seq<int>>, tops: seq<seq<int>>)
    requires 2 <= |bottoms| && |tops| == 3
  {
    var first := channelAxis + 1;
    var numAxis := |bottoms[0]|;
    Agree(bottoms, 1, 1, first, numAxis) && PositiveAxes(bottoms, numAxis)
    && (first < numAxis ==> numAxis <= |tops[1]|)
    && Agree([DefTopShape(dims, shapes, tops[1], first, numAxis)] + tops[1..], 0, 0, first, numAxis)
    && PositiveAxes([DefTopShape(dims, shapes, tops[1], first, numAxis)] + tops[1..], numAxis)
    && |Spatial(tops[1], first, numAxis)| == dims
  }

  /** A reshape that passes has a def-box top of 2 * 2DK * cells entries, with at least
      one dimension and one box shape. */
  lemma ReshapeCount(dims: nat, shapes: nat, channelAxis: nat, bottoms: seq<seq<int>>, tops: seq<seq<int>>)
    requires 2 <= |bottoms| && |tops| == 3 && ReshapeOk(dims, shapes, channelAxis, bottoms, tops)
    ensures dims > 0 && shapes > 0
    ensures Positive(Spatial(tops[1], channelAxis + 1, |bottoms[0]|))
    ensures Prod(Spatial(tops[1], channelAxis + 1, |bottoms[0]|)) > 0
    ensures Prod(DefTopShape(dims, shapes, tops[1], channelAxis + 1, |bottoms[0]|))
            == 2 * (shapes * (2 * dims * Prod(Spatial(tops[1], channelAxis + 1, |bottoms[0]|))))
  {
    var first, numAxis := channelAxis + 1, |bottoms[0]|;
    var sp := Spatial(tops[1], first, numAxis);
    var def := DefTopShape(dims, shapes, tops[1], first, numAxis);
    var all := [def] + tops[1..];
    assert all[0] == def;
    assert |def| == numAxis;
    assert def[1] > 0;
    forall k | 0 <= k < |sp| ensures sp[k] > 0 {
      assert def[k + 2] == sp[k];
    }
    assert def[1..] == [DefOutputs(dims, shapes)] + sp;
    assert def[1..][1..] == sp;
    ProdPositive(sp);
    assert Prod(def) == 2 * (DefOutputs(dims, shapes) * Prod(sp));
    assert DefOutputs(dims, shapes) * Prod(sp) == shapes * (2 * dims * Prod(sp));
  }

  // ------------------------------------------------------------------ the layer

  class SSDLayer {
    var inputRange: seq<int>
    var boxDimensions: nat
    var boxShapes: seq<seq<real>>
    var variances: seq<real>
    var numDefOutput: nat
    var numLocOutput: nat
    var numConfOutput: nat
    var channelAxis: nat
    var numSpatialAxes: nat

    /** What a successful set-up leaves: a positive range, one extent per dimension in
        every box shape and one variance per coordinate. */
    predicate Valid()
      reads this
    {
      |inputRange| == boxDimensions && Positive(inputRange) && |variances| == 2 * boxDimensions
      && forall s :: 0 <= s < |boxShapes| ==> |boxShapes[s]| == boxDimensions
    }

    constructor()
      ensures inputRange == [] && boxDimensions == 0 && boxShapes == [] && variances == []
      ensures numDefOutput == 0 && numLocOutput == 0 && numConfOutput == 0
    {
      inputRange := [];
      boxDimensions := 0;
      boxShapes := [];
      variances := [];
      numDefOutput, numLocOutput, numConfOutput := 0, 0, 0;
      channelAxis, numSpatialAxes := 0, 0;
    }

    /** The checks LayerSetUp makes: a positive range, every default box, the variances,
        two or three bottoms, as many spatial axes in the location bottom as box
        dimensions, three tops. */
    static predicate SetUpOk(p: SsdParam, prior: seq<real>, bottomCount: nat, locAxes: nat, axis: nat, topCount: nat)
    {
      Positive(p.range) && DefaultBoxesOk(|p.range|, p.defaultBoxes) && SetUpVariances(prior, p.variances, |p.range|).Ok?
      && 2 <= bottomCount <= 3 && locAxes - axis - 1 == |p.range| && topCount == 3
    }

    /** The shapes of one default box (lines 81-104), appended to `box_shapes_`. */
    method AddDefaultBox(b: DefaultBoxParam, root: (real, nat) -> real) returns (o: Outcome)
      requires IsRoot(root)
      modifies this`boxShapes
      ensures o.Pass? <==> DefaultBoxOk(boxDimensions, b)
      ensures o.Pass? ==> boxShapes == old(boxShapes) + ShapesOf(b.size, b.sideRatios, boxDimensions, root)
    {
      if b.size <= 0.0 { return Stop("box size is not positive"); }
      var sideRatioSize := |b.sideRatios|;
      if sideRatioSize <= 0 { return Stop("no side ratios"); }
      var j := 0;
      while j < sideRatioSize
        invariant 0 <= j <= sideRatioSize
        invariant SideRatiosOk(boxDimensions, b.sideRatios[..j])
        invariant boxShapes == old(boxShapes) + ShapesOf(b.size, b.sideRatios[..j], boxDimensions, root)
      {
        var shape;
        o, shape := BoxShape(b.sideRatios[j], b.size, boxDimensions, root);
        if o.Stop? { return; }
        assert b.sideRatios[..j + 1] == b.sideRatios[..j] + [b.sideRatios[j]];
        boxShapes := boxShapes + [shape];
        j := j + 1;
      }
      assert b.sideRatios[..sideRatioSize] == b.sideRatios;
      return Pass;
    }

    /** Lines 108-122: default ones, then the given variances. */
    method SetVariances(given: seq<real>) returns (o: Outcome)
      modifies this`variances
      ensures o.Pass? <==> SetUpVariances(old(variances), given, boxDimensions).Ok?
      ensures o.Pass? ==> variances == SetUpVariances(old(variances), given, boxDimensions).value
    {
      variances := Resize(variances, 2 * boxDimensions, 1.0);
      var varianceSize := |given|;
      if varianceSize > 1 {
        if varianceSize != 2 * boxDimensions { return Stop("variance count is not 2 * box dimensions"); }
        var ok, copied := CopyVariances(variances, given);
        if !ok { return Stop("variance is not positive"); }
        variances := copied;
      } else if varianceSize == 1 {
        if given[0] <= 0.0 { return Stop("variance is not positive"); }
        variances := seq(2 * boxDimensions, _ => given[0]);
      }
      return Pass;
    }

    /** The loop of lines 80-105 over the default boxes. */
    method SetBoxShapes(boxes: seq<DefaultBoxParam>, root: (real, nat) -> real) returns (o: Outcome)
      requires IsRoot(root) && boxShapes == []
      modifies this`boxShapes
      ensures o.Pass? <==> DefaultBoxesOk(boxDimensions, boxes)
      ensures o.Pass? ==> boxShapes == BoxShapes(boxes, boxDimensions, root)
    {
      var numDefaultBox := |boxes|;
      var i := 0;
      while i < numDefaultBox
        invariant 0 <= i <= numDefaultBox
        invariant DefaultBoxesOk(boxDimensions, boxes[..i])
        invariant boxShapes == BoxShapes(boxes[..i], boxDimensions, root)
      {
        assert boxes[..i + 1][..i] == boxes[..i];
        o := AddDefaultBox(boxes[i], root);
        if o.Stop? { return; }
        i := i + 1;
      }
      assert boxes[..numDefaultBox] == boxes;
      return Pass;
    }

    /** Lines 127-140 and 180-191: the bottom count, the output channel counts, the
        spatial axes of the location bottom and the top count. */
    method SetUpCounts(p: SsdParam, bottomCount: nat, locAxes: nat, axis: nat, topCount: nat) returns (o: Outcome)
      requires axis < locAxes
      modifies this`numDefOutput, this`numLocOutput, this`numConfOutput, this`channelAxis, this`numSpatialAxes
      ensures o.Pass? <==> 2 <= bottomCount <= 3 && locAxes - axis - 1 == boxDimensions && topCount == 3
      ensures o.Pass? ==> numDefOutput == DefOutputs(boxDimensions, |boxShapes|)
                          && numLocOutput == LocOutputs(boxDimensions, |boxShapes|, p.numClasses, p.shareLocation)
                          && numConfOutput == ConfOutputs(|boxShapes|, p.numClasses)
    {
      if bottomCount < 2 || bottomCount > 3 { return Stop("SSD layer takes two or three bottoms"); }
      numDefOutput := 2 * boxDimensions * |boxShapes|;
      numLocOutput := numDefOutput * ClassFactor(p.numClasses, p.shareLocation);
      numConfOutput := |boxShapes| * p.numClasses;
      channelAxis := axis;
      numSpatialAxes := locAxes - channelAxis - 1;
      if numSpatialAxes != boxDimensions { return Stop("spatial axes differ from box dimensions"); }
      if topCount != 3 { return Stop("SSD layer has three tops"); }
      return Pass;
    }

    /** LayerSetUp (lines 68-192) up to the convolution sub-layers: the range (lines 73-77,
        here checked positive, as CalDefaultBox divides by it at lines 16 and 21-22), box
        shapes, variances, the bottom and top counts, the spatial axes of the location
        bottom (whose canonical channel axis is `axis`) and the output channel counts. */
    method LayerSetUp(p: SsdParam, root: (real, nat) -> real, bottomCount: nat, locAxes: nat, axis: nat, topCount: nat)
      returns (o: Outcome)
      requires IsRoot(root) && axis < locAxes
      modifies this
      ensures o.Pass? <==> SetUpOk(p, old(variances), bottomCount, locAxes, axis, topCount)
      ensures o.Pass? ==> inputRange == p.range && boxDimensions == |p.range| && Valid()
      ensures o.Pass? ==> boxShapes == BoxShapes(p.defaultBoxes, |p.range|, root)
      ensures o.Pass? ==> variances == SetUpVariances(old(variances), p.variances, |p.range|).value
      ensures o.Pass? ==> numDefOutput == DefOutputs(|p.range|, |boxShapes|)
                          && numLocOutput == LocOutputs(|p.range|, |boxShapes|, p.numClasses, p.shareLocation)
                          && numConfOutput == ConfOutputs(|boxShapes|, p.numClasses)
    {
      ghost var prior := variances;
      boxShapes := [];
      boxDimensions := |p.range|;
      inputRange := p.range;
      if !Positive(inputRange) { return Stop("range is not positive"); }
      o := SetBoxShapes(p.defaultBoxes, root);
      if o.Stop? { return; }
      BoxShapesCount(p.defaultBoxes, boxDimensions, root);
      o := SetVariances(p.variances);
      if o.Stop? { return; }
      VariancesShape(prior, p.variances, boxDimensions);
      o := SetUpCounts(p, bottomCount, locAxes, axis, topCount);
    }

    /** Reshape (lines 194-234) after the convolution sub-layers have shaped tops 1 and 2:
        the shape checks, the def-box top [2, 2*D*K, spatial...] and its contents. The
        grid passed to CalDefaultBox is the spatial shape of that top; the original
        passes `def_loc_shape_`, a member nothing assigns (line 233), which as written
        is empty and fails CalDefaultBox's CHECK whenever there is a dimension. */
    method Reshape(bottoms: seq<seq<int>>, tops: seq<seq<int>>) returns (o: Outcome, defShape: seq<int>, defData: array<real>)
      requires Valid() && 2 <= |bottoms| <= 3 && |tops| == 3
      ensures fresh(defData)
      ensures o.Pass? <==> ReshapeOk(boxDimensions, |boxShapes|, channelAxis, bottoms, tops)
      ensures o.Pass? ==> defShape == DefTopShape(boxDimensions, |boxShapes|, tops[1], channelAxis + 1, |bottoms[0]|)
      ensures o.Pass? ==> boxDimensions > 0 && |defShape| == boxDimensions + 2 && Positive(defShape[2..])
      ensures o.Pass? ==> defData[..] == DefaultBoxes.Blob(DefaultBoxes.Grid(inputRange, defShape[2..]), boxShapes, variances)
    {
      defShape := [];
      defData := new real[0];
      var firstSpatialAxis := channelAxis + 1;
      var numAxis := |bottoms[0]|;
      o := CheckShapes(bottoms, 1, firstSpatialAxis, numAxis);
      if o.Stop? { return; }
      if firstSpatialAxis < numAxis && |tops[1]| < numAxis { return Stop("location top has too few axes"), defShape, defData; }
      defShape := DefTop(2 * boxDimensions * |boxShapes|, tops[1], firstSpatialAxis, numAxis);
      var allTops := [defShape] + tops[1..];
      o := CheckShapes(allTops, 0, firstSpatialAxis, numAxis);
      if o.Stop? { return; }
      var grid := Spatial(tops[1], firstSpatialAxis, numAxis);
      assert defShape[2..] == grid;
      if |grid| != boxDimensions {
        assert !ReshapeOk(boxDimensions, |boxShapes|, channelAxis, bottoms, tops);
        return Stop("range and grid dimensions differ"), defShape, defData;
      }
      ReshapeCount(boxDimensions, |boxShapes|, channelAxis, bottoms, tops);
      defData := new real[Prod(defShape)];
      o := DefaultBoxes.CalDefaultBoxes(inputRange, grid, boxShapes, variances, defData);
    }
  }

  /** Lines 213-218: [2, 2*D*K] followed by the spatial dimensions of the location top. */
  method DefTop(channels: nat, top: seq<int>, first: nat, numAxis: nat) returns (shape: seq<int>)
    requires first < numAxis ==> numAxis <= |top|
    ensures shape == [2, channels] + Spatial(top, first, numAxis)
  {
    shape := [2, channels];
    var j := first;
    while j < numAxis
      invariant first <= j && (first < numAxis ==> j <= numAxis)
      invariant shape == [2, channels] + (if first < numAxis then top[first..j] else [])
    {
      shape := shape + [top[j]];
      j := j + 1;
    }
  }

  /** The loops of lines 199-209 (from = 1) or 220-230 (from = 0): the axis counts and
      spatial agreement with shapes[from], then positivity of every axis. */
  method CheckShapes(shapes: seq<seq<int>>, from: nat, first: nat, numAxis: nat) returns (o: Outcome)
    requires from < |shapes| && from <= 1 && (from == 1 ==> |shapes[0]| == numAxis)
    ensures o.Pass? <==> Agree(shapes, from, from, first, numAxis) && PositiveAxes(shapes, numAxis)
  {
    var i := from;
    while i < |shapes|
      invariant from <= i <= |shapes|
      invariant forall k :: from <= k < i ==> |shapes[k]| == numAxis
      invariant forall k, j :: from <= k < i && first <= j < numAxis ==> shapes[k][j] == shapes[from][j]
    {
      if |shapes[i]| != numAxis { return Stop("axis counts differ"); }
      var j := first;
      while j < numAxis
        invariant first <= j
        invariant forall j' :: first <= j' < j && j' < numAxis ==> shapes[from][j'] == shapes[i][j']
      {
        if shapes[from][j] != shapes[i][j] { return Stop("spatial dimensions differ"); }
        j := j + 1;
      }
      i := i + 1;
    }
    i := 0;
    while i < |shapes|
      invariant 0 <= i <= |shapes|
      invariant forall k, j :: 0 <= k < i && 0 <= j < numAxis && j < |shapes[k]| ==> shapes[k][j] > 0
    {
      var j := 0;
      while j < numAxis
        invariant 0 <= j <= numAxis
        invariant forall j' :: 0 <= j' < j ==> shapes[i][j'] > 0
      {
        if shapes[i][j] <= 0 { return Stop("dimension is not positive"); }
        j := j + 1;
      }
      i := i + 1;
    }
    return Pass;
  }
}

/** CalDefaultBox (src/caffe/layers/ssd_layer.cpp:11-64): the default (anchor) boxes of
    one SSD layer, written into the def-box top blob.

    The top blob has shape [2, 2*D*K, cells...]: plane 0 holds the coordinates and
    plane 1, which the original reaches through a second pointer `variance_data` into
    the same blob (line 232), the variances. Both are modelled as one array `a` with the
    variance plane at offset `plane`. Shape s of the K box shapes owns the slab
    [s*2*D*co, (s+1)*2*D*co) of each plane, co being the number of cells; in it, the
    minimum of dimension i of cell c sits at c + i*co and the maximum at c + (i+D)*co.

    The recursion over dimensions keeps the current (min, max) of every dimension in
    `cur_datas`, shared by reference; each level only reads entries its ancestors set
    on the way down, so the model passes it by value.

    Positions are products of unknowns; the specification builds them with Index.Times
    so that the proofs stay linear, and the methods, which multiply as the original
    does, are tied to it by Index.TimesIsMul. */
module DefaultBoxes {
  import opened Wrappers
  import opened Index

  /** The input range per dimension and the number of cells along it. */
  datatype Grid = Grid(range: seq<int>, shape: seq<int>)

  predicate GridOk(g: Grid)
  {
    |g.range| == |g.shape| > 0 && Positive(g.range) && Positive(g.shape)
  }

  /** Cells below one cell of dimension k - 1: the product of the later extents. */
  function Rest(g: Grid, k: nat): (r: nat)
    requires GridOk(g) && k <= |g.shape|
    ensures r > 0
    decreases |g.shape| - k
  {
    if k == |g.shape| then 1 else Times(g.shape[k], Rest(g, k + 1))
  }

  /** Number of cells: the channel offset of lines 52-55. */
  function Cells(g: Grid): (co: nat)
    requires GridOk(g)
    ensures co > 0
  {
    Rest(g, 0)
  }

  /** The cell count is the product of the grid's extents. */
  lemma {:induction false} RestProd(g: Grid, k: nat)
    requires GridOk(g) && k <= |g.shape|
    ensures Rest(g, k) == Prod(g.shape[k..])
    decreases |g.shape| - k
  {
    if k < |g.shape| {
      RestProd(g, k + 1);
      assert g.shape[k..][1..] == g.shape[k + 1..];
      TimesIsMul(g.shape[k], Rest(g, k + 1));
    } else {
      assert g.shape[k..] == [];
    }
  }

  /** The index of cell c along dimension d, in the row-major enumeration. */
  function Digit(g: Grid, c: nat, d: nat): int
    requires GridOk(g) && d < |g.shape|
  {
    (c / Rest(g, d + 1)) % g.shape[d]
  }

  /** Centre of the len-th cell along dimension d: step * (len + 0.5) (lines 16, 20). */
  function Center(g: Grid, d: nat, len: int): real
    requires GridOk(g) && d < |g.shape|
  {
    (g.range[d] as real / g.shape[d] as real) * (len as real + 0.5)
  }

  /** Minimum and maximum along dimension d, normalised by the range (lines 21-22). */
  function Lo(g: Grid, size: seq<real>, d: nat, len: int): real
    requires GridOk(g) && d < |g.shape| && d < |size|
  {
    (Center(g, d, len) - size[d] / 2.0) / g.range[d] as real
  }

  function Hi(g: Grid, size: seq<real>, d: nat, len: int): real
    requires GridOk(g) && d < |g.shape| && d < |size|
  {
    (Center(g, d, len) + size[d] / 2.0) / g.range[d] as real
  }

  /** Coordinate j of cell c for a box of the given size: the minimum of dimension j
      for j < D, the maximum of dimension j - D otherwise. */
  function Coord(g: Grid, size: seq<real>, j: nat, c: nat): real
    requires GridOk(g) && |size| == |g.shape| && j < 2 * |g.shape|
  {
    var D := |g.shape|;
    if j < D then Lo(g, size, j, Digit(g, c, j)) else Hi(g, size, j - D, Digit(g, c, j - D))
  }

  /** Each anchor is as long as the box size and centred on its cell, in range units. */
  lemma AnchorGeometry(g: Grid, size: seq<real>, d: nat, c: nat)
    requires GridOk(g) && |size| == |g.shape| && d < |g.shape|
    ensures Coord(g, size, d + |g.shape|, c) - Coord(g, size, d, c) == size[d] / g.range[d] as real
    ensures (Coord(g, size, d, c) + Coord(g, size, d + |g.shape|, c)) / 2.0
            == Center(g, d, Digit(g, c, d)) / g.range[d] as real
  {
    var r := g.range[d] as real;
    var center := Center(g, d, Digit(g, c, d));
    var half := size[d] / 2.0;
    assert (center + half) / r - (center - half) / r == (2.0 * half) / r;
    assert ((center - half) / r + (center + half) / r) / 2.0 == center / r;
  }

  // ------------------------------------------------------------------ where values go

  /** The slab of one box shape: D dimensions, co cells, its first position (start_idx)
      and the offset of the variance plane. */
  datatype Slab = Slab(dims: nat, co: nat, start: nat, plane: nat)

  /** Positions of one slab in one plane: 2*D coordinates per cell. */
  function Width(l: Slab): nat
  {
    Times(2 * l.dims, l.co)
  }

  /** The slab lies below the variance plane, and both planes fit the array. */
  predicate Inside(l: Slab, length: nat)
  {
    l.start + Width(l) <= l.plane && 2 * l.plane <= length
  }

  /** Position of coordinate j of cell c (lines 35-36); it lies within the slab. */
  function Pos(l: Slab, c: nat, j: nat): (p: nat)
    requires c < l.co && j < 2 * l.dims
    ensures l.start <= p < l.start + Width(l)
  {
    FlatTimesBound(j, c, 2 * l.dims, l.co);
    l.start + c + Times(j, l.co)
  }

  /** Two coordinates of a slab share a position only when they are the same. */
  lemma PosInjective(l: Slab, c: nat, j: nat, c': nat, j': nat)
    requires c < l.co && c' < l.co && j < 2 * l.dims && j' < 2 * l.dims
    ensures Pos(l, c, j) == Pos(l, c', j') ==> c == c' && j == j'
  {
    if Pos(l, c, j) == Pos(l, c', j') {
      FlatTimesUnique(j, c, j', c', l.co);
    }
  }

  /** Position k belongs to the slab, in either plane. */
  predicate InSlab(l: Slab, k: nat)
  {
    (l.start <= k < l.start + Width(l)) || (l.plane + l.start <= k < l.plane + l.start + Width(l))
  }

  /** Coordinate j of cell c, and its variance, are the same in r as in arr. */
  predicate Same(l: Slab, arr: seq<real>, r: seq<real>, c: nat, j: nat)
    requires c < l.co && j < 2 * l.dims && Inside(l, |arr|) && |r| == |arr|
  {
    r[Pos(l, c, j)] == arr[Pos(l, c, j)] && r[l.plane + Pos(l, c, j)] == arr[l.plane + Pos(l, c, j)]
  }

  /** Every position outside the slab is the same in r as in arr. */
  predicate Outside(l: Slab, arr: seq<real>, r: seq<real>)
  {
    |r| == |arr| && forall k :: 0 <= k < |arr| && !InSlab(l, k) ==> r[k] == arr[k]
  }

  // ------------------------------------------------------------------ one cell (lines 31-41)

  /** Coordinate j belongs to one of the first n axes. */
  predicate Reached(l: Slab, j: nat, n: nat)
  {
    j < n || l.dims <= j < l.dims + n
  }

  /** The value `cur` gives coordinate j: a minimum below D, a maximum from D on. */
  function AxisValue(cur: seq<(real, real)>, j: nat): real
    requires j < 2 * |cur|
  {
    if j < |cur| then cur[j].0 else cur[j - |cur|].1
  }

  /** What the leaf loop needs: the slab fits the array, c is a cell, and there is a pair
      per dimension and a variance per coordinate. */
  predicate CellOk(l: Slab, vars: seq<real>, length: nat, c: nat, cur: seq<(real, real)>)
  {
    Inside(l, length) && c < l.co && |cur| == l.dims && |vars| == 2 * l.dims
  }

  /** From arr to r, the first n axes of cell c were set to cur's pairs in plane 0 and to
      their variances in plane 1, and nothing else changed. */
  predicate AxesDone(l: Slab, vars: seq<real>, arr: seq<real>, r: seq<real>, c: nat, cur: seq<(real, real)>, n: nat)
  {
    CellOk(l, vars, |arr|, c, cur) && n <= l.dims && Outside(l, arr, r)
    && (forall j :: 0 <= j < 2 * l.dims && Reached(l, j, n) ==>
          r[Pos(l, c, j)] == AxisValue(cur, j) && r[l.plane + Pos(l, c, j)] == vars[j])
    && (forall c', j :: 0 <= c' < l.co && 0 <= j < 2 * l.dims && (c' != c || !Reached(l, j, n)) ==>
          Same(l, arr, r, c', j))
  }

  /** The four writes of one iteration of the leaf loop (lines 37-40). */
  function WriteAxis(l: Slab, vars: seq<real>, r: seq<real>, c: nat, cur: seq<(real, real)>, i: nat): seq<real>
    requires CellOk(l, vars, |r|, c, cur) && i < l.dims
  {
    var lo, hi := Pos(l, c, i), Pos(l, c, i + l.dims);
    r[lo := cur[i].0][hi := cur[i].1][l.plane + lo := vars[i]][l.plane + hi := vars[i + l.dims]]
  }

  /** After iteration i, axes 0 .. i of cell c hold their values. */
  lemma WriteAxisHits(l: Slab, vars: seq<real>, init: seq<real>, r: seq<real>, c: nat, cur: seq<(real, real)>, i: nat)
    requires AxesDone(l, vars, init, r, c, cur, i) && i < l.dims
    ensures forall j :: 0 <= j < 2 * l.dims && Reached(l, j, i + 1) ==>
              WriteAxis(l, vars, r, c, cur, i)[Pos(l, c, j)] == AxisValue(cur, j)
              && WriteAxis(l, vars, r, c, cur, i)[l.plane + Pos(l, c, j)] == vars[j]
  {
    var D := l.dims;
    var r' := WriteAxis(l, vars, r, c, cur, i);
    PosInjective(l, c, i, c, i + D);
    forall j | 0 <= j < 2 * D && Reached(l, j, i + 1)
      ensures r'[Pos(l, c, j)] == AxisValue(cur, j) && r'[l.plane + Pos(l, c, j)] == vars[j]
    {
      PosInjective(l, c, j, c, i);
      PosInjective(l, c, j, c, i + D);
    }
  }

  /** Iteration i changes no other coordinate. */
  lemma WriteAxisMisses(l: Slab, vars: seq<real>, init: seq<real>, r: seq<real>, c: nat, cur: seq<(real, real)>, i: nat)
    requires AxesDone(l, vars, init, r, c, cur, i) && i < l.dims
    ensures forall c', j :: 0 <= c' < l.co && 0 <= j < 2 * l.dims && (c' != c || !Reached(l, j, i + 1)) ==>
              Same(l, init, WriteAxis(l, vars, r, c, cur, i), c', j)
  {
    var D := l.dims;
    var r' := WriteAxis(l, vars, r, c, cur, i);
    forall c', j | 0 <= c' < l.co && 0 <= j < 2 * D && (c' != c || !Reached(l, j, i + 1))
      ensures Same(l, init, r', c', j)
    {
      var p := Pos(l, c', j);
      PosInjective(l, c', j, c, i);
      PosInjective(l, c', j, c, i + D);
      assert p != Pos(l, c, i) && p != Pos(l, c, i + D);
      assert r'[p] == r[p] && r'[l.plane + p] == r[l.plane + p];
      assert Same(l, init, r, c', j);
    }
  }

  /** One iteration writes axis i of cell c and nothing else. */
  lemma WriteAxisStep(l: Slab, vars: seq<real>, init: seq<real>, r: seq<real>, c: nat, cur: seq<(real, real)>, i: nat)
    requires AxesDone(l, vars, init, r, c, cur, i) && i < l.dims
    ensures AxesDone(l, vars, init, WriteAxis(l, vars, r, c, cur, i), c, cur, i + 1)
  {
    WriteAxisHits(l, vars, init, r, c, cur, i);
    WriteAxisMisses(l, vars, init, r, c, cur, i);
  }

  /** One iteration of the leaf loop (lines 33-40): the minimum and maximum of axis i of
      cell c, and their variances. */
  method WriteAxisAt(l: Slab, vars: seq<real>, a: array<real>, c: nat, cur: seq<(real, real)>, i: nat)
    requires CellOk(l, vars, a.Length, c, cur) && i < l.dims
    modifies a
    ensures a[..] == WriteAxis(l, vars, old(a[..]), c, cur, i)
  {
    var numAxis := |cur|;
    var j := i + numAxis;
    var minIdx := l.start + c + i * l.co;
    var maxIdx := l.start + c + j * l.co;
    TimesIsMul(i, l.co);
    TimesIsMul(j, l.co);
    assert minIdx == Pos(l, c, i) && maxIdx == Pos(l, c, i + l.dims);
    a[minIdx] := cur[i].0;
    a[maxIdx] := cur[i].1;
    a[l.plane + minIdx] := vars[i];
    a[l.plane + maxIdx] := vars[j];
  }

  /** The leaf loop (lines 32-41): write cell c's coordinates and variances, and nothing
      else. */
  method WriteCell(l: Slab, vars: seq<real>, a: array<real>, c: nat, cur: seq<(real, real)>)
    requires CellOk(l, vars, a.Length, c, cur)
    modifies a
    ensures AxesDone(l, vars, old(a[..]), a[..], c, cur, l.dims)
  {
    var numAxis := |cur|;
    var i := 0;
    while i < numAxis
      invariant 0 <= i <= numAxis
      invariant AxesDone(l, vars, old(a[..]), a[..], c, cur, i)
    {
      WriteAxisStep(l, vars, old(a[..]), a[..], c, cur, i);
      WriteAxisAt(l, vars, a, c, cur, i);
      i := i + 1;
    }
  }

  // ------------------------------------------------------------------ one level (lines 17-43)

  /** The slab belongs to grid g. */
  predicate Matches(g: Grid, l: Slab)
  {
    GridOk(g) && l.dims == |g.shape| && l.co == Cells(g)
  }

  /** Cells lo .. hi-1 hold their coordinates for this box size, and the variances. */
  predicate CellsWritten(g: Grid, l: Slab, size: seq<real>, vars: seq<real>, r: seq<real>, lo: nat, hi: nat)
  {
    Matches(g, l) && Inside(l, |r|) && hi <= l.co && |size| == l.dims && |vars| == 2 * l.dims
    && forall c, j :: lo <= c < hi && 0 <= j < 2 * l.dims ==>
         r[Pos(l, c, j)] == Coord(g, size, j, c) && r[l.plane + Pos(l, c, j)] == vars[j]
  }

  /** Every cell outside lo .. hi-1, and everything outside the slab, is as in arr. */
  predicate CellsKept(l: Slab, arr: seq<real>, r: seq<real>, lo: nat, hi: nat)
  {
    Inside(l, |arr|) && Outside(l, arr, r)
    && forall c, j :: 0 <= c < l.co && 0 <= j < 2 * l.dims && !(lo <= c < hi) ==> Same(l, arr, r, c, j)
  }

  /** Two consecutive runs of cells make one. */
  lemma Combine(g: Grid, l: Slab, size: seq<real>, vars: seq<real>, init: seq<real>, before: seq<real>,
                after: seq<real>, lo: nat, mid: nat, hi: nat)
    requires lo <= mid <= hi
    requires CellsWritten(g, l, size, vars, before, lo, mid) && CellsKept(l, init, before, lo, mid)
    requires CellsWritten(g, l, size, vars, after, mid, hi) && CellsKept(l, before, after, mid, hi)
    ensures CellsWritten(g, l, size, vars, after, lo, hi) && CellsKept(l, init, after, lo, hi)
  {
    forall c, j | lo <= c < mid && 0 <= j < 2 * l.dims
      ensures after[Pos(l, c, j)] == Coord(g, size, j, c) && after[l.plane + Pos(l, c, j)] == vars[j]
    {
      assert Same(l, before, after, c, j);
    }
    forall c, j | 0 <= c < l.co && 0 <= j < 2 * l.dims && !(lo <= c < hi)
      ensures Same(l, init, after, c, j)
    {
      assert Same(l, init, before, c, j) && Same(l, before, after, c, j);
    }
  }

  /** `cur` holds the right (min, max) for every dimension below `dim` of cell c. */
  predicate CurFits(g: Grid, size: seq<real>, cur: seq<(real, real)>, dim: nat, c: nat)
    requires GridOk(g) && |size| == |g.shape| && |cur| == |g.shape| && dim <= |g.shape|
  {
    forall d :: 0 <= d < dim ==> cur[d] == (Lo(g, size, d, Digit(g, c, d)), Hi(g, size, d, Digit(g, c, d)))
  }

  /** The cells reached from (dim, prev) are cells of the grid. */
  predicate InGrid(g: Grid, dim: nat, prev: nat)
    requires GridOk(g) && dim < |g.shape|
  {
    Times(prev + g.shape[dim], Rest(g, dim + 1)) <= Cells(g)
  }

  /** `cur` fits every cell of the subtree of (dim, prev). */
  predicate CurFitsAll(g: Grid, size: seq<real>, cur: seq<(real, real)>, dim: nat, prev: nat)
    requires GridOk(g) && |size| == |g.shape| && |cur| == |g.shape| && dim < |g.shape|
  {
    forall c :: Times(prev, Rest(g, dim + 1)) <= c < Times(prev + g.shape[dim], Rest(g, dim + 1)) ==>
      CurFits(g, size, cur, dim, c)
  }

  /** Iteration len at dimension dim covers cells (prev+len)*R .. (prev+len+1)*R - 1, R the
      cells below one cell of dim; its child level starts at (prev+len) * shape[dim + 1]
      (line 25) and covers the same cells. */
  lemma ChildFits(g: Grid, dim: nat, prev: nat, len: nat)
    requires GridOk(g) && dim + 1 < |g.shape| && len < g.shape[dim] && InGrid(g, dim, prev)
    ensures InGrid(g, dim + 1, Times(prev + len, g.shape[dim + 1]))
    ensures Times(Times(prev + len, g.shape[dim + 1]), Rest(g, dim + 2)) == Times(prev + len, Rest(g, dim + 1))
    ensures Times(Times(prev + len, g.shape[dim + 1]) + g.shape[dim + 1], Rest(g, dim + 2))
            == Times(prev + len + 1, Rest(g, dim + 1))
  {
    var q, m := prev + len, g.shape[dim + 1];
    TimesAssoc(q, m, Rest(g, dim + 2));
    TimesAdd(Times(q, m), m, Rest(g, dim + 2));
    TimesMono(q + 1, prev + g.shape[dim], Rest(g, dim + 1));
  }

  /** At the last dimension each iteration is one cell. */
  lemma LeafFits(g: Grid, dim: nat, prev: nat, len: nat)
    requires GridOk(g) && dim + 1 == |g.shape| && len < g.shape[dim] && InGrid(g, dim, prev)
    ensures prev + len < Cells(g)
    ensures Times(prev + len, Rest(g, dim + 1)) == prev + len
    ensures Times(prev + len + 1, Rest(g, dim + 1)) == prev + len + 1
  {
    TimesOne(prev + g.shape[dim]);
    TimesOne(prev + len);
    TimesOne(prev + len + 1);
  }

  /** The cells of iteration len's subtree have digit len along `dim`, so setting entry
      dim of `cur` to iteration len's pair makes it fit them one dimension further. */
  lemma NextCurFits(g: Grid, size: seq<real>, cur: seq<(real, real)>, dim: nat, prev: nat, len: nat, c: nat)
    requires GridOk(g) && dim < |g.shape| && len < g.shape[dim] && InGrid(g, dim, prev)
    requires |size| == |g.shape| && |cur| == |g.shape|
    requires prev % g.shape[dim] == 0 && CurFitsAll(g, size, cur, dim, prev)
    requires Times(prev + len, Rest(g, dim + 1)) <= c < Times(prev + len + 1, Rest(g, dim + 1))
    ensures CurFits(g, size, cur[dim := (Lo(g, size, dim, len), Hi(g, size, dim, len))], dim + 1, c)
  {
    var R := Rest(g, dim + 1);
    DivOfTimes(c, prev + len, R);
    ModOfMultiple(prev, len, g.shape[dim]);
    assert Digit(g, c, dim) == len;
    TimesMono(prev, prev + len, R);
    TimesMono(prev + len + 1, prev + g.shape[dim], R);
    assert CurFits(g, size, cur, dim, c);
  }

  lemma ChildCurFits(g: Grid, size: seq<real>, cur: seq<(real, real)>, dim: nat, prev: nat, len: nat)
    requires GridOk(g) && dim + 1 < |g.shape| && len < g.shape[dim] && InGrid(g, dim, prev)
    requires |size| == |g.shape| && |cur| == |g.shape|
    requires prev % g.shape[dim] == 0 && CurFitsAll(g, size, cur, dim, prev)
    ensures CurFitsAll(g, size, cur[dim := (Lo(g, size, dim, len), Hi(g, size, dim, len))],
                       dim + 1, Times(prev + len, g.shape[dim + 1]))
  {
    var cur' := cur[dim := (Lo(g, size, dim, len), Hi(g, size, dim, len))];
    var R := Rest(g, dim + 1);
    var next := dim + 1;
    ChildFits(g, dim, prev, len);
    forall c | Times(prev + len, R) <= c < Times(prev + len + 1, R)
      ensures CurFits(g, size, cur', next, c)
    {
      NextCurFits(g, size, cur, dim, prev, len, c);
    }
  }

  /** A cell whose axes are all written holds its coordinates. */
  lemma CellDone(g: Grid, l: Slab, size: seq<real>, vars: seq<real>, arr: seq<real>, r: seq<real>,
                 c: nat, cur: seq<(real, real)>)
    requires Matches(g, l) && |size| == l.dims
    requires AxesDone(l, vars, arr, r, c, cur, l.dims)
    requires CurFits(g, size, cur, l.dims, c)
    ensures CellsWritten(g, l, size, vars, r, c, c + 1) && CellsKept(l, arr, r, c, c + 1)
  {
    forall j | 0 <= j < 2 * l.dims
      ensures r[Pos(l, c, j)] == Coord(g, size, j, c)
    {
      assert Reached(l, j, l.dims);
    }
  }

  /** What one level needs: the slab belongs to the grid and fits the array, the sizes
      match, the subtree of (dim, prev) lies in the grid and `cur` fits all its cells. */
  predicate Ready(g: Grid, l: Slab, size: seq<real>, vars: seq<real>, length: nat,
                  dim: nat, prev: nat, cur: seq<(real, real)>)
  {
    Matches(g, l) && Inside(l, length) && |size| == l.dims && |vars| == 2 * l.dims && |cur| == l.dims
    && dim < l.dims && InGrid(g, dim, prev) && prev % g.shape[dim] == 0 && CurFitsAll(g, size, cur, dim, prev)
  }

  /** Iteration len of a level that is not the last hands its child a ready subtree
      covering the iteration's cells. */
  lemma ChildReady(g: Grid, l: Slab, size: seq<real>, vars: seq<real>, length: nat,
                   dim: nat, prev: nat, cur: seq<(real, real)>, len: nat)
    requires Ready(g, l, size, vars, length, dim, prev, cur) && dim + 1 < l.dims && len < g.shape[dim]
    ensures Ready(g, l, size, vars, length, dim + 1, Times(prev + len, g.shape[dim + 1]),
                  cur[dim := (Lo(g, size, dim, len), Hi(g, size, dim, len))])
    ensures Times(Times(prev + len, g.shape[dim + 1]), Rest(g, dim + 2)) == Times(prev + len, Rest(g, dim + 1))
    ensures Times(Times(prev + len, g.shape[dim + 1]) + g.shape[dim + 1], Rest(g, dim + 2))
            == Times(prev + len + 1, Rest(g, dim + 1))
  {
    ChildFits(g, dim, prev, len);
    MultipleMod(prev + len, g.shape[dim + 1]);
    ChildCurFits(g, size, cur, dim, prev, len);
  }

  /** Iteration len of the last level is cell prev + len, and `cur` with the iteration's
      pair fits it. */
  lemma LeafReady(g: Grid, l: Slab, size: seq<real>, vars: seq<real>, length: nat,
                  dim: nat, prev: nat, cur: seq<(real, real)>, len: nat)
    requires Ready(g, l, size, vars, length, dim, prev, cur) && dim + 1 == l.dims && len < g.shape[dim]
    ensures prev + len < l.co
    ensures CurFits(g, size, cur[dim := (Lo(g, size, dim, len), Hi(g, size, dim, len))], l.dims, prev + len)
    ensures Times(prev + len, Rest(g, dim + 1)) == prev + len
    ensures Times(prev + len + 1, Rest(g, dim + 1)) == prev + len + 1
  {
    LeafFits(g, dim, prev, len);
    NextCurFits(g, size, cur, dim, prev, len, prev + len);
  }

  /** The recursive overload (lines 11-44) at dimension `dim`: it writes exactly the cells
      of its subtree, prev*R .. (prev + shape[dim])*R - 1. */
  method CalDefaultBoxDim(g: Grid, size: seq<real>, vars: seq<real>, l: Slab, a: array<real>,
                          dim: nat, prev: nat, cur: seq<(real, real)>)
    requires Ready(g, l, size, vars, a.Length, dim, prev, cur)
    modifies a
    ensures CellsWritten(g, l, size, vars, a[..], Times(prev, Rest(g, dim + 1)), Times(prev + g.shape[dim], Rest(g, dim + 1)))
    ensures CellsKept(l, old(a[..]), a[..], Times(prev, Rest(g, dim + 1)), Times(prev + g.shape[dim], Rest(g, dim + 1)))
    decreases l.dims - dim, 1
  {
    var curLength := g.shape[dim];
    ghost var R := Rest(g, dim + 1);
    TimesMono(prev, prev + curLength, R);
    var len := 0;
    while len < curLength
      invariant 0 <= len <= curLength
      invariant CellsWritten(g, l, size, vars, a[..], Times(prev, R), Times(prev + len, R))
      invariant CellsKept(l, old(a[..]), a[..], Times(prev, R), Times(prev + len, R))
    {
      ghost var before := a[..];
      TimesMono(prev, prev + len, R);
      CalDefaultBoxStep(g, size, vars, l, a, dim, prev, cur, len);
      Combine(g, l, size, vars, old(a[..]), before, a[..], Times(prev, R), Times(prev + len, R), Times(prev + len + 1, R));
      len := len + 1;
    }
  }

  /** Iteration len of the loop of lines 18-42: set this dimension's (min, max) in `cur`
      (lines 19-22), then recurse into the next dimension (lines 23-29) or, at the last,
      write the cell (lines 30-41). It writes the cells (prev+len)*R .. (prev+len+1)*R - 1. */
  method CalDefaultBoxStep(g: Grid, size: seq<real>, vars: seq<real>, l: Slab, a: array<real>,
                           dim: nat, prev: nat, cur: seq<(real, real)>, len: nat)
    requires Ready(g, l, size, vars, a.Length, dim, prev, cur) && len < g.shape[dim]
    modifies a
    ensures Times(prev + len, Rest(g, dim + 1)) <= Times(prev + len + 1, Rest(g, dim + 1))
    ensures CellsWritten(g, l, size, vars, a[..], Times(prev + len, Rest(g, dim + 1)), Times(prev + len + 1, Rest(g, dim + 1)))
    ensures CellsKept(l, old(a[..]), a[..], Times(prev + len, Rest(g, dim + 1)), Times(prev + len + 1, Rest(g, dim + 1)))
    decreases l.dims - dim, 0
  {
    var curLength := g.shape[dim];
    var step := g.range[dim] as real / curLength as real;
    var curIdx := prev + len;
    var center := step * (len as real + 0.5);
    var first := (center - size[dim] / 2.0) / g.range[dim] as real;
    var second := (center + size[dim] / 2.0) / g.range[dim] as real;
    var cur' := cur[dim := (first, second)];
    assert center == Center(g, dim, len);
    assert cur' == cur[dim := (Lo(g, size, dim, len), Hi(g, size, dim, len))];
    var nextDim := dim + 1;
    if nextDim < |g.range| {
      var nextLength := g.shape[nextDim];
      var nextIdx := curIdx * nextLength;
      TimesIsMul(curIdx, nextLength);
      ChildReady(g, l, size, vars, a.Length, dim, prev, cur, len);
      CalDefaultBoxDim(g, size, vars, l, a, nextDim, nextIdx, cur');
    } else {
      LeafReady(g, l, size, vars, a.Length, dim, prev, cur, len);
      WriteCell(l, vars, a, curIdx, cur');
      CellDone(g, l, size, vars, old(a[..]), a[..], curIdx, cur');
    }
  }

  // ------------------------------------------------------------------ all shapes (lines 46-64)

  /** Size of one plane: K slabs of 2*D*co positions. */
  function PlaneSize(g: Grid, shapes: nat): nat
    requires GridOk(g)
  {
    Times(shapes, Times(2 * |g.shape|, Cells(g)))
  }

  /** The slab of box shape s among K. */
  function SlabOf(g: Grid, shapes: nat, s: nat): Slab
    requires GridOk(g)
  {
    Slab(|g.shape|, Cells(g), Times(s, Times(2 * |g.shape|, Cells(g))), PlaneSize(g, shapes))
  }

  lemma SlabInside(g: Grid, shapes: nat, s: nat)
    requires GridOk(g) && s < shapes
    ensures Matches(g, SlabOf(g, shapes, s)) && Inside(SlabOf(g, shapes, s), 2 * PlaneSize(g, shapes))
  {
    TimesMono(s + 1, shapes, Times(2 * |g.shape|, Cells(g)));
  }

  predicate SizesOk(g: Grid, sizes: seq<seq<real>>)
  {
    forall s :: 0 <= s < |sizes| ==> |sizes[s]| == |g.shape|
  }

  /** The first k shapes' slabs are written in both planes. */
  predicate SlabsDone(g: Grid, sizes: seq<seq<real>>, vars: seq<real>, r: seq<real>, k: nat)
    requires GridOk(g) && k <= |sizes|
  {
    forall s :: 0 <= s < k ==> CellsWritten(g, SlabOf(g, |sizes|, s), sizes[s], vars, r, 0, Cells(g))
  }

  /** Positions from .. plane-1 of both planes are as in arr. */
  predicate TailSame(arr: seq<real>, r: seq<real>, from: nat, plane: nat)
  {
    |r| == |arr| && 2 * plane <= |arr|
    && (forall x :: from <= x < plane ==> r[x] == arr[x])
    && (forall x :: plane + from <= x < 2 * plane ==> r[x] == arr[x])
  }

  /** Writing slab s keeps the earlier slabs and the later positions. */
  lemma SlabStep(g: Grid, sizes: seq<seq<real>>, vars: seq<real>, init: seq<real>, before: seq<real>,
                 after: seq<real>, s: nat)
    requires GridOk(g) && s < |sizes|
    requires SlabsDone(g, sizes, vars, before, s)
    requires TailSame(init, before, SlabOf(g, |sizes|, s).start, PlaneSize(g, |sizes|))
    requires CellsWritten(g, SlabOf(g, |sizes|, s), sizes[s], vars, after, 0, Cells(g))
    requires CellsKept(SlabOf(g, |sizes|, s), before, after, 0, Cells(g))
    ensures SlabsDone(g, sizes, vars, after, s + 1)
    ensures TailSame(init, after, SlabOf(g, |sizes|, s + 1).start, PlaneSize(g, |sizes|))
  {
    forall s' | 0 <= s' < s
      ensures CellsWritten(g, SlabOf(g, |sizes|, s'), sizes[s'], vars, after, 0, Cells(g))
    {
      EarlierSlabKept(g, sizes, vars, before, after, s, s');
    }
    forall x | 0 <= x < |before| && !InSlab(SlabOf(g, |sizes|, s), x)
      ensures after[x] == before[x]
    {
    }
  }

  /** Slab s' < s lies before slab s in both planes, so writing slab s keeps it. */
  lemma EarlierSlabKept(g: Grid, sizes: seq<seq<real>>, vars: seq<real>, before: seq<real>,
                        after: seq<real>, s: nat, s': nat)
    requires GridOk(g) && s' < s < |sizes|
    requires CellsWritten(g, SlabOf(g, |sizes|, s'), sizes[s'], vars, before, 0, Cells(g))
    requires CellsKept(SlabOf(g, |sizes|, s), before, after, 0, Cells(g))
    ensures CellsWritten(g, SlabOf(g, |sizes|, s'), sizes[s'], vars, after, 0, Cells(g))
  {
    var l := SlabOf(g, |sizes|, s);
    var l' := SlabOf(g, |sizes|, s');
    TimesMono(s' + 1, s, Times(2 * |g.shape|, Cells(g)));
    forall c, j | 0 <= c < Cells(g) && 0 <= j < 2 * |g.shape|
      ensures after[Pos(l', c, j)] == before[Pos(l', c, j)]
      ensures after[l.plane + Pos(l', c, j)] == before[l.plane + Pos(l', c, j)]
    {
      var p := Pos(l', c, j);
      assert !InSlab(l, p) && !InSlab(l, l.plane + p);
    }
  }

  /** Where a position of a plane lies: box shape s, coordinate j, cell c. */
  datatype Place = Place(s: nat, j: nat, c: nat)

  /** The place of position y of a plane, by division: y = s*2*D*co + j*co + c. */
  function Locate(g: Grid, shapes: nat, y: nat): (p: Place)
    requires GridOk(g) && y < PlaneSize(g, shapes)
    ensures p.s < shapes && p.j < 2 * |g.shape| && p.c < Cells(g)
    ensures y == SlabOf(g, shapes, p.s).start + p.c + Times(p.j, Cells(g))
  {
    var co := Cells(g);
    var width := Times(2 * |g.shape|, co);
    TimesDivMod(y, shapes, width);
    var rest := y % width;
    TimesDivMod(rest, 2 * |g.shape|, co);
    Place(y / width, rest / co, rest % co)
  }

  /** The blob the layer is meant to produce, in closed form: the position of plane 0
      that Locate places at (s, j, c) holds coordinate j of cell c for box shape s, and
      the same position of plane 1 holds variance j. */
  function Blob(g: Grid, sizes: seq<seq<real>>, vars: seq<real>): (b: seq<real>)
    requires GridOk(g) && SizesOk(g, sizes) && |vars| == 2 * |g.shape|
    ensures |b| == 2 * PlaneSize(g, |sizes|)
  {
    seq(2 * PlaneSize(g, |sizes|), x requires 0 <= x < 2 * PlaneSize(g, |sizes|) => BlobAt(g, sizes, vars, x))
  }

  function BlobAt(g: Grid, sizes: seq<seq<real>>, vars: seq<real>, x: nat): real
    requires GridOk(g) && SizesOk(g, sizes) && |vars| == 2 * |g.shape|
    requires x < 2 * PlaneSize(g, |sizes|)
  {
    var plane := PlaneSize(g, |sizes|);
    var p := Locate(g, |sizes|, if x < plane then x else x - plane);
    if x < plane then Coord(g, sizes[p.s], p.j, p.c) else vars[p.j]
  }

  /** Once every slab is written, the blob is the closed form, whatever it held before. */
  lemma SlabsBlob(g: Grid, sizes: seq<seq<real>>, vars: seq<real>, r: seq<real>)
    requires GridOk(g) && SizesOk(g, sizes) && |vars| == 2 * |g.shape|
    requires |r| == 2 * PlaneSize(g, |sizes|) && SlabsDone(g, sizes, vars, r, |sizes|)
    ensures r == Blob(g, sizes, vars)
  {
    var b := Blob(g, sizes, vars);
    var plane := PlaneSize(g, |sizes|);
    forall x | 0 <= x < |r|
      ensures r[x] == b[x]
    {
      var y := if x < plane then x else x - plane;
      var p := Locate(g, |sizes|, y);
      var l := SlabOf(g, |sizes|, p.s);
      assert y == Pos(l, p.c, p.j);
      assert CellsWritten(g, l, sizes[p.s], vars, r, 0, Cells(g));
      assert b[x] == BlobAt(g, sizes, vars, x);
    }
  }

  /** The (0, 0) pairs `cur_datas` starts with (line 50). */
  function InitialCur(g: Grid): (cur: seq<(real, real)>)
    ensures |cur| == |g.shape|
  {
    seq(|g.shape|, _ => (0.0, 0.0))
  }

  /** The top level of shape s is ready and covers all the cells. */
  lemma TopReady(g: Grid, sizes: seq<seq<real>>, vars: seq<real>, s: nat)
    requires GridOk(g) && SizesOk(g, sizes) && |vars| == 2 * |g.shape| && s < |sizes|
    ensures Ready(g, SlabOf(g, |sizes|, s), sizes[s], vars, 2 * PlaneSize(g, |sizes|), 0, 0, InitialCur(g))
    ensures Times(0, Rest(g, 1)) == 0 && Times(0 + g.shape[0], Rest(g, 1)) == Cells(g)
  {
    SlabInside(g, |sizes|, s);
  }

  /** The number of cells, the product of the grid extents (lines 52-55). */
  method ChannelOffset(shape: seq<int>) returns (co: int)
    ensures co == Prod(shape)
  {
    co := 1;
    var j := 0;
    while j < |shape|
      invariant 0 <= j <= |shape|
      invariant co == Prod(shape[..j])
    {
      ProdAppend(shape[..j], [shape[j]]);
      assert shape[..j + 1] == shape[..j] + [shape[j]];
      co := co * shape[j];
      j := j + 1;
    }
    assert shape[..|shape|] == shape;
  }

  /** Iteration i of the loop of lines 58-63: the recursion from the top level writes
      slab i of both planes and keeps the rest. */
  method CalDefaultBoxSlab(g: Grid, sizes: seq<seq<real>>, vars: seq<real>, a: array<real>, ghost init: seq<real>,
                           i: nat, boxOffset: nat, plane: nat)
    requires GridOk(g) && SizesOk(g, sizes) && |vars| == 2 * |g.shape| && i < |sizes|
    requires boxOffset == Times(2 * |g.shape|, Cells(g)) && plane == PlaneSize(g, |sizes|)
    requires SlabsDone(g, sizes, vars, a[..], i) && TailSame(init, a[..], SlabOf(g, |sizes|, i).start, plane)
    modifies a
    ensures SlabsDone(g, sizes, vars, a[..], i + 1)
    ensures TailSame(init, a[..], SlabOf(g, |sizes|, i + 1).start, plane)
  {
    var startIdx := i * boxOffset;
    TimesIsMul(i, boxOffset);
    var l := Slab(|g.shape|, Cells(g), startIdx, plane);
    TopReady(g, sizes, vars, i);
    CalDefaultBoxDim(g, sizes[i], vars, l, a, 0, 0, InitialCur(g));
    SlabStep(g, sizes, vars, init, old(a[..]), a[..], i);
  }

  /** The overload over all box shapes (lines 46-64). Mismatched range and grid
      dimensions are the CHECK of line 51. Line 56 reads the first shape's size to get
      the slab width 2*D*co; with no shapes the blob is empty. On success the whole blob
      is the closed form `Blob`, whatever it held before. */
  method CalDefaultBoxes(range: seq<int>, shape: seq<int>, sizes: seq<seq<real>>, vars: seq<real>, a: array<real>)
    returns (o: Outcome)
    requires |range| > 0 && Positive(range) && Positive(shape)
    requires forall s :: 0 <= s < |sizes| ==> |sizes[s]| == |range|
    requires |vars| == 2 * |range|
    requires a.Length == 2 * (|sizes| * (2 * |range| * Prod(shape)))
    modifies a
    ensures o.Pass? <==> |range| == |shape|
    ensures o.Pass? ==> a[..] == Blob(Grid(range, shape), sizes, vars)
    ensures !o.Pass? ==> a[..] == old(a[..])
  {
    if |range| != |shape| { return Stop("range and grid dimensions differ"); }
    var g := Grid(range, shape);
    var channelOffset := ChannelOffset(shape);
    RestProd(g, 0);
    assert shape[0..] == shape;
    TimesIsMul(2 * |range|, channelOffset);
    TimesIsMul(|sizes|, 2 * |range| * channelOffset);
    assert channelOffset == Cells(g) && a.Length == 2 * PlaneSize(g, |sizes|);
    if |sizes| == 0 {
      SlabsBlob(g, sizes, vars, a[..]);
      return Pass;
    }
    var boxOffset := 2 * |sizes[0]| * channelOffset;
    var plane := |sizes| * boxOffset;
    var i := 0;
    while i < |sizes|
      invariant 0 <= i <= |sizes|
      invariant SlabsDone(g, sizes, vars, a[..], i)
      invariant TailSame(old(a[..]), a[..], SlabOf(g, |sizes|, i).start, plane)
    {
      CalDefaultBoxSlab(g, sizes, vars, a, old(a[..]), i, boxOffset, plane);
      i := i + 1;
    }
    SlabsBlob(g, sizes, vars, a[..]);
    return Pass;
  }

  // ------------------------------------------------------------------ the order of the visits

  /** The cell indices the recursion reaches at its leaves (cur_idx of lines 18 and
      26), after the first n iterations at dimension `dim`. */
  function Visits(g: Grid, dim: nat, prev: nat, n: nat): seq<nat>
    requires GridOk(g) && dim < |g.shape| && n <= g.shape[dim]
    decreases |g.shape| - dim, n, 1
  {
    if n == 0 then [] else Visits(g, dim, prev, n - 1) + Subtree(g, dim, prev, n - 1)
  }

  /** The cells iteration len reaches: those of the child level (lines 23-29), or the
      cell itself at the last dimension (lines 30-41). */
  function Subtree(g: Grid, dim: nat, prev: nat, len: nat): seq<nat>
    requires GridOk(g) && dim < |g.shape| && len < g.shape[dim]
    decreases |g.shape| - dim, len + 1, 0
  {
    if dim + 1 < |g.shape| then Visits(g, dim + 1, Times(prev + len, g.shape[dim + 1]), g.shape[dim + 1])
    else [prev + len]
  }

  /** The integers lo, lo+1, ..., hi-1. */
  function Range(lo: nat, hi: nat): (r: seq<nat>)
    requires lo <= hi
    ensures |r| == hi - lo && forall i :: 0 <= i < |r| ==> r[i] == lo + i
  {
    seq(hi - lo, i requires 0 <= i < hi - lo => lo + i)
  }

  lemma RangeAppend(lo: nat, mid: nat, hi: nat)
    requires lo <= mid <= hi
    ensures Range(lo, mid) + Range(mid, hi) == Range(lo, hi)
  {
    var joined := Range(lo, mid) + Range(mid, hi);
    forall i | 0 <= i < hi - lo
      ensures joined[i] == lo + i
    {
      if i >= mid - lo {
        assert joined[i] == Range(mid, hi)[i - (mid - lo)];
      }
    }
  }

  /** The subtree of (dim, prev) reaches the consecutive cells of its range in order. */
  lemma {:induction false} VisitsRange(g: Grid, dim: nat, prev: nat, n: nat)
    requires GridOk(g) && dim < |g.shape| && n <= g.shape[dim]
    ensures Times(prev, Rest(g, dim + 1)) <= Times(prev + n, Rest(g, dim + 1))
    ensures Visits(g, dim, prev, n) == Range(Times(prev, Rest(g, dim + 1)), Times(prev + n, Rest(g, dim + 1)))
    decreases |g.shape| - dim, n, 1
  {
    var R := Rest(g, dim + 1);
    TimesMono(prev, prev + n, R);
    if n > 0 {
      var len := n - 1;
      VisitsRange(g, dim, prev, len);
      SubtreeRange(g, dim, prev, len);
      TimesMono(prev, prev + len, R);
      RangeAppend(Times(prev, R), Times(prev + len, R), Times(prev + n, R));
    }
  }

  /** Iteration len reaches the cells (prev+len)*R .. (prev+len+1)*R - 1 in order. */
  lemma {:induction false} SubtreeRange(g: Grid, dim: nat, prev: nat, len: nat)
    requires GridOk(g) && dim < |g.shape| && len < g.shape[dim]
    ensures Times(prev + len, Rest(g, dim + 1)) <= Times(prev + len + 1, Rest(g, dim + 1))
    ensures Subtree(g, dim, prev, len) == Range(Times(prev + len, Rest(g, dim + 1)), Times(prev + len + 1, Rest(g, dim + 1)))
    decreases |g.shape| - dim, len + 1, 0
  {
    var q := prev + len;
    if dim + 1 < |g.shape| {
      var m := g.shape[dim + 1];
      TimesAssoc(q, m, Rest(g, dim + 2));
      TimesAdd(Times(q, m), m, Rest(g, dim + 2));
      VisitsRange(g, dim + 1, Times(q, m), m);
    } else {
      TimesOne(q);
      TimesOne(q + 1);
      assert Range(q, q + 1) == [q];
    }
  }

  /** The recursion from the top visits every cell 0 .. co-1 exactly once, in order. */
  lemma EveryCellOnce(g: Grid)
    requires GridOk(g)
    ensures Visits(g, 0, 0, g.shape[0]) == Range(0, Cells(g))
  {
    VisitsRange(g, 0, 0, g.shape[0]);
    assert 0 + g.shape[0] == g.shape[0];
  }
}

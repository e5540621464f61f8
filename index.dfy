/** Row-major index arithmetic shared by the tensor layouts: a blob of shape
    [d0, d1, ..., dk] stores element (i0, ..., ik) at ((i0*d1 + i1)*d2 + ...)*dk + ik. */
module Index {

  /** Number of elements of a blob with the given dimensions (Blob::count). */
  function Prod(dims: seq<int>): int
  {
    if |dims| == 0 then 1 else dims[0] * Prod(dims[1..])
  }

  predicate NonNeg(dims: seq<int>)
  {
    forall i :: 0 <= i < |dims| ==> dims[i] >= 0
  }

  predicate Positive(dims: seq<int>)
  {
    forall i :: 0 <= i < |dims| ==> dims[i] > 0
  }

  lemma {:induction false} ProdNonNeg(dims: seq<int>)
    requires NonNeg(dims)
    ensures Prod(dims) >= 0
  {
    if |dims| > 0 {
      ProdNonNeg(dims[1..]);
      MulMono(0, dims[0], Prod(dims[1..]));
    }
  }

  lemma {:induction false} ProdPositive(dims: seq<int>)
    requires Positive(dims)
    ensures Prod(dims) > 0
  {
    if |dims| > 0 {
      ProdPositive(dims[1..]);
      MulMono(1, dims[0], Prod(dims[1..]));
    }
  }

  /** Splitting a shape splits its element count. */
  lemma {:induction false} ProdAppend(a: seq<int>, b: seq<int>)
    ensures Prod(a + b) == Prod(a) * Prod(b)
  {
    if |a| == 0 {
      assert a + b == b;
    } else {
      assert (a + b)[1..] == a[1..] + b;
      ProdAppend(a[1..], b);
    }
  }

  lemma MulAssoc(a: int, b: int, c: int)
    ensures a * (b * c) == a * b * c
  {
  }

  lemma MulMono(a: int, b: int, m: int)
    requires 0 <= m && a <= b
    ensures a * m <= b * m
  {
    assert (b - a) * m >= 0;
  }

  /** Appending one digit below a bound stays below the grown bound. */
  lemma {:induction false} FlatBound(q: int, r: int, qBound: int, m: int)
    requires 0 <= q < qBound && 0 <= r < m
    ensures 0 <= q * m + r < qBound * m
  {
    MulMono(0, q, m);
    MulMono(q + 1, qBound, m);
  }

  /** A row-major position determines its digits. */
  lemma {:induction false} FlatUnique(q: int, r: int, q': int, r': int, m: int)
    requires 0 <= r < m && 0 <= r' < m && 0 <= q && 0 <= q'
    requires q * m + r == q' * m + r'
    ensures q == q' && r == r'
  {
    if q < q' {
      MulMono(q + 1, q', m);
    } else if q' < q {
      MulMono(q' + 1, q, m);
    }
  }

  /** Every position below qBound*m has digits: the inverse of FlatBound. */
  lemma {:induction false} FlatSplit(x: int, qBound: int, m: int)
    requires 0 <= x < qBound * m && 0 < m
    ensures 0 <= x / m < qBound && x % m == x - (x / m) * m
    ensures x == (x / m) * m + x % m && 0 <= x % m < m
  {
    if x / m >= qBound {
      MulMono(qBound, x / m, m);
    }
  }

  /** q * m as q repeated additions of m. The layout proofs reason about positions
      through this function and the lemmas below, so that the solver never has to
      multiply two unknowns. */
  function Times(q: nat, m: nat): nat
  {
    if q == 0 then 0 else Times(q - 1, m) + m
  }

  lemma {:induction false} TimesIsMul(q: nat, m: nat)
    ensures Times(q, m) == q * m
  {
    if q > 0 {
      TimesIsMul(q - 1, m);
    }
  }

  lemma {:induction false} TimesAdd(a: nat, b: nat, m: nat)
    ensures Times(a + b, m) == Times(a, m) + Times(b, m)
  {
    if b > 0 {
      TimesAdd(a, b - 1, m);
    }
  }

  lemma TimesMono(a: nat, b: nat, m: nat)
    requires a <= b
    ensures Times(a, m) <= Times(b, m)
  {
    TimesAdd(a, b - a, m);
  }

  lemma {:induction false} TimesOne(q: nat)
    ensures Times(q, 1) == q
  {
    if q > 0 {
      TimesOne(q - 1);
    }
  }

  lemma {:induction false} TimesAssoc(q: nat, m: nat, n: nat)
    ensures Times(Times(q, m), n) == Times(q, Times(m, n))
  {
    if q > 0 {
      TimesAssoc(q - 1, m, n);
      TimesAdd(Times(q - 1, m), m, n);
    }
  }

  /** FlatBound in terms of Times. */
  lemma FlatTimesBound(q: nat, r: nat, qBound: nat, m: nat)
    requires q < qBound && r < m
    ensures Times(q, m) + r < Times(qBound, m)
  {
    TimesMono(q + 1, qBound, m);
  }

  /** FlatUnique in terms of Times. */
  lemma FlatTimesUnique(q: nat, r: nat, q': nat, r': nat, m: nat)
    requires r < m && r' < m && Times(q, m) + r == Times(q', m) + r'
    ensures q == q' && r == r'
  {
    TimesIsMul(q, m);
    TimesIsMul(q', m);
    FlatUnique(q, r, q', r', m);
  }
  /** A position in the q-th block of m has quotient q and the offset as remainder. */
  lemma DivOfTimes(c: nat, q: nat, m: nat)
    requires Times(q, m) <= c < Times(q, m) + m
    ensures c / m == q && c % m == c - Times(q, m)
  {
    TimesIsMul(q, m);
    FlatUnique(c / m, c % m, q, c - q * m, m);
  }

  /** A multiple of m plus a digit below m leaves that digit as the remainder. */
  lemma ModOfMultiple(prev: nat, len: nat, m: nat)
    requires len < m && prev % m == 0
    ensures (prev + len) % m == len
  {
    FlatUnique((prev + len) / m, (prev + len) % m, prev / m, len, m);
  }

  lemma MultipleMod(x: nat, m: nat)
    requires m > 0
    ensures Times(x, m) % m == 0
  {
    DivOfTimes(Times(x, m), x, m);
  }

  /** Every position below Times(qBound, m) splits into a block and an offset. */
  lemma TimesDivMod(y: nat, qBound: nat, m: nat)
    requires m > 0 && y < Times(qBound, m)
    ensures y / m < qBound && y % m < m && y == Times(y / m, m) + y % m
  {
    TimesIsMul(qBound, m);
    FlatSplit(y, qBound, m);
    TimesIsMul(y / m, m);
  }

  /** Exact division: q*m divided by m is q, with no remainder. */
  lemma MulDiv(q: nat, m: nat)
    requires m > 0
    ensures (q * m) / m == q && (q * m) % m == 0
  {
    TimesIsMul(q, m);
    DivOfTimes(q * m, q, m);
  }
}

/** Transaction batching shared by the two dataset tools: every put goes into the
    open transaction, the transaction is committed after every `b`-th put, and a
    final commit flushes a partial batch. A committed transaction starts empty. */
module Batching {

  import Index

  /** The batches committed inside the loop: consecutive runs of exactly b puts. */
  function FullChunks<T>(puts: seq<T>, b: nat): seq<seq<T>>
    requires b > 0
    decreases |puts|
  {
    if |puts| < b then [] else [puts[..b]] + FullChunks(puts[b..], b)
  }

  /** The puts still waiting in the open transaction. */
  function Pending<T>(puts: seq<T>, b: nat): seq<T>
    requires b > 0
  {
    puts[|puts| - |puts| % b..]
  }

  /** Every commit the tool makes, in order, including the final partial one. */
  function Chunked<T>(puts: seq<T>, b: nat): seq<seq<T>>
    requires b > 0
  {
    FullChunks(puts, b) + (if |puts| % b != 0 then [Pending(puts, b)] else [])
  }

  function Flatten<T>(chunks: seq<seq<T>>): seq<T>
  {
    if |chunks| == 0 then [] else chunks[0] + Flatten(chunks[1..])
  }

  lemma ModShift(a: nat, b: nat)
    requires 0 < b <= a
    ensures (a - b) % b == a % b
  {
    var q := (a - b) / b;
    var r := (a - b) % b;
    assert a - b == q * b + r;
    assert (q + 1) * b == q * b + b;
    Index.FlatUnique(q + 1, r, a / b, a % b, b);
  }

  /** Dropping a leading full batch leaves the same pending puts. */
  lemma PendingShift<T>(puts: seq<T>, b: nat)
    requires 0 < b <= |puts|
    ensures Pending(puts[b..], b) == Pending(puts, b)
  {
    ModShift(|puts|, b);
    var k := |puts| % b;
    assert puts[b..][|puts| - b - k..] == puts[|puts| - k..];
  }

  /** One more put: it joins the open transaction, which is committed when the put
      count reaches a multiple of b. */
  lemma {:induction false} ChunkStep<T>(puts: seq<T>, x: T, b: nat)
    requires b > 0
    ensures (|puts| + 1) % b == 0 ==>
      FullChunks(puts + [x], b) == FullChunks(puts, b) + [Pending(puts, b) + [x]]
    ensures (|puts| + 1) % b != 0 ==> FullChunks(puts + [x], b) == FullChunks(puts, b)
    ensures (|puts| + 1) % b != 0 ==> Pending(puts + [x], b) == Pending(puts, b) + [x]
    ensures (|puts| + 1) % b == 0 ==> Pending(puts + [x], b) == []
    decreases |puts|
  {
    var p := puts + [x];
    if |puts| >= b {
      assert p[..b] == puts[..b];
      assert p[b..] == puts[b..] + [x];
      ChunkStep(puts[b..], x, b);
      ModShift(|p|, b);
      PendingShift(puts, b);
      PendingShift(p, b);
    } else {
      assert |puts| % b == |puts|;
      assert Pending(puts, b) == puts;
      if |p| == b {
        assert p[..b] == p && p[b..] == [];
      } else {
        assert |p| % b == |p|;
      }
    }
  }

  lemma FlattenAppend<T>(a: seq<seq<T>>, c: seq<seq<T>>)
    ensures Flatten(a + c) == Flatten(a) + Flatten(c)
  {
    if |a| == 0 {
      assert a + c == c;
    } else {
      assert (a + c)[1..] == a[1..] + c;
      FlattenAppend(a[1..], c);
    }
  }

  lemma {:induction false} FullChunksCover<T>(puts: seq<T>, b: nat)
    requires b > 0
    ensures Flatten(FullChunks(puts, b)) + Pending(puts, b) == puts
    decreases |puts|
  {
    if |puts| < b {
      Index.ModOfMultiple(0, |puts|, b);
      assert Pending(puts, b) == puts;
    } else {
      var rest := puts[b..];
      FullChunksCover(rest, b);
      PendingShift(puts, b);
      var chunks := [puts[..b]] + FullChunks(rest, b);
      assert chunks[1..] == FullChunks(rest, b);
      assert puts == puts[..b] + rest;
    }
  }

  lemma {:induction false} FullChunksSize<T>(puts: seq<T>, b: nat)
    requires b > 0
    ensures forall i :: 0 <= i < |FullChunks(puts, b)| ==> |FullChunks(puts, b)[i]| == b
    decreases |puts|
  {
    if |puts| >= b {
      FullChunksSize(puts[b..], b);
    }
  }

  /** Each put lands in exactly one commit, in order; no commit is empty; every
      commit but the last holds exactly b puts and the last at most b. */
  lemma ChunkedCover<T>(puts: seq<T>, b: nat)
    requires b > 0
    ensures Flatten(Chunked(puts, b)) == puts
    ensures forall i :: 0 <= i < |Chunked(puts, b)| ==> 0 < |Chunked(puts, b)[i]| <= b
    ensures forall i :: 0 <= i < |Chunked(puts, b)| - 1 ==> |Chunked(puts, b)[i]| == b
  {
    FullChunksCover(puts, b);
    FullChunksSize(puts, b);
    var tail := if |puts| % b != 0 then [Pending(puts, b)] else [];
    FlattenAppend(FullChunks(puts, b), tail);
    if |puts| % b != 0 {
      assert Flatten(tail) == Pending(puts, b);
    } else {
      assert Pending(puts, b) == [];
    }
  }
}

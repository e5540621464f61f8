/** ExtractNegtiveBox (src/caffe/util/box.cpp:332-370): the predictions whose most
    confident class is not the background, ranked by that confidence.

    For each position i the original finds the class of strictly greatest confidence,
    starting from class 0 at confidence 0, keeps the position when that class is not the
    background, inserts it into a list of non-increasing confidence before the first
    entry it is at least as confident as, and finally `push_front`s every entry onto the
    caller's (fresh) list, which reverses the order. */
module Negatives {
  import opened Wrappers
  import opened BoxTypes

  /** An entry of the internal list: the prediction pointer (class, position) and the
      confidence it won with. */
  datatype Candidate = Candidate(cls: nat, pos: nat, conf: real)

  /** An entry of the result: the class and the prediction pointer. */
  datatype Negative = Negative(cls: nat, box: DRRef)

  predicate ConfsReadable(mem: Memory, preds: seq<seq<DRBox>>)
  {
    forall c, i :: 0 <= c < |preds| && 0 <= i < |preds[c]| ==> ValidRef(mem, preds[c][i].conf)
  }

  /** Every class list is as long as the background's; the CHECK inside the loop only
      runs when that length is positive (box.cpp:345). */
  predicate SameLengths(preds: seq<seq<DRBox>>, size: nat)
  {
    size == 0 || forall c :: 0 <= c < |preds| ==> |preds[c]| == size
  }

  /** The background indexes a class, the confidences are readable and the class
      lists agree in length: what the scan of box.cpp:339-363 reads. */
  predicate Scannable(mem: Memory, preds: seq<seq<DRBox>>, background: nat)
  {
    background < |preds| && ConfsReadable(mem, preds) && SameLengths(preds, |preds[background]|)
  }

  /** The scan over the first n classes at position i (box.cpp:341-352): the greatest
      confidence above 0 and the first class reaching it, class 0 when none does. */
  function ArgMax(mem: Memory, preds: seq<seq<DRBox>>, i: nat, n: nat): (real, nat)
    requires n <= |preds| && ConfsReadable(mem, preds)
    requires forall c :: 0 <= c < n ==> i < |preds[c]|
  {
    if n == 0 then (0.0, 0)
    else
      var prev := ArgMax(mem, preds, i, n - 1);
      var conf := Deref(mem, preds[n - 1][i].conf);
      if conf > prev.0 then (conf, n - 1) else prev
  }

  function ConfOf(mem: Memory, preds: seq<seq<DRBox>>, c: nat, i: nat): real
    requires c < |preds| && i < |preds[c]| && ConfsReadable(mem, preds)
  {
    Deref(mem, preds[c][i].conf)
  }

  /** ArgMax is the first strict maximum of the positive confidences. */
  lemma {:induction false} ArgMaxIsFirstMax(mem: Memory, preds: seq<seq<DRBox>>, i: nat, n: nat)
    requires n <= |preds| && ConfsReadable(mem, preds)
    requires forall c :: 0 <= c < n ==> i < |preds[c]|
    ensures var (best, cls) := ArgMax(mem, preds, i, n);
            best >= 0.0
            && (forall c :: 0 <= c < n ==> ConfOf(mem, preds, c, i) <= best)
            && (best > 0.0 ==> cls < n && ConfOf(mem, preds, cls, i) == best
                               && forall c :: 0 <= c < cls ==> ConfOf(mem, preds, c, i) < best)
            && (best == 0.0 ==> cls == 0)
  {
    if n > 0 {
      ArgMaxIsFirstMax(mem, preds, i, n - 1);
    }
  }

  predicate NonIncreasing(list: seq<Candidate>)
  {
    forall a, b :: 0 <= a < b < |list| ==> list[a].conf >= list[b].conf
  }

  /** The insertion of box.cpp:353-363: before the first entry of no greater
      confidence, at the end when there is none. */
  function Insert(list: seq<Candidate>, x: Candidate): seq<Candidate>
  {
    if |list| == 0 then [x]
    else if x.conf >= list[0].conf then [x] + list
    else [list[0]] + Insert(list[1..], x)
  }

  /** Insertion keeps the order and adds exactly the new entry. */
  lemma {:induction false} InsertSorted(list: seq<Candidate>, x: Candidate)
    requires NonIncreasing(list)
    ensures NonIncreasing(Insert(list, x))
    ensures multiset(Insert(list, x)) == multiset(list) + multiset{x}
  {
    if |list| == 0 {
      assert Insert(list, x) == [x];
    } else if x.conf >= list[0].conf {
      assert Insert(list, x) == [x] + list;
    } else {
      var tail := list[1..];
      assert NonIncreasing(tail);
      InsertSorted(tail, x);
      var r := Insert(tail, x);
      assert Insert(list, x) == [list[0]] + r;
      assert list == [list[0]] + tail;
      HeadAbove(list, x, r);
    }
  }

  /** Insertion adds exactly the new entry, whatever the order of the list. */
  lemma {:induction false} InsertMultiset(list: seq<Candidate>, x: Candidate)
    ensures multiset(Insert(list, x)) == multiset(list) + multiset{x}
  {
    if |list| > 0 && x.conf < list[0].conf {
      InsertMultiset(list[1..], x);
      assert list == [list[0]] + list[1..];
    }
  }

  /** When the new entry goes below the head, the head stays above everything after it. */
  lemma HeadAbove(list: seq<Candidate>, x: Candidate, r: seq<Candidate>)
    requires NonIncreasing(list) && |list| > 0 && x.conf < list[0].conf
    requires NonIncreasing(r) && multiset(r) == multiset(list[1..]) + multiset{x}
    ensures NonIncreasing([list[0]] + r)
    ensures multiset([list[0]] + r) == multiset(list) + multiset{x}
  {
    var tail := list[1..];
    assert list == [list[0]] + tail;
    forall b | 0 <= b < |r|
      ensures list[0].conf >= r[b].conf
    {
      assert r[b] in multiset(r);
      if r[b] != x {
        assert r[b] in multiset(tail);
        var k :| 0 <= k < |tail| && tail[k] == r[b];
        assert list[k + 1] == r[b];
      }
    }
    var out := [list[0]] + r;
    forall a, b | 0 <= a < b < |out|
      ensures out[a].conf >= out[b].conf
    {
      if a > 0 {
        assert out[a] == r[a - 1] && out[b] == r[b - 1];
      } else {
        assert out[b] == r[b - 1];
      }
    }
  }

  /** The insertion at the index the scan stops at. */
  lemma {:induction false} InsertAt(list: seq<Candidate>, x: Candidate, k: nat)
    requires k <= |list|
    requires forall a :: 0 <= a < k ==> x.conf < list[a].conf
    requires k < |list| ==> x.conf >= list[k].conf
    ensures Insert(list, x) == list[..k] + [x] + list[k..]
  {
    if k > 0 {
      InsertAt(list[1..], x, k - 1);
      assert list[1..][..k - 1] == list[1..k];
      assert list[1..][k - 1..] == list[k..];
    }
  }

  /** The internal list after the first m positions. */
  function Ranked(mem: Memory, preds: seq<seq<DRBox>>, background: nat, m: nat): seq<Candidate>
    requires Scannable(mem, preds, background) && m <= |preds[background]|
  {
    if m == 0 then []
    else
      var prev := Ranked(mem, preds, background, m - 1);
      var x := CandidateAt(mem, preds, m - 1);
      if x.cls != background then Insert(prev, x) else prev
  }

  /** The candidate position i yields: its winning class and confidence. */
  function CandidateAt(mem: Memory, preds: seq<seq<DRBox>>, i: nat): Candidate
    requires ConfsReadable(mem, preds)
    requires forall c :: 0 <= c < |preds| ==> i < |preds[c]|
  {
    var (best, cls) := ArgMax(mem, preds, i, |preds|);
    Candidate(cls, i, best)
  }

  /** The positions below m whose winning class is not the background, in position
      order: what the internal list holds, before ranking. */
  function Kept(mem: Memory, preds: seq<seq<DRBox>>, background: nat, m: nat): (kept: seq<Candidate>)
    requires Scannable(mem, preds, background) && m <= |preds[background]|
    ensures forall x :: x in kept ==> x.pos < m
  {
    if m == 0 then []
    else
      var x := CandidateAt(mem, preds, m - 1);
      Kept(mem, preds, background, m - 1) + (if x.cls != background then [x] else [])
  }

  /** A position is kept exactly when its winning class is not the background. */
  lemma {:induction false} KeptHolds(mem: Memory, preds: seq<seq<DRBox>>, background: nat, m: nat)
    requires Scannable(mem, preds, background) && m <= |preds[background]|
    ensures forall i :: 0 <= i < m ==>
              (CandidateAt(mem, preds, i) in Kept(mem, preds, background, m)
               <==> CandidateAt(mem, preds, i).cls != background)
  {
    if m > 0 {
      KeptHolds(mem, preds, background, m - 1);
      var prev := Kept(mem, preds, background, m - 1);
      var x := CandidateAt(mem, preds, m - 1);
      assert Kept(mem, preds, background, m) == prev + (if x.cls != background then [x] else []);
      forall i | 0 <= i < m - 1
        ensures CandidateAt(mem, preds, i) != x
      {
      }
    }
  }

  /** Every kept entry is the candidate of its own position, of a class other than the
      background. */
  lemma {:induction false} KeptAreCandidates(mem: Memory, preds: seq<seq<DRBox>>, background: nat, m: nat)
    requires Scannable(mem, preds, background) && m <= |preds[background]|
    ensures forall x :: x in Kept(mem, preds, background, m) ==>
              x == CandidateAt(mem, preds, x.pos) && x.cls != background
  {
    if m > 0 {
      KeptAreCandidates(mem, preds, background, m - 1);
    }
  }

  /** Kept entries are in position order, so no position is kept twice. */
  lemma {:induction false} KeptInOrder(mem: Memory, preds: seq<seq<DRBox>>, background: nat, m: nat)
    requires Scannable(mem, preds, background) && m <= |preds[background]|
    ensures forall a, b :: 0 <= a < b < |Kept(mem, preds, background, m)| ==>
              Kept(mem, preds, background, m)[a].pos < Kept(mem, preds, background, m)[b].pos
  {
    if m > 0 {
      KeptInOrder(mem, preds, background, m - 1);
      var prev := Kept(mem, preds, background, m - 1);
      var x := CandidateAt(mem, preds, m - 1);
      if x.cls != background {
        var kept := prev + [x];
        forall a, b | 0 <= a < b < |kept|
          ensures kept[a].pos < kept[b].pos
        {
          assert kept[a] == prev[a] && prev[a] in prev;
          if b < |prev| {
            assert kept[b] == prev[b];
          }
        }
      } else {
        assert prev + [] == prev;
      }
    }
  }

  /** The internal list is ordered by confidence and holds exactly the kept positions. */
  lemma RankedMeaning(mem: Memory, preds: seq<seq<DRBox>>, background: nat, m: nat)
    requires Scannable(mem, preds, background) && m <= |preds[background]|
    ensures NonIncreasing(Ranked(mem, preds, background, m))
    ensures multiset(Ranked(mem, preds, background, m)) == multiset(Kept(mem, preds, background, m))
  {
    RankedSorted(mem, preds, background, m);
    RankedPermutes(mem, preds, background, m);
  }

  lemma {:induction false} RankedSorted(mem: Memory, preds: seq<seq<DRBox>>, background: nat, m: nat)
    requires Scannable(mem, preds, background) && m <= |preds[background]|
    ensures NonIncreasing(Ranked(mem, preds, background, m))
  {
    if m > 0 {
      RankedSorted(mem, preds, background, m - 1);
      var prev := Ranked(mem, preds, background, m - 1);
      var x := CandidateAt(mem, preds, m - 1);
      if x.cls != background {
        InsertSorted(prev, x);
      }
    }
  }

  lemma {:induction false} RankedPermutes(mem: Memory, preds: seq<seq<DRBox>>, background: nat, m: nat)
    requires Scannable(mem, preds, background) && m <= |preds[background]|
    ensures multiset(Ranked(mem, preds, background, m)) == multiset(Kept(mem, preds, background, m))
  {
    if m > 0 {
      RankedPermutes(mem, preds, background, m - 1);
      var prev := Ranked(mem, preds, background, m - 1);
      var kept := Kept(mem, preds, background, m - 1);
      var x := CandidateAt(mem, preds, m - 1);
      InsertCounts(prev, kept, x, x.cls != background,
                   Ranked(mem, preds, background, m), Kept(mem, preds, background, m));
    }
  }

  /** One scan step adds the same entries to the internal list and to the kept ones. */
  lemma InsertCounts(prev: seq<Candidate>, kept: seq<Candidate>, x: Candidate, keep: bool,
                     ranked: seq<Candidate>, kept': seq<Candidate>)
    requires multiset(prev) == multiset(kept)
    requires ranked == if keep then Insert(prev, x) else prev
    requires kept' == kept + if keep then [x] else []
    ensures multiset(ranked) == multiset(kept')
  {
    if keep {
      InsertMultiset(prev, x);
      assert multiset(kept + [x]) == multiset(kept) + multiset{x};
    } else {
      assert kept + [] == kept;
    }
  }

  function Reverse<T>(s: seq<T>): (r: seq<T>)
    ensures |r| == |s|
    ensures forall k :: 0 <= k < |s| ==> r[k] == s[|s| - 1 - k]
  {
    if |s| == 0 then [] else Reverse(s[1..]) + [s[0]]
  }

  function AsNegative(x: Candidate): Negative
  {
    Negative(x.cls, DRRef(x.cls, x.pos))
  }

  /** The result: the internal list reversed, as class and pointer. */
  function Negatives(list: seq<Candidate>): (negs: seq<Negative>)
    ensures |negs| == |list|
  {
    seq(|list|, k requires 0 <= k < |list| => AsNegative(Reverse(list)[k]))
  }

  /** The call completes: there is a class, the background indexes one (`at`), and
      the class lists agree in length. */
  predicate NegativesOk(preds: seq<seq<DRBox>>, background: int)
  {
    |preds| > 0 && 0 <= background < |preds| && SameLengths(preds, |preds[background]|)
  }

  /** Inserting into the internal list (box.cpp:353-363). */
  method InsertCandidate(list: seq<Candidate>, x: Candidate) returns (list': seq<Candidate>)
    ensures list' == Insert(list, x)
  {
    var k := 0;
    while k < |list| && x.conf < list[k].conf
      invariant 0 <= k <= |list|
      invariant forall a :: 0 <= a < k ==> x.conf < list[a].conf
    {
      k := k + 1;
    }
    InsertAt(list, x, k);
    list' := list[..k] + [x] + list[k..];
  }

  /** The winning class of position i (box.cpp:341-352). */
  method WinningClass(mem: Memory, preds: seq<seq<DRBox>>, i: nat) returns (best: real, cls: nat)
    requires ConfsReadable(mem, preds)
    requires forall c :: 0 <= c < |preds| ==> i < |preds[c]|
    ensures (best, cls) == ArgMax(mem, preds, i, |preds|)
  {
    best, cls := 0.0, 0;
    var j := 0;
    while j < |preds|
      invariant 0 <= j <= |preds|
      invariant (best, cls) == ArgMax(mem, preds, i, j)
    {
      var conf := Deref(mem, preds[j][i].conf);
      if conf > best {
        best, cls := conf, j;
      }
      j := j + 1;
    }
  }

  /** The length CHECK of box.cpp:345 over every class. */
  method CheckLengths(preds: seq<seq<DRBox>>, size: nat) returns (ok: bool)
    ensures ok <==> forall c :: 0 <= c < |preds| ==> |preds[c]| == size
  {
    var c := 0;
    while c < |preds|
      invariant 0 <= c <= |preds|
      invariant forall c' :: 0 <= c' < c ==> |preds[c']| == size
    {
      if |preds[c]| != size { return false; }
      c := c + 1;
    }
    return true;
  }

  /** The `push_front` loop of box.cpp:367-369 onto the caller's empty list. */
  method PushFrontAll(list: seq<Candidate>) returns (negs: seq<Negative>)
    ensures negs == Negatives(list)
  {
    negs := [];
    var k := 0;
    while k < |list|
      invariant 0 <= k <= |list|
      invariant negs == Negatives(list[..k])
    {
      assert Reverse(list[..k + 1]) == [list[k]] + Reverse(list[..k]);
      negs := [AsNegative(list[k])] + negs;
      k := k + 1;
    }
    assert list[..|list|] == list;
  }

  /** ExtractNegtiveBox. An empty class list is the CHECK of box.cpp:338, a background
      label outside the classes the `at` of line 339, a class list of another length
      the CHECK of line 345 (made once before the loop: it fails on the first position
      or never). */
  method ExtractNegatives(mem: Memory, preds: seq<seq<DRBox>>, background: int)
    returns (r: Result<seq<Negative>>)
    requires ConfsReadable(mem, preds)
    ensures r.Ok? <==> NegativesOk(preds, background)
    ensures r.Ok? ==> r.value == Negatives(Ranked(mem, preds, background as nat, |preds[background]|))
  {
    if |preds| == 0 { return Fail("no classes"); }
    if background < 0 || background >= |preds| { return Fail("background label out of range"); }
    var size := |preds[background]|;
    if size > 0 {
      var ok := CheckLengths(preds, size);
      if !ok { return Fail("class lists differ in length"); }
    }
    var list: seq<Candidate> := [];
    var i := 0;
    while i < size
      invariant 0 <= i <= size
      invariant list == Ranked(mem, preds, background as nat, i)
    {
      var best, cls := WinningClass(mem, preds, i);
      if cls != background {
        list := InsertCandidate(list, Candidate(cls, i, best));
      }
      i := i + 1;
    }
    var negs := PushFrontAll(list);
    return Ok(negs);
  }

  /** The result runs from the least to the most confident entry and holds, as a
      class and pointer, exactly the positions whose winning class is not the background. */
  lemma NegativesMeaning(mem: Memory, preds: seq<seq<DRBox>>, background: nat)
    requires Scannable(mem, preds, background)
    ensures var rev := Reverse(Ranked(mem, preds, background, |preds[background]|));
            forall a, b :: 0 <= a < b < |rev| ==> rev[a].conf <= rev[b].conf
    ensures forall i :: 0 <= i < |preds[background]| ==>
              (AsNegative(CandidateAt(mem, preds, i)) in Negatives(Ranked(mem, preds, background, |preds[background]|))
               <==> CandidateAt(mem, preds, i).cls != background)
  {
    var size := |preds[background]|;
    RankedMeaning(mem, preds, background, size);
    forall i | 0 <= i < size
      ensures AsNegative(CandidateAt(mem, preds, i)) in Negatives(Ranked(mem, preds, background, size))
              <==> CandidateAt(mem, preds, i).cls != background
    {
      if CandidateAt(mem, preds, i).cls != background {
        KeptIsNegative(mem, preds, background, i);
      }
      if AsNegative(CandidateAt(mem, preds, i)) in Negatives(Ranked(mem, preds, background, size)) {
        NegativeIsKept(mem, preds, background, i);
      }
    }
  }

  /** A position whose winning class is not the background is in the result. */
  lemma KeptIsNegative(mem: Memory, preds: seq<seq<DRBox>>, background: nat, i: nat)
    requires Scannable(mem, preds, background)
    requires i < |preds[background]| && CandidateAt(mem, preds, i).cls != background
    ensures AsNegative(CandidateAt(mem, preds, i)) in Negatives(Ranked(mem, preds, background, |preds[background]|))
  {
    var size := |preds[background]|;
    var list := Ranked(mem, preds, background, size);
    RankedMeaning(mem, preds, background, size);
    KeptHolds(mem, preds, background, size);
    var x := CandidateAt(mem, preds, i);
    assert x in Kept(mem, preds, background, size);
    assert x in multiset(list);
    InNegatives(list, x);
  }

  /** A position in the result has a winning class other than the background. */
  lemma NegativeIsKept(mem: Memory, preds: seq<seq<DRBox>>, background: nat, i: nat)
    requires Scannable(mem, preds, background)
    requires i < |preds[background]|
    requires AsNegative(CandidateAt(mem, preds, i)) in Negatives(Ranked(mem, preds, background, |preds[background]|))
    ensures CandidateAt(mem, preds, i).cls != background
  {
    var size := |preds[background]|;
    var list := Ranked(mem, preds, background, size);
    RankedMeaning(mem, preds, background, size);
    KeptAreCandidates(mem, preds, background, size);
    var y := FromNegatives(list, AsNegative(CandidateAt(mem, preds, i)));
    assert y in Kept(mem, preds, background, size);
  }

  /** Every entry of the internal list appears in the result. */
  lemma InNegatives(list: seq<Candidate>, x: Candidate)
    requires x in multiset(list)
    ensures AsNegative(x) in Negatives(list)
  {
    var k :| 0 <= k < |list| && list[k] == x;
    assert Negatives(list)[|list| - 1 - k] == AsNegative(x);
  }

  /** Every entry of the result comes from an entry of the internal list. */
  lemma FromNegatives(list: seq<Candidate>, neg: Negative) returns (y: Candidate)
    requires neg in Negatives(list)
    ensures y in multiset(list) && AsNegative(y) == neg
  {
    var negs := Negatives(list);
    var k :| 0 <= k < |negs| && negs[k] == neg;
    y := Reverse(list)[k];
    assert y == list[|list| - 1 - k];
  }
}

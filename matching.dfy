/** MathBoxes (src/caffe/util/box.cpp:254-321): assigning ground truth to predictions
    from the overlap table, under the bipartite or the per-prediction policy.

    The match table `match_boxes[pred] = gt` is keyed by a prediction pointer, here
    (class, prediction index), and holds a ground-truth index, or None where the
    original stores a null pointer. Map iteration follows index order, as std::map over
    pointers into one vector does. */
module Matching {
  import opened Wrappers
  import opened Overlap

  type Match = map<(nat, nat), Option<nat>>

  datatype MatchType = Bipartite | PerPrediction | OtherType(code: int)

  // ------------------------------------------------------------------ bipartite

  /** Ground truth i has a row of overlaps in class c (an entry of overlaps[0][c]). */
  predicate HasRow(t: map<Key, real>, c: nat, i: nat, predCount: nat)
  {
    exists j :: 0 <= j < predCount && (c, i, j) in t
  }

  /** The keys of overlaps[0][c] in order: the list built at box.cpp:262-265. */
  function RowKeys(t: map<Key, real>, c: nat, n: nat, predCount: nat): (keys: seq<nat>)
    ensures forall i: nat :: i in keys <==> i < n && HasRow(t, c, i, predCount)
    ensures forall a, b :: 0 <= a < b < |keys| ==> keys[a] < keys[b]
  {
    if n == 0 then []
    else
      var prev := RowKeys(t, c, n - 1, predCount);
      assert forall a :: 0 <= a < |prev| ==> prev[a] < n - 1 by {
        assert forall a :: 0 <= a < |prev| ==> prev[a] in prev;
      }
      prev + (if HasRow(t, c, n - 1, predCount) then [n - 1] else [])
  }

  /** (position p of the remaining list, prediction j) can still be chosen. */
  predicate IsCandidate(t: map<Key, real>, c: nat, list: seq<nat>, m: Match, p: int, j: nat)
  {
    0 <= p < |list| && (c, list[p], j) in t && (c, j) !in m
  }

  /** (p, j) comes before (p0, j0) in the scan order of box.cpp:270-277. */
  predicate ScanBefore(p: int, j: nat, p0: int, j0: nat)
  {
    p < p0 || (p == p0 && j < j0)
  }

  /** The state of one round's search: whether a pair was chosen, its list position and
      prediction, and `max_overlap`. */
  datatype Choice = Choice(found: bool, gp: nat, pj: nat, best: real)

  /** The test of box.cpp:278-287 for (position p, prediction j): an unmatched pair whose
      overlap reaches the maximum so far (`>=`) becomes the choice. */
  function Consider(t: map<Key, real>, c: nat, list: seq<nat>, m: Match, acc: Choice, p: nat, j: nat): Choice
  {
    if IsCandidate(t, c, list, m, p, j) && t[(c, list[p], j)] >= acc.best then Choice(true, p, j, t[(c, list[p], j)])
    else acc
  }

  /** The scan of row p over predictions 0 .. n-1, from `acc`. */
  function RowScan(t: map<Key, real>, c: nat, list: seq<nat>, m: Match, acc: Choice, p: nat, n: nat): Choice
  {
    if n == 0 then acc else Consider(t, c, list, m, RowScan(t, c, list, m, acc, p, n - 1), p, n - 1)
  }

  /** The scan of rows 0 .. q-1 of one round, from no choice and a maximum of 0. */
  function Scan(t: map<Key, real>, c: nat, list: seq<nat>, m: Match, predCount: nat, q: nat): Choice
  {
    if q == 0 then Choice(false, 0, 0, 0.0)
    else RowScan(t, c, list, m, Scan(t, c, list, m, predCount, q - 1), q - 1, predCount)
  }

  /** `acc` is what scanning every pair before (p, j) leaves: the greatest candidate,
      the last in scan order among equals, or no choice when every candidate so far is
      negative. */
  ghost predicate ScanInv(t: map<Key, real>, c: nat, list: seq<nat>, m: Match, acc: Choice, p: nat, j: nat)
  {
    (acc.found ==> IsCandidate(t, c, list, m, acc.gp, acc.pj) && acc.best == t[(c, list[acc.gp], acc.pj)]
                   && ScanBefore(acc.gp, acc.pj, p, j))
    && (!acc.found ==> acc.best == 0.0)
    && (forall p', j' :: IsCandidate(t, c, list, m, p', j') && ScanBefore(p', j', p, j) ==>
          (acc.found ==> t[(c, list[p'], j')] <= acc.best) && (!acc.found ==> t[(c, list[p'], j')] < 0.0))
    && (acc.found ==> forall p', j' ::
          IsCandidate(t, c, list, m, p', j') && ScanBefore(p', j', p, j) && ScanBefore(acc.gp, acc.pj, p', j') ==>
            t[(c, list[p'], j')] < acc.best)
  }

  lemma ConsiderStep(t: map<Key, real>, c: nat, list: seq<nat>, m: Match, acc: Choice, p: nat, j: nat)
    requires ScanInv(t, c, list, m, acc, p, j)
    ensures ScanInv(t, c, list, m, Consider(t, c, list, m, acc, p, j), p, j + 1)
  {
  }

  lemma {:induction false} RowScanInv(t: map<Key, real>, c: nat, list: seq<nat>, m: Match, acc: Choice, p: nat, n: nat)
    requires ScanInv(t, c, list, m, acc, p, 0)
    ensures ScanInv(t, c, list, m, RowScan(t, c, list, m, acc, p, n), p, n)
  {
    if n > 0 {
      RowScanInv(t, c, list, m, acc, p, n - 1);
      ConsiderStep(t, c, list, m, RowScan(t, c, list, m, acc, p, n - 1), p, n - 1);
    }
  }

  lemma {:induction false} ScanUpTo(t: map<Key, real>, c: nat, list: seq<nat>, m: Match, predCount: nat, q: nat)
    requires forall i, j :: (c, i, j) in t ==> j < predCount
    ensures ScanInv(t, c, list, m, Scan(t, c, list, m, predCount, q), q, 0)
  {
    if q > 0 {
      var acc := Scan(t, c, list, m, predCount, q - 1);
      ScanUpTo(t, c, list, m, predCount, q - 1);
      RowScanInv(t, c, list, m, acc, q - 1, predCount);
    }
  }

  /** One round's search (box.cpp:267-289) chooses the unmatched pair of greatest
      overlap, the last one in scan order among equals (`>=`), starting from 0. */
  lemma ScanIsBest(t: map<Key, real>, c: nat, list: seq<nat>, m: Match, predCount: nat)
    requires forall i, j :: (c, i, j) in t ==> j < predCount
    ensures var b := Scan(t, c, list, m, predCount, |list|);
            b.found ==> IsCandidate(t, c, list, m, b.gp, b.pj) && b.best == t[(c, list[b.gp], b.pj)]
    ensures var b := Scan(t, c, list, m, predCount, |list|);
            b.found ==> forall p, j :: IsCandidate(t, c, list, m, p, j) ==> t[(c, list[p], j)] <= b.best
    ensures var b := Scan(t, c, list, m, predCount, |list|);
            b.found ==> forall p, j :: IsCandidate(t, c, list, m, p, j) && ScanBefore(b.gp, b.pj, p, j) ==>
                          t[(c, list[p], j)] < b.best
    ensures var b := Scan(t, c, list, m, predCount, |list|);
            !b.found ==> b.best == 0.0 && forall p, j :: IsCandidate(t, c, list, m, p, j) ==> t[(c, list[p], j)] < 0.0
  {
    ScanUpTo(t, c, list, m, predCount, |list|);
  }

  /** A chosen pair is always a candidate with the chosen overlap, whatever the
      predictions' range. */
  lemma {:induction false} ScanFound(t: map<Key, real>, c: nat, list: seq<nat>, m: Match, predCount: nat, q: nat)
    ensures var b := Scan(t, c, list, m, predCount, q);
            b.found ==> IsCandidate(t, c, list, m, b.gp, b.pj) && b.best == t[(c, list[b.gp], b.pj)]
  {
    if q > 0 {
      ScanFound(t, c, list, m, predCount, q - 1);
      RowFound(t, c, list, m, Scan(t, c, list, m, predCount, q - 1), q - 1, predCount);
    }
  }

  lemma {:induction false} RowFound(t: map<Key, real>, c: nat, list: seq<nat>, m: Match, acc: Choice, p: nat, n: nat)
    requires acc.found ==> IsCandidate(t, c, list, m, acc.gp, acc.pj) && acc.best == t[(c, list[acc.gp], acc.pj)]
    ensures var b := RowScan(t, c, list, m, acc, p, n);
            b.found ==> IsCandidate(t, c, list, m, b.gp, b.pj) && b.best == t[(c, list[b.gp], b.pj)]
  {
    if n > 0 {
      RowFound(t, c, list, m, acc, p, n - 1);
    }
  }

  /** The loops of box.cpp:267-289 compute one round's Scan. The original repeats the
      whole scan once per remaining ground truth (line 270) without resetting the
      maximum, which selects the same pair as one scan. */
  method BestPair(t: map<Key, real>, c: nat, list: seq<nat>, m: Match, predCount: nat)
    returns (found: bool, gp: nat, pj: nat, best: real)
    requires forall i, j :: (c, i, j) in t ==> j < predCount
    ensures Choice(found, gp, pj, best) == Scan(t, c, list, m, predCount, |list|)
    ensures found ==> IsCandidate(t, c, list, m, gp, pj) && best == t[(c, list[gp], pj)]
    ensures found ==> forall p, j :: IsCandidate(t, c, list, m, p, j) ==> t[(c, list[p], j)] <= best
    ensures !found ==> best == 0.0 && forall p, j :: IsCandidate(t, c, list, m, p, j) ==> t[(c, list[p], j)] < 0.0
  {
    found, gp, pj, best := false, 0, 0, 0.0;
    var p := 0;
    while p < |list|
      invariant 0 <= p <= |list|
      invariant Choice(found, gp, pj, best) == Scan(t, c, list, m, predCount, p)
    {
      var j := 0;
      while j < predCount
        invariant 0 <= j <= predCount
        invariant Choice(found, gp, pj, best) == RowScan(t, c, list, m, Scan(t, c, list, m, predCount, p), p, j)
      {
        if (c, list[p], j) in t && (c, j) !in m {
          var value := t[(c, list[p], j)];
          if value >= best {
            found, gp, pj, best := true, p, j, value;
          }
        }
        j := j + 1;
      }
      p := p + 1;
    }
    ScanIsBest(t, c, list, m, predCount);
  }

  /** No two distinct entries. */
  predicate Distinct(s: seq<nat>)
  {
    forall a, b :: 0 <= a < b < |s| ==> s[a] != s[b]
  }

  lemma RemoveAt(s: seq<nat>, k: nat)
    requires k < |s| && Distinct(s)
    ensures Distinct(s[..k] + s[k + 1..])
    ensures forall x :: x in s[..k] + s[k + 1..] <==> x in s && x != s[k]
  {
    var r := s[..k] + s[k + 1..];
    assert forall a :: 0 <= a < |r| ==> r[a] == (if a < k then s[a] else s[a + 1]);
    forall x | x in s && x != s[k]
      ensures x in r
    {
      var a :| 0 <= a < |s| && s[a] == x;
      if a < k { assert r[a] == x; } else { assert r[a - 1] == x; }
    }
  }

  /** What matching class c adds to the table: every ground truth with a row gets
      exactly one new prediction of class c, at an overlap no lower than the threshold,
      and nothing already matched changes. */
  ghost predicate ClassMatched(t: map<Key, real>, c: nat, gtCount: nat, predCount: nat, threshold: real,
                               m0: Match, m: Match)
  {
    (forall k :: k in m0 ==> k in m && m[k] == m0[k])
    && (forall k :: k in m && k !in m0 ==>
          k.0 == c && m[k].Some? && (c, m[k].value, k.1) in t && t[(c, m[k].value, k.1)] >= threshold)
    && (forall i: nat :: i < gtCount && HasRow(t, c, i, predCount) ==>
          exists j :: (c, j) in m && (c, j) !in m0 && m[(c, j)] == Some(i))
    && (forall k, k' :: k in m && k' in m && k !in m0 && k' !in m0 && m[k] == m[k'] ==> k == k')
  }

  /** The rounds of one class (box.cpp:266-292) from the remaining ground truths `list`
      and the table `m`: each round takes the pair Scan chooses, fails when its overlap
      is below the threshold (the CHECK_GE of line 281) or when no unmatched pair is left,
      and otherwise matches the pair and erases the ground truth. Line 284 records the
      outer iterator `gt_iter`, so the last remaining ground truth is always the one
      matched and erased; the ground truth of the best pair (`gt_box`) is evidently meant
      and is modelled. A round with no unmatched pair is undefined behaviour in the
      original (the iterator is never set) and a failure here. */
  function ClassRounds(t: map<Key, real>, c: nat, predCount: nat, threshold: real, list: seq<nat>, m: Match)
    : Option<Match>
    decreases |list|
  {
    if |list| == 0 then Some(m)
    else
      var b := Scan(t, c, list, m, predCount, |list|);
      ScanFound(t, c, list, m, predCount, |list|);
      if b.best < threshold || !b.found then None
      else ClassRounds(t, c, predCount, threshold, list[..b.gp] + list[b.gp + 1..], m[(c, b.pj) := Some(list[b.gp])])
  }

  /** The rounds of class c from the table `m0`, starting with every ground truth that has
      a row (box.cpp:261-265). */
  function ClassMatches(t: map<Key, real>, c: nat, gtCount: nat, predCount: nat, threshold: real, m0: Match)
    : Option<Match>
  {
    ClassRounds(t, c, predCount, threshold, RowKeys(t, c, gtCount, predCount), m0)
  }

  /** The loop of box.cpp:266-292 computes ClassMatches. */
  method MatchClass(t: map<Key, real>, c: nat, gtCount: nat, predCount: nat, threshold: real, m0: Match)
    returns (r: Result<Match>)
    requires forall i, j :: (c, i, j) in t ==> i < gtCount && j < predCount
    ensures r.Ok? <==> ClassMatches(t, c, gtCount, predCount, threshold, m0).Some?
    ensures r.Ok? ==> r.value == ClassMatches(t, c, gtCount, predCount, threshold, m0).value
    ensures r.Ok? ==> ClassMatched(t, c, gtCount, predCount, threshold, m0, r.value)
  {
    var list := RowKeys(t, c, gtCount, predCount);
    var m := m0;
    while |list| > 0
      invariant ClassRounds(t, c, predCount, threshold, list, m) == ClassMatches(t, c, gtCount, predCount, threshold, m0)
      decreases |list|
    {
      var found, gp, pj, best := BestPair(t, c, list, m, predCount);
      if best < threshold { return Fail("best overlap below threshold"); }
      if !found { return Fail("no unmatched prediction left"); }
      m := m[(c, pj) := Some(list[gp])];
      list := list[..gp] + list[gp + 1..];
    }
    ClassMatchesMatched(t, c, gtCount, predCount, threshold, m0);
    return Ok(m);
  }

  /** The state of the rounds of box.cpp:266-292 while `list` remains of the ground
      truths `list0`: each ground truth that left the list was given one prediction of
      class c, at an overlap reaching the threshold, and nothing of `m0` changed. */
  ghost predicate Rounds(t: map<Key, real>, c: nat, threshold: real, list0: seq<nat>, m0: Match,
                         list: seq<nat>, m: Match)
  {
    Distinct(list) && (forall i :: i in list ==> i in list0)
    && (forall k :: k in m0 ==> k in m && m[k] == m0[k])
    && (forall k :: k in m && k !in m0 ==>
          k.0 == c && m[k].Some? && m[k].value in list0 && m[k].value !in list
          && (c, m[k].value, k.1) in t && t[(c, m[k].value, k.1)] >= threshold)
    && (forall i :: i in list0 && i !in list ==>
          exists j :: (c, j) in m && (c, j) !in m0 && m[(c, j)] == Some(i))
    && (forall k, k' :: k in m && k' in m && k !in m0 && k' !in m0 && m[k] == m[k'] ==> k == k')
  }

  lemma MatchStart(t: map<Key, real>, c: nat, gtCount: nat, predCount: nat, threshold: real, m0: Match)
    ensures Rounds(t, c, threshold, RowKeys(t, c, gtCount, predCount), m0, RowKeys(t, c, gtCount, predCount), m0)
  {
  }

  /** One round: the ground truth at position gp is matched to prediction pj and leaves
      the list. */
  lemma MatchStep(t: map<Key, real>, c: nat, threshold: real, list0: seq<nat>, m0: Match,
                  list: seq<nat>, m: Match, gp: nat, pj: nat)
    requires Rounds(t, c, threshold, list0, m0, list, m)
    requires IsCandidate(t, c, list, m, gp, pj) && t[(c, list[gp], pj)] >= threshold
    ensures Rounds(t, c, threshold, list0, m0, list[..gp] + list[gp + 1..], m[(c, pj) := Some(list[gp])])
  {
    RemoveAt(list, gp);
  }

  lemma MatchDone(t: map<Key, real>, c: nat, gtCount: nat, predCount: nat, threshold: real, m0: Match, m: Match)
    requires Rounds(t, c, threshold, RowKeys(t, c, gtCount, predCount), m0, [], m)
    ensures ClassMatched(t, c, gtCount, predCount, threshold, m0, m)
  {
  }

  /** The rounds that succeed from a state of the rounds complete it. */
  lemma {:induction false} RoundsComplete(t: map<Key, real>, c: nat, predCount: nat, threshold: real,
                                          list0: seq<nat>, m0: Match, list: seq<nat>, m: Match)
    requires forall i, j :: (c, i, j) in t ==> j < predCount
    requires Rounds(t, c, threshold, list0, m0, list, m)
    requires ClassRounds(t, c, predCount, threshold, list, m).Some?
    ensures Rounds(t, c, threshold, list0, m0, [], ClassRounds(t, c, predCount, threshold, list, m).value)
    decreases |list|
  {
    if |list| > 0 {
      var b := Scan(t, c, list, m, predCount, |list|);
      ScanFound(t, c, list, m, predCount, |list|);
      var list', m' := list[..b.gp] + list[b.gp + 1..], m[(c, b.pj) := Some(list[b.gp])];
      assert ClassRounds(t, c, predCount, threshold, list, m) == ClassRounds(t, c, predCount, threshold, list', m');
      MatchStep(t, c, threshold, list0, m0, list, m, b.gp, b.pj);
      RoundsComplete(t, c, predCount, threshold, list0, m0, list', m');
    }
  }

  /** When the rounds of a class succeed, every ground truth with a row has its own new
      prediction, at an overlap reaching the threshold, and nothing matched before
      changes. */
  lemma ClassMatchesMatched(t: map<Key, real>, c: nat, gtCount: nat, predCount: nat, threshold: real, m0: Match)
    requires forall i, j :: (c, i, j) in t ==> i < gtCount && j < predCount
    requires ClassMatches(t, c, gtCount, predCount, threshold, m0).Some?
    ensures ClassMatched(t, c, gtCount, predCount, threshold, m0, ClassMatches(t, c, gtCount, predCount, threshold, m0).value)
  {
    var list0 := RowKeys(t, c, gtCount, predCount);
    MatchStart(t, c, gtCount, predCount, threshold, m0);
    RoundsComplete(t, c, predCount, threshold, list0, m0, list0, m0);
    MatchDone(t, c, gtCount, predCount, threshold, m0, ClassMatches(t, c, gtCount, predCount, threshold, m0).value);
  }

  /** Every entry is a ground truth of its class at an overlap reaching the threshold. */
  ghost predicate EntriesAbove(t: map<Key, real>, c: nat, threshold: real, m: Match)
  {
    forall k :: k in m ==>
      k.0 < c && m[k].Some? && (k.0, m[k].value, k.1) in t && t[(k.0, m[k].value, k.1)] >= threshold
  }

  /** Every ground truth with a row in a class below c is matched in that class. */
  ghost predicate RowsCovered(t: map<Key, real>, c: nat, gtCount: nat, predCounts: seq<nat>, m: Match)
    requires c <= |predCounts|
  {
    forall c': nat, i: nat :: c' < c && i < gtCount && HasRow(t, c', i, predCounts[c']) ==> MatchedTo(m, c', i)
  }

  /** Some prediction of class c is matched to ground truth i. */
  ghost predicate MatchedTo(m: Match, c: nat, i: nat)
  {
    exists j :: (c, j) in m && m[(c, j)] == Some(i)
  }

  /** No two predictions of one class share a ground truth. */
  ghost predicate OnePerGt(m: Match)
  {
    forall k, k' :: k in m && k' in m && k.0 == k'.0 && m[k] == m[k'] ==> k == k'
  }

  /** The table after the classes below c. */
  ghost predicate MatchedBelow(t: map<Key, real>, c: nat, gtCount: nat, predCounts: seq<nat>, threshold: real, m: Match)
    requires c <= |predCounts|
  {
    EntriesAbove(t, c, threshold, m) && RowsCovered(t, c, gtCount, predCounts, m) && OnePerGt(m)
  }

  /** Matching class c extends the table of the classes below it. */
  lemma MatchedBelowStep(t: map<Key, real>, c: nat, gtCount: nat, predCounts: seq<nat>, threshold: real,
                         m: Match, m': Match)
    requires c < |predCounts|
    requires MatchedBelow(t, c, gtCount, predCounts, threshold, m)
    requires ClassMatched(t, c, gtCount, predCounts[c], threshold, m, m')
    ensures MatchedBelow(t, c + 1, gtCount, predCounts, threshold, m')
  {
    forall k | k in m'
      ensures k.0 < c + 1 && m'[k].Some? && (k.0, m'[k].value, k.1) in t && t[(k.0, m'[k].value, k.1)] >= threshold
    {
      if k in m {
        assert m'[k] == m[k];
      }
    }
    forall c': nat, i: nat | c' < c + 1 && i < gtCount && HasRow(t, c', i, predCounts[c'])
      ensures exists j :: (c', j) in m' && m'[(c', j)] == Some(i)
    {
      if c' < c {
        assert MatchedTo(m, c', i);
        var j :| (c', j) in m && m[(c', j)] == Some(i);
        assert (c', j) in m';
      }
    }
    forall k, k' | k in m' && k' in m' && k.0 == k'.0 && m'[k] == m'[k']
      ensures k == k'
    {
      if k in m && k' in m {
        assert m[k] == m[k'];
      }
    }
  }

  /** The classes c .. classCount-1 of overlaps[0] in order, from the table `m`: classes
      without rows add nothing, as the original never visits them. */
  function BipartiteFrom(t: map<Key, real>, classCount: nat, gtCount: nat, predCounts: seq<nat>, threshold: real,
                         c: nat, m: Match): Option<Match>
    requires |predCounts| == classCount
    decreases classCount - c
  {
    if c >= classCount then Some(m)
    else
      match ClassMatches(t, c, gtCount, predCounts[c], threshold, m)
      case None => None
      case Some(m') => BipartiteFrom(t, classCount, gtCount, predCounts, threshold, c + 1, m')
  }

  /** The bipartite policy (box.cpp:258-294): the greedy rounds of every class, or None
      when a round fails. */
  function BipartiteMatches(t: map<Key, real>, classCount: nat, gtCount: nat, predCounts: seq<nat>, threshold: real)
    : Option<Match>
    requires |predCounts| == classCount
  {
    BipartiteFrom(t, classCount, gtCount, predCounts, threshold, 0, map[])
  }

  /** The rounds of class c extend the table of the classes below it. */
  lemma ClassMatchesBelow(t: map<Key, real>, classCount: nat, gtCount: nat, predCounts: seq<nat>,
                          threshold: real, c: nat, m: Match)
    requires |predCounts| == classCount && c < classCount
    requires forall c', i, j :: (c', i, j) in t ==> c' < classCount && i < gtCount && j < predCounts[c']
    requires MatchedBelow(t, c, gtCount, predCounts, threshold, m)
    requires ClassMatches(t, c, gtCount, predCounts[c], threshold, m).Some?
    ensures MatchedBelow(t, c + 1, gtCount, predCounts, threshold, ClassMatches(t, c, gtCount, predCounts[c], threshold, m).value)
  {
    ClassMatchesMatched(t, c, gtCount, predCounts[c], threshold, m);
    MatchedBelowStep(t, c, gtCount, predCounts, threshold, m, ClassMatches(t, c, gtCount, predCounts[c], threshold, m).value);
  }

  /** A class that does not fail hands its table to the next. */
  lemma BipartiteFromNext(t: map<Key, real>, classCount: nat, gtCount: nat, predCounts: seq<nat>,
                          threshold: real, c: nat, m: Match)
    requires |predCounts| == classCount && c < classCount
    requires BipartiteFrom(t, classCount, gtCount, predCounts, threshold, c, m).Some?
    ensures ClassMatches(t, c, gtCount, predCounts[c], threshold, m).Some?
    ensures BipartiteFrom(t, classCount, gtCount, predCounts, threshold, c, m)
            == BipartiteFrom(t, classCount, gtCount, predCounts, threshold, c + 1,
                             ClassMatches(t, c, gtCount, predCounts[c], threshold, m).value)
  {
  }

  lemma {:induction false} BipartiteFromMatched(t: map<Key, real>, classCount: nat, gtCount: nat, predCounts: seq<nat>,
                                                threshold: real, c: nat, m: Match, r: Match)
    requires |predCounts| == classCount && c <= classCount
    requires forall c', i, j :: (c', i, j) in t ==> c' < classCount && i < gtCount && j < predCounts[c']
    requires MatchedBelow(t, c, gtCount, predCounts, threshold, m)
    requires BipartiteFrom(t, classCount, gtCount, predCounts, threshold, c, m) == Some(r)
    ensures MatchedBelow(t, classCount, gtCount, predCounts, threshold, r)
    decreases classCount - c
  {
    if c < classCount {
      BipartiteFromNext(t, classCount, gtCount, predCounts, threshold, c, m);
      var m' := ClassMatches(t, c, gtCount, predCounts[c], threshold, m).value;
      ClassMatchesBelow(t, classCount, gtCount, predCounts, threshold, c, m);
      BipartiteFromMatched(t, classCount, gtCount, predCounts, threshold, c + 1, m', r);
    }
  }

  /** A successful bipartite matching gives every ground truth with a row in a class its
      own prediction of that class, at an overlap reaching the threshold. */
  lemma BipartiteMatched(t: map<Key, real>, classCount: nat, gtCount: nat, predCounts: seq<nat>, threshold: real)
    requires |predCounts| == classCount
    requires forall c, i, j :: (c, i, j) in t ==> c < classCount && i < gtCount && j < predCounts[c]
    requires BipartiteMatches(t, classCount, gtCount, predCounts, threshold).Some?
    ensures MatchedBelow(t, classCount, gtCount, predCounts, threshold,
                         BipartiteMatches(t, classCount, gtCount, predCounts, threshold).value)
  {
    BipartiteFromMatched(t, classCount, gtCount, predCounts, threshold, 0, map[],
                         BipartiteMatches(t, classCount, gtCount, predCounts, threshold).value);
  }

  /** The loop of box.cpp:261-293 over the classes computes BipartiteMatches. */
  method MatchBipartite(t: map<Key, real>, classCount: nat, gtCount: nat, predCounts: seq<nat>, threshold: real)
    returns (r: Result<Match>)
    requires |predCounts| == classCount
    requires forall c, i, j :: (c, i, j) in t ==> c < classCount && i < gtCount && j < predCounts[c]
    ensures r.Ok? <==> BipartiteMatches(t, classCount, gtCount, predCounts, threshold).Some?
    ensures r.Ok? ==> r.value == BipartiteMatches(t, classCount, gtCount, predCounts, threshold).value
    ensures r.Ok? ==> MatchedBelow(t, classCount, gtCount, predCounts, threshold, r.value)
  {
    var m: Match := map[];
    var c := 0;
    while c < classCount
      invariant 0 <= c <= classCount
      invariant BipartiteFrom(t, classCount, gtCount, predCounts, threshold, c, m)
                == BipartiteMatches(t, classCount, gtCount, predCounts, threshold)
    {
      var rc := MatchClass(t, c, gtCount, predCounts[c], threshold, m);
      if rc.Fail? { return Fail(rc.reason); }
      m := rc.value;
      c := c + 1;
    }
    BipartiteMatched(t, classCount, gtCount, predCounts, threshold);
    return Ok(m);
  }

  // ------------------------------------------------------------------ per prediction

  /** The scan of box.cpp:303-310 over the first n ground truths of prediction j of
      class c: the greatest overlap above 0, and the first ground truth that reaches it
      (strict `>`), or None when no overlap is positive. */
  function BestGt(tp: map<Key, real>, c: nat, j: nat, n: nat): (real, Option<nat>)
  {
    if n == 0 then (0.0, None)
    else
      var prev := BestGt(tp, c, j, n - 1);
      if (c, j, n - 1) in tp && tp[(c, j, n - 1)] > prev.0 then (tp[(c, j, n - 1)], Some(n - 1)) else prev
  }

  /** BestGt is the first strict maximum of the positive overlaps. */
  lemma {:induction false} BestGtIsFirstMax(tp: map<Key, real>, c: nat, j: nat, n: nat)
    ensures BestGt(tp, c, j, n).0 >= 0.0
    ensures forall i :: i < n && (c, j, i) in tp ==> tp[(c, j, i)] <= BestGt(tp, c, j, n).0
    ensures BestGt(tp, c, j, n).1.None? ==> BestGt(tp, c, j, n).0 == 0.0
    ensures BestGt(tp, c, j, n).1.Some? ==>
              var i := BestGt(tp, c, j, n).1.value;
              i < n && (c, j, i) in tp && tp[(c, j, i)] == BestGt(tp, c, j, n).0 > 0.0
              && forall i' :: i' < i && (c, j, i') in tp ==> tp[(c, j, i')] < tp[(c, j, i)]
  {
    if n > 0 {
      BestGtIsFirstMax(tp, c, j, n - 1);
    }
  }

  /** Prediction j of class c has an entry in overlaps[1][c]. */
  predicate Present(tp: map<Key, real>, c: nat, j: nat, gtCount: nat)
  {
    exists i :: 0 <= i < gtCount && (c, j, i) in tp
  }

  /** The table of the per-prediction policy: a prediction has an entry exactly when it
      has an overlap and its greatest overlap reaches the threshold, and the entry is the
      first ground truth of that overlap (None when no overlap is positive). */
  ghost predicate PerPredictionOf(tp: map<Key, real>, classCount: nat, gtCount: nat, predCounts: seq<nat>,
                                  threshold: real, m: Match)
    requires |predCounts| == classCount
  {
    (forall c: nat, j: nat :: (c, j) in m <==>
       c < classCount && j < predCounts[c] && Present(tp, c, j, gtCount) && BestGt(tp, c, j, gtCount).0 >= threshold)
    && (forall k :: k in m ==> m[k] == BestGt(tp, k.0, k.1, gtCount).1)
  }

  /** Per-prediction policy (box.cpp:296-317): every prediction whose best overlap
      reaches the threshold is matched to the first ground truth with that overlap; with
      a threshold of at most 0, a prediction whose overlaps are all 0 is matched to
      None (the null pointer). */
  method MatchPerPrediction(tp: map<Key, real>, classCount: nat, gtCount: nat, predCounts: seq<nat>, threshold: real)
    returns (m: Match)
    requires |predCounts| == classCount
    requires forall c, j, i :: (c, j, i) in tp ==> c < classCount && j < predCounts[c] && i < gtCount
    ensures PerPredictionOf(tp, classCount, gtCount, predCounts, threshold, m)
  {
    m := map[];
    var c := 0;
    while c < classCount
      invariant 0 <= c <= classCount
      invariant forall c': nat, j: nat :: (c', j) in m <==>
                  c' < c && j < predCounts[c'] && Present(tp, c', j, gtCount) && BestGt(tp, c', j, gtCount).0 >= threshold
      invariant forall k :: k in m ==> m[k] == BestGt(tp, k.0, k.1, gtCount).1
    {
      var j := 0;
      while j < predCounts[c]
        invariant 0 <= j <= predCounts[c]
        invariant forall c': nat, j': nat :: (c', j') in m <==>
                    (c' < c || (c' == c && j' < j)) && j' < predCounts[c'] && Present(tp, c', j', gtCount)
                    && BestGt(tp, c', j', gtCount).0 >= threshold
        invariant forall k :: k in m ==> m[k] == BestGt(tp, k.0, k.1, gtCount).1
      {
        var present := false;
        var maxOverlap := 0.0;
        var maxGt: Option<nat> := None;
        var i := 0;
        while i < gtCount
          invariant 0 <= i <= gtCount
          invariant (maxOverlap, maxGt) == BestGt(tp, c, j, i)
          invariant present <==> exists i' :: 0 <= i' < i && (c, j, i') in tp
        {
          if (c, j, i) in tp {
            present := true;
            if tp[(c, j, i)] > maxOverlap {
              maxOverlap, maxGt := tp[(c, j, i)], Some(i);
            }
          }
          i := i + 1;
        }
        if present && maxOverlap >= threshold {
          m := m[(c, j) := maxGt];
        }
        j := j + 1;
      }
      c := c + 1;
    }
  }

  /** A prediction is matched exactly when its greatest overlap reaches the threshold,
      and then to a ground truth of that overlap that no earlier ground truth equals. */
  lemma PerPredictionMeaning(tp: map<Key, real>, classCount: nat, gtCount: nat, predCounts: seq<nat>,
                             threshold: real, m: Match, c: nat, j: nat)
    requires |predCounts| == classCount
    requires PerPredictionOf(tp, classCount, gtCount, predCounts, threshold, m)
    requires (c, j) in m && m[(c, j)].Some?
    ensures var i := m[(c, j)].value;
            i < gtCount && (c, j, i) in tp && tp[(c, j, i)] >= threshold
            && (forall i' :: i' < gtCount && (c, j, i') in tp ==> tp[(c, j, i')] <= tp[(c, j, i)])
            && (forall i' :: i' < i && (c, j, i') in tp ==> tp[(c, j, i')] < tp[(c, j, i)])
  {
    BestGtIsFirstMax(tp, c, j, gtCount);
  }

  /** A prediction left unmatched has every overlap below the threshold. */
  lemma PerPredictionUnmatched(tp: map<Key, real>, classCount: nat, gtCount: nat, predCounts: seq<nat>,
                               threshold: real, m: Match, c: nat, j: nat)
    requires |predCounts| == classCount
    requires PerPredictionOf(tp, classCount, gtCount, predCounts, threshold, m)
    requires c < classCount && j < predCounts[c] && (c, j) !in m
    ensures forall i :: i < gtCount && (c, j, i) in tp ==> tp[(c, j, i)] < threshold
  {
    BestGtIsFirstMax(tp, c, j, gtCount);
  }

  // ------------------------------------------------------------------ dispatch

  /** MathBoxes: the bipartite policy reads overlaps[0], the per-prediction policy
      overlaps[1]; any other match type is fatal (box.cpp:318-320). */
  method MathBoxes(overlaps: Overlaps, matchType: MatchType, threshold: real,
                   classCount: nat, gtCount: nat, predCounts: seq<nat>)
    returns (r: Result<Match>)
    requires |predCounts| == classCount
    requires forall c, i, j :: (c, i, j) in overlaps.byGt ==> c < classCount && i < gtCount && j < predCounts[c]
    requires forall c, j, i :: (c, j, i) in overlaps.byPred ==> c < classCount && j < predCounts[c] && i < gtCount
    ensures matchType.OtherType? ==> r.Fail?
    ensures matchType.Bipartite? ==>
              (r.Ok? <==> BipartiteMatches(overlaps.byGt, classCount, gtCount, predCounts, threshold).Some?)
    ensures r.Ok? && matchType.Bipartite? ==>
              r.value == BipartiteMatches(overlaps.byGt, classCount, gtCount, predCounts, threshold).value
              && MatchedBelow(overlaps.byGt, classCount, gtCount, predCounts, threshold, r.value)
    ensures matchType.PerPrediction? ==>
              r.Ok? && PerPredictionOf(overlaps.byPred, classCount, gtCount, predCounts, threshold, r.value)
  {
    match matchType {
      case Bipartite =>
        r := MatchBipartite(overlaps.byGt, classCount, gtCount, predCounts, threshold);
      case PerPrediction =>
        var m := MatchPerPrediction(overlaps.byPred, classCount, gtCount, predCounts, threshold);
        r := Ok(m);
      case OtherType(_) =>
        r := Fail("unknown matching type");
    }
  }

  /** box.cpp:284 as written: after the last pass of the outer loop the recorded
      ground truth is the one at the outer iterator, the last remaining one, whatever
      pair the inner scan chose. */
  function AsWrittenRoundGt(list: seq<nat>, gp: nat): nat
    requires gp < |list|
  {
    list[|list| - 1]
  }

  /** With ground truths 0 and 1 of class 0 and one prediction overlapping them by
      0.9 and 0.1, the best pair is (0, 0); as written ground truth 1 is matched, at
      0.1, below a threshold of 0.5, where MatchClass matches ground truth 0. */
  lemma AsWrittenRoundMismatch()
    ensures var t: map<Key, real> := map[(0, 0, 0) := 0.9, (0, 1, 0) := 0.1];
            IsCandidate(t, 0, [0, 1], map[], 0, 0) &&
            (forall p, j :: IsCandidate(t, 0, [0, 1], map[], p, j) ==> t[(0, [0, 1][p], j)] <= 0.9) &&
            AsWrittenRoundGt([0, 1], 0) == 1 && t[(0, 1, 0)] < 0.5 <= t[(0, 0, 0)]
  {
  }
}


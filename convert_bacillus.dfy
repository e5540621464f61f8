/** windows/convert_bacillus_data/convert_bacillus_data.cpp: list the files of a
    positive and a negative image directory, store every readable image (label 1,
    then label 0) in a database under an 8-digit running number, committing every
    200 puts per phase. The directory listing (_findfirst/_findnext) and the image
    reads are outside the model: their results are inputs. */
module ConvertBacillus {

  import opened Wrappers
  import Text
  import Batching

  // ------------------------------------------------------------------ swap_endian

  /** The four bytes of v, least significant first. */
  function Bytes(v: bv32): seq<bv8>
  {
    [(v & 0xFF) as bv8, ((v >> 8) & 0xFF) as bv8, ((v >> 16) & 0xFF) as bv8, ((v >> 24) & 0xFF) as bv8]
  }

  function Reverse4(b: seq<bv8>): seq<bv8>
    requires |b| == 4
  {
    [b[3], b[2], b[1], b[0]]
  }

  /** swap_endian (lines 38-41): swap the bytes inside each half, then the halves. */
  function SwapEndian(val: bv32): (r: bv32)
    ensures Bytes(r) == Reverse4(Bytes(val))
  {
    var v := ((val << 8) & 0xFF00FF00) | ((val >> 8) & 0xFF00FF);
    (v << 16) | (v >> 16)
  }

  /** Swapping twice restores the value. */
  lemma SwapEndianInvolution(val: bv32)
    ensures SwapEndian(SwapEndian(val)) == val
  {
    var r := SwapEndian(SwapEndian(val));
    assert Bytes(r) == Bytes(val);
    BytesInjective(r, val);
  }

  lemma BytesInjective(a: bv32, b: bv32)
    requires Bytes(a) == Bytes(b)
    ensures a == b
  {
    assert (a & 0xFF) as bv8 == (b & 0xFF) as bv8;
    assert ((a >> 8) & 0xFF) as bv8 == ((b >> 8) & 0xFF) as bv8;
    assert ((a >> 16) & 0xFF) as bv8 == ((b >> 16) & 0xFF) as bv8;
    assert ((a >> 24) & 0xFF) as bv8 == ((b >> 24) & 0xFF) as bv8;
  }

  // ------------------------------------------------------------------ directories

  predicate IsSeparator(c: char)
  {
    c == '/' || c == '\\'
  }

  /** A directory name ending in a separator: '/' is appended unless the name already
      ends in '/' or '\' (lines 56-57 and 98-99). */
  function WithSlash(dir: string): (r: string)
    requires |dir| > 0
    ensures |r| > 0 && IsSeparator(r[|r| - 1])
    ensures |dir| <= |r| <= |dir| + 1 && r[..|dir|] == dir
    ensures IsSeparator(dir[|dir| - 1]) <==> r == dir
  {
    if IsSeparator(dir[|dir| - 1]) then dir else dir + "/"
  }

  /** Normalising twice is normalising once. */
  lemma WithSlashIdempotent(dir: string)
    requires |dir| > 0
    ensures WithSlash(WithSlash(dir)) == WithSlash(dir)
  {
  }

  /** The search key of lines 54-61: the directory with a separator, then "*" and the
      extension, or "*.*" without one. An empty directory searches nothing. */
  function SearchPattern(dir: string, ext: string): (r: Option<string>)
    ensures r.None? <==> |dir| == 0
    ensures r.Some? ==> |dir| < |r.value| && r.value[..|dir|] == dir
    ensures r.Some? ==> var tail := if |ext| == 0 then ".*" else ext;
                        |r.value| >= |tail| + 2 &&
                        r.value[|r.value| - |tail|..] == tail &&
                        r.value[|r.value| - |tail| - 1] == '*' &&
                        IsSeparator(r.value[|r.value| - |tail| - 2])
  {
    if |dir| == 0 then None
    else
      var tail := if |ext| == 0 then ".*" else ext;
      var d := WithSlash(dir);
      var p := d + "*" + tail;
      assert p[..|dir|] == d[..|dir|];
      assert p[|p| - |tail|..] == tail;
      Some(p)
  }

  /** One result of _findfirst/_findnext. */
  datatype DirEntry = DirEntry(name: string, isDir: bool)

  /** What FindFineName returns: the sub-directories and the files. */
  datatype Listing = Listing(folders: seq<string>, names: seq<string>)

  predicate IsDot(name: string)
  {
    name == "." || name == ".."
  }

  function Folders(entries: seq<DirEntry>): seq<string>
  {
    if |entries| == 0 then []
    else
      var e := entries[|entries| - 1];
      Folders(entries[..|entries| - 1]) + (if e.isDir && !IsDot(e.name) then [e.name] else [])
  }

  function Names(entries: seq<DirEntry>): seq<string>
  {
    if |entries| == 0 then []
    else
      var e := entries[|entries| - 1];
      Names(entries[..|entries| - 1]) + (if !e.isDir && !IsDot(e.name) then [e.name] else [])
  }

  /** lx::FindFineName (lines 50-89) over the entries the search returns (none when
      _findfirst fails): sub-directories go to `folders`, the rest to `names`, and
      "." and ".." to neither. */
  method FindFineName(dir: string, ext: string, entries: seq<DirEntry>) returns (r: Listing)
    ensures |dir| == 0 ==> r == Listing([], [])
    ensures |dir| > 0 ==> r == Listing(Folders(entries), Names(entries))
  {
    r := Listing([], []);
    var pattern := SearchPattern(dir, ext);
    if pattern.None? {
      return;
    }
    var i := 0;
    while i < |entries|
      invariant i <= |entries|
      invariant r == Listing(Folders(entries[..i]), Names(entries[..i]))
    {
      var e := entries[i];
      assert entries[..i + 1][..i] == entries[..i];
      if e.isDir {
        if !IsDot(e.name) {
          r := r.(folders := r.folders + [e.name]);
        }
      } else {
        if !IsDot(e.name) {
          r := r.(names := r.names + [e.name]);
        }
      }
      i := i + 1;
    }
    assert entries[..i] == entries;
  }

  /** Every entry other than "." and ".." is listed once, as a folder or as a file
      according to its kind, in the order found, and nothing else is listed. */
  lemma {:induction false} ListingSplits(entries: seq<DirEntry>)
    ensures forall x :: x in Names(entries) <==>
              exists e :: e in entries && !e.isDir && !IsDot(e.name) && e.name == x
    ensures forall x :: x in Folders(entries) <==>
              exists e :: e in entries && e.isDir && !IsDot(e.name) && e.name == x
    ensures |Folders(entries)| + |Names(entries)| <= |entries|
  {
    if |entries| > 0 {
      var init := entries[..|entries| - 1];
      var e := entries[|entries| - 1];
      ListingSplits(init);
      assert entries == init + [e];
      forall x
        ensures x in Names(entries) <==> exists d :: d in entries && !d.isDir && !IsDot(d.name) && d.name == x
      {
        if x in Names(entries) && x !in Names(init) {
          assert e in entries;
        }
        if exists d :: d in entries && !d.isDir && !IsDot(d.name) && d.name == x {
          var d :| d in entries && !d.isDir && !IsDot(d.name) && d.name == x;
          if d != e {
            assert d in init;
          }
        }
      }
      forall x
        ensures x in Folders(entries) <==> exists d :: d in entries && d.isDir && !IsDot(d.name) && d.name == x
      {
        if x in Folders(entries) && x !in Folders(init) {
          assert e in entries;
        }
        if exists d :: d in entries && d.isDir && !IsDot(d.name) && d.name == x {
          var d :| d in entries && d.isDir && !IsDot(d.name) && d.name == x;
          if d != e {
            assert d in init;
          }
        }
      }
    }
  }

  // ------------------------------------------------------------------ finding

  /** Line 100 as written: the negative directory's last character is compared with
      '\', but the '/' test reads neg_file_dir at pos_file_dir.size() - 1, the
      positive directory's length after its own separator was added. An index past
      the string is undefined behaviour, a failure here (the index equal to the
      length reads the terminating '\0'). */
  function NegDirAsWritten(posDir: string, negDir: string): Result<string>
    requires |posDir| > 0 && |negDir| > 0
  {
    var k := |posDir| - 1;
    if k > |negDir| then Fail("index past the end of neg_file_dir")
    else
      var c := if k < |negDir| then negDir[k] else '\0';
      if negDir[|negDir| - 1] != '\\' && c != '/' then Ok(negDir + "/") else Ok(negDir)
  }

  /** With positive directory "p/" and negative directory "ab/", line 100 appends a
      second '/', and with a positive directory longer than the negative one it reads
      past the end; the intended test leaves "ab/" as it is. */
  lemma NegDirFinding()
    ensures NegDirAsWritten("p/", "ab/") == Ok("ab//")
    ensures NegDirAsWritten("abcd/", "ab") .Fail?
    ensures WithSlash("ab/") == "ab/"
  {
    assert "ab/"[1] == 'b' && "ab/"[2] == '/';
    assert "ab/" + "/" == "ab//";
  }

  // ------------------------------------------------------------------ the two phases

  /** One put: the 8-digit key, the label and the image path read. */
  datatype Put = Put(key: string, labelValue: int, path: string)

  const CommitEvery: nat := 200
  const Side: nat := 40

  /** The puts of one phase: a put per readable file, keyed by `base` plus the number
      of puts before it. */
  function PhasePuts(dir: string, names: seq<string>, readOk: seq<bool>, labelValue: int, base: nat): (r: seq<Put>)
    requires |readOk| == |names|
    ensures |r| <= |names|
  {
    if |names| == 0 then []
    else
      var n := |names| - 1;
      var before := PhasePuts(dir, names[..n], readOk[..n], labelValue, base);
      before + (if readOk[n] then [Put(Text.FormatInt(base + |before|, 8), labelValue, dir + names[n])] else [])
  }

  /** The k-th put of a phase carries key `base + k` and the phase's label. */
  lemma {:induction false} PhaseKeys(dir: string, names: seq<string>, readOk: seq<bool>, labelValue: int, base: nat)
    requires |readOk| == |names|
    ensures forall k :: 0 <= k < |PhasePuts(dir, names, readOk, labelValue, base)| ==>
              PhasePuts(dir, names, readOk, labelValue, base)[k].key == Text.FormatInt(base + k, 8) &&
              PhasePuts(dir, names, readOk, labelValue, base)[k].labelValue == labelValue
  {
    if |names| > 0 {
      var n := |names| - 1;
      PhaseKeys(dir, names[..n], readOk[..n], labelValue, base);
    }
  }

  /** Every put of the whole run, positives first. */
  function AllPuts(posDir: string, posNames: seq<string>, posReads: seq<bool>,
                   negDir: string, negNames: seq<string>, negReads: seq<bool>): seq<Put>
    requires |posReads| == |posNames| && |negReads| == |negNames|
  {
    var pos := PhasePuts(posDir, posNames, posReads, 1, 0);
    pos + PhasePuts(negDir, negNames, negReads, 0, |pos|)
  }

  /** Keys run 0, 1, 2, ... across both phases, so they are distinct and read back
      as the put's position; positives carry label 1 and negatives 0. */
  lemma RunningKeys(posDir: string, posNames: seq<string>, posReads: seq<bool>,
                    negDir: string, negNames: seq<string>, negReads: seq<bool>, k: nat, l: nat)
    requires |posReads| == |posNames| && |negReads| == |negNames|
    requires k < l < |AllPuts(posDir, posNames, posReads, negDir, negNames, negReads)|
    ensures var all := AllPuts(posDir, posNames, posReads, negDir, negNames, negReads);
            all[k].key == Text.FormatInt(k, 8) && all[k].key != all[l].key &&
            Text.ParseDecimal(all[k].key) == k &&
            all[k].labelValue == (if k < |PhasePuts(posDir, posNames, posReads, 1, 0)| then 1 else 0)
  {
    var pos := PhasePuts(posDir, posNames, posReads, 1, 0);
    PhaseKeys(posDir, posNames, posReads, 1, 0);
    PhaseKeys(negDir, negNames, negReads, 0, |pos|);
    var all := AllPuts(posDir, posNames, posReads, negDir, negNames, negReads);
    assert all[k].key == Text.FormatInt(k, 8);
    assert all[l].key == Text.FormatInt(l, 8);
    Text.FormatIntInjective(k, l, 8);
    Text.FormatIntRoundTrip(k, 8);
  }

  predicate PhaseState(dir: string, names: seq<string>, readOk: seq<bool>, labelValue: int, base: nat,
                       i: nat, count: nat, commits: seq<seq<Put>>, pending: seq<Put>)
    requires i <= |names| == |readOk|
  {
    var puts := PhasePuts(dir, names[..i], readOk[..i], labelValue, base);
    count == |puts| &&
    commits == Batching.FullChunks(puts, CommitEvery) &&
    pending == Batching.Pending(puts, CommitEvery)
  }

  lemma PhaseSkip(dir: string, names: seq<string>, readOk: seq<bool>, labelValue: int, base: nat,
                  i: nat, count: nat, commits: seq<seq<Put>>, pending: seq<Put>)
    requires i < |names| == |readOk| && !readOk[i]
    requires PhaseState(dir, names, readOk, labelValue, base, i, count, commits, pending)
    ensures PhaseState(dir, names, readOk, labelValue, base, i + 1, count, commits, pending)
  {
    assert names[..i + 1][..i] == names[..i] && readOk[..i + 1][..i] == readOk[..i];
    var before := PhasePuts(dir, names[..i], readOk[..i], labelValue, base);
    assert before + [] == before;
  }

  lemma PhasePut(dir: string, names: seq<string>, readOk: seq<bool>, labelValue: int, base: nat,
                 i: nat, count: nat, commits: seq<seq<Put>>, pending: seq<Put>)
    requires i < |names| == |readOk| && readOk[i]
    requires PhaseState(dir, names, readOk, labelValue, base, i, count, commits, pending)
    ensures var p := pending + [Put(Text.FormatInt(base + count, 8), labelValue, dir + names[i])];
            if (count + 1) % CommitEvery == 0
            then PhaseState(dir, names, readOk, labelValue, base, i + 1, count + 1, commits + [p], [])
            else PhaseState(dir, names, readOk, labelValue, base, i + 1, count + 1, commits, p)
  {
    assert names[..i + 1][..i] == names[..i] && readOk[..i + 1][..i] == readOk[..i];
    var before := PhasePuts(dir, names[..i], readOk[..i], labelValue, base);
    Batching.ChunkStep(before, Put(Text.FormatInt(base + count, 8), labelValue, dir + names[i]), CommitEvery);
  }

  /** One phase (lines 110-132, and 134-156 with base pos_count): read each file
      with the phase's label, skip failures, put under the running key, commit after
      every 200th put of the phase and once more for a partial batch. */
  method Phase(dir: string, names: seq<string>, readOk: seq<bool>, labelValue: int, base: nat)
    returns (commits: seq<seq<Put>>, count: nat)
    requires |readOk| == |names|
    ensures commits == Batching.Chunked(PhasePuts(dir, names, readOk, labelValue, base), CommitEvery)
    ensures count == |PhasePuts(dir, names, readOk, labelValue, base)|
  {
    count := 0;
    commits := [];
    var pending: seq<Put> := [];
    var i := 0;
    while i < |names|
      invariant i <= |names|
      invariant PhaseState(dir, names, readOk, labelValue, base, i, count, commits, pending)
    {
      if !readOk[i] {
        PhaseSkip(dir, names, readOk, labelValue, base, i, count, commits, pending);
        i := i + 1;
        continue;
      }
      PhasePut(dir, names, readOk, labelValue, base, i, count, commits, pending);
      pending := pending + [Put(Text.FormatInt(base + count, 8), labelValue, dir + names[i])];
      count := count + 1;
      if count % CommitEvery == 0 {
        commits := commits + [pending];
        pending := [];
      }
      i := i + 1;
    }
    assert names[..i] == names && readOk[..i] == readOk;
    if count % CommitEvery != 0 {
      commits := commits + [pending];
    }
  }

  /** convert_dataset (lines 94-158) with the separator test of line 100 corrected.
      Indexing the last character of an empty directory name is undefined behaviour,
      a failure here. Each phase's transaction starts empty, so the commits are the
      positive phase's batches followed by the negative phase's. */
  method ConvertDataset(posDir: string, negDir: string,
                        posEntries: seq<DirEntry>, negEntries: seq<DirEntry>,
                        posReads: seq<bool>, negReads: seq<bool>) returns (r: Result<seq<seq<Put>>>)
    requires |posReads| == |Names(posEntries)| && |negReads| == |Names(negEntries)|
    ensures r.Ok? <==> |posDir| > 0 && |negDir| > 0
    ensures r.Ok? ==>
      var pos := PhasePuts(WithSlash(posDir), Names(posEntries), posReads, 1, 0);
      r.value == Batching.Chunked(pos, CommitEvery) +
                 Batching.Chunked(PhasePuts(WithSlash(negDir), Names(negEntries), negReads, 0, |pos|), CommitEvery)
  {
    if |posDir| == 0 || |negDir| == 0 {
      return Fail("empty directory name");
    }
    var pos := WithSlash(posDir);
    var neg := WithSlash(negDir);
    var posFile := FindFineName(pos, "", posEntries);
    var negFile := FindFineName(neg, "", negEntries);
    var posCommits, posCount := Phase(pos, posFile.names, posReads, 1, 0);
    var negCommits, negCount := Phase(neg, negFile.names, negReads, 0, posCount);
    r := Ok(posCommits + negCommits);
  }
}


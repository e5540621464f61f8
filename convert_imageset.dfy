/** tools/convert_imageset.cpp: read a list file of "<image> <label> <label> ..."
    lines, then store one Datum per readable image in a database under the key
    "<8-digit line number>_<image>", committing every 1000 puts. Reading the image
    (ReadImageToDatum) and the database are outside the model; the per-line outcome
    of the read is an input. */
module ConvertImageset {

  import opened Wrappers
  import Text
  import DatumIo
  import Batching

  /** One parsed list line: the image name and its labels. */
  datatype Entry<L> = Entry(file: string, labels: seq<L>)

  /** One database put: its key and the list position it came from. */
  datatype Put = Put(key: string, lineId: nat)

  /** What the model needs of a successful ReadImageToDatum: channels*height*width
      and the byte length of the stored data. */
  datatype DatumInfo = DatumInfo(chw: int, dataLen: nat)

  const CommitEvery: nat := 1000

  // ------------------------------------------------------------------ list parsing

  /** Line's labels parsed as ints (atoi on every token after the first). */
  function IntLabels(tokens: seq<string>): seq<int>
    requires |tokens| > 0
  {
    seq(|tokens| - 1, i requires 0 <= i < |tokens| - 1 => Text.Atoi(tokens[i + 1]))
  }

  function FloatLabels(tokens: seq<string>, atof: string -> real): seq<real>
    requires |tokens| > 0
  {
    seq(|tokens| - 1, i requires 0 <= i < |tokens| - 1 => atof(tokens[i + 1]))
  }

  /** The int_lines entries the list yields: lines with at least one label when the
      label type is "int". */
  function IntEntries(lines: seq<string>, labelType: string): seq<Entry<int>>
  {
    if |lines| == 0 then []
    else
      var t := Text.Tokens(lines[|lines| - 1]);
      IntEntries(lines[..|lines| - 1], labelType) +
      (if labelType == "int" && |t| > 1 then [Entry(t[0], IntLabels(t))] else [])
  }

  /** The float_lines entries: the same for label type "float", with atof. */
  function FloatEntries(lines: seq<string>, labelType: string, atof: string -> real): seq<Entry<real>>
  {
    if |lines| == 0 then []
    else
      var t := Text.Tokens(lines[|lines| - 1]);
      FloatEntries(lines[..|lines| - 1], labelType, atof) +
      (if labelType == "float" && |t| > 1 then [Entry(t[0], FloatLabels(t, atof))] else [])
  }

  /** The token loop of lines 97-107: every token after the first is parsed as the
      label type says; any other label type collects nothing. */
  method ParseLabels(tokens: seq<string>, labelType: string, atof: string -> real)
    returns (intLabels: seq<int>, floatLabels: seq<real>)
    ensures |tokens| > 0 && labelType == "int" ==> intLabels == IntLabels(tokens)
    ensures |tokens| > 0 && labelType == "float" ==> floatLabels == FloatLabels(tokens, atof)
    ensures labelType != "int" || |tokens| <= 1 ==> intLabels == []
    ensures labelType != "float" || |tokens| <= 1 ==> floatLabels == []
  {
    intLabels, floatLabels := [], [];
    var j := 1;
    while j < |tokens|
      invariant 1 <= j && (j <= |tokens| || j == 1)
      invariant |tokens| > 0 && labelType == "int" ==> intLabels == IntLabels(tokens)[..j - 1]
      invariant |tokens| > 0 && labelType == "float" ==> floatLabels == FloatLabels(tokens, atof)[..j - 1]
      invariant labelType != "int" || j == 1 ==> intLabels == []
      invariant labelType != "float" || j == 1 ==> floatLabels == []
    {
      if labelType == "int" {
        intLabels := intLabels + [Text.Atoi(tokens[j])];
      } else if labelType == "float" {
        floatLabels := floatLabels + [atof(tokens[j])];
      }
      // any other label type only logs an error
      j := j + 1;
    }
    if |tokens| > 0 {
      assert IntLabels(tokens)[..|tokens| - 1] == IntLabels(tokens);
      assert FloatLabels(tokens, atof)[..|tokens| - 1] == FloatLabels(tokens, atof);
    }
  }

  /** The reading loop of lines 90-112. The label accumulators are emptied after
      every line, so each entry holds exactly its own line's labels. */
  method ParseList(lines: seq<string>, labelType: string, atof: string -> real)
    returns (intLines: seq<Entry<int>>, floatLines: seq<Entry<real>>)
    ensures intLines == IntEntries(lines, labelType)
    ensures floatLines == FloatEntries(lines, labelType, atof)
  {
    intLines, floatLines := [], [];
    var i := 0;
    while i < |lines|
      invariant i <= |lines|
      invariant intLines == IntEntries(lines[..i], labelType)
      invariant floatLines == FloatEntries(lines[..i], labelType, atof)
    {
      var tokens := Text.Tokens(lines[i]);
      var intLabels, floatLabels := ParseLabels(tokens, labelType, atof);
      assert lines[..i + 1][..i] == lines[..i];
      if |intLabels| > 0 {
        intLines := intLines + [Entry(tokens[0], intLabels)];
      } else if |floatLabels| > 0 {
        floatLines := floatLines + [Entry(tokens[0], floatLabels)];
      }
      i := i + 1;
    }
    assert lines[..|lines|] == lines;
  }

  /** Every entry names a non-empty, space-free image and carries one label per
      further token; only the list of the chosen label type is filled. */
  lemma {:induction false} EntriesWellFormed(lines: seq<string>, labelType: string, atof: string -> real)
    ensures forall e :: e in IntEntries(lines, labelType) ==>
              e.file != [] && ' ' !in e.file && |e.labels| > 0
    ensures forall e :: e in FloatEntries(lines, labelType, atof) ==>
              e.file != [] && ' ' !in e.file && |e.labels| > 0
    ensures labelType != "int" ==> IntEntries(lines, labelType) == []
    ensures labelType != "float" ==> FloatEntries(lines, labelType, atof) == []
    ensures |IntEntries(lines, labelType)| + |FloatEntries(lines, labelType, atof)| <= |lines|
  {
    if |lines| > 0 {
      EntriesWellFormed(lines[..|lines| - 1], labelType, atof);
      Text.TokensSplit(lines[|lines| - 1]);
    }
  }

  // ------------------------------------------------------------------ one line

  /** Resize extents below zero are raised to zero (lines 126-127). */
  function ClampResize(x: int): (r: int)
    ensures r >= 0 && r >= x
    ensures r == x || r == 0
  {
    if x > 0 then x else 0
  }

  /** The encoding guessed from a name (lines 152-156): its lowered extension,
      dot included. A name without '.' makes `substr(npos)` throw. */
  function GuessEncoding(fn: string): (r: Result<string>)
    ensures r.Ok? <==> '.' in fn
    ensures r.Ok? ==> r.value == Text.ToLower(DatumIo.Extension(fn)) && DatumIo.MatchExt(fn, r.value)
  {
    var p := Text.LastIndexOf(fn, '.');
    if p.None? then Fail("Failed to guess the encoding")
    else
      DatumIo.MatchExtOfGuess(fn);
      Ok(Text.ToLower(fn[p.value..]))
  }

  /** The database key of line 180/181. */
  function Key(lineId: nat, file: string): string
  {
    Text.FormatInt(lineId, 8) + "_" + file
  }

  /** Position of the first '_' (or the length). */
  function FirstUnderscore(s: string): (k: nat)
    ensures k <= |s|
  {
    if |s| == 0 || s[0] == '_' then 0 else 1 + FirstUnderscore(s[1..])
  }

  lemma {:induction false} FirstUnderscoreOfKey(a: string, x: string)
    requires '_' !in a
    ensures FirstUnderscore(a + "_" + x) == |a|
  {
    if |a| > 0 {
      assert (a + "_" + x)[1..] == a[1..] + "_" + x;
      FirstUnderscoreOfKey(a[1..], x);
    }
  }

  lemma DigitsHaveNoUnderscore(s: string)
    requires Text.AllDigits(s)
    ensures forall i :: 0 <= i < |s| ==> s[i] != '_'
  {
  }

  /** Keys of different lines differ, whatever the file names. */
  lemma KeysDistinct(i: nat, fi: string, j: nat, fj: string)
    requires i != j
    ensures Key(i, fi) != Key(j, fj)
  {
    var a := Text.FormatInt(i, 8);
    var b := Text.FormatInt(j, 8);
    DigitsHaveNoUnderscore(a);
    DigitsHaveNoUnderscore(b);
    FirstUnderscoreOfKey(a, fi);
    FirstUnderscoreOfKey(b, fj);
    Text.FormatIntInjective(i, j, 8);
    assert Key(i, fi)[..FirstUnderscore(Key(i, fi))] == a;
    assert Key(j, fj)[..FirstUnderscore(Key(j, fj))] == b;
  }

  // ------------------------------------------------------------------ the write loop

  /** Channels*height*width of the first read datum before position k, if any: the
      size `check_size` compares later datums against. */
  function FirstChw(datums: seq<Option<DatumInfo>>): Option<int>
  {
    if |datums| == 0 then None
    else
      var f := FirstChw(datums[..|datums| - 1]);
      if f.Some? then f
      else if datums[|datums| - 1].Some? then Some(datums[|datums| - 1].value.chw)
      else None
  }

  /** Every read datum after the first has data of the first one's C*H*W bytes. */
  predicate SizesMatch(datums: seq<Option<DatumInfo>>)
  {
    forall j :: 0 <= j < |datums| && datums[j].Some? && FirstChw(datums[..j]).Some? ==>
      datums[j].value.dataLen == FirstChw(datums[..j]).value
  }

  /** The first i lines pass the encoding guess and, when requested, the size
      check: the tool has not aborted before line i. */
  predicate LinesOk(files: seq<string>, datums: seq<Option<DatumInfo>>, encoded: bool, encodeType: string,
                    checkSize: bool, i: nat)
    requires i <= |files| && i <= |datums|
  {
    GuessesOk(files[..i], encoded, encodeType) && (checkSize ==> SizesMatch(datums[..i]))
  }

  lemma LinesOkAll(files: seq<string>, datums: seq<Option<DatumInfo>>, encoded: bool, encodeType: string,
                   checkSize: bool)
    requires |files| == |datums|
    ensures LinesOk(files, datums, encoded, encodeType, checkSize, |files|)
            <==> GuessesOk(files, encoded, encodeType) && (checkSize ==> SizesMatch(datums))
  {
    assert files[..|files|] == files && datums[..|files|] == datums;
  }

  /** With encoding requested but no type given, every name must have a '.'. */
  predicate GuessesOk(files: seq<string>, encoded: bool, encodeType: string)
  {
    encoded && |encodeType| == 0 ==> forall i :: 0 <= i < |files| ==> '.' in files[i]
  }

  lemma GuessesStep(files: seq<string>, i: nat, encoded: bool, encodeType: string)
    requires i < |files|
    ensures GuessesOk(files[..i + 1], encoded, encodeType) <==>
            GuessesOk(files[..i], encoded, encodeType) && (encoded && |encodeType| == 0 ==> '.' in files[i])
    ensures GuessesOk(files, encoded, encodeType) ==> GuessesOk(files[..i + 1], encoded, encodeType)
  {
    assert files[..i + 1][..i] == files[..i];
  }

  /** The puts of the loop: one per line whose image was read, keyed by line. */
  function Puts(files: seq<string>, datums: seq<Option<DatumInfo>>): (r: seq<Put>)
    requires |datums| == |files|
    ensures forall k :: 0 <= k < |r| ==> r[k].lineId < |files| && datums[r[k].lineId].Some? &&
                                         r[k].key == Key(r[k].lineId, files[r[k].lineId])
    ensures forall k, l :: 0 <= k < l < |r| ==> r[k].lineId < r[l].lineId
  {
    if |files| == 0 then []
    else
      var n := |files| - 1;
      Puts(files[..n], datums[..n]) + (if datums[n].Some? then [Put(Key(n, files[n]), n)] else [])
  }

  /** No two puts share a key. */
  lemma PutKeysDistinct(files: seq<string>, datums: seq<Option<DatumInfo>>, k: nat, l: nat)
    requires |datums| == |files|
    requires k < l < |Puts(files, datums)|
    ensures Puts(files, datums)[k].key != Puts(files, datums)[l].key
  {
    var r := Puts(files, datums);
    KeysDistinct(r[k].lineId, files[r[k].lineId], r[l].lineId, files[r[l].lineId]);
  }

  /** Extending the prefix by one line adds that line's put, if its image was read,
      and fixes the reference size at the first read datum. */
  lemma PrefixStep(files: seq<string>, datums: seq<Option<DatumInfo>>, i: nat)
    requires i < |files| == |datums|
    ensures Puts(files[..i + 1], datums[..i + 1]) ==
            Puts(files[..i], datums[..i]) + (if datums[i].Some? then [Put(Key(i, files[i]), i)] else [])
    ensures FirstChw(datums[..i + 1]) ==
            if FirstChw(datums[..i]).Some? then FirstChw(datums[..i])
            else if datums[i].Some? then Some(datums[i].value.chw) else None
  {
    assert files[..i + 1][..i] == files[..i];
    assert datums[..i + 1][..i] == datums[..i];
  }

  /** SizesMatch of a longer prefix is SizesMatch of the shorter one plus the check
      on the new datum; a mismatch anywhere is a mismatch of the whole list. */
  lemma SizesStep(datums: seq<Option<DatumInfo>>, i: nat)
    requires i < |datums|
    ensures SizesMatch(datums[..i + 1]) <==>
            SizesMatch(datums[..i]) &&
            (datums[i].Some? && FirstChw(datums[..i]).Some? ==> datums[i].value.dataLen == FirstChw(datums[..i]).value)
    ensures SizesMatch(datums) ==> SizesMatch(datums[..i + 1])
  {
    var p := datums[..i + 1];
    var q := datums[..i];
    assert p[..i] == q;
    forall j | 0 <= j < i
      ensures p[j] == q[j] && p[..j] == q[..j]
    {
      assert q[..j] == datums[..j];
    }
    forall j | 0 <= j < i + 1
      ensures p[..j] == datums[..j]
    {
    }
  }

  lemma SizesStart(datums: seq<Option<DatumInfo>>)
    ensures SizesMatch(datums[..0]) && FirstChw(datums[..0]).None?
  {
  }

  /** The open transaction and the commits so far after the first i lines. */
  predicate BatchState(files: seq<string>, datums: seq<Option<DatumInfo>>, i: nat, count: nat,
                       commits: seq<seq<Put>>, pending: seq<Put>)
    requires i <= |files| == |datums|
  {
    var puts := Puts(files[..i], datums[..i]);
    count == |puts| &&
    commits == Batching.FullChunks(puts, CommitEvery) &&
    pending == Batching.Pending(puts, CommitEvery)
  }

  /** The reference size after the first i lines. */
  predicate SizeState(datums: seq<Option<DatumInfo>>, i: nat, sizeKnown: bool, dataSize: int)
    requires i <= |datums|
  {
    sizeKnown == FirstChw(datums[..i]).Some? &&
    (sizeKnown ==> dataSize == FirstChw(datums[..i]).value)
  }

  lemma BatchSkip(files: seq<string>, datums: seq<Option<DatumInfo>>, i: nat, count: nat,
                  commits: seq<seq<Put>>, pending: seq<Put>)
    requires i < |files| == |datums| && datums[i].None?
    requires BatchState(files, datums, i, count, commits, pending)
    ensures BatchState(files, datums, i + 1, count, commits, pending)
  {
    PrefixStep(files, datums, i);
    var before := Puts(files[..i], datums[..i]);
    assert before + [] == before;
  }

  lemma BatchPut(files: seq<string>, datums: seq<Option<DatumInfo>>, i: nat, count: nat,
                 commits: seq<seq<Put>>, pending: seq<Put>)
    requires i < |files| == |datums| && datums[i].Some?
    requires BatchState(files, datums, i, count, commits, pending)
    ensures var p := pending + [Put(Key(i, files[i]), i)];
            if (count + 1) % CommitEvery == 0
            then BatchState(files, datums, i + 1, count + 1, commits + [p], [])
            else BatchState(files, datums, i + 1, count + 1, commits, p)
  {
    PrefixStep(files, datums, i);
    Batching.ChunkStep(Puts(files[..i], datums[..i]), Put(Key(i, files[i]), i), CommitEvery);
  }

  /** An unreadable image leaves the reference size and the size check as they were. */
  lemma SizeSkip(datums: seq<Option<DatumInfo>>, i: nat, sizeKnown: bool, dataSize: int)
    requires i < |datums| && datums[i].None?
    requires SizeState(datums, i, sizeKnown, dataSize) && SizesMatch(datums[..i])
    ensures SizeState(datums, i + 1, sizeKnown, dataSize) && SizesMatch(datums[..i + 1])
  {
    var files := seq(|datums|, k => "");
    PrefixStep(files, datums, i);
    SizesStep(datums, i);
  }

  /** The size check of lines 167-177 on a read datum: the first one fixes the
      reference C*H*W, each later one must have that many data bytes. */
  method CheckSize(datums: seq<Option<DatumInfo>>, i: nat, sizeKnown: bool, dataSize: int)
    returns (ok: bool, known: bool, size: int)
    requires i < |datums| && datums[i].Some?
    requires SizeState(datums, i, sizeKnown, dataSize) && SizesMatch(datums[..i])
    ensures ok <==> SizesMatch(datums[..i + 1])
    ensures ok ==> SizeState(datums, i + 1, known, size)
    ensures !ok ==> !SizesMatch(datums)
  {
    var files := seq(|datums|, k => "");
    PrefixStep(files, datums, i);
    SizesStep(datums, i);
    ok, known, size := true, sizeKnown, dataSize;
    if !sizeKnown {
      known, size := true, datums[i].value.chw;
    } else if datums[i].value.dataLen != dataSize {
      ok := false;
    }
  }

  /** The encoding guess of lines 147-156 for one entry, when encoding is asked for
      without a type. */
  method GuessStep(files: seq<string>, i: nat, encoded: bool, encodeType: string) returns (ok: bool)
    requires i < |files| && GuessesOk(files[..i], encoded, encodeType)
    ensures ok <==> GuessesOk(files[..i + 1], encoded, encodeType)
    ensures !ok ==> !GuessesOk(files, encoded, encodeType)
  {
    GuessesStep(files, i, encoded, encodeType);
    ok := true;
    if encoded && |encodeType| == 0 {
      var guess := GuessEncoding(files[i]);
      ok := guess.Ok?;
    }
  }

  /** Lines 180-193 for a read entry: put it under its key, and commit when the put
      count reaches a multiple of 1000. */
  method PutStep(files: seq<string>, datums: seq<Option<DatumInfo>>, i: nat, count: nat,
                 commits: seq<seq<Put>>, pending: seq<Put>)
    returns (count': nat, commits': seq<seq<Put>>, pending': seq<Put>)
    requires i < |files| == |datums| && datums[i].Some?
    requires BatchState(files, datums, i, count, commits, pending)
    ensures BatchState(files, datums, i + 1, count', commits', pending')
  {
    BatchPut(files, datums, i, count, commits, pending);
    pending' := pending + [Put(Key(i, files[i]), i)];
    count' := count + 1;
    commits' := commits;
    if count' % CommitEvery == 0 {
      commits' := commits + [pending'];
      pending' := [];
    }
  }

  /** The loop of lines 144-199 over the entries of the chosen label type: guess the
      encoding when asked to, skip unreadable images, check sizes when asked to,
      put under the line's key and commit after every 1000th put, then commit the
      partial batch. The result lists the commits in order. An abort (the throwing
      `substr(npos)` of line 155 or the CHECK_EQ of line 173) leaves the commits made
      before it in the database: `committed` holds them and `failedAt` the line. */
  method WriteEntries(files: seq<string>, datums: seq<Option<DatumInfo>>, encoded: bool,
                      encodeType: string, checkSize: bool)
    returns (r: Result<seq<seq<Put>>>, committed: seq<seq<Put>>, failedAt: nat)
    requires |datums| == |files|
    ensures r.Ok? <==> LinesOk(files, datums, encoded, encodeType, checkSize, |files|)
    ensures r.Ok? ==> r.value == Batching.Chunked(Puts(files, datums), CommitEvery) && committed == r.value
    ensures r.Fail? ==> failedAt < |files|
                        && LinesOk(files, datums, encoded, encodeType, checkSize, failedAt)
                        && !LinesOk(files, datums, encoded, encodeType, checkSize, failedAt + 1)
    ensures r.Fail? ==> committed == Batching.FullChunks(Puts(files[..failedAt], datums[..failedAt]), CommitEvery)
  {
    var count: nat := 0;
    var commits: seq<seq<Put>> := [];
    var pending: seq<Put> := [];
    var sizeKnown := false;
    var dataSize := 0;
    var i := 0;
    SizesStart(datums);
    while i < |files|
      invariant i <= |files|
      invariant BatchState(files, datums, i, count, commits, pending)
      invariant checkSize ==> SizeState(datums, i, sizeKnown, dataSize)
      invariant LinesOk(files, datums, encoded, encodeType, checkSize, i)
    {
      var ok, reason, count', commits', pending', known, size :=
        WriteLine(files, datums, encoded, encodeType, checkSize, i, count, commits, pending, sizeKnown, dataSize);
      if !ok {
        LinesOkAll(files, datums, encoded, encodeType, checkSize);
        return Fail(reason), commits, i;
      }
      count, commits, pending, sizeKnown, dataSize := count', commits', pending', known, size;
      i := i + 1;
    }
    LinesOkAll(files, datums, encoded, encodeType, checkSize);
    assert files[..i] == files && datums[..i] == datums;
    if count % CommitEvery != 0 {
      commits := commits + [pending];
    }
    r, committed, failedAt := Ok(commits), commits, 0;
  }

  /** One pass of the loop of lines 144-193 over line i: the encoding guess, the
      size check of a readable image, then its put; `ok` is false exactly when the
      tool aborts on this line. */
  method WriteLine(files: seq<string>, datums: seq<Option<DatumInfo>>, encoded: bool, encodeType: string,
                   checkSize: bool, i: nat, count: nat, commits: seq<seq<Put>>, pending: seq<Put>,
                   sizeKnown: bool, dataSize: int)
    returns (ok: bool, reason: string, count': nat, commits': seq<seq<Put>>, pending': seq<Put>,
             known: bool, size: int)
    requires i < |files| == |datums|
    requires LinesOk(files, datums, encoded, encodeType, checkSize, i)
    requires BatchState(files, datums, i, count, commits, pending)
    requires checkSize ==> SizeState(datums, i, sizeKnown, dataSize)
    ensures ok <==> LinesOk(files, datums, encoded, encodeType, checkSize, i + 1)
    ensures !ok ==> !(GuessesOk(files, encoded, encodeType) && (checkSize ==> SizesMatch(datums)))
    ensures ok ==> BatchState(files, datums, i + 1, count', commits', pending')
                   && (checkSize ==> SizeState(datums, i + 1, known, size))
  {
    count', commits', pending', known, size := count, commits, pending, sizeKnown, dataSize;
    reason := "";
    ok := GuessStep(files, i, encoded, encodeType);
    if !ok {
      return false, "Failed to guess the encoding", count', commits', pending', known, size;
    }
    if datums[i].None? {
      if checkSize {
        SizeSkip(datums, i, sizeKnown, dataSize);
      }
      BatchSkip(files, datums, i, count, commits, pending);
      return;
    }
    if checkSize {
      var fits;
      fits, known, size := CheckSize(datums, i, sizeKnown, dataSize);
      if !fits {
        return false, "Incorrect data field size", count', commits', pending', known, size;
      }
    }
    count', commits', pending' := PutStep(files, datums, i, count, commits, pending);
  }

  /** The whole tool: parse the list, then write the entries of the chosen label
      type (none when the type is neither "int" nor "float"). */
  method ConvertImageset(lines: seq<string>, labelType: string, atof: string -> real,
                         datums: seq<Option<DatumInfo>>, encoded: bool, encodeType: string,
                         checkSize: bool) returns (r: Result<seq<seq<Put>>>, committed: seq<seq<Put>>, failedAt: nat)
    requires |datums| == |Files(lines, labelType, atof)|
    ensures var files := Files(lines, labelType, atof);
            r.Ok? <==> LinesOk(files, datums, encoded, encodeType, checkSize, |files|)
    ensures r.Ok? ==> r.value == Batching.Chunked(Puts(Files(lines, labelType, atof), datums), CommitEvery)
                      && committed == r.value
    ensures var files := Files(lines, labelType, atof);
            r.Fail? ==> failedAt < |files|
                        && LinesOk(files, datums, encoded, encodeType, checkSize, failedAt)
                        && !LinesOk(files, datums, encoded, encodeType, checkSize, failedAt + 1)
                        && committed == Batching.FullChunks(Puts(files[..failedAt], datums[..failedAt]), CommitEvery)
  {
    var intLines, floatLines := ParseList(lines, labelType, atof);
    var files: seq<string> := [];
    if labelType == "int" {
      files := FilesOf(intLines);
    } else if labelType == "float" {
      files := FilesOf(floatLines);
    }
    r, committed, failedAt := WriteEntries(files, datums, encoded, encodeType, checkSize);
  }

  function FilesOf<L>(entries: seq<Entry<L>>): (r: seq<string>)
    ensures |r| == |entries| && forall i :: 0 <= i < |r| ==> r[i] == entries[i].file
  {
    seq(|entries|, i requires 0 <= i < |entries| => entries[i].file)
  }

  /** Image names of the chosen label type's entries, in list order. */
  function Files(lines: seq<string>, labelType: string, atof: string -> real): seq<string>
  {
    if labelType == "int" then FilesOf(IntEntries(lines, labelType))
    else if labelType == "float" then FilesOf(FloatEntries(lines, labelType, atof))
    else []
  }

  // ------------------------------------------------------------------ finding

  /** The image name lines 158-165 read as written: the float branch indexes
      int_lines. Past its end that is undefined behaviour, a failure here. */
  function ReadNameAsWritten(labelType: string, intLines: seq<Entry<int>>,
                             floatLines: seq<Entry<real>>, lineId: nat): Result<string>
  {
    if labelType == "int" || labelType == "float" then
      if lineId < |intLines| then Ok(intLines[lineId].file) else Fail("int_lines index out of range")
    else Fail("no entries")
  }

  /** The evidently intended name: the entry of the chosen label type's list. */
  function ReadName(labelType: string, intLines: seq<Entry<int>>,
                    floatLines: seq<Entry<real>>, lineId: nat): Result<string>
  {
    if labelType == "int" then
      if lineId < |intLines| then Ok(intLines[lineId].file) else Fail("no such line")
    else if labelType == "float" then
      if lineId < |floatLines| then Ok(floatLines[lineId].file) else Fail("no such line")
    else Fail("no entries")
  }

  /** With label type "float", int_lines is always empty, so as written every float
      entry reads past its end; the intended reading gets the entry's own name,
      the one its key (line 181) carries. */
  lemma FloatBranchFinding(lines: seq<string>, atof: string -> real, lineId: nat)
    requires lineId < |FloatEntries(lines, "float", atof)|
    ensures ReadNameAsWritten("float", IntEntries(lines, "float"),
                              FloatEntries(lines, "float", atof), lineId).Fail?
    ensures ReadName("float", IntEntries(lines, "float"), FloatEntries(lines, "float", atof), lineId)
            == Ok(Files(lines, "float", atof)[lineId])
  {
    EntriesWellFormed(lines, "float", atof);
  }
}

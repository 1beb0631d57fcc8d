/**
 * The deterministic core of the b-roll enrichment service: upload validation,
 * keyword batching with index remapping, stock-footage selection, timeline
 * assembly and the per-job status records with their read-only queries.
 *
 * Exceptions raised by the service are modelled as `Failure(text)`, where
 * `text` is what `str(e)` renders; the services it calls (audio extraction,
 * transcription, the chat model, the stock-footage search, downloads and
 * encoding) are inputs.
 */
module BRoll {

  /* ------------------------------------------------------------------ */
  /* Outcomes                                                            */
  /* ------------------------------------------------------------------ */

  datatype Option<+T> = None | Some(value: T)

  /** Either a value or a raised exception, carried as its message. */
  datatype Result<+T> = Success(value: T) | Failure(error: string)

  function Min(a: int, b: int): int
  {
    if a <= b then a else b
  }

  /** The message Python gives a `KeyError` for `key`. */
  function KeyError(key: string): string
  {
    "'" + key + "'"
  }

  /** The message Python gives an `IndexError` on a list subscript. */
  const IndexError: string := "list index out of range"

  /* ------------------------------------------------------------------ */
  /* Upload validation                                                   */
  /* ------------------------------------------------------------------ */

  const AllowedExtensions: set<string> := {"mp4", "mov", "avi"}

  /** Lower-casing of one character; only A-Z are folded. */
  function LowerChar(c: char): (l: char)
    ensures !('A' <= l <= 'Z')
    ensures 'a' <= l <= 'z' <==> 'a' <= c <= 'z' || 'A' <= c <= 'Z'
    ensures !('A' <= c <= 'Z') ==> l == c
    ensures 'A' <= c <= 'Z' ==> l as int - 'a' as int == c as int - 'A' as int
  {
    if 'A' <= c <= 'Z' then (c as int + 32) as char else c
  }

  /** `str.lower()` on ASCII text: no upper-case letter remains, and nothing else moves. */
  function Lower(s: string): (l: string)
    ensures |l| == |s|
    ensures forall i :: 0 <= i < |s| ==> l[i] == LowerChar(s[i])
  {
    seq(|s|, i requires 0 <= i < |s| => LowerChar(s[i]))
  }

  /**
   * The text after the last '.', which is what `rsplit('.', 1)[1]` yields,
   * or None when the name has no '.' at all.
   */
  function ExtensionOf(filename: string): (ext: Option<string>)
    ensures ext.None? <==> '.' !in filename
    ensures ext.Some? ==>
      && '.' !in ext.value
      && |ext.value| < |filename|
      && filename[|filename| - |ext.value| - 1] == '.'
      && filename[|filename| - |ext.value|..] == ext.value
    decreases |filename|
  {
    if filename == [] then None
    else
      var init, last := filename[..|filename| - 1], filename[|filename| - 1];
      assert filename == init + [last];
      if last == '.' then Some([])
      else
        match ExtensionOf(init)
        case None => None
        case Some(e) => Some(e + [last])
  }

  /** Every allowed extension has three letters, so an allowed name has its last '.' fourth from the end. */
  predicate AllowedFile(filename: string)
    ensures AllowedFile(filename) ==> |filename| >= 4 && filename[|filename| - 4] == '.'
  {
    match ExtensionOf(filename)
    case None => false
    case Some(ext) => Lower(ext) in AllowedExtensions
  }

  /**
   * A dot-free suffix that follows a '.' is the text after the LAST '.':
   * it is unique, so AllowedFile judges exactly that suffix.
   */
  lemma ExtensionIsTextAfterLastDot(filename: string, ext: string)
    requires '.' !in ext && |ext| < |filename|
    requires filename[|filename| - |ext| - 1] == '.'
    requires filename[|filename| - |ext|..] == ext
    ensures ExtensionOf(filename) == Some(ext)
    ensures AllowedFile(filename) <==> Lower(ext) in AllowedExtensions
  {
    assert filename[|filename| - |ext| - 1] in filename;
    var e := ExtensionOf(filename).value;
    DotFreeSuffixIsShorter(filename, e, ext);
    DotFreeSuffixIsShorter(filename, ext, e);
    assert |e| == |ext|;
  }

  /** If `inner` follows a '.' and `outer` is a dot-free suffix, then `inner` is no longer than `outer`. */
  lemma DotFreeSuffixIsShorter(filename: string, outer: string, inner: string)
    requires '.' !in outer && |outer| < |filename| && filename[|filename| - |outer|..] == outer
    requires |inner| < |filename| && filename[|filename| - |inner| - 1] == '.'
    ensures |outer| <= |inner|
  {
    var from := |filename| - |outer|;
    forall p | from <= p < |filename|
      ensures filename[p] != '.'
    {
      assert filename[p] == outer[p - from];
    }
  }

  /** A name with no '.' is never allowed. */
  lemma NoDotNeverAllowed(filename: string)
    requires '.' !in filename
    ensures !AllowedFile(filename)
  {
  }

  /**
   * The test read from the end of the name: a name is allowed exactly when
   * it ends in a '.' and three characters that lower-case to an allowed
   * extension.
   */
  lemma AllowedFileByLastFour(filename: string)
    ensures AllowedFile(filename) <==>
      && |filename| >= 4 && filename[|filename| - 4] == '.'
      && Lower(filename[|filename| - 3..]) in AllowedExtensions
  {
    if |filename| >= 4 && filename[|filename| - 4] == '.' {
      var ext := filename[|filename| - 3..];
      if Lower(ext) in AllowedExtensions {
        AllowedLowerHasNoDot(ext);
      }
      if '.' !in ext {
        ExtensionIsTextAfterLastDot(filename, ext);
      }
    }
  }

  /** Lower-casing keeps a '.', and no allowed extension has one. */
  lemma AllowedLowerHasNoDot(ext: string)
    requires Lower(ext) in AllowedExtensions
    ensures '.' !in ext
  {
    forall i | 0 <= i < |ext|
      ensures ext[i] != '.'
    {
      assert Lower(ext)[i] == LowerChar(ext[i]);
    }
  }

  /** Upper-case and multi-dot names are judged by their last extension. */
  lemma AllowedFileAccepts()
    ensures AllowedFile("a.MOV")
    ensures AllowedFile("holiday.final.mp4")
  {
    ExtensionIsTextAfterLastDot("a.MOV", "MOV");
    assert Lower("MOV") == "mov";
    ExtensionIsTextAfterLastDot("holiday.final.mp4", "mp4");
    assert Lower("mp4") == "mp4";
  }

  /** Other extensions, a bare extension with no dot, and a video extension before the last dot are refused. */
  lemma AllowedFileRejects()
    ensures !AllowedFile("a.txt")
    ensures !AllowedFile("mp4")
    ensures !AllowedFile("clip.mp4.txt")
  {
    ExtensionIsTextAfterLastDot("a.txt", "txt");
    ExtensionIsTextAfterLastDot("clip.mp4.txt", "txt");
    assert Lower("txt") == "txt";
    NoDotNeverAllowed("mp4");
  }

  /**
   * The answer to an upload: the route's task id, one of its JSON errors
   * with its status code, or the web framework's own 500 page for an
   * exception the route does not catch.
   */
  datatype UploadReply = TaskCreated(taskId: string) | Rejected(code: int, error: string) | ServerError

  /**
   * The upload route's decision: `videoFilename` is the filename of the
   * `video` form part (None when the part is missing) and `freshTaskId` the
   * identifier the route generates for a new task.
   */
  function UploadDecision(videoFilename: Option<string>, freshTaskId: string): (r: UploadReply)
    ensures r.TaskCreated? <==> videoFilename.Some? && AllowedFile(videoFilename.value)
    ensures r.TaskCreated? ==> r.taskId == freshTaskId
    ensures videoFilename == None ==> r == Rejected(400, "No video file")
    ensures videoFilename == Some("") ==> r == Rejected(400, "No selected file")
    ensures videoFilename.Some? && videoFilename.value != "" && !AllowedFile(videoFilename.value) ==>
              r == Rejected(400, "Invalid file type")
  {
    match videoFilename
    case None => Rejected(400, "No video file")
    case Some(name) =>
      if name == "" then Rejected(400, "No selected file")
      else if AllowedFile(name) then TaskCreated(freshTaskId)
      else Rejected(400, "Invalid file type")
  }

  /**
   * The upload route as written: a new task identifier is drawn from `uuid`,
   * which the module never imports, so every allowed file ends in an
   * unhandled NameError (after the file has been saved), which the web
   * framework answers with a 500 page.
   */
  function UploadAsWritten(videoFilename: Option<string>): (r: UploadReply)
    ensures !r.TaskCreated?
    ensures r == ServerError <==> videoFilename.Some? && AllowedFile(videoFilename.value)
    ensures !(videoFilename.Some? && AllowedFile(videoFilename.value)) ==> r == UploadDecision(videoFilename, "")
  {
    match videoFilename
    case None => Rejected(400, "No video file")
    case Some(name) =>
      if name == "" then Rejected(400, "No selected file")
      else if AllowedFile(name) then ServerError
      else Rejected(400, "Invalid file type")
  }

  /** As written, an allowed upload never starts a task; with the identifier supplied, it does. */
  lemma UploadAsWrittenLosesAllowedFiles(freshTaskId: string)
    ensures UploadAsWritten(Some("talk.mp4")) == ServerError
    ensures UploadDecision(Some("talk.mp4"), freshTaskId) == TaskCreated(freshTaskId)
    ensures UploadDecision(Some("notes.txt"), freshTaskId) == Rejected(400, "Invalid file type")
    ensures UploadAsWritten(Some("notes.txt")) == Rejected(400, "Invalid file type")
  {
    ExtensionIsTextAfterLastDot("talk.mp4", "mp4");
    assert Lower("mp4") == "mp4";
    ExtensionIsTextAfterLastDot("notes.txt", "txt");
    assert Lower("txt") == "txt";
  }

  /* ------------------------------------------------------------------ */
  /* Batching                                                            */
  /* ------------------------------------------------------------------ */

  /** The batch size used to split the transcript texts. */
  const MaxBatch: nat := 20

  /** Cuts `arr` into consecutive chunks of `maxSize` elements, the last possibly shorter. */
  function SplitArray<T>(arr: seq<T>, maxSize: nat): (chunks: seq<seq<T>>)
    requires maxSize > 0
    ensures |arr| == 0 <==> |chunks| == 0
    decreases |arr|
  {
    if |arr| == 0 then []
    else
      var cut := Min(maxSize, |arr|);
      [arr[..cut]] + SplitArray(arr[cut..], maxSize)
  }

  /**
   * The number of chunks is the length divided by `maxSize`, rounded up;
   * every chunk is non-empty and at most `maxSize` long, and all but the
   * last are full.
   */
  lemma {:induction false} SplitArrayShape<T>(arr: seq<T>, maxSize: nat)
    requires maxSize > 0
    ensures var chunks := SplitArray(arr, maxSize);
      && (|chunks| - 1) * maxSize < |arr| <= |chunks| * maxSize
      && (forall b :: 0 <= b < |chunks| ==> 0 < |chunks[b]| <= maxSize)
      && (forall b :: 0 <= b < |chunks| - 1 ==> |chunks[b]| == maxSize)
    decreases |arr|
  {
    if |arr| > 0 {
      var cut := Min(maxSize, |arr|);
      var rest := SplitArray(arr[cut..], maxSize);
      SplitArrayShape(arr[cut..], maxSize);
      assert SplitArray(arr, maxSize) == [arr[..cut]] + rest;
      MulSucc(|rest|, maxSize);
      if |rest| > 0 {
        MulSucc(|rest| - 1, maxSize);
      }
    }
  }

  function Flatten<T>(chunks: seq<seq<T>>): seq<T>
  {
    if chunks == [] then [] else chunks[0] + Flatten(chunks[1..])
  }

  lemma {:induction false} FlattenAppend<T>(chunks: seq<seq<T>>, last: seq<T>)
    ensures Flatten(chunks + [last]) == Flatten(chunks) + last
  {
    if chunks != [] {
      assert (chunks + [last])[1..] == chunks[1..] + [last];
      FlattenAppend(chunks[1..], last);
    }
  }

  /** Splitting loses, reorders and duplicates nothing. */
  lemma {:induction false} SplitThenFlatten<T>(arr: seq<T>, maxSize: nat)
    requires maxSize > 0
    ensures Flatten(SplitArray(arr, maxSize)) == arr
    decreases |arr|
  {
    if |arr| > 0 {
      var cut := Min(maxSize, |arr|);
      SplitThenFlatten(arr[cut..], maxSize);
      var chunks := SplitArray(arr, maxSize);
      assert chunks[0] == arr[..cut];
      assert chunks[1..] == SplitArray(arr[cut..], maxSize);
      assert arr == arr[..cut] + arr[cut..];
    }
  }

  /** Chunk `b` is the slice `arr[b*maxSize : b*maxSize + maxSize]`, as the list comprehension takes it. */
  lemma ChunkAt<T>(arr: seq<T>, maxSize: nat, b: nat)
    requires maxSize > 0 && b < |SplitArray(arr, maxSize)|
    ensures b * maxSize < |arr|
    ensures SplitArray(arr, maxSize)[b] == arr[b * maxSize .. Min(b * maxSize + maxSize, |arr|)]
  {
    ChunkStartsAtOffset(arr, maxSize, b);
    OffsetIsProduct(b, maxSize);
    var start := Offset(b, maxSize);
    var suffix := arr[start..];
    assert SplitArray(suffix, maxSize)[0] == suffix[..Min(maxSize, |suffix|)];
    assert suffix[..Min(maxSize, |suffix|)] == arr[start .. Min(start + maxSize, |arr|)];
  }

  /** `b * k`, built by repeated addition so that the induction below stays linear. */
  function Offset(b: nat, k: nat): nat
  {
    if b == 0 then 0 else Offset(b - 1, k) + k
  }

  lemma {:induction false} OffsetIsProduct(b: nat, k: nat)
    ensures Offset(b, k) == b * k
  {
    if b > 0 {
      OffsetIsProduct(b - 1, k);
      MulSucc(b - 1, k);
    }
  }

  /** Chunk `b` is the first chunk of what is left after `b` full chunks. */
  lemma {:induction false} ChunkStartsAtOffset<T>(arr: seq<T>, maxSize: nat, b: nat)
    requires maxSize > 0 && b < |SplitArray(arr, maxSize)|
    ensures Offset(b, maxSize) < |arr|
    ensures SplitArray(arr, maxSize)[b] == SplitArray(arr[Offset(b, maxSize)..], maxSize)[0]
    decreases b
  {
    if b == 0 {
      assert arr[0..] == arr;
    } else {
      var cut := Min(maxSize, |arr|);
      var rest := SplitArray(arr[cut..], maxSize);
      assert SplitArray(arr, maxSize) == [arr[..cut]] + rest;
      assert cut == maxSize;
      var tail := arr[maxSize..];
      ChunkStartsAtOffset(tail, maxSize, b - 1);
      assert tail[Offset(b - 1, maxSize)..] == arr[Offset(b, maxSize)..];
    }
  }

  lemma MulSucc(a: nat, k: nat)
    ensures a * k + k == (a + 1) * k
  {
  }

  /* ------------------------------------------------------------------ */
  /* Keyword batches and index remapping                                 */
  /* ------------------------------------------------------------------ */

  /** One keyword entry `{"k": keyword, "i": index}` of the chat model's reply. */
  datatype Annotation = Annotation(keyword: string, index: int)

  /** Batch `b`'s local index `i` becomes `20*b + i`; the 20 is written out separately from MaxBatch. */
  const IndexStride: int := 20

  /** The reply of batch `b` with every local index moved to its global position. */
  function Remap(b: nat, local: seq<Annotation>): (global: seq<Annotation>)
    ensures |global| == |local|
    ensures forall t :: 0 <= t < |local| ==>
              global[t] == Annotation(local[t].keyword, IndexStride * b + local[t].index)
  {
    seq(|local|, t requires 0 <= t < |local| => Annotation(local[t].keyword, IndexStride * b + local[t].index))
  }

  /**
   * The keyword list after the first `n` batches: each batch's reply (an
   * exception, or the parsed list of local entries) is remapped and appended,
   * and the first exception ends the whole loop. `reply(b)` is the chat
   * model's answer to the b-th request.
   */
  function Collect(n: nat, reply: nat -> Result<seq<Annotation>>): (r: Result<seq<Annotation>>)
    ensures r.Success? <==> forall b :: 0 <= b < n ==> reply(b).Success?
    decreases n
  {
    if n == 0 then Success([])
    else
      match Collect(n - 1, reply)
      case Failure(e) => Failure(e)
      case Success(brollInfo) =>
        match reply(n - 1)
        case Failure(e) => Failure(e)
        case Success(local) => Success(brollInfo + Remap(n - 1, local))
  }

  /** The first `n` replies, each remapped to its batch. */
  ghost function RemappedReplies(n: nat, reply: nat -> Result<seq<Annotation>>): (batches: seq<seq<Annotation>>)
    requires forall b :: 0 <= b < n ==> reply(b).Success?
    ensures |batches| == n
  {
    seq(n, b requires 0 <= b < n => Remap(b, reply(b).value))
  }

  /**
   * When every request succeeds, the keyword list holds every entry of every
   * reply, remapped, batch after batch and in the order of each reply:
   * nothing is dropped, reordered or repeated.
   */
  lemma {:induction false} CollectKeepsEveryEntry(n: nat, reply: nat -> Result<seq<Annotation>>)
    requires forall b :: 0 <= b < n ==> reply(b).Success?
    ensures Collect(n, reply) == Success(Flatten(RemappedReplies(n, reply)))
  {
    if n > 0 {
      CollectKeepsEveryEntry(n - 1, reply);
      assert RemappedReplies(n, reply) == RemappedReplies(n - 1, reply) + [Remap(n - 1, reply(n - 1).value)];
      FlattenAppend(RemappedReplies(n - 1, reply), Remap(n - 1, reply(n - 1).value));
    }
  }

  lemma {:induction false} CollectFailureSticks(m: nat, n: nat, reply: nat -> Result<seq<Annotation>>)
    requires m <= n && Collect(m, reply).Failure?
    ensures Collect(n, reply) == Collect(m, reply)
    decreases n - m
  {
    if m < n {
      CollectFailureSticks(m, n - 1, reply);
    }
  }

  /** A failed keyword stage reports the exception of the first batch whose request failed. */
  lemma {:induction false} CollectFailsAtFirstFailingBatch(n: nat, reply: nat -> Result<seq<Annotation>>)
    requires Collect(n, reply).Failure?
    ensures exists b :: 0 <= b < n && reply(b) == Failure(Collect(n, reply).error)
                        && forall c :: 0 <= c < b ==> reply(c).Success?
    decreases n
  {
    var e := Collect(n, reply).error;
    if Collect(n - 1, reply).Failure? {
      CollectFailsAtFirstFailingBatch(n - 1, reply);
      var b :| 0 <= b < n - 1 && reply(b) == Failure(e) && forall c :: 0 <= c < b ==> reply(c).Success?;
      assert 0 <= b < n;
    } else {
      assert reply(n - 1) == Failure(e);
      assert forall c :: 0 <= c < n - 1 ==> reply(c).Success?;
    }
  }

  /**
   * The batch loop: for each batch, take the model's reply, remap it and
   * extend the keyword list with it.
   */
  method CollectKeywords(batchCount: nat, reply: nat -> Result<seq<Annotation>>) returns (r: Result<seq<Annotation>>)
    ensures r == Collect(batchCount, reply)
  {
    var brollInfo: seq<Annotation> := [];
    for b := 0 to batchCount
      invariant Collect(b, reply) == Success(brollInfo)
    {
      match reply(b) {
        case Failure(e) =>
          CollectFailureSticks(b + 1, batchCount, reply);
          return Failure(e);
        case Success(local) =>
          brollInfo := brollInfo + Remap(b, local);
      }
    }
    return Success(brollInfo);
  }

  /** Every index in [lo, hi) occurs in `r` exactly once, and no other index occurs. */
  ghost predicate CoversExactly(r: seq<Annotation>, lo: int, hi: int)
  {
    && (forall t :: 0 <= t < |r| ==> lo <= r[t].index < hi)
    && (forall s, t :: 0 <= s < t < |r| ==> r[s].index != r[t].index)
    && (forall x :: lo <= x < hi ==> Occurs(r, x))
  }

  ghost predicate Occurs(r: seq<Annotation>, x: int)
  {
    exists t :: 0 <= t < |r| && r[t].index == x
  }

  /** Each batch's reply names each of that batch's local indices exactly once. */
  ghost predicate RepliesCoverBatches(batches: seq<seq<string>>, reply: nat -> Result<seq<Annotation>>)
  {
    forall b :: 0 <= b < |batches| ==> reply(b).Success? && CoversExactly(reply(b).value, 0, |batches[b]|)
  }

  lemma CoversAfterRemap(b: nat, local: seq<Annotation>, len: int)
    requires CoversExactly(local, 0, len)
    ensures CoversExactly(Remap(b, local), IndexStride * b, IndexStride * b + len)
  {
    var r := Remap(b, local);
    forall x | IndexStride * b <= x < IndexStride * b + len
      ensures Occurs(r, x)
    {
      assert Occurs(local, x - IndexStride * b);
      var t :| 0 <= t < |local| && local[t].index == x - IndexStride * b;
      assert r[t].index == x;
    }
  }

  lemma CoversConcat(a: seq<Annotation>, c: seq<Annotation>, lo: int, mid: int, hi: int)
    requires lo <= mid <= hi
    requires CoversExactly(a, lo, mid) && CoversExactly(c, mid, hi)
    ensures CoversExactly(a + c, lo, hi)
  {
    var r := a + c;
    forall x | lo <= x < hi
      ensures Occurs(r, x)
    {
      if x < mid {
        assert Occurs(a, x);
        var t :| 0 <= t < |a| && a[t].index == x;
        assert r[t] == a[t];
      } else {
        assert Occurs(c, x);
        var t :| 0 <= t < |c| && c[t].index == x;
        assert r[|a| + t] == c[t];
      }
    }
  }

  lemma {:induction false} CollectCoversPrefix(texts: seq<string>, reply: nat -> Result<seq<Annotation>>, n: nat)
    requires n <= |SplitArray(texts, MaxBatch)|
    requires RepliesCoverBatches(SplitArray(texts, MaxBatch), reply)
    ensures Collect(n, reply).Success?
    ensures CoversExactly(Collect(n, reply).value, 0, Min(IndexStride * n, |texts|))
    decreases n
  {
    if n > 0 {
      var batches := SplitArray(texts, MaxBatch);
      CollectCoversPrefix(texts, reply, n - 1);
      ChunkAt(texts, MaxBatch, n - 1);
      var local := reply(n - 1).value;
      var len := |batches[n - 1]|;
      CoversAfterRemap(n - 1, local, len);
      CoversConcat(Collect(n - 1, reply).value, Remap(n - 1, local), 0, IndexStride * (n - 1), Min(IndexStride * n, |texts|));
    }
  }

  /**
   * When every batch's reply names each of its local indices exactly once,
   * the remapped indices name every segment exactly once: `20*b + i` is
   * onto 0..N-1 and without repeats, because the stride equals the batch size.
   */
  lemma RemapCoversAllSegments(texts: seq<string>, reply: nat -> Result<seq<Annotation>>)
    requires RepliesCoverBatches(SplitArray(texts, MaxBatch), reply)
    ensures Collect(|SplitArray(texts, MaxBatch)|, reply).Success?
    ensures CoversExactly(Collect(|SplitArray(texts, MaxBatch)|, reply).value, 0, |texts|)
  {
    CollectCoversPrefix(texts, reply, |SplitArray(texts, MaxBatch)|);
    SplitArrayShape(texts, MaxBatch);
  }

  /** Each batch's reply lists one entry per item, in item order. */
  ghost predicate RepliesInOrder(batches: seq<seq<string>>, reply: nat -> Result<seq<Annotation>>)
  {
    forall b :: 0 <= b < |batches| ==>
      && reply(b).Success?
      && |reply(b).value| == |batches[b]|
      && forall t :: 0 <= t < |reply(b).value| ==> reply(b).value[t].index == t
  }

  lemma {:induction false} CollectInOrderPrefix(texts: seq<string>, reply: nat -> Result<seq<Annotation>>, n: nat)
    requires n <= |SplitArray(texts, MaxBatch)|
    requires RepliesInOrder(SplitArray(texts, MaxBatch), reply)
    ensures Collect(n, reply).Success?
    ensures |Collect(n, reply).value| == Min(IndexStride * n, |texts|)
    ensures forall j :: 0 <= j < |Collect(n, reply).value| ==> Collect(n, reply).value[j].index == j
    decreases n
  {
    if n > 0 {
      CollectInOrderPrefix(texts, reply, n - 1);
      ChunkAt(texts, MaxBatch, n - 1);
      var prev := Collect(n - 1, reply).value;
      var added := Remap(n - 1, reply(n - 1).value);
      assert Collect(n, reply).value == prev + added;
      assert |prev| == IndexStride * (n - 1);
    }
  }

  /**
   * The timeline looks keywords up by position (`broll_info[j]`), not by the
   * remapped index. When each reply lists its items in order, position and
   * index agree: entry j is segment j's keyword.
   */
  lemma PositionalLookupMatchesIndex(texts: seq<string>, reply: nat -> Result<seq<Annotation>>)
    requires RepliesInOrder(SplitArray(texts, MaxBatch), reply)
    ensures Collect(|SplitArray(texts, MaxBatch)|, reply).Success?
    ensures |Collect(|SplitArray(texts, MaxBatch)|, reply).value| == |texts|
    ensures forall j :: 0 <= j < |texts| ==> Collect(|SplitArray(texts, MaxBatch)|, reply).value[j].index == j
  {
    CollectInOrderPrefix(texts, reply, |SplitArray(texts, MaxBatch)|);
    SplitArrayShape(texts, MaxBatch);
  }

  /* ------------------------------------------------------------------ */
  /* Stock-footage search result selection                               */
  /* ------------------------------------------------------------------ */

  /** The decoded JSON of a stock-footage search; a key absent from the JSON is None. */
  datatype VideoFile = VideoFile(link: Option<string>)
  datatype StockVideo = StockVideo(image: Option<string>, videoFiles: Option<seq<VideoFile>>)
  datatype SearchResponse = SearchResponse(totalResults: Option<int>, videos: Option<seq<StockVideo>>)

  /** What the resolver returns: a clip link and its thumbnail, or the "Invalid keyword" sentinel. */
  datatype StockChoice = Found(video: string, thumbnail: string) | InvalidKeyword

  const Orientation: string := "portrait"

  const SearchEndpoint: string := "https://api.pexels.com/videos/search?query="

  /** The search request's URL; the keyword is inserted as it is, without percent-encoding. */
  function SearchUrl(keyword: string, orientation: string): (url: string)
    ensures |url| == |SearchEndpoint| + |keyword| + |orientation| + 25
    ensures url[..|SearchEndpoint|] == SearchEndpoint
    ensures url[|SearchEndpoint|..|SearchEndpoint| + |keyword|] == keyword
    ensures url[|SearchEndpoint| + |keyword|..] == "&orientation=" + orientation + "&size=medium"
  {
    SearchEndpoint + keyword + "&orientation=" + orientation + "&size=medium"
  }

  /** `total_results`, read with a default of 0 when the key is absent. */
  function TotalResults(response: SearchResponse): (total: int)
    ensures response.totalResults.None? ==> total == 0
    ensures response.totalResults.Some? ==> total == response.totalResults.value
  {
    match response.totalResults
    case None => 0
    case Some(n) => n
  }

  /** The response carries a first video with a first file link and an image. */
  ghost predicate HasFirstMatch(response: SearchResponse)
  {
    && response.videos.Some? && |response.videos.value| > 0
    && response.videos.value[0].videoFiles.Some? && |response.videos.value[0].videoFiles.value| > 0
    && response.videos.value[0].videoFiles.value[0].link.Some?
    && response.videos.value[0].image.Some?
  }

  /**
   * The choice made over a decoded search response: with no results the
   * sentinel, otherwise the first video's first file link and its image;
   * a missing key or an empty list on that path raises.
   */
  function SelectStock(response: SearchResponse): (r: Result<StockChoice>)
    ensures TotalResults(response) <= 0 <==> r == Success(InvalidKeyword)
    ensures r.Success? && r.value.Found? <==> TotalResults(response) > 0 && HasFirstMatch(response)
    ensures r.Failure? <==> TotalResults(response) > 0 && !HasFirstMatch(response)
    ensures r.Success? && r.value.Found? ==>
              && r.value.video == response.videos.value[0].videoFiles.value[0].link.value
              && r.value.thumbnail == response.videos.value[0].image.value
  {
    if TotalResults(response) <= 0 then Success(InvalidKeyword)
    else
      match response.videos
      case None => Failure(KeyError("videos"))
      case Some(videos) =>
        if |videos| == 0 then Failure(IndexError)
        else
          var info := videos[0];
          match info.videoFiles
          case None => Failure(KeyError("video_files"))
          case Some(files) =>
            if |files| == 0 then Failure(IndexError)
            else
              match files[0].link
              case None => Failure(KeyError("link"))
              case Some(link) =>
                match info.image
                case None => Failure(KeyError("image"))
                case Some(image) => Success(Found(link, image))
  }

  /**
   * The resolver: one GET of the search URL (`search` answers it, or raises
   * for a network or decoding failure), then the selection.
   */
  function FetchStockVideo(keyword: string, search: string -> Result<SearchResponse>): (r: Result<StockChoice>)
    ensures var answer := search(SearchUrl(keyword, Orientation));
      && (answer.Failure? ==> r == Failure(answer.error))
      && (r == Success(InvalidKeyword) <==> answer.Success? && TotalResults(answer.value) <= 0)
      && (r.Success? && r.value.Found? <==> answer.Success? && TotalResults(answer.value) > 0 && HasFirstMatch(answer.value))
      && (r.Success? && r.value.Found? ==>
            && r.value.video == answer.value.videos.value[0].videoFiles.value[0].link.value
            && r.value.thumbnail == answer.value.videos.value[0].image.value)
      && (r.Failure? <==> answer.Failure? || (TotalResults(answer.value) > 0 && !HasFirstMatch(answer.value)))
  {
    match search(SearchUrl(keyword, Orientation))
    case Failure(e) => Failure(e)
    case Success(response) => SelectStock(response)
  }

  /* ------------------------------------------------------------------ */
  /* Timeline assembly                                                   */
  /* ------------------------------------------------------------------ */

  /** A transcribed segment; times are whole milliseconds. */
  datatype Segment = Segment(start: int, end: int, text: string)

  /** A unit of the output: a sub-clip of the upload, or a stock clip dubbed with the upload's audio. */
  datatype Clip =
    | Original(start: int, end: int)
    | Stock(url: string, audioStart: int, audioEnd: int)

  /** The range of the upload's audio track a clip plays. */
  function AudioRange(clip: Clip): (int, int)
  {
    match clip
    case Original(s, e) => (s, e)
    case Stock(_, s, e) => (s, e)
  }

  function Texts(segments: seq<Segment>): (texts: seq<string>)
    ensures |texts| == |segments|
    ensures forall j :: 0 <= j < |segments| ==> texts[j] == segments[j].text
  {
    seq(|segments|, j requires 0 <= j < |segments| => segments[j].text)
  }

  /**
   * The clip for segment `segment`, the `j`-th one: without the coin, the
   * original range; with it, the keyword at position `j` is resolved, a
   * match is downloaded (`download` gives the exception it raises, if any)
   * and dubbed with the segment's audio, and the sentinel keeps the original.
   */
  function SegmentClip(j: nat, segment: Segment, brollInfo: seq<Annotation>, coin: bool,
                       search: string -> Result<SearchResponse>, download: string -> Option<string>): (r: Result<Clip>)
    ensures r.Success? ==> AudioRange(r.value) == (segment.start, segment.end)
    ensures !coin ==> r == Success(Original(segment.start, segment.end))
    ensures r.Failure? ==> coin
    ensures r.Success? && r.value.Stock? <==>
              && coin && j < |brollInfo|
              && FetchStockVideo(brollInfo[j].keyword, search).Success?
              && FetchStockVideo(brollInfo[j].keyword, search).value.Found?
              && download(FetchStockVideo(brollInfo[j].keyword, search).value.video).None?
    ensures r.Success? && r.value.Stock? ==> r.value.url == FetchStockVideo(brollInfo[j].keyword, search).value.video
    ensures coin && j < |brollInfo| && FetchStockVideo(brollInfo[j].keyword, search) == Success(InvalidKeyword) ==>
              r == Success(Original(segment.start, segment.end))
    ensures coin && j >= |brollInfo| ==> r == Failure(IndexError)
    ensures coin && j < |brollInfo| && FetchStockVideo(brollInfo[j].keyword, search).Failure? ==>
              r == Failure(FetchStockVideo(brollInfo[j].keyword, search).error)
    ensures coin && j < |brollInfo| && FetchStockVideo(brollInfo[j].keyword, search).Success?
              && FetchStockVideo(brollInfo[j].keyword, search).value.Found?
              && download(FetchStockVideo(brollInfo[j].keyword, search).value.video).Some? ==>
              r == Failure(download(FetchStockVideo(brollInfo[j].keyword, search).value.video).value)
  {
    var original := Original(segment.start, segment.end);
    if !coin then Success(original)
    else if j >= |brollInfo| then Failure(IndexError)
    else
      match FetchStockVideo(brollInfo[j].keyword, search)
      case Failure(e) => Failure(e)
      case Success(InvalidKeyword) => Success(original)
      case Success(Found(video, _)) =>
        match download(video)
        case Some(e) => Failure(e)
        case None => Success(Stock(video, segment.start, segment.end))
  }

  /**
   * The clip list after the first `n` segments; the keyword position used for
   * a segment is the number of clips already appended, and the first
   * exception ends the loop.
   */
  function Timeline(segments: seq<Segment>, brollInfo: seq<Annotation>, coins: seq<bool>,
                    search: string -> Result<SearchResponse>, download: string -> Option<string>, n: nat): (r: Result<seq<Clip>>)
    requires n <= |segments| && |coins| == |segments|
    ensures r.Success? ==> |r.value| == n
    decreases n
  {
    if n == 0 then Success([])
    else
      match Timeline(segments, brollInfo, coins, search, download, n - 1)
      case Failure(e) => Failure(e)
      case Success(clips) =>
        match SegmentClip(|clips|, segments[n - 1], brollInfo, coins[n - 1], search, download)
        case Failure(e) => Failure(e)
        case Success(clip) => Success(clips + [clip])
  }

  lemma {:induction false} TimelineFailureSticks(segments: seq<Segment>, brollInfo: seq<Annotation>, coins: seq<bool>,
                                                 search: string -> Result<SearchResponse>, download: string -> Option<string>, m: nat, n: nat)
    requires m <= n <= |segments| && |coins| == |segments|
    requires Timeline(segments, brollInfo, coins, search, download, m).Failure?
    ensures Timeline(segments, brollInfo, coins, search, download, n) == Timeline(segments, brollInfo, coins, search, download, m)
    decreases n - m
  {
    if m < n {
      TimelineFailureSticks(segments, brollInfo, coins, search, download, m, n - 1);
    }
  }

  /** One clip per segment, in segment order: clip j is the decision taken for segment j. */
  lemma {:induction false} TimelineOneClipPerSegment(segments: seq<Segment>, brollInfo: seq<Annotation>, coins: seq<bool>,
                                                     search: string -> Result<SearchResponse>, download: string -> Option<string>, n: nat)
    requires n <= |segments| && |coins| == |segments|
    ensures Timeline(segments, brollInfo, coins, search, download, n).Success? <==>
              forall j :: 0 <= j < n ==> SegmentClip(j, segments[j], brollInfo, coins[j], search, download).Success?
    ensures Timeline(segments, brollInfo, coins, search, download, n).Success? ==>
              forall j :: 0 <= j < n ==>
                SegmentClip(j, segments[j], brollInfo, coins[j], search, download)
                  == Success(Timeline(segments, brollInfo, coins, search, download, n).value[j])
    decreases n
  {
    if n > 0 {
      TimelineOneClipPerSegment(segments, brollInfo, coins, search, download, n - 1);
    }
  }

  /**
   * In an assembled timeline, clip j plays exactly segment j's audio, and it
   * is a stock clip only when segment j's coin was taken and its keyword
   * resolved to a match.
   */
  lemma TimelineKeepsSpeech(segments: seq<Segment>, brollInfo: seq<Annotation>, coins: seq<bool>,
                            search: string -> Result<SearchResponse>, download: string -> Option<string>)
    requires |coins| == |segments|
    requires Timeline(segments, brollInfo, coins, search, download, |segments|).Success?
    ensures var clips := Timeline(segments, brollInfo, coins, search, download, |segments|).value;
      && |clips| == |segments|
      && (forall j :: 0 <= j < |segments| ==> AudioRange(clips[j]) == (segments[j].start, segments[j].end))
      && (forall j :: 0 <= j < |segments| && clips[j].Stock? ==>
            && coins[j] && j < |brollInfo|
            && FetchStockVideo(brollInfo[j].keyword, search).Success?
            && FetchStockVideo(brollInfo[j].keyword, search).value.Found?
            && FetchStockVideo(brollInfo[j].keyword, search).value.video == clips[j].url)
      && (forall j :: 0 <= j < |segments| && !coins[j] ==> clips[j] == Original(segments[j].start, segments[j].end))
  {
    TimelineOneClipPerSegment(segments, brollInfo, coins, search, download, |segments|);
  }

  /** Total audio played by a clip list. */
  function AudioDuration(clips: seq<Clip>): int
  {
    if clips == [] then 0
    else AudioDuration(clips[..|clips| - 1]) + AudioRange(clips[|clips| - 1]).1 - AudioRange(clips[|clips| - 1]).0
  }

  ghost predicate Contiguous(segments: seq<Segment>)
  {
    forall j :: 0 <= j < |segments| - 1 ==> segments[j].end == segments[j + 1].start
  }

  /**
   * Whatever was substituted, the clips' audio ranges of contiguous
   * segments add up to the span from the first segment's start to the last
   * one's end. Where the encoder places each range depends on the clips'
   * video lengths, which are not modelled.
   */
  lemma {:induction false} ContiguousTimelineAudio(segments: seq<Segment>, brollInfo: seq<Annotation>, coins: seq<bool>,
                                                   search: string -> Result<SearchResponse>, download: string -> Option<string>, n: nat)
    requires 0 < n <= |segments| && |coins| == |segments| && Contiguous(segments)
    requires Timeline(segments, brollInfo, coins, search, download, n).Success?
    ensures AudioDuration(Timeline(segments, brollInfo, coins, search, download, n).value) == segments[n - 1].end - segments[0].start
    decreases n
  {
    var clips := Timeline(segments, brollInfo, coins, search, download, n).value;
    var prev := Timeline(segments, brollInfo, coins, search, download, n - 1);
    assert prev.Success? && clips == prev.value + [clips[n - 1]];
    assert clips[..n - 1] == prev.value;
    if n > 1 {
      ContiguousTimelineAudio(segments, brollInfo, coins, search, download, n - 1);
      assert segments[n - 2].end == segments[n - 1].start;
    }
  }

  /**
   * The segment loop: one clip appended per segment, the running index being
   * the number of clips appended so far.
   */
  method AssembleTimeline(segments: seq<Segment>, brollInfo: seq<Annotation>, coins: seq<bool>,
                          search: string -> Result<SearchResponse>, download: string -> Option<string>) returns (r: Result<seq<Clip>>)
    requires |coins| == |segments|
    ensures r == Timeline(segments, brollInfo, coins, search, download, |segments|)
  {
    var finalClips: seq<Clip> := [];
    for j := 0 to |segments|
      invariant Timeline(segments, brollInfo, coins, search, download, j) == Success(finalClips)
    {
      var start, end := segments[j].start, segments[j].end;
      var originalClip := Original(start, end);
      if coins[j] {
        if |finalClips| >= |brollInfo| {
          TimelineFailureSticks(segments, brollInfo, coins, search, download, j + 1, |segments|);
          return Failure(IndexError);
        }
        var choice := FetchStockVideo(brollInfo[|finalClips|].keyword, search);
        match choice {
          case Failure(e) =>
            TimelineFailureSticks(segments, brollInfo, coins, search, download, j + 1, |segments|);
            return Failure(e);
          case Success(InvalidKeyword) =>
            finalClips := finalClips + [originalClip];
          case Success(Found(video, _)) =>
            match download(video) {
              case Some(e) =>
                TimelineFailureSticks(segments, brollInfo, coins, search, download, j + 1, |segments|);
                return Failure(e);
              case None =>
                finalClips := finalClips + [Stock(video, start, end)];
            }
        }
      } else {
        finalClips := finalClips + [originalClip];
      }
    }
    return Success(finalClips);
  }

  /** A search that finds one clip for the keyword "greeting" and nothing for any other. */
  function ScenarioSearch(url: string): Result<SearchResponse>
  {
    if url == SearchUrl("greeting", Orientation) then
      Success(SearchResponse(Some(1), Some([StockVideo(Some("thumb.jpg"), Some([VideoFile(Some("wave.mp4"))]))])))
    else
      Success(SearchResponse(Some(0), None))
  }

  function ScenarioDownload(url: string): Option<string>
  {
    None
  }

  function ScenarioSegments(): seq<Segment>
  {
    [Segment(0, 2000, "hello"), Segment(2000, 5000, "world"), Segment(5000, 7000, "end")]
  }

  function ScenarioKeywords(): seq<Annotation>
  {
    [Annotation("greeting", 0), Annotation("globe", 1), Annotation("finish", 2)]
  }

  /**
   * Three contiguous segments, every coin taken, and the search matching only
   * the first segment's keyword: the first segment gets the stock clip dubbed
   * with its own audio, the other two keep their original footage, and the
   * audio still spans 0-7000 ms.
   */
  lemma ThreeSegmentScenario()
    ensures Timeline(ScenarioSegments(), ScenarioKeywords(), [true, true, true], ScenarioSearch, ScenarioDownload, 3)
              == Success([Stock("wave.mp4", 0, 2000), Original(2000, 5000), Original(5000, 7000)])
    ensures AudioDuration(Timeline(ScenarioSegments(), ScenarioKeywords(), [true, true, true], ScenarioSearch, ScenarioDownload, 3).value)
              == 7000
  {
    var segments, keywords, coins := ScenarioSegments(), ScenarioKeywords(), [true, true, true];
    var greeting := SearchUrl("greeting", Orientation);
    assert SearchUrl("globe", Orientation)[44] != greeting[44];
    assert SearchUrl("finish", Orientation)[43] != greeting[43];
    assert FetchStockVideo("greeting", ScenarioSearch) == Success(Found("wave.mp4", "thumb.jpg"));
    assert FetchStockVideo("globe", ScenarioSearch) == Success(InvalidKeyword);
    assert FetchStockVideo("finish", ScenarioSearch) == Success(InvalidKeyword);
    assert SegmentClip(0, segments[0], keywords, true, ScenarioSearch, ScenarioDownload) == Success(Stock("wave.mp4", 0, 2000));
    assert SegmentClip(1, segments[1], keywords, true, ScenarioSearch, ScenarioDownload) == Success(Original(2000, 5000));
    assert SegmentClip(2, segments[2], keywords, true, ScenarioSearch, ScenarioDownload) == Success(Original(5000, 7000));
    assert Timeline(segments, keywords, coins, ScenarioSearch, ScenarioDownload, 0) == Success([]);
    var t0 := Timeline(segments, keywords, coins, ScenarioSearch, ScenarioDownload, 0);
    var t1 := Timeline(segments, keywords, coins, ScenarioSearch, ScenarioDownload, 1);
    var t2 := Timeline(segments, keywords, coins, ScenarioSearch, ScenarioDownload, 2);
    var t3 := Timeline(segments, keywords, coins, ScenarioSearch, ScenarioDownload, 3);
    assert t0.value + [Stock("wave.mp4", 0, 2000)] == [Stock("wave.mp4", 0, 2000)];
    assert t1.value + [Original(2000, 5000)] == [Stock("wave.mp4", 0, 2000), Original(2000, 5000)];
    assert t2.value + [Original(5000, 7000)] == [Stock("wave.mp4", 0, 2000), Original(2000, 5000), Original(5000, 7000)];
    ContiguousTimelineAudio(segments, keywords, coins, ScenarioSearch, ScenarioDownload, 3);
  }

  /**
   * The segment loop as written: the coin is drawn from `random`, which the
   * module never imports, so the first segment raises a NameError.
   */
  function TimelineAsWritten(segments: seq<Segment>): (r: Result<seq<Clip>>)
    ensures r.Success? <==> segments == []
    ensures r.Failure? ==> r.error == "name 'random' is not defined"
  {
    if segments == [] then Success([]) else Failure("name 'random' is not defined")
  }

  /** On the three-segment scenario the loop as written fails where the intended one assembles all clips. */
  lemma TimelineAsWrittenFailsScenario()
    ensures TimelineAsWritten(ScenarioSegments()) == Failure("name 'random' is not defined")
    ensures Timeline(ScenarioSegments(), ScenarioKeywords(), [true, true, true], ScenarioSearch, ScenarioDownload, 3).Success?
  {
    ThreeSegmentScenario();
  }

  /* ------------------------------------------------------------------ */
  /* Job status records                                                  */
  /* ------------------------------------------------------------------ */

  /**
   * A job's record: `{status: processing, progress}`,
   * `{status: completed, progress, output}` or `{status: error, error}`.
   */
  datatype Record =
    | Processing(progress: int)
    | Completed(progress: int, output: string)
    | Error(error: string)

  predicate WellFormed(record: Record)
  {
    match record
    case Processing(p) => 0 <= p <= 100
    case Completed(p, _) => p == 100
    case Error(_) => true
  }

  /** The progress a record shows; an error record has none. */
  function ProgressOf(record: Record): Option<int>
  {
    match record
    case Processing(p) => Some(p)
    case Completed(p, _) => Some(p)
    case Error(_) => None
  }

  /** What the status route answers: the stored record, or `{status: not_found}`. */
  datatype StatusReply = Known(record: Record) | NotFound

  /** What the download route answers: the output file, or a 404 with an error. */
  datatype DownloadReply = Attachment(path: string) | NotReady(code: int, error: string)

  const UploadFolder: string := "uploads"

  const OutputPrefix: string := UploadFolder + "/output_"

  /** Where a job's result is written: the task id between a fixed prefix and ".mp4". */
  function OutputPath(taskId: string): (path: string)
    ensures |path| == |OutputPrefix| + |taskId| + 4
    ensures path[..|OutputPrefix|] == OutputPrefix
    ensures path[|OutputPrefix|..|OutputPrefix| + |taskId|] == taskId
    ensures path[|OutputPrefix| + |taskId|..] == ".mp4"
  {
    OutputPrefix + taskId + ".mp4"
  }

  /** Two jobs never share an output file. */
  lemma OutputPathsDistinct(a: string, b: string)
    requires a != b
    ensures OutputPath(a) != OutputPath(b)
  {
    if |a| == |b| {
      assert OutputPath(a)[|OutputPrefix|..|OutputPrefix| + |a|] == a;
    }
  }

  /**
   * What the services a job calls do, in pipeline order: the exception raised
   * opening the upload and writing its audio track, if any; the
   * transcription's segments or its exception; the exception raised
   * creating the chat client, if any; the chat model's reply to the b-th
   * keyword request; the per-segment coin; the stock search's answer to a
   * URL; the exception raised downloading and opening a stock clip, if any;
   * the exception raised concatenating and encoding the clips, if any.
   */
  datatype Environment = Environment(
    extractAudio: Option<string>,
    transcribe: Result<seq<Segment>>,
    openClient: Option<string>,
    keywordReply: nat -> Result<seq<Annotation>>,
    coins: seq<bool>,
    search: string -> Result<SearchResponse>,
    download: string -> Option<string>,
    encode: seq<Clip> -> Option<string>)

  /** A coin is drawn for every transcribed segment. */
  predicate CoinsCoverSegments(env: Environment)
  {
    env.transcribe.Success? ==> |env.coins| == |env.transcribe.value|
  }

  /**
   * How a job ends: with the assembled clips, or with an exception raised
   * after `checkpoints` of the five progress writes (0, 20, 40, 60, 80).
   */
  datatype JobOutcome = Finished(clips: seq<Clip>) | FailedAfter(checkpoints: nat, message: string)

  /** The pipeline's stages in order; the first exception decides the outcome. */
  function RunPipeline(env: Environment): (o: JobOutcome)
    requires CoinsCoverSegments(env)
    ensures o.FailedAfter? ==> 1 <= o.checkpoints <= 5
  {
    if env.extractAudio.Some? then FailedAfter(1, env.extractAudio.value)
    else AfterAudio(env)
  }

  /** The stages after the audio track was written: transcription, then the rest. */
  function AfterAudio(env: Environment): (o: JobOutcome)
    requires CoinsCoverSegments(env)
    ensures o.FailedAfter? ==> 2 <= o.checkpoints <= 5
  {
    match env.transcribe
    case Failure(e) => FailedAfter(2, e)
    case Success(segments) => AfterTranscript(env, segments)
  }

  /** The stages after transcription: keywords, timeline, encoding. */
  function AfterTranscript(env: Environment, segments: seq<Segment>): (o: JobOutcome)
    requires |env.coins| == |segments|
    ensures o.FailedAfter? ==> 3 <= o.checkpoints <= 5
  {
    if env.openClient.Some? then FailedAfter(3, env.openClient.value)
    else
      match Collect(|SplitArray(Texts(segments), MaxBatch)|, env.keywordReply)
      case Failure(e) => FailedAfter(3, e)
      case Success(brollInfo) => AfterKeywords(env, segments, brollInfo)
  }

  /** The stages after the keyword requests: timeline and encoding. */
  function AfterKeywords(env: Environment, segments: seq<Segment>, brollInfo: seq<Annotation>): (o: JobOutcome)
    requires |env.coins| == |segments|
    ensures o.FailedAfter? ==> 4 <= o.checkpoints <= 5
  {
    match Timeline(segments, brollInfo, env.coins, env.search, env.download, |segments|)
    case Failure(e) => FailedAfter(4, e)
    case Success(clips) => AfterTimeline(env, clips)
  }

  /** The last stage: encoding the assembled clips. */
  function AfterTimeline(env: Environment, clips: seq<Clip>): (o: JobOutcome)
    ensures o.FailedAfter? ==> o.checkpoints == 5
    ensures o.Finished? ==> o.clips == clips
  {
    match env.encode(clips)
    case Some(e) => FailedAfter(5, e)
    case None => Finished(clips)
  }

  /** The keyword stage's result for a job whose transcription succeeded. */
  ghost function KeywordsOf(env: Environment): Result<seq<Annotation>>
    requires env.transcribe.Success?
  {
    Collect(|SplitArray(Texts(env.transcribe.value), MaxBatch)|, env.keywordReply)
  }

  /** The segment loop's result for a job whose keyword stage succeeded. */
  ghost function TimelineOf(env: Environment): Result<seq<Clip>>
    requires CoinsCoverSegments(env) && env.transcribe.Success? && KeywordsOf(env).Success?
  {
    var segments := env.transcribe.value;
    Timeline(segments, KeywordsOf(env).value, env.coins, env.search, env.download, |segments|)
  }

  /**
   * The outcome of a job, stage by stage: it finishes exactly when no stage
   * raises, with the assembled timeline as its clips; otherwise the first
   * stage that raises decides both how many progress writes were made and
   * the message, which is that stage's exception.
   */
  lemma PipelineOutcome(env: Environment)
    requires CoinsCoverSegments(env)
    ensures var o := RunPipeline(env);
      && (o.Finished? <==>
            && env.extractAudio.None? && env.transcribe.Success? && env.openClient.None?
            && KeywordsOf(env).Success? && TimelineOf(env).Success?
            && env.encode(TimelineOf(env).value).None?)
      && (o.Finished? ==> o.clips == TimelineOf(env).value)
      && (env.extractAudio.Some? ==> o == FailedAfter(1, env.extractAudio.value))
      && (env.extractAudio.None? && env.transcribe.Failure? ==> o == FailedAfter(2, env.transcribe.error))
      && (env.extractAudio.None? && env.transcribe.Success? && env.openClient.Some? ==>
            o == FailedAfter(3, env.openClient.value))
      && (env.extractAudio.None? && env.transcribe.Success? && env.openClient.None? && KeywordsOf(env).Failure? ==>
            o == FailedAfter(3, KeywordsOf(env).error))
      && (env.extractAudio.None? && env.transcribe.Success? && env.openClient.None? && KeywordsOf(env).Success?
            && TimelineOf(env).Failure? ==>
            o == FailedAfter(4, TimelineOf(env).error))
      && (env.extractAudio.None? && env.transcribe.Success? && env.openClient.None? && KeywordsOf(env).Success?
            && TimelineOf(env).Success? && env.encode(TimelineOf(env).value).Some? ==>
            o == FailedAfter(5, env.encode(TimelineOf(env).value).value))
  {
  }

  /**
   * A completed job has a timeline with one clip per transcribed segment,
   * each playing that segment's audio, and every batch reply and every
   * segment decision succeeded.
   */
  lemma FinishedJobCoversTranscript(env: Environment)
    requires CoinsCoverSegments(env)
    requires RunPipeline(env).Finished?
    ensures env.extractAudio == None && env.openClient == None && env.transcribe.Success?
    ensures var segments := env.transcribe.value;
      && |RunPipeline(env).clips| == |segments|
      && (forall b :: 0 <= b < |SplitArray(Texts(segments), MaxBatch)| ==> env.keywordReply(b).Success?)
      && (forall j :: 0 <= j < |segments| ==>
            AudioRange(RunPipeline(env).clips[j]) == (segments[j].start, segments[j].end))
      && env.encode(RunPipeline(env).clips) == None
  {
    var segments := env.transcribe.value;
    var brollInfo := Collect(|SplitArray(Texts(segments), MaxBatch)|, env.keywordReply).value;
    TimelineKeepsSpeech(segments, brollInfo, env.coins, env.search, env.download);
  }

  /** The number of progress writes of a job that does not fail (app.py lines 56, 62, 69, 87 and 114). */
  const StageCount: nat := 5

  /** The first `m` progress writes: stage `i` reports `20 * i` percent. */
  function Checkpoints(m: nat): (t: seq<Record>)
    requires m <= StageCount
    ensures |t| == m
    ensures forall i :: 0 <= i < m ==> t[i] == Processing(20 * i)
  {
    if m == 0 then [] else Checkpoints(m - 1) + [Processing(20 * (m - 1))]
  }

  /** Every record the job writes, in order. */
  function Trace(o: JobOutcome, output: string): (t: seq<Record>)
    requires o.FailedAfter? ==> 1 <= o.checkpoints <= 5
    ensures |t| == (if o.Finished? then StageCount else o.checkpoints) + 1
    ensures forall i :: 0 <= i < |t| - 1 ==> t[i] == Processing(20 * i)
    ensures t[|t| - 1].Completed? || t[|t| - 1].Error?
  {
    match o
    case Finished(_) => Checkpoints(StageCount) + [Completed(100, output)]
    case FailedAfter(m, e) => Checkpoints(m) + [Error(e)]
  }

  function FinalRecord(o: JobOutcome, output: string): (record: Record)
    requires o.FailedAfter? ==> 1 <= o.checkpoints <= 5
    ensures o.Finished? <==> record == Completed(100, output)
    ensures o.FailedAfter? <==> record.Error?
    ensures o.FailedAfter? ==> record.error == o.message
  {
    var t := Trace(o, output);
    t[|t| - 1]
  }

  /**
   * A job's records start at processing/0, progress strictly increases, only
   * the last record is terminal, and it is completed/100 with the output
   * exactly when the job finished, or the error otherwise.
   */
  lemma TraceIsMonotone(o: JobOutcome, output: string)
    requires o.FailedAfter? ==> 1 <= o.checkpoints <= 5
    ensures var t := Trace(o, output);
      && t[0] == Processing(0)
      && (forall i :: 0 <= i < |t| - 1 ==> t[i].Processing?)
      && (forall i, j :: 0 <= i < j < |t| && ProgressOf(t[j]).Some? ==>
            ProgressOf(t[i]).Some? && ProgressOf(t[i]).value < ProgressOf(t[j]).value)
      && (t[|t| - 1] == Completed(100, output) <==> o.Finished?)
      && (o.FailedAfter? ==> t[|t| - 1] == Error(o.message))
  {
  }

  /** The stages after the keyword requests as written: the segment loop draws its coin from `random`. */
  function AfterKeywordsAsWritten(env: Environment, segments: seq<Segment>): (o: JobOutcome)
    ensures o.FailedAfter? ==> o.checkpoints == 4 || o.checkpoints == 5
    ensures segments == [] ==> o == AfterTimeline(env, [])
    ensures segments != [] ==> o == FailedAfter(4, "name 'random' is not defined")
  {
    match TimelineAsWritten(segments)
    case Failure(e) => FailedAfter(4, e)
    case Success(clips) => AfterTimeline(env, clips)
  }

  /** The whole job as written: the same stages, with the segment loop as written. */
  function RunPipelineAsWritten(env: Environment): (o: JobOutcome)
    ensures o.FailedAfter? ==> 1 <= o.checkpoints <= 5
  {
    if env.extractAudio.Some? then FailedAfter(1, env.extractAudio.value)
    else
      match env.transcribe
      case Failure(e) => FailedAfter(2, e)
      case Success(segments) =>
        if env.openClient.Some? then FailedAfter(3, env.openClient.value)
        else
          match Collect(|SplitArray(Texts(segments), MaxBatch)|, env.keywordReply)
          case Failure(e) => FailedAfter(3, e)
          case Success(_) => AfterKeywordsAsWritten(env, segments)
  }

  /**
   * As written, a job whose stages before the segment loop succeed and whose
   * transcript has a segment writes progress 0, 20, 40 and 60 and then ends
   * as error "name 'random' is not defined", which is also what the status
   * route keeps reporting; a job that fails before the loop, or whose
   * transcript is empty (the loop body, and so the coin, is never reached),
   * ends as the intended job does; and no job with a segment ever finishes.
   */
  lemma RandomNameErrorEndsJob(env: Environment, output: string)
    requires CoinsCoverSegments(env)
    ensures var o := RunPipelineAsWritten(env);
      && (env.transcribe.Success? && env.transcribe.value != [] ==> o.FailedAfter?)
      && (env.extractAudio.None? && env.transcribe.Success? && env.transcribe.value != []
            && env.openClient.None? && KeywordsOf(env).Success? ==>
            && o == FailedAfter(4, "name 'random' is not defined")
            && Trace(o, output)
                 == [Processing(0), Processing(20), Processing(40), Processing(60), Error("name 'random' is not defined")]
            && FinalRecord(o, output) == Error("name 'random' is not defined"))
      && (|| env.extractAudio.Some? || env.transcribe.Failure? || env.openClient.Some?
          || (env.transcribe.Success? && KeywordsOf(env).Failure?) ==>
            o == RunPipeline(env))
      && (env.transcribe.Success? && env.transcribe.value == [] ==> o == RunPipeline(env))
  {
    var t := Trace(FailedAfter(4, "name 'random' is not defined"), output);
    assert Checkpoints(4) == [Processing(0), Processing(20), Processing(40), Processing(60)];
    assert t == Checkpoints(4) + [Error("name 'random' is not defined")];
  }

  /** Tags every record of `t` with the job it belongs to. */
  function Stamp(taskId: string, t: seq<Record>): (w: seq<(string, Record)>)
    ensures |w| == |t|
    ensures forall i :: 0 <= i < |t| ==> w[i] == (taskId, t[i])
  {
    seq(|t|, i requires 0 <= i < |t| => (taskId, t[i]))
  }

  /** The map that results from the writes `w`, applied in order to an empty map. */
  ghost function Replay(w: seq<(string, Record)>): map<string, Record>
  {
    if w == [] then map[] else Replay(w[..|w| - 1])[w[|w| - 1].0 := w[|w| - 1].1]
  }

  /** Appending one write to the log extends the job's stamped trace by that record. */
  lemma AppendWrite(before: seq<(string, Record)>, taskId: string, t: seq<Record>, record: Record)
    ensures before + Stamp(taskId, t) + [(taskId, record)] == before + Stamp(taskId, t + [record])
  {
    assert Stamp(taskId, t + [record]) == Stamp(taskId, t) + [(taskId, record)];
  }

  /** Writing a key twice leaves only the second value. */
  lemma Overwrite<K, V>(m: map<K, V>, k: K, first: V, second: V)
    ensures m[k := first][k := second] == m[k := second]
  {
  }

  /** The shared `processing_status` dictionary. */
  class StatusStore {
    var processingStatus: map<string, Record>
    /** Every write made to the map, in order. */
    ghost var writes: seq<(string, Record)>

    ghost predicate Valid()
      reads this
    {
      && processingStatus == Replay(writes)
      && forall id :: id in processingStatus ==> WellFormed(processingStatus[id])
    }

    constructor ()
      ensures Valid()
      ensures processingStatus == map[] && writes == []
    {
      processingStatus := map[];
      writes := [];
    }

    method Write(taskId: string, record: Record)
      requires Valid() && WellFormed(record)
      modifies this
      ensures Valid()
      ensures processingStatus == old(processingStatus)[taskId := record]
      ensures writes == old(writes) + [(taskId, record)]
    {
      processingStatus := processingStatus[taskId := record];
      writes := writes + [(taskId, record)];
      assert writes[..|writes| - 1] == old(writes);
    }

    /** The worker's first write: the record is (re)created as processing/0. */
    method Start(taskId: string)
      requires Valid()
      modifies this
      ensures Valid()
      ensures processingStatus == old(processingStatus)[taskId := Processing(0)]
      ensures writes == old(writes) + [(taskId, Processing(0))]
    {
      Write(taskId, Processing(0));
    }

    /** A progress checkpoint: the record's `progress` field is overwritten in place. */
    method SetProgress(taskId: string, progress: int)
      requires Valid() && 0 <= progress <= 100
      requires taskId in processingStatus && processingStatus[taskId].Processing?
      modifies this
      ensures Valid()
      ensures processingStatus == old(processingStatus)[taskId := Processing(progress)]
      ensures writes == old(writes) + [(taskId, Processing(progress))]
    {
      Write(taskId, Processing(progress));
    }

    /** The success write: the record is replaced by completed/100 with the output path. */
    method Complete(taskId: string, output: string)
      requires Valid()
      modifies this
      ensures Valid()
      ensures processingStatus == old(processingStatus)[taskId := Completed(100, output)]
      ensures writes == old(writes) + [(taskId, Completed(100, output))]
    {
      Write(taskId, Completed(100, output));
    }

    /** The exception handler's write: the record is replaced by the error and its message. */
    method Fail(taskId: string, message: string)
      requires Valid()
      modifies this
      ensures Valid()
      ensures processingStatus == old(processingStatus)[taskId := Error(message)]
      ensures writes == old(writes) + [(taskId, Error(message))]
    {
      Write(taskId, Error(message));
    }

    /** The status route: the stored record unchanged, or not_found. */
    function GetStatus(taskId: string): (r: StatusReply)
      reads this
      ensures r.Known? <==> taskId in processingStatus
      ensures r.Known? ==> r.record == processingStatus[taskId]
      ensures Valid() && r.Known? ==> WellFormed(r.record)
    {
      if taskId in processingStatus then Known(processingStatus[taskId]) else NotFound
    }

    /** The download route: the output only for a completed record, otherwise a 404. */
    function DownloadFile(taskId: string): (r: DownloadReply)
      reads this
      ensures r.Attachment? <==> taskId in processingStatus && processingStatus[taskId].Completed?
      ensures r.Attachment? ==> r.path == processingStatus[taskId].output
      ensures r.NotReady? ==> r == NotReady(404, "File not ready or not found")
    {
      if taskId in processingStatus && processingStatus[taskId].Completed? then
        Attachment(processingStatus[taskId].output)
      else
        NotReady(404, "File not ready or not found")
    }

    /**
     * One job, run to its end: the progress checkpoints, the keyword batch
     * loop, the segment loop and the final write, with any exception turning
     * the record into an error.
     */
    method ProcessVideo(taskId: string, env: Environment)
      requires Valid() && CoinsCoverSegments(env)
      modifies this
      ensures Valid()
      ensures writes == old(writes) + Stamp(taskId, Trace(RunPipeline(env), OutputPath(taskId)))
      ensures processingStatus == old(processingStatus)[taskId := FinalRecord(RunPipeline(env), OutputPath(taskId))]
      ensures GetStatus(taskId) == Known(FinalRecord(RunPipeline(env), OutputPath(taskId)))
      ensures DownloadFile(taskId).Attachment? <==> RunPipeline(env).Finished?
    {
      RunStages(taskId, env);
    }

    /** The worker's writes, from the first record to the final one. */
    method RunStages(taskId: string, env: Environment)
      requires Valid() && CoinsCoverSegments(env)
      modifies this
      ensures Valid()
      ensures writes == old(writes) + Stamp(taskId, Trace(RunPipeline(env), OutputPath(taskId)))
      ensures processingStatus == old(processingStatus)[taskId := FinalRecord(RunPipeline(env), OutputPath(taskId))]
    {
      ghost var before, initial := writes, processingStatus;
      Start(taskId);
      AppendWrite(before, taskId, Checkpoints(0), Processing(0));
      match env.extractAudio {
        case Some(e) =>
          Fail(taskId, e);
          AppendWrite(before, taskId, Checkpoints(1), Error(e));
          Overwrite(initial, taskId, Processing(0), Error(e));
        case None =>
          SetProgress(taskId, 20);
          AppendWrite(before, taskId, Checkpoints(1), Processing(20));
          Overwrite(initial, taskId, Processing(0), Processing(20));
          ghost var final := FinalRecord(AfterAudio(env), OutputPath(taskId));
          ProcessAudio(taskId, env, before);
          Overwrite(initial, taskId, Processing(20), final);
      }
    }

    /** The stages after audio extraction, from transcription to the final write. */
    method ProcessAudio(taskId: string, env: Environment, ghost before: seq<(string, Record)>)
      requires Valid() && CoinsCoverSegments(env)
      requires taskId in processingStatus && processingStatus[taskId] == Processing(20)
      requires writes == before + Stamp(taskId, Checkpoints(2))
      modifies this
      ensures Valid()
      ensures writes == before + Stamp(taskId, Trace(AfterAudio(env), OutputPath(taskId)))
      ensures processingStatus == old(processingStatus)[taskId := FinalRecord(AfterAudio(env), OutputPath(taskId))]
    {
      match env.transcribe {
        case Failure(e) =>
          Fail(taskId, e);
          AppendWrite(before, taskId, Checkpoints(2), Error(e));
        case Success(segments) =>
          ghost var initial := processingStatus;
          SetProgress(taskId, 40);
          AppendWrite(before, taskId, Checkpoints(2), Processing(40));
          ghost var final := FinalRecord(AfterTranscript(env, segments), OutputPath(taskId));
          ProcessTranscript(taskId, env, segments, before);
          Overwrite(initial, taskId, Processing(40), final);
      }
    }

    /** The stages after transcription, from the keyword requests to the final write. */
    method ProcessTranscript(taskId: string, env: Environment, segments: seq<Segment>, ghost before: seq<(string, Record)>)
      requires Valid() && |env.coins| == |segments|
      requires taskId in processingStatus && processingStatus[taskId] == Processing(40)
      requires writes == before + Stamp(taskId, Checkpoints(3))
      modifies this
      ensures Valid()
      ensures writes == before + Stamp(taskId, Trace(AfterTranscript(env, segments), OutputPath(taskId)))
      ensures processingStatus == old(processingStatus)[taskId := FinalRecord(AfterTranscript(env, segments), OutputPath(taskId))]
    {
      match env.openClient {
        case Some(e) =>
          Fail(taskId, e);
          AppendWrite(before, taskId, Checkpoints(3), Error(e));
        case None =>
          var batches := SplitArray(Texts(segments), MaxBatch);
          var keywords := CollectKeywords(|batches|, env.keywordReply);
          match keywords {
            case Failure(e) =>
              Fail(taskId, e);
              AppendWrite(before, taskId, Checkpoints(3), Error(e));
            case Success(brollInfo) =>
              ghost var initial := processingStatus;
              SetProgress(taskId, 60);
              AppendWrite(before, taskId, Checkpoints(3), Processing(60));
              ghost var final := FinalRecord(AfterKeywords(env, segments, brollInfo), OutputPath(taskId));
              ProcessKeywords(taskId, env, segments, brollInfo, before);
              Overwrite(initial, taskId, Processing(60), final);
          }
      }
    }

    /** The stages after the keyword requests, from the segment loop to the final write. */
    method ProcessKeywords(taskId: string, env: Environment, segments: seq<Segment>, brollInfo: seq<Annotation>,
                           ghost before: seq<(string, Record)>)
      requires Valid() && |env.coins| == |segments|
      requires taskId in processingStatus && processingStatus[taskId] == Processing(60)
      requires writes == before + Stamp(taskId, Checkpoints(4))
      modifies this
      ensures Valid()
      ensures writes == before + Stamp(taskId, Trace(AfterKeywords(env, segments, brollInfo), OutputPath(taskId)))
      ensures processingStatus == old(processingStatus)[taskId := FinalRecord(AfterKeywords(env, segments, brollInfo), OutputPath(taskId))]
    {
      var timeline := AssembleTimeline(segments, brollInfo, env.coins, env.search, env.download);
      match timeline {
        case Failure(e) =>
          Fail(taskId, e);
          AppendWrite(before, taskId, Checkpoints(4), Error(e));
        case Success(clips) =>
          ghost var initial := processingStatus;
          SetProgress(taskId, 80);
          AppendWrite(before, taskId, Checkpoints(4), Processing(80));
          ghost var final := FinalRecord(AfterTimeline(env, clips), OutputPath(taskId));
          ProcessClips(taskId, env, clips, before);
          Overwrite(initial, taskId, Processing(80), final);
      }
    }

    /** The last stage: encoding the clips, then the completed record. */
    method ProcessClips(taskId: string, env: Environment, clips: seq<Clip>, ghost before: seq<(string, Record)>)
      requires Valid()
      requires taskId in processingStatus && processingStatus[taskId] == Processing(80)
      requires writes == before + Stamp(taskId, Checkpoints(StageCount))
      modifies this
      ensures Valid()
      ensures writes == before + Stamp(taskId, Trace(AfterTimeline(env, clips), OutputPath(taskId)))
      ensures processingStatus == old(processingStatus)[taskId := FinalRecord(AfterTimeline(env, clips), OutputPath(taskId))]
    {
      var output := OutputPath(taskId);
      match env.encode(clips) {
        case Some(e) =>
          Fail(taskId, e);
          AppendWrite(before, taskId, Checkpoints(StageCount), Error(e));
        case None =>
          Complete(taskId, output);
          AppendWrite(before, taskId, Checkpoints(StageCount), Completed(100, output));
      }
    }
  }
}

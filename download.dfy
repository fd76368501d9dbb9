/** Model downloads (`infrastructure/ModelDownloadService.kt`). The file
    system is a map from file path to length plus a set of directory paths;
    every HTTP request is an input, `network(url, k)` being the outcome of
    attempt k on url; each `delay` is recorded in the service's `delays`. */
module ModelDownload {
  import opened Wrappers
  import opened Text
  import opened RemoteModels

  const MaxRetries: nat := 3
  const MinValidSize: nat := 1024

  /** The size of a Kotlin `ByteArray`. */
  type ByteCount = x: int | 0 <= x <= MaxInt32

  /** A thrown exception, by its (possibly null) message. */
  datatype Error = Error(message: Option<string>)

  datatype DownloadState = DownloadState(
    model: RemoteModel,
    progress: Int32 := 0,
    bytesDownloaded: Int64 := 0,
    totalBytes: Int64 := 0,
    isComplete: bool := false,
    isFailed: bool := false,
    error: Option<Error> := None,
    status: string := "Starting download...")

  /** `DownloadState(model)`: nothing done yet. */
  function InitialState(m: RemoteModel): (s: DownloadState)
    ensures s.model == m && s.progress == 0 && s.bytesDownloaded == 0 && s.totalBytes == 0
    ensures !s.isComplete && !s.isFailed && s.error.None? && s.status == "Starting download..."
  {
    DownloadState(m)
  }

  /** How a string template renders an exception message. */
  function MessageText(message: Option<string>): string
  {
    message.GetOr("null")
  }

  // ---------------------------------------------------------------- layout

  /** `getModelDirectory`: `<base>/start/<languageTag>/<name>`. */
  function ModelDirectory(base: string, m: RemoteModel): string
  {
    base + "/start/" + m.languageTag + "/" + m.name
  }

  /** The version as a string template renders it, "null" when absent. */
  function VersionText(v: Option<Int32>): string
  {
    match v
    case Some(n) => IntToString(n)
    case None => "null"
  }

  /** `"${model.name}_v${model.version}<ext>"`, the name every file
      operation of the service uses. */
  function StoredFilename(m: RemoteModel, ext: string): string
  {
    m.name + "_v" + VersionText(m.version) + ext
  }

  function OnnxPath(base: string, m: RemoteModel): string
  {
    ModelDirectory(base, m) + "/" + StoredFilename(m, ".onnx")
  }

  function TflitePath(base: string, m: RemoteModel): string
  {
    ModelDirectory(base, m) + "/" + StoredFilename(m, ".tflite")
  }

  /** The directory depends on language and name only, and (for names and
      tags without '/') it determines them. */
  lemma {:induction false} ModelDirectoryLayout(base: string, m: RemoteModel, m': RemoteModel)
    requires '/' !in m.languageTag && '/' !in m'.languageTag
    ensures m'.languageTag == m.languageTag && m'.name == m.name ==> ModelDirectory(base, m') == ModelDirectory(base, m)
    ensures ModelDirectory(base, m') == ModelDirectory(base, m) ==> m'.languageTag == m.languageTag && m'.name == m.name
  {
    if ModelDirectory(base, m') == ModelDirectory(base, m) {
      var p := base + "/start/";
      var s, s' := m.languageTag + "/" + m.name, m'.languageTag + "/" + m'.name;
      assert ModelDirectory(base, m) == p + s && ModelDirectory(base, m') == p + s';
      assert s == (p + s)[|p|..] && s' == (p + s')[|p|..];
      SlashSplit(m.languageTag, m.name, m'.languageTag, m'.name);
    }
  }

  lemma SlashSplit(a: string, b: string, a': string, b': string)
    requires '/' !in a && '/' !in a' && a + "/" + b == a' + "/" + b'
    ensures a == a' && b == b'
  {
    var s := a + "/" + b;
    assert s[|a|] == '/' && s[|a'|] == '/';
    assert forall i :: 0 <= i < |a| ==> s[i] == a[i];
    assert forall i :: 0 <= i < |a'| ==> s[i] == a'[i];
    assert |a| == |a'|;
    assert a == s[..|a|] && a' == (a' + "/" + b')[..|a'|];
    assert b == s[|a| + 1..] && b' == (a' + "/" + b')[|a'| + 1..];
  }

  /** For a versioned model the stored files carry `RemoteModel`'s file
      names. */
  lemma StoredFilenamesOfVersionedModel(m: RemoteModel)
    requires m.version.Some?
    ensures StoredFilename(m, ".onnx") == OnnxFilename(m)
    ensures StoredFilename(m, ".tflite") == TfliteFilename(m)
  {
  }

  /** For an unversioned model they do not: the template renders "null". */
  lemma StoredFilenamesOfUnversionedModel(m: RemoteModel)
    requires m.version.None?
    ensures StoredFilename(m, ".onnx") == m.name + "_vnull.onnx"
    ensures StoredFilename(m, ".onnx") != OnnxFilename(m)
  {
    var s := StoredFilename(m, ".onnx");
    assert s == m.name + "_vnull.onnx";
    assert |s| != |OnnxFilename(m)|;
  }

  // ----------------------------------------------------- file system checks

  /** `isModelAlreadyDownloaded`: both files exist and are non-empty. */
  predicate AlreadyDownloaded(files: map<string, nat>, base: string, m: RemoteModel)
  {
    OnnxPath(base, m) in files && files[OnnxPath(base, m)] > 0
    && TflitePath(base, m) in files && files[TflitePath(base, m)] > 0
  }

  /** `validateDownloadedFiles`: existence, then non-emptiness, then the
      minimum size, each for both files. */
  function ValidateDownloadedFiles(files: map<string, nat>, base: string, m: RemoteModel): (ok: bool)
    ensures ok <==>
      OnnxPath(base, m) in files && TflitePath(base, m) in files
      && files[OnnxPath(base, m)] >= MinValidSize && files[TflitePath(base, m)] >= MinValidSize
  {
    var onnx, tflite := OnnxPath(base, m), TflitePath(base, m);
    if onnx !in files || tflite !in files then false
    else if files[onnx] == 0 || files[tflite] == 0 then false
    else if files[onnx] < MinValidSize || files[tflite] < MinValidSize then false
    else true
  }

  function LengthIfExists(files: map<string, nat>, path: string): nat
  {
    if path in files then files[path] else 0
  }

  /** What `getExistingModelSize` sums: the lengths of the files that exist. */
  function ExistingModelSize(files: map<string, nat>, base: string, m: RemoteModel): Int64
  {
    Wrap64(LengthIfExists(files, OnnxPath(base, m)) + LengthIfExists(files, TflitePath(base, m)))
  }

  /** No file or directory lies below d. */
  predicate DirEmpty(files: map<string, nat>, dirs: set<string>, d: string)
  {
    (forall f :: f in files ==> !StartsWith(f, d + "/")) && (forall e :: e in dirs ==> !StartsWith(e, d + "/"))
  }

  /** `cleanupPartialDownload`: both files go, then the model directory if
      it exists and is empty. */
  function CleanupSpec(files: map<string, nat>, dirs: set<string>, base: string, m: RemoteModel): (map<string, nat>, set<string>)
  {
    var dir := ModelDirectory(base, m);
    var files' := files - {OnnxPath(base, m), TflitePath(base, m)};
    var dirs' := if dir in dirs && DirEmpty(files', dirs, dir) then dirs - {dir} else dirs;
    (files', dirs')
  }

  /** Cleanup removes the two model files and nothing else, and the model
      directory exactly when it exists and nothing is left below it. */
  lemma CleanupEffect(files: map<string, nat>, dirs: set<string>, base: string, m: RemoteModel)
    ensures var r := CleanupSpec(files, dirs, base, m);
      && OnnxPath(base, m) !in r.0 && TflitePath(base, m) !in r.0
      && (forall p :: p != OnnxPath(base, m) && p != TflitePath(base, m) ==> (p in r.0 <==> p in files) && (p in r.0 ==> r.0[p] == files[p]))
      && (forall d :: d != ModelDirectory(base, m) ==> (d in r.1 <==> d in dirs))
      && (ModelDirectory(base, m) in r.1 <==> ModelDirectory(base, m) in dirs && !DirEmpty(r.0, dirs, ModelDirectory(base, m)))
  {
  }

  /** The directories `mkdirs` creates for a model. */
  function ModelDirectories(base: string, m: RemoteModel): set<string>
  {
    {base + "/start", base + "/start/" + m.languageTag, ModelDirectory(base, m)}
  }

  // -------------------------------------------------------------- progress

  /** Progress during the ONNX file: `(cur * 50 / total).toInt()`, 0 when the
      length is unknown. `cur` is an `Int` byte count, so the `Long`
      product cannot overflow; the final `toInt` can wrap. */
  function OnnxProgress(cur: ByteCount, total: Int64): (p: Int32)
    ensures total <= 0 ==> p == 0
    ensures 0 < total && cur <= total ==> 0 <= p <= 50 && p == cur * 50 / total
  {
    if total > 0 then
      if cur <= total then
        ScaledAtMostFifty(cur, total);
        cur * 50 / total
      else Wrap32(cur * 50 / total)
    else 0
  }

  lemma ScaledAtMostFifty(cur: nat, total: int)
    requires 0 < total && cur <= total
    ensures 0 <= cur * 50 / total <= 50
  {
    var q := cur * 50 / total;
    assert q * total <= cur * 50 <= 50 * total;
    PositiveFactor(q - 50, total);
  }

  lemma PositiveFactor(x: int, t: int)
    requires t > 0 && x * t <= 0
    ensures x <= 0
  {
  }

  /** Progress during the TFLite file: `50 + (cur * 50 / total).toInt()` in
      `Int` arithmetic, 50 when the length is unknown, capped at 99. */
  function TfliteProgress(cur: ByteCount, total: Int64): (p: Int32)
    ensures p <= 99
    ensures total <= 0 ==> p == 50
    ensures 0 < total && cur <= total ==> 50 <= p <= 99
  {
    var raw: Int32 := if total > 0 then Wrap32(50 + Wrap32(cur * 50 / total)) else 50;
    var capped: Int32 := if raw > 99 then 99 else raw;
    assert 0 < total && cur <= total ==> 50 <= capped by {
      if 0 < total && cur <= total { ScaledAtMostFifty(cur, total); }
    }
    capped
  }

  /** For a known length that the body does not exceed nothing wraps: the
      TFLite progress is `50 + cur * 50 / total`, capped at 99. */
  lemma TfliteProgressValue(cur: ByteCount, total: Int64)
    requires 0 < total && cur <= total
    ensures TfliteProgress(cur, total) == (if 50 + cur * 50 / total > 99 then 99 else 50 + cur * 50 / total)
  {
    ScaledAtMostFifty(cur, total);
  }

  // ----------------------------------------------------------------- retry

  /** The outcome of one attempt: the response's Content-Length header and
      body size, or the exception it raised. */
  datatype Attempt = Received(contentLength: Option<string>, size: ByteCount) | Failed(message: Option<string>)

  /** What `downloadFileWithProgress` reports: the bytes written and the
      total passed to the progress callback, or the exception it rethrows. */
  datatype Fetch = Fetched(size: ByteCount, total: Int64) | GaveUp(message: Option<string>)

  /** `headers["Content-Length"]?.toLongOrNull() ?: -1`. */
  function ContentLength(header: Option<string>): Int64
  {
    match header
    case None => -1
    case Some(h) => ToLongOrNull(h).GetOr(-1)
  }

  /** The result of the retry loop from attempt k on. */
  function RetryFrom(url: string, network: (string, nat) -> Attempt, k: nat): Fetch
    requires k < MaxRetries
    decreases MaxRetries - k
  {
    match network(url, k)
    case Received(header, size) => Fetched(size, ContentLength(header))
    case Failed(message) => if k < MaxRetries - 1 then RetryFrom(url, network, k + 1) else GaveUp(message)
  }

  /** The delays of the retry loop from attempt k on. */
  function RetryDelays(url: string, network: (string, nat) -> Attempt, k: nat): seq<int>
    requires k < MaxRetries
    decreases MaxRetries - k
  {
    match network(url, k)
    case Received(_, _) => []
    case Failed(_) => if k < MaxRetries - 1 then [1000 * (k + 1)] + RetryDelays(url, network, k + 1) else []
  }

  /** At most three attempts: the first that succeeds is used; after failed
      attempt k, except the last, the loop waits 1000*(k+1) ms; when all
      fail, the last exception is rethrown. */
  lemma RetryBehaviour(url: string, network: (string, nat) -> Attempt)
    ensures RetryFrom(url, network, 0).Fetched? <==> exists k :: 0 <= k < MaxRetries && network(url, k).Received?
    ensures RetryFrom(url, network, 0).GaveUp? ==>
      RetryFrom(url, network, 0).message == network(url, 2).message && RetryDelays(url, network, 0) == [1000, 2000]
    ensures RetryDelays(url, network, 0) <= [1000, 2000]
    ensures network(url, 0).Received? ==> RetryDelays(url, network, 0) == [] && RetryFrom(url, network, 0) == Fetched(network(url, 0).size, ContentLength(network(url, 0).contentLength))
  {
    if network(url, 0).Failed? {
      if network(url, 1).Failed? {
        assert RetryDelays(url, network, 1) == [2000] + RetryDelays(url, network, 2);
      }
    }
  }

  // --------------------------------------------------------- downloadModel

  /** A failed download's last state. */
  function FailedState(s: DownloadState, message: Option<string>): DownloadState
  {
    s.(isFailed := true, error := Some(Error(message)), status := "Download failed: " + MessageText(message))
  }

  /** What `downloadModel` emits and leaves behind. */
  datatype Outcome = Outcome(emitted: seq<DownloadState>, files: map<string, nat>, dirs: set<string>, delays: seq<int>)

  /** The states `downloadModel` moves through, one function per update. */
  function AlreadyComplete(m: RemoteModel, size: Int64): DownloadState
  {
    DownloadState(m).(progress := 100, isComplete := true, bytesDownloaded := size, totalBytes := size)
  }

  function OnnxStarted(m: RemoteModel): DownloadState
  {
    DownloadState(m).(status := "Downloading ONNX file...")
  }

  /** After the ONNX body arrives, the totals double the announced length. */
  function OnnxWritten(s: DownloadState, size: ByteCount, total: Int64): DownloadState
  {
    s.(progress := OnnxProgress(size, total), bytesDownloaded := size, totalBytes := Wrap64(total * 2))
  }

  function TfliteStarted(s: DownloadState): DownloadState
  {
    s.(status := "Downloading TFLite file...", progress := 50)
  }

  function TfliteWritten(s: DownloadState, onnxSize: ByteCount, size: ByteCount, total: Int64): DownloadState
  {
    s.(progress := TfliteProgress(size, total), bytesDownloaded := onnxSize + size, totalBytes := Wrap64(onnxSize + total))
  }

  function Completed(s: DownloadState, onnxSize: ByteCount, size: ByteCount): DownloadState
  {
    s.(progress := 100, isComplete := true, bytesDownloaded := onnxSize + size, totalBytes := onnxSize + size,
       status := "Download complete")
  }

  /** What the `try` block of `downloadModel` does: the states it emits and
      either the final state it reaches or the exception it throws, with the
      files it wrote and the delays it waited. */
  datatype TryOutcome =
    | Completes(emitted: seq<DownloadState>, final: DownloadState, files: map<string, nat>, delays: seq<int>)
    | Throws(emitted: seq<DownloadState>, error: Error, files: map<string, nat>, delays: seq<int>)

  /** The `try` block: ONNX file, TFLite file, validation. */
  function TrySpec(base: string, files: map<string, nat>, m: RemoteModel, network: (string, nat) -> Attempt): TryOutcome
  {
    var s1 := OnnxStarted(m);
    match RetryFrom(m.onnxUrl, network, 0)
    case GaveUp(message) => Throws([s1], Error(message), files, RetryDelays(m.onnxUrl, network, 0))
    case Fetched(onnxSize, onnxTotal) =>
      var s2 := OnnxWritten(s1, onnxSize, onnxTotal);
      var s3 := TfliteStarted(s2);
      var files2 := files[OnnxPath(base, m) := onnxSize];
      var delays := RetryDelays(m.onnxUrl, network, 0) + RetryDelays(m.tfliteUrl, network, 0);
      match RetryFrom(m.tfliteUrl, network, 0)
      case GaveUp(message) => Throws([s1, s2, s3], Error(message), files2, delays)
      case Fetched(tfliteSize, tfliteTotal) =>
        var s4 := TfliteWritten(s3, onnxSize, tfliteSize, tfliteTotal);
        var files3 := files2[TflitePath(base, m) := tfliteSize];
        if ValidateDownloadedFiles(files3, base, m)
        then Completes([s1, s2, s3, s4], Completed(s4, onnxSize, tfliteSize), files3, delays)
        else Throws([s1, s2, s3, s4], Error(Some("Downloaded files failed validation")), files3, delays)
  }

  /** The flow of `downloadModel`, from the file system it starts on: the
      shortcut for a model already present, else the directory, the `try`
      block, and on an exception the failed state and the cleanup. */
  function DownloadSpec(base: string, files: map<string, nat>, dirs: set<string>, m: RemoteModel, network: (string, nat) -> Attempt): Outcome
  {
    if AlreadyDownloaded(files, base, m) then
      Outcome([DownloadState(m), AlreadyComplete(m, ExistingModelSize(files, base, m))], files, dirs, [])
    else
      var dirs1 := if ModelDirectory(base, m) in dirs then dirs else dirs + ModelDirectories(base, m);
      match TrySpec(base, files, m, network)
      case Completes(emitted, final, files', delays) =>
        Outcome([DownloadState(m)] + emitted + [final], files', dirs1, delays)
      case Throws(emitted, error, files', delays) =>
        var r := CleanupSpec(files', dirs1, base, m);
        Outcome([DownloadState(m)] + emitted + [FailedState(Last(emitted), error.message)], r.0, r.1, delays)
  }

  function Last<T>(s: seq<T>): T
    requires |s| > 0
  {
    s[|s| - 1]
  }

  predicate Running(s: DownloadState)
  {
    !s.isComplete && !s.isFailed
  }

  /** The `try` block emits only running states; it completes with progress
      100, or throws after at least one emission. */
  lemma TryEmitsRunningStates(base: string, files: map<string, nat>, m: RemoteModel, network: (string, nat) -> Attempt)
    ensures var t := TrySpec(base, files, m, network);
      && |t.emitted| > 0 && t.emitted[0] == OnnxStarted(m)
      && (forall i :: 0 <= i < |t.emitted| ==> Running(t.emitted[i]))
      && (t.Completes? ==> t.final.isComplete && !t.final.isFailed && t.final.progress == 100 && t.final.error.None?)
  {
  }

  /** The flow starts from the initial state and ends in exactly one of
      complete (with progress 100) or failed (with the failure status);
      every earlier state is neither. */
  lemma DownloadEndsInOneTerminalState(base: string, files: map<string, nat>, dirs: set<string>, m: RemoteModel, network: (string, nat) -> Attempt)
    ensures var o := DownloadSpec(base, files, dirs, m, network);
      && |o.emitted| >= 2 && o.emitted[0] == InitialState(m)
      && (forall i :: 0 <= i < |o.emitted| - 1 ==> Running(o.emitted[i]))
      && var last := Last(o.emitted);
         (last.isComplete && !last.isFailed && last.progress == 100 && last.error.None?)
         || (last.isFailed && !last.isComplete && last.error.Some?
             && last.status == "Download failed: " + MessageText(last.error.value.message))
  {
    if !AlreadyDownloaded(files, base, m) {
      TryEmitsRunningStates(base, files, m, network);
      var t := TrySpec(base, files, m, network);
      var o := DownloadSpec(base, files, dirs, m, network);
      var prefix := [DownloadState(m)] + t.emitted;
      assert o.emitted[..|o.emitted| - 1] == prefix;
      assert forall i :: 0 <= i < |prefix| ==> Running(prefix[i]);
    }
  }

  /** An already downloaded model is reported complete at once, with the
      sum of the existing lengths, and nothing is fetched or changed. */
  lemma AlreadyDownloadedSkipsFetch(base: string, files: map<string, nat>, dirs: set<string>, m: RemoteModel, network: (string, nat) -> Attempt)
    requires AlreadyDownloaded(files, base, m)
    ensures var o := DownloadSpec(base, files, dirs, m, network);
      && |o.emitted| == 2 && o.files == files && o.dirs == dirs && o.delays == []
      && o.emitted[1].progress == 100 && o.emitted[1].isComplete
      && o.emitted[1].bytesDownloaded == o.emitted[1].totalBytes
         == Wrap64(files[OnnxPath(base, m)] + files[TflitePath(base, m)])
  {
  }

  /** A completed download leaves two valid files behind. */
  lemma CompletedDownloadIsValid(base: string, files: map<string, nat>, dirs: set<string>, m: RemoteModel, network: (string, nat) -> Attempt)
    requires !AlreadyDownloaded(files, base, m)
    requires Last(DownloadSpec(base, files, dirs, m, network).emitted).isComplete
    ensures var o := DownloadSpec(base, files, dirs, m, network);
      ValidateDownloadedFiles(o.files, base, m) && ModelDirectory(base, m) in o.dirs
  {
    TryEmitsRunningStates(base, files, m, network);
  }

  /** A failed download deletes both files, touches no other file, and
      removes the model directory exactly when nothing else is left in it. */
  lemma FailedDownloadCleansUp(base: string, files: map<string, nat>, dirs: set<string>, m: RemoteModel, network: (string, nat) -> Attempt)
    requires Last(DownloadSpec(base, files, dirs, m, network).emitted).isFailed
    ensures var o := DownloadSpec(base, files, dirs, m, network);
      && OnnxPath(base, m) !in o.files && TflitePath(base, m) !in o.files
      && (forall p :: p != OnnxPath(base, m) && p != TflitePath(base, m) ==> (p in o.files <==> p in files))
      && (ModelDirectory(base, m) in o.dirs <==> !DirEmpty(o.files, dirs + ModelDirectories(base, m), ModelDirectory(base, m)))
  {
    TryEmitsRunningStates(base, files, m, network);
    var t := TrySpec(base, files, m, network);
    assert !AlreadyDownloaded(files, base, m) && t.Throws?;
    assert forall p :: p != OnnxPath(base, m) && p != TflitePath(base, m) ==> (p in t.files <==> p in files);
    var dir := ModelDirectory(base, m);
    var dirs1 := if dir in dirs then dirs else dirs + ModelDirectories(base, m);
    CleanupEffect(t.files, dirs1, base, m);
    assert dir in dirs1;
    forall e | e in ModelDirectories(base, m)
      ensures !StartsWith(e, dir + "/")
    {
      if e != dir {
        assert |e| < |dir + "/"|;
      }
    }
  }

  /** A server whose body is never longer than the length it announces. */
  ghost predicate HonestLengths(network: (string, nat) -> Attempt)
  {
    forall url, k :: network(url, k).Received? && ContentLength(network(url, k).contentLength) > 0 ==>
      network(url, k).size <= ContentLength(network(url, k).contentLength)
  }

  /** Progress never decreases within the `try` block when lengths are
      honest, and stays below 100 until completion. */
  lemma TryProgressIsMonotone(base: string, files: map<string, nat>, m: RemoteModel, network: (string, nat) -> Attempt)
    requires HonestLengths(network)
    ensures var t := TrySpec(base, files, m, network);
      && (forall i :: 0 <= i < |t.emitted| ==> 0 <= t.emitted[i].progress < 100)
      && (forall i :: 0 < i < |t.emitted| ==> t.emitted[i - 1].progress <= t.emitted[i].progress)
      && (t.Completes? ==> Last(t.emitted).progress <= t.final.progress == 100)
  {
    var t := TrySpec(base, files, m, network);
    var s1 := OnnxStarted(m);
    RetryHonest(m.onnxUrl, network, 0);
    match RetryFrom(m.onnxUrl, network, 0)
    case GaveUp(_) =>
      assert t.emitted == [s1];
      Rising(s1, s1, s1, s1);
    case Fetched(onnxSize, onnxTotal) =>
      var s2 := OnnxWritten(s1, onnxSize, onnxTotal);
      assert 0 <= s2.progress <= 50;
      RetryHonest(m.tfliteUrl, network, 0);
      match RetryFrom(m.tfliteUrl, network, 0)
      case GaveUp(_) =>
        assert t.emitted == [s1, s2, TfliteStarted(s2)];
        Rising(s1, s2, TfliteStarted(s2), TfliteStarted(s2));
      case Fetched(tfliteSize, tfliteTotal) =>
        var s4 := TfliteWritten(TfliteStarted(s2), onnxSize, tfliteSize, tfliteTotal);
        assert 50 <= s4.progress <= 99;
        assert t.emitted == [s1, s2, TfliteStarted(s2), s4];
        Rising(s1, s2, TfliteStarted(s2), s4);
  }

  /** Four states with rising progress below 100: every prefix the `try`
      block can emit rises and stays below 100. */
  lemma Rising(a: DownloadState, b: DownloadState, c: DownloadState, d: DownloadState)
    requires 0 <= a.progress <= b.progress <= c.progress <= d.progress < 100
    ensures RisesBelowHundred([a]) && RisesBelowHundred([a, b, c]) && RisesBelowHundred([a, b, c, d])
  {
  }

  predicate RisesBelowHundred(e: seq<DownloadState>)
  {
    && (forall i :: 0 <= i < |e| ==> 0 <= e[i].progress < 100)
    && (forall i :: 0 < i < |e| ==> e[i - 1].progress <= e[i].progress)
  }

  /** With honest lengths progress never decreases, and 100 is reported only
      together with completion. */
  lemma ProgressIsMonotone(base: string, files: map<string, nat>, dirs: set<string>, m: RemoteModel, network: (string, nat) -> Attempt)
    requires HonestLengths(network)
    ensures var e := DownloadSpec(base, files, dirs, m, network).emitted;
      && (forall i :: 0 < i < |e| ==> e[i - 1].progress <= e[i].progress)
      && (forall i :: 0 <= i < |e| && e[i].progress == 100 ==> e[i].isComplete)
  {
    if !AlreadyDownloaded(files, base, m) {
      TryProgressIsMonotone(base, files, m, network);
      TryEmitsRunningStates(base, files, m, network);
      var t := TrySpec(base, files, m, network);
      var e := DownloadSpec(base, files, dirs, m, network).emitted;
      var last := if t.Completes? then t.final else FailedState(Last(t.emitted), t.error.message);
      assert e == [DownloadState(m)] + t.emitted + [last];
      assert forall i :: 0 < i <= |t.emitted| ==> e[i] == t.emitted[i - 1];
    }
  }

  lemma {:induction false} RetryHonest(url: string, network: (string, nat) -> Attempt, k: nat)
    requires k < MaxRetries && HonestLengths(network)
    ensures var r := RetryFrom(url, network, k); r.Fetched? && r.total > 0 ==> r.size <= r.total
    decreases MaxRetries - k
  {
    if network(url, k).Failed? && k < MaxRetries - 1 { RetryHonest(url, network, k + 1); }
  }

  // ------------------------------------------------------------ the service

  class ModelDownloadService {
    const baseDirectory: string
    var files: map<string, nat>
    var dirs: set<string>
    var delays: seq<int>

    constructor(baseDirectory: string, files: map<string, nat>, dirs: set<string>)
      ensures this.baseDirectory == baseDirectory && this.files == files && this.dirs == dirs && delays == []
    {
      this.baseDirectory := baseDirectory;
      this.files := files;
      this.dirs := dirs;
      delays := [];
    }

    /** `isModelAlreadyDownloaded`. */
    predicate IsModelAlreadyDownloaded(m: RemoteModel)
      reads this
    {
      AlreadyDownloaded(files, baseDirectory, m)
    }

    /** `getExistingModelSize`: the lengths of the files that exist, summed
      in a `Long`. */
    method GetExistingModelSize(m: RemoteModel) returns (totalSize: Int64)
      ensures totalSize == ExistingModelSize(files, baseDirectory, m)
    {
      var onnx, tflite := OnnxPath(baseDirectory, m), TflitePath(baseDirectory, m);
      totalSize := 0;
      if onnx in files { totalSize := Wrap64(totalSize + files[onnx]); }
      if tflite in files { totalSize := Wrap64(totalSize + files[tflite]); }
      WrapSum(LengthIfExists(files, onnx), LengthIfExists(files, tflite));
    }

    /** `cleanupPartialDownload`. */
    method CleanupPartialDownload(m: RemoteModel)
      modifies this
      ensures (files, dirs) == CleanupSpec(old(files), old(dirs), baseDirectory, m)
      ensures delays == old(delays)
    {
      var dir := ModelDirectory(baseDirectory, m);
      var onnx, tflite := OnnxPath(baseDirectory, m), TflitePath(baseDirectory, m);
      if onnx in files { files := files - {onnx}; }
      if tflite in files { files := files - {tflite}; }
      assert files == old(files) - {onnx, tflite};
      if dir in dirs && DirEmpty(files, dirs, dir) {
        dirs := dirs - {dir};
      }
    }

    /** `downloadFileWithProgress`: up to three attempts; a successful one
      writes the body to `destination` and reports its size and the
      announced length. */
    method DownloadFileWithProgress(url: string, destination: string, network: (string, nat) -> Attempt) returns (r: Fetch)
      modifies this
      ensures r == RetryFrom(url, network, 0)
      ensures delays == old(delays) + RetryDelays(url, network, 0)
      ensures files == if r.Fetched? then old(files)[destination := r.size] else old(files)
      ensures dirs == old(dirs)
    {
      var lastMessage: Option<string> := None;
      var attempt := 0;
      while attempt < MaxRetries
        invariant 0 <= attempt <= MaxRetries
        invariant files == old(files) && dirs == old(dirs)
        invariant attempt < MaxRetries ==> RetryFrom(url, network, 0) == RetryFrom(url, network, attempt)
        invariant attempt < MaxRetries ==> old(delays) + RetryDelays(url, network, 0) == delays + RetryDelays(url, network, attempt)
        invariant attempt == MaxRetries ==> RetryFrom(url, network, 0) == GaveUp(lastMessage)
        invariant attempt == MaxRetries ==> old(delays) + RetryDelays(url, network, 0) == delays
      {
        match network(url, attempt)
        case Received(header, size) =>
          files := files[destination := size];
          return Fetched(size, ContentLength(header));
        case Failed(message) =>
          lastMessage := message;
          if attempt < MaxRetries - 1 {
            delays := delays + [1000 * (attempt + 1)];
          }
        attempt := attempt + 1;
      }
      return GaveUp(lastMessage);
    }

    /** The `try` block of `downloadModel`. */
    method DownloadFiles(m: RemoteModel, network: (string, nat) -> Attempt) returns (t: TryOutcome)
      modifies this
      ensures t == TrySpec(baseDirectory, old(files), m, network)
      ensures files == t.files && dirs == old(dirs) && delays == old(delays) + t.delays
    {
      var state := OnnxStarted(m);
      var emitted := [state];
      var onnx := DownloadFileWithProgress(m.onnxUrl, OnnxPath(baseDirectory, m), network);
      if onnx.GaveUp? {
        return Throws(emitted, Error(onnx.message), files, RetryDelays(m.onnxUrl, network, 0));
      }
      var onnxSize := onnx.size;
      state := OnnxWritten(state, onnx.size, onnx.total);
      emitted := emitted + [state];

      state := TfliteStarted(state);
      emitted := emitted + [state];
      var tflite := DownloadFileWithProgress(m.tfliteUrl, TflitePath(baseDirectory, m), network);
      var waited := RetryDelays(m.onnxUrl, network, 0) + RetryDelays(m.tfliteUrl, network, 0);
      if tflite.GaveUp? {
        return Throws(emitted, Error(tflite.message), files, waited);
      }
      state := TfliteWritten(state, onnxSize, tflite.size, tflite.total);
      emitted := emitted + [state];

      if !ValidateDownloadedFiles(files, baseDirectory, m) {
        return Throws(emitted, Error(Some("Downloaded files failed validation")), files, waited);
      }
      state := Completed(state, onnxSize, tflite.size);
      return Completes(emitted, state, files, waited);
    }

    /** `downloadModel`: the states it emits, in order, and the file system
      and delays it leaves. */
    method DownloadModel(m: RemoteModel, network: (string, nat) -> Attempt) returns (emitted: seq<DownloadState>)
      modifies this
      ensures var o := DownloadSpec(baseDirectory, old(files), old(dirs), m, network);
        emitted == o.emitted && files == o.files && dirs == o.dirs && delays == old(delays) + o.delays
    {
      var modelDir := ModelDirectory(baseDirectory, m);
      var state := DownloadState(m);
      emitted := [state];

      if IsModelAlreadyDownloaded(m) {
        var size := GetExistingModelSize(m);
        state := AlreadyComplete(m, size);
        emitted := emitted + [state];
        return;
      }

      if modelDir !in dirs {
        dirs := dirs + ModelDirectories(baseDirectory, m);
      }

      var t := DownloadFiles(m, network);
      match t
      case Completes(steps, final, _, _) =>
        emitted := emitted + steps + [final];
      case Throws(steps, error, _, _) =>
        state := FailedState(Last(steps), error.message);
        CleanupPartialDownload(m);
        emitted := emitted + steps + [state];
    }
  }

  lemma WrapSum(a: nat, b: nat)
    ensures Wrap64(Wrap64(0 + a) + b) == Wrap64(a + b)
  {
    var k := (a - MinInt64) / 0x1_0000_0000_0000_0000;
    assert Wrap64(a) == a - k * 0x1_0000_0000_0000_0000;
    WrapShift(a + b, k);
  }

  lemma WrapShift(x: int, k: int)
    ensures Wrap64(x - k * 0x1_0000_0000_0000_0000) == Wrap64(x)
  {
  }
}

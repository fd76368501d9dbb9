/** The remote wake-word / stop-word model catalogue entries
    (`domain/model/RemoteModel.kt`). */
module RemoteModels {
  import opened Wrappers
  import opened Text

  datatype ModelType = Wakeword | Stopword

  /** A repository of models: display name, GitHub URL, model kind and the
      ISO 639-1 language of its models. */
  datatype RemoteModelSource = RemoteModelSource(name: string, url: string, modelType: ModelType, language: string)

  /** A downloadable model. Equality is structural over all five fields. */
  datatype RemoteModel = RemoteModel(
    name: string,
    version: Option<Int32>,
    onnxUrl: string,
    tfliteUrl: string,
    languageTag: string)

  /** `displayName`: the name followed by the language tag in brackets. */
  function DisplayName(m: RemoteModel): (r: string)
    ensures StartsWith(r, m.name) && EndsWith(r, "]")
    ensures |r| == |m.name| + |m.languageTag| + 3
    ensures r[|m.name|..|m.name| + 2] == " [" && r[|m.name| + 2..|r| - 1] == m.languageTag
  {
    m.name + " [" + m.languageTag + "]"
  }

  /** What precedes the extension in both model file names. */
  function FileStem(m: RemoteModel): string
  {
    match m.version
    case Some(v) => m.name + "_v" + IntToString(v)
    case None => m.name
  }

  /** `onnxFilename`. */
  function OnnxFilename(m: RemoteModel): (r: string)
    ensures r == FileStem(m) + ".onnx"
  {
    if m.version.Some? then m.name + "_v" + IntToString(m.version.value) + ".onnx" else m.name + ".onnx"
  }

  /** `tfliteFilename`. */
  function TfliteFilename(m: RemoteModel): (r: string)
    ensures r == FileStem(m) + ".tflite"
  {
    if m.version.Some? then m.name + "_v" + IntToString(m.version.value) + ".tflite" else m.name + ".tflite"
  }

  /** The two file names of a model share their stem and differ only in
      the extension. */
  lemma FilenamesDifferOnlyInExtension(m: RemoteModel)
    ensures |OnnxFilename(m)| + 2 == |TfliteFilename(m)|
    ensures OnnxFilename(m)[..|OnnxFilename(m)| - 5] == TfliteFilename(m)[..|TfliteFilename(m)| - 7]
    ensures EndsWith(OnnxFilename(m), ".onnx") && EndsWith(TfliteFilename(m), ".tflite")
  {
    var o, t := OnnxFilename(m), TfliteFilename(m);
    assert o[..|o| - 5] == FileStem(m);
    assert t[..|t| - 7] == FileStem(m);
  }
}

/** The `github\.com/([^/]+)/([^/]+)` pattern used both by the model
    repository client and by the update checker, with Kotlin's `Regex.find`
    semantics: the leftmost position at which the whole pattern matches. */
module GitHubPattern {
  import opened Wrappers
  import opened Text

  const Host: string := "github.com/"

  /** Length of the longest run of characters other than '/' starting at i. */
  function SegmentLength(s: string, i: nat): (n: nat)
    requires i <= |s|
    ensures i + n <= |s|
    ensures forall k :: i <= k < i + n ==> s[k] != '/'
    ensures i + n == |s| || s[i + n] == '/'
    decreases |s| - i
  {
    if i == |s| || s[i] == '/' then 0 else 1 + SegmentLength(s, i + 1)
  }

  /** Does the whole pattern match at position i? */
  predicate MatchesAt(s: string, i: nat)
    requires i <= |s|
  {
    OccursAt(s, Host, i)
    && var j := i + |Host|;
    var n := SegmentLength(s, j);
    n > 0 && j + n < |s| && SegmentLength(s, j + n + 1) > 0
  }

  /** The owner and repository segments of a match at i. */
  function Captures(s: string, i: nat): (string, string)
    requires i <= |s| && MatchesAt(s, i)
  {
    var j := i + |Host|;
    var n := SegmentLength(s, j);
    (s[j..j + n], s[j + n + 1..j + n + 1 + SegmentLength(s, j + n + 1)])
  }

  /** The two captured groups of the leftmost match at or after i. */
  function FindFrom(s: string, i: nat): (r: Option<(string, string)>)
    requires i <= |s|
    ensures r.Some? ==> |r.value.0| > 0 && |r.value.1| > 0 && '/' !in r.value.0 && '/' !in r.value.1
    ensures r.None? <==> forall k :: i <= k <= |s| ==> !MatchesAt(s, k)
    ensures r.Some? ==>
      exists k :: i <= k <= |s| && MatchesAt(s, k) && (forall k' :: i <= k' < k ==> !MatchesAt(s, k')) && r.value == Captures(s, k)
    decreases |s| - i
  {
    if MatchesAt(s, i) then Some(Captures(s, i))
    else if i == |s| then None
    else FindFrom(s, i + 1)
  }

  function Find(s: string): Option<(string, string)>
  {
    FindFrom(s, 0)
  }

  /** No match can start inside a leading "https://". */
  lemma NoMatchInScheme(s: string)
    requires StartsWith(s, "https://")
    ensures forall k :: 0 <= k < 8 ==> !MatchesAt(s, k)
  {
    forall k | 0 <= k < 8 ensures !MatchesAt(s, k) {
      assert s[k] == s[..8][k];
    }
  }

  /** The pattern matches at i when `github.com/<owner>/<repo>` follows,
      capturing owner and repo. */
  lemma MatchAfterHost(s: string, i: nat, owner: string, repo: string)
    requires OccursAt(s, Host, i)
    requires var j := i + |Host|;
      j + |owner| + 1 + |repo| <= |s| && s[j..j + |owner|] == owner && s[j + |owner|] == '/'
      && s[j + |owner| + 1..j + |owner| + 1 + |repo|] == repo
    requires |owner| > 0 && |repo| > 0 && '/' !in owner && '/' !in repo
    requires i + |Host| + |owner| + 1 + |repo| == |s| || s[i + |Host| + |owner| + 1 + |repo|] == '/'
    ensures MatchesAt(s, i) && FindFrom(s, i) == Some((owner, repo))
  {
    var j := i + |Host|;
    SegmentOf(s, j, owner);
    SegmentOf(s, j + |owner| + 1, repo);
    assert MatchesAt(s, i);
    assert Captures(s, i) == (owner, repo);
  }

  /** For "https://github.com/<owner>/<repo><tail>" the leftmost match
      captures the owner and the repository segment. */
  lemma {:induction false} FindOnCanonicalUrl(owner: string, repo: string, tail: string)
    requires |owner| > 0 && |repo| > 0 && '/' !in owner && '/' !in repo
    requires tail == [] || tail[0] == '/'
    ensures Find("https://" + Host + owner + "/" + repo + tail) == Some((owner, repo))
  {
    var scheme := "https://";
    var s := scheme + Host + owner + "/" + repo + tail;
    assert s[..8] == scheme;
    var j := 8 + |Host|;
    assert s[8..j] == Host;
    assert s[j..j + |owner|] == owner;
    assert s[j + |owner|] == '/';
    assert s[j + |owner| + 1..j + |owner| + 1 + |repo|] == repo;
    assert j + |owner| + 1 + |repo| < |s| ==> s[j + |owner| + 1 + |repo|] == tail[0];
    MatchAfterHost(s, 8, owner, repo);
    SchemeSkipped(s);
  }

  lemma SegmentOf(s: string, i: nat, seg: string)
    requires i + |seg| <= |s| && s[i..i + |seg|] == seg && '/' !in seg
    requires i + |seg| == |s| || s[i + |seg|] == '/'
    ensures SegmentLength(s, i) == |seg|
    decreases |seg|
  {
    if |seg| > 0 {
      assert s[i] == seg[0];
      SegmentOf(s, i + 1, seg[1..]);
    }
  }

  /** The search passes over a leading "https://" without matching. */
  lemma SchemeSkipped(s: string)
    requires StartsWith(s, "https://")
    ensures FindFrom(s, 0) == FindFrom(s, 8)
  {
    NoMatchInScheme(s);
    FindFromStep(s, 0);
    FindFromStep(s, 1);
    FindFromStep(s, 2);
    FindFromStep(s, 3);
    FindFromStep(s, 4);
    FindFromStep(s, 5);
    FindFromStep(s, 6);
    FindFromStep(s, 7);
  }

  lemma FindFromStep(s: string, i: nat)
    requires i < |s| && !MatchesAt(s, i)
    ensures FindFrom(s, i) == FindFrom(s, i + 1)
  {
  }
}

/** Discovery of models in a GitHub repository
    (`infrastructure/GitHubModelRepositoryClient.kt`). HTTP requests are
    inputs: the listing of the repository path and of each model directory
    is given, as it arrived or as the failure it raised. */
module GitHubModels {
  import opened Wrappers
  import opened Text
  import opened RemoteModels
  import GitHubPattern

  const RawGitHubBase: string := "https://raw.githubusercontent.com"

  /** One entry of the GitHub contents API. */
  datatype ContentItem = ContentItem(name: string, itemType: string, size: Option<Int64>)

  datatype RepoInfo = RepoInfo(owner: string, repo: string)

  // -------------------------------------------- parseVersionFromFilename

  /** The line terminators before which Java's `$` also matches. */
  predicate IsLineTerminator(c: char)
  {
    c == '\n' || c == '\r' || c == '\U{85}' || c == '\U{2028}' || c == '\U{2029}'
  }

  /** The text up to the position where `$` can match: the end, or before
      one final line terminator ("\r\n" counts as one). */
  function DropFinalTerminator(f: string): (b: string)
    ensures |b| <= |f| && b == f[..|b|]
  {
    if EndsWith(f, "\r\n") then f[..|f| - 2]
    else if |f| > 0 && IsLineTerminator(f[|f| - 1]) then f[..|f| - 1]
    else f
  }

  function TrailingDigitCount(t: string): (n: nat)
    ensures n <= |t| && AllDigits(t[|t| - n..])
    ensures n < |t| ==> !IsDigit(t[|t| - n - 1])
  {
    if |t| > 0 && IsDigit(t[|t| - 1]) then
      var n := 1 + TrailingDigitCount(t[..|t| - 1]);
      assert t[|t| - n..] == t[..|t| - 1][|t| - n..] + [t[|t| - 1]];
      n
    else 0
  }

  /** The name without ".onnx" or ".tflite", if it has either extension. */
  function ExtensionStem(b: string): Option<string>
  {
    if EndsWith(b, ".onnx") then Some(b[..|b| - 5])
    else if EndsWith(b, ".tflite") then Some(b[..|b| - 7])
    else None
  }

  /** The version of a stem ending in `_v<digits>`. */
  function StemVersion(t: string): Option<Int32>
  {
    var n := TrailingDigitCount(t);
    if n > 0 && EndsWith(t[..|t| - n], "_v") then ToIntOrNull(t[|t| - n..]) else None
  }

  /** `parseVersionFromFilename`: the pattern `_v(\d+)\.(onnx|tflite)$`, then
      `toIntOrNull` on the digits (so an `Int` overflow gives null). */
  function ParseVersionFromFilename(filename: string): Option<Int32>
  {
    match ExtensionStem(DropFinalTerminator(filename))
    case None => None
    case Some(t) => StemVersion(t)
  }

  /** The terminators that may follow a matching file name. */
  predicate IsFinalTerminator(term: string)
  {
    term == "" || (|term| == 1 && IsLineTerminator(term[0])) || term == "\r\n"
  }

  /** `filename` is `<stem>_v<digits>.<ext><term>`. */
  ghost predicate VersionedName(filename: string, stem: string, digits: string, ext: string, term: string)
  {
    filename == stem + "_v" + digits + "." + ext + term
    && |digits| > 0 && AllDigits(digits)
    && (ext == "onnx" || ext == "tflite")
    && IsFinalTerminator(term)
  }

  /** `$` matches right after the extension when only a final terminator
      follows it. */
  lemma DropTerminatorAfterExtension(b: string, term: string)
    requires |b| > 0 && (b[|b| - 1] == 'x' || b[|b| - 1] == 'e')
    requires IsFinalTerminator(term)
    ensures DropFinalTerminator(b + term) == b
  {
    var f := b + term;
    if term == "\r\n" {
      assert f[|f| - 2..] == term;
    } else if |term| == 1 {
      assert f[|f| - 1] == term[0];
      assert f[|f| - 2] == b[|b| - 1];
      assert f[..|f| - 1] == b;
    } else {
      assert f == b;
    }
  }

  /** Stripping the extension of `<t>.<ext>` gives back t. */
  lemma StemOfExtension(t: string, ext: string)
    requires ext == "onnx" || ext == "tflite"
    ensures ExtensionStem(t + "." + ext) == Some(t)
  {
    var b := t + "." + ext;
    if ext == "onnx" {
      assert b[|b| - 5..] == ".onnx";
      assert b[..|b| - 5] == t;
    } else {
      assert b[|b| - 1] == 'e';
      assert b[|b| - 7..] == ".tflite";
      assert b[..|b| - 7] == t;
    }
  }

  lemma VersionOfVersionedStem(stem: string, digits: string)
    requires |digits| > 0 && AllDigits(digits)
    ensures StemVersion(stem + "_v" + digits) == ToIntOrNull(digits)
  {
    var t := stem + "_v" + digits;
    TrailingDigitsOfVersionedStem(stem, digits);
    assert t[..|t| - |digits|] == stem + "_v";
    assert t[|t| - |digits|..] == digits;
  }

  /** A name of the form `<stem>_v<digits>.<ext>` parses to the digits'
      value, or to null when that value does not fit in `Int`. */
  lemma ParseVersionOfVersionedName(filename: string, stem: string, digits: string, ext: string, term: string)
    requires VersionedName(filename, stem, digits, ext, term)
    ensures ParseVersionFromFilename(filename) ==
      (if DigitsValue(digits) <= MaxInt32 then Some(DigitsValue(digits)) else None)
  {
    var t := stem + "_v" + digits;
    var b := t + "." + ext;
    assert filename == b + term;
    assert b[|b| - 1] == ext[|ext| - 1];
    DropTerminatorAfterExtension(b, term);
    StemOfExtension(t, ext);
    VersionOfVersionedStem(stem, digits);
    ToIntOrNullOfDigits(digits);
  }

  lemma TrailingDigitsOfVersionedStem(stem: string, digits: string)
    requires AllDigits(digits)
    ensures TrailingDigitCount(stem + "_v" + digits) == |digits|
    decreases |digits|
  {
    var t := stem + "_v" + digits;
    if |digits| > 0 {
      var d' := digits[..|digits| - 1];
      assert t[..|t| - 1] == stem + "_v" + d';
      TrailingDigitsOfVersionedStem(stem, d');
    } else {
      assert t[|t| - 1] == 'v';
    }
  }

  lemma DropFinalTerminatorSplits(f: string) returns (term: string)
    ensures IsFinalTerminator(term) && f == DropFinalTerminator(f) + term
  {
    var b := DropFinalTerminator(f);
    term := f[|b|..];
    if EndsWith(f, "\r\n") {
      assert term == f[|f| - 2..];
    } else if |f| > 0 && IsLineTerminator(f[|f| - 1]) {
      assert term == [f[|f| - 1]];
    }
  }

  lemma ExtensionStemSplits(b: string) returns (ext: string)
    requires ExtensionStem(b).Some?
    ensures (ext == "onnx" || ext == "tflite") && b == ExtensionStem(b).value + "." + ext
  {
    ext := if EndsWith(b, ".onnx") then "onnx" else "tflite";
    assert b == b[..|b| - |ext| - 1] + b[|b| - |ext| - 1..];
  }

  lemma StemVersionSplits(t: string) returns (stem: string, digits: string)
    requires StemVersion(t).Some?
    ensures t == stem + "_v" + digits && |digits| > 0 && AllDigits(digits)
    ensures StemVersion(t) == Some(DigitsValue(digits))
  {
    var n := TrailingDigitCount(t);
    stem := t[..|t| - n - 2];
    digits := t[|t| - n..];
    assert t[..|t| - n] == stem + "_v";
    assert t == t[..|t| - n] + digits;
    ToIntOrNullOfDigits(digits);
  }

  /** Conversely, whenever a version is returned the name has that form. */
  lemma ParsedVersionHasVersionedName(filename: string)
    requires ParseVersionFromFilename(filename).Some?
    ensures exists stem, digits, ext, term ::
      VersionedName(filename, stem, digits, ext, term)
      && DigitsValue(digits) == ParseVersionFromFilename(filename).value
  {
    var term := DropFinalTerminatorSplits(filename);
    var b := DropFinalTerminator(filename);
    var ext := ExtensionStemSplits(b);
    var t := ExtensionStem(b).value;
    var stem, digits := StemVersionSplits(t);
    assert filename == stem + "_v" + digits + "." + ext + term;
    assert VersionedName(filename, stem, digits, ext, term);
  }

  // --------------------------------------------------- findLatestVersion

  /** The files `findLatestVersion` ranges over. */
  predicate IsModelFileOf(item: ContentItem, modelName: string)
  {
    StartsWith(item.name, modelName) && (EndsWith(item.name, ".onnx") || EndsWith(item.name, ".tflite"))
  }

  /** `filter { ... }.mapNotNull { parseVersionFromFilename(it.name) }`. */
  function CandidateVersions(files: seq<ContentItem>, modelName: string): (vs: seq<Int32>)
    ensures forall v :: v in vs <==>
      exists f :: f in files && IsModelFileOf(f, modelName) && ParseVersionFromFilename(f.name) == Some(v)
  {
    if |files| == 0 then []
    else
      var rest := CandidateVersions(files[1..], modelName);
      var p := ParseVersionFromFilename(files[0].name);
      var head := if IsModelFileOf(files[0], modelName) && p.Some? then [p.value] else [];
      FilterStep(files, head, rest,
        (f: ContentItem, v: Int32) => IsModelFileOf(f, modelName) && ParseVersionFromFilename(f.name) == Some(v));
      head + rest
  }

  /** One step of a `mapNotNull` over a list: what the head yields plus what
      the tail yields is what the whole list yields. */
  lemma FilterStep<T, V>(files: seq<T>, head: seq<V>, rest: seq<V>, gives: (T, V) -> bool)
    requires |files| > 0
    requires forall v :: v in head <==> gives(files[0], v)
    requires forall v :: v in rest <==> exists f :: f in files[1..] && gives(f, v)
    ensures forall v :: v in head + rest <==> exists f :: f in files && gives(f, v)
  {
    assert forall f :: f in files[1..] ==> f in files;
    assert forall f :: f in files ==> f == files[0] || f in files[1..];
  }

  /** Kotlin's `maxOrNull`. */
  function MaxOrNull(vs: seq<Int32>): (r: Option<Int32>)
    ensures r.None? <==> vs == []
    ensures r.Some? ==> r.value in vs && forall v :: v in vs ==> v <= r.value
  {
    if |vs| == 0 then None
    else
      var rest := MaxOrNull(vs[1..]);
      assert forall v :: v in vs ==> v == vs[0] || v in vs[1..];
      if rest.Some? && rest.value > vs[0] then rest else Some(vs[0])
  }

  /** `findLatestVersion`: null iff no file of the model (by name prefix and
      extension) has a parseable version; otherwise the largest such version. */
  function FindLatestVersion(files: seq<ContentItem>, modelName: string): (r: Option<Int32>)
    ensures r.None? <==>
      forall f :: f in files && IsModelFileOf(f, modelName) ==> ParseVersionFromFilename(f.name).None?
    ensures r.Some? ==>
      (exists f :: f in files && IsModelFileOf(f, modelName) && ParseVersionFromFilename(f.name) == r)
      && forall f :: f in files && IsModelFileOf(f, modelName) && ParseVersionFromFilename(f.name).Some? ==>
           ParseVersionFromFilename(f.name).value <= r.value
  {
    var vs := CandidateVersions(files, modelName);
    var r := MaxOrNull(vs);
    assert forall f :: f in files && IsModelFileOf(f, modelName) && ParseVersionFromFilename(f.name).Some? ==>
      ParseVersionFromFilename(f.name).value in vs;
    r
  }

  // ------------------------------------------------ generateDownloadUrls

  /** `generateDownloadUrls`: raw URLs on branch "main" for the two files. */
  function GenerateDownloadUrls(info: RepoInfo, path: string, modelName: string, version: Option<Int32>): (string, string)
  {
    var baseUrl := RawGitHubBase + "/" + info.owner + "/" + info.repo + "/main/" + path + "/" + modelName;
    var onnxFilename := if version.Some? then modelName + "_v" + IntToString(version.value) + ".onnx" else modelName + ".onnx";
    var tfliteFilename := if version.Some? then modelName + "_v" + IntToString(version.value) + ".tflite" else modelName + ".tflite";
    (baseUrl + "/" + onnxFilename, baseUrl + "/" + tfliteFilename)
  }

  /** Both URLs live in `<base>/<owner>/<repo>/main/<path>/<model>/`, and the
      file each names is the file name `RemoteModel` derives for the same
      name and version. */
  lemma DownloadUrlsEndWithModelFilenames(info: RepoInfo, path: string, m: RemoteModel)
    ensures var dir := RawGitHubBase + "/" + info.owner + "/" + info.repo + "/main/" + path + "/" + m.name + "/";
      var (onnxUrl, tfliteUrl) := GenerateDownloadUrls(info, path, m.name, m.version);
      onnxUrl == dir + OnnxFilename(m) && tfliteUrl == dir + TfliteFilename(m)
  {
  }

  /** The file names parse back to the model's version whenever it is not
      negative: `parseVersionFromFilename` inverts the name derivation. */
  lemma {:induction false} FilenamesRoundTrip(m: RemoteModel)
    requires m.version.Some? && m.version.value >= 0
    ensures ParseVersionFromFilename(OnnxFilename(m)) == m.version
    ensures ParseVersionFromFilename(TfliteFilename(m)) == m.version
  {
    var v := m.version.value;
    var digits := NatToString(v);
    NatToStringValue(v);
    var t := m.name + "_v" + digits;
    assert FileStem(m) == t;
    var o, l := OnnxFilename(m), TfliteFilename(m);
    assert ".onnx" == "." + "onnx" && ".tflite" == "." + "tflite";
    assert o == t + "." + "onnx" + "";
    assert l == t + "." + "tflite" + "";
    ParseVersionOfVersionedName(o, m.name, digits, "onnx", "");
    ParseVersionOfVersionedName(l, m.name, digits, "tflite", "");
  }

  lemma OnnxSuffixSplits()
    ensures ".onnx" == "." + "onnx"
  {
  }

  /** An unversioned model whose name itself ends in `_v<digits>` (say
      "alexa_v2") still yields a version when its file name is parsed. */
  lemma UnversionedNameMayParseAsVersioned(m: RemoteModel, stem: string, digits: string)
    requires m.version.None? && m.name == stem + "_v" + digits && |digits| > 0 && AllDigits(digits)
    requires DigitsValue(digits) <= MaxInt32
    ensures ParseVersionFromFilename(OnnxFilename(m)) == Some(DigitsValue(digits))
  {
    var t := stem + "_v" + digits;
    var f := OnnxFilename(m);
    assert f == t + ".onnx";
    OnnxSuffixSplits();
    AppendAssoc(t, ".", "onnx");
    assert f + "" == f;
    ParseVersionOfVersionedName(f, stem, digits, "onnx", "");
  }

  // ------------------------------------------------------ parseGitHubUrl

  /** `parseGitHubUrl`: the two groups of the leftmost match, with one
      trailing ".git" removed from the repository name. */
  function ParseGitHubUrl(url: string): (r: Option<RepoInfo>)
    ensures r.Some? <==> GitHubPattern.Find(url).Some?
    ensures r.Some? ==> r.value.owner == GitHubPattern.Find(url).value.0 && |r.value.owner| > 0 && '/' !in r.value.owner
    ensures r.Some? ==> r.value.repo == RemoveSuffix(GitHubPattern.Find(url).value.1, ".git")
  {
    match GitHubPattern.Find(url)
    case None => None
    case Some((owner, repo)) => Some(RepoInfo(owner, RemoveSuffix(repo, ".git")))
  }

  /** A canonical repository URL parses back to its owner and repository,
      with one ".git" suffix removed. */
  lemma {:induction false} ParseCanonicalGitHubUrl(owner: string, repo: string, tail: string)
    requires |owner| > 0 && |repo| > 0 && '/' !in owner && '/' !in repo
    requires tail == [] || tail[0] == '/'
    ensures ParseGitHubUrl("https://github.com/" + owner + "/" + repo + tail) == Some(RepoInfo(owner, RemoveSuffix(repo, ".git")))
  {
    var prefix := "https://" + GitHubPattern.Host;
    assert prefix == "https://github.com/";
    GitHubPattern.FindOnCanonicalUrl(owner, repo, tail);
  }

  /** In particular the ".git" of a clone URL is not part of the name. */
  lemma {:induction false} ParseCloneUrl(owner: string, repo: string)
    requires |owner| > 0 && |repo| > 0 && '/' !in owner && '/' !in repo
    ensures ParseGitHubUrl("https://github.com/" + owner + "/" + repo + ".git") == Some(RepoInfo(owner, repo))
  {
    var repoGit := repo + ".git";
    assert '/' !in repoGit;
    ParseCanonicalGitHubUrl(owner, repoGit, "");
    var head := "https://github.com/" + owner + "/";
    assert head + repoGit + "" == head + repoGit;
    AppendAssoc(head, repo, ".git");
    assert repoGit[|repoGit| - 4..] == ".git";
    assert repoGit[..|repoGit| - 4] == repo;
  }

  // --------------------------------------------- fetchModelFromDirectory

  /** Kotlin's `find { it.name == name }` on a list. */
  predicate HasFileNamed(files: seq<ContentItem>, name: string)
  {
    exists i :: 0 <= i < |files| && files[i].name == name
  }

  predicate HasFileWithExtension(files: seq<ContentItem>, ext: string)
  {
    exists i :: 0 <= i < |files| && EndsWith(files[i].name, ext)
  }

  /** `fetchModelFromDirectory` once the directory listing has arrived (or
      failed, which yields null). */
  function FetchModelFromDirectory(
    info: RepoInfo, path: string, modelName: string, source: RemoteModelSource,
    listing: Result<seq<ContentItem>, string>): (r: Option<RemoteModel>)
    ensures r.Some? <==>
      && listing.Success?
      && HasFileWithExtension(listing.value, ".onnx") && HasFileWithExtension(listing.value, ".tflite")
      && ((HasFileNamed(listing.value, modelName + ".onnx") && HasFileNamed(listing.value, modelName + ".tflite"))
          || FindLatestVersion(listing.value, modelName).Some?)
    ensures r.Some? ==>
      var files := listing.value;
      && HasFileWithExtension(files, ".onnx") && HasFileWithExtension(files, ".tflite")
      && r.value.name == modelName && r.value.languageTag == source.language
      && (r.value.onnxUrl, r.value.tfliteUrl) == GenerateDownloadUrls(info, path, modelName, r.value.version)
      && (r.value.version.None? <==> HasFileNamed(files, modelName + ".onnx") && HasFileNamed(files, modelName + ".tflite"))
      && (r.value.version.Some? ==> r.value.version == FindLatestVersion(files, modelName))
  {
    match listing
    case Failure(_) => None
    case Success(files) =>
      if !HasFileWithExtension(files, ".onnx") || !HasFileWithExtension(files, ".tflite") then None
      else if HasFileNamed(files, modelName + ".onnx") && HasFileNamed(files, modelName + ".tflite") then
        var (onnxUrl, tfliteUrl) := GenerateDownloadUrls(info, path, modelName, None);
        Some(RemoteModel(modelName, None, onnxUrl, tfliteUrl, source.language))
      else
        var latest := FindLatestVersion(files, modelName);
        if latest.Some? then
          var (onnxUrl, tfliteUrl) := GenerateDownloadUrls(info, path, modelName, latest);
          Some(RemoteModel(modelName, latest, onnxUrl, tfliteUrl, source.language))
        else None
  }

  /** A directory with no ".onnx" file or no ".tflite" file yields no model. */
  lemma DirectoryNeedsBothFileKinds(
    info: RepoInfo, path: string, modelName: string, source: RemoteModelSource, files: seq<ContentItem>)
    requires forall i :: 0 <= i < |files| ==> !EndsWith(files[i].name, ".tflite")
    ensures FetchModelFromDirectory(info, path, modelName, source, Success(files)).None?
  {
  }

  // ---------------------------------------------------------- fetchModels

  /** The present values of a list of optional values, in order. */
  function Somes<T(!new)>(os: seq<Option<T>>): (r: seq<T>)
    ensures |r| <= |os|
    ensures forall x :: x in r <==> Some(x) in os
  {
    if |os| == 0 then []
    else
      assert forall o :: o in os <==> o == os[0] || o in os[1..];
      (if os[0].Some? then [os[0].value] else []) + Somes(os[1..])
  }

  /** What fetching each directory in turn gives. */
  function FetchedDirectories(
    info: RepoInfo, path: string, source: RemoteModelSource, dirs: seq<ContentItem>,
    dirListing: string -> Result<seq<ContentItem>, string>): (os: seq<Option<RemoteModel>>)
    ensures |os| == |dirs|
    ensures forall i :: 0 <= i < |dirs| ==>
      os[i] == FetchModelFromDirectory(info, path, dirs[i].name, source, dirListing(dirs[i].name))
  {
    seq(|dirs|, i requires 0 <= i < |dirs| =>
      FetchModelFromDirectory(info, path, dirs[i].name, source, dirListing(dirs[i].name)))
  }

  /** `directories.mapNotNull { fetchModelFromDirectory(...) }`, with the
      listing of each directory given by `dirListing`: the model of every
      directory that yields one, in directory order, and nothing else. */
  function ModelsOfDirectories(
    info: RepoInfo, path: string, source: RemoteModelSource, dirs: seq<ContentItem>,
    dirListing: string -> Result<seq<ContentItem>, string>): (ms: seq<RemoteModel>)
    ensures ms == Somes(FetchedDirectories(info, path, source, dirs, dirListing))
    ensures |ms| <= |dirs|
    ensures forall m :: m in ms <==>
      exists d :: d in dirs && FetchModelFromDirectory(info, path, d.name, source, dirListing(d.name)) == Some(m)
    ensures forall m :: m in ms ==> m.languageTag == source.language && exists d :: d in dirs && m.name == d.name
  {
    if |dirs| == 0 then []
    else
      var rest := ModelsOfDirectories(info, path, source, dirs[1..], dirListing);
      var os := FetchedDirectories(info, path, source, dirs, dirListing);
      assert os[1..] == FetchedDirectories(info, path, source, dirs[1..], dirListing);
      assert forall d :: d in dirs <==> d == dirs[0] || d in dirs[1..];
      match FetchModelFromDirectory(info, path, dirs[0].name, source, dirListing(dirs[0].name))
      case Some(m) => [m] + rest
      case None => rest
  }

  function Directories(items: seq<ContentItem>): (ds: seq<ContentItem>)
    ensures forall d :: d in ds <==> d in items && d.itemType == "dir"
  {
    if |items| == 0 then []
    else
      assert forall d :: d in items <==> d == items[0] || d in items[1..];
      (if items[0].itemType == "dir" then [items[0]] else []) + Directories(items[1..])
  }

  /** `fetchModels`: an unparseable URL raises `IllegalArgumentException`
      before any request; a failing repository listing yields an empty list;
      otherwise the models of the "dir" entries, in listing order. A failing
      directory drops only its own model. */
  function FetchModels(
    source: RemoteModelSource, path: string,
    listing: Result<seq<ContentItem>, string>,
    dirListing: string -> Result<seq<ContentItem>, string>): (r: Result<seq<RemoteModel>, string>)
    ensures r.Failure? <==> ParseGitHubUrl(source.url).None?
    ensures r.Failure? ==> r.error == "Invalid GitHub URL: " + source.url
    ensures r.Success? && listing.Failure? ==> r.value == []
    ensures r.Success? && listing.Success? ==>
      forall m :: m in r.value ==>
        m.languageTag == source.language && exists d :: d in listing.value && d.itemType == "dir" && m.name == d.name
    ensures r.Success? && listing.Success? ==>
      forall m :: m in r.value <==>
        exists d :: d in listing.value && d.itemType == "dir"
          && FetchModelFromDirectory(ParseGitHubUrl(source.url).value, path, d.name, source, dirListing(d.name)) == Some(m)
  {
    match ParseGitHubUrl(source.url)
    case None => Failure("Invalid GitHub URL: " + source.url)
    case Some(info) =>
      match listing
      case Failure(_) => Success([])
      case Success(items) =>
        var ms := ModelsOfDirectories(info, path, source, Directories(items), dirListing);
        Success(ms)
  }
}

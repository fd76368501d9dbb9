/** The update check (`infrastructure/UpdateChecker.kt`): dotted version
    comparison, the repository URL fallback, the current-version fallback and
    the two update decisions. JVM system properties are a map; the Conveyor
    control API and the HTTP fetch of `metadata.properties` are inputs. */
module Updates {
  import opened Wrappers
  import opened Text
  import GitHubPattern

  datatype UpdateInfo = UpdateInfo(currentVersion: string, latestVersion: string, siteUrl: string, canAutoUpdate: bool)

  // ---------------------------------------------------------- components

  /** `split(".").map { it.toIntOrNull() ?: 0 }`. */
  function Components(v: string): (cs: seq<Int32>)
    ensures |cs| == |Split(v, '.')|
    ensures forall i :: 0 <= i < |cs| ==> cs[i] == ToIntOrNull(Split(v, '.')[i]).GetOr(0)
  {
    ToComponents(Split(v, '.'))
  }

  function ToComponents(parts: seq<string>): (cs: seq<Int32>)
    ensures |cs| == |parts|
    ensures forall i :: 0 <= i < |cs| ==> cs[i] == ToIntOrNull(parts[i]).GetOr(0)
  {
    if |parts| == 0 then [] else [ToIntOrNull(parts[0]).GetOr(0)] + ToComponents(parts[1..])
  }

  /** `getOrElse(i) { 0 }`. */
  function At(cs: seq<int>, i: nat): int
  {
    if i < |cs| then cs[i] else 0
  }

  function Max(x: nat, y: nat): nat { if x < y then y else x }

  /** The exact difference of the first components, from index i on, that
      differ (missing ones count as 0), or 0 when none differ. */
  function FirstDifference(av: seq<int>, bv: seq<int>, i: nat): int
    decreases Max(|av|, |bv|) - i
  {
    if i >= Max(|av|, |bv|) then 0
    else if At(av, i) != At(bv, i) then At(av, i) - At(bv, i)
    else FirstDifference(av, bv, i + 1)
  }

  /** The order `compareVersions` means to compute, in exact arithmetic. */
  function VersionOrder(a: string, b: string): int
  {
    FirstDifference(Components(a), Components(b), 0)
  }

  function Sign(x: int): int { if x > 0 then 1 else if x < 0 then -1 else 0 }

  // ------------------------------------------------- properties of the order

  lemma {:induction false} FirstDifferenceReflexive(av: seq<int>, i: nat)
    ensures FirstDifference(av, av, i) == 0
    decreases Max(|av|, |av|) - i
  {
    if i < |av| { FirstDifferenceReflexive(av, i + 1); }
  }

  lemma {:induction false} FirstDifferenceAntisymmetric(av: seq<int>, bv: seq<int>, i: nat)
    ensures FirstDifference(av, bv, i) == -FirstDifference(bv, av, i)
    decreases Max(|av|, |bv|) - i
  {
    if i < Max(|av|, |bv|) && At(av, i) == At(bv, i) { FirstDifferenceAntisymmetric(av, bv, i + 1); }
  }

  /** A version compares equal to itself. */
  lemma VersionOrderReflexive(a: string)
    ensures VersionOrder(a, a) == 0
  {
    FirstDifferenceReflexive(Components(a), 0);
  }

  /** Swapping the arguments negates the exact order. */
  lemma VersionOrderAntisymmetric(a: string, b: string)
    ensures VersionOrder(a, b) == -VersionOrder(b, a)
    ensures Sign(VersionOrder(a, b)) == -Sign(VersionOrder(b, a))
  {
    FirstDifferenceAntisymmetric(Components(a), Components(b), 0);
  }

  /** Appending a 0 component changes nothing. */
  lemma {:induction false} FirstDifferenceTrailingZero(av: seq<int>, i: nat)
    ensures FirstDifference(av + [0], av, i) == 0
    decreases Max(|av + [0]|, |av|) - i
  {
    if i < |av| + 1 {
      assert At(av + [0], i) == At(av, i);
      FirstDifferenceTrailingZero(av, i + 1);
    }
  }

  lemma {:induction false} SplitAppend(s: string, t: string)
    requires '.' !in t
    ensures Split(s + "." + t, '.') == Split(s, '.') + [t]
    decreases |s|
  {
    if |s| == 0 {
      assert s + "." + t == ['.'] + t;
      SplitWithout(t);
      assert (['.'] + t)[1..] == t;
    } else {
      assert (s + "." + t)[1..] == s[1..] + "." + t;
      SplitAppend(s[1..], t);
    }
  }

  lemma {:induction false} SplitWithout(t: string)
    requires '.' !in t
    ensures Split(t, '.') == [t]
    decreases |t|
  {
    if |t| > 0 {
      assert t[0] in t;
      assert forall c :: c in t[1..] ==> c in t;
      SplitWithout(t[1..]);
      assert [t[0]] + t[1..] == t;
    }
  }

  /** An extra component that is not a number reads as 0. */
  lemma ComponentsAppend(a: string, x: string)
    requires '.' !in x
    ensures Components(a + "." + x) == Components(a) + [ToIntOrNull(x).GetOr(0)]
  {
    SplitAppend(a, x);
  }

  /** Missing components count as 0: "1" and "1.0" compare equal. */
  lemma MissingComponentIsZero(a: string)
    ensures VersionOrder(a + ".0", a) == 0
  {
    assert a + ".0" == a + "." + "0";
    ComponentsAppend(a, "0");
    assert ToIntOrNull("0") == Some(0) by { assert DigitsValue("0") == 0 by { assert "0"[..0] == ""; } }
    FirstDifferenceTrailingZero(Components(a), 0);
  }

  /** Non-numeric components count as 0: "1.x" and "1.0" compare equal. */
  lemma NonNumericComponentIsZero(a: string, x: string)
    requires '.' !in x && ToIntOrNull(x).None?
    ensures VersionOrder(a + "." + x, a + ".0") == 0
  {
    ComponentsAppend(a, x);
    assert a + ".0" == a + "." + "0";
    ComponentsAppend(a, "0");
    assert ToIntOrNull("0") == Some(0) by { assert DigitsValue("0") == 0 by { assert "0"[..0] == ""; } }
    FirstDifferenceReflexive(Components(a) + [0], 0);
  }

  // ------------------------------------------------------ compareVersions

  /** `compareVersions` as written: the loop returns `ad - bd` in `Int`
      arithmetic, which wraps around when the components are far apart. */
  method CompareVersions(a: string, b: string) returns (r: Int32)
    ensures r == Wrap32(VersionOrder(a, b))
  {
    var av := Components(a);
    var bv := Components(b);
    var n := Max(|av|, |bv|);
    var i := 0;
    while i < n
      invariant 0 <= i <= n
      invariant FirstDifference(av, bv, i) == FirstDifference(av, bv, 0)
    {
      var ad := At(av, i);
      var bd := At(bv, i);
      if ad != bd {
        assert FirstDifference(av, bv, i) == ad - bd;
        return Wrap32(ad - bd);
      }
      i := i + 1;
    }
    return 0;
  }

  lemma ComponentsOfSingle(x: string)
    requires '.' !in x
    ensures Components(x) == [ToIntOrNull(x).GetOr(0)]
  {
    SplitWithout(x);
  }

  lemma ComponentsOfMaxInt()
    ensures Components(IntToString(MaxInt32)) == [MaxInt32]
  {
    var big := IntToString(MaxInt32);
    NatToStringValue(MaxInt32);
    ToIntOrNullOfDigits(big);
    ComponentsOfSingle(big);
  }

  lemma ComponentsOfMinusOne()
    ensures Components("-1") == [-1]
  {
    assert "-1"[1..] == "1";
    assert DigitsValue("1") == 1 by { assert "1"[..0] == ""; }
    ComponentsOfSingle("-1");
  }

  /** With components 2147483647 and -1 the wrapped difference is negative
      both ways round, so each version is older than the other. */
  lemma CompareVersionsOverflow()
    ensures var big := IntToString(MaxInt32);
      Wrap32(VersionOrder(big, "-1")) < 0 && Wrap32(VersionOrder("-1", big)) < 0
  {
    var big := IntToString(MaxInt32);
    ComponentsOfMaxInt();
    ComponentsOfMinusOne();
    assert VersionOrder(big, "-1") == FirstDifference([MaxInt32], [-1], 0);
    assert FirstDifference([MaxInt32], [-1], 0) == MaxInt32 + 1;
    VersionOrderAntisymmetric(big, "-1");
    WrapJustPastMax();
  }

  /** One past the largest Int is the smallest, and so is its negation. */
  lemma WrapJustPastMax()
    ensures Wrap32(MaxInt32 + 1) == MinInt32 && Wrap32(-MaxInt32 - 1) == MinInt32
  {
  }

  predicate NonNegativeComponents(v: string)
  {
    forall i :: 0 <= i < |Components(v)| ==> Components(v)[i] >= 0
  }

  lemma {:induction false} FirstDifferenceBounded(av: seq<Int32>, bv: seq<Int32>, i: nat)
    requires forall k :: 0 <= k < |av| ==> av[k] >= 0
    requires forall k :: 0 <= k < |bv| ==> bv[k] >= 0
    ensures MinInt32 <= FirstDifference(av, bv, i) <= MaxInt32
    decreases Max(|av|, |bv|) - i
  {
    if i < Max(|av|, |bv|) && At(av, i) == At(bv, i) { FirstDifferenceBounded(av, bv, i + 1); }
  }

  /** Without negative components nothing wraps: `compareVersions` as written
      returns the exact order. */
  lemma CompareVersionsExactWithoutNegatives(a: string, b: string)
    requires NonNegativeComponents(a) && NonNegativeComponents(b)
    ensures Wrap32(VersionOrder(a, b)) == VersionOrder(a, b)
  {
    FirstDifferenceBounded(Components(a), Components(b), 0);
  }

  /** The comparison as evidently intended: the sign of the first differing
      pair of components, as `ad.compareTo(bd)` gives it. */
  method CompareVersionsCorrected(a: string, b: string) returns (r: int)
    ensures r == Sign(VersionOrder(a, b))
    ensures -1 <= r <= 1
  {
    var av := Components(a);
    var bv := Components(b);
    var n := Max(|av|, |bv|);
    var i := 0;
    while i < n
      invariant 0 <= i <= n
      invariant FirstDifference(av, bv, i) == FirstDifference(av, bv, 0)
    {
      var ad := At(av, i);
      var bd := At(bv, i);
      if ad != bd {
        return if ad < bd then -1 else 1;
      }
      i := i + 1;
    }
    return 0;
  }

  // ---------------------------------------------- properties and fallbacks

  /** `repositoryUrl`: the `app.repositoryUrl` property, else a GitHub Pages
      URL derived from an `app.vcs-url` mentioning github.com, else null. */
  function RepositoryUrl(props: map<string, string>): (r: Option<string>)
    ensures "app.repositoryUrl" in props ==> r == Some(props["app.repositoryUrl"])
    ensures "app.repositoryUrl" !in props && "app.vcs-url" !in props ==> r.None?
    ensures "app.repositoryUrl" !in props && r.Some? ==>
      exists user, repo :: GitHubPattern.Find(props["app.vcs-url"]) == Some((user, repo))
        && r.value == "https://" + user + ".github.io/" + repo + "/releases/latest/download"
  {
    if "app.repositoryUrl" in props then Some(props["app.repositoryUrl"])
    else if "app.vcs-url" in props && Contains(props["app.vcs-url"], "github.com") then
      match GitHubPattern.Find(props["app.vcs-url"])
      case Some((user, repo)) => Some("https://" + user + ".github.io/" + repo + "/releases/latest/download")
      case None => None
    else None
  }

  /** The fallback uses the repository segment verbatim: unlike the model
      repository client it does not strip a clone URL's ".git". */
  lemma {:induction false} RepositoryUrlFromCanonicalVcs(user: string, repo: string)
    requires |user| > 0 && |repo| > 0 && '/' !in user && '/' !in repo
    ensures var props := map["app.vcs-url" := "https://github.com/" + user + "/" + repo];
      RepositoryUrl(props) == Some("https://" + user + ".github.io/" + repo + "/releases/latest/download")
  {
    var prefix := "https://github.com/";
    var vcs := prefix + user + "/" + repo;
    FindOnCanonicalVcs(user, repo);
    AppendAssoc(prefix, user, "/");
    AppendAssoc(prefix, user + "/", repo);
    assert vcs == prefix + (user + "/" + repo);
    StartsWithAppend(prefix, user + "/" + repo);
    MentionsGitHub(vcs);
    RepositoryUrlFromVcs(vcs, user, repo);
  }

  lemma FindOnCanonicalVcs(user: string, repo: string)
    requires |user| > 0 && |repo| > 0 && '/' !in user && '/' !in repo
    ensures GitHubPattern.Find("https://github.com/" + user + "/" + repo) == Some((user, repo))
  {
    assert "https://github.com/" == "https://" + GitHubPattern.Host;
    GitHubPattern.FindOnCanonicalUrl(user, repo, "");
    var u := "https://github.com/" + user + "/" + repo;
    assert u + "" == u;
  }

  lemma RepositoryUrlFromVcs(vcs: string, user: string, repo: string)
    requires Contains(vcs, "github.com") && GitHubPattern.Find(vcs) == Some((user, repo))
    ensures RepositoryUrl(map["app.vcs-url" := vcs]) == Some("https://" + user + ".github.io/" + repo + "/releases/latest/download")
  {
  }

  lemma MentionsGitHub(vcs: string)
    requires StartsWith(vcs, "https://github.com/")
    ensures Contains(vcs, "github.com")
  {
    assert vcs[..19] == "https://github.com/";
    assert vcs[8..18] == "github.com";
    assert OccursAt(vcs, "github.com", 8);
  }

  /** `getCurrentVersion`: `app.version`, else `app.version.from.conveyor`,
      else "unknown". */
  function CurrentVersion(props: map<string, string>): (r: string)
    ensures "app.version" in props ==> r == props["app.version"]
    ensures "app.version" !in props && "app.version.from.conveyor" in props ==> r == props["app.version.from.conveyor"]
    ensures "app.version" !in props && "app.version.from.conveyor" !in props ==> r == "unknown"
    ensures r in props.Values || r == "unknown"
  {
    if "app.version" in props then props["app.version"]
    else if "app.version.from.conveyor" in props then props["app.version.from.conveyor"]
    else "unknown"
  }

  // ------------------------------------------------------------ decisions

  /** `checkViaHttp` given the outcome of loading `metadata.properties`
      (Failure for any exception). The comparison is the corrected one. */
  function CheckViaHttp(props: map<string, string>, metadata: Result<map<string, string>, string>): (r: Option<UpdateInfo>)
    ensures r.Some? <==>
      RepositoryUrl(props).Some? && metadata.Success? && "app.version" in metadata.value
      && VersionOrder(metadata.value["app.version"], CurrentVersion(props)) > 0
    ensures r.Some? ==>
      r.value == UpdateInfo(CurrentVersion(props), metadata.value["app.version"], RepositoryUrl(props).value, false)
  {
    match RepositoryUrl(props)
    case None => None
    case Some(url) =>
      match metadata
      case Failure(_) => None
      case Success(meta) =>
        if "app.version" !in meta then None
        else
          var latest := meta["app.version"];
          var current := CurrentVersion(props);
          if VersionOrder(latest, current) > 0 then Some(UpdateInfo(current, latest, url, false)) else None
  }

  /** `checkViaControlApi` given the replies of the two controller calls
      (Failure for an exception) and the controller's version order. The
      latest version is only asked for once the current one is known. */
  function CheckViaControlApi(
    props: map<string, string>,
    current: Result<Option<string>, string>,
    latest: Result<Option<string>, string>,
    compareTo: (string, string) -> int): (r: Option<UpdateInfo>)
    ensures r.Some? <==>
      current.Success? && current.value.Some? && latest.Success? && latest.value.Some?
      && compareTo(latest.value.value, current.value.value) > 0
    ensures r.Some? ==>
      r.value == UpdateInfo(current.value.value, latest.value.value, RepositoryUrl(props).GetOr(""), true)
  {
    match current
    case Failure(_) => None
    case Success(None) => None
    case Success(Some(cur)) =>
      match latest
      case Failure(_) => None
      case Success(None) => None
      case Success(Some(lat)) =>
        if compareTo(lat, cur) > 0 then Some(UpdateInfo(cur, lat, RepositoryUrl(props).GetOr(""), true)) else None
  }

  /** `checkForUpdate`: the control API when a controller exists, else HTTP
      polling; only the former can update itself. */
  function CheckForUpdate(
    props: map<string, string>, controllerPresent: bool,
    current: Result<Option<string>, string>, latest: Result<Option<string>, string>,
    compareTo: (string, string) -> int,
    metadata: Result<map<string, string>, string>): (r: Option<UpdateInfo>)
    ensures r.Some? ==> r.value.canAutoUpdate == controllerPresent
    ensures controllerPresent ==> r == CheckViaControlApi(props, current, latest, compareTo)
    ensures !controllerPresent ==> r == CheckViaHttp(props, metadata)
  {
    if controllerPresent then CheckViaControlApi(props, current, latest, compareTo) else CheckViaHttp(props, metadata)
  }

  /** Over HTTP no update is ever reported for the running version itself. */
  lemma NoUpdateToSameVersion(props: map<string, string>, metadata: Result<map<string, string>, string>)
    requires metadata.Success? && "app.version" in metadata.value
    requires metadata.value["app.version"] == CurrentVersion(props)
    ensures CheckViaHttp(props, metadata).None?
  {
    VersionOrderReflexive(CurrentVersion(props));
  }
}

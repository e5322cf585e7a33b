/**
 * `BuildInfoResultAction`: the badge on a build page linking to the build's
 * info in Artifactory. The link is computed once, when the action is
 * created; actions saved by old versions hold no link but the publisher and
 * build to compute it from.
 */
module BuildInfoResult {
  import opened Wrappers
  import opened JavaStrings
  import opened Hudson

  const ICON_FILE_NAME: string := "/plugin/artifactory/images/artifactory-icon.png"
  const DISPLAY_NAME: string := "Artifactory Build Info"
  const BUILDS_PATH: string := "/webapp/builds/"

  /** The two foreign helpers the link depends on: `Util.rawEncode` and
      `ExtractorUtils.sanitizeBuildName`. */
  datatype UrlHelpers = UrlHelpers(rawEncode: string -> string, sanitizeBuildName: string -> string)

  /** The deprecated `ArtifactoryRedeployPublisher`, as far as the fallback reads it. */
  datatype LegacyPublisher = LegacyPublisher(artifactoryName: JString)

  /** The action's state: the link, and the two transient fields only
      actions saved by old versions carry. */
  datatype BuildInfoResultAction = BuildInfoResultAction(
    url: JString,
    legacyPublisher: Option<LegacyPublisher>,
    legacyBuild: Option<Build>)

  /** The link: root, the builds page, the encoded sanitised job name and
      the build number, separated by slashes. A null root reads "null". */
  function GenerateUrl(artifactoryRootUrl: JString, build: Build, h: UrlHelpers): (r: string)
    ensures StartsWith(r, ConcatForm(artifactoryRootUrl) + BUILDS_PATH)
    ensures EndsWith(r, "/" + IntToString(build.number))
  {
    var prefix := ConcatForm(artifactoryRootUrl) + BUILDS_PATH;
    var name := h.rawEncode(h.sanitizeBuildName(build.fullName));
    var suffix := "/" + IntToString(build.number);
    var r := prefix + name + suffix;
    assert r[..|prefix|] == prefix;
    assert r[|r| - |suffix|..] == suffix;
    r
  }

  /** The position of the last '/' in `s`, if any. */
  function LastSlash(s: string): (r: Option<nat>)
    ensures r.None? ==> forall j | 0 <= j < |s| :: s[j] != '/'
    ensures r.Some? ==> r.value < |s| && s[r.value] == '/' && forall j | r.value < j < |s| :: s[j] != '/'
    decreases |s|
  {
    if s == [] then None
    else if s[|s| - 1] == '/' then Some(|s| - 1)
    else LastSlash(s[..|s| - 1])
  }

  /** Reading a link back: the encoded job name and the build number text,
      or `None` when the link does not start with the given root and the
      builds page or has no slash after it. */
  function ParseBuildUrl(root: string, url: string): Option<(string, string)>
  {
    var prefix := root + BUILDS_PATH;
    if !StartsWith(url, prefix) then None
    else
      var rest := url[|prefix|..];
      match LastSlash(rest)
      case None => None
      case Some(i) => Some((rest[..i], rest[i + 1..]))
  }

  /** The last slash of `a + "/" + b` is the one between them when `b` holds none. */
  lemma LastSlashBeforeSegment(a: string, b: string)
    requires '/' !in b
    ensures LastSlash(a + "/" + b) == Some(|a|)
  {
    var s := a + "/" + b;
    assert s[|a|] == '/';
    assert forall j | |a| < j < |s| :: s[j] == b[j - |a| - 1];
  }

  /** A link built from a root, a name and a segment without slashes
      reads back as that name and segment. */
  lemma ParseOfLink(root: string, name: string, n: string)
    requires '/' !in n
    ensures ParseBuildUrl(root, root + BUILDS_PATH + name + ("/" + n)) == Some((name, n))
  {
    var prefix := root + BUILDS_PATH;
    var rest := name + "/" + n;
    var url := prefix + name + ("/" + n);
    assert url == prefix + rest;
    assert url[..|prefix|] == prefix;
    assert url[|prefix|..] == rest;
    LastSlashBeforeSegment(name, n);
    assert rest[..|name|] == name;
    assert rest[|name| + 1..] == n;
  }

  /** Round trip: whatever the encoded job name holds, slashes included, a
      generated link reads back as that name and the build number, because
      the number holds no slash. */
  lemma ParseGenerateUrl(artifactoryRootUrl: JString, build: Build, h: UrlHelpers)
    ensures ParseBuildUrl(ConcatForm(artifactoryRootUrl), GenerateUrl(artifactoryRootUrl, build, h)) ==
      Some((h.rawEncode(h.sanitizeBuildName(build.fullName)), IntToString(build.number)))
  {
    IntToStringIsSegment(build.number);
    ParseOfLink(ConcatForm(artifactoryRootUrl), h.rawEncode(h.sanitizeBuildName(build.fullName)), IntToString(build.number));
  }

  /** `new BuildInfoResultAction(root, build)`: the link is generated here,
      once; the legacy fields stay empty. */
  function NewBuildInfoResultAction(artifactoryRootUrl: JString, build: Build, h: UrlHelpers): (a: BuildInfoResultAction)
    ensures a.url.Some? && a.legacyPublisher.None? && a.legacyBuild.None?
    ensures ParseBuildUrl(ConcatForm(artifactoryRootUrl), a.url.value) ==
      Some((h.rawEncode(h.sanitizeBuildName(build.fullName)), IntToString(build.number)))
  {
    ParseGenerateUrl(artifactoryRootUrl, build, h);
    BuildInfoResultAction(Some(GenerateUrl(artifactoryRootUrl, build, h)), None, None)
  }

  /** The stored link whenever there is one; for an old action without
      one, the link recomputed from the legacy publisher's Artifactory name
      and the legacy build when both are present; otherwise null. */
  function GetUrlName(a: BuildInfoResultAction, h: UrlHelpers): (r: JString)
    ensures a.url.Some? ==> r == a.url
    ensures a.url.None? && a.legacyPublisher.Some? && a.legacyBuild.Some? ==>
      r.Some? &&
      ParseBuildUrl(ConcatForm(a.legacyPublisher.value.artifactoryName), r.value) ==
        Some((h.rawEncode(h.sanitizeBuildName(a.legacyBuild.value.fullName)), IntToString(a.legacyBuild.value.number)))
    ensures a.url.None? && (a.legacyPublisher.None? || a.legacyBuild.None?) ==> r.None?
  {
    if a.url.None? && a.legacyPublisher.Some? && a.legacyBuild.Some? then
      ParseGenerateUrl(a.legacyPublisher.value.artifactoryName, a.legacyBuild.value, h);
      Some(GenerateUrl(a.legacyPublisher.value.artifactoryName, a.legacyBuild.value, h))
    else a.url
  }
}

/**
 * `GenericArtifactsDeployer`: the generic (free-style) deployment of
 * workspace files to an Artifactory repository. The deploy pattern is
 * normalised and parsed into (pattern, target) pairs; the files each pattern
 * matches are gathered into one target-path to file multimap; each match
 * becomes one deploy descriptor carrying the build's properties; the
 * descriptors are uploaded one by one, the first failure aborting the rest;
 * on success the descriptors become the build's artifact list.
 *
 * Pattern parsing and matching, target-path calculation, checksums and macro
 * expansion are not the plugin's own code: they are the fields of `Helpers`.
 */
module GenericDeploy {
  import opened Wrappers
  import opened JavaStrings
  import opened Hudson
  import opened BuildInfoClient
  import opened Server
  import opened Actionable

  // ---------------------------------------------------------------------------
  // The foreign helpers and the build log

  /** One (Ant-style pattern, target path) pair of the deploy pattern. */
  datatype PatternPair = PatternPair(pattern: string, targetPath: string)

  /** The MD5 and SHA-1 digests of a file, as hex strings. */
  datatype Checksums = Checksums(md5: string, sha1: string)

  /**
   * The code the deployer calls but does not own, with the build's
   * environment already bound:
   * - `expand`: `Util.replaceMacro` on a non-null string;
   * - `patternPairs`: `PublishedItemsHelper.getPublishedItemsPatternPairs`;
   * - `publishingData`: `PublishedItemsHelper.buildPublishingData` over the
   *   workspace, `None` for its null result;
   * - `calculateTargetPath`: `PublishedItemsHelper.calculateTargetPath`;
   * - `checksums`: `FileChecksumCalculator.calculateChecksums` for SHA1 and
   *   MD5, `None` when an algorithm is missing;
   * - `sanitizeBuildName`: `ExtractorUtils.sanitizeBuildName`;
   * - `vcsRevision`: `ExtractorUtils.getVcsRevision`;
   * - `extension`: `FilenameUtils.getExtension`.
   */
  datatype Helpers = Helpers(
    expand: string -> string,
    patternPairs: JString -> set<PatternPair>,
    publishingData: PatternPair -> Option<set<(string, File)>>,
    calculateTargetPath: (string, File) -> string,
    checksums: File -> Option<Checksums>,
    sanitizeBuildName: string -> string,
    vcsRevision: JString,
    extension: string -> string)

  /** What the deployer writes to the build log, without the message text. */
  datatype LogEvent =
    | PatternMatched(pattern: string, count: nat)
    | PatternUnmatched(pattern: string)
    | ChecksumAlgorithmMissing
    | DeployingArtifact(destination: string)

  /** The build's `BuildListener`: the log written so far. */
  class BuildListener {
    var events: seq<LogEvent>

    constructor ()
      ensures events == []
    {
      events := [];
    }

    method Log(e: LogEvent)
      modifies this
      ensures events == old(events) + [e]
    {
      events := events + [e];
    }
  }

  // ---------------------------------------------------------------------------
  // The deploy pattern

  /** `Util.replaceMacro`: null stays null. */
  function ReplaceMacro(h: Helpers, s: JString): JString
  {
    if s.None? then None else Some(h.expand(s.value))
  }

  /** `StringUtils.replace` with a non-empty search string: null stays null. */
  function ReplaceAll(s: JString, search: string, rep: string): JString
    requires search != []
  {
    if s.None? then None else Some(Replace(s.value, search, rep))
  }

  /** The pattern handed to the pair parser: macros expanded, then CRLF
      line ends and then commas turned into LF. */
  function NormalizeDeployPattern(h: Helpers, raw: JString): (r: JString)
    ensures r.None? <==> raw.None?
    ensures r.Some? ==> ',' !in r.value
  {
    var expanded := ReplaceMacro(h, raw);
    var lines := ReplaceAll(expanded, "\r\n", "\n");
    var r := ReplaceAll(lines, ",", "\n");
    if r.Some? then
      ReplaceRemovesChar(lines.value, ',', "\n");
      r
    else r
  }

  /** Text without CRLF or commas is left as it is (after macro expansion). */
  lemma NormalizeKeepsPlainPattern(h: Helpers, raw: string)
    requires !Contains(h.expand(raw), "\r\n") && ',' !in h.expand(raw)
    ensures NormalizeDeployPattern(h, Some(raw)) == Some(h.expand(raw))
  {
    var e := h.expand(raw);
    ReplaceAbsent(e, "\r\n", "\n");
    forall i | 0 <= i <= |e| - 1
      ensures !OccursAt(e, ",", i)
    {
      assert e[i..i + 1][0] == e[i];
    }
    ReplaceAbsent(e, ",", "\n");
  }

  /** Without CRLF in the expansion, normalising keeps its length and turns
      each comma, and nothing else, into LF. */
  lemma NormalizeTurnsCommasIntoLines(h: Helpers, raw: string)
    requires !Contains(h.expand(raw), "\r\n")
    ensures NormalizeDeployPattern(h, Some(raw)).Some?
    ensures var e := h.expand(raw);
      var r := NormalizeDeployPattern(h, Some(raw)).value;
      |r| == |e| &&
      forall i | 0 <= i < |e| :: r[i] == (if e[i] == ',' then '\n' else e[i])
  {
    var e := h.expand(raw);
    ReplaceAbsent(e, "\r\n", "\n");
    ReplaceCharPointwise(e, ',', '\n');
  }

  /** Comma-free lines without carriage returns, joined with CRLF, reach the
      pair parser joined with LF. */
  lemma NormalizeJoinsCrlfLines(h: Helpers, raw: string, lines: seq<string>)
    requires h.expand(raw) == JoinLines(lines, "\r\n")
    requires forall k | 0 <= k < |lines| :: '\r' !in lines[k] && ',' !in lines[k]
    ensures NormalizeDeployPattern(h, Some(raw)) == Some(JoinLines(lines, "\n"))
  {
    ReplaceCrlfJoin(lines);
    var j := JoinLines(lines, "\n");
    JoinLinesAvoids(lines, "\n", ',');
    forall i | 0 <= i <= |j| - 1
      ensures !OccursAt(j, ",", i)
    {
      assert j[i..i + 1][0] == j[i];
    }
    ReplaceAbsent(j, ",", "\n");
  }

  // ---------------------------------------------------------------------------
  // The build properties

  /** `BuildInfoFields.VCS_REVISION`. */
  const VCS_REVISION: string := "vcs.revision"

  /** The properties every descriptor carries before the matrix parameters
      are added: the sanitised job name, the build number and start time,
      the upstream job and build when the build was triggered by one, and the
      VCS revision unless it is blank. */
  function BuiltInProperties(build: Build, parent: Option<Cause>, h: Helpers): (m: map<string, string>)
    ensures "build.name" in m && m["build.name"] == h.sanitizeBuildName(build.fullName)
    ensures "build.number" in m && m["build.number"] == IntToString(build.number)
    ensures "build.timestamp" in m && m["build.timestamp"] == IntToString(build.timestampMillis)
    ensures ("build.parentName" in m) == ("build.parentNumber" in m) == (parent.Some? && parent.value.UpstreamCause?)
    ensures parent.Some? && parent.value.UpstreamCause? ==>
      m["build.parentName"] == h.sanitizeBuildName(parent.value.upstreamProject) &&
      m["build.parentNumber"] == IntToString(parent.value.upstreamBuild)
    ensures VCS_REVISION in m <==> !IsBlank(h.vcsRevision)
    ensures VCS_REVISION in m ==> m[VCS_REVISION] == h.vcsRevision.value
    ensures forall k | k in m :: k in {"build.name", "build.number", "build.timestamp", "build.parentName",
                                      "build.parentNumber", VCS_REVISION}
  {
    var base := map["build.name" := h.sanitizeBuildName(build.fullName),
                     "build.number" := IntToString(build.number),
                     "build.timestamp" := IntToString(build.timestampMillis)];
    var withParent :=
      if parent.Some? && parent.value.UpstreamCause? then
        base["build.parentName" := h.sanitizeBuildName(parent.value.upstreamProject)]
            ["build.parentNumber" := IntToString(parent.value.upstreamBuild)]
      else base;
    if !IsBlank(h.vcsRevision) then withParent[VCS_REVISION := h.vcsRevision.value] else withParent
  }

  /** The characters the matrix parameter string is split on. */
  const MatrixSeparators: set<char> := {';', ' '}

  /** The `key=value` tokens of the matrix parameters; none for null. */
  function MatrixTokens(matrixParams: JString): (tokens: seq<string>)
    ensures matrixParams.None? ==> tokens == []
    ensures ValidTokens(tokens, MatrixSeparators)
  {
    if matrixParams.None? then []
    else
      SplitTokensValid(matrixParams.value, MatrixSeparators);
      Split(matrixParams.value, MatrixSeparators)
  }

  /** One token: when it splits on '=' into exactly two (non-empty) parts,
      the key and the macro-expanded value; otherwise nothing. */
  function ParseMatrixParam(h: Helpers, token: string): (r: Option<(string, string)>)
    ensures r.Some? <==> |Split(token, {'='})| == 2
    ensures r.Some? ==> r.value.0 != [] && '=' !in r.value.0
    ensures r.Some? ==> r.value == (Split(token, {'='})[0], h.expand(Split(token, {'='})[1]))
  {
    var parts := Split(token, {'='});
    if |parts| == 2 then
      SplitTokensValid(token, {'='});
      assert parts[0] != [];
      Some((parts[0], h.expand(parts[1])))
    else None
  }

  /** A `key=value` token with a non-empty key and value and no further
      '=' is accepted as written. */
  lemma ParseMatrixParamOfPair(h: Helpers, key: string, value: string)
    requires key != [] && value != [] && '=' !in key && '=' !in value
    ensures ParseMatrixParam(h, key + "=" + value) == Some((key, h.expand(value)))
  {
    var parts := [key, value];
    assert ValidTokens(parts, {'='});
    assert Join(parts, '=') == key + "=" + value;
    SplitJoin(parts, '=', {'='});
  }

  /** The accepted entries of the matrix parameters, in order. */
  function MatrixEntries(h: Helpers, tokens: seq<string>): (entries: seq<(string, string)>)
    ensures |entries| <= |tokens|
    ensures forall e | e in entries :: exists t | t in tokens :: ParseMatrixParam(h, t) == Some(e)
    decreases |tokens|
  {
    if tokens == [] then []
    else
      var init := tokens[..|tokens| - 1];
      var last := tokens[|tokens| - 1];
      var rest := MatrixEntries(h, init);
      assert forall t | t in init :: t in tokens;
      match ParseMatrixParam(h, last)
      case None => rest
      case Some(e) => rest + [e]
  }

  /** `HashMap.put` of every entry in order: a later entry for a key
      replaces an earlier one. */
  function PutPairs(m: map<string, string>, entries: seq<(string, string)>): (r: map<string, string>)
    ensures forall k :: k in r <==> k in m || exists i | 0 <= i < |entries| :: entries[i].0 == k
    ensures forall k | k in m && forall i | 0 <= i < |entries| :: entries[i].0 != k :: r[k] == m[k]
    decreases |entries|
  {
    if entries == [] then m
    else
      var init := entries[..|entries| - 1];
      var last := entries[|entries| - 1];
      var rest := PutPairs(m, init);
      assert forall i | 0 <= i < |init| :: init[i] == entries[i];
      rest[last.0 := last.1]
  }

  /** The value a key ends up with is the one of its last entry. */
  lemma {:induction false} PutPairsLastWins(m: map<string, string>, entries: seq<(string, string)>, i: nat)
    requires i < |entries|
    requires forall j | i < j < |entries| :: entries[j].0 != entries[i].0
    ensures PutPairs(m, entries)[entries[i].0] == entries[i].1
    decreases |entries|
  {
    if i < |entries| - 1 {
      var init := entries[..|entries| - 1];
      assert init[i] == entries[i];
      PutPairsLastWins(m, init, i);
    }
  }

  /** One more token puts its entry, if it has one, on top of the map so far. */
  lemma MatrixEntriesStep(h: Helpers, m: map<string, string>, tokens: seq<string>, i: nat)
    requires i < |tokens|
    ensures var before := PutPairs(m, MatrixEntries(h, tokens[..i]));
      PutPairs(m, MatrixEntries(h, tokens[..i + 1])) ==
        match ParseMatrixParam(h, tokens[i])
        case None => before
        case Some(e) => before[e.0 := e.1]
  {
    assert tokens[..i + 1][..i] == tokens[..i];
    var entries := MatrixEntries(h, tokens[..i]);
    match ParseMatrixParam(h, tokens[i])
    case None =>
    case Some(e) =>
      assert (entries + [e])[..|entries|] == entries;
  }

  /** The property map: the built-in properties, then the matrix entries,
      which may replace them. */
  function BuildPropertiesMap(build: Build, parent: Option<Cause>, h: Helpers, matrixParams: JString): (r: map<string, string>)
    ensures var entries := MatrixEntries(h, MatrixTokens(matrixParams));
      forall k :: k in r <==> k in BuiltInProperties(build, parent, h) || exists i | 0 <= i < |entries| :: entries[i].0 == k
    ensures var entries := MatrixEntries(h, MatrixTokens(matrixParams));
      var builtIn := BuiltInProperties(build, parent, h);
      forall k | k in builtIn && forall i | 0 <= i < |entries| :: entries[i].0 != k :: r[k] == builtIn[k]
  {
    PutPairs(BuiltInProperties(build, parent, h), MatrixEntries(h, MatrixTokens(matrixParams)))
  }

  /** A built-in key no matrix entry names keeps its built-in value; any
      key a matrix entry names takes the value of its last entry. */
  lemma BuildPropertiesPrecedence(build: Build, parent: Option<Cause>, h: Helpers, matrixParams: JString, i: nat)
    requires var entries := MatrixEntries(h, MatrixTokens(matrixParams));
      i < |entries| && forall j | i < j < |entries| :: entries[j].0 != entries[i].0
    ensures var entries := MatrixEntries(h, MatrixTokens(matrixParams));
      BuildPropertiesMap(build, parent, h, matrixParams)[entries[i].0] == entries[i].1
  {
    PutPairsLastWins(BuiltInProperties(build, parent, h), MatrixEntries(h, MatrixTokens(matrixParams)), i);
  }

  // ---------------------------------------------------------------------------
  // Paths

  predicate NoDoubleSlash(s: string)
  {
    forall i | 0 <= i < |s| - 1 :: !(s[i] == '/' && s[i + 1] == '/')
  }

  predicate NoTripleSlash(s: string)
  {
    forall i | 0 <= i < |s| - 2 :: !(s[i] == '/' && s[i + 1] == '/' && s[i + 2] == '/')
  }

  /** The artifact path: "//" replaced by "/" in one left-to-right pass. */
  function NormalizeArtifactPath(path: string): (r: string)
    ensures |r| <= |path|
  {
    ReplaceShrinks(path, "//", "/");
    Replace(path, "//", "/")
  }

  /** One pass removes every double slash from paths without a triple
      slash, and keeps whether the path starts with a slash. */
  lemma {:induction false} NormalizeArtifactPathSingleSlashes(path: string)
    requires NoTripleSlash(path)
    ensures NoDoubleSlash(NormalizeArtifactPath(path))
    ensures var r := NormalizeArtifactPath(path);
      (r != [] && r[0] == '/') <==> (path != [] && path[0] == '/')
    decreases |path|
  {
    var r := NormalizeArtifactPath(path);
    if |path| < 2 {
    } else if path[..2] == "//" {
      var tail := path[2..];
      assert NoTripleSlash(tail) by {
        forall i | 0 <= i < |tail| - 2 ensures !(tail[i] == '/' && tail[i + 1] == '/' && tail[i + 2] == '/') {
          assert tail[i] == path[i + 2] && tail[i + 1] == path[i + 3] && tail[i + 2] == path[i + 4];
        }
      }
      NormalizeArtifactPathSingleSlashes(tail);
      var rt := NormalizeArtifactPath(tail);
      assert r == "/" + rt;
      assert tail != [] ==> tail[0] != '/' by {
        if tail != [] {
          assert path[0] == '/' && path[1] == '/' && path[2] == tail[0];
        }
      }
    } else {
      var tail := path[1..];
      assert NoTripleSlash(tail) by {
        forall i | 0 <= i < |tail| - 2 ensures !(tail[i] == '/' && tail[i + 1] == '/' && tail[i + 2] == '/') {
          assert tail[i] == path[i + 1] && tail[i + 1] == path[i + 2] && tail[i + 2] == path[i + 3];
        }
      }
      NormalizeArtifactPathSingleSlashes(tail);
      var rt := NormalizeArtifactPath(tail);
      assert r == [path[0]] + rt;
      assert path[0] == '/' ==> tail[0] != '/' by {
        assert path[..2] == [path[0], path[1]];
      }
    }
  }

  /** A run of three slashes becomes two: the pass does not repeat. */
  lemma NormalizeArtifactPathTripleSlash()
    ensures NormalizeArtifactPath("a///b") == "a//b"
  {
    var s := "a///b";
    assert s[..2][0] != "//"[0];
    assert s[1..][..2] == "//";
    assert s[1..][2..] == "/b";
    assert "/b"[..2][1] != "//"[1];
    assert "/b"[1..] == "b";
  }

  /** Where a descriptor goes, as the log shows it: the server URL, the
      repository key, and the artifact path, joined by single slashes unless
      the path brings its own leading one. */
  function DeploymentPath(url: string, repositoryKey: string, artifactPath: string): (r: string)
    ensures StartsWith(artifactPath, "/") ==> r == url + "/" + repositoryKey + "/" + artifactPath[1..]
    ensures !StartsWith(artifactPath, "/") ==> r == url + "/" + repositoryKey + "/" + artifactPath
  {
    if StartsWith(artifactPath, "/") then
      assert artifactPath == "/" + artifactPath[1..];
      url + "/" + repositoryKey + artifactPath
    else url + "/" + repositoryKey + "/" + artifactPath
  }

  // ---------------------------------------------------------------------------
  // Hash containers

  ghost predicate Distinct<T>(xs: seq<T>)
  {
    forall i, j | 0 <= i < j < |xs| :: xs[i] != xs[j]
  }

  /** The elements of a set, each once, in some fixed order: the iteration
      order of a `HashSet` or `HashMultimap`, which nothing specifies. */
  method Enumerate<T(==)>(s: set<T>) returns (xs: seq<T>)
    ensures forall x :: x in xs <==> x in s
    ensures Distinct(xs)
    ensures |xs| == |s|
  {
    xs := [];
    var left := s;
    while left != {}
      invariant left <= s
      invariant forall x :: x in xs <==> x in s && x !in left
      invariant Distinct(xs)
      invariant |xs| + |left| == |s|
      decreases |left|
    {
      var x :| x in left;
      xs := xs + [x];
      left := left - {x};
    }
  }

  // ---------------------------------------------------------------------------
  // Matches and descriptors

  /** The target-path to file multimap: every (target path, file) entry of
      every pattern whose publishing data is not null. */
  ghost function TargetPathToFiles(pairs: set<PatternPair>, h: Helpers): (r: set<(string, File)>)
  {
    set p, e | p in pairs && h.publishingData(p).Some? && e in h.publishingData(p).value :: e
  }

  /** The same union, over patterns taken in a given order. */
  ghost function Gathered(ps: seq<PatternPair>, h: Helpers): set<(string, File)>
    decreases |ps|
  {
    if ps == [] then {}
    else
      Gathered(ps[..|ps| - 1], h) +
        (if h.publishingData(ps[|ps| - 1]).Some? then h.publishingData(ps[|ps| - 1]).value else {})
  }

  /** What gathering collects: the entries of every pattern taken that has
      publishing data. */
  lemma {:induction false} GatheredMembers(ps: seq<PatternPair>, h: Helpers, e: (string, File))
    ensures e in Gathered(ps, h) <==>
      exists j | 0 <= j < |ps| :: h.publishingData(ps[j]).Some? && e in h.publishingData(ps[j]).value
    decreases |ps|
  {
    if ps != [] {
      var init := ps[..|ps| - 1];
      GatheredMembers(init, h, e);
      assert forall j | 0 <= j < |init| :: init[j] == ps[j];
    }
  }

  /** The log lines of gathering, one per pattern in the order taken. */
  function PatternLog(ps: seq<PatternPair>, h: Helpers): (r: seq<LogEvent>)
    ensures |r| == |ps|
    ensures forall j | 0 <= j < |ps| :: r[j] == PatternEvent(ps[j], h)
    decreases |ps|
  {
    if ps == [] then []
    else PatternLog(ps[..|ps| - 1], h) + [PatternEvent(ps[|ps| - 1], h)]
  }

  /** The log lines of describing the matches, in the order taken: one
      line for each match whose checksums cannot be computed. */
  function ChecksumLog(h: Helpers, entries: seq<(string, File)>): (r: seq<LogEvent>)
    ensures |r| <= |entries|
    decreases |entries|
  {
    if entries == [] then []
    else ChecksumLog(h, entries[..|entries| - 1]) + ChecksumEvents(h, entries[|entries| - 1])
  }

  /** The log line of describing one match: one when its checksums cannot
      be computed, none otherwise. */
  function ChecksumEvents(h: Helpers, entry: (string, File)): seq<LogEvent>
  {
    if h.checksums(entry.1).None? then [ChecksumAlgorithmMissing] else []
  }

  /** Every checksum line says an algorithm is missing, and there is none
      exactly when every match has its checksums. */
  lemma {:induction false} ChecksumLogLines(h: Helpers, entries: seq<(string, File)>)
    ensures forall j | 0 <= j < |ChecksumLog(h, entries)| :: ChecksumLog(h, entries)[j] == ChecksumAlgorithmMissing
    ensures ChecksumLog(h, entries) == [] <==> forall j | 0 <= j < |entries| :: h.checksums(entries[j].1).Some?
    decreases |entries|
  {
    if entries != [] {
      var init := entries[..|entries| - 1];
      ChecksumLogLines(h, init);
      assert forall j | 0 <= j < |init| :: init[j] == entries[j];
    }
  }

  /** Describing one more match appends its checksum line, if any. */
  lemma ChecksumLogStep(h: Helpers, entries: seq<(string, File)>, i: nat, before: seq<LogEvent>)
    requires i < |entries|
    ensures before + ChecksumLog(h, entries[..i]) + ChecksumEvents(h, entries[i]) ==
            before + ChecksumLog(h, entries[..i + 1])
  {
    assert entries[..i + 1][..i] == entries[..i];
  }

  /** The log line for one pattern: how many files it matched, or that it
      matched nothing. */
  function PatternEvent(p: PatternPair, h: Helpers): (e: LogEvent)
    ensures h.publishingData(p).Some? ==> e == PatternMatched(p.pattern, |h.publishingData(p).value|)
    ensures h.publishingData(p).None? ==> e == PatternUnmatched(p.pattern)
  {
    match h.publishingData(p)
    case Some(data) => PatternMatched(p.pattern, |data|)
    case None => PatternUnmatched(p.pattern)
  }

  /** One more pattern adds its data to the gathered set and its line to the log. */
  lemma GatherStep(ps: seq<PatternPair>, i: nat, h: Helpers)
    requires i < |ps|
    ensures Gathered(ps[..i + 1], h) == Gathered(ps[..i], h) +
      (if h.publishingData(ps[i]).Some? then h.publishingData(ps[i]).value else {})
    ensures PatternLog(ps[..i + 1], h) == PatternLog(ps[..i], h) + [PatternEvent(ps[i], h)]
  {
    assert ps[..i + 1][..i] == ps[..i];
  }

  /** The descriptor for one match: the file, its normalised target path,
      the shared repository key and properties, and its checksums, both null
      when an algorithm is missing. */
  function DeployDetailsFor(h: Helpers, repositoryKey: string, properties: map<string, string>,
                            entry: (string, File)): (d: DeployDetails)
    ensures d.file == entry.1 && d.targetRepository == repositoryKey && d.properties == properties
    ensures d.artifactPath == NormalizeArtifactPath(h.calculateTargetPath(entry.0, entry.1))
    ensures h.checksums(entry.1).None? ==> d.md5.None? && d.sha1.None?
    ensures h.checksums(entry.1).Some? ==>
      d.md5 == Some(h.checksums(entry.1).value.md5) && d.sha1 == Some(h.checksums(entry.1).value.sha1)
  {
    var path := NormalizeArtifactPath(h.calculateTargetPath(entry.0, entry.1));
    match h.checksums(entry.1)
    case None => DeployDetails(entry.1, path, repositoryKey, None, None, properties)
    case Some(c) => DeployDetails(entry.1, path, repositoryKey, Some(c.md5), Some(c.sha1), properties)
  }

  /** The descriptors of all matches; equal descriptors collapse. */
  ghost function Descriptors(pairs: set<PatternPair>, h: Helpers, repositoryKey: string,
                             properties: map<string, string>): set<DeployDetails>
  {
    set e | e in TargetPathToFiles(pairs, h) :: DeployDetailsFor(h, repositoryKey, properties, e)
  }

  /** The manifest entry for a descriptor: its file's name and extension and
      its checksums. */
  function ToArtifact(h: Helpers, d: DeployDetails): Artifact
  {
    Artifact(d.file.name, d.md5, d.sha1, h.extension(d.file.name))
  }

  /** The manifest entry of a matched file's descriptor names the file and
      carries its checksums, both null when an algorithm is missing. */
  lemma ManifestEntryOfMatch(h: Helpers, repositoryKey: string, properties: map<string, string>, entry: (string, File))
    ensures var a := ToArtifact(h, DeployDetailsFor(h, repositoryKey, properties, entry));
      a.name == entry.1.name && a.artifactType == h.extension(entry.1.name) &&
      (h.checksums(entry.1).None? ==> a.md5.None? && a.sha1.None?) &&
      (h.checksums(entry.1).Some? ==>
        a.md5 == Some(h.checksums(entry.1).value.md5) && a.sha1 == Some(h.checksums(entry.1).value.sha1))
  {
  }

  // ---------------------------------------------------------------------------
  // Uploading

  /** How many descriptors, taken in order, upload before the first one
      the server rejects. */
  function Uploaded(order: seq<DeployDetails>, rejected: set<DeployDetails>): (n: nat)
    ensures n <= |order|
    ensures forall i | 0 <= i < n :: order[i] !in rejected
    ensures n < |order| ==> order[n] in rejected
    decreases |order|
  {
    if order == [] || order[0] in rejected then 0
    else 1 + Uploaded(order[1..], rejected)
  }

  /** The descriptors whose upload was attempted: the uploaded ones and the
      one that failed, if any. */
  function Attempted(order: seq<DeployDetails>, rejected: set<DeployDetails>): (n: nat)
    ensures n <= |order|
  {
    var k := Uploaded(order, rejected);
    if k < |order| then k + 1 else k
  }

  /** The "Deploying artifact" log lines for descriptors taken in order. */
  function DeployLog(url: string, repositoryKey: string, ds: seq<DeployDetails>): (r: seq<LogEvent>)
    ensures |r| == |ds|
    ensures forall i | 0 <= i < |ds| :: r[i] == DeployingArtifact(DeploymentPath(url, repositoryKey, ds[i].artifactPath))
  {
    seq(|ds|, i requires 0 <= i < |ds| => DeployingArtifact(DeploymentPath(url, repositoryKey, ds[i].artifactPath)))
  }

  /** The manifest for descriptors taken in order. */
  function Manifest(h: Helpers, ds: seq<DeployDetails>): (r: seq<Artifact>)
    ensures |r| == |ds|
    ensures forall i | 0 <= i < |ds| :: r[i] == ToArtifact(h, ds[i])
  {
    seq(|ds|, i requires 0 <= i < |ds| => ToArtifact(h, ds[i]))
  }

  /** `FilesDeployerCallable`: the part of the deployment that runs on the
      machine holding the workspace. */
  class FilesDeployerCallable {
    const listener: BuildListener
    const patternPairs: set<PatternPair>
    const server: ArtifactoryServer
    const credentials: Credentials
    const repositoryKey: string
    const buildProperties: map<string, string>
    const proxyConfiguration: Option<ProxyConfiguration>
    const h: Helpers

    constructor (listener: BuildListener, patternPairs: set<PatternPair>, server: ArtifactoryServer,
                 credentials: Credentials, repositoryKey: string, buildProperties: map<string, string>,
                 proxyConfiguration: Option<ProxyConfiguration>, h: Helpers)
      ensures this.listener == listener && this.patternPairs == patternPairs && this.server == server
      ensures this.credentials == credentials && this.repositoryKey == repositoryKey
      ensures this.buildProperties == buildProperties && this.proxyConfiguration == proxyConfiguration
      ensures this.h == h
    {
      this.listener := listener;
      this.patternPairs := patternPairs;
      this.server := server;
      this.credentials := credentials;
      this.repositoryKey := repositoryKey;
      this.buildProperties := buildProperties;
      this.proxyConfiguration := proxyConfiguration;
      this.h := h;
    }

    /** `buildTargetPathToFiles`: the union of the non-null publishing data
      of every pattern, a log line per pattern. */
    method BuildTargetPathToFiles() returns (result: set<(string, File)>, ghost order: seq<PatternPair>)
      modifies listener
      ensures result == TargetPathToFiles(patternPairs, h)
      ensures (forall p :: p in order <==> p in patternPairs) && Distinct(order)
      ensures listener.events == old(listener.events) + PatternLog(order, h)
    {
      var patterns := Enumerate(patternPairs);
      order := patterns;
      result := GatherAll(patterns);
      GatheredAll(patterns, patternPairs, h);
    }

    /** The loop of `buildTargetPathToFiles` over the patterns in the order taken. */
    method GatherAll(patterns: seq<PatternPair>) returns (result: set<(string, File)>)
      modifies listener
      ensures result == Gathered(patterns, h)
      ensures listener.events == old(listener.events) + PatternLog(patterns, h)
    {
      result := {};
      var i := 0;
      while i < |patterns|
        invariant 0 <= i <= |patterns|
        invariant result == Gathered(patterns[..i], h)
        invariant listener.events == old(listener.events) + PatternLog(patterns[..i], h)
      {
        GatherStep(patterns, i, h);
        var publishingData := GatherPattern(patterns[i]);
        result := result + publishingData;
        i := i + 1;
      }
      assert patterns[..i] == patterns;
    }

    /** One pattern of `buildTargetPathToFiles`: its publishing data, or
      nothing when that is null; one log line either way. */
    method GatherPattern(pair: PatternPair) returns (publishingData: set<(string, File)>)
      modifies listener
      ensures h.publishingData(pair).Some? ==> publishingData == h.publishingData(pair).value
      ensures h.publishingData(pair).None? ==> publishingData == {}
      ensures listener.events == old(listener.events) + [PatternEvent(pair, h)]
    {
      var data := h.publishingData(pair);
      if data.Some? {
        listener.Log(PatternMatched(pair.pattern, |data.value|));
        publishingData := data.value;
      } else {
        listener.Log(PatternUnmatched(pair.pattern));
        publishingData := {};
      }
    }

    /** `buildDeployDetailsFromFileEntry`: one descriptor; a missing
      checksum algorithm is logged and nothing more. */
    method BuildDeployDetailsFromFileEntry(entry: (string, File)) returns (result: set<DeployDetails>)
      modifies listener
      ensures result == {DeployDetailsFor(h, repositoryKey, buildProperties, entry)}
      ensures listener.events == old(listener.events) + ChecksumEvents(h, entry)
    {
      var checksums := h.checksums(entry.1);
      if checksums.None? {
        listener.Log(ChecksumAlgorithmMissing);
      }
      result := {DeployDetailsFor(h, repositoryKey, buildProperties, entry)};
    }

    /** The loop of `invoke` over the multimap's entries in the order
      taken: one descriptor per entry, equal descriptors collapsing, and the
      checksum lines of each entry in turn. */
    method DescribeAll(entries: seq<(string, File)>) returns (descriptors: set<DeployDetails>)
      modifies listener
      ensures descriptors == DescriptorsOf(h, repositoryKey, buildProperties, entries)
      ensures listener.events == old(listener.events) + ChecksumLog(h, entries)
    {
      descriptors := {};
      var i := 0;
      while i < |entries|
        invariant 0 <= i <= |entries|
        invariant descriptors == DescriptorsOf(h, repositoryKey, buildProperties, entries[..i])
        invariant listener.events == old(listener.events) + ChecksumLog(h, entries[..i])
      {
        ChecksumLogStep(h, entries, i, old(listener.events));
        var one := BuildDeployDetailsFromFileEntry(entries[i]);
        DescriptorsOfStep(h, repositoryKey, buildProperties, entries, i);
        descriptors := descriptors + one;
        i := i + 1;
      }
      assert entries[..i] == entries;
    }

    /** The descriptor set of `invoke`: one descriptor per entry of the
      target-path multimap, equal descriptors collapsing. */
    method BuildDescriptors() returns (descriptors: set<DeployDetails>,
                                       ghost patterns: seq<PatternPair>, ghost entries: seq<(string, File)>)
      modifies listener
      ensures descriptors == Descriptors(patternPairs, h, repositoryKey, buildProperties)
      ensures (forall p :: p in patterns <==> p in patternPairs) && Distinct(patterns)
      ensures (forall e :: e in entries <==> e in TargetPathToFiles(patternPairs, h)) && Distinct(entries)
      ensures listener.events == old(listener.events) + PatternLog(patterns, h) + ChecksumLog(h, entries)
    {
      var targetPathToFiles, gatherOrder := BuildTargetPathToFiles();
      patterns := gatherOrder;
      var all := Enumerate(targetPathToFiles);
      entries := all;
      descriptors := DescribeAll(all);
      DescriptorsOfAll(h, repositoryKey, buildProperties, all, patternPairs);
    }

    /** `deploy`: upload in order, logging each destination first; the
      first I/O error stops the loop. */
    method DeployAll(client: ArtifactoryClient, artifactsToDeploy: seq<DeployDetails>) returns (ok: bool)
      requires server.url.Some? || artifactsToDeploy == []
      modifies client`deployed, listener
      ensures var n := Uploaded(artifactsToDeploy, client.remote.rejected);
        client.deployed == old(client.deployed) + artifactsToDeploy[..n] && (ok <==> n == |artifactsToDeploy|)
      ensures server.url.Some? ==>
        listener.events == old(listener.events) +
          DeployLog(server.url.value, repositoryKey, artifactsToDeploy[..Attempted(artifactsToDeploy, client.remote.rejected)])
      ensures server.url.None? ==> listener.events == old(listener.events)
    {
      var url := if server.url.Some? then server.url.value else "";
      var i := 0;
      while i < |artifactsToDeploy|
        invariant 0 <= i <= |artifactsToDeploy|
        invariant forall j | 0 <= j < i :: artifactsToDeploy[j] !in client.remote.rejected
        invariant client.deployed == old(client.deployed) + artifactsToDeploy[..i]
        invariant listener.events == old(listener.events) + DeployLog(url, repositoryKey, artifactsToDeploy[..i])
      {
        var d := artifactsToDeploy[i];
        listener.Log(DeployingArtifact(DeploymentPath(url, repositoryKey, d.artifactPath)));
        assert artifactsToDeploy[..i + 1] == artifactsToDeploy[..i] + [d];
        ok := client.DeployArtifact(d);
        if !ok {
          UploadedAt(artifactsToDeploy, client.remote.rejected, i);
          return false;
        }
        i := i + 1;
      }
      UploadedAt(artifactsToDeploy, client.remote.rejected, i);
      assert artifactsToDeploy[..i] == artifactsToDeploy;
      return true;
    }

    /** `convertDeployDetailsToArtifacts`: one manifest entry per
      descriptor, in the order given. */
    method ConvertDeployDetailsToArtifacts(details: seq<DeployDetails>) returns (result: seq<Artifact>)
      ensures result == Manifest(h, details)
    {
      result := [];
      var i := 0;
      while i < |details|
        invariant 0 <= i <= |details|
        invariant result == Manifest(h, details[..i])
      {
        result := result + [ToArtifact(h, details[i])];
        i := i + 1;
      }
      assert details[..i] == details;
    }

    /** `invoke`: gather the matches, build a descriptor set, upload it
      with a fresh client and turn it into the manifest. The client is shut
      down on every path; an upload failure gives no manifest. */
    method Invoke(remote: Remote) returns (r: Result<seq<Artifact>, ClientError>, client: ArtifactoryClient,
                                           ghost order: seq<DeployDetails>,
                                           ghost patterns: seq<PatternPair>, ghost entries: seq<(string, File)>)
      requires server.url.Some? || Descriptors(patternPairs, h, repositoryKey, buildProperties) == {}
      modifies listener
      ensures fresh(client) && client.isShutdown && client.remote == remote
      ensures client.username == credentials.username && client.password == credentials.password
      ensures client.proxy == ProxyToApply(server.bypassProxy, proxyConfiguration)
      ensures forall d :: d in order <==> d in Descriptors(patternPairs, h, repositoryKey, buildProperties)
      ensures Distinct(order) && |order| == |Descriptors(patternPairs, h, repositoryKey, buildProperties)|
      ensures client.deployed == order[..Uploaded(order, remote.rejected)]
      ensures r.Success? <==> forall d | d in Descriptors(patternPairs, h, repositoryKey, buildProperties) :: d !in remote.rejected
      ensures r.Failure? ==> r.error == IOError
      ensures r.Success? ==> r.value == Manifest(h, order)
      ensures (forall p :: p in patterns <==> p in patternPairs) && Distinct(patterns)
      ensures (forall e :: e in entries <==> e in TargetPathToFiles(patternPairs, h)) && Distinct(entries)
      ensures listener.events == old(listener.events) + PatternLog(patterns, h) + ChecksumLog(h, entries) +
        (if server.url.Some? then DeployLog(server.url.value, repositoryKey, order[..Attempted(order, remote.rejected)])
         else [])
    {
      var descriptors, gatherOrder, entryOrder := BuildDescriptors();
      patterns, entries := gatherOrder, entryOrder;
      var artifactsToDeploy := Enumerate(descriptors);
      order := artifactsToDeploy;
      var credentials := this.credentials;
      client := server.CreateArtifactoryClient(credentials.username, credentials.password, proxyConfiguration, remote);
      var ok := DeployAll(client, artifactsToDeploy);
      if ok {
        var artifacts := ConvertDeployDetailsToArtifacts(artifactsToDeploy);
        client.Shutdown();
        r := Success(artifacts);
      } else {
        client.Shutdown();
        r := Failure(IOError);
        var n := Uploaded(order, remote.rejected);
        assert order[n] in Descriptors(patternPairs, h, repositoryKey, buildProperties);
      }
    }
  }

  /** Uploading stops exactly at the first rejected descriptor. */
  lemma UploadedAt(order: seq<DeployDetails>, rejected: set<DeployDetails>, i: nat)
    requires i <= |order|
    requires forall j | 0 <= j < i :: order[j] !in rejected
    requires i == |order| || order[i] in rejected
    ensures Uploaded(order, rejected) == i
    ensures Attempted(order, rejected) == if i < |order| then i + 1 else i
  {
  }

  /** Gathering every pattern, in any order, gives the multimap. */
  lemma GatheredAll(order: seq<PatternPair>, pairs: set<PatternPair>, h: Helpers)
    requires forall p :: p in order <==> p in pairs
    ensures Gathered(order, h) == TargetPathToFiles(pairs, h)
  {
    forall e
      ensures e in Gathered(order, h) <==> e in TargetPathToFiles(pairs, h)
    {
      GatheredMembers(order, h, e);
      if e in TargetPathToFiles(pairs, h) {
        var p :| p in pairs && h.publishingData(p).Some? && e in h.publishingData(p).value;
        var j :| 0 <= j < |order| && order[j] == p;
      }
    }
  }

  /** The descriptors of entries taken in order. */
  function DescriptorsOf(h: Helpers, repositoryKey: string, properties: map<string, string>,
                         entries: seq<(string, File)>): (r: set<DeployDetails>)
    ensures forall e | e in entries :: DeployDetailsFor(h, repositoryKey, properties, e) in r
    ensures forall d | d in r :: exists e | e in entries :: d == DeployDetailsFor(h, repositoryKey, properties, e)
    decreases |entries|
  {
    if entries == [] then {}
    else
      var init := entries[..|entries| - 1];
      var rest := DescriptorsOf(h, repositoryKey, properties, init);
      assert entries == init + [entries[|entries| - 1]];
      rest + {DeployDetailsFor(h, repositoryKey, properties, entries[|entries| - 1])}
  }

  /** One more entry adds its descriptor. */
  lemma DescriptorsOfStep(h: Helpers, repositoryKey: string, properties: map<string, string>,
                          entries: seq<(string, File)>, i: nat)
    requires i < |entries|
    ensures DescriptorsOf(h, repositoryKey, properties, entries[..i + 1]) ==
      DescriptorsOf(h, repositoryKey, properties, entries[..i]) + {DeployDetailsFor(h, repositoryKey, properties, entries[i])}
  {
    assert entries[..i + 1][..i] == entries[..i];
  }

  /** Describing every entry of the multimap, in any order, gives the descriptor set. */
  lemma DescriptorsOfAll(h: Helpers, repositoryKey: string, properties: map<string, string>,
                         entries: seq<(string, File)>, pairs: set<PatternPair>)
    requires forall e :: e in entries <==> e in TargetPathToFiles(pairs, h)
    ensures DescriptorsOf(h, repositoryKey, properties, entries) == Descriptors(pairs, h, repositoryKey, properties)
  {
  }

  // ---------------------------------------------------------------------------
  // The deployer

  /** What the deployer reads from `ArtifactoryGenericConfigurator`. */
  datatype Configurator = Configurator(
    deployPattern: JString,
    repositoryKey: string,
    matrixParams: JString,
    server: ArtifactoryServer?)

  /** `GenericArtifactsDeployer`: one deployment of one build. The build's
      environment is bound inside `h`. */
  class GenericArtifactsDeployer {
    const build: Build
    const configurator: Configurator
    const listener: BuildListener
    const credentials: Credentials
    const h: Helpers
    /** The manifest of the last successful deployment; empty before. */
    var artifactsToDeploy: seq<Artifact>

    constructor (build: Build, configurator: Configurator, listener: BuildListener, credentials: Credentials, h: Helpers)
      ensures this.build == build && this.configurator == configurator && this.listener == listener
      ensures this.credentials == credentials && this.h == h
      ensures artifactsToDeploy == []
    {
      this.build := build;
      this.configurator := configurator;
      this.listener := listener;
      this.credentials := credentials;
      this.h := h;
      artifactsToDeploy := [];
    }

    /** The (pattern, target) pairs of the normalised deploy pattern. */
    function DeployPairs(): set<PatternPair>
    {
      h.patternPairs(NormalizeDeployPattern(h, configurator.deployPattern))
    }

    /** The properties every descriptor of this build carries. */
    function PropertiesToAdd(): map<string, string>
    {
      BuildPropertiesMap(build, UpstreamCauseOf(build), h, configurator.matrixParams)
    }

    /** `addMatrixParams`: every accepted `key=value` token put into the
      map in order; nothing for null parameters. */
    method AddMatrixParams(properties: map<string, string>) returns (result: map<string, string>)
      ensures result == PutPairs(properties, MatrixEntries(h, MatrixTokens(configurator.matrixParams)))
    {
      var matrixParams := MatrixTokens(configurator.matrixParams);
      result := properties;
      var i := 0;
      while i < |matrixParams|
        invariant 0 <= i <= |matrixParams|
        invariant result == PutPairs(properties, MatrixEntries(h, matrixParams[..i]))
      {
        var split := ParseMatrixParam(h, matrixParams[i]);
        MatrixEntriesStep(h, properties, matrixParams, i);
        if split.Some? {
          result := result[split.value.0 := split.value.1];
        }
        i := i + 1;
      }
      assert matrixParams[..i] == matrixParams;
    }

    /** `getbuildPropertiesMap`: the built-in properties, the upstream cause
      looked up through `getUpstreamCause`, then the matrix parameters. */
    method GetBuildPropertiesMap() returns (properties: map<string, string>)
      ensures properties == PropertiesToAdd()
    {
      properties := map[];
      properties := properties["build.name" := h.sanitizeBuildName(build.fullName)];
      properties := properties["build.number" := IntToString(build.number)];
      properties := properties["build.timestamp" := IntToString(build.timestampMillis)];
      var parent := GetUpstreamCause(build);
      if parent.Some? {
        properties := properties["build.parentName" := h.sanitizeBuildName(parent.value.upstreamProject)];
        properties := properties["build.parentNumber" := IntToString(parent.value.upstreamBuild)];
      }
      var revision := h.vcsRevision;
      if !IsBlank(revision) {
        properties := properties[VCS_REVISION := revision.value];
      }
      properties := AddMatrixParams(properties);
    }

    /** `deploy`: nothing at all when the deploy pattern yields no pairs;
      otherwise the pairs are deployed through the configured server and, on
      success, the manifest replaces `artifactsToDeploy`. An upload failure
      is the `IOException`, which leaves `artifactsToDeploy` as it was. */
    method Deploy(remote: Remote, hudsonProxy: Option<HudsonProxy>)
      returns (error: Option<ClientError>, ghost order: seq<DeployDetails>,
               ghost patterns: seq<PatternPair>, ghost entries: seq<(string, File)>)
      requires DeployPairs() != {} ==>
        configurator.server != null &&
        (configurator.server.url.Some? ||
         Descriptors(DeployPairs(), h, configurator.repositoryKey, PropertiesToAdd()) == {})
      modifies this`artifactsToDeploy, listener
      ensures DeployPairs() == {} ==>
        error.None? && artifactsToDeploy == old(artifactsToDeploy) && listener.events == old(listener.events)
      ensures DeployPairs() != {} ==>
        (forall d :: d in order <==> d in Descriptors(DeployPairs(), h, configurator.repositoryKey, PropertiesToAdd())) &&
        Distinct(order)
      ensures DeployPairs() != {} ==>
        (error.None? <==> forall d | d in Descriptors(DeployPairs(), h, configurator.repositoryKey, PropertiesToAdd()) ::
          d !in remote.rejected)
      ensures error.Some? ==> error.value == IOError && artifactsToDeploy == old(artifactsToDeploy)
      ensures DeployPairs() != {} && error.None? ==> artifactsToDeploy == Manifest(h, order)
      ensures DeployPairs() != {} ==>
        (forall p :: p in patterns <==> p in DeployPairs()) && Distinct(patterns) &&
        (forall e :: e in entries <==> e in TargetPathToFiles(DeployPairs(), h)) && Distinct(entries)
      ensures DeployPairs() != {} ==>
        listener.events == old(listener.events) + PatternLog(patterns, h) + ChecksumLog(h, entries) +
          (if configurator.server.url.Some?
           then DeployLog(configurator.server.url.value, configurator.repositoryKey,
                          order[..Attempted(order, remote.rejected)])
           else [])
    {
      var deployPattern := NormalizeDeployPattern(h, configurator.deployPattern);
      var pairs := h.patternPairs(deployPattern);
      if pairs == {} {
        return None, [], [], [];
      }
      var propertiesToAdd := GetBuildPropertiesMap();
      var artifactoryServer := configurator.server;
      var callable := new FilesDeployerCallable(listener, pairs, artifactoryServer, credentials,
        configurator.repositoryKey, propertiesToAdd, CreateProxyConfiguration(hudsonProxy), h);
      var r, _, deployed, gatherOrder, entryOrder := callable.Invoke(remote);
      order, patterns, entries := deployed, gatherOrder, entryOrder;
      if r.Success? {
        artifactsToDeploy := r.value;
        error := None;
      } else {
        error := Some(r.error);
      }
    }
  }
}

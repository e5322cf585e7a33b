/**
 * `GradleReleaseWrapper`: the release steps of a Gradle build. `setUp`
 * prepares the working copy and switches the version properties to the
 * release versions; `tearDown`, after a successful build, lets the SCM
 * coordinator commit and tag and switches the properties to the next
 * development versions. The SCM coordinator is a recorder of the calls made
 * on it, any of which may be configured to throw.
 */
module GradleRelease {
  import opened Wrappers
  import opened JavaStrings
  import opened Hudson

  // ---------------------------------------------------------------------------
  // Property key lists

  /** The characters `stringToArray` splits on. */
  const KeySeparators: set<char> := {',', ' '}

  /** `stringToArray`: trim, then split on commas and spaces, dropping
      empty tokens. Every key is non-empty and holds neither a comma nor a
      space; a setting that trims to nothing gives no keys. */
  function StringToArray(commaSeparated: JString): (keys: seq<string>)
    ensures ValidTokens(keys, KeySeparators)
    ensures TrimToEmpty(commaSeparated) == [] ==> keys == []
  {
    SplitTokensValid(TrimToEmpty(commaSeparated), KeySeparators);
    Split(TrimToEmpty(commaSeparated), KeySeparators)
  }

  /** Null, empty, and strings of characters at or below U+0020 give no keys. */
  lemma StringToArrayOfBlank(commaSeparated: JString)
    requires commaSeparated.None? || forall i | 0 <= i < |commaSeparated.value| :: IsTrimmed(commaSeparated.value[i])
    ensures StringToArray(commaSeparated) == []
  {
    TrimToEmptyIsEmpty(commaSeparated);
  }

  /** Blank in the sense of `StringUtils.isBlank` is not enough: trimming
      stops at U+0020, so an ideographic space survives as a key of its own. */
  lemma StringToArrayKeepsUnicodeSpace()
    ensures IsBlank(Some("\U{3000}"))
    ensures StringToArray(Some("\U{3000}")) == ["\U{3000}"]
  {
    var s := "\U{3000}";
    assert |s| == 1 && !IsTrimmed(s[0]) && s[0] !in KeySeparators;
    assert TrimStart(s) == s;
    assert TrimEnd(s) == s;
    assert TrimToEmpty(Some(s)) == s;
    assert s[1..] == [];
    assert Token(s, KeySeparators) == s;
    assert Split(s[1..], KeySeparators) == [];
  }

  /** A comma-joined list of keys without spaces, commas or control
      characters splits back into the same keys. */
  lemma StringToArrayJoin(keys: seq<string>)
    requires ValidTokens(keys, KeySeparators)
    requires forall k, i | 0 <= k < |keys| && 0 <= i < |keys[k]| :: !IsTrimmed(keys[k][i])
    ensures StringToArray(Some(Join(keys, ','))) == keys
  {
    var s := Join(keys, ',');
    if keys != [] {
      JoinEnds(keys, ',');
    }
    assert TrimStart(s) == s;
    assert TrimEnd(s) == s;
    SplitJoin(keys, ',', KeySeparators);
  }

  /** A join of non-empty tokens starts with the first token's first
      character and ends with the last token's last character. */
  lemma {:induction false} JoinEnds(parts: seq<string>, sep: char)
    requires parts != [] && forall k | 0 <= k < |parts| :: parts[k] != []
    ensures var s := Join(parts, sep); s != [] && s[0] == parts[0][0] && s[|s| - 1] == parts[|parts| - 1][|parts[|parts| - 1]| - 1]
  {
    if |parts| > 1 {
      JoinEnds(parts[1..], sep);
    }
  }

  // ---------------------------------------------------------------------------
  // The release action and the version map

  /** `GradleReleaseAction.VERSIONING`. */
  datatype Versioning = GLOBAL | PER_MODULE | NONE

  /** `GradleReleaseAction`, the release the user asked for: the versioning
      mode, the keys of the properties holding release versions and of those
      holding next-integration versions, the versions chosen for each key,
      and the `gradle.properties` file under the module root. */
  datatype GradleReleaseAction = GradleReleaseAction(
    versioning: Versioning,
    releaseProperties: seq<string>,
    nextIntegProperties: seq<string>,
    releaseVersionFor: string -> JString,
    currentVersionFor: string -> JString,
    nextVersionFor: string -> JString,
    propertiesFile: string)

  /** `HashMap.put` of every key in order, each with the value `f` gives it. */
  function PutAll(m: map<string, JString>, keys: seq<string>, f: string -> JString): (r: map<string, JString>)
    ensures forall k :: k in r <==> k in m || k in keys
    ensures forall i | 0 <= i < |keys| :: r[keys[i]] == f(keys[i])
    ensures forall k | k in m && k !in keys :: r[k] == m[k]
    decreases |keys|
  {
    if keys == [] then m
    else
      var init := keys[..|keys| - 1];
      var rest := PutAll(m, init, f);
      assert keys == init + [keys[|keys| - 1]];
      rest[keys[|keys| - 1] := f(keys[|keys| - 1])]
  }

  /** One loop of `changeProperties`: a `put` per key, in order. */
  method PutEach(m: map<string, JString>, keys: seq<string>, f: string -> JString) returns (r: map<string, JString>)
    ensures r == PutAll(m, keys, f)
  {
    r := m;
    var i := 0;
    while i < |keys|
      invariant 0 <= i <= |keys|
      invariant r == PutAll(m, keys[..i], f)
    {
      assert keys[..i + 1][..i] == keys[..i];
      r := r[keys[i] := f(keys[i])];
      i := i + 1;
    }
    assert keys[..i] == keys;
  }

  /** The versions written to `gradle.properties`: the release-property
      keys first, then the next-integration keys, so a key in both takes its
      next-integration value. For the release every key takes its release
      version; for development the release-property keys go back to their
      current version and the others move to their next version. */
  function VersionMap(a: GradleReleaseAction, releaseVersion: bool): (m: map<string, JString>)
    ensures forall k :: k in m <==> k in a.releaseProperties || k in a.nextIntegProperties
    ensures forall k | k in a.nextIntegProperties ::
      m[k] == if releaseVersion then a.releaseVersionFor(k) else a.nextVersionFor(k)
    ensures forall k | k in a.releaseProperties && k !in a.nextIntegProperties ::
      m[k] == if releaseVersion then a.releaseVersionFor(k) else a.currentVersionFor(k)
  {
    var first := PutAll(map[], a.releaseProperties,
                        if releaseVersion then a.releaseVersionFor else a.currentVersionFor);
    PutAll(first, a.nextIntegProperties, if releaseVersion then a.releaseVersionFor else a.nextVersionFor)
  }

  // ---------------------------------------------------------------------------
  // The SCM coordinator and the call sequences

  /** The calls the wrapper makes on its `ScmCoordinator`. */
  datatype ScmCall =
    | Prepare
    | BeforeReleaseVersionChange
    | AfterReleaseVersionChange(modified: bool)
    | AfterSuccessfulReleaseVersionBuild
    | BeforeDevelopmentVersionChange
    | AfterDevelopmentVersionChange(modified: bool)
    | Edit(file: string)

  /** The coordinator `createScmCoordinator` hands out: it records every
      call made on it, and the calls in `failing` throw. */
  class ScmCoordinator {
    const failing: set<ScmCall>
    var calls: seq<ScmCall>

    constructor (failing: set<ScmCall>)
      ensures this.failing == failing && calls == []
    {
      this.failing := failing;
      calls := [];
    }

    /** One call; `false` when it throws. */
    method Perform(call: ScmCall) returns (ok: bool)
      modifies this`calls
      ensures calls == old(calls) + [call]
      ensures ok <==> call !in failing
    {
      calls := calls + [call];
      ok := call !in failing;
    }
  }

  /** The calls a step sequence made, and whether it ran to the end. */
  datatype Plan = Plan(calls: seq<ScmCall>, completed: bool)

  /** The calls `changeProperties` makes and what it returns: the file is
      opened for edit, then the properties are rewritten by `transform`, which
      answers whether anything changed or `None` when it throws. */
  function ChangePropertiesPlan(a: GradleReleaseAction, releaseVersion: bool, failing: set<ScmCall>,
                                transform: map<string, JString> -> Option<bool>): (r: (Plan, Option<bool>))
    ensures r.0.calls == [Edit(a.propertiesFile)]
    ensures r.0.completed <==> Edit(a.propertiesFile) !in failing && transform(VersionMap(a, releaseVersion)).Some?
    ensures r.0.completed ==> r.1 == transform(VersionMap(a, releaseVersion))
  {
    if Edit(a.propertiesFile) in failing then (Plan([Edit(a.propertiesFile)], false), None)
    else
      var modified := transform(VersionMap(a, releaseVersion));
      (Plan([Edit(a.propertiesFile)], modified.Some?), modified)
  }

  /** The index of the first expected call that throws; the length when none does. */
  function FirstFailing(expected: seq<ScmCall>, failing: set<ScmCall>): (k: nat)
    ensures k <= |expected|
    ensures forall j | 0 <= j < k :: expected[j] !in failing
    ensures k < |expected| ==> expected[k] in failing
    decreases |expected|
  {
    if expected == [] || expected[0] in failing then 0
    else 1 + FirstFailing(expected[1..], failing)
  }

  /** Performing `expected` in order on a coordinator whose `failing` calls
      throw: the calls made, up to and including the first one that throws,
      and whether none did. */
  function RunUntilFailure(expected: seq<ScmCall>, failing: set<ScmCall>): (p: Plan)
    ensures p.completed <==> forall i | 0 <= i < |expected| :: expected[i] !in failing
    ensures p.completed ==> p.calls == expected
    ensures !p.completed ==> exists k | 0 <= k < |expected| ::
      p.calls == expected[..k + 1] && expected[k] in failing && forall j | 0 <= j < k :: expected[j] !in failing
  {
    var k := FirstFailing(expected, failing);
    if k == |expected| then Plan(expected, true)
    else Plan(expected[..k + 1], false)
  }

  /** The first expected call either throws or is followed by the rest. */
  lemma RunStep(call: ScmCall, rest: seq<ScmCall>, failing: set<ScmCall>)
    ensures RunUntilFailure([call] + rest, failing) ==
      if call in failing then Plan([call], false)
      else Plan([call] + RunUntilFailure(rest, failing).calls, RunUntilFailure(rest, failing).completed)
  {
    var s := [call] + rest;
    assert s[1..] == rest;
    if call !in failing {
      var k := FirstFailing(rest, failing);
      assert FirstFailing(s, failing) == k + 1;
      if k < |rest| {
        assert s[..k + 2] == [call] + rest[..k + 1];
      }
    } else {
      assert s[..1] == [call];
    }
  }

  /** Two expected calls. */
  lemma RunOfTwo(x: ScmCall, y: ScmCall, failing: set<ScmCall>)
    ensures RunUntilFailure([x, y], failing) ==
      if x in failing then Plan([x], false) else Plan([x, y], !(y in failing))
  {
    RunStep(x, [y], failing);
    RunStep(y, [], failing);
    assert [x, y] == [x] + [y] && [y] == [y] + [];
  }

  /** Three expected calls. */
  lemma RunOfThree(x: ScmCall, y: ScmCall, z: ScmCall, failing: set<ScmCall>)
    ensures RunUntilFailure([x, y, z], failing) ==
      if x in failing then Plan([x], false)
      else if y in failing then Plan([x, y], false)
      else Plan([x, y, z], !(z in failing))
  {
    RunStep(x, [y, z], failing);
    RunOfTwo(y, z, failing);
    assert [x, y, z] == [x] + [y, z];
  }

  /** Four expected calls all go through exactly when none of them throws. */
  lemma CompletesOfFour(w: ScmCall, x: ScmCall, y: ScmCall, z: ScmCall, failing: set<ScmCall>)
    ensures RunUntilFailure([w, x, y, z], failing).completed <==>
      !(w in failing) && !(x in failing) && !(y in failing) && !(z in failing)
  {
    var s := [w, x, y, z];
    assert s[0] == w && s[1] == x && s[2] == y && s[3] == z;
  }

  /** The "before" call of a version change. */
  function BeforeCall(releaseVersion: bool): ScmCall
  {
    if releaseVersion then BeforeReleaseVersionChange else BeforeDevelopmentVersionChange
  }

  /** The "after" call of a version change, with whether the file changed. */
  function AfterCall(releaseVersion: bool, modified: bool): ScmCall
  {
    if releaseVersion then AfterReleaseVersionChange(modified) else AfterDevelopmentVersionChange(modified)
  }

  /** The calls of a version change when nothing throws. */
  function VersionChangeCalls(a: GradleReleaseAction, releaseVersion: bool, modified: bool): seq<ScmCall>
  {
    [BeforeCall(releaseVersion), Edit(a.propertiesFile), AfterCall(releaseVersion, modified)]
  }

  /** The version-change steps both `setUp` and `tearDown` take: the
      "before" call, the property change, and the "after" call with whether
      the file changed, up to the first exception. */
  function VersionChangePlan(a: GradleReleaseAction, releaseVersion: bool, failing: set<ScmCall>,
                             transform: map<string, JString> -> Option<bool>): (p: Plan)
    ensures |p.calls| >= 1 && p.calls[0] == BeforeCall(releaseVersion)
    ensures p.completed ==> forall i | 0 <= i < |p.calls| :: p.calls[i] !in failing
    ensures p.completed ==>
      transform(VersionMap(a, releaseVersion)).Some? &&
      p.calls == VersionChangeCalls(a, releaseVersion, transform(VersionMap(a, releaseVersion)).value)
    ensures !p.completed ==> p.calls[|p.calls| - 1] in failing || transform(VersionMap(a, releaseVersion)).None?
  {
    var before := BeforeCall(releaseVersion);
    if before in failing then Plan([before], false)
    else
      var (change, modified) := ChangePropertiesPlan(a, releaseVersion, failing, transform);
      if !change.completed then Plan([before] + change.calls, false)
      else
        var last := AfterCall(releaseVersion, modified.value);
        Plan([before] + change.calls + [last], last !in failing)
  }

  /** The version change performs its expected calls until the first one
      that throws; when the rewrite throws, the calls stop after the edit
      and the steps fail. */
  lemma VersionChangeRunsUntilFailure(a: GradleReleaseAction, releaseVersion: bool, failing: set<ScmCall>,
                                      transform: map<string, JString> -> Option<bool>)
    ensures var m := transform(VersionMap(a, releaseVersion));
      m.Some? ==>
        VersionChangePlan(a, releaseVersion, failing, transform) ==
          RunUntilFailure(VersionChangeCalls(a, releaseVersion, m.value), failing)
    ensures var m := transform(VersionMap(a, releaseVersion));
      m.None? ==>
        VersionChangePlan(a, releaseVersion, failing, transform) ==
          Plan(RunUntilFailure([BeforeCall(releaseVersion), Edit(a.propertiesFile)], failing).calls, false)
  {
    var before := BeforeCall(releaseVersion);
    var m := transform(VersionMap(a, releaseVersion));
    RunOfTwo(before, Edit(a.propertiesFile), failing);
    if m.Some? {
      RunOfThree(before, Edit(a.propertiesFile), AfterCall(releaseVersion, m.value), failing);
    }
  }

  /** What `setUp` does on a release build, up to the first exception:
      prepare, then, unless versioning is off, the release version change. */
  function SetUpPlan(a: GradleReleaseAction, failing: set<ScmCall>,
                     transform: map<string, JString> -> Option<bool>): (p: Plan)
    ensures |p.calls| >= 1 && p.calls[0] == Prepare
    ensures a.versioning == NONE ==> p.calls == [Prepare] && (p.completed <==> Prepare !in failing)
    ensures p.completed ==> forall i | 0 <= i < |p.calls| :: p.calls[i] !in failing
    ensures a.versioning != NONE && p.completed ==>
      transform(VersionMap(a, true)).Some? &&
      p.calls == [Prepare] + VersionChangeCalls(a, true, transform(VersionMap(a, true)).value)
    ensures !p.completed ==> p.calls[|p.calls| - 1] in failing || transform(VersionMap(a, true)).None?
  {
    if Prepare in failing then Plan([Prepare], false)
    else if a.versioning == NONE then Plan([Prepare], true)
    else
      var change := VersionChangePlan(a, true, failing, transform);
      Plan([Prepare] + change.calls, change.completed)
  }

  /** `setUp` performs prepare and, unless versioning is off, the release
      version change, stopping at the first call that throws; when the
      rewrite throws, the calls stop after the edit and the step fails. */
  lemma SetUpRunsUntilFailure(a: GradleReleaseAction, failing: set<ScmCall>,
                              transform: map<string, JString> -> Option<bool>)
    ensures a.versioning == NONE ==> SetUpPlan(a, failing, transform) == RunUntilFailure([Prepare], failing)
    ensures var m := transform(VersionMap(a, true));
      a.versioning != NONE && m.Some? ==>
        SetUpPlan(a, failing, transform) == RunUntilFailure([Prepare] + VersionChangeCalls(a, true, m.value), failing)
    ensures var m := transform(VersionMap(a, true));
      a.versioning != NONE && m.None? ==>
        SetUpPlan(a, failing, transform) ==
          Plan(RunUntilFailure([Prepare, BeforeReleaseVersionChange, Edit(a.propertiesFile)], failing).calls, false)
  {
    var m := transform(VersionMap(a, true));
    var edit := Edit(a.propertiesFile);
    RunStep(Prepare, [], failing);
    VersionChangeRunsUntilFailure(a, true, failing, transform);
    if m.Some? {
      RunStep(Prepare, VersionChangeCalls(a, true, m.value), failing);
    } else {
      RunStep(Prepare, [BeforeReleaseVersionChange, edit], failing);
      assert [Prepare] + [BeforeReleaseVersionChange, edit] == [Prepare, BeforeReleaseVersionChange, edit];
    }
  }

  /** `setUp` succeeds exactly when none of its calls throws and the
      rewrite does not. */
  lemma SetUpSucceedsExactly(a: GradleReleaseAction, failing: set<ScmCall>,
                             transform: map<string, JString> -> Option<bool>)
    ensures SetUpPlan(a, failing, transform).completed <==>
      Prepare !in failing &&
      (a.versioning != NONE ==>
        var m := transform(VersionMap(a, true));
        m.Some? && BeforeReleaseVersionChange !in failing && Edit(a.propertiesFile) !in failing &&
        AfterReleaseVersionChange(m.value) !in failing)
  {
    var m := transform(VersionMap(a, true));
    SetUpRunsUntilFailure(a, failing, transform);
    if a.versioning != NONE && m.Some? {
      assert [Prepare] + VersionChangeCalls(a, true, m.value) ==
        [Prepare, BeforeReleaseVersionChange, Edit(a.propertiesFile), AfterReleaseVersionChange(m.value)];
      CompletesOfFour(Prepare, BeforeReleaseVersionChange, Edit(a.propertiesFile), AfterReleaseVersionChange(m.value), failing);
    }
  }

  /** What `tearDown` does after a successful build, up to the first
      exception: after-successful-build, then, unless versioning is off, the
      development version change. Without a release action the versioning
      check dereferences null, which is caught like any other exception. */
  function TearDownPlan(releaseAction: Option<GradleReleaseAction>, failing: set<ScmCall>,
                        transform: map<string, JString> -> Option<bool>): (p: Plan)
    ensures |p.calls| >= 1 && p.calls[0] == AfterSuccessfulReleaseVersionBuild
    ensures releaseAction.None? ==> p == Plan([AfterSuccessfulReleaseVersionBuild], false)
    ensures releaseAction.Some? && releaseAction.value.versioning == NONE ==>
      p.calls == [AfterSuccessfulReleaseVersionBuild] && (p.completed <==> AfterSuccessfulReleaseVersionBuild !in failing)
    ensures p.completed ==> forall i | 0 <= i < |p.calls| :: p.calls[i] !in failing
    ensures releaseAction.Some? && releaseAction.value.versioning != NONE && p.completed ==>
      var a := releaseAction.value;
      transform(VersionMap(a, false)).Some? &&
      p.calls == [AfterSuccessfulReleaseVersionBuild] + VersionChangeCalls(a, false, transform(VersionMap(a, false)).value)
  {
    if AfterSuccessfulReleaseVersionBuild in failing || releaseAction.None? then
      Plan([AfterSuccessfulReleaseVersionBuild], false)
    else
      var a := releaseAction.value;
      if a.versioning == NONE then Plan([AfterSuccessfulReleaseVersionBuild], true)
      else
        var change := VersionChangePlan(a, false, failing, transform);
        Plan([AfterSuccessfulReleaseVersionBuild] + change.calls, change.completed)
  }

  /** With a release action, `tearDown` performs after-successful-build and,
      unless versioning is off, the development version change, stopping at
      the first call that throws; when the rewrite throws, the calls stop
      after the edit and the step fails. */
  lemma TearDownRunsUntilFailure(a: GradleReleaseAction, failing: set<ScmCall>,
                                 transform: map<string, JString> -> Option<bool>)
    ensures a.versioning == NONE ==>
      TearDownPlan(Some(a), failing, transform) == RunUntilFailure([AfterSuccessfulReleaseVersionBuild], failing)
    ensures var m := transform(VersionMap(a, false));
      a.versioning != NONE && m.Some? ==>
        TearDownPlan(Some(a), failing, transform) ==
          RunUntilFailure([AfterSuccessfulReleaseVersionBuild] + VersionChangeCalls(a, false, m.value), failing)
    ensures var m := transform(VersionMap(a, false));
      a.versioning != NONE && m.None? ==>
        TearDownPlan(Some(a), failing, transform) ==
          Plan(RunUntilFailure([AfterSuccessfulReleaseVersionBuild, BeforeDevelopmentVersionChange,
                                Edit(a.propertiesFile)], failing).calls, false)
  {
    var m := transform(VersionMap(a, false));
    var first := AfterSuccessfulReleaseVersionBuild;
    var edit := Edit(a.propertiesFile);
    RunStep(first, [], failing);
    VersionChangeRunsUntilFailure(a, false, failing, transform);
    if m.Some? {
      RunStep(first, VersionChangeCalls(a, false, m.value), failing);
    } else {
      RunStep(first, [BeforeDevelopmentVersionChange, edit], failing);
      assert [first] + [BeforeDevelopmentVersionChange, edit] == [first, BeforeDevelopmentVersionChange, edit];
    }
  }

  /** `tearDown` returns true exactly when there is a release action, none
      of its calls throws and the rewrite does not. */
  lemma TearDownSucceedsExactly(releaseAction: Option<GradleReleaseAction>, failing: set<ScmCall>,
                                transform: map<string, JString> -> Option<bool>)
    ensures TearDownPlan(releaseAction, failing, transform).completed <==>
      releaseAction.Some? && AfterSuccessfulReleaseVersionBuild !in failing &&
      (releaseAction.value.versioning != NONE ==>
        var a := releaseAction.value;
        var m := transform(VersionMap(a, false));
        m.Some? && BeforeDevelopmentVersionChange !in failing && Edit(a.propertiesFile) !in failing &&
        AfterDevelopmentVersionChange(m.value) !in failing)
  {
    if releaseAction.Some? {
      var a := releaseAction.value;
      var m := transform(VersionMap(a, false));
      TearDownRunsUntilFailure(a, failing, transform);
      if a.versioning != NONE && m.Some? {
        var first := AfterSuccessfulReleaseVersionBuild;
        assert [first] + VersionChangeCalls(a, false, m.value) ==
          [first, BeforeDevelopmentVersionChange, Edit(a.propertiesFile), AfterDevelopmentVersionChange(m.value)];
        CompletesOfFour(first, BeforeDevelopmentVersionChange, Edit(a.propertiesFile), AfterDevelopmentVersionChange(m.value), failing);
      }
    }
  }

  // ---------------------------------------------------------------------------
  // The wrapper

  class GradleReleaseWrapper {
    var tagPrefix: JString
    var releaseBranchPrefix: JString
    var alternativeTasks: JString
    var releasePropsKeys: JString
    var nextIntegPropsKeys: JString
    /** Set by `setUp` on a release build; not saved with the configuration. */
    var scmCoordinator: ScmCoordinator?

    constructor (releaseBranchPrefix: JString, tagPrefix: JString, alternativeTasks: JString,
                 releasePropsKeys: JString, nextIntegPropsKeys: JString)
      ensures this.releaseBranchPrefix == releaseBranchPrefix && this.tagPrefix == tagPrefix
      ensures this.alternativeTasks == alternativeTasks
      ensures this.releasePropsKeys == releasePropsKeys && this.nextIntegPropsKeys == nextIntegPropsKeys
      ensures scmCoordinator == null
    {
      this.releaseBranchPrefix := releaseBranchPrefix;
      this.tagPrefix := tagPrefix;
      this.alternativeTasks := alternativeTasks;
      this.releasePropsKeys := releasePropsKeys;
      this.nextIntegPropsKeys := nextIntegPropsKeys;
      scmCoordinator := null;
    }

    method SetTagPrefix(tagPrefix: JString)
      modifies this`tagPrefix
      ensures this.tagPrefix == tagPrefix
    {
      this.tagPrefix := tagPrefix;
    }

    method SetReleasePropsKeys(releasePropsKeys: JString)
      modifies this`releasePropsKeys
      ensures this.releasePropsKeys == releasePropsKeys
    {
      this.releasePropsKeys := releasePropsKeys;
    }

    method SetNextIntegPropsKeys(nextIntegPropsKeys: JString)
      modifies this`nextIntegPropsKeys
      ensures this.nextIntegPropsKeys == nextIntegPropsKeys
    {
      this.nextIntegPropsKeys := nextIntegPropsKeys;
    }

    method SetReleaseBranchPrefix(releaseBranchPrefix: JString)
      modifies this`releaseBranchPrefix
      ensures this.releaseBranchPrefix == releaseBranchPrefix
    {
      this.releaseBranchPrefix := releaseBranchPrefix;
    }

    method SetAlternativeTasks(alternativeTasks: JString)
      modifies this`alternativeTasks
      ensures this.alternativeTasks == alternativeTasks
    {
      this.alternativeTasks := alternativeTasks;
    }

    /** The release-property keys: `stringToArray` of the setting, so valid tokens and none for a blank setting. */
    function GetReleasePropsKeysList(): (keys: seq<string>)
      reads this`releasePropsKeys
      ensures ValidTokens(keys, KeySeparators)
      ensures keys == StringToArray(releasePropsKeys)
      ensures TrimToEmpty(releasePropsKeys) == [] ==> keys == []
    {
      StringToArray(releasePropsKeys)
    }

    /** The next-integration keys: `stringToArray` of the setting, so valid tokens and none for a blank setting. */
    function GetNextIntegPropsKeysList(): (keys: seq<string>)
      reads this`nextIntegPropsKeys
      ensures ValidTokens(keys, KeySeparators)
      ensures keys == StringToArray(nextIntegPropsKeys)
      ensures TrimToEmpty(nextIntegPropsKeys) == [] ==> keys == []
    {
      StringToArray(nextIntegPropsKeys)
    }

    /** The map `changeProperties` fills, in its two loops. */
    method BuildVersionMap(a: GradleReleaseAction, releaseVersion: bool) returns (modulesByName: map<string, JString>)
      ensures modulesByName == VersionMap(a, releaseVersion)
    {
      var first := if releaseVersion then a.releaseVersionFor else a.currentVersionFor;
      var second := if releaseVersion then a.releaseVersionFor else a.nextVersionFor;
      modulesByName := PutEach(map[], a.releaseProperties, first);
      modulesByName := PutEach(modulesByName, a.nextIntegProperties, second);
    }

    /** `changeProperties`: open the properties file for edit, then rewrite
        it; `None` when either throws. */
    method ChangeProperties(a: GradleReleaseAction, releaseVersion: bool,
                            transform: map<string, JString> -> Option<bool>) returns (modified: Option<bool>)
      requires scmCoordinator != null
      modifies scmCoordinator`calls
      ensures var (plan, result) := ChangePropertiesPlan(a, releaseVersion, scmCoordinator.failing, transform);
        scmCoordinator.calls == old(scmCoordinator.calls) + plan.calls &&
        (plan.completed ==> modified == result) && (!plan.completed ==> modified.None?)
    {
      var edited := scmCoordinator.Perform(Edit(a.propertiesFile));
      if !edited {
        return None;
      }
      var modulesByName := BuildVersionMap(a, releaseVersion);
      modified := transform(modulesByName);
    }

    /** The version-change steps on the kept coordinator. */
    method VersionChange(a: GradleReleaseAction, releaseVersion: bool,
                         transform: map<string, JString> -> Option<bool>) returns (ok: bool)
      requires scmCoordinator != null
      modifies scmCoordinator`calls
      ensures var plan := VersionChangePlan(a, releaseVersion, scmCoordinator.failing, transform);
        scmCoordinator.calls == old(scmCoordinator.calls) + plan.calls && ok == plan.completed
    {
      var coordinator := scmCoordinator;
      ok := coordinator.Perform(BeforeCall(releaseVersion));
      if !ok {
        return;
      }
      var modified := ChangeProperties(a, releaseVersion, transform);
      if modified.None? {
        return false;
      }
      ok := coordinator.Perform(AfterCall(releaseVersion, modified.value));
    }

    /** `setUp`: nothing on a build that is not a release; otherwise the
        coordinator is kept and driven through `SetUpPlan`. `false` is an
        exception escaping to the caller. */
    method SetUp(releaseAction: Option<GradleReleaseAction>, created: ScmCoordinator,
                 transform: map<string, JString> -> Option<bool>) returns (ok: bool)
      modifies this`scmCoordinator, created`calls
      ensures releaseAction.None? ==>
        ok && scmCoordinator == old(scmCoordinator) && created.calls == old(created.calls)
      ensures releaseAction.Some? ==>
        var plan := SetUpPlan(releaseAction.value, created.failing, transform);
        scmCoordinator == created && created.calls == old(created.calls) + plan.calls && ok == plan.completed
    {
      if releaseAction.None? {
        return true;
      }
      var a := releaseAction.value;
      scmCoordinator := created;
      ok := created.Perform(Prepare);
      if !ok {
        return;
      }
      if a.versioning != NONE {
        ok := VersionChange(a, true, transform);
      }
    }

    /** `tearDown`: `true` with no SCM call when the build has no result or
        a result worse than SUCCESS; otherwise the post-build steps of
        `TearDownPlan`, where any exception, including a missing coordinator,
        gives `false`. */
    method TearDown(result: Option<BuildResult>, releaseAction: Option<GradleReleaseAction>,
                    transform: map<string, JString> -> Option<bool>) returns (ok: bool)
      modifies scmCoordinator
      ensures scmCoordinator == old(scmCoordinator)
      ensures result.None? || IsWorseThan(result.value, SUCCESS) ==>
        ok && (scmCoordinator != null ==> scmCoordinator.calls == old(scmCoordinator.calls))
      ensures result.Some? && !IsWorseThan(result.value, SUCCESS) && scmCoordinator == null ==> !ok
      ensures result.Some? && !IsWorseThan(result.value, SUCCESS) && scmCoordinator != null ==>
        var plan := TearDownPlan(releaseAction, scmCoordinator.failing, transform);
        scmCoordinator.calls == old(scmCoordinator.calls) + plan.calls && ok == plan.completed
    {
      if result.None? || IsWorseThan(result.value, SUCCESS) {
        return true;
      }
      if scmCoordinator == null {
        return false;
      }
      ok := PostBuildSteps(releaseAction, transform);
    }

    /** The body of `tearDown`'s `try` block. */
    method PostBuildSteps(releaseAction: Option<GradleReleaseAction>,
                          transform: map<string, JString> -> Option<bool>) returns (ok: bool)
      requires scmCoordinator != null
      modifies scmCoordinator`calls
      ensures var plan := TearDownPlan(releaseAction, scmCoordinator.failing, transform);
        scmCoordinator.calls == old(scmCoordinator.calls) + plan.calls && ok == plan.completed
    {
      var coordinator := scmCoordinator;
      ok := coordinator.Perform(AfterSuccessfulReleaseVersionBuild);
      if !ok || releaseAction.None? {
        return false;
      }
      var a := releaseAction.value;
      if a.versioning != NONE {
        ok := VersionChange(a, false, transform);
      }
    }
  }
}

/**
 * `ActionableHelper`: look-ups over the actions, publishers, build wrappers,
 * builders and causes Jenkins keeps on projects and builds.
 */
module Actionable {
  import opened Wrappers
  import opened JavaStrings
  import opened Hudson

  /** The last element of a list that may be null or empty. */
  function GetLatestAction<T>(records: Option<seq<T>>): (r: Option<T>)
    ensures r.None? <==> records.None? || records.value == []
    ensures r.Some? ==> r.value == records.value[|records.value| - 1]
  {
    if records.None? || records.value == [] then None
    else Some(records.value[|records.value| - 1])
  }

  /** The first element satisfying `p`, searching front to back. */
  function FirstWhere<T(==)>(xs: seq<T>, p: T -> bool): (r: Option<T>)
    ensures r.None? <==> forall i | 0 <= i < |xs| :: !p(xs[i])
    ensures r.Some? ==> exists i | 0 <= i < |xs| :: xs[i] == r.value && p(xs[i]) && forall j | 0 <= j < i :: !p(xs[j])
    decreases |xs|
  {
    if xs == [] then None
    else if p(xs[0]) then Some(xs[0])
    else
      var r := FirstWhere(xs[1..], p);
      assert forall i | 1 <= i <= |xs[1..]| :: xs[1..][i - 1] == xs[i];
      if r.Some? then
        var k :| 0 <= k < |xs[1..]| && xs[1..][k] == r.value && p(xs[1..][k]) && forall j | 0 <= j < k :: !p(xs[1..][j]);
        assert xs[k + 1] == r.value && forall j | 0 <= j < k + 1 :: !p(xs[j]);
        r
      else r
  }

  /** The search loop the look-ups share: the first match, or `None`. */
  method FindFirst<T(==)>(xs: seq<T>, p: T -> bool) returns (r: Option<T>)
    ensures r == FirstWhere(xs, p)
  {
    var i := 0;
    while i < |xs|
      invariant 0 <= i <= |xs|
      invariant FirstWhere(xs, p) == FirstWhere(xs[i..], p)
    {
      if p(xs[i]) {
        return Some(xs[i]);
      }
      assert xs[i..][1..] == xs[i + 1..];
      i := i + 1;
    }
    return None;
  }

  /** The project's first publisher of the requested type, or null. */
  method GetPublisher(project: ProjectConfiguration, t: ComponentType) returns (r: Option<Component>)
    ensures r.None? <==> forall i | 0 <= i < |project.publishers| :: !IsInstance(t, project.publishers[i])
    ensures r == FirstWhere(project.publishers, c => IsInstance(t, c))
  {
    r := FindFirst(project.publishers, c => IsInstance(t, c));
  }

  /** The item's first build wrapper of the requested type, or null. */
  method GetBuildWrapper(wrapped: ProjectConfiguration, t: ComponentType) returns (r: Option<Component>)
    ensures r.None? <==> forall i | 0 <= i < |wrapped.buildWrappers| :: !IsInstance(t, wrapped.buildWrappers[i])
    ensures r == FirstWhere(wrapped.buildWrappers, c => IsInstance(t, c))
  {
    r := FindFirst(wrapped.buildWrappers, c => IsInstance(t, c));
  }

  /** The elements satisfying `p`, in their original order. */
  function Filter<T>(xs: seq<T>, p: T -> bool): (r: seq<T>)
    ensures |r| <= |xs|
    ensures forall k | 0 <= k < |r| :: p(r[k])
    decreases |xs|
  {
    if xs == [] then []
    else Filter(xs[..|xs| - 1], p) + if p(xs[|xs| - 1]) then [xs[|xs| - 1]] else []
  }

  /** Filtering keeps exactly the elements satisfying `p`. */
  lemma {:induction false} FilterMembers<T>(xs: seq<T>, p: T -> bool, x: T)
    ensures x in Filter(xs, p) <==> x in xs && p(x)
    decreases |xs|
  {
    if xs != [] {
      var init := xs[..|xs| - 1];
      FilterMembers(init, p, x);
      assert xs == init + [xs[|xs| - 1]];
    }
  }

  /** All of the project's builders of the requested type, in order. */
  method GetBuilder(project: ProjectConfiguration, t: ComponentType) returns (result: seq<Component>)
    ensures result == Filter(project.builders, c => IsInstance(t, c))
    ensures forall c :: c in result <==> c in project.builders && IsInstance(t, c)
  {
    var builders := project.builders;
    result := [];
    var i := 0;
    while i < |builders|
      invariant 0 <= i <= |builders|
      invariant result == Filter(builders[..i], c => IsInstance(t, c))
    {
      assert builders[..i + 1][..i] == builders[..i];
      if IsInstance(t, builders[i]) {
        result := result + [builders[i]];
      }
      i := i + 1;
    }
    assert builders[..i] == builders;
    forall c
      ensures c in result <==> c in builders && IsInstance(t, c)
    {
      FilterMembers(builders, c => IsInstance(t, c), c);
    }
  }

  predicate IsUpstream(c: Cause)
  {
    c.UpstreamCause?
  }

  /** The first upstream cause of the build's latest `CauseAction`; causes
      recorded in earlier `CauseAction`s are not looked at. */
  function UpstreamCauseOf(build: Build): (r: Option<Cause>)
    ensures r.Some? ==> r.value.UpstreamCause?
    ensures GetLatestAction(build.causeActions).None? ==> r.None?
    ensures GetLatestAction(build.causeActions).Some? ==>
      (r.None? <==> forall i | 0 <= i < |GetLatestAction(build.causeActions).value.causes| ::
        !GetLatestAction(build.causeActions).value.causes[i].UpstreamCause?)
    ensures GetLatestAction(build.causeActions).Some? ==>
      r == FirstWhere(GetLatestAction(build.causeActions).value.causes, IsUpstream)
    ensures r.Some? ==>
      var causes := GetLatestAction(build.causeActions).value.causes;
      exists i | 0 <= i < |causes| :: causes[i] == r.value && forall j | 0 <= j < i :: !causes[j].UpstreamCause?
  {
    var action := GetLatestAction(build.causeActions);
    if action.None? then None
    else
      var r := FirstWhere(action.value.causes, IsUpstream);
      if r.Some? then
        var k :| 0 <= k < |action.value.causes| && action.value.causes[k] == r.value && IsUpstream(action.value.causes[k]);
        r
      else r
  }

  /** `getUpstreamCause`: the search loop over the latest `CauseAction`. */
  method GetUpstreamCause(build: Build) returns (r: Option<Cause>)
    ensures r == UpstreamCauseOf(build)
  {
    var action := GetLatestAction(build.causeActions);
    if action.Some? {
      r := FindFirst(action.value.causes, IsUpstream);
    } else {
      r := None;
    }
  }

  /** The id of the current user when there is one and it has an id;
      otherwise the default. The build is not consulted. */
  function GetUserCausePrincipal(current: Option<User>, defaultPrincipal: JString): (r: JString)
    ensures current.Some? && current.value.id.Some? ==> r == current.value.id
    ensures current.None? || current.value.id.None? ==> r == defaultPrincipal
  {
    if current.Some? && current.value.id.Some? then current.value.id else defaultPrincipal
  }

  /** The one-argument form: "anonymous" when no user id is known. */
  function GetUserCausePrincipalOrAnonymous(current: Option<User>): (r: string)
    ensures current.Some? && current.value.id.Some? ==> r == current.value.id.value
    ensures current.None? || current.value.id.None? ==> r == "anonymous"
  {
    GetUserCausePrincipal(current, Some("anonymous")).value
  }

  /** The absolute URL of a build: "" while Jenkins' root URL is blank,
      otherwise the root followed by the build's relative URL. */
  function GetBuildUrl(rootUrl: JString, build: Build): (r: string)
    ensures IsBlank(rootUrl) ==> r == ""
    ensures !IsBlank(rootUrl) ==> StartsWith(r, rootUrl.value) && r[|rootUrl.value|..] == build.url
  {
    if IsBlank(rootUrl) then "" else rootUrl.value + build.url
  }

  /** `ArtifactoryProjectAction`: the link from a project page to its builds in Artifactory. */
  datatype ArtifactoryProjectAction = ArtifactoryProjectAction(artifactoryRootUrl: string, projectName: string)

  /** The project action to attach: none without an Artifactory URL or when
      the project already has one, else exactly one. */
  function GetArtifactoryProjectAction(artifactoryRootUrl: JString, project: Project): (r: seq<ArtifactoryProjectAction>)
    ensures |r| <= 1
    ensures |r| == 1 <==> artifactoryRootUrl.Some? && !project.hasArtifactoryProjectAction
    ensures |r| == 1 ==> r[0] == ArtifactoryProjectAction(artifactoryRootUrl.value, project.fullName)
  {
    if artifactoryRootUrl.None? then []
    else if project.hasArtifactoryProjectAction then []
    else [ArtifactoryProjectAction(artifactoryRootUrl.value, project.fullName)]
  }
}

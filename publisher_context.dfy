/**
 * `PublisherContext`: the deployment settings a publisher passes around,
 * filled in through a `Builder` that mutates one shared context and checks
 * the two required references when the context is taken out.
 */
module Publishing {
  import opened Wrappers
  import opened JavaStrings
  import opened Server
  import opened CredentialResolution

  /** `ServerDetails`, as far as the context reads it. */
  datatype ServerDetails = ServerDetails(artifactoryName: JString)

  /** `IncludesExcludes`: two pattern strings, no behaviour. */
  datatype IncludesExcludes = IncludesExcludes(includePatterns: JString, excludePatterns: JString)

  /** `getCleanString`: at most one leading and at most one trailing double
      quote removed; null stays null. The trailing quote is looked for after
      the leading one is gone, so a lone quote becomes the empty string. */
  function CleanString(s: JString): (r: JString)
    ensures r.None? <==> s.None?
    ensures s.Some? ==>
      var t := s.value;
      var i := if |t| > 0 && t[0] == '"' then 1 else 0;
      var j := if |t| > i && t[|t| - 1] == '"' then |t| - 1 else |t|;
      r == Some(t[i..j])
  {
    if s.None? then None
    else
      var t := s.value;
      var i := if |t| > 0 && t[0] == '"' then 1 else 0;
      var j := if |t| > i && t[|t| - 1] == '"' then |t| - 1 else |t|;
      assert RemoveStart(s, "\"") == Some(t[i..]) by {
        if |t| > 0 {
          assert StartsWith(t, "\"") <==> t[0] == '"' by { assert t[..1] == [t[0]]; }
        }
      }
      var u := t[i..];
      assert RemoveEnd(Some(u), "\"") == Some(t[i..j]) by {
        if |u| > 0 {
          assert u[|u| - 1] == t[|t| - 1];
          assert EndsWith(u, "\"") <==> u[|u| - 1] == '"' by { assert u[|u| - 1..] == [u[|u| - 1]]; }
          if u[|u| - 1] == '"' {
            assert j == |t| - 1;
            assert u[..|u| - 1] == t[i..j];
          } else {
            assert u == t[i..j];
          }
        } else {
          assert u == t[i..j];
        }
      }
      RemoveEnd(RemoveStart(s, "\""), "\"")
  }

  /** `clean` is `raw` without its first character exactly when that is a
      double quote, and without its last exactly when that one, after the
      first is gone, is a double quote too. */
  ghost predicate QuotesStripped(raw: string, clean: string)
  {
    exists i, j | 0 <= i <= 1 && i <= j <= |raw| && |raw| - 1 <= j ::
      clean == raw[i..j] &&
      (i == 1 <==> |raw| > 0 && raw[0] == '"') &&
      (j == |raw| - 1 <==> |raw| > i && raw[|raw| - 1] == '"')
  }

  lemma CleanStringStripsQuotes(raw: string)
    ensures QuotesStripped(raw, CleanString(Some(raw)).value)
  {
    var i := if |raw| > 0 && raw[0] == '"' then 1 else 0;
    var j := if |raw| > i && raw[|raw| - 1] == '"' then |raw| - 1 else |raw|;
    assert CleanString(Some(raw)).value == raw[i..j];
  }

  /** Only the cleaned string satisfies the description: quotes that are
      not at the ends, or not there at all, are never dropped. */
  lemma QuotesStrippedUnique(raw: string, clean: string)
    requires QuotesStripped(raw, clean)
    ensures Some(clean) == CleanString(Some(raw))
  {
  }

  /** A value wrapped in one pair of quotes comes back unwrapped, inner
      quotes included. */
  lemma CleanStringUnquotes(t: string)
    ensures CleanString(Some("\"" + t + "\"")) == Some(t)
  {
    var q := "\"" + t + "\"";
    assert q[1..|q| - 1] == t;
  }

  /** A value neither starting nor ending with a quote is left as it is. */
  lemma CleanStringKeepsUnquoted(t: string)
    requires t == [] || (t[0] != '"' && t[|t| - 1] != '"')
    ensures CleanString(Some(t)) == Some(t)
  {
    assert t[0..|t|] == t;
  }

  /** Cleaning removes one quote per end, not all of them. */
  lemma CleanStringRemovesOneQuotePerEnd()
    ensures CleanString(Some("\"\"a\"\"")) == Some("\"a\"")
  {
    var t := "\"\"a\"\"";
    assert t[1..4] == "\"a\"";
  }

  class PublisherContext {
    var artifactoryServer: ArtifactoryServer?
    var serverDetails: Option<ServerDetails>
    var deployerOverrider: Option<DeployerOverrider>
    var runChecks: bool
    var includePublishArtifacts: bool
    var violationRecipients: JString
    var scopes: JString
    var licenseAutoDiscovery: bool
    var discardOldBuilds: bool
    var discardBuildArtifacts: bool
    var deployArtifacts: bool
    var includesExcludes: Option<IncludesExcludes>
    var skipBuildInfoDeploy: bool
    var includeEnvVars: bool
    var evenIfUnstable: bool
    var deployMaven: bool
    var deployIvy: bool
    /** The raw patterns, quotes included; both start out as "". */
    var artifactsPattern: JString
    var ivyPattern: JString
    var matrixParams: JString
    var maven2Compatible: bool
    var enableIssueTrackerIntegration: bool
    var aggregateBuildIssues: bool
    var aggregationBuildStatus: JString

    /** The field initialisers: every reference null and every flag false,
        except the two patterns, which are "". */
    predicate IsDefault()
      reads this
    {
      artifactoryServer == null && serverDetails == None && deployerOverrider == None &&
      !runChecks && !includePublishArtifacts && !licenseAutoDiscovery && !discardOldBuilds &&
      !discardBuildArtifacts && !deployArtifacts && !skipBuildInfoDeploy && !includeEnvVars &&
      !evenIfUnstable && !deployMaven && !deployIvy && !maven2Compatible &&
      !enableIssueTrackerIntegration && !aggregateBuildIssues &&
      violationRecipients == None && scopes == None && includesExcludes == None &&
      matrixParams == None && aggregationBuildStatus == None &&
      artifactsPattern == Some("") && ivyPattern == Some("")
    }

    constructor ()
      ensures IsDefault()
      ensures GetArtifactsPattern() == Some("") && GetIvyPattern() == Some("")
    {
      artifactoryServer := null;
      serverDetails := None;
      deployerOverrider := None;
      runChecks := false;
      includePublishArtifacts := false;
      violationRecipients := None;
      scopes := None;
      licenseAutoDiscovery := false;
      discardOldBuilds := false;
      discardBuildArtifacts := false;
      deployArtifacts := false;
      includesExcludes := None;
      skipBuildInfoDeploy := false;
      includeEnvVars := false;
      evenIfUnstable := false;
      deployMaven := false;
      deployIvy := false;
      artifactsPattern := Some("");
      ivyPattern := Some("");
      matrixParams := None;
      maven2Compatible := false;
      enableIssueTrackerIntegration := false;
      aggregateBuildIssues := false;
      aggregationBuildStatus := None;
    }

    /** The artifacts pattern without its surrounding quotes. */
    function GetArtifactsPattern(): (r: JString)
      reads this`artifactsPattern
      ensures r.None? <==> artifactsPattern.None?
      ensures r == CleanString(artifactsPattern)
      ensures artifactsPattern.Some? ==> QuotesStripped(artifactsPattern.value, r.value)
    {
      if artifactsPattern.Some? then CleanStringStripsQuotes(artifactsPattern.value); CleanString(artifactsPattern)
      else None
    }

    /** The Ivy pattern without its surrounding quotes. */
    function GetIvyPattern(): (r: JString)
      reads this`ivyPattern
      ensures r.None? <==> ivyPattern.None?
      ensures r == CleanString(ivyPattern)
      ensures ivyPattern.Some? ==> QuotesStripped(ivyPattern.value, r.value)
    {
      if ivyPattern.Some? then CleanStringStripsQuotes(ivyPattern.value); CleanString(ivyPattern)
      else None
    }

    /** The name of the server the details point at; null without details. */
    function GetArtifactoryName(): (r: JString)
      reads this`serverDetails
      ensures serverDetails.None? ==> r.None?
      ensures serverDetails.Some? ==> r == serverDetails.value.artifactoryName
    {
      if serverDetails.Some? then serverDetails.value.artifactoryName else None
    }
  }

  /** `PublisherContext.Builder`: every setter writes one field of the one
      context the builder owns and hands the builder back for chaining. */
  class Builder {
    const publisher: PublisherContext

    constructor ()
      ensures fresh(publisher) && publisher.IsDefault()
    {
      publisher := new PublisherContext();
    }

    /** Taking the context out: a missing server is reported before missing
        server details; otherwise the builder's own context, the same object
        on every call. */
    function Build(): (r: Result<PublisherContext, string>)
      reads publisher`artifactoryServer, publisher`serverDetails
      ensures publisher.artifactoryServer == null ==> r == Failure("artifactoryServer cannot be null")
      ensures publisher.artifactoryServer != null && publisher.serverDetails.None? ==>
        r == Failure("serverDetails cannot be null")
      ensures r.Success? <==> publisher.artifactoryServer != null && publisher.serverDetails.Some?
      ensures r.Success? ==> r.value == publisher
    {
      if publisher.artifactoryServer == null then Failure("artifactoryServer cannot be null")
      else if publisher.serverDetails.None? then Failure("serverDetails cannot be null")
      else Success(publisher)
    }

    method SetArtifactoryServer(value: ArtifactoryServer?) returns (b: Builder)
      modifies publisher`artifactoryServer
      ensures publisher.artifactoryServer == value && b == this
    {
      publisher.artifactoryServer := value;
      b := this;
    }

    method SetServerDetails(value: Option<ServerDetails>) returns (b: Builder)
      modifies publisher`serverDetails
      ensures publisher.serverDetails == value && b == this
    {
      publisher.serverDetails := value;
      b := this;
    }

    method SetDeployerOverrider(value: Option<DeployerOverrider>) returns (b: Builder)
      modifies publisher`deployerOverrider
      ensures publisher.deployerOverrider == value && b == this
    {
      publisher.deployerOverrider := value;
      b := this;
    }

    method SetRunChecks(value: bool) returns (b: Builder)
      modifies publisher`runChecks
      ensures publisher.runChecks == value && b == this
    {
      publisher.runChecks := value;
      b := this;
    }

    method SetIncludePublishArtifacts(value: bool) returns (b: Builder)
      modifies publisher`includePublishArtifacts
      ensures publisher.includePublishArtifacts == value && b == this
    {
      publisher.includePublishArtifacts := value;
      b := this;
    }

    method SetViolationRecipients(value: JString) returns (b: Builder)
      modifies publisher`violationRecipients
      ensures publisher.violationRecipients == value && b == this
    {
      publisher.violationRecipients := value;
      b := this;
    }

    method SetScopes(value: JString) returns (b: Builder)
      modifies publisher`scopes
      ensures publisher.scopes == value && b == this
    {
      publisher.scopes := value;
      b := this;
    }

    method SetLicenseAutoDiscovery(value: bool) returns (b: Builder)
      modifies publisher`licenseAutoDiscovery
      ensures publisher.licenseAutoDiscovery == value && b == this
    {
      publisher.licenseAutoDiscovery := value;
      b := this;
    }

    method SetDiscardOldBuilds(value: bool) returns (b: Builder)
      modifies publisher`discardOldBuilds
      ensures publisher.discardOldBuilds == value && b == this
    {
      publisher.discardOldBuilds := value;
      b := this;
    }

    method SetDeployArtifacts(value: bool) returns (b: Builder)
      modifies publisher`deployArtifacts
      ensures publisher.deployArtifacts == value && b == this
    {
      publisher.deployArtifacts := value;
      b := this;
    }

    method SetIncludesExcludes(value: Option<IncludesExcludes>) returns (b: Builder)
      modifies publisher`includesExcludes
      ensures publisher.includesExcludes == value && b == this
    {
      publisher.includesExcludes := value;
      b := this;
    }

    method SetSkipBuildInfoDeploy(value: bool) returns (b: Builder)
      modifies publisher`skipBuildInfoDeploy
      ensures publisher.skipBuildInfoDeploy == value && b == this
    {
      publisher.skipBuildInfoDeploy := value;
      b := this;
    }

    method SetIncludeEnvVars(value: bool) returns (b: Builder)
      modifies publisher`includeEnvVars
      ensures publisher.includeEnvVars == value && b == this
    {
      publisher.includeEnvVars := value;
      b := this;
    }

    method SetDiscardBuildArtifacts(value: bool) returns (b: Builder)
      modifies publisher`discardBuildArtifacts
      ensures publisher.discardBuildArtifacts == value && b == this
    {
      publisher.discardBuildArtifacts := value;
      b := this;
    }

    method SetMatrixParams(value: JString) returns (b: Builder)
      modifies publisher`matrixParams
      ensures publisher.matrixParams == value && b == this
    {
      publisher.matrixParams := value;
      b := this;
    }

    method SetArtifactsPattern(value: JString) returns (b: Builder)
      modifies publisher`artifactsPattern
      ensures publisher.artifactsPattern == value && b == this
    {
      publisher.artifactsPattern := value;
      b := this;
    }

    method SetIvyPattern(value: JString) returns (b: Builder)
      modifies publisher`ivyPattern
      ensures publisher.ivyPattern == value && b == this
    {
      publisher.ivyPattern := value;
      b := this;
    }

    method SetDeployMaven(value: bool) returns (b: Builder)
      modifies publisher`deployMaven
      ensures publisher.deployMaven == value && b == this
    {
      publisher.deployMaven := value;
      b := this;
    }

    method SetDeployIvy(value: bool) returns (b: Builder)
      modifies publisher`deployIvy
      ensures publisher.deployIvy == value && b == this
    {
      publisher.deployIvy := value;
      b := this;
    }

    method SetEvenIfUnstable(value: bool) returns (b: Builder)
      modifies publisher`evenIfUnstable
      ensures publisher.evenIfUnstable == value && b == this
    {
      publisher.evenIfUnstable := value;
      b := this;
    }

    method SetMaven2Compatible(value: bool) returns (b: Builder)
      modifies publisher`maven2Compatible
      ensures publisher.maven2Compatible == value && b == this
    {
      publisher.maven2Compatible := value;
      b := this;
    }

    method SetEnableIssueTrackerIntegration(value: bool) returns (b: Builder)
      modifies publisher`enableIssueTrackerIntegration
      ensures publisher.enableIssueTrackerIntegration == value && b == this
    {
      publisher.enableIssueTrackerIntegration := value;
      b := this;
    }

    method SetAggregateBuildIssues(value: bool) returns (b: Builder)
      modifies publisher`aggregateBuildIssues
      ensures publisher.aggregateBuildIssues == value && b == this
    {
      publisher.aggregateBuildIssues := value;
      b := this;
    }

    method SetAggregationBuildStatus(value: JString) returns (b: Builder)
      modifies publisher`aggregationBuildStatus
      ensures publisher.aggregationBuildStatus == value && b == this
    {
      publisher.aggregationBuildStatus := value;
      b := this;
    }
  }
}

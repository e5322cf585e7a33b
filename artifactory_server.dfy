/**
 * `ArtifactoryServer`: one configured Artifactory instance. Its URL and
 * timeout are normalised once, at construction; its credentials decide who
 * lists repositories; it builds the HTTP clients, applying a proxy only when
 * one is configured and not bypassed; and it caches the last repository
 * lists it fetched.
 */
module Server {
  import opened Wrappers
  import opened JavaStrings
  import opened BuildInfoClient

  /** `org.jfrog.hudson.util.Credentials`: a user name and a password, each possibly null. */
  datatype Credentials = Credentials(username: JString, password: JString)

  /** `hudson.ProxyConfiguration`, the proxy configured in Jenkins. */
  datatype HudsonProxy = HudsonProxy(name: JString, port: int, userName: JString, password: JString)

  /** `VirtualRepository`: the text shown in a selection list and the repository key it stands for. */
  datatype VirtualRepository = VirtualRepository(displayName: string, value: string)

  /** Five minutes, in seconds. */
  const DEFAULT_CONNECTION_TIMEOUT: int := 300

  /** The entry put in front of the virtual repositories; selecting it selects no repository. */
  const VIRTUAL_REPOSITORY_PROMPT: VirtualRepository :=
    VirtualRepository("-- To use Artifactory for resolution select a virtual repository --", "")

  /** The constructor's `StringUtils.removeEnd(url, "/")`. */
  function NormalizeUrl(url: JString): (r: JString)
    ensures r.None? <==> url.None?
    ensures url.Some? && EndsWith(url.value, "/") ==> r == Some(url.value[..|url.value| - 1])
    ensures url.Some? && !EndsWith(url.value, "/") ==> r == url
  {
    RemoveEnd(url, "/")
  }

  /** At most one trailing slash goes: a URL ending in two keeps one. */
  lemma NormalizeUrlRemovesOneSlash(host: string)
    ensures NormalizeUrl(Some(host + "//")) == Some(host + "/")
  {
    var u := host + "//";
    assert EndsWith(u, "/");
    assert u[..|u| - 1] == host + "/";
  }

  /** The constructor's choice of timeout. */
  function NormalizeTimeout(timeout: int): (r: int)
    ensures r > 0
    ensures timeout > 0 ==> r == timeout
    ensures timeout <= 0 ==> r == DEFAULT_CONNECTION_TIMEOUT
  {
    if timeout > 0 then timeout else DEFAULT_CONNECTION_TIMEOUT
  }

  /** The proxy a new client is given, if any: both client factories apply
      the configured proxy only when it is not bypassed, is present, and has
      a host and a non-zero port. */
  function ProxyToApply(bypassProxy: bool, config: Option<ProxyConfiguration>): (r: Option<ProxySettings>)
    ensures r.Some? <==> !bypassProxy && config.Some? && config.value.host.Some? && config.value.port != 0
    ensures r.Some? ==>
      r.value == ProxySettings(config.value.host.value, config.value.port, config.value.username, config.value.password)
  {
    if !bypassProxy && config.Some? then
      if config.value.host.Some? && config.value.port != 0 then
        Some(ProxySettings(config.value.host.value, config.value.port, config.value.username, config.value.password))
      else None
    else None
  }

  /** `createProxyConfiguration`: no Jenkins proxy, no configuration;
      otherwise its four fields, copied. */
  function CreateProxyConfiguration(proxy: Option<HudsonProxy>): (r: Option<ProxyConfiguration>)
    ensures r.None? <==> proxy.None?
    ensures r.Some? ==> r.value.host == proxy.value.name && r.value.port == proxy.value.port
    ensures r.Some? ==> r.value.username == proxy.value.userName && r.value.password == proxy.value.password
  {
    match proxy
    case None => None
    case Some(p) => Some(ProxyConfiguration(p.name, p.port, p.userName, p.password))
  }

  /** The repository list offered for resolution: the prompt, then one
      entry per virtual repository key, shown as the key itself. */
  function VirtualRepositoriesOf(keys: seq<string>): (r: seq<VirtualRepository>)
    ensures |r| == |keys| + 1 && r[0] == VIRTUAL_REPOSITORY_PROMPT
    ensures forall i | 0 <= i < |keys| :: r[i + 1] == VirtualRepository(keys[i], keys[i])
  {
    [VIRTUAL_REPOSITORY_PROMPT] + seq(|keys|, i requires 0 <= i < |keys| => VirtualRepository(keys[i], keys[i]))
  }

  class ArtifactoryServer {
    const url: JString
    const deployerCredentials: Option<Credentials>
    var resolverCredentials: Option<Credentials>
    /** Seconds, for connecting and for unanswered requests. */
    const timeout: int
    const bypassProxy: bool
    /** The local repository keys fetched last, `None` before the first fetch. */
    var repositories: Option<seq<string>>
    var virtualRepositories: Option<seq<VirtualRepository>>
    /** The deprecated resolver user name and scrambled password that
        configurations saved by older versions still hold. */
    var legacyUserName: JString
    var legacyPassword: JString

    constructor (url: JString, deployerCredentials: Option<Credentials>, resolverCredentials: Option<Credentials>,
                 timeout: int, bypassProxy: bool)
      ensures this.url == NormalizeUrl(url) && this.timeout == NormalizeTimeout(timeout)
      ensures this.deployerCredentials == deployerCredentials && this.resolverCredentials == resolverCredentials
      ensures this.bypassProxy == bypassProxy
      ensures repositories == None && virtualRepositories == None
      ensures legacyUserName == None && legacyPassword == None
    {
      this.url := NormalizeUrl(url);
      this.deployerCredentials := deployerCredentials;
      this.resolverCredentials := resolverCredentials;
      this.timeout := NormalizeTimeout(timeout);
      this.bypassProxy := bypassProxy;
      repositories := None;
      virtualRepositories := None;
      legacyUserName := None;
      legacyPassword := None;
    }

    /** A server read back from a saved configuration: the fields hold what
        was saved, the constructor is not run. */
    constructor Deserialized(url: JString, deployerCredentials: Option<Credentials>,
                             resolverCredentials: Option<Credentials>, timeout: int, bypassProxy: bool,
                             legacyUserName: JString, legacyPassword: JString)
      ensures this.url == url && this.timeout == timeout && this.bypassProxy == bypassProxy
      ensures this.deployerCredentials == deployerCredentials && this.resolverCredentials == resolverCredentials
      ensures this.legacyUserName == legacyUserName && this.legacyPassword == legacyPassword
      ensures repositories == None && virtualRepositories == None
    {
      this.url := url;
      this.deployerCredentials := deployerCredentials;
      this.resolverCredentials := resolverCredentials;
      this.timeout := timeout;
      this.bypassProxy := bypassProxy;
      repositories := None;
      virtualRepositories := None;
      this.legacyUserName := legacyUserName;
      this.legacyPassword := legacyPassword;
    }

    /** The credentials used to list repositories: the resolver's, else the
        deployer's, else empty ones; never null. */
    function GetResolvingCredentials(): (r: Credentials)
      reads this
      ensures resolverCredentials.Some? ==> r == resolverCredentials.value
      ensures resolverCredentials.None? && deployerCredentials.Some? ==> r == deployerCredentials.value
      ensures resolverCredentials.None? && deployerCredentials.None? ==> r == Credentials(None, None)
    {
      if resolverCredentials.Some? then resolverCredentials.value
      else if deployerCredentials.Some? then deployerCredentials.value
      else Credentials(None, None)
    }

    /** What both client factories share: the timeout is always set, the
        proxy only as `ProxyToApply` says. */
    method NewClient(kind: ClientKind, userName: JString, password: JString,
                     proxyConfiguration: Option<ProxyConfiguration>, remote: Remote)
      returns (client: ArtifactoryClient)
      ensures fresh(client)
      ensures client.kind == kind && client.url == url && client.remote == remote
      ensures client.username == userName && client.password == password
      ensures client.connectionTimeout == Some(timeout)
      ensures client.proxy == ProxyToApply(bypassProxy, proxyConfiguration)
      ensures client.deployed == [] && !client.isShutdown
    {
      client := new ArtifactoryClient(kind, url, userName, password, remote);
      client.SetConnectionTimeout(timeout);
      if !bypassProxy && proxyConfiguration.Some? {
        var config := proxyConfiguration.value;
        if config.host.Some? && config.port != 0 {
          client.SetProxyConfiguration(config.host.value, config.port, config.username, config.password);
        }
      }
    }

    method CreateArtifactoryClient(userName: JString, password: JString,
                                   proxyConfiguration: Option<ProxyConfiguration>, remote: Remote)
      returns (client: ArtifactoryClient)
      ensures fresh(client)
      ensures client.kind == BuildInfoClientKind && client.url == url && client.remote == remote
      ensures client.username == userName && client.password == password
      ensures client.connectionTimeout == Some(timeout)
      ensures client.proxy == ProxyToApply(bypassProxy, proxyConfiguration)
      ensures client.deployed == [] && !client.isShutdown
    {
      client := NewClient(BuildInfoClientKind, userName, password, proxyConfiguration, remote);
    }

    method CreateArtifactoryDependenciesClient(userName: JString, password: JString,
                                               proxyConfiguration: Option<ProxyConfiguration>, remote: Remote)
      returns (client: ArtifactoryClient)
      ensures fresh(client)
      ensures client.kind == DependenciesClientKind && client.url == url && client.remote == remote
      ensures client.username == userName && client.password == password
      ensures client.connectionTimeout == Some(timeout)
      ensures client.proxy == ProxyToApply(bypassProxy, proxyConfiguration)
      ensures client.deployed == [] && !client.isShutdown
    {
      client := NewClient(DependenciesClientKind, userName, password, proxyConfiguration, remote);
    }

    /** The local repository keys; an empty list when the server cannot be
        asked. The list fetched is cached; the client is shut down either way. */
    method GetRepositoryKeys(hudsonProxy: Option<HudsonProxy>, remote: Remote)
      returns (keys: seq<string>, client: ArtifactoryClient)
      modifies this`repositories
      ensures fresh(client) && client.isShutdown && client.remote == remote
      ensures client.username == GetResolvingCredentials().username
      ensures client.password == GetResolvingCredentials().password
      ensures client.proxy == ProxyToApply(bypassProxy, CreateProxyConfiguration(hudsonProxy))
      ensures remote.localRepositoryKeys.Success? ==>
        keys == remote.localRepositoryKeys.value && repositories == Some(keys)
      ensures remote.localRepositoryKeys.Failure? ==> keys == [] && repositories == old(repositories)
    {
      var credentials := GetResolvingCredentials();
      client := CreateArtifactoryClient(credentials.username, credentials.password,
                                        CreateProxyConfiguration(hudsonProxy), remote);
      var fetched := client.GetLocalRepositoriesKeys();
      match fetched {
        case Success(k) =>
          repositories := Some(k);
          client.Shutdown();
          keys := k;
        case Failure(_) =>
          client.Shutdown();
          keys := [];
      }
    }

    /** The virtual repositories offered for resolution. On success the
        prompt comes first; an I/O error gives an empty list without the
        prompt; an `IllegalArgumentException` is not caught and propagates.
        The client is shut down on every path. */
    method GetVirtualRepositoryKeys(hudsonProxy: Option<HudsonProxy>, remote: Remote)
      returns (r: Result<seq<VirtualRepository>, ClientError>, client: ArtifactoryClient)
      modifies this`virtualRepositories
      ensures fresh(client) && client.isShutdown && client.remote == remote
      ensures client.username == GetResolvingCredentials().username
      ensures client.password == GetResolvingCredentials().password
      ensures client.proxy == ProxyToApply(bypassProxy, CreateProxyConfiguration(hudsonProxy))
      ensures remote.virtualRepositoryKeys.Success? ==>
        var listed := VirtualRepositoriesOf(remote.virtualRepositoryKeys.value);
        r == Success(listed) && virtualRepositories == Some(listed)
      ensures remote.virtualRepositoryKeys == Failure(IOError) ==>
        r == Success([]) && virtualRepositories == old(virtualRepositories)
      ensures remote.virtualRepositoryKeys == Failure(IllegalArgument) ==>
        r == Failure(IllegalArgument) && virtualRepositories == old(virtualRepositories)
    {
      var credentials := GetResolvingCredentials();
      client := CreateArtifactoryClient(credentials.username, credentials.password,
                                        CreateProxyConfiguration(hudsonProxy), remote);
      var fetched := client.GetVirtualRepositoryKeys();
      match fetched {
        case Success(keys) =>
          virtualRepositories := Some(seq(|keys|, i requires 0 <= i < |keys| => VirtualRepository(keys[i], keys[i])));
          client.Shutdown();
          virtualRepositories := Some([VIRTUAL_REPOSITORY_PROMPT] + virtualRepositories.value);
          r := Success(virtualRepositories.value);
        case Failure(IOError) =>
          client.Shutdown();
          r := Success([]);
        case Failure(IllegalArgument) =>
          client.Shutdown();
          r := Failure(IllegalArgument);
      }
    }

    /** `ConverterImpl.callback`, run when a saved configuration is read: a
        non-blank legacy user name becomes the resolver credentials, unless
        resolver credentials are already set. */
    method ConvertLegacyCredentials(descramble: JString -> JString)
      modifies this`resolverCredentials
      ensures !IsBlank(legacyUserName) && old(resolverCredentials).None? ==>
        resolverCredentials == Some(Credentials(legacyUserName, descramble(legacyPassword)))
      ensures IsBlank(legacyUserName) || old(resolverCredentials).Some? ==>
        resolverCredentials == old(resolverCredentials)
    {
      if !IsBlank(legacyUserName) && resolverCredentials.None? {
        resolverCredentials := Some(Credentials(legacyUserName, descramble(legacyPassword)));
      }
    }
  }
}

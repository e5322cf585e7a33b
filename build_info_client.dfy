/**
 * The build-info client library as the plugin uses it: the deploy
 * descriptor, the manifest entry, the proxy settings, and the HTTP client.
 * The Artifactory server on the other side of the client is `Remote`: the
 * answers it gives to the listing requests and the descriptors whose upload
 * fails with an I/O error. Nothing about the wire protocol is modelled.
 */
module BuildInfoClient {
  import opened Wrappers
  import opened JavaStrings

  /** A workspace file: its path and its last path component (`File.getName`). */
  datatype File = File(path: string, name: string)

  /** `DeployDetails`: one file to upload, where to, with which checksums
      and properties. Compared by value. */
  datatype DeployDetails = DeployDetails(
    file: File,
    artifactPath: string,
    targetRepository: string,
    md5: JString,
    sha1: JString,
    properties: map<string, string>)

  /** `org.jfrog.build.api.Artifact`: a manifest entry. */
  datatype Artifact = Artifact(name: string, md5: JString, sha1: JString, artifactType: string)

  /** `org.jfrog.build.client.ProxyConfiguration`: four public fields. */
  datatype ProxyConfiguration = ProxyConfiguration(host: JString, port: int, username: JString, password: JString)

  /** The proxy a client was told to use (`setProxyConfiguration`). */
  datatype ProxySettings = ProxySettings(host: string, port: int, username: JString, password: JString)

  /** The exceptions a client call can raise. */
  datatype ClientError = IOError | IllegalArgument

  /** What the server answers. */
  datatype Remote = Remote(
    localRepositoryKeys: Result<seq<string>, ClientError>,
    virtualRepositoryKeys: Result<seq<string>, ClientError>,
    rejected: set<DeployDetails>)

  /** `ArtifactoryBuildInfoClient` or `ArtifactoryDependenciesClient`. */
  datatype ClientKind = BuildInfoClientKind | DependenciesClientKind

  class ArtifactoryClient {
    const kind: ClientKind
    const url: JString
    const username: JString
    const password: JString
    const remote: Remote
    var connectionTimeout: Option<int>
    var proxy: Option<ProxySettings>
    /** The descriptors uploaded so far, in upload order. */
    var deployed: seq<DeployDetails>
    var isShutdown: bool

    constructor (kind: ClientKind, url: JString, username: JString, password: JString, remote: Remote)
      ensures this.kind == kind && this.url == url && this.username == username && this.password == password
      ensures this.remote == remote
      ensures connectionTimeout == None && proxy == None && deployed == [] && !isShutdown
    {
      this.kind := kind;
      this.url := url;
      this.username := username;
      this.password := password;
      this.remote := remote;
      connectionTimeout := None;
      proxy := None;
      deployed := [];
      isShutdown := false;
    }

    method SetConnectionTimeout(seconds: int)
      modifies this`connectionTimeout
      ensures connectionTimeout == Some(seconds)
    {
      connectionTimeout := Some(seconds);
    }

    method SetProxyConfiguration(host: string, port: int, username: JString, password: JString)
      modifies this`proxy
      ensures proxy == Some(ProxySettings(host, port, username, password))
    {
      proxy := Some(ProxySettings(host, port, username, password));
    }

    method GetLocalRepositoriesKeys() returns (r: Result<seq<string>, ClientError>)
      ensures r == remote.localRepositoryKeys
    {
      r := remote.localRepositoryKeys;
    }

    method GetVirtualRepositoryKeys() returns (r: Result<seq<string>, ClientError>)
      ensures r == remote.virtualRepositoryKeys
    {
      r := remote.virtualRepositoryKeys;
    }

    /** Uploads one descriptor; `false` is the `IOException`. */
    method DeployArtifact(details: DeployDetails) returns (ok: bool)
      modifies this`deployed
      ensures ok <==> details !in remote.rejected
      ensures deployed == old(deployed) + if ok then [details] else []
    {
      ok := details !in remote.rejected;
      if ok {
        deployed := deployed + [details];
      }
    }

    method Shutdown()
      modifies this`isShutdown
      ensures isShutdown
    {
      isShutdown := true;
    }
  }
}

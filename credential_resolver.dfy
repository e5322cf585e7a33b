/**
 * `CredentialResolver`: which credentials a job deploys or resolves with.
 * A job may override the server's credentials with its own; otherwise the
 * server's are used.
 */
module CredentialResolution {
  import opened Wrappers
  import opened Server

  /** A job able to override the server's deployer: whether it does, and with what
      (the job's own credentials may be null). */
  datatype DeployerOverrider = DeployerOverrider(overridingDefaultDeployer: bool, overridingDeployerCredentials: Option<Credentials>)

  datatype ResolverOverrider = ResolverOverrider(overridingDefaultResolver: bool, overridingResolverCredentials: Option<Credentials>)

  /** The job's credentials when it overrides, without consulting the
      server; else the server's deployer credentials; else empty ones, also
      when there is no server. */
  function GetPreferredDeployer(overrider: DeployerOverrider, server: ArtifactoryServer?): (r: Option<Credentials>)
    ensures overrider.overridingDefaultDeployer ==> r == overrider.overridingDeployerCredentials
    ensures !overrider.overridingDefaultDeployer && server != null && server.deployerCredentials.Some? ==>
      r == server.deployerCredentials
    ensures !overrider.overridingDefaultDeployer && (server == null || server.deployerCredentials.None?) ==>
      r == Some(Credentials(None, None))
  {
    if overrider.overridingDefaultDeployer then overrider.overridingDeployerCredentials
    else if server != null && server.deployerCredentials.Some? then server.deployerCredentials
    else Some(Credentials(None, None))
  }

  /** The job's credentials when it overrides; else the server's resolving
      credentials. Without an override the server is dereferenced, so it
      must be there. */
  function GetPreferredResolver(overrider: ResolverOverrider, server: ArtifactoryServer?): (r: Option<Credentials>)
    requires overrider.overridingDefaultResolver || server != null
    reads server
    ensures overrider.overridingDefaultResolver ==> r == overrider.overridingResolverCredentials
    ensures !overrider.overridingDefaultResolver ==> r.Some?
    ensures !overrider.overridingDefaultResolver && server.resolverCredentials.Some? ==> r == server.resolverCredentials
    ensures !overrider.overridingDefaultResolver && server.resolverCredentials.None? && server.deployerCredentials.Some? ==>
      r == server.deployerCredentials
    ensures !overrider.overridingDefaultResolver && server.resolverCredentials.None? && server.deployerCredentials.None? ==>
      r == Some(Credentials(None, None))
  {
    if overrider.overridingDefaultResolver then overrider.overridingResolverCredentials
    else Some(server.GetResolvingCredentials())
  }

  /** With no overrides and no resolver credentials on the server, a job
      resolves with exactly the credentials it deploys with. */
  lemma ResolverFallsBackToDeployer(deployer: DeployerOverrider, resolver: ResolverOverrider, server: ArtifactoryServer)
    requires !deployer.overridingDefaultDeployer && !resolver.overridingDefaultResolver
    requires server.resolverCredentials.None?
    ensures GetPreferredResolver(resolver, server) == GetPreferredDeployer(deployer, server)
  {
  }
}

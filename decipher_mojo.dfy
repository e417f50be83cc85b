/**
 * The older revision's `pull` goal: no login step (tokens come with the configuration), the
 * `skipExecution` flag checked first, and a `VaultException` from the pull wrapped into a
 * `MojoExecutionException`.
 */
module DecipherMojo {
  import opened Wrappers
  import opened JavaLang
  import opened VaultApi
  import opened Sync
  import opened Output
  import opened DecipherServer
  import opened DecipherVaults
  import WizardMojo

  class PullMojo {
    const servers: seq<Server>
    const skipExecution: bool
    /** The project's properties. */
    const properties: Properties

    constructor (servers: seq<Server>, skipExecution: bool, properties: Properties)
      ensures this.servers == servers && this.skipExecution == skipExecution && this.properties == properties
    {
      this.servers := servers;
      this.skipExecution := skipExecution;
      this.properties := properties;
    }

    /** `execute`: nothing when skipped; otherwise one pull of the servers into the project's properties. */
    method Execute(backend: Backend) returns (o: Outcome)
      modifies backend`connections, properties
      ensures skipExecution ==>
                o == Ok && properties.entries == old(properties.entries) && backend.connections == old(backend.connections)
      ensures !skipExecution ==>
                var pulled := PullTargets(None, backend.store, Targets(servers),
                                          PullState(OnlyProperties(old(properties.entries)), old(backend.connections)));
                o == WizardMojo.Wrapped(pulled.0, WizardMojo.PullingMessage) &&
                PullState(OnlyProperties(properties.entries), backend.connections) == pulled.1
    {
      if skipExecution {
        return Ok;
      }
      o := Pull(backend, servers, properties);
      o := WizardMojo.Wrapped(o, WizardMojo.PullingMessage);
    }
  }
}

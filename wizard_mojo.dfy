/**
 * The newer revision's Maven goals. `execute` first logs the configured servers in, then runs
 * the goal's operation; a goal whose `skipExecution` flag is set runs no operation. A
 * `VaultException` from either step is wrapped into a `MojoExecutionException` with a fixed
 * message; any other exception escapes as it is.
 */
module WizardMojo {
  import opened Wrappers
  import opened JavaLang
  import opened VaultApi
  import opened Output
  import opened Sync
  import opened WizardServer
  import opened WizardAuth
  import opened WizardVaults

  const AuthenticatingMessage: string := "Exception thrown authenticating."
  const PullingMessage: string := "Exception thrown pulling secrets."
  const PushingMessage: string := "Exception thrown pushing secrets."

  /** `catch (VaultException e) { throw new MojoExecutionException(message, e); }` around a call. */
  function Wrapped(o: Outcome, message: string): (r: Outcome)
    ensures r == Ok <==> o == Ok
    ensures o.Fail? && o.error.VaultException? ==> r.error == MojoExecutionException(message, o.error)
    ensures o.Fail? && !o.error.VaultException? ==> r == o
  {
    match o
    case Ok => Ok
    case Fail(e) => if e.VaultException? then Fail(MojoExecutionException(message, e)) else o
  }

  /** `executeVaultAuthentication`, shared by every goal. */
  method ExecuteVaultAuthentication(servers: seq<Server>, exchange: StoredGithubLogin) returns (o: Outcome)
    modifies set s | s in servers
    ensures o == Wrapped(AuthOutcome(AuthRun(servers, Running(old(Tokens(servers))), exchange)), AuthenticatingMessage)
    ensures Tokens(servers) == AuthRun(servers, Running(old(Tokens(servers))), exchange).tokens
  {
    o := AuthenticateIfNecessary(servers, exchange);
    o := Wrapped(o, AuthenticatingMessage);
  }

  /** The `pull` goal, with the parameters Maven injects into it. */
  class PullMojo {
    const servers: seq<Server>
    const skipExecution: bool
    const outputMethod: OutputMethod
    /** The project's properties. */
    const properties: Properties
    const env: Environment

    constructor (servers: seq<Server>, skipExecution: bool, outputMethod: OutputMethod, properties: Properties, env: Environment)
      ensures this.servers == servers && this.skipExecution == skipExecution && this.outputMethod == outputMethod
      ensures this.properties == properties && this.env == env
    {
      this.servers := servers;
      this.skipExecution := skipExecution;
      this.outputMethod := outputMethod;
      this.properties := properties;
      this.env := env;
    }

    /**
     * `execute`: log in; a failure there ends the goal before anything is pulled. Then, unless
     * skipped, one pull of the servers (with the tokens just obtained) into the project's properties.
     */
    method Execute(backend: Backend, exchange: StoredGithubLogin) returns (o: Outcome)
      modifies backend`connections, properties, env, set s | s in servers
      ensures var auth := AuthRun(servers, Running(old(Tokens(servers))), exchange);
              Tokens(servers) == auth.tokens &&
              if auth.Threw? then
                o == Wrapped(Fail(auth.error), AuthenticatingMessage) &&
                SinksOf(properties, env) == old(SinksOf(properties, env)) && backend.connections == old(backend.connections)
              else if skipExecution then
                o == Ok && SinksOf(properties, env) == old(SinksOf(properties, env)) && backend.connections == old(backend.connections)
              else
                var pulled := PullTargets(Some(outputMethod), backend.store, Targets(servers),
                                          PullState(old(SinksOf(properties, env)), old(backend.connections)));
                o == Wrapped(pulled.0, PullingMessage) &&
                PullState(SinksOf(properties, env), backend.connections) == pulled.1
    {
      o := ExecuteVaultAuthentication(servers, exchange);
      if o.Fail? {
        return;
      }
      o := ExecuteVaultOperation(backend);
    }

    /** `executeVaultOperation`. */
    method ExecuteVaultOperation(backend: Backend) returns (o: Outcome)
      modifies backend`connections, properties, env
      ensures skipExecution ==>
                o == Ok && SinksOf(properties, env) == old(SinksOf(properties, env)) && backend.connections == old(backend.connections)
      ensures !skipExecution ==>
                var pulled := PullTargets(Some(outputMethod), backend.store, Targets(servers),
                                          PullState(old(SinksOf(properties, env)), old(backend.connections)));
                o == Wrapped(pulled.0, PullingMessage) &&
                PullState(SinksOf(properties, env), backend.connections) == pulled.1
    {
      if skipExecution {
        return Ok;
      }
      o := Pull(backend, servers, properties, env, outputMethod);
      o := Wrapped(o, PullingMessage);
    }
  }

  /** The `push` goal, with the parameters Maven injects into it. */
  class PushMojo {
    const servers: seq<Server>
    const skipExecution: bool
    /** The project's properties. */
    const properties: Properties

    constructor (servers: seq<Server>, skipExecution: bool, properties: Properties)
      ensures this.servers == servers && this.skipExecution == skipExecution && this.properties == properties
    {
      this.servers := servers;
      this.skipExecution := skipExecution;
      this.properties := properties;
    }

    /**
     * `execute`: log in; a failure there ends the goal before anything is pushed. Then, unless
     * skipped, one push of the project's properties to the servers (with the tokens just obtained).
     */
    method Execute(backend: Backend, exchange: StoredGithubLogin) returns (o: Outcome)
      modifies backend, set s | s in servers
      ensures var auth := AuthRun(servers, Running(old(Tokens(servers))), exchange);
              Tokens(servers) == auth.tokens &&
              if auth.Threw? then
                o == Wrapped(Fail(auth.error), AuthenticatingMessage) && PushStateOf(backend) == old(PushStateOf(backend))
              else if skipExecution then
                o == Ok && PushStateOf(backend) == old(PushStateOf(backend))
              else
                var pushed := PushTargets(properties.entries, Targets(servers), old(PushStateOf(backend)));
                o == Wrapped(pushed.0, PushingMessage) && PushStateOf(backend) == pushed.1
    {
      o := ExecuteVaultAuthentication(servers, exchange);
      if o.Fail? {
        return;
      }
      o := ExecuteVaultOperation(backend);
    }

    /** `executeVaultOperation`. */
    method ExecuteVaultOperation(backend: Backend) returns (o: Outcome)
      modifies backend
      ensures skipExecution ==> o == Ok && PushStateOf(backend) == old(PushStateOf(backend))
      ensures !skipExecution ==>
                var pushed := PushTargets(properties.entries, Targets(servers), old(PushStateOf(backend)));
                o == Wrapped(pushed.0, PushingMessage) && PushStateOf(backend) == pushed.1
    {
      if skipExecution {
        return Ok;
      }
      o := Push(backend, servers, properties);
      o := Wrapped(o, PushingMessage);
    }
  }
}

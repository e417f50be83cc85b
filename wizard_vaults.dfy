/**
 * The newer revision's `Vaults` client: `pull` and `push` walk the servers, their paths and
 * the paths' mappings in three nested loops, and `authenticateIfNecessary` logs servers in.
 * `pull` and `push` are proved equal to the engine in `Sync`, whose consequences are proved in
 * `PullFacts`, `PushFacts` and `RoundTrip`.
 */
module WizardVaults {
  import opened Wrappers
  import opened JavaLang
  import opened VaultApi
  import opened PathConfig
  import opened Output
  import opened Sync
  import opened WizardServer
  import opened WizardBackend
  import opened WizardAuth

  /** The connection a server's settings give. */
  function ConfigOf(server: Server): VaultConfig
    reads server
  {
    VaultConfigFor(server.url, server.token, server.namespace, server.sslVerify, server.sslCertificate, server.engineVersion)
  }

  /** A server as the engine sees it. */
  function TargetOf(server: Server): Target
    reads server
  {
    Target(server.skipExecution, ConfigOf(server), server.paths)
  }

  function Targets(servers: seq<Server>): (ts: seq<Target>)
    reads set s | s in servers
    ensures |ts| == |servers|
    ensures forall i :: 0 <= i < |servers| ==> ts[i] == TargetOf(servers[i])
  {
    seq(|servers|, i requires 0 <= i < |servers| reads servers => TargetOf(servers[i]))
  }

  /**
   * `pull`: for every server not skipped, connect; for each of its paths read the stored map;
   * for each mapping, throw if the key is missing, else set the project property and flush
   * the same triple through the output method. Nothing is rolled back on a throw.
   */
  method Pull(backend: Backend, servers: seq<Server>, properties: Properties, env: Environment, output: OutputMethod)
    returns (o: Outcome)
    modifies backend`connections, properties, env
    ensures (o, PullState(SinksOf(properties, env), backend.connections)) ==
            PullTargets(Some(output), backend.store, Targets(servers),
                        PullState(old(SinksOf(properties, env)), old(backend.connections)))
  {
    ghost var ts := Targets(servers);
    ghost var whole := PullTargets(Some(output), backend.store, ts, PullState(SinksOf(properties, env), backend.connections));
    var i := 0;
    while i < |servers|
      invariant 0 <= i <= |servers|
      invariant whole == PullTargets(Some(output), backend.store, ts[i..], PullState(SinksOf(properties, env), backend.connections))
    {
      assert ts[i..][0] == ts[i] && ts[i..][1..] == ts[i + 1..];
      var server := servers[i];
      if server.skipExecution {
        i := i + 1;
        continue;
      }
      var vault := OpenVault(backend, server.url, server.token, server.namespace, server.sslVerify,
                             server.sslCertificate, server.engineVersion);
      assert ts[i] == Target(false, vault.config, server.paths);
      o := PullServer(backend, vault, server.paths, properties, env, output);
      if o.Fail? {
        return;
      }
      i := i + 1;
    }
    o := Ok;
  }

  /** The loop of `pull` over one server's paths. */
  method PullServer(backend: Backend, vault: Vault, paths: seq<Path>, properties: Properties, env: Environment, output: OutputMethod)
    returns (o: Outcome)
    modifies properties, env
    ensures (o, SinksOf(properties, env)) ==
            PullPaths(Some(output), backend.store, vault.config.address, paths, old(SinksOf(properties, env)))
  {
    ghost var whole := PullPaths(Some(output), backend.store, vault.config.address, paths, SinksOf(properties, env));
    var j := 0;
    while j < |paths|
      invariant 0 <= j <= |paths|
      invariant whole == PullPaths(Some(output), backend.store, vault.config.address, paths[j..], SinksOf(properties, env))
    {
      assert paths[j..][0] == paths[j] && paths[j..][1..] == paths[j + 1..];
      var path := paths[j];
      var got := backend.Get(vault, path.name);
      if got.Failure? {
        return Fail(got.error);
      }
      o := PullPath(path, got.value, properties, env, output);
      if o.Fail? {
        return;
      }
      j := j + 1;
    }
    o := Ok;
  }

  /** The loop of `pull` over one path's mappings. */
  method PullPath(path: Path, secrets: Secrets, properties: Properties, env: Environment, output: OutputMethod)
    returns (o: Outcome)
    modifies properties, env
    ensures (o, SinksOf(properties, env)) ==
            PullMappings(Some(output), path.name, secrets, path.mappings, old(SinksOf(properties, env)))
  {
    ghost var whole := PullMappings(Some(output), path.name, secrets, path.mappings, SinksOf(properties, env));
    var k := 0;
    while k < |path.mappings|
      invariant 0 <= k <= |path.mappings|
      invariant whole == PullMappings(Some(output), path.name, secrets, path.mappings[k..], SinksOf(properties, env))
    {
      assert path.mappings[k..][0] == path.mappings[k] && path.mappings[k..][1..] == path.mappings[k + 1..];
      var mapping := path.mappings[k];
      if mapping.key !in secrets {
        return Fail(NoSuchElementException(MissingKeyMessage(path.name, mapping.key)));
      }
      var _ := properties.SetProperty(mapping.property, Some(secrets[mapping.key]));
      o := output.Flush(properties, env, secrets, mapping);
      if o.Fail? {
        return;
      }
      k := k + 1;
    }
    o := Ok;
  }

  function PushStateOf(backend: Backend): PushState
    reads backend
  {
    PushState(backend.store, backend.connections, backend.writes)
  }

  /**
   * `push`: for every server not skipped, connect; for each of its paths start from the stored
   * map if the path exists, else from an empty one; merge each mapping's property into it,
   * throwing if the property is undefined; then write the merged map once.
   */
  method Push(backend: Backend, servers: seq<Server>, properties: Properties) returns (o: Outcome)
    modifies backend
    ensures (o, PushStateOf(backend)) ==
            PushTargets(properties.entries, Targets(servers), old(PushStateOf(backend)))
  {
    ghost var ts := Targets(servers);
    ghost var whole := PushTargets(properties.entries, ts, PushStateOf(backend));
    var i := 0;
    while i < |servers|
      invariant 0 <= i <= |servers|
      invariant whole == PushTargets(properties.entries, ts[i..], PushStateOf(backend))
    {
      assert ts[i..][0] == ts[i] && ts[i..][1..] == ts[i + 1..];
      var server := servers[i];
      if server.skipExecution {
        i := i + 1;
        continue;
      }
      var vault := OpenVault(backend, server.url, server.token, server.namespace, server.sslVerify,
                             server.sslCertificate, server.engineVersion);
      assert ts[i] == Target(false, vault.config, server.paths);
      o := PushServer(backend, vault, server.paths, properties);
      if o.Fail? {
        return;
      }
      i := i + 1;
    }
    o := Ok;
  }

  /** The loop of `push` over one server's paths: read, merge, write once. */
  method PushServer(backend: Backend, vault: Vault, paths: seq<Path>, properties: Properties) returns (o: Outcome)
    modifies backend`store, backend`writes
    ensures (o, PushStateOf(backend)) ==
            PushPaths(properties.entries, vault.config.address, paths, old(PushStateOf(backend)))
  {
    ghost var whole := PushPaths(properties.entries, vault.config.address, paths, PushStateOf(backend));
    var j := 0;
    while j < |paths|
      invariant 0 <= j <= |paths|
      invariant whole == PushPaths(properties.entries, vault.config.address, paths[j..], PushStateOf(backend))
    {
      assert paths[j..][0] == paths[j] && paths[j..][1..] == paths[j + 1..];
      var path := paths[j];
      var secrets: Secrets;
      var found := backend.Exists(vault, path.name);
      if found {
        var got := backend.Get(vault, path.name);
        assert got.Success?;
        secrets := got.value;
      } else {
        secrets := map[];
      }
      var merged := MergePath(path, secrets, properties);
      if merged.Failure? {
        return Fail(merged.error);
      }
      backend.Set(vault, path.name, merged.value);
      j := j + 1;
    }
    o := Ok;
  }

  /** The loop of `push` over one path's mappings: merge each property into the working map. */
  method MergePath(path: Path, secrets: Secrets, properties: Properties) returns (r: Result<Secrets, Exception>)
    ensures r == PushMappings(properties.entries, path.mappings, secrets)
  {
    var merged := secrets;
    var k := 0;
    while k < |path.mappings|
      invariant 0 <= k <= |path.mappings|
      invariant PushMappings(properties.entries, path.mappings, secrets) ==
                PushMappings(properties.entries, path.mappings[k..], merged)
    {
      assert path.mappings[k..][0] == path.mappings[k] && path.mappings[k..][1..] == path.mappings[k + 1..];
      var mapping := path.mappings[k];
      if mapping.property !in properties.entries {
        return Failure(NoSuchElementException(MissingPropertyMessage(mapping.property)));
      }
      merged := merged[mapping.key := properties.entries[mapping.property]];
      k := k + 1;
    }
    r := Success(merged);
  }

  // ----- authenticateIfNecessary -----

  const NoCredentialsMessage: string :=
    "Either a Token of Authentication method must be provided !!\n"
    + "Put in your server configuration in the pom.xml:\n"
    + "<token>" + "YOUR_VAULT_TOKEN" + "</token>\n"
    + "or\n"
    + "<authentication>\n"
    + "  <AUTH_METHOD>__AUTH_CREDENTIALS__</AUTH_METHOD>\n"
    + "</authentication>\n"
    + "available authentication methods are: " + ListToString(Methods) + "\n"

  /** The token of every listed server; a server listed twice is one entry. */
  function Tokens(servers: seq<Server>): map<Server, Option<string>>
    reads set s | s in servers
  {
    map s | s in servers :: s.token
  }

  function TokenIn(tokens: map<Server, Option<string>>, server: Server): Option<string>
  {
    if server in tokens then tokens[server] else None
  }

  /**
   * Where the loop of `authenticateIfNecessary` stands: still going, left by `return` at a
   * server that has a token, or left by a throw; with every server's token so far.
   */
  datatype AuthState =
    | Running(tokens: map<Server, Option<string>>)
    | Returned(tokens: map<Server, Option<string>>)
    | Threw(error: Exception, tokens: map<Server, Option<string>>)

  /**
   * One iteration: a server with a token ends the loop; one without a token but with an
   * authentication map is logged in through the factory's strategy; one with neither throws.
   */
  function AuthStep(st: AuthState, server: Server, exchange: StoredGithubLogin): AuthState
  {
    match st
    case Running(tokens) =>
      var token := TokenIn(tokens, server);
      if !IsNullOrEmpty(token) then Returned(tokens)
      else if server.authentication.Some? then
        match Selection(server, token)
        case Failure(e) => Threw(e, tokens)
        case Success(auth) =>
          match ClientToken(exchange(auth, EntryGet(server.authentication.value, GithubTokenTag)))
          case Failure(e) => Threw(e, tokens)
          case Success(t) => Running(tokens[server := Some(t)])
      else Threw(VaultException(NoCredentialsMessage), tokens)
    case _ => st
  }

  function AuthRun(servers: seq<Server>, st: AuthState, exchange: StoredGithubLogin): AuthState
    decreases |servers|
  {
    if servers == [] then st else AuthRun(servers[1..], AuthStep(st, servers[0], exchange), exchange)
  }

  function AuthOutcome(st: AuthState): Outcome
  {
    if st.Threw? then Fail(st.error) else Ok
  }

  /** `authenticateIfNecessary`: the loop over the servers, left early by `return` or by a throw. */
  method AuthenticateIfNecessary(servers: seq<Server>, exchange: StoredGithubLogin) returns (o: Outcome)
    modifies set s | s in servers
    ensures o == AuthOutcome(AuthRun(servers, Running(old(Tokens(servers))), exchange))
    ensures Tokens(servers) == AuthRun(servers, Running(old(Tokens(servers))), exchange).tokens
  {
    ghost var whole := AuthRun(servers, Running(Tokens(servers)), exchange);
    var i := 0;
    while i < |servers|
      invariant 0 <= i <= |servers|
      invariant whole == AuthRun(servers[i..], Running(Tokens(servers)), exchange)
    {
      assert servers[i..][0] == servers[i] && servers[i..][1..] == servers[i + 1..];
      ghost var tokens := Tokens(servers);
      var stop: bool;
      stop, o := AuthenticateServer(servers, servers[i], exchange);
      if stop {
        AuthRunStopped(servers[i + 1..], AuthStep(Running(tokens), servers[i], exchange), exchange);
        return;
      }
      i := i + 1;
    }
    o := Ok;
  }

  /**
   * The body of the loop for one server: whether the loop ends here (by `return` or a throw),
   * with what outcome, and how the servers' tokens change.
   */
  method AuthenticateServer(servers: seq<Server>, s: Server, exchange: StoredGithubLogin) returns (stop: bool, o: Outcome)
    requires s in servers
    modifies s
    ensures var next := AuthStep(Running(old(Tokens(servers))), s, exchange);
            stop == !next.Running? && o == AuthOutcome(next) && Tokens(servers) == next.tokens
  {
    ghost var tokens := Tokens(servers);
    assert TokenIn(tokens, s) == s.token;
    if !IsNullOrEmpty(s.token) {
      return true, Ok;
    } else if s.authentication.Some? {
      var strategy := FromServer(s);
      if strategy.Failure? {
        return true, Fail(strategy.error);
      }
      o := strategy.value.Login(exchange);
      stop := o.Fail?;
      assert Tokens(servers) == if stop then tokens else tokens[s := s.token];
    } else {
      return true, Fail(VaultException(NoCredentialsMessage));
    }
  }

  /** Once the loop has returned or thrown, no later server is examined, let alone logged in. */
  lemma {:induction false} AuthRunStopped(servers: seq<Server>, st: AuthState, exchange: StoredGithubLogin)
    requires !st.Running?
    ensures AuthRun(servers, st, exchange) == st
    decreases |servers|
  {
    if servers != [] {
      AuthRunStopped(servers[1..], st, exchange);
    }
  }

  lemma {:induction false} AuthRunConcat(a: seq<Server>, b: seq<Server>, st: AuthState, exchange: StoredGithubLogin)
    ensures AuthRun(a + b, st, exchange) == AuthRun(b, AuthRun(a, st, exchange), exchange)
    decreases |a|
  {
    if a == [] {
      assert a + b == b;
    } else {
      assert (a + b)[0] == a[0] && (a + b)[1..] == a[1..] + b;
      AuthRunConcat(a[1..], b, AuthStep(st, a[0], exchange), exchange);
    }
  }

  /**
   * The `return`: once the servers before `server` have been logged in, a token on `server`
   * ends the whole loop successfully, whatever servers follow it.
   */
  lemma {:induction false} AuthReturnsAtToken(before: seq<Server>, server: Server, after: seq<Server>,
                                              tokens: map<Server, Option<string>>, exchange: StoredGithubLogin)
    requires AuthRun(before, Running(tokens), exchange).Running?
    requires !IsNullOrEmpty(TokenIn(AuthRun(before, Running(tokens), exchange).tokens, server))
    ensures AuthRun(before + [server] + after, Running(tokens), exchange) ==
            Returned(AuthRun(before, Running(tokens), exchange).tokens)
  {
    var reached := AuthRun(before, Running(tokens), exchange);
    AuthRunConcat(before + [server], after, Running(tokens), exchange);
    AuthRunConcat(before, [server], Running(tokens), exchange);
    assert AuthRun([server], reached, exchange) == Returned(reached.tokens);
    AuthRunStopped(after, Returned(reached.tokens), exchange);
  }

  /**
   * Only listed servers have their token changed, and only a server that had no token (null or
   * empty) and had an authentication map; its new token is a client token granted by the exchange.
   */
  lemma {:induction false} AuthChangesOnlyEmptyTokens(servers: seq<Server>, st: AuthState, exchange: StoredGithubLogin, server: Server)
    requires TokenIn(AuthRun(servers, st, exchange).tokens, server) != TokenIn(st.tokens, server)
    ensures server in servers && server.authentication.Some? && IsNullOrEmpty(TokenIn(st.tokens, server))
    ensures exists auth, t :: TokenIn(AuthRun(servers, st, exchange).tokens, server) == Some(t) &&
                              exchange(auth, EntryGet(server.authentication.value, GithubTokenTag)) == Granted(t)
    decreases |servers|
  {
    if servers != [] {
      var next := AuthStep(st, servers[0], exchange);
      var final := AuthRun(servers, st, exchange);
      assert final == AuthRun(servers[1..], next, exchange);
      if TokenIn(next.tokens, server) == TokenIn(st.tokens, server) {
        AuthChangesOnlyEmptyTokens(servers[1..], next, exchange, server);
        var k :| 0 <= k < |servers[1..]| && servers[1..][k] == server;
        assert servers[k + 1] == server;
      } else {
        assert servers[0] == server;
        var auth := Selection(server, TokenIn(st.tokens, server)).value;
        var t := ClientToken(exchange(auth, EntryGet(server.authentication.value, GithubTokenTag))).value;
        assert TokenIn(next.tokens, server) == Some(t);
        if TokenIn(final.tokens, server) != TokenIn(next.tokens, server) {
          AuthChangesOnlyEmptyTokens(servers[1..], next, exchange, server);
        } else {
          assert exchange(auth, EntryGet(server.authentication.value, GithubTokenTag)) == Granted(t);
        }
      }
    }
  }

  /** `server` has an authentication map and holds a client token the exchange granted for it. */
  ghost predicate LoggedIn(server: Server, tokens: map<Server, Option<string>>, exchange: StoredGithubLogin)
  {
    server.authentication.Some? &&
    exists auth, t :: TokenIn(tokens, server) == Some(t) &&
                      exchange(auth, EntryGet(server.authentication.value, GithubTokenTag)) == Granted(t)
  }

  /** A run that is still going at the end was still going before it started. */
  lemma {:induction false} AuthRunStillRunning(servers: seq<Server>, st: AuthState, exchange: StoredGithubLogin)
    ensures AuthRun(servers, st, exchange).Running? ==> st.Running?
  {
    if !st.Running? {
      AuthRunStopped(servers, st, exchange);
    }
  }

  /** A server examined while the loop is still going ends the run logged in. */
  lemma {:induction false} AuthHeadLoggedIn(servers: seq<Server>, st: AuthState, exchange: StoredGithubLogin)
    requires servers != [] && AuthStep(st, servers[0], exchange).Running?
    ensures LoggedIn(servers[0], AuthRun(servers, st, exchange).tokens, exchange)
  {
    var s := servers[0];
    var next := AuthStep(st, s, exchange);
    var final := AuthRun(servers, st, exchange);
    assert final == AuthRun(servers[1..], next, exchange);
    if TokenIn(final.tokens, s) != TokenIn(next.tokens, s) {
      AuthChangesOnlyEmptyTokens(servers[1..], next, exchange, s);
    } else {
      var auth := Selection(s, TokenIn(st.tokens, s)).value;
      var t := ClientToken(exchange(auth, EntryGet(s.authentication.value, GithubTokenTag))).value;
      assert exchange(auth, EntryGet(s.authentication.value, GithubTokenTag)) == Granted(t);
      assert TokenIn(final.tokens, s) == Some(t);
    }
  }

  /**
   * The loop that runs to its end has logged every listed server in: none had a token, each
   * had an authentication map, and each now holds a client token the exchange granted.
   */
  lemma {:induction false} AuthRunningGranted(servers: seq<Server>, st: AuthState, exchange: StoredGithubLogin)
    requires AuthRun(servers, st, exchange).Running?
    ensures forall s :: s in servers ==> LoggedIn(s, AuthRun(servers, st, exchange).tokens, exchange)
    decreases |servers|
  {
    if servers != [] {
      var next := AuthStep(st, servers[0], exchange);
      assert AuthRun(servers, st, exchange) == AuthRun(servers[1..], next, exchange);
      AuthRunStillRunning(servers[1..], next, exchange);
      AuthRunningGranted(servers[1..], next, exchange);
      AuthHeadLoggedIn(servers, st, exchange);
      assert servers == [servers[0]] + servers[1..];
    }
  }

  /**
   * Where a run that did not go to its end stopped: at server `k`, reached with the loop still
   * going and every earlier server logged in. A token there means `return` with the tokens so
   * far; otherwise the run threw with the tokens so far, the credentials message when the
   * server has no authentication map either.
   */
  ghost predicate AuthStopsAt(servers: seq<Server>, st: AuthState, exchange: StoredGithubLogin, k: int)
  {
    0 <= k < |servers| &&
    var reached := AuthRun(servers[..k], st, exchange);
    var final := AuthRun(servers, st, exchange);
    reached.Running? &&
    (forall s :: s in servers[..k] ==> LoggedIn(s, reached.tokens, exchange)) &&
    if !IsNullOrEmpty(TokenIn(reached.tokens, servers[k])) then final == Returned(reached.tokens)
    else final.Threw? && final.tokens == reached.tokens &&
         (servers[k].authentication.None? ==> final.error == VaultException(NoCredentialsMessage))
  }

  /** A run that returned or threw stopped at some server, as `AuthStopsAt` describes. */
  lemma {:induction false} AuthRunStops(servers: seq<Server>, st: AuthState, exchange: StoredGithubLogin)
    requires st.Running?
    ensures !AuthRun(servers, st, exchange).Running? ==> exists k :: AuthStopsAt(servers, st, exchange, k)
    decreases |servers|
  {
    if servers != [] {
      var next := AuthStep(st, servers[0], exchange);
      var final := AuthRun(servers, st, exchange);
      assert final == AuthRun(servers[1..], next, exchange);
      assert AuthRun(servers[..0], st, exchange) == st;
      if !next.Running? {
        AuthRunStopped(servers[1..], next, exchange);
        assert AuthStopsAt(servers, st, exchange, 0);
      } else {
        AuthRunStops(servers[1..], next, exchange);
        if !final.Running? {
          var k :| AuthStopsAt(servers[1..], next, exchange, k);
          var reached := AuthRun(servers[1..][..k], next, exchange);
          assert servers[..k + 1][0] == servers[0] && servers[..k + 1][1..] == servers[1..][..k];
          assert AuthRun(servers[..k + 1], st, exchange) == reached;
          AuthHeadLoggedIn(servers[..k + 1], st, exchange);
          assert servers[..k + 1] == [servers[0]] + servers[1..][..k];
          assert AuthStopsAt(servers, st, exchange, k + 1);
        }
      }
    }
  }

  /**
   * The `throw`: once the servers before `server` have been logged in, a server with neither a
   * token nor an authentication map ends the whole loop with the credentials message.
   */
  lemma {:induction false} AuthThrowsWithoutCredentials(before: seq<Server>, server: Server, after: seq<Server>,
                                                        tokens: map<Server, Option<string>>, exchange: StoredGithubLogin)
    requires AuthRun(before, Running(tokens), exchange).Running?
    requires IsNullOrEmpty(TokenIn(AuthRun(before, Running(tokens), exchange).tokens, server))
    requires server.authentication.None?
    ensures AuthRun(before + [server] + after, Running(tokens), exchange) ==
            Threw(VaultException(NoCredentialsMessage), AuthRun(before, Running(tokens), exchange).tokens)
  {
    var reached := AuthRun(before, Running(tokens), exchange);
    AuthRunConcat(before + [server], after, Running(tokens), exchange);
    AuthRunConcat(before, [server], Running(tokens), exchange);
    assert AuthRun([server], reached, exchange) == Threw(VaultException(NoCredentialsMessage), reached.tokens);
    AuthRunStopped(after, Threw(VaultException(NoCredentialsMessage), reached.tokens), exchange);
  }
}

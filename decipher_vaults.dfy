/**
 * The older revision's `Vaults`: static `pull` and `push` over the same three nested loops as
 * the newer client, proved equal to the engine in `Sync`. `pull` has no output method: it only
 * sets the project's properties. `vault` builds connections differently from the newer
 * `vaultConfig`: no namespace, and an SSL configuration only when verification is on.
 */
module DecipherVaults {
  import opened Wrappers
  import opened JavaLang
  import opened VaultApi
  import opened PathConfig
  import opened Output
  import opened Sync
  import opened DecipherServer
  import WizardVaults

  const OpenTimeout: int := 5
  const ReadTimeout: int := 30

  /**
   * The configuration `vault` builds: fixed timeouts, the token and KV version as given, no
   * namespace, and an SSL configuration carrying the certificate exactly when `sslVerify` holds.
   */
  function VaultConfigOf(server: string, token: Option<string>, kvVersion: int32, sslVerify: bool,
                         sslCertificate: Option<string>): (c: VaultConfig)
    ensures c.address == server && c.token == token && c.engineVersion == Some(kvVersion)
    ensures c.openTimeout == 5 && c.readTimeout == 30 && c.nameSpace.None?
    ensures c.sslConfig.Some? <==> sslVerify
    ensures c.sslConfig.Some? ==> c.sslConfig.value.pemFile == sslCertificate && c.sslConfig.value.verify.None?
  {
    var sslConfig := if sslVerify then Some(SslConfig(None, sslCertificate)) else None;
    VaultConfig(server, OpenTimeout, ReadTimeout, sslConfig, token, Some(kvVersion), None)
  }

  /** Two sets of settings give the same connection exactly when they agree, the certificate counting only under verification. */
  lemma {:induction false} VaultConfigOfInjective(
      server: string, token: Option<string>, kvVersion: int32, sslVerify: bool, sslCertificate: Option<string>,
      server': string, token': Option<string>, kvVersion': int32, sslVerify': bool, sslCertificate': Option<string>)
    ensures VaultConfigOf(server, token, kvVersion, sslVerify, sslCertificate) ==
            VaultConfigOf(server', token', kvVersion', sslVerify', sslCertificate')
            <==>
            server == server' && token == token' && kvVersion == kvVersion' && sslVerify == sslVerify' &&
            (sslVerify ==> sslCertificate == sslCertificate')
  {
    var c := VaultConfigOf(server, token, kvVersion, sslVerify, sslCertificate);
    var c' := VaultConfigOf(server', token', kvVersion', sslVerify', sslCertificate');
    if c == c' {
      assert c.engineVersion == Some(kvVersion) && c'.engineVersion == Some(kvVersion');
      assert c.sslConfig.Some? == sslVerify && c'.sslConfig.Some? == sslVerify';
    }
  }

  /** `vault`: opens a connection with the configuration above. */
  method OpenVault(backend: Backend, server: string, token: Option<string>, kvVersion: int32, sslVerify: bool,
                   sslCertificate: Option<string>) returns (vault: Vault)
    modifies backend`connections
    ensures vault == Vault(VaultConfigOf(server, token, kvVersion, sslVerify, sslCertificate))
    ensures backend.connections == old(backend.connections) + [vault.config]
  {
    vault := backend.Connect(VaultConfigOf(server, token, kvVersion, sslVerify, sslCertificate));
  }

  function ConfigOf(server: Server): VaultConfig
    reads server
  {
    VaultConfigOf(server.url, server.token, server.kvVersion, server.sslVerify, server.sslCertificate)
  }

  function TargetOf(server: Server): Target
    reads server
  {
    Target(server.skipExecution, ConfigOf(server), server.paths)
  }

  function Targets(servers: seq<Server>): (ts: seq<Target>)
    reads set s | s in servers
    ensures |ts| == |servers|
    ensures forall i :: 0 <= i < |servers| ==> ts[i] == TargetOf(servers[i])
  {
    seq(|servers|, i requires 0 <= i < |servers| reads servers => TargetOf(servers[i]))
  }

  /** The only sink the older pull delivers to is the project's properties. */
  function OnlyProperties(entries: map<string, string>): Sinks
  {
    Sinks(entries, map[], map[])
  }

  /**
   * `pull`: for every server not skipped, connect; for each of its paths read the stored map;
   * for each mapping, throw if the key is missing, else set the project property.
   */
  method Pull(backend: Backend, servers: seq<Server>, properties: Properties) returns (o: Outcome)
    modifies backend`connections, properties
    ensures (o, PullState(OnlyProperties(properties.entries), backend.connections)) ==
            PullTargets(None, backend.store, Targets(servers),
                        PullState(OnlyProperties(old(properties.entries)), old(backend.connections)))
  {
    ghost var ts := Targets(servers);
    ghost var whole := PullTargets(None, backend.store, ts, PullState(OnlyProperties(properties.entries), backend.connections));
    var i := 0;
    while i < |servers|
      invariant 0 <= i <= |servers|
      invariant whole == PullTargets(None, backend.store, ts[i..], PullState(OnlyProperties(properties.entries), backend.connections))
    {
      assert ts[i..][0] == ts[i] && ts[i..][1..] == ts[i + 1..];
      var server := servers[i];
      if server.skipExecution {
        i := i + 1;
        continue;
      }
      var vault := OpenVault(backend, server.url, server.token, server.kvVersion, server.sslVerify, server.sslCertificate);
      assert ts[i] == Target(false, vault.config, server.paths);
      o := PullServer(backend, vault, server.paths, properties);
      if o.Fail? {
        return;
      }
      i := i + 1;
    }
    o := Ok;
  }

  /** The paths of one server in `pull`. */
  method PullServer(backend: Backend, vault: Vault, paths: seq<Path>, properties: Properties) returns (o: Outcome)
    modifies properties
    ensures (o, OnlyProperties(properties.entries)) ==
            PullPaths(None, backend.store, vault.config.address, paths, OnlyProperties(old(properties.entries)))
  {
    ghost var whole := PullPaths(None, backend.store, vault.config.address, paths, OnlyProperties(properties.entries));
    var j := 0;
    while j < |paths|
      invariant 0 <= j <= |paths|
      invariant whole == PullPaths(None, backend.store, vault.config.address, paths[j..], OnlyProperties(properties.entries))
    {
      assert paths[j..][0] == paths[j] && paths[j..][1..] == paths[j + 1..];
      var path := paths[j];
      var secrets := backend.Get(vault, path.name);
      if secrets.Failure? {
        return Fail(secrets.error);
      }
      o := PullPath(path, secrets.value, properties);
      if o.Fail? {
        return;
      }
      j := j + 1;
    }
    o := Ok;
  }

  /** The mappings of one path in `pull`. */
  method PullPath(path: Path, secrets: Secrets, properties: Properties) returns (o: Outcome)
    modifies properties
    ensures (o, OnlyProperties(properties.entries)) ==
            PullMappings(None, path.name, secrets, path.mappings, OnlyProperties(old(properties.entries)))
  {
    var ms := path.mappings;
    ghost var whole := PullMappings(None, path.name, secrets, ms, OnlyProperties(properties.entries));
    var k := 0;
    while k < |ms|
      invariant 0 <= k <= |ms|
      invariant whole == PullMappings(None, path.name, secrets, ms[k..], OnlyProperties(properties.entries))
    {
      assert ms[k..][0] == ms[k] && ms[k..][1..] == ms[k + 1..];
      var mapping := ms[k];
      if mapping.key !in secrets {
        return Fail(NoSuchElementException(MissingKeyMessage(path.name, mapping.key)));
      }
      o := properties.SetProperty(mapping.property, Some(secrets[mapping.key]));
      k := k + 1;
    }
    o := Ok;
  }

  /**
   * `push`: for every server not skipped, connect; then each path is merged and written exactly
   * as in the newer client, whose per-server loop is the same code.
   */
  method Push(backend: Backend, servers: seq<Server>, properties: Properties) returns (o: Outcome)
    modifies backend
    ensures (o, WizardVaults.PushStateOf(backend)) ==
            PushTargets(properties.entries, Targets(servers), old(WizardVaults.PushStateOf(backend)))
  {
    ghost var ts := Targets(servers);
    ghost var whole := PushTargets(properties.entries, ts, WizardVaults.PushStateOf(backend));
    var i := 0;
    while i < |servers|
      invariant 0 <= i <= |servers|
      invariant whole == PushTargets(properties.entries, ts[i..], WizardVaults.PushStateOf(backend))
    {
      assert ts[i..][0] == ts[i] && ts[i..][1..] == ts[i + 1..];
      var server := servers[i];
      if server.skipExecution {
        i := i + 1;
        continue;
      }
      var vault := OpenVault(backend, server.url, server.token, server.kvVersion, server.sslVerify, server.sslCertificate);
      assert ts[i] == Target(false, vault.config, server.paths);
      o := WizardVaults.PushServer(backend, vault, server.paths, properties);
      if o.Fail? {
        return;
      }
      i := i + 1;
    }
    o := Ok;
  }
}

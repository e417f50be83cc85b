/**
 * The newer revision's `VaultBackendProvider`: the rule that turns a server's settings into a
 * connection configuration, and the `vault` call that opens a connection with it.
 */
module WizardBackend {
  import opened Wrappers
  import opened JavaLang
  import opened VaultApi

  const OpenTimeout: int := 5
  const ReadTimeout: int := 30

  /**
   * `vaultConfig`: fixed timeouts; an SSL configuration that always carries the verify flag and
   * a PEM file exactly when a certificate is given; the namespace only when neither null nor empty.
   */
  function VaultConfigFor(server: string, token: Option<string>, namespace: Option<string>, sslVerify: bool,
                          sslCertificate: Option<string>, engineVersion: Option<int32>): (c: VaultConfig)
    ensures c.address == server && c.token == token && c.engineVersion == engineVersion
    ensures c.openTimeout == 5 && c.readTimeout == 30
    ensures c.sslConfig.Some? && c.sslConfig.value.verify == Some(sslVerify)
    ensures c.sslConfig.value.pemFile.Some? <==> sslCertificate.Some?
    ensures c.sslConfig.value.pemFile == sslCertificate
    ensures c.nameSpace.Some? <==> !IsNullOrEmpty(namespace)
    ensures c.nameSpace.Some? ==> c.nameSpace == namespace
  {
    var sslConfig := SslConfig(Some(sslVerify), None);
    var sslConfig := if sslCertificate.Some? then sslConfig.(pemFile := sslCertificate) else sslConfig;
    var vaultConfig := VaultConfig(server, OpenTimeout, ReadTimeout, Some(sslConfig), token, engineVersion, None);
    if !IsNullOrEmpty(namespace) then vaultConfig.(nameSpace := namespace) else vaultConfig
  }

  /**
   * Two sets of settings give the same configuration exactly when they agree on everything,
   * except that a null namespace and an empty one are not told apart.
   */
  lemma {:induction false} VaultConfigForInjective(
      server: string, token: Option<string>, namespace: Option<string>, sslVerify: bool, sslCertificate: Option<string>, engineVersion: Option<int32>,
      server': string, token': Option<string>, namespace': Option<string>, sslVerify': bool, sslCertificate': Option<string>, engineVersion': Option<int32>)
    ensures VaultConfigFor(server, token, namespace, sslVerify, sslCertificate, engineVersion) ==
            VaultConfigFor(server', token', namespace', sslVerify', sslCertificate', engineVersion')
            <==>
            server == server' && token == token' && sslVerify == sslVerify' && sslCertificate == sslCertificate' &&
            engineVersion == engineVersion' &&
            (if IsNullOrEmpty(namespace) then IsNullOrEmpty(namespace') else namespace == namespace')
  {
    var c := VaultConfigFor(server, token, namespace, sslVerify, sslCertificate, engineVersion);
    var c' := VaultConfigFor(server', token', namespace', sslVerify', sslCertificate', engineVersion');
    if c == c' {
      assert c.sslConfig.value.verify == Some(sslVerify) && c'.sslConfig.value.verify == Some(sslVerify');
    }
  }

  /** `vault`: opens a connection configured by `vaultConfig` called with the same arguments. */
  method OpenVault(backend: Backend, server: string, token: Option<string>, namespace: Option<string>, sslVerify: bool,
                   sslCertificate: Option<string>, engineVersion: Option<int32>) returns (vault: Vault)
    modifies backend`connections
    ensures vault == Vault(VaultConfigFor(server, token, namespace, sslVerify, sslCertificate, engineVersion))
    ensures backend.connections == old(backend.connections) + [vault.config]
  {
    vault := backend.Connect(VaultConfigFor(server, token, namespace, sslVerify, sslCertificate, engineVersion));
  }
}

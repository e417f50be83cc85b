/**
 * The Vault client library as the plugin sees it: the connection configuration its
 * builders assemble, the two login exchanges, and the Vault servers themselves as an
 * abstract store of flat key/value maps, one per (server address, path).
 */
module VaultApi {
  import opened Wrappers
  import opened JavaLang

  /** `SslConfig` as left by its setters; `None` for a setter that was not called. */
  datatype SslConfig = SslConfig(verify: Option<bool>, pemFile: Option<string>)

  /** `VaultConfig` as left by its setters; `None` for a setter that was not called or got null. */
  datatype VaultConfig = VaultConfig(
    address: string,
    openTimeout: int,
    readTimeout: int,
    sslConfig: Option<SslConfig>,
    token: Option<string>,
    engineVersion: Option<int32>,
    nameSpace: Option<string>)

  /** `Auth`: the login API bound to one connection configuration. */
  datatype Auth = Auth(config: VaultConfig)

  /** What a login exchange answers: a client token, or a rejection (thrown as `VaultException`). */
  datatype LoginResponse = Granted(clientToken: string) | Rejected(message: string)

  /** A login exchange's answer as the caller sees it: the client token, or a thrown `VaultException`. */
  function ClientToken(response: LoginResponse): (r: Result<string, Exception>)
    ensures r.Success? <==> response.Granted?
    ensures r.Success? ==> r.value == response.clientToken
    ensures r.Failure? ==> r.error == VaultException(response.message)
  {
    match response
    case Granted(t) => Success(t)
    case Rejected(m) => Failure(VaultException(m))
  }

  /** `Auth.loginByGithub(pat)`: the remote exchange of a GitHub token, an oracle. */
  type GithubLogin = (Auth, Option<string>) -> LoginResponse

  /** `Auth.loginByAppRole(roleId, secretId)`: the remote AppRole exchange, an oracle. */
  type AppRoleLogin = (Auth, Option<string>, Option<string>) -> LoginResponse

  /** A path on the Vault server at `address`. */
  datatype Location = Location(address: string, path: string)

  type Secrets = map<string, string>

  /** Every secret of every reachable Vault server. */
  type Store = map<Location, Secrets>

  /** A connection handle (`Vault`) built from a configuration. */
  datatype Vault = Vault(config: VaultConfig)
  {
    function At(path: string): Location
    {
      Location(config.address, path)
    }
  }

  /**
   * The message of the `VaultException` thrown on reading a path that holds no secret. The client
   * library's actual wording is not part of this model; this text is a placeholder.
   */
  const NotFoundMessage := "Vault responded with HTTP status code: 404"

  /** `logical().read(location).getData()`. */
  function Read(store: Store, location: Location): Result<Secrets, Exception>
  {
    if location in store then Success(store[location]) else Failure(VaultException(NotFoundMessage))
  }

  /**
   * The Vault servers reached by the plugin. Besides their contents, the model keeps a log of
   * the connections opened and of the paths written, which is what the plugin's tests observe.
   */
  class Backend {
    var store: Store
    var connections: seq<VaultConfig>
    var writes: seq<Location>

    constructor (store: Store)
      ensures this.store == store && connections == [] && writes == []
    {
      this.store := store;
      connections := [];
      writes := [];
    }

    /** `Vault.create(config)`: opens (and logs) a connection. */
    method Connect(config: VaultConfig) returns (vault: Vault)
      modifies this`connections
      ensures vault == Vault(config)
      ensures connections == old(connections) + [config]
    {
      vault := Vault(config);
      connections := connections + [config];
    }

    /** `exists`: whether `list(path)` answers with data, that is, whether a secret is stored at the path. */
    method Exists(vault: Vault, path: string) returns (b: bool)
      ensures b <==> vault.At(path) in store
    {
      b := vault.At(path) in store;
    }

    /** `get`: the key/value map stored at the path; reading a path that holds nothing throws. */
    method Get(vault: Vault, path: string) returns (r: Result<Secrets, Exception>)
      ensures r.Success? <==> vault.At(path) in store
      ensures r.Success? ==> r.value == store[vault.At(path)]
      ensures r.Failure? ==> r.error == VaultException(NotFoundMessage)
    {
      r := Read(store, vault.At(path));
    }

    /** `set`: replaces the whole map stored at the path. */
    method Set(vault: Vault, path: string, secrets: Secrets)
      modifies this`store, this`writes
      ensures store == old(store)[vault.At(path) := secrets]
      ensures writes == old(writes) + [vault.At(path)]
    {
      store := store[vault.At(path) := secrets];
      writes := writes + [vault.At(path)];
    }
  }
}

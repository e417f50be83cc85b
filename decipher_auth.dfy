/**
 * The older revision's login. Two selectors coexist: the static `Authentication.authenticationMethod`
 * and `AuthenticationMethodFactory.fromServer`. Both read the first name of the server's
 * authentication map and accept `githubToken` only; they differ in the message for an
 * unsupported name. The `GithubToken` strategy exchanges the stored GitHub token for a client token.
 */
module DecipherAuth {
  import opened Wrappers
  import opened JavaLang
  import opened VaultApi
  import opened DecipherServer

  const GithubTokenTag: string := "githubToken"

  /** `methods`: the names both selectors accept. */
  const Methods: seq<string> := [GithubTokenTag]

  const NoAuthenticationInfoMessage: string := "cannot login to vault server without authentication info"

  function UnsupportedMethodMessage(): string
  {
    "available authentication methods are: " + ListToString(Methods)
  }

  /** The first name of the authentication map; a null map throws, an empty one is refused. */
  function FirstMethod(server: Server): (r: Result<string, Exception>)
    ensures server.authentication.None? ==> r == Failure(NullPointerException)
    ensures server.authentication == Some([]) ==> r == Failure(VaultException(NoAuthenticationInfoMessage))
    ensures r.Success? <==> server.authentication.Some? && server.authentication.value != []
    ensures r.Success? ==> r.value == server.authentication.value[0].key
  {
    match server.authentication
    case None => Failure(NullPointerException)
    case Some(entries) =>
      if entries == [] then Failure(VaultException(NoAuthenticationInfoMessage)) else Success(entries[0].key)
  }

  /** `authenticationMethod` and `mapNameToMethod`: an unsupported name gets the same message as an empty map. */
  function AuthenticationChoice(server: Server): (r: Result<string, Exception>)
    ensures r.Success? <==> FirstMethod(server) == Success(GithubTokenTag)
    ensures r.Success? ==> r.value == GithubTokenTag
    ensures FirstMethod(server).Failure? ==> r == FirstMethod(server)
    ensures FirstMethod(server).Success? && r.Failure? ==> r.error == VaultException(NoAuthenticationInfoMessage)
  {
    match FirstMethod(server)
    case Failure(e) => Failure(e)
    case Success(name) =>
      if name == GithubTokenTag then Success(name) else Failure(VaultException(NoAuthenticationInfoMessage))
  }

  /** `fromServer` and `fromMethodName`: an unsupported name is reported with the list of accepted ones. */
  function FactoryChoice(server: Server): (r: Result<string, Exception>)
    ensures r.Success? <==> FirstMethod(server) == Success(GithubTokenTag)
    ensures r.Success? ==> r.value == GithubTokenTag
    ensures FirstMethod(server).Failure? ==> r == FirstMethod(server)
    ensures FirstMethod(server).Success? && r.Failure? ==> r.error == VaultException(UnsupportedMethodMessage())
  {
    match FirstMethod(server)
    case Failure(e) => Failure(e)
    case Success(name) =>
      if name == GithubTokenTag then Success(name) else Failure(VaultException(UnsupportedMethodMessage()))
  }

  /**
   * The two selectors accept the same servers and fail alike, except when the map's first name is
   * not a supported one: there the static one reports missing authentication information instead.
   */
  lemma {:induction false} ChoicesAgree(server: Server)
    ensures AuthenticationChoice(server).Success? <==> FactoryChoice(server).Success?
    ensures AuthenticationChoice(server) == FactoryChoice(server) <==>
            !(server.authentication.Some? && server.authentication.value != [] &&
              server.authentication.value[0].key !in Methods)
  {
    if server.authentication.Some? && server.authentication.value != [] && server.authentication.value[0].key !in Methods {
      assert AuthenticationChoice(server).error != FactoryChoice(server).error by {
        assert |NoAuthenticationInfoMessage| == 56;
        assert ListToString(Methods) == "[" + GithubTokenTag + "]";
        assert |UnsupportedMethodMessage()| == 51;
      }
    }
  }

  /**
   * `GithubToken`: the server, and the connection configuration captured when the strategy was made.
   * In the older revision the configuration comes from a `Vaults.vaultConfig` builder that the
   * older `Vaults` does not define, so it is taken as given.
   */
  class GithubToken {
    const server: Server
    const vaultConfig: VaultConfig

    constructor (server: Server, vaultConfig: VaultConfig)
      ensures this.server == server && this.vaultConfig == vaultConfig
    {
      this.server := server;
      this.vaultConfig := vaultConfig;
    }

    /**
     * `login`: the value stored under `githubToken` (null if absent) is exchanged as it is; on a
     * granted exchange the server's token becomes the client token, otherwise it keeps its value.
     */
    method Login(exchange: GithubLogin) returns (o: Outcome)
      modifies server
      ensures var token := if server.authentication.None? then Failure(NullPointerException)
                           else ClientToken(exchange(Auth(vaultConfig), EntryGet(server.authentication.value, GithubTokenTag)));
              (o == Ok <==> token.Success?) &&
              (token.Failure? ==> o == Fail(token.error) && server.token == old(server.token)) &&
              (token.Success? ==> server.token == Some(token.value))
    {
      if server.authentication.None? {
        return Fail(NullPointerException);
      }
      var token := ClientToken(exchange(Auth(vaultConfig), EntryGet(server.authentication.value, GithubTokenTag)));
      if token.Failure? {
        return Fail(token.error);
      }
      server.SetToken(Some(token.value));
      o := Ok;
    }
  }

  /** `authenticationMethod`: the `GithubToken` strategy for the server, with the configuration its constructor builds. */
  method AuthenticationMethod(server: Server, vaultConfig: VaultConfig) returns (r: Result<GithubToken, Exception>)
    ensures r.Success? <==> AuthenticationChoice(server).Success?
    ensures r.Failure? ==> r.error == AuthenticationChoice(server).error
    ensures r.Success? ==> fresh(r.value) && r.value.server == server && r.value.vaultConfig == vaultConfig
  {
    match AuthenticationChoice(server)
    case Failure(e) =>
      r := Failure(e);
    case Success(_) =>
      var strategy := new GithubToken(server, vaultConfig);
      r := Success(strategy);
  }

  /** `fromServer`: the `GithubToken` strategy bound to the login API of the given configuration. */
  method FromServer(server: Server, vaultConfig: VaultConfig) returns (r: Result<GithubToken, Exception>)
    ensures r.Success? <==> FactoryChoice(server).Success?
    ensures r.Failure? ==> r.error == FactoryChoice(server).error
    ensures r.Success? ==> fresh(r.value) && r.value.server == server && r.value.vaultConfig == vaultConfig
  {
    match FactoryChoice(server)
    case Failure(e) =>
      r := Failure(e);
    case Success(_) =>
      var strategy := new GithubToken(server, vaultConfig);
      r := Success(strategy);
  }
}

/**
 * The newer revision's login: `AuthenticationMethodFactory` picks a login strategy from the
 * first name of a server's authentication map, and the strategies (`GithubToken`,
 * `GithubTokenAuthMethod`, `AppRoleAuthMethod`) exchange the stored credentials for a client
 * token, which is the only thing they change on the server.
 */
module WizardAuth {
  import opened Wrappers
  import opened JavaLang
  import opened VaultApi
  import opened WizardServer
  import opened WizardBackend

  const GithubTokenTag: string := "githubToken"

  /** The name `AppRoleAuthMethod` reads its credentials under. */
  const AppRoleTag: string := "appRole"

  /** `methods`: the names `fromServer` accepts. */
  const Methods: seq<string> := [GithubTokenTag]

  const NoAuthenticationInfoMessage: string := "cannot login to vault server without authentication info"

  function UnsupportedMethodMessage(): string
  {
    "available authentication methods are: " + ListToString(Methods)
  }

  /**
   * `loginByGithub` as `GithubToken` calls it: with the credentials stored under `githubToken`,
   * passed along unconverted.
   */
  type StoredGithubLogin = (Auth, Option<Credentials>) -> LoginResponse

  /**
   * `fromServer`: reads the first name of the authentication map (a null map throws a
   * `NullPointerException`, an empty one a `VaultException`), builds the login API from the
   * server's connection settings, and accepts `githubToken` only.
   */
  function Selection(server: Server, token: Option<string>): (r: Result<Auth, Exception>)
    ensures server.authentication.None? ==> r == Failure(NullPointerException)
    ensures server.authentication == Some([]) ==> r == Failure(VaultException(NoAuthenticationInfoMessage))
    ensures r.Success? <==>
            server.authentication.Some? && server.authentication.value != [] &&
            server.authentication.value[0].key in Methods
    ensures r.Success? ==>
            r.value == Auth(VaultConfigFor(server.url, token, server.namespace, server.sslVerify,
                                           server.sslCertificate, server.engineVersion))
    ensures r.Failure? && server.authentication.Some? && server.authentication.value != [] ==>
            r.error == VaultException(UnsupportedMethodMessage())
  {
    match server.authentication
    case None => Failure(NullPointerException)
    case Some(entries) =>
      if entries == [] then Failure(VaultException(NoAuthenticationInfoMessage))
      else
        var auth := Auth(VaultConfigFor(server.url, token, server.namespace, server.sslVerify,
                                        server.sslCertificate, server.engineVersion));
        if entries[0].key == GithubTokenTag then Success(auth)
        else Failure(VaultException(UnsupportedMethodMessage()))
  }

  /** Only the first name of the map matters: the names and credentials after it are never looked at. */
  lemma {:induction false} SelectionFirstNameDecides(server: Server, other: Server, token: Option<string>)
    requires server.authentication.Some? && other.authentication.Some?
    requires server.authentication.value != [] && other.authentication.value != []
    requires server.authentication.value[0].key == other.authentication.value[0].key
    requires server.url == other.url && server.namespace == other.namespace && server.sslVerify == other.sslVerify
    requires server.sslCertificate == other.sslCertificate && server.engineVersion == other.engineVersion
    ensures Selection(server, token) == Selection(other, token)
  {
    var name := server.authentication.value[0].key;
    if name == GithubTokenTag {
      assert Selection(server, token).Success? && Selection(other, token).Success?;
    } else {
      assert name !in Methods;
      assert Selection(server, token).Failure? && Selection(other, token).Failure?;
    }
  }

  /** `fromServer` as called: builds the `GithubToken` strategy it selects, bound to the same server, which it leaves as it is. */
  method FromServer(server: Server) returns (r: Result<GithubToken, Exception>)
    ensures r.Success? <==> Selection(server, server.token).Success?
    ensures r.Failure? ==> r.error == Selection(server, server.token).error
    ensures r.Success? ==> fresh(r.value) && r.value.server == server &&
                           r.value.auth == Selection(server, server.token).value
  {
    match Selection(server, server.token)
    case Failure(e) =>
      r := Failure(e);
    case Success(auth) =>
      var strategy := new GithubToken(auth, server);
      r := Success(strategy);
  }

  /** The credentials `login` hands to the GitHub exchange: the value stored under `githubToken`, or a thrown `NullPointerException`. */
  function StoredGithubCredentials(server: Server): (r: Result<Option<Credentials>, Exception>)
    ensures r.Failure? <==> server.authentication.None?
    ensures r.Failure? ==> r.error == NullPointerException
    ensures r.Success? ==> r.value == MapGet(EntryMap(server.authentication.value), GithubTokenTag)
  {
    match server.authentication
    case None => Failure(NullPointerException)
    case Some(entries) => Success(EntryGet(entries, GithubTokenTag))
  }

  /** `GithubToken`: logs in with the stored GitHub credentials as they are. */
  class GithubToken {
    const auth: Auth
    const server: Server

    constructor (auth: Auth, server: Server)
      ensures this.auth == auth && this.server == server
    {
      this.auth := auth;
      this.server := server;
    }

    /** `login`: on a granted exchange the server's token becomes the client token; otherwise it keeps its value. */
    method Login(exchange: StoredGithubLogin) returns (o: Outcome)
      modifies server
      ensures var r := StoredGithubCredentials(server);
              var token := if r.Success? then ClientToken(exchange(auth, r.value)) else Failure(r.error);
              (o == Ok <==> token.Success?) &&
              (token.Failure? ==> o == Fail(token.error) && server.token == old(server.token)) &&
              (token.Success? ==> server.token == Some(token.value))
    {
      var r := StoredGithubCredentials(server);
      if r.Failure? {
        return Fail(r.error);
      }
      var token := ClientToken(exchange(auth, r.value));
      if token.Failure? {
        return Fail(token.error);
      }
      server.SetToken(Some(token.value));
      o := Ok;
    }
  }

  /**
   * The conversion of a stored credentials map into a credentials object with the given fields:
   * a null map converts to null (so the next getter throws a `NullPointerException`), and a map
   * with a field the object lacks is refused with an `IllegalArgumentException`.
   */
  function Convert(fields: set<string>, stored: Option<Credentials>): (r: Result<Credentials, Exception>)
    ensures r.Success? <==> stored.Some? && stored.value.Keys <= fields
    ensures r.Success? ==> r.value == stored.value
    ensures stored.None? ==> r == Failure(NullPointerException)
    ensures stored.Some? && !(stored.value.Keys <= fields) ==> r == Failure(IllegalArgumentException)
  {
    match stored
    case None => Failure(NullPointerException)
    case Some(m) => if m.Keys <= fields then Success(m) else Failure(IllegalArgumentException)
  }

  /** The stored credentials of a login method, converted; a null authentication map throws. */
  function CredentialsOf(server: Server, tag: string, fields: set<string>): (r: Result<Credentials, Exception>)
    ensures server.authentication.None? ==> r == Failure(NullPointerException)
    ensures server.authentication.Some? ==> r == Convert(fields, MapGet(EntryMap(server.authentication.value), tag))
  {
    match server.authentication
    case None => Failure(NullPointerException)
    case Some(entries) => Convert(fields, EntryGet(entries, tag))
  }

  /** `GithubTokenAuthMethod`: logs in with the `pat` field of the credentials stored under `githubToken`. */
  class GithubTokenAuthMethod {
    const auth: Auth
    const server: Server

    constructor (auth: Auth, server: Server)
      ensures this.auth == auth && this.server == server
    {
      this.auth := auth;
      this.server := server;
    }

    method Login(exchange: GithubLogin) returns (o: Outcome)
      modifies server
      ensures var c := CredentialsOf(server, GithubTokenTag, {"pat"});
              var token := if c.Success? then ClientToken(exchange(auth, MapGet(c.value, "pat"))) else Failure(c.error);
              (o == Ok <==> token.Success?) &&
              (token.Failure? ==> o == Fail(token.error) && server.token == old(server.token)) &&
              (token.Success? ==> server.token == Some(token.value))
    {
      var c := CredentialsOf(server, GithubTokenTag, {"pat"});
      if c.Failure? {
        return Fail(c.error);
      }
      var pat := MapGet(c.value, "pat");
      var token := ClientToken(exchange(auth, pat));
      if token.Failure? {
        return Fail(token.error);
      }
      server.SetToken(Some(token.value));
      o := Ok;
    }
  }

  /** `AppRoleAuthMethod`: logs in with the `roleId` and `secretId` fields of the credentials stored under the AppRole name. */
  class AppRoleAuthMethod {
    const auth: Auth
    const server: Server

    constructor (auth: Auth, server: Server)
      ensures this.auth == auth && this.server == server
    {
      this.auth := auth;
      this.server := server;
    }

    method Login(exchange: AppRoleLogin) returns (o: Outcome)
      modifies server
      ensures var c := CredentialsOf(server, AppRoleTag, {"roleId", "secretId"});
              var token := if c.Success? then ClientToken(exchange(auth, MapGet(c.value, "roleId"), MapGet(c.value, "secretId")))
                           else Failure(c.error);
              (o == Ok <==> token.Success?) &&
              (token.Failure? ==> o == Fail(token.error) && server.token == old(server.token)) &&
              (token.Success? ==> server.token == Some(token.value))
    {
      var c := CredentialsOf(server, AppRoleTag, {"roleId", "secretId"});
      if c.Failure? {
        return Fail(c.error);
      }
      var token := ClientToken(exchange(auth, MapGet(c.value, "roleId"), MapGet(c.value, "secretId")));
      if token.Failure? {
        return Fail(token.error);
      }
      server.SetToken(Some(token.value));
      o := Ok;
    }
  }
}

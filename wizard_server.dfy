/**
 * The newer revision's `Server`: one configured Vault server. Its only mutator is `setToken`,
 * so every other field is a constant of the object. Equality compares all nine fields (the
 * authentication map as a map); the hash code covers seven of them.
 */
module WizardServer {
  import opened Wrappers
  import opened JavaLang
  import opened PathConfig

  /** The credentials of one login method: a `TreeMap` from field names to values. */
  type Credentials = map<string, string>

  /** One entry of the `authentication` map: a login method's name and its credentials. */
  type AuthEntry = Entry<Credentials>

  /** A server's configuration as a value, with the authentication entries seen as a map. */
  datatype ServerValue = ServerValue(
    sslCertificate: Option<string>,
    sslVerify: bool,
    url: string,
    token: Option<string>,
    authentication: Option<map<string, Credentials>>,
    namespace: Option<string>,
    paths: seq<Path>,
    skipExecution: bool,
    engineVersion: Option<int32>)

  /** The argument of `equals(Object)`: a server, or anything else (including null). */
  datatype ServerArgument = ServerObject(server: Server) | OtherObject

  class Server {
    const sslCertificate: Option<string>
    const sslVerify: bool
    const url: string
    var token: Option<string>
    const authentication: Option<seq<AuthEntry>>
    const namespace: Option<string>
    const paths: seq<Path>
    const skipExecution: bool
    const engineVersion: Option<int32>

    /** The nine-argument constructor, in its parameter order. */
    constructor (url: string, token: Option<string>, sslVerify: bool, sslCertificate: Option<string>,
                 authentication: Option<seq<AuthEntry>>, namespace: Option<string>, paths: seq<Path>,
                 skipExecution: bool, engineVersion: Option<int32>)
      ensures this.url == url && this.token == token && this.sslVerify == sslVerify
      ensures this.sslCertificate == sslCertificate && this.authentication == authentication
      ensures this.namespace == namespace && this.paths == paths
      ensures this.skipExecution == skipExecution && this.engineVersion == engineVersion
    {
      this.authentication := authentication;
      this.namespace := namespace;
      this.paths := paths;
      this.sslCertificate := sslCertificate;
      this.sslVerify := sslVerify;
      this.token := token;
      this.url := url;
      this.skipExecution := skipExecution;
      this.engineVersion := engineVersion;
    }

    function Value(): ServerValue
      reads this
    {
      ServerValue(sslCertificate, sslVerify, url, token,
                  match authentication case None => None case Some(entries) => Some(EntryMap(entries)),
                  namespace, paths, skipExecution, engineVersion)
    }

    /** `setToken`: replaces the token; every other field is constant. */
    method SetToken(token: Option<string>)
      modifies this
      ensures this.token == token
      ensures Value() == old(Value()).(token := token)
    {
      this.token := token;
    }

    /** `equals`: another server whose nine fields are all equal to this one's. */
    predicate Equals(that: ServerArgument)
      reads this, if that.ServerObject? then {that.server} else {}
      ensures Equals(that) <==> that.ServerObject? && that.server.Value() == Value()
    {
      match that
      case OtherObject => false
      case ServerObject(s) =>
        s.paths == paths && s.namespace == namespace &&
        (match authentication
         case None => s.authentication.None?
         case Some(mine) => s.authentication.Some? && EntryMap(s.authentication.value) == EntryMap(mine)) &&
        s.sslVerify == sslVerify && s.skipExecution == skipExecution &&
        s.sslCertificate == sslCertificate && s.token == token && s.url == url && s.engineVersion == engineVersion
    }

    /** `hashCode`: `Objects.hash` of the certificate, the flags, the token, the url, the paths and the engine version. */
    function HashCode(): int32
      reads this
    {
      CombineHashes([FileHash(sslCertificate), BooleanHash(sslVerify), NullableStringHash(token),
                     StringHash(url), PathListHash(paths), BooleanHash(skipExecution),
                     NullableIntegerHash(engineVersion)])
    }
  }

  /** Equal servers have equal hash codes: the hashed fields are among the compared ones. */
  lemma {:induction false} ServerHashConsistent(a: Server, b: Server)
    requires a.Equals(ServerObject(b))
    ensures a.HashCode() == b.HashCode()
  {
  }
}

/**
 * The older revision's `Server`. Its own source file is not part of this model: the fields
 * below are the ones `Vaults`, `Authentication`, `AuthenticationMethodFactory` and
 * `GithubToken` read through its getters, and `setToken` is its only mutator.
 */
module DecipherServer {
  import opened Wrappers
  import opened JavaLang
  import opened PathConfig

  class Server {
    const url: string
    var token: Option<string>
    const kvVersion: int32
    const sslVerify: bool
    const sslCertificate: Option<string>
    const skipExecution: bool
    const paths: seq<Path>
    /** A `Map<String, String>` from login method names to credentials, in iteration order. */
    const authentication: Option<seq<Entry<string>>>
    const namespace: Option<string>

    constructor (url: string, token: Option<string>, kvVersion: int32, sslVerify: bool, sslCertificate: Option<string>,
                 skipExecution: bool, paths: seq<Path>, authentication: Option<seq<Entry<string>>>, namespace: Option<string>)
      ensures this.url == url && this.token == token && this.kvVersion == kvVersion && this.sslVerify == sslVerify
      ensures this.sslCertificate == sslCertificate && this.skipExecution == skipExecution && this.paths == paths
      ensures this.authentication == authentication && this.namespace == namespace
    {
      this.url := url;
      this.token := token;
      this.kvVersion := kvVersion;
      this.sslVerify := sslVerify;
      this.sslCertificate := sslCertificate;
      this.skipExecution := skipExecution;
      this.paths := paths;
      this.authentication := authentication;
      this.namespace := namespace;
    }

    /** `setToken`. */
    method SetToken(token: Option<string>)
      modifies this`token
      ensures this.token == token
    {
      this.token := token;
    }
  }
}

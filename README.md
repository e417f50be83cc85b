# vault-maven-plugin, modelled in Dafny

vault-maven-plugin is a Maven plugin. It copies secrets between HashiCorp Vault servers and a
Maven build. Each configured server has a URL, an optional token, TLS settings, an optional
authentication block, an optional namespace and a list of paths. Each path maps keys stored in
Vault to project properties.

- **pull** reads every path of every server that is not skipped. It sets each mapped property to
  the value stored under its key. In the newer revision it also flushes the value to the chosen
  output: Maven properties, system properties or a `.env` file.
- **push** merges each mapped property into what a path already stores, then writes the path back.
- **authenticateIfNecessary** (newer revision only) logs in with the server's configured
  authentication method when a server has no token. It stops at the first server that already
  has a token, and throws at the first server that has neither a token nor an authentication method.

The repository exists in two revisions, and this model keeps them apart:

- the newer `com.homeofthewizard` classes: modules `Wizard*`;
- the older `com.deciphernow` classes: modules `Decipher*`.

They share these modules:

- `JavaLang`: the Java library behaviour the code relies on (32-bit hash arithmetic, `Map.get`,
  exceptions).
- `VaultApi`: the Vault client library, with a `Backend` class holding the key/value store, the
  log of connections opened and the log of paths written.
- `PathConfig`: the `Path` and `Mapping` configuration values.
- `Output`: `java.util.Properties`, the process environment and the `OutputMethod` enum.
- `Sync`: the three nested loops of pull and push, written as functions of the state the loops
  change.

The imperative `Vaults.pull` and `Vaults.push` of both revisions are `method`s. They are split
into one method per loop level: servers, paths and mappings. Each method is proved equal to the
`Sync` function of the same level.

What a whole run amounts to is proved against independent reference definitions in `Reference`:

- A flat list of visits (server, path).
- The assignments a pull performs, in order.
- The writes a push performs, in order.

The proofs are in three modules:

- `PullFacts`: pull succeeds exactly when every visited path is stored and holds every mapped key.
  Each property then holds the value of the last mapping to it. A failure reports the first path
  not stored or the first missing key, and keeps every assignment made before it.
- `PushFacts`: push succeeds exactly when every mapped property is defined. The store then equals
  the reference writes applied in order. A failure reports the first undefined property and keeps
  everything written before it. Locations and keys no mapping mentions are left alone.
- `RoundTrip`: a successful push followed by a pull over the same servers brings every mapped
  property back with the value it was pushed with. This is the push-then-pull integration test of
  the newer revision.

Authentication is modelled as a class method over `Server` objects whose `token` field it
updates. It is proved against `AuthRun`, a step function over the tokens of all servers. This
model proves the following about it:

- The loop stops at the first server that already has a token.
- A token changes only on a server that had none and whose login was granted.

## Model

| member | source | states |
|---|---|---|
| JavaLang.Wrap | src/main/java/com/homeofthewizard/maven/plugins/vault/config/Server.java:175-178 | the 32-bit result is congruent to the exact value modulo 2^32, and equals it when it fits in an `int` |
| JavaLang.EntryGet | src/main/java/com/homeofthewizard/maven/plugins/vault/config/Server.java:121-123 | an authentication entry is found iff some entry has the key, and the result is the first entry with that key |
| JavaLang.EntryMap | src/main/java/com/homeofthewizard/maven/plugins/vault/config/Server.java:121-123 | the map built from the configured entries answers `get` for every key as the first matching entry does |
| PathConfig.Mapping.Equals | src/main/java/com/deciphernow/maven/plugins/vault/config/Mapping.java:79-86 | `equals` holds exactly for a mapping object with the same key and property |
| PathConfig.Path.Equals | src/main/java/com/deciphernow/maven/plugins/vault/config/Path.java:80-87 | `equals` holds exactly for a path object with the same name and mapping list |
| PathConfig.MappingListEquals | src/main/java/com/deciphernow/maven/plugins/vault/config/Path.java:80-87 | element-wise list equality of mappings coincides with equality of the lists |
| VaultApi.ClientToken | src/main/java/com/homeofthewizard/maven/plugins/vault/GithubToken.java:29-36 | a granted login yields its client token; a rejected one throws a `VaultException` carrying the server's message |
| VaultApi.Backend.constructor | src/main/java/com/homeofthewizard/maven/plugins/vault/client/Vaults.java:46-94 | a backend starts from a given store with no connection opened and nothing written |
| VaultApi.Backend.Connect | src/main/java/com/homeofthewizard/maven/plugins/vault/client/VaultBackendProvider.java:34-41 | opening a vault yields a handle on exactly that configuration and appends it to the connection log |
| VaultApi.Backend.Exists | src/main/java/com/homeofthewizard/maven/plugins/vault/client/Vaults.java:133-135 | a path counts as existing iff the store holds its location on that server (see Left out) |
| VaultApi.Backend.Get | src/main/java/com/homeofthewizard/maven/plugins/vault/client/Vaults.java:145-147 | reading a stored path yields its secrets; reading a missing path throws a not-found `VaultException` |
| VaultApi.Backend.Set | src/main/java/com/homeofthewizard/maven/plugins/vault/client/Vaults.java:159-162 | writing replaces the secrets at that location only, and logs the write |
| Output.Properties.SetProperty | src/main/java/com/homeofthewizard/maven/plugins/vault/client/Vaults.java:60 | setting a value updates that one property; a null value throws `NullPointerException` and changes nothing |
| Output.Environment.SetSystemProperty | src/main/java/com/homeofthewizard/maven/plugins/vault/config/OutputMethod.java:51-53 | setting a value updates that one system property; a null value throws and changes nothing |
| Output.Environment.TruncateDotEnv | src/main/java/com/homeofthewizard/maven/plugins/vault/config/OutputMethod.java:36-44 | opening the `.env` file for writing leaves it empty |
| Output.Environment.StoreDotEnv | src/main/java/com/homeofthewizard/maven/plugins/vault/config/OutputMethod.java:36-44 | storing a property table makes the `.env` file hold exactly that table |
| Output.OutputMethod.Effect | src/main/java/com/homeofthewizard/maven/plugins/vault/config/OutputMethod.java:9-29 | a flush succeeds iff the key is stored, and then its sink holds the secret under the property. Every other sink is untouched; the Maven and system sinks change nowhere else. The `.env` file then holds that single entry, or nothing after a failure |
| Output.OutputMethod.Flush | src/main/java/com/homeofthewizard/maven/plugins/vault/config/OutputMethod.java:9-29 | the imperative flush changes the properties and environment exactly as `Effect` says |
| Output.SetEnvFile | src/main/java/com/homeofthewizard/maven/plugins/vault/config/OutputMethod.java:36-44 | the `.env` file is rewritten to hold only the flushed property; a missing key throws and leaves it empty; system properties untouched |
| Output.SetSystemProperties | src/main/java/com/homeofthewizard/maven/plugins/vault/config/OutputMethod.java:51-53 | the system property is set to the secret; a missing key throws and changes nothing; `.env` untouched |
| Output.SetMavenProperties | src/main/java/com/homeofthewizard/maven/plugins/vault/config/OutputMethod.java:61-63 | the project property is set to the secret; a missing key throws and changes nothing |
| Reference.AssignLastWins | src/main/java/com/homeofthewizard/maven/plugins/vault/client/Vaults.java:55-61 | after a sequence of property assignments, each property holds the value of the last assignment to it, or its old value if none |
| Reference.AssignmentsIn | src/main/java/com/homeofthewizard/maven/plugins/vault/client/Vaults.java:53-62 | the assignments of a pull are exactly (property, stored value of its key) for every mapping of every visited path |
| Reference.ApplyLookup | src/main/java/com/homeofthewizard/maven/plugins/vault/client/Vaults.java:82-91 | after applying the writes of a push, a key holds the property of the last put to it, or what it held before if none |
| Reference.ApplyDomain | src/main/java/com/homeofthewizard/maven/plugins/vault/client/Vaults.java:82-91 | after a push a location is stored iff it was stored before or some write touched it |
| Reference.WritesIn | src/main/java/com/homeofthewizard/maven/plugins/vault/client/Vaults.java:82-90 | a push puts a key from a property at a location iff some visited path there maps that key to that property |
| Reference.VisitTouched | src/main/java/com/homeofthewizard/maven/plugins/vault/client/Vaults.java:82-91 | every visited path is written, even one with no mappings |
| PullFacts.PullMappingsEffect | src/main/java/com/homeofthewizard/maven/plugins/vault/client/Vaults.java:55-62 | the mappings of one path succeed iff every key is stored, and then deliver their assignments in order. Otherwise the error names the first mapping whose key is missing, and the mappings before it stay delivered |
| PullFacts.PullPathsEffect | src/main/java/com/homeofthewizard/maven/plugins/vault/client/Vaults.java:53-63 | the paths of one server succeed iff each path is stored and holds its keys, and the sinks then receive the assignments in order. Otherwise the pull stopped at the first path not stored (not-found error) or the first missing key (its path and key named), with every assignment before it kept |
| PullFacts.PullTargetsEffect | src/main/java/com/homeofthewizard/maven/plugins/vault/client/Vaults.java:46-65 | pull succeeds iff every visited path is stored and holds every mapped key. The sinks then receive all assignments in server, path, mapping order, with one connection per server not skipped. A failure stops at the first path not stored or the first missing key, reports exactly that error and keeps every assignment before it; its connections are a prefix of those |
| PullFacts.PullAllSkipped | src/main/java/com/homeofthewizard/maven/plugins/vault/client/Vaults.java:47-50 | with every server skipped, pull succeeds, connects to nothing and changes nothing |
| PullFacts.PullLastMappingWins | src/main/java/com/homeofthewizard/maven/plugins/vault/client/Vaults.java:53-61 | after a successful pull each property holds the value of the last mapping to it, or its old value if none maps it |
| PushFacts.PushMappingsEffect | src/main/java/com/homeofthewizard/maven/plugins/vault/client/Vaults.java:84-90 | merging one path's mappings succeeds iff every mapped property is defined, and then equals applying its puts in order. Otherwise the error names the first mapping whose property is undefined |
| PushFacts.PushPathsEffect | src/main/java/com/homeofthewizard/maven/plugins/vault/client/Vaults.java:82-92 | the paths of one server succeed iff every property they map is defined, and then the state is the reference push of those paths. A failure stops at the first path with an undefined property, names that path's first undefined property and keeps every earlier path written. No connection is opened here |
| PushFacts.PushTargetsEffect | src/main/java/com/homeofthewizard/maven/plugins/vault/client/Vaults.java:75-94 | push succeeds iff every mapped property is defined. The store and write log then equal the reference writes applied in order, with one connection per server not skipped. A failure stops at the first path with an undefined property, names its first undefined property and keeps everything written before it |
| PushFacts.PushAllSkipped | src/main/java/com/homeofthewizard/maven/plugins/vault/client/Vaults.java:76-79 | with every server skipped, push succeeds and changes nothing |
| PushFacts.PushKeepsUnmentioned | src/main/java/com/homeofthewizard/maven/plugins/vault/client/Vaults.java:83-91 | a key at a location that no mapping names keeps its stored value (or stays absent), whether push succeeds or fails |
| RoundTrip.DistinctKeysConsistent | src/test/java/com/homeofthewizard/maven/plugins/vault/IntTestVaults.java:87-104 | distinct paths with distinct keys within each path satisfy the consistency condition the round trip needs |
| RoundTrip.PushStores | src/main/java/com/homeofthewizard/maven/plugins/vault/client/Vaults.java:75-94 | after a successful consistent push every mapped key holds the value of its property, and every visited path is stored |
| RoundTrip.PushThenPull | src/test/java/com/homeofthewizard/maven/plugins/vault/IntTestVaults.java:87-104 | a successful consistent push followed by a pull over the same servers succeeds. Every mapped property comes back with the pushed value. A property that was not pushed, or that no mapping names, keeps the value it had before the pull |
| RoundTrip.PushThenPullSame | src/test/java/com/homeofthewizard/maven/plugins/vault/IntTestVaults.java:87-104 | pulling such a push back into the very properties that were pushed leaves them equal to what was pushed |
| WizardServer.Server.constructor | src/main/java/com/homeofthewizard/maven/plugins/vault/config/Server.java:64-78 | every field holds its argument |
| WizardServer.Server.SetToken | src/main/java/com/homeofthewizard/maven/plugins/vault/config/Server.java:166-168 | the token is replaced and no other field changes |
| WizardServer.Server.Equals | src/main/java/com/homeofthewizard/maven/plugins/vault/config/Server.java:185-199 | `equals` holds exactly for a server object whose nine fields all equal this one's |
| WizardServer.ServerHashConsistent | src/main/java/com/homeofthewizard/maven/plugins/vault/config/Server.java:175-199 | equal servers have equal hash codes |
| WizardBackend.VaultConfigFor | src/main/java/com/homeofthewizard/maven/plugins/vault/client/VaultBackendProvider.java:54-75 | the client configuration carries the address, token and engine version. Timeouts are 5 and 30 seconds. TLS verification is as configured, with the PEM file iff a certificate is given. The namespace is set iff non-empty |
| WizardBackend.VaultConfigForInjective | src/main/java/com/homeofthewizard/maven/plugins/vault/client/VaultBackendProvider.java:54-75 | two server settings give the same configuration iff they agree on every setting, where null and empty namespaces count alike |
| WizardBackend.OpenVault | src/main/java/com/homeofthewizard/maven/plugins/vault/client/VaultBackendProvider.java:34-41 | one connection is opened, on exactly that configuration |
| WizardAuth.Selection | src/main/java/com/homeofthewizard/maven/plugins/vault/config/AuthenticationMethodFactory.java:24-45 | a method is chosen iff the authentication block is non-empty and its first name is a known method. Missing authentication throws `NullPointerException`; an empty block throws the no-information message; an unknown name throws the available-methods message. The chosen method's client is built from the server's settings |
| WizardAuth.SelectionFirstNameDecides | src/main/java/com/homeofthewizard/maven/plugins/vault/config/AuthenticationMethodFactory.java:24-29 | only the first configured method name matters: two servers with the same settings and the same first name get the same choice |
| WizardAuth.FromServer | src/main/java/com/homeofthewizard/maven/plugins/vault/config/AuthenticationMethodFactory.java:24-45 | the factory returns a fresh login object for the server exactly when the selection succeeds, and otherwise throws the selection's error |
| WizardAuth.StoredGithubCredentials | src/main/java/com/homeofthewizard/maven/plugins/vault/GithubToken.java:29-36 | the credentials passed to the GitHub login are the map entry under `githubToken`; missing authentication throws `NullPointerException` |
| WizardAuth.GithubToken.constructor | src/main/java/com/homeofthewizard/maven/plugins/vault/GithubToken.java:19-22 | the login keeps its client and server |
| WizardAuth.GithubToken.Login | src/main/java/com/homeofthewizard/maven/plugins/vault/GithubToken.java:29-36 | a granted login stores the client token on the server; any failure throws and leaves the token as it was |
| WizardAuth.Convert | src/main/java/com/homeofthewizard/maven/plugins/vault/config/AuthenticationMethod.java:37-41 | converting credentials succeeds iff the map is present and has no field the credential class lacks, and yields the same map |
| WizardAuth.CredentialsOf | src/main/java/com/homeofthewizard/maven/plugins/vault/config/GithubTokenAuthMethod.java:29 | the credentials are the converted entry under the method's tag; missing authentication throws `NullPointerException` |
| WizardAuth.GithubTokenAuthMethod.constructor | src/main/java/com/homeofthewizard/maven/plugins/vault/config/GithubTokenAuthMethod.java:18-21 | the method keeps its client and server |
| WizardAuth.GithubTokenAuthMethod.Login | src/main/java/com/homeofthewizard/maven/plugins/vault/config/GithubTokenAuthMethod.java:28-36 | logs in with the `pat` field of the converted credentials. Success stores the client token on the server; any failure throws and leaves the token as it was |
| WizardAuth.AppRoleAuthMethod.constructor | src/main/java/com/homeofthewizard/maven/plugins/vault/config/AppRoleAuthMethod.java:18-21 | the method keeps its client and server |
| WizardAuth.AppRoleAuthMethod.Login | src/main/java/com/homeofthewizard/maven/plugins/vault/config/AppRoleAuthMethod.java:28-36 | logs in with the `roleId` and `secretId` fields of the converted credentials. Success stores the client token; any failure throws and leaves the token as it was |
| WizardVaults.Targets | src/main/java/com/homeofthewizard/maven/plugins/vault/client/Vaults.java:47-53 | one target per server, in order, carrying its skip flag, its client configuration and its paths |
| WizardVaults.Pull | src/main/java/com/homeofthewizard/maven/plugins/vault/client/Vaults.java:46-65 | the imperative pull leaves outcome, properties, environment and connection log exactly as `PullTargets` over the servers says |
| WizardVaults.PullServer | src/main/java/com/homeofthewizard/maven/plugins/vault/client/Vaults.java:53-63 | the paths loop of one server matches `PullPaths` |
| WizardVaults.PullPath | src/main/java/com/homeofthewizard/maven/plugins/vault/client/Vaults.java:55-62 | the mappings loop of one path matches `PullMappings` |
| WizardVaults.Push | src/main/java/com/homeofthewizard/maven/plugins/vault/client/Vaults.java:75-94 | the imperative push leaves outcome, store, connection log and write log exactly as `PushTargets` over the servers says |
| WizardVaults.PushServer | src/main/java/com/homeofthewizard/maven/plugins/vault/client/Vaults.java:82-92 | the paths loop of one server matches `PushPaths` |
| WizardVaults.MergePath | src/main/java/com/homeofthewizard/maven/plugins/vault/client/Vaults.java:84-90 | the mappings loop of one path yields what `PushMappings` yields, without touching the store |
| WizardVaults.AuthenticateIfNecessary | src/main/java/com/homeofthewizard/maven/plugins/vault/client/Vaults.java:103-122 | the authentication loop ends with the outcome and the server tokens `AuthRun` computes from the tokens before |
| WizardVaults.AuthenticateServer | src/main/java/com/homeofthewizard/maven/plugins/vault/client/Vaults.java:106-120 | one iteration changes the tokens and stops or continues exactly as one `AuthStep` says |
| WizardVaults.AuthRunStopped | src/main/java/com/homeofthewizard/maven/plugins/vault/client/Vaults.java:105-121 | once the loop has returned or thrown, later servers change nothing |
| WizardVaults.AuthRunConcat | src/main/java/com/homeofthewizard/maven/plugins/vault/client/Vaults.java:105-121 | running over two lists of servers is running over the first, then the second |
| WizardVaults.AuthReturnsAtToken | src/main/java/com/homeofthewizard/maven/plugins/vault/client/Vaults.java:105-107 | reaching a server that has a token returns at once: the servers after it are never authenticated and no error is raised, whatever they hold |
| WizardVaults.AuthChangesOnlyEmptyTokens | src/main/java/com/homeofthewizard/maven/plugins/vault/client/Vaults.java:105-110 | a server's token changes only if it is in the list, has an authentication block and had a null or empty token. It then holds a token the login exchange granted |
| WizardVaults.AuthRunningGranted | src/main/java/com/homeofthewizard/maven/plugins/vault/client/Vaults.java:104-109 | a loop that runs to its end has logged every listed server in: each had an authentication block and now holds a client token the login exchange granted |
| WizardVaults.AuthRunStops | src/main/java/com/homeofthewizard/maven/plugins/vault/client/Vaults.java:104-121 | a loop that ends early stops at one server, and every server before it is logged in. A token on that server means `return` with the tokens so far. Otherwise the loop throws and keeps the tokens so far; the error is the credentials message when the server has no authentication block either |
| WizardVaults.AuthThrowsWithoutCredentials | src/main/java/com/homeofthewizard/maven/plugins/vault/client/Vaults.java:110-120 | reaching a server with neither a token nor an authentication block throws the credentials message at once, whatever servers follow it |
| WizardMojo.Wrapped | src/main/java/com/homeofthewizard/maven/plugins/vault/VaultMojo.java:53-59 | a `VaultException` is wrapped in a `MojoExecutionException` with the given message; success and every other exception pass through unchanged |
| WizardMojo.ExecuteVaultAuthentication | src/main/java/com/homeofthewizard/maven/plugins/vault/VaultMojo.java:53-59 | authentication leaves the tokens `AuthRun` computes, and its failure is reported wrapped with the authenticating message |
| WizardMojo.PullMojo.constructor | src/main/java/com/homeofthewizard/maven/plugins/vault/VaultMojo.java:36-43 | the goal keeps its servers, skip flag, output method, properties and environment |
| WizardMojo.PullMojo.Execute | src/main/java/com/homeofthewizard/maven/plugins/vault/VaultMojo.java:48-51 | authenticates first. A failure is reported wrapped and nothing is pulled. A skipped goal then succeeds and changes nothing. Otherwise the properties, environment and connections are those of the pull, whose failure is wrapped with the pulling message |
| WizardMojo.PullMojo.ExecuteVaultOperation | src/main/java/com/homeofthewizard/maven/plugins/vault/PullMojo.java:45-54 | a skipped goal succeeds and changes nothing; otherwise the state is that of the pull, whose failure is wrapped with the pulling message |
| WizardMojo.PushMojo.constructor | src/main/java/com/homeofthewizard/maven/plugins/vault/VaultMojo.java:36-43 | the goal keeps its servers, skip flag and properties |
| WizardMojo.PushMojo.Execute | src/main/java/com/homeofthewizard/maven/plugins/vault/VaultMojo.java:48-51 | authenticates first. A failure is reported wrapped and nothing is pushed. A skipped goal then succeeds and changes nothing. Otherwise the store and logs are those of the push, whose failure is wrapped with the pushing message |
| WizardMojo.PushMojo.ExecuteVaultOperation | src/main/java/com/homeofthewizard/maven/plugins/vault/PushMojo.java:35-44 | a skipped goal succeeds and changes nothing; otherwise the state is that of the push, whose failure is wrapped with the pushing message |
| DecipherServer.Server.constructor | src/main/java/com/deciphernow/maven/plugins/vault/Vaults.java:68-69 | every field holds its argument |
| DecipherServer.Server.SetToken | src/main/java/com/deciphernow/maven/plugins/vault/GithubToken.java:32-39 | the token is replaced |
| DecipherVaults.VaultConfigOf | src/main/java/com/deciphernow/maven/plugins/vault/Vaults.java:159-180 | the configuration carries the address, token and KV version as engine version, with timeouts 5 and 30 seconds and no namespace. An SSL configuration is present iff verification is on, and then it carries the certificate |
| DecipherVaults.VaultConfigOfInjective | src/main/java/com/deciphernow/maven/plugins/vault/Vaults.java:159-180 | two settings give the same configuration iff they agree on address, token, KV version and verification; the certificate counts only when verification is on |
| DecipherVaults.OpenVault | src/main/java/com/deciphernow/maven/plugins/vault/Vaults.java:159-180 | one connection is opened, on exactly that configuration |
| DecipherVaults.Targets | src/main/java/com/deciphernow/maven/plugins/vault/Vaults.java:64-70 | one target per server, in order, carrying its skip flag, its client configuration and its paths |
| DecipherVaults.Pull | src/main/java/com/deciphernow/maven/plugins/vault/Vaults.java:63-81 | the imperative pull leaves outcome, properties and connection log exactly as `PullTargets` with no output method says |
| DecipherVaults.PullServer | src/main/java/com/deciphernow/maven/plugins/vault/Vaults.java:70-79 | the paths loop of one server matches `PullPaths` |
| DecipherVaults.PullPath | src/main/java/com/deciphernow/maven/plugins/vault/Vaults.java:72-78 | the mappings loop of one path matches `PullMappings` |
| DecipherVaults.Push | src/main/java/com/deciphernow/maven/plugins/vault/Vaults.java:90-109 | the imperative push leaves outcome, store and logs exactly as `PushTargets` says |
| DecipherAuth.FirstMethod | src/main/java/com/deciphernow/maven/plugins/vault/config/Authentication.java:19-24 | the first configured method name; missing authentication throws `NullPointerException`, an empty block the no-information message |
| DecipherAuth.AuthenticationChoice | src/main/java/com/deciphernow/maven/plugins/vault/config/Authentication.java:19-32 | succeeds iff the first name is `githubToken`; any other name throws the no-information message |
| DecipherAuth.FactoryChoice | src/main/java/com/deciphernow/maven/plugins/vault/config/AuthenticationMethodFactory.java:21-43 | succeeds iff the first name is `githubToken`; any other name throws the available-methods message |
| DecipherAuth.ChoicesAgree | src/main/java/com/deciphernow/maven/plugins/vault/config/AuthenticationMethodFactory.java:29-43 | the two selection routes accept the same servers, and report the same result except for an unknown first name, where their messages differ |
| DecipherAuth.GithubToken.constructor | src/main/java/com/deciphernow/maven/plugins/vault/GithubToken.java:23-25 | the login keeps its server and client configuration |
| DecipherAuth.GithubToken.Login | src/main/java/com/deciphernow/maven/plugins/vault/GithubToken.java:32-39 | logs in with the `githubToken` entry. A granted login stores the client token; missing authentication or a rejection throws and leaves the token as it was |
| DecipherAuth.AuthenticationMethod | src/main/java/com/deciphernow/maven/plugins/vault/config/Authentication.java:19-32 | returns a fresh login for the server exactly when `AuthenticationChoice` succeeds, and otherwise throws its error |
| DecipherAuth.FromServer | src/main/java/com/deciphernow/maven/plugins/vault/config/AuthenticationMethodFactory.java:21-43 | returns a fresh login for the server exactly when `FactoryChoice` succeeds, and otherwise throws its error |
| DecipherMojo.PullMojo.constructor | src/main/java/com/deciphernow/maven/plugins/vault/VaultMojo.java:31-38 | the goal keeps its servers, skip flag and properties |
| DecipherMojo.PullMojo.Execute | src/main/java/com/deciphernow/maven/plugins/vault/PullMojo.java:35-44 | a skipped goal succeeds and changes nothing; otherwise the properties and connections are those of the pull, whose failure is wrapped with the pulling message |

## Left out

- Network, TLS and timeouts: the Vault server is a map from (address, path) to secrets. Connection failures, certificate checks and timeouts are not modelled; the timeouts are only the constants passed.
- The Vault client's login calls are not visible code. They are parameters (`GithubLogin`, `StoredGithubLogin`, `AppRoleLogin`) that return a granted client token or a rejection message.
- Jackson's `convertValue` is replaced by `WizardAuth.Convert`. It accepts a present map with no unknown field and keeps it as it is; type coercion and the other Jackson failures are not modelled.
- `.env` file format and I/O errors: the file is a property table. Its byte format, the file name and the printing of an `IOException` are left out.
- A server's URL is assumed non-null; `getUrl` is a plain field.
- `VaultApi.NotFoundMessage`: the message of the `VaultException` the Vault client throws when a path holds no secret is not visible in the modelled sources. The constant is a placeholder; only the exception's type is modelled faithfully.
- Null configuration values and null secrets cannot occur in the model. Mapping keys and properties, path names and mapping lists, the server's path list and every secret value are non-null. The source's behaviour on them is not modelled: the `NullPointerException` of a `<path>` without mappings, of `containsKey(null)` on push and of `setProperty` with a null secret, and the "for key null" message on pull.
- `VaultApi.Backend.Exists` treats `exists` as "a secret is stored at this path". The source asks `logical().list(path)` for the keys listed under the path, which is not the same question. `PushKeepsUnmentioned` and the push-then-pull lemmas rely on this reading.
- `WizardVaults.AuthenticateIfNecessary` fixes the `AuthenticationMethodProvider` parameter of `authenticateIfNecessary` to the concrete `AuthenticationMethodFactory`, which is the provider `VaultMojo` passes. Other providers are not modelled.
- `JavaLang.StringHash` folds over Unicode scalar values. `String.hashCode` folds over UTF-16 code units, so the two differ for characters outside the Basic Multilingual Plane.
- The Java getters are modelled as `const` fields. `Server.token` is the only field updated in place.
- `WizardAuth.AppRoleTag`: the value of `APP_ROLE_TAG` is not shown in the modelled sources. It is taken to be `"appRole"`.
- `WizardAuth.GithubToken.Login`: the newer `GithubToken` passes the whole credentials map where the client expects a string token. The login exchange therefore takes the map (`StoredGithubLogin`). What the client library does with it is not modelled.
- `DecipherAuth.AuthenticationMethod` and `DecipherAuth.FromServer` take the client configuration as a parameter. The older factory calls a `Vaults.vaultConfig` helper and a two-argument `GithubToken` constructor, and neither exists in the older `Vaults` and `GithubToken` classes.
- The older `Server` class is not part of this model. Its fields are inferred from the getters the older `Vaults`, `Authentication` and factory call.
- The older `VaultMojo` and `AuthenticationMethod` base classes are left out. Only their constructors store fields, and those fields are modelled on the subclasses.
- Each `for` loop of `pull` and `push` is one method per loop level: servers, paths and mappings.
- The iteration order of the `HashMap` holding the authentication block is modelled as the order of its configured entries, so "first method" means the first entry.
- `VaultConfig.build()` defaults (such as `VAULT_ADDR` taken from the environment) are not modelled.
- The newer mojos call a `Vaults` client and an output method that the `VaultMojo` base class shown does not declare. The model composes them with the concrete `Vaults` operations directly.
- Maven's parameter injection is replaced by constructors that take every injected field.
- `WizardMojo.PullMojo.Execute` and `WizardMojo.PushMojo.Execute` follow the code: they authenticate before looking at `skipExecution`. Mojo tests that expect no authentication when skipped are not followed.
- Concurrency and the logging calls are left out.

/**
 * The synchronisation engine that both revisions of `Vaults` implement with three nested
 * loops (servers, then each server's paths, then each path's mappings), written as functions
 * of the state the loops change. Each revision's imperative `pull` and `push` is proved equal
 * to these functions; the lemmas about what a whole run amounts to live in `PullFacts`,
 * `PushFacts` and `RoundTrip`.
 */
module Sync {
  import opened Wrappers
  import opened JavaLang
  import opened VaultApi
  import opened PathConfig
  import opened Output

  /** A configured server as the engine sees it: skipped or not, the connection it opens, its paths. */
  datatype Target = Target(skip: bool, config: VaultConfig, paths: seq<Path>)

  /** The message of the `NoSuchElementException` thrown by pull for a key absent from its path. */
  function MissingKeyMessage(path: string, key: string): string
  {
    "No value found in path " + path + " for key " + key
  }

  /** The message of the `NoSuchElementException` thrown by push for an undefined property. */
  function MissingPropertyMessage(property: string): string
  {
    "No value found for property " + property
  }

  /** One connection per server that is not skipped, in order. */
  function Connections(ts: seq<Target>): seq<VaultConfig>
  {
    if ts == [] then []
    else if ts[0].skip then Connections(ts[1..])
    else [ts[0].config] + Connections(ts[1..])
  }

  // ----- pull -----

  /** What pull changes: the sinks it delivers to and the log of connections opened. */
  datatype PullState = PullState(sinks: Sinks, connections: seq<VaultConfig>)

  /**
   * One mapping of pull: a key missing from the path's secrets throws; otherwise the project
   * property is set and, in the revision that has one, the output method flushes the same triple.
   */
  function PullMapping(output: Option<OutputMethod>, path: string, secrets: Secrets, mapping: Mapping, sinks: Sinks): (Outcome, Sinks)
  {
    if mapping.key !in secrets then
      (Fail(NoSuchElementException(MissingKeyMessage(path, mapping.key))), sinks)
    else
      var updated := sinks.(properties := sinks.properties[mapping.property := secrets[mapping.key]]);
      match output
      case None => (Ok, updated)
      case Some(flush) => flush.Effect(secrets, mapping, updated)
  }

  function PullMappings(output: Option<OutputMethod>, path: string, secrets: Secrets, ms: seq<Mapping>, sinks: Sinks): (Outcome, Sinks)
  {
    if ms == [] then (Ok, sinks)
    else
      var (o, next) := PullMapping(output, path, secrets, ms[0], sinks);
      if o.Fail? then (o, next) else PullMappings(output, path, secrets, ms[1..], next)
  }

  /** The paths of one server: read each path's secrets, then pull its mappings. */
  function PullPaths(output: Option<OutputMethod>, store: Store, address: string, paths: seq<Path>, sinks: Sinks): (Outcome, Sinks)
  {
    if paths == [] then (Ok, sinks)
    else
      match Read(store, Location(address, paths[0].name))
      case Failure(e) => (Fail(e), sinks)
      case Success(secrets) =>
        var (o, next) := PullMappings(output, paths[0].name, secrets, paths[0].mappings, sinks);
        if o.Fail? then (o, next) else PullPaths(output, store, address, paths[1..], next)
  }

  /** `pull`: skipped servers are passed over; every other server is connected to, then its paths pulled. */
  function PullTargets(output: Option<OutputMethod>, store: Store, ts: seq<Target>, st: PullState): (Outcome, PullState)
  {
    if ts == [] then (Ok, st)
    else if ts[0].skip then PullTargets(output, store, ts[1..], st)
    else
      var (o, sinks) := PullPaths(output, store, ts[0].config.address, ts[0].paths, st.sinks);
      var next := PullState(sinks, st.connections + [ts[0].config]);
      if o.Fail? then (o, next) else PullTargets(output, store, ts[1..], next)
  }

  // ----- push -----

  /** What push changes: the store, and the logs of connections opened and of paths written. */
  datatype PushState = PushState(store: Store, connections: seq<VaultConfig>, writes: seq<Location>)

  /** The mappings of one path, merged into the working map: an undefined property throws. */
  function PushMappings(properties: map<string, string>, ms: seq<Mapping>, secrets: Secrets): Result<Secrets, Exception>
  {
    if ms == [] then Success(secrets)
    else if ms[0].property !in properties then
      Failure(NoSuchElementException(MissingPropertyMessage(ms[0].property)))
    else
      PushMappings(properties, ms[1..], secrets[ms[0].key := properties[ms[0].property]])
  }

  /** The working map of a path starts as what is stored there (`exists`, then `get`), else empty. */
  function Base(store: Store, location: Location): Secrets
  {
    if location in store then store[location] else map[]
  }

  /** The paths of one server: merge each path's mappings into its base, then write it once. */
  function PushPaths(properties: map<string, string>, address: string, paths: seq<Path>, st: PushState): (Outcome, PushState)
  {
    if paths == [] then (Ok, st)
    else
      var location := Location(address, paths[0].name);
      match PushMappings(properties, paths[0].mappings, Base(st.store, location))
      case Failure(e) => (Fail(e), st)
      case Success(secrets) =>
        var next := st.(store := st.store[location := secrets], writes := st.writes + [location]);
        PushPaths(properties, address, paths[1..], next)
  }

  /** `push`: skipped servers are passed over; every other server is connected to, then its paths pushed. */
  function PushTargets(properties: map<string, string>, ts: seq<Target>, st: PushState): (Outcome, PushState)
  {
    if ts == [] then (Ok, st)
    else if ts[0].skip then PushTargets(properties, ts[1..], st)
    else
      var connected := st.(connections := st.connections + [ts[0].config]);
      var (o, next) := PushPaths(properties, ts[0].config.address, ts[0].paths, connected);
      if o.Fail? then (o, next) else PushTargets(properties, ts[1..], next)
  }
}

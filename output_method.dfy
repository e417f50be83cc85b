/**
 * Where a pulled secret is delivered (`OutputMethod`): the Maven project properties, the
 * JVM's system properties, or a `.env` file in the working directory. The three variants
 * form a closed enumeration, so `flush` is total.
 */
module Output {
  import opened Wrappers
  import opened JavaLang
  import opened VaultApi
  import opened PathConfig

  /** A `java.util.Properties` table. */
  class Properties {
    var entries: map<string, string>

    constructor (entries: map<string, string>)
      ensures this.entries == entries
    {
      this.entries := entries;
    }

    /** `setProperty`: the table refuses a null value with a `NullPointerException`. */
    method SetProperty(key: string, value: Option<string>) returns (o: Outcome)
      modifies this
      ensures o == Ok <==> value.Some?
      ensures o.Fail? ==> o.error == NullPointerException && entries == old(entries)
      ensures o == Ok ==> entries == old(entries)[key := value.value]
    {
      if value.None? {
        o := Fail(NullPointerException);
      } else {
        entries := entries[key := value.value];
        o := Ok;
      }
    }
  }

  /** The process-wide state a flush reaches: the system properties and the contents of `.env`. */
  class Environment {
    var systemProperties: map<string, string>
    var dotEnv: map<string, string>

    constructor (systemProperties: map<string, string>, dotEnv: map<string, string>)
      ensures this.systemProperties == systemProperties && this.dotEnv == dotEnv
    {
      this.systemProperties := systemProperties;
      this.dotEnv := dotEnv;
    }

    /** `System.setProperty`: refuses a null value with a `NullPointerException`. */
    method SetSystemProperty(key: string, value: Option<string>) returns (o: Outcome)
      modifies this`systemProperties
      ensures o == Ok <==> value.Some?
      ensures o.Fail? ==> o.error == NullPointerException && systemProperties == old(systemProperties)
      ensures o == Ok ==> systemProperties == old(systemProperties)[key := value.value]
    {
      if value.None? {
        o := Fail(NullPointerException);
      } else {
        systemProperties := systemProperties[key := value.value];
        o := Ok;
      }
    }

    /** `new FileOutputStream(".env")`: opening the file truncates it. */
    method TruncateDotEnv()
      modifies this`dotEnv
      ensures dotEnv == map[]
    {
      dotEnv := map[];
    }

    /** `Properties.store` into the freshly truncated `.env`. */
    method StoreDotEnv(table: Properties)
      modifies this`dotEnv
      ensures dotEnv == table.entries
    {
      dotEnv := table.entries;
    }
  }

  /** The three places a pull can deliver to, as values. */
  datatype Sinks = Sinks(properties: map<string, string>, system: map<string, string>, dotEnv: map<string, string>)

  ghost function SinksOf(properties: Properties, env: Environment): Sinks
    reads properties, env
  {
    Sinks(properties.entries, env.systemProperties, env.dotEnv)
  }

  datatype OutputMethod = MavenProperties | SystemProperties | EnvFile
  {
    /** The sink this variant writes. */
    function Sink(s: Sinks): map<string, string>
    {
      match this
      case MavenProperties => s.properties
      case SystemProperties => s.system
      case EnvFile => s.dotEnv
    }

    /**
     * The effect of `flush(properties, secrets, mapping)`: the variant's sink receives
     * `mapping.property = secrets[mapping.key]`. The Maven and system variants change no other
     * entry; the `.env` variant replaces the file wholesale, and leaves it empty when the value
     * is null. The other two sinks are never touched.
     */
    function Effect(secrets: Secrets, mapping: Mapping, sinks: Sinks): (r: (Outcome, Sinks))
      ensures r.0 == Ok <==> mapping.key in secrets
      ensures r.0.Fail? ==> r.0.error == NullPointerException
      ensures r.0 == Ok ==> mapping.property in Sink(r.1) && Sink(r.1)[mapping.property] == secrets[mapping.key]
      ensures this != MavenProperties ==> r.1.properties == sinks.properties
      ensures this != SystemProperties ==> r.1.system == sinks.system
      ensures this != EnvFile ==> r.1.dotEnv == sinks.dotEnv
      ensures this != EnvFile ==> Sink(r.1) - {mapping.property} == Sink(sinks) - {mapping.property}
      ensures this != EnvFile && r.0.Fail? ==> r.1 == sinks
      ensures this == EnvFile ==> r.1.dotEnv.Keys == if r.0 == Ok then {mapping.property} else {}
    {
      match MapGet(secrets, mapping.key)
      case None =>
        (Fail(NullPointerException), if this == EnvFile then sinks.(dotEnv := map[]) else sinks)
      case Some(value) =>
        (Ok, match this
             case MavenProperties => sinks.(properties := sinks.properties[mapping.property := value])
             case SystemProperties => sinks.(system := sinks.system[mapping.property := value])
             case EnvFile => sinks.(dotEnv := map[mapping.property := value]))
    }

    /** `flush`: dispatches to the variant's setter. */
    method Flush(properties: Properties, env: Environment, secrets: Secrets, mapping: Mapping) returns (o: Outcome)
      modifies properties, env
      ensures (o, SinksOf(properties, env)) == Effect(secrets, mapping, old(SinksOf(properties, env)))
    {
      match this
      case MavenProperties =>
        o := SetMavenProperties(properties, secrets, mapping);
      case SystemProperties =>
        o := SetSystemProperties(env, secrets, mapping);
      case EnvFile =>
        o := SetEnvFile(env, secrets, mapping);
    }
  }

  /** `setEnvFile`: truncates `.env`, then stores a one-entry table in it. */
  method SetEnvFile(env: Environment, secrets: Secrets, mapping: Mapping) returns (o: Outcome)
    modifies env
    ensures o == Ok <==> mapping.key in secrets
    ensures o.Fail? ==> o.error == NullPointerException
    ensures env.systemProperties == old(env.systemProperties)
    ensures env.dotEnv == if o == Ok then map[mapping.property := secrets[mapping.key]] else map[]
  {
    var table := new Properties(map[]);
    env.TruncateDotEnv();
    o := table.SetProperty(mapping.property, MapGet(secrets, mapping.key));
    if o == Ok {
      env.StoreDotEnv(table);
    }
  }

  /** `setSystemProperties`. */
  method SetSystemProperties(env: Environment, secrets: Secrets, mapping: Mapping) returns (o: Outcome)
    modifies env
    ensures o == Ok <==> mapping.key in secrets
    ensures o.Fail? ==> o.error == NullPointerException
    ensures env.dotEnv == old(env.dotEnv)
    ensures env.systemProperties == if o == Ok then old(env.systemProperties)[mapping.property := secrets[mapping.key]]
                                    else old(env.systemProperties)
  {
    o := env.SetSystemProperty(mapping.property, MapGet(secrets, mapping.key));
  }

  /** `setMavenProperties`. */
  method SetMavenProperties(properties: Properties, secrets: Secrets, mapping: Mapping) returns (o: Outcome)
    modifies properties
    ensures o == Ok <==> mapping.key in secrets
    ensures o.Fail? ==> o.error == NullPointerException
    ensures properties.entries == if o == Ok then old(properties.entries)[mapping.property := secrets[mapping.key]]
                                  else old(properties.entries)
  {
    o := properties.SetProperty(mapping.property, MapGet(secrets, mapping.key));
  }
}

/**
 * The configuration value types `Path` (a Vault path and its mappings) and `Mapping`
 * (a Vault key paired with a Maven property), with their `equals` and `hashCode`.
 */
module PathConfig {
  import opened JavaLang

  /** The argument of `equals(Object)`: a mapping, a path, or anything else (including null). */
  datatype JavaObject = MappingObject(mapping: Mapping) | PathObject(path: Path) | OtherObject

  /** A pairing of the key of a Vault secret with the name of a Maven property. */
  datatype Mapping = Mapping(key: string, property: string)
  {
    /** `Mapping.equals`: compares the key and the property. */
    predicate Equals(that: JavaObject)
      ensures Equals(that) <==> that == MappingObject(this)
    {
      match that
      case MappingObject(m) => key == m.key && property == m.property
      case _ => false
    }

    /** `Mapping.hashCode`: `Objects.hash(key, property)`. */
    function HashCode(): int32
    {
      CombineHashes([StringHash(key), StringHash(property)])
    }
  }

  /** A path on a Vault server together with the mappings read from or written to it. */
  datatype Path = Path(name: string, mappings: seq<Mapping>)
  {
    /** `Path.equals`: compares the name and the mapping lists. */
    predicate Equals(that: JavaObject)
      ensures Equals(that) <==> that == PathObject(this)
    {
      match that
      case PathObject(p) => name == p.name && MappingListEquals(mappings, p.mappings)
      case _ => false
    }

    /** `Path.hashCode`: `Objects.hash(name, mappings)`. */
    function HashCode(): int32
    {
      CombineHashes([StringHash(name), MappingListHash(mappings)])
    }
  }

  /** `List.equals` on two lists of mappings: element by element with `Mapping.equals`. */
  function MappingListEquals(a: seq<Mapping>, b: seq<Mapping>): (r: bool)
    ensures r <==> a == b
  {
    if a == [] then b == []
    else b != [] && a[0].Equals(MappingObject(b[0])) && MappingListEquals(a[1..], b[1..])
  }

  /** `List.hashCode` of a list of mappings. */
  function MappingListHash(ms: seq<Mapping>): int32
  {
    CombineHashes(seq(|ms|, i requires 0 <= i < |ms| => ms[i].HashCode()))
  }

  /** `List.hashCode` of a list of paths. */
  function PathListHash(ps: seq<Path>): int32
  {
    CombineHashes(seq(|ps|, i requires 0 <= i < |ps| => ps[i].HashCode()))
  }

  // `Equals` on both types is structural equality, so equal values hash alike by congruence alone.
}

/**
 * The parts of the Java platform that the plugin's logic depends on: the exceptions it
 * throws or lets through, 32-bit `int` arithmetic, the hash codes of the JDK types its
 * records hash, and a few library helpers (`Strings.isNullOrEmpty`, `List.toString`).
 */
module JavaLang {
  import opened Wrappers

  /** Java's `int`. */
  newtype int32 = x: int | -0x8000_0000 <= x < 0x8000_0000

  const TwoTo32: int := 0x1_0000_0000

  /** The exceptions the modelled code throws or lets propagate. */
  datatype Exception =
    | VaultException(message: string)
    | NoSuchElementException(message: string)
    | NullPointerException
    | IllegalArgumentException
    | ClassCastException
    | MojoExecutionException(message: string, cause: Exception)

  /** A `void` call: it returns normally or throws. */
  datatype Outcome = Ok | Fail(error: Exception)

  /** Java's wrap-around of an unbounded integer into an `int` (two's complement). */
  function Wrap(x: int): (r: int32)
    ensures (r as int - x) % TwoTo32 == 0
    ensures -0x8000_0000 <= x < 0x8000_0000 ==> r as int == x
  {
    var m := x % TwoTo32;
    if m < 0x8000_0000 then m as int32 else (m - TwoTo32) as int32
  }

  /** `String.hashCode`: `s[0]*31^(n-1) + ... + s[n-1]` in `int` arithmetic. */
  function StringHash(s: string): int32
  {
    if s == [] then 0 else Wrap(31 * StringHash(s[..|s| - 1]) as int + s[|s| - 1] as int)
  }

  /**
   * `Arrays.hashCode` over already computed element hashes, which is both `Objects.hash(a, b, ...)`
   * and `List.hashCode`: start from 1 and fold `31 * h + e`.
   */
  function CombineHashes(hs: seq<int32>): int32
  {
    if hs == [] then 1 else Wrap(31 * CombineHashes(hs[..|hs| - 1]) as int + hs[|hs| - 1] as int)
  }

  /** `Boolean.hashCode`. */
  function BooleanHash(b: bool): int32
  {
    if b then 1231 else 1237
  }

  /** `Objects.hashCode` of a nullable `String`. */
  function NullableStringHash(s: Option<string>): int32
  {
    match s
    case None => 0
    case Some(v) => StringHash(v)
  }

  /** `File.hashCode` on a Unix file system: the path's hash exclusive-or 1234321; 0 for null. */
  function FileHash(file: Option<string>): int32
  {
    match file
    case None => 0
    case Some(path) =>
      var unsigned := (StringHash(path) as int) % TwoTo32;
      var mixed := (unsigned as bv32 ^ 1234321) as int;
      Wrap(mixed)
  }

  /** `Objects.hashCode` of a nullable `Integer`. */
  function NullableIntegerHash(i: Option<int32>): int32
  {
    match i
    case None => 0
    case Some(v) => v
  }

  /** `Map.get`: the value stored under `key`, or null. */
  function MapGet<K, V>(m: map<K, V>, key: K): Option<V>
  {
    if key in m then Some(m[key]) else None
  }

  /** One entry of a `Map` keyed by strings, listed in the map's iteration order. */
  datatype Entry<V> = Entry(key: string, value: V)

  /** `Map.get` on the entries: the value of the first entry with that key, or null. */
  function EntryGet<V>(entries: seq<Entry<V>>, key: string): (r: Option<V>)
    ensures r.Some? <==> exists i :: 0 <= i < |entries| && entries[i].key == key
    ensures r.Some? ==> exists i :: 0 <= i < |entries| && entries[i] == Entry(key, r.value) &&
                                    forall j :: 0 <= j < i ==> entries[j].key != key
    decreases |entries|
  {
    if entries == [] then None
    else if entries[0].key == key then Some(entries[0].value)
    else
      var r := EntryGet(entries[1..], key);
      assert forall i :: 0 < i < |entries| ==> entries[1..][i - 1] == entries[i];
      r
  }

  /** The entries as a map, which is what `Map.equals` compares. */
  function EntryMap<V>(entries: seq<Entry<V>>): (m: map<string, V>)
    ensures forall key :: MapGet(m, key) == EntryGet(entries, key)
    decreases |entries|
  {
    if entries == [] then map[]
    else EntryMap(entries[1..])[entries[0].key := entries[0].value]
  }

  /** Guava's `Strings.isNullOrEmpty`. */
  predicate IsNullOrEmpty(s: Option<string>)
  {
    s.None? || s.value == ""
  }

  /** `List.toString` of a list of strings: `[a, b, c]`. */
  function ListToString(xs: seq<string>): string
  {
    "[" + Join(xs) + "]"
  }

  function Join(xs: seq<string>): string
  {
    if xs == [] then "" else if |xs| == 1 then xs[0] else xs[0] + ", " + Join(xs[1..])
  }
}

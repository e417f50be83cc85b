/**
 * Flat reference definitions of what a whole pull or push amounts to, independent of the
 * loop nesting: the paths visited in order, the property assignments a pull performs, the
 * writes a push performs, and the facts about folding them (the last assignment to a
 * property wins; the last write to a key wins; untouched keys keep their values).
 */
module Reference {
  import opened Wrappers
  import opened JavaLang
  import opened VaultApi
  import opened PathConfig
  import opened Output
  import opened Sync

  /** A path of a server that is not skipped, at the location where it is read or written. */
  datatype Visit = Visit(location: Location, path: Path)

  function PathVisits(address: string, paths: seq<Path>): seq<Visit>
  {
    if paths == [] then []
    else [Visit(Location(address, paths[0].name), paths[0])] + PathVisits(address, paths[1..])
  }

  /** Every path of every server that is not skipped, in server order, then path order. */
  function Visits(ts: seq<Target>): seq<Visit>
  {
    if ts == [] then []
    else if ts[0].skip then Visits(ts[1..])
    else PathVisits(ts[0].config.address, ts[0].paths) + Visits(ts[1..])
  }

  // ----- pull -----

  /** `properties[property] := value`. */
  datatype Assignment = Assignment(property: string, value: string)

  predicate KeysPresent(secrets: Secrets, ms: seq<Mapping>)
  {
    forall m :: m in ms ==> m.key in secrets
  }

  /** Every visited path is stored, and holds every key its mappings name. */
  predicate Pullable(store: Store, vs: seq<Visit>)
  {
    forall i :: 0 <= i < |vs| ==> vs[i].location in store && KeysPresent(store[vs[i].location], vs[i].path.mappings)
  }

  function MappingAssignments(secrets: Secrets, ms: seq<Mapping>): seq<Assignment>
    requires KeysPresent(secrets, ms)
  {
    if ms == [] then []
    else [Assignment(ms[0].property, secrets[ms[0].key])] + MappingAssignments(secrets, ms[1..])
  }

  /** The assignments a pull of the visits performs, in order. */
  function Assignments(store: Store, vs: seq<Visit>): seq<Assignment>
    requires Pullable(store, vs)
  {
    if vs == [] then []
    else MappingAssignments(store[vs[0].location], vs[0].path.mappings) + Assignments(store, vs[1..])
  }

  /** Performs the assignments on a table, first to last. */
  function Assign(table: map<string, string>, asg: seq<Assignment>): map<string, string>
    decreases |asg|
  {
    if asg == [] then table else Assign(table[asg[0].property := asg[0].value], asg[1..])
  }

  /** The value of the last assignment to `property`, if any. */
  function LastValue(asg: seq<Assignment>, property: string): Option<string>
  {
    if asg == [] then None
    else
      match LastValue(asg[1..], property)
      case Some(v) => Some(v)
      case None => if asg[0].property == property then Some(asg[0].value) else None
  }

  /** After a sequence of assignments a property holds the last value assigned to it, or its old value. */
  lemma {:induction false} AssignLastWins(table: map<string, string>, asg: seq<Assignment>, property: string)
    ensures MapGet(Assign(table, asg), property) ==
            if LastValue(asg, property).Some? then LastValue(asg, property) else MapGet(table, property)
    decreases |asg|
  {
    if asg != [] {
      AssignLastWins(table[asg[0].property := asg[0].value], asg[1..], property);
    }
  }

  /** The last value assigned to a property is one of the assignments, and there is one iff some assignment names it. */
  lemma {:induction false} LastValueIn(asg: seq<Assignment>, property: string)
    ensures LastValue(asg, property).Some? <==> exists v :: Assignment(property, v) in asg
    ensures LastValue(asg, property).Some? ==> Assignment(property, LastValue(asg, property).value) in asg
    decreases |asg|
  {
    if asg != [] {
      assert asg == [asg[0]] + asg[1..];
      LastValueIn(asg[1..], property);
      if exists v :: Assignment(property, v) in asg {
        var v :| Assignment(property, v) in asg;
        assert asg[0] == Assignment(property, v) || Assignment(property, v) in asg[1..];
      }
    }
  }

  /** The assignments of one path's mappings: one per mapping, with the value stored under its key. */
  lemma {:induction false} MappingAssignmentsIn(secrets: Secrets, ms: seq<Mapping>, a: Assignment)
    requires KeysPresent(secrets, ms)
    ensures a in MappingAssignments(secrets, ms) <==> exists m :: m in ms && a == Assignment(m.property, secrets[m.key])
    decreases |ms|
  {
    if ms != [] {
      assert ms == [ms[0]] + ms[1..];
      assert KeysPresent(secrets, ms[1..]);
      MappingAssignmentsIn(secrets, ms[1..], a);
      if exists m :: m in ms && a == Assignment(m.property, secrets[m.key]) {
        var m :| m in ms && a == Assignment(m.property, secrets[m.key]);
        assert m == ms[0] || m in ms[1..];
      }
    }
  }

  /** The assignments of a pull: one per mapping of a visited path, with the value stored under its key there. */
  lemma {:induction false} AssignmentsIn(store: Store, vs: seq<Visit>, a: Assignment)
    requires Pullable(store, vs)
    ensures a in Assignments(store, vs) <==>
            exists i, m :: 0 <= i < |vs| && m in vs[i].path.mappings && a == Assignment(m.property, store[vs[i].location][m.key])
    decreases |vs|
  {
    if vs != [] {
      assert Pullable(store, vs[1..]) by {
        assert forall i :: 0 <= i < |vs| - 1 ==> vs[1..][i] == vs[i + 1];
      }
      AssignmentsIn(store, vs[1..], a);
      MappingAssignmentsIn(store[vs[0].location], vs[0].path.mappings, a);
      if a in Assignments(store, vs[1..]) {
        var i, m :| 0 <= i < |vs[1..]| && m in vs[1..][i].path.mappings && a == Assignment(m.property, store[vs[1..][i].location][m.key]);
        assert vs[1..][i] == vs[i + 1];
      }
      if exists i, m :: 0 <= i < |vs| && m in vs[i].path.mappings && a == Assignment(m.property, store[vs[i].location][m.key]) {
        var i, m :| 0 <= i < |vs| && m in vs[i].path.mappings && a == Assignment(m.property, store[vs[i].location][m.key]);
        if i > 0 {
          assert vs[1..][i - 1] == vs[i];
        }
      }
    }
  }

  lemma {:induction false} AssignConcat(table: map<string, string>, a: seq<Assignment>, b: seq<Assignment>)
    ensures Assign(table, a + b) == Assign(Assign(table, a), b)
    decreases |a|
  {
    if a == [] {
      assert a + b == b;
    } else {
      assert (a + b)[1..] == a[1..] + b;
      AssignConcat(table[a[0].property := a[0].value], a[1..], b);
    }
  }

  /**
   * The sinks after a pull that performed the assignments: the project properties receive them
   * all; the system properties too under `SystemProperties`; under `EnvFile` the `.env` file
   * holds the last one alone.
   */
  function Delivered(output: Option<OutputMethod>, sinks: Sinks, asg: seq<Assignment>): Sinks
  {
    Sinks(
      Assign(sinks.properties, asg),
      if output == Some(SystemProperties) then Assign(sinks.system, asg) else sinks.system,
      if output == Some(EnvFile) && asg != [] then map[asg[|asg| - 1].property := asg[|asg| - 1].value]
      else sinks.dotEnv)
  }

  lemma {:induction false} DeliveredConcat(output: Option<OutputMethod>, sinks: Sinks, a: seq<Assignment>, b: seq<Assignment>)
    ensures Delivered(output, Delivered(output, sinks, a), b) == Delivered(output, sinks, a + b)
  {
    AssignConcat(sinks.properties, a, b);
    AssignConcat(sinks.system, a, b);
    if b != [] {
      assert (a + b)[|a + b| - 1] == b[|b| - 1];
    }
  }

  // ----- push -----

  /** A write of push: a path touched (its working map read or created), or one key set from a property. */
  datatype Write = Touch(location: Location) | Put(location: Location, key: string, property: string)

  function Puts(location: Location, ms: seq<Mapping>): seq<Write>
  {
    if ms == [] then [] else [Put(location, ms[0].key, ms[0].property)] + Puts(location, ms[1..])
  }

  function VisitWrites(v: Visit): seq<Write>
  {
    [Touch(v.location)] + Puts(v.location, v.path.mappings)
  }

  /** The writes a push of the visits performs, in order. */
  function Writes(vs: seq<Visit>): seq<Write>
  {
    if vs == [] then [] else VisitWrites(vs[0]) + Writes(vs[1..])
  }

  /** The locations written, one per visit. */
  function Locations(vs: seq<Visit>): seq<Location>
  {
    if vs == [] then [] else [vs[0].location] + Locations(vs[1..])
  }

  predicate PropertiesDefined(properties: map<string, string>, ms: seq<Mapping>)
  {
    forall m :: m in ms ==> m.property in properties
  }

  /** Every property named by a mapping of a visited path is defined. */
  predicate Pushable(properties: map<string, string>, vs: seq<Visit>)
  {
    forall i :: 0 <= i < |vs| ==> PropertiesDefined(properties, vs[i].path.mappings)
  }

  /** Every property a write reads is defined. */
  predicate Defined(properties: map<string, string>, ws: seq<Write>)
  {
    forall i :: 0 <= i < |ws| && ws[i].Put? ==> ws[i].property in properties
  }

  /** The value of `key` at `location`, if stored. */
  function Lookup(store: Store, location: Location, key: string): Option<string>
  {
    if location in store then MapGet(store[location], key) else None
  }

  /** One write; a put from an undefined property is never reached by push, and counts as a touch. */
  function Step(properties: map<string, string>, store: Store, w: Write): Store
  {
    match w
    case Touch(location) => store[location := Base(store, location)]
    case Put(location, key, property) =>
      if property in properties then store[location := Base(store, location)[key := properties[property]]]
      else store[location := Base(store, location)]
  }

  /** Performs the writes on a store, first to last. */
  function Apply(properties: map<string, string>, store: Store, ws: seq<Write>): Store
    decreases |ws|
  {
    if ws == [] then store else Apply(properties, Step(properties, store, ws[0]), ws[1..])
  }

  /** The property of the last write to `key` at `location`, if any. */
  function LastPut(ws: seq<Write>, location: Location, key: string): Option<string>
  {
    if ws == [] then None
    else
      match LastPut(ws[1..], location, key)
      case Some(p) => Some(p)
      case None => if ws[0].Put? && ws[0].location == location && ws[0].key == key then Some(ws[0].property) else None
  }

  predicate Touched(ws: seq<Write>, location: Location)
  {
    exists i :: 0 <= i < |ws| && ws[i].location == location
  }

  /** After a sequence of writes a key holds the property of its last write, or its old value. */
  lemma {:induction false} ApplyLookup(properties: map<string, string>, store: Store, ws: seq<Write>, location: Location, key: string)
    requires Defined(properties, ws)
    ensures Lookup(Apply(properties, store, ws), location, key) ==
            if LastPut(ws, location, key).Some? then MapGet(properties, LastPut(ws, location, key).value)
            else Lookup(store, location, key)
    decreases |ws|
  {
    if ws != [] {
      var next := Step(properties, store, ws[0]);
      ApplyLookup(properties, next, ws[1..], location, key);
      if !(ws[0].Put? && ws[0].location == location && ws[0].key == key) {
        assert Lookup(next, location, key) == Lookup(store, location, key);
      }
    }
  }

  /** A location is stored after the writes iff it was before or some write touched it. */
  lemma {:induction false} ApplyDomain(properties: map<string, string>, store: Store, ws: seq<Write>, location: Location)
    ensures location in Apply(properties, store, ws) <==> location in store || Touched(ws, location)
    decreases |ws|
  {
    if ws != [] {
      var next := Step(properties, store, ws[0]);
      ApplyDomain(properties, next, ws[1..], location);
      if Touched(ws, location) && ws[0].location != location {
        var i :| 0 <= i < |ws| && ws[i].location == location;
        assert ws[1..][i - 1].location == location;
      }
      if Touched(ws[1..], location) {
        var i :| 0 <= i < |ws[1..]| && ws[1..][i].location == location;
        assert ws[i + 1].location == location;
      }
    }
  }

  lemma {:induction false} ApplyConcat(properties: map<string, string>, store: Store, a: seq<Write>, b: seq<Write>)
    ensures Apply(properties, store, a + b) == Apply(properties, Apply(properties, store, a), b)
    decreases |a|
  {
    if a == [] {
      assert a + b == b;
    } else {
      assert (a + b)[1..] == a[1..] + b;
      ApplyConcat(properties, Step(properties, store, a[0]), a[1..], b);
    }
  }

  lemma {:induction false} WritesConcat(a: seq<Visit>, b: seq<Visit>)
    ensures Writes(a + b) == Writes(a) + Writes(b)
  {
    if a == [] {
      assert a + b == b;
    } else {
      assert (a + b)[0] == a[0] && (a + b)[1..] == a[1..] + b;
      WritesConcat(a[1..], b);
      assert Writes(a + b) == VisitWrites(a[0]) + (Writes(a[1..]) + Writes(b));
    }
  }

  lemma {:induction false} LocationsConcat(a: seq<Visit>, b: seq<Visit>)
    ensures Locations(a + b) == Locations(a) + Locations(b)
  {
    if a == [] {
      assert a + b == b;
    } else {
      assert (a + b)[0] == a[0] && (a + b)[1..] == a[1..] + b;
      LocationsConcat(a[1..], b);
      assert Locations(a + b) == [a[0].location] + (Locations(a[1..]) + Locations(b));
    }
  }

  /** There is a last write to a key iff some write puts it, and the last one is among the writes. */
  lemma {:induction false} LastPutIn(ws: seq<Write>, location: Location, key: string)
    ensures LastPut(ws, location, key).Some? <==> exists p :: Put(location, key, p) in ws
    ensures LastPut(ws, location, key).Some? ==> Put(location, key, LastPut(ws, location, key).value) in ws
    decreases |ws|
  {
    if ws != [] {
      assert ws == [ws[0]] + ws[1..];
      LastPutIn(ws[1..], location, key);
      if exists p :: Put(location, key, p) in ws {
        var p :| Put(location, key, p) in ws;
        assert ws[0] == Put(location, key, p) || Put(location, key, p) in ws[1..];
      }
    }
  }

  /** The puts of one path: one per mapping, at that path. */
  lemma {:induction false} PutsIn(location: Location, ms: seq<Mapping>, w: Write)
    ensures w in Puts(location, ms) <==> exists m :: m in ms && w == Put(location, m.key, m.property)
    decreases |ms|
  {
    if ms != [] {
      assert ms == [ms[0]] + ms[1..];
      PutsIn(location, ms[1..], w);
      if exists m :: m in ms && w == Put(location, m.key, m.property) {
        var m :| m in ms && w == Put(location, m.key, m.property);
        assert m == ms[0] || m in ms[1..];
      }
    }
  }

  /** The puts of a push: one per mapping of a visited path, at that path's location. */
  lemma {:induction false} WritesIn(vs: seq<Visit>, location: Location, key: string, property: string)
    ensures Put(location, key, property) in Writes(vs) <==>
            exists i, m :: 0 <= i < |vs| && vs[i].location == location && m in vs[i].path.mappings &&
              m.key == key && m.property == property
    decreases |vs|
  {
    if vs != [] {
      var w := Put(location, key, property);
      WritesIn(vs[1..], location, key, property);
      PutsIn(vs[0].location, vs[0].path.mappings, w);
      assert w in Writes(vs) <==> w in Puts(vs[0].location, vs[0].path.mappings) || w in Writes(vs[1..]);
      if w in Writes(vs[1..]) {
        var i, m :| 0 <= i < |vs[1..]| && vs[1..][i].location == location && m in vs[1..][i].path.mappings &&
                    m.key == key && m.property == property;
        assert vs[1..][i] == vs[i + 1];
      }
      if exists i, m :: 0 <= i < |vs| && vs[i].location == location && m in vs[i].path.mappings &&
                        m.key == key && m.property == property {
        var i, m :| 0 <= i < |vs| && vs[i].location == location && m in vs[i].path.mappings &&
                    m.key == key && m.property == property;
        if i > 0 {
          assert vs[1..][i - 1] == vs[i];
        }
      }
    }
  }

  /** Every visited location is touched by the writes of the visits. */
  lemma {:induction false} VisitTouched(vs: seq<Visit>, i: int)
    requires 0 <= i < |vs|
    ensures Touched(Writes(vs), vs[i].location)
    decreases |vs|
  {
    if i == 0 {
      assert Writes(vs)[0] == Touch(vs[0].location);
    } else {
      VisitTouched(vs[1..], i - 1);
      var k :| 0 <= k < |Writes(vs[1..])| && Writes(vs[1..])[k].location == vs[1..][i - 1].location;
      assert Writes(vs)[|VisitWrites(vs[0])| + k] == Writes(vs[1..])[k];
    }
  }
}

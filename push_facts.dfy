/**
 * What a whole push amounts to: it succeeds exactly when every mapped property is defined;
 * it then performs the flat sequence of writes, logging one write per visited path, and opens
 * one connection per server that is not skipped. A failure stops at the first path with an
 * undefined property: that path is not written, every earlier path stays written. Keys that no
 * mapping names keep their stored values in every case.
 */
module PushFacts {
  import opened Wrappers
  import opened JavaLang
  import opened VaultApi
  import opened PathConfig
  import opened Sync
  import opened Reference

  /** The push state after the writes of the visits: the store has them applied and each visit is logged once. */
  function Pushed(properties: map<string, string>, st: PushState, vs: seq<Visit>): PushState
  {
    st.(store := Apply(properties, st.store, Writes(vs)), writes := st.writes + Locations(vs))
  }

  /** `ms[j]` is the first mapping whose property is undefined. */
  predicate FirstUndefined(properties: map<string, string>, ms: seq<Mapping>, j: int)
  {
    0 <= j < |ms| && PropertiesDefined(properties, ms[..j]) && ms[j].property !in properties
  }

  /**
   * A push of the visits that stopped at visit `n`: the visits before it were written in full,
   * and the property reported is that of the first mapping of visit `n` whose property is undefined.
   */
  predicate StoppedAt(properties: map<string, string>, st: PushState, vs: seq<Visit>, n: int, o: Outcome, result: PushState)
  {
    0 <= n < |vs| && Defined(properties, Writes(vs[..n])) &&
    result.store == Apply(properties, st.store, Writes(vs[..n])) &&
    result.writes == st.writes + Locations(vs[..n]) &&
    exists j :: 0 <= j < |vs[n].path.mappings| && FirstUndefined(properties, vs[n].path.mappings, j) &&
      o == Fail(NoSuchElementException(MissingPropertyMessage(vs[n].path.mappings[j].property)))
  }

  /** Some mapping of a visit to `location` names `key`. */
  predicate Mentioned(vs: seq<Visit>, location: Location, key: string)
  {
    exists i, m :: 0 <= i < |vs| && vs[i].location == location && m in vs[i].path.mappings && m.key == key
  }

  lemma {:induction false} DefinedConcat(properties: map<string, string>, a: seq<Write>, b: seq<Write>)
    ensures Defined(properties, a + b) <==> Defined(properties, a) && Defined(properties, b)
  {
    assert forall i :: 0 <= i < |a| ==> (a + b)[i] == a[i];
    assert forall i :: 0 <= i < |b| ==> (a + b)[|a| + i] == b[i];
  }

  lemma {:induction false} PutsDefined(properties: map<string, string>, location: Location, ms: seq<Mapping>)
    ensures Defined(properties, Puts(location, ms)) <==> PropertiesDefined(properties, ms)
    decreases |ms|
  {
    if ms != [] {
      assert ms == [ms[0]] + ms[1..];
      assert PropertiesDefined(properties, ms) <==>
             ms[0].property in properties && PropertiesDefined(properties, ms[1..]);
      var head := [Put(location, ms[0].key, ms[0].property)];
      assert |head| == 1 && head[0].Put? && head[0].property == ms[0].property;
      assert Defined(properties, head) <==> ms[0].property in properties;
      PutsDefined(properties, location, ms[1..]);
      DefinedConcat(properties, head, Puts(location, ms[1..]));
    }
  }

  /** Pushable visits are exactly those whose writes read defined properties only. */
  lemma {:induction false} PushableWrites(properties: map<string, string>, vs: seq<Visit>)
    ensures Pushable(properties, vs) <==> Defined(properties, Writes(vs))
    decreases |vs|
  {
    if vs != [] {
      PushableWrites(properties, vs[1..]);
      PutsDefined(properties, vs[0].location, vs[0].path.mappings);
      DefinedConcat(properties, [Touch(vs[0].location)], Puts(vs[0].location, vs[0].path.mappings));
      DefinedConcat(properties, VisitWrites(vs[0]), Writes(vs[1..]));
      assert Pushable(properties, vs) <==> PropertiesDefined(properties, vs[0].path.mappings) && Pushable(properties, vs[1..]) by {
        assert forall i :: 0 < i < |vs| ==> vs[1..][i - 1] == vs[i];
      }
    }
  }

  lemma {:induction false} PushedConcat(properties: map<string, string>, st: PushState, a: seq<Visit>, b: seq<Visit>)
    ensures Pushed(properties, Pushed(properties, st, a), b) == Pushed(properties, st, a + b)
  {
    var wa, wb, wab := Writes(a), Writes(b), Writes(a + b);
    var la, lb, lab := Locations(a), Locations(b), Locations(a + b);
    WritesConcat(a, b);
    LocationsConcat(a, b);
    ApplyConcat(properties, st.store, wa, wb);
    StoreAndLogConcat(properties, st, wa, wb, wab, la, lb, lab);
  }

  /** `PushedConcat` on the writes and locations themselves, kept apart from their definitions. */
  lemma {:induction false} StoreAndLogConcat(properties: map<string, string>, st: PushState, wa: seq<Write>, wb: seq<Write>,
                                             wab: seq<Write>, la: seq<Location>, lb: seq<Location>, lab: seq<Location>)
    requires wab == wa + wb && lab == la + lb
    requires Apply(properties, st.store, wab) == Apply(properties, Apply(properties, st.store, wa), wb)
    ensures var first := st.(store := Apply(properties, st.store, wa), writes := st.writes + la);
            first.(store := Apply(properties, first.store, wb), writes := first.writes + lb) ==
            st.(store := Apply(properties, st.store, wab), writes := st.writes + lab)
  {
    assert st.writes + la + lb == st.writes + lab;
  }

  lemma {:induction false} StoppedShift(properties: map<string, string>, st: PushState, a: seq<Visit>, b: seq<Visit>, n: int, o: Outcome, result: PushState)
    requires Defined(properties, Writes(a))
    requires StoppedAt(properties, Pushed(properties, st, a), b, n, o, result)
    ensures StoppedAt(properties, st, a + b, |a| + n, o, result)
  {
    assert (a + b)[..|a| + n] == a + b[..n];
    assert (a + b)[|a| + n] == b[n];
    PushedConcat(properties, st, a, b[..n]);
    WritesConcat(a, b[..n]);
    DefinedConcat(properties, Writes(a), Writes(b[..n]));
  }

  /** The mappings of one path, merged into a working map, amount to their puts at that path. */
  lemma {:induction false} PushMappingsEffect(properties: map<string, string>, ms: seq<Mapping>, secrets: Secrets, store: Store, location: Location)
    ensures PushMappings(properties, ms, secrets).Success? <==> PropertiesDefined(properties, ms)
    ensures PushMappings(properties, ms, secrets).Success? ==>
            Defined(properties, Puts(location, ms)) &&
            Apply(properties, store[location := secrets], Puts(location, ms)) == store[location := PushMappings(properties, ms, secrets).value]
    ensures PushMappings(properties, ms, secrets).Failure? ==>
            exists j :: FirstUndefined(properties, ms, j) &&
              PushMappings(properties, ms, secrets).error == NoSuchElementException(MissingPropertyMessage(ms[j].property))
    decreases |ms|
  {
    PutsDefined(properties, location, ms);
    if ms != [] {
      var m := ms[0];
      assert ms == [m] + ms[1..];
      if m.property in properties {
        var merged := secrets[m.key := properties[m.property]];
        PushMappingsEffect(properties, ms[1..], merged, store, location);
        var ws := Puts(location, ms);
        assert ws[0] == Put(location, m.key, m.property) && ws[1..] == Puts(location, ms[1..]);
        assert Step(properties, store[location := secrets], ws[0]) == store[location := merged];
        if PushMappings(properties, ms, secrets).Failure? {
          var j :| FirstUndefined(properties, ms[1..], j) &&
                   PushMappings(properties, ms[1..], merged).error == NoSuchElementException(MissingPropertyMessage(ms[1..][j].property));
          UndefinedAfterFirst(properties, ms, j);
        }
      } else {
        assert FirstUndefined(properties, ms, 0) by {
          assert ms[..0] == [];
        }
      }
    }
  }

  /** A first undefined property after a defined first one is the first undefined property of the whole list. */
  lemma {:induction false} UndefinedAfterFirst(properties: map<string, string>, ms: seq<Mapping>, j: int)
    requires ms != [] && ms[0].property in properties && FirstUndefined(properties, ms[1..], j)
    ensures FirstUndefined(properties, ms, j + 1) && ms[j + 1] == ms[1..][j]
  {
    assert ms[..j + 1] == [ms[0]] + ms[1..][..j];
  }

  /** The paths of one server. */
  lemma {:induction false} PushPathsEffect(properties: map<string, string>, address: string, paths: seq<Path>, st: PushState)
    ensures PushPaths(properties, address, paths, st).0 == Ok <==> Pushable(properties, PathVisits(address, paths))
    ensures PushPaths(properties, address, paths, st).1.connections == st.connections
    ensures PushPaths(properties, address, paths, st).0 == Ok ==>
            Defined(properties, Writes(PathVisits(address, paths))) &&
            PushPaths(properties, address, paths, st).1 == Pushed(properties, st, PathVisits(address, paths))
    ensures PushPaths(properties, address, paths, st).0.Fail? ==>
            exists n :: StoppedAt(properties, st, PathVisits(address, paths), n,
                                  PushPaths(properties, address, paths, st).0, PushPaths(properties, address, paths, st).1)
    decreases |paths|
  {
    var vs := PathVisits(address, paths);
    if paths != [] {
      var location := Location(address, paths[0].name);
      var v := Visit(location, paths[0]);
      var rest := PathVisits(address, paths[1..]);
      assert vs == [v] + rest;
      var base := Base(st.store, location);
      PushMappingsEffect(properties, paths[0].mappings, base, st.store, location);
      match PushMappings(properties, paths[0].mappings, base)
      case Failure(e) =>
        assert vs[0].path.mappings == paths[0].mappings;
        StoppedAtFirst(properties, st, vs, e);
        PushableWrites(properties, vs);
      case Success(secrets) =>
        var next := st.(store := st.store[location := secrets], writes := st.writes + [location]);
        PushedOneVisit(properties, st, v, secrets);
        PushPathsEffect(properties, address, paths[1..], next);
        var (o, result) := PushPaths(properties, address, paths[1..], next);
        assert PushPaths(properties, address, paths, st) == (o, result);
        PushVisitThenRest(properties, st, [v], rest, o, result);
    }
  }

  /** A visit whose mappings all merge into its base amounts to its writes, all of them defined. */
  lemma {:induction false} PushedOneVisit(properties: map<string, string>, st: PushState, v: Visit, secrets: Secrets)
    requires PushMappings(properties, v.path.mappings, Base(st.store, v.location)) == Success(secrets)
    ensures Defined(properties, Writes([v]))
    ensures Pushed(properties, st, [v]) == st.(store := st.store[v.location := secrets], writes := st.writes + [v.location])
  {
    var base := Base(st.store, v.location);
    PushMappingsEffect(properties, v.path.mappings, base, st.store, v.location);
    var ws := VisitWrites(v);
    assert Writes([v]) == ws by {
      assert [v][1..] == [];
    }
    assert ws[0] == Touch(v.location) && ws[1..] == Puts(v.location, v.path.mappings);
    assert Step(properties, st.store, ws[0]) == st.store[v.location := base];
    assert st.store[v.location := base][v.location := base] == st.store[v.location := base];
    DefinedConcat(properties, [Touch(v.location)], Puts(v.location, v.path.mappings));
    assert Locations([v]) == [v.location] by {
      assert [v][1..] == [];
    }
  }

  /** A push whose first visit maps an undefined property stops there, having written nothing. */
  lemma {:induction false} StoppedAtFirst(properties: map<string, string>, st: PushState, vs: seq<Visit>, e: Exception)
    requires vs != []
    requires exists j :: FirstUndefined(properties, vs[0].path.mappings, j) &&
                         e == NoSuchElementException(MissingPropertyMessage(vs[0].path.mappings[j].property))
    ensures StoppedAt(properties, st, vs, 0, Fail(e), st)
  {
    assert vs[..0] == [];
  }

  /** Composing a visit whose mappings all merged (`head`) with the push of the visits after it. */
  lemma {:induction false} PushVisitThenRest(properties: map<string, string>, st: PushState, head: seq<Visit>, rest: seq<Visit>,
                                             o: Outcome, result: PushState)
    requires Defined(properties, Writes(head))
    requires (o == Ok <==> Pushable(properties, rest)) &&
             (o == Ok ==> Defined(properties, Writes(rest)) && result == Pushed(properties, Pushed(properties, st, head), rest)) &&
             (o.Fail? ==> exists n :: StoppedAt(properties, Pushed(properties, st, head), rest, n, o, result))
    ensures o == Ok <==> Pushable(properties, head + rest)
    ensures o == Ok ==> Defined(properties, Writes(head + rest)) && result == Pushed(properties, st, head + rest)
    ensures o.Fail? ==> exists n :: StoppedAt(properties, st, head + rest, n, o, result)
  {
    PushableWrites(properties, head + rest);
    PushableWrites(properties, rest);
    WritesConcat(head, rest);
    DefinedConcat(properties, Writes(head), Writes(rest));
    if o == Ok {
      PushedConcat(properties, st, head, rest);
    } else {
      var n :| StoppedAt(properties, Pushed(properties, st, head), rest, n, o, result);
      StoppedShift(properties, st, head, rest, n, o, result);
      assert StoppedAt(properties, st, head + rest, |head| + n, o, result);
    }
  }

  /**
   * `push` as a whole: it succeeds iff every mapped property is defined; then the store has the
   * flat sequence of writes applied, exactly one write is logged per visited path and one
   * connection per server that is not skipped. Otherwise it stopped at the first visit with an
   * undefined property, with every earlier visit written and no later one.
   */
  lemma {:induction false} PushTargetsEffect(properties: map<string, string>, ts: seq<Target>, st: PushState)
    ensures PushTargets(properties, ts, st).0 == Ok <==> Pushable(properties, Visits(ts))
    ensures PushTargets(properties, ts, st).0 == Ok ==>
            Defined(properties, Writes(Visits(ts))) &&
            PushTargets(properties, ts, st).1 ==
            Pushed(properties, st, Visits(ts)).(connections := st.connections + Connections(ts))
    ensures PushTargets(properties, ts, st).0.Fail? ==>
            exists n :: StoppedAt(properties, st, Visits(ts), n, PushTargets(properties, ts, st).0, PushTargets(properties, ts, st).1)
    ensures PushTargets(properties, ts, st).1.connections <= st.connections + Connections(ts)
    decreases |ts|, 1
  {
    if ts == [] {
      assert Pushed(properties, st, []) == st;
    } else if ts[0].skip {
      PushTargetsEffect(properties, ts[1..], st);
    } else if PushPaths(properties, ts[0].config.address, ts[0].paths, st.(connections := st.connections + [ts[0].config])).0 == Ok {
      PushServerOk(properties, ts, st);
    } else {
      PushServerFail(properties, ts, st);
    }
  }

  /** The step of `PushTargetsEffect` for a first server that is not skipped and whose paths all push. */
  lemma {:induction false} PushServerOk(properties: map<string, string>, ts: seq<Target>, st: PushState)
    requires ts != [] && !ts[0].skip
    requires PushPaths(properties, ts[0].config.address, ts[0].paths, st.(connections := st.connections + [ts[0].config])).0 == Ok
    ensures PushTargets(properties, ts, st).0 == Ok <==> Pushable(properties, Visits(ts))
    ensures PushTargets(properties, ts, st).0 == Ok ==>
            Defined(properties, Writes(Visits(ts))) &&
            PushTargets(properties, ts, st).1 ==
            Pushed(properties, st, Visits(ts)).(connections := st.connections + Connections(ts))
    ensures PushTargets(properties, ts, st).0.Fail? ==>
            exists n :: StoppedAt(properties, st, Visits(ts), n, PushTargets(properties, ts, st).0, PushTargets(properties, ts, st).1)
    ensures PushTargets(properties, ts, st).1.connections <= st.connections + Connections(ts)
    decreases |ts|, 0
  {
    var t := ts[0];
    var head := PathVisits(t.config.address, t.paths);
    var rest := Visits(ts[1..]);
    assert Visits(ts) == head + rest;
    assert Connections(ts) == [t.config] + Connections(ts[1..]);
    var connected := st.(connections := st.connections + [t.config]);
    PushPathsEffect(properties, t.config.address, t.paths, connected);
    var next := PushPaths(properties, t.config.address, t.paths, connected).1;
    PushTargetsEffect(properties, ts[1..], next);
    var (o2, result) := PushTargets(properties, ts[1..], next);
    assert PushTargets(properties, ts, st) == (o2, result);
    PushServerThenRest(properties, st, t.config, head, rest, Connections(ts[1..]), o2, result);
  }

  /**
   * Composing a server whose paths all pushed (`head`) with the push of the servers after it
   * (`rest`, ending in `o2` and `result`, which opened the connections `tail`).
   */
  lemma {:induction false} PushServerThenRest(properties: map<string, string>, st: PushState, config: VaultConfig,
                                              head: seq<Visit>, rest: seq<Visit>, tail: seq<VaultConfig>,
                                              o2: Outcome, result: PushState)
    requires Defined(properties, Writes(head))
    requires var next := Pushed(properties, st.(connections := st.connections + [config]), head);
             (o2 == Ok <==> Pushable(properties, rest)) &&
             (o2 == Ok ==> Defined(properties, Writes(rest)) &&
                           result == Pushed(properties, next, rest).(connections := next.connections + tail)) &&
             (o2.Fail? ==> exists n :: StoppedAt(properties, next, rest, n, o2, result)) &&
             result.connections <= next.connections + tail
    ensures o2 == Ok <==> Pushable(properties, head + rest)
    ensures o2 == Ok ==>
            Defined(properties, Writes(head + rest)) &&
            result == Pushed(properties, st, head + rest).(connections := st.connections + ([config] + tail))
    ensures o2.Fail? ==> exists n :: StoppedAt(properties, st, head + rest, n, o2, result)
    ensures result.connections <= st.connections + ([config] + tail)
  {
    var connected := st.(connections := st.connections + [config]);
    var next := Pushed(properties, connected, head);
    PushableWrites(properties, head + rest);
    PushableWrites(properties, rest);
    WritesConcat(head, rest);
    DefinedConcat(properties, Writes(head), Writes(rest));
    assert st.connections + ([config] + tail) == next.connections + tail;
    if o2 == Ok {
      PushedConcat(properties, connected, head, rest);
    } else {
      var n :| StoppedAt(properties, next, rest, n, o2, result);
      StoppedShift(properties, connected, head, rest, n, o2, result);
      assert StoppedAt(properties, st, head + rest, |head| + n, o2, result);
    }
  }

  /** The step of `PushTargetsEffect` for a first server that is not skipped and stops at one of its paths. */
  lemma {:induction false} PushServerFail(properties: map<string, string>, ts: seq<Target>, st: PushState)
    requires ts != [] && !ts[0].skip
    requires PushPaths(properties, ts[0].config.address, ts[0].paths, st.(connections := st.connections + [ts[0].config])).0 != Ok
    ensures PushTargets(properties, ts, st).0 == Ok <==> Pushable(properties, Visits(ts))
    ensures PushTargets(properties, ts, st).0 == Ok ==>
            Defined(properties, Writes(Visits(ts))) &&
            PushTargets(properties, ts, st).1 ==
            Pushed(properties, st, Visits(ts)).(connections := st.connections + Connections(ts))
    ensures PushTargets(properties, ts, st).0.Fail? ==>
            exists n :: StoppedAt(properties, st, Visits(ts), n, PushTargets(properties, ts, st).0, PushTargets(properties, ts, st).1)
    ensures PushTargets(properties, ts, st).1.connections <= st.connections + Connections(ts)
  {
    var vs := Visits(ts);
    var t := ts[0];
    var head := PathVisits(t.config.address, t.paths);
    var rest := Visits(ts[1..]);
    assert vs == head + rest;
    PushableWrites(properties, vs);
    PushableWrites(properties, head);
    PushableWrites(properties, rest);
    DefinedConcat(properties, Writes(head), Writes(rest));
    WritesConcat(head, rest);
    var connected := st.(connections := st.connections + [t.config]);
    PushPathsEffect(properties, t.config.address, t.paths, connected);
    var (o, next) := PushPaths(properties, t.config.address, t.paths, connected);
    assert PushTargets(properties, ts, st) == (o, next);
    var n :| StoppedAt(properties, connected, head, n, o, next);
    assert (head + rest)[..n] == head[..n] && (head + rest)[n] == head[n];
    assert StoppedAt(properties, st, vs, n, o, next);
  }

  /** With every server skipped, push connects to nothing and writes nothing. */
  lemma {:induction false} PushAllSkipped(properties: map<string, string>, ts: seq<Target>, st: PushState)
    requires forall i :: 0 <= i < |ts| ==> ts[i].skip
    ensures PushTargets(properties, ts, st) == (Ok, st)
    decreases |ts|
  {
    if ts != [] {
      PushAllSkipped(properties, ts[1..], st);
    }
  }

  /** Without a mapping naming the key at the location, the writes put nothing there. */
  lemma {:induction false} UnmentionedNoPut(vs: seq<Visit>, location: Location, key: string)
    requires !Mentioned(vs, location, key)
    ensures LastPut(Writes(vs), location, key) == None
  {
    LastPutIn(Writes(vs), location, key);
    if LastPut(Writes(vs), location, key).Some? {
      var p := LastPut(Writes(vs), location, key).value;
      WritesIn(vs, location, key, p);
      assert false;
    }
  }

  /**
   * The merge invariant: a key that no mapping names at a location keeps its stored value
   * (or stays absent) after a push, whether the push succeeds or stops at an undefined property.
   */
  lemma {:induction false} PushKeepsUnmentioned(properties: map<string, string>, ts: seq<Target>, st: PushState, location: Location, key: string)
    requires !Mentioned(Visits(ts), location, key)
    ensures Lookup(PushTargets(properties, ts, st).1.store, location, key) == Lookup(st.store, location, key)
  {
    var vs := Visits(ts);
    PushTargetsEffect(properties, ts, st);
    var (o, result) := PushTargets(properties, ts, st);
    if o == Ok {
      UnmentionedNoPut(vs, location, key);
      ApplyLookup(properties, st.store, Writes(vs), location, key);
    } else {
      var n :| StoppedAt(properties, st, vs, n, o, result);
      UnmentionedNoPut(vs[..n], location, key);
      ApplyLookup(properties, st.store, Writes(vs[..n]), location, key);
    }
  }
}

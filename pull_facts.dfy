/**
 * What a whole pull amounts to: it succeeds exactly when every visited path is stored and
 * holds every key its mappings name; it then performs the flat sequence of assignments
 * (so the last mapping to a property wins) and opens one connection per server that is not
 * skipped. A failure stops at the first path not stored or the first missing key, reports it,
 * and keeps every assignment made before it.
 */
module PullFacts {
  import opened Wrappers
  import opened JavaLang
  import opened VaultApi
  import opened PathConfig
  import opened Output
  import opened Sync
  import opened Reference

  /** `ms[j]` is the first mapping whose key is missing from the secrets. */
  predicate FirstMissing(secrets: Secrets, ms: seq<Mapping>, j: int)
  {
    0 <= j < |ms| && KeysPresent(secrets, ms[..j]) && ms[j].key !in secrets
  }

  /**
   * A pull of the visits that stopped at visit `n`, having started from the sinks `sinks0`: the
   * visits before it were pulled in full and nothing is rolled back. Either visit `n` is not
   * stored, and the read throws; or `ms[j]` is the first of its mappings whose key is missing,
   * the mappings before it were delivered, and the exception names that path and key.
   */
  predicate PulledUntil(output: Option<OutputMethod>, store: Store, vs: seq<Visit>, n: int, j: int,
                        sinks0: Sinks, o: Outcome, sinks: Sinks)
  {
    0 <= n < |vs| && Pullable(store, vs[..n]) &&
    if vs[n].location !in store then
      o == Fail(VaultException(NotFoundMessage)) &&
      sinks == Delivered(output, sinks0, Assignments(store, vs[..n]))
    else
      FirstMissing(store[vs[n].location], vs[n].path.mappings, j) &&
      o == Fail(NoSuchElementException(MissingKeyMessage(vs[n].path.name, vs[n].path.mappings[j].key))) &&
      sinks == Delivered(output, sinks0, Assignments(store, vs[..n]) +
                                         MappingAssignments(store[vs[n].location], vs[n].path.mappings[..j]))
  }

  lemma {:induction false} PullableConcat(store: Store, a: seq<Visit>, b: seq<Visit>)
    ensures Pullable(store, a + b) <==> Pullable(store, a) && Pullable(store, b)
  {
    assert forall i :: 0 <= i < |a| ==> (a + b)[i] == a[i];
    assert forall i :: 0 <= i < |b| ==> (a + b)[|a| + i] == b[i];
  }

  lemma {:induction false} AssignmentsConcat(store: Store, a: seq<Visit>, b: seq<Visit>)
    requires Pullable(store, a) && Pullable(store, b)
    ensures Pullable(store, a + b)
    ensures Assignments(store, a + b) == Assignments(store, a) + Assignments(store, b)
    decreases |a|
  {
    PullableConcat(store, a, b);
    if a == [] {
      assert a + b == b;
    } else {
      assert (a + b)[0] == a[0] && (a + b)[1..] == a[1..] + b;
      AssignmentsConcat(store, a[1..], b);
    }
  }

  /** Delivering no assignment changes no sink. */
  lemma {:induction false} DeliveredNothing(output: Option<OutputMethod>, sinks: Sinks)
    ensures Delivered(output, sinks, []) == sinks
  {
  }

  /** A pull that stopped within `a` stopped at the same place within `a + b`. */
  lemma {:induction false} PulledExtend(output: Option<OutputMethod>, store: Store, a: seq<Visit>, b: seq<Visit>, n: int, j: int,
                                        sinks0: Sinks, o: Outcome, sinks: Sinks)
    requires PulledUntil(output, store, a, n, j, sinks0, o, sinks)
    ensures PulledUntil(output, store, a + b, n, j, sinks0, o, sinks)
  {
    assert (a + b)[..n] == a[..n] && (a + b)[n] == a[n];
  }

  /** A pull that stopped within `b`, after `a` was pulled in full, stopped within `a + b`. */
  lemma {:induction false} PulledShift(output: Option<OutputMethod>, store: Store, a: seq<Visit>, b: seq<Visit>, n: int, j: int,
                                       sinks0: Sinks, o: Outcome, sinks: Sinks)
    requires Pullable(store, a)
    requires PulledUntil(output, store, b, n, j, Delivered(output, sinks0, Assignments(store, a)), o, sinks)
    ensures PulledUntil(output, store, a + b, |a| + n, j, sinks0, o, sinks)
  {
    assert (a + b)[..|a| + n] == a + b[..n] && (a + b)[|a| + n] == b[n];
    PullableConcat(store, a, b[..n]);
    AssignmentsConcat(store, a, b[..n]);
    var first := Assignments(store, a);
    var middle := Assignments(store, b[..n]);
    if b[n].location !in store {
      DeliveredConcat(output, sinks0, first, middle);
    } else {
      var last := MappingAssignments(store[b[n].location], b[n].path.mappings[..j]);
      DeliveredConcat(output, sinks0, first, middle + last);
      assert first + (middle + last) == (first + middle) + last;
    }
  }

  /**
   * The mappings of one path succeed iff every key is stored, and then deliver their assignments
   * in order. Otherwise the first mapping whose key is missing is reported, with the mappings
   * before it delivered.
   */
  lemma {:induction false} PullMappingsEffect(output: Option<OutputMethod>, path: string, secrets: Secrets, ms: seq<Mapping>, sinks: Sinks)
    ensures PullMappings(output, path, secrets, ms, sinks).0 == Ok <==> KeysPresent(secrets, ms)
    ensures PullMappings(output, path, secrets, ms, sinks).0 == Ok ==>
            PullMappings(output, path, secrets, ms, sinks).1 == Delivered(output, sinks, MappingAssignments(secrets, ms))
    ensures PullMappings(output, path, secrets, ms, sinks).0.Fail? ==>
            exists j :: 0 <= j < |ms| && FirstMissing(secrets, ms, j) &&
              PullMappings(output, path, secrets, ms, sinks).0 == Fail(NoSuchElementException(MissingKeyMessage(path, ms[j].key))) &&
              PullMappings(output, path, secrets, ms, sinks).1 == Delivered(output, sinks, MappingAssignments(secrets, ms[..j]))
    decreases |ms|
  {
    if ms != [] {
      var m := ms[0];
      assert KeysPresent(secrets, ms) <==> m.key in secrets && KeysPresent(secrets, ms[1..]) by {
        assert ms == [m] + ms[1..];
      }
      if m.key in secrets {
        var a := [Assignment(m.property, secrets[m.key])];
        PullMappingDelivers(output, path, secrets, m, sinks);
        var next := Delivered(output, sinks, a);
        PullMappingsEffect(output, path, secrets, ms[1..], next);
        var (o2, result) := PullMappings(output, path, secrets, ms[1..], next);
        assert PullMappings(output, path, secrets, ms, sinks) == (o2, result);
        if o2 == Ok {
          MappingAssignmentsCons(secrets, ms);
          DeliveredConcat(output, sinks, a, MappingAssignments(secrets, ms[1..]));
        } else {
          var j :| 0 <= j < |ms[1..]| && FirstMissing(secrets, ms[1..], j) &&
                   o2 == Fail(NoSuchElementException(MissingKeyMessage(path, ms[1..][j].key))) &&
                   result == Delivered(output, next, MappingAssignments(secrets, ms[1..][..j]));
          MissingAfterFirst(output, secrets, ms, j, sinks);
        }
      } else {
        assert ms[..0] == [];
        assert FirstMissing(secrets, ms, 0);
        DeliveredNothing(output, sinks);
      }
    }
  }

  /** One mapping whose key is stored delivers its single assignment. */
  lemma {:induction false} PullMappingDelivers(output: Option<OutputMethod>, path: string, secrets: Secrets, m: Mapping, sinks: Sinks)
    requires m.key in secrets
    ensures PullMapping(output, path, secrets, m, sinks) == (Ok, Delivered(output, sinks, [Assignment(m.property, secrets[m.key])]))
  {
    var a := [Assignment(m.property, secrets[m.key])];
    assert a[1..] == [];
    var table := sinks.properties[m.property := secrets[m.key]];
    assert Assign(sinks.properties, a) == table;
    assert Assign(sinks.system, a) == sinks.system[m.property := secrets[m.key]];
    if output == Some(MavenProperties) {
      assert table[m.property := secrets[m.key]] == table;
    }
  }

  /** The assignments of a mapping list are those of its first mapping, then of the rest. */
  lemma {:induction false} MappingAssignmentsCons(secrets: Secrets, ms: seq<Mapping>)
    requires ms != [] && ms[0].key in secrets && KeysPresent(secrets, ms[1..])
    ensures KeysPresent(secrets, ms)
    ensures MappingAssignments(secrets, ms) == [Assignment(ms[0].property, secrets[ms[0].key])] + MappingAssignments(secrets, ms[1..])
  {
    assert ms == [ms[0]] + ms[1..];
  }

  /** A first missing key after a stored first key: the mappings before it are the first one and those before it in the rest. */
  lemma {:induction false} MissingAfterFirst(output: Option<OutputMethod>, secrets: Secrets, ms: seq<Mapping>, j: int, sinks: Sinks)
    requires ms != [] && ms[0].key in secrets && FirstMissing(secrets, ms[1..], j)
    ensures FirstMissing(secrets, ms, j + 1) && ms[j + 1] == ms[1..][j]
    ensures Delivered(output, Delivered(output, sinks, [Assignment(ms[0].property, secrets[ms[0].key])]),
                      MappingAssignments(secrets, ms[1..][..j])) ==
            Delivered(output, sinks, MappingAssignments(secrets, ms[..j + 1]))
  {
    var prefix := ms[..j + 1];
    assert prefix[0] == ms[0] && prefix[1..] == ms[1..][..j];
    assert prefix == [ms[0]] + ms[1..][..j];
    assert FirstMissing(secrets, ms, j + 1);
    MappingAssignmentsCons(secrets, prefix);
    DeliveredConcat(output, sinks, [Assignment(ms[0].property, secrets[ms[0].key])], MappingAssignments(secrets, ms[1..][..j]));
  }

  /**
   * The paths of one server succeed iff each is stored and holds its keys; the sinks then receive
   * the assignments in order. Otherwise the pull stopped at the first failing path, as `PulledUntil` says.
   */
  lemma {:induction false} PullPathsEffect(output: Option<OutputMethod>, store: Store, address: string, paths: seq<Path>, sinks: Sinks)
    ensures PullPaths(output, store, address, paths, sinks).0 == Ok <==> Pullable(store, PathVisits(address, paths))
    ensures PullPaths(output, store, address, paths, sinks).0 == Ok ==>
            PullPaths(output, store, address, paths, sinks).1 == Delivered(output, sinks, Assignments(store, PathVisits(address, paths)))
    ensures PullPaths(output, store, address, paths, sinks).0.Fail? ==>
            exists n, j :: PulledUntil(output, store, PathVisits(address, paths), n, j, sinks,
                                       PullPaths(output, store, address, paths, sinks).0, PullPaths(output, store, address, paths, sinks).1)
    decreases |paths|
  {
    var vs := PathVisits(address, paths);
    if paths != [] {
      var location := Location(address, paths[0].name);
      var head := [Visit(location, paths[0])];
      var rest := PathVisits(address, paths[1..]);
      assert vs == head + rest;
      assert vs[0] == head[0];
      if location !in store {
        PulledAtFirst(output, store, vs, 0, sinks, Fail(VaultException(NotFoundMessage)), sinks);
      } else {
        var secrets := store[location];
        PullMappingsEffect(output, paths[0].name, secrets, paths[0].mappings, sinks);
        var (o, next) := PullMappings(output, paths[0].name, secrets, paths[0].mappings, sinks);
        if o == Ok {
          assert Pullable(store, head);
          assert Assignments(store, head) == MappingAssignments(secrets, paths[0].mappings);
          PullPathsEffect(output, store, address, paths[1..], next);
          var (o2, result) := PullPaths(output, store, address, paths[1..], next);
          assert PullPaths(output, store, address, paths, sinks) == (o2, result);
          PullVisitThenRest(output, store, head, rest, sinks, o2, result);
        } else {
          var j :| 0 <= j < |paths[0].mappings| && FirstMissing(secrets, paths[0].mappings, j) &&
                   o == Fail(NoSuchElementException(MissingKeyMessage(paths[0].name, paths[0].mappings[j].key))) &&
                   next == Delivered(output, sinks, MappingAssignments(secrets, paths[0].mappings[..j]));
          PulledAtFirst(output, store, vs, j, sinks, o, next);
        }
      }
    }
  }

  /** A pull whose first visit is not stored, or misses a key, stops there with only that visit's earlier mappings delivered. */
  lemma {:induction false} PulledAtFirst(output: Option<OutputMethod>, store: Store, vs: seq<Visit>, j: int,
                                         sinks0: Sinks, o: Outcome, sinks: Sinks)
    requires vs != []
    requires vs[0].location !in store ==> o == Fail(VaultException(NotFoundMessage)) && sinks == sinks0
    requires vs[0].location in store ==>
             FirstMissing(store[vs[0].location], vs[0].path.mappings, j) &&
             o == Fail(NoSuchElementException(MissingKeyMessage(vs[0].path.name, vs[0].path.mappings[j].key))) &&
             sinks == Delivered(output, sinks0, MappingAssignments(store[vs[0].location], vs[0].path.mappings[..j]))
    ensures PulledUntil(output, store, vs, 0, j, sinks0, o, sinks)
  {
    assert vs[..0] == [];
    assert Assignments(store, vs[..0]) == [];
    if vs[0].location !in store {
      DeliveredNothing(output, sinks0);
    } else {
      var last := MappingAssignments(store[vs[0].location], vs[0].path.mappings[..j]);
      assert [] + last == last;
    }
  }

  /** Composing a visit pulled in full (`head`) with the pull of the visits after it. */
  lemma {:induction false} PullVisitThenRest(output: Option<OutputMethod>, store: Store, head: seq<Visit>, rest: seq<Visit>,
                                             sinks: Sinks, o: Outcome, result: Sinks)
    requires Pullable(store, head)
    requires var next := Delivered(output, sinks, Assignments(store, head));
             (o == Ok <==> Pullable(store, rest)) &&
             (o == Ok ==> result == Delivered(output, next, Assignments(store, rest))) &&
             (o.Fail? ==> exists n, j :: PulledUntil(output, store, rest, n, j, next, o, result))
    ensures o == Ok <==> Pullable(store, head + rest)
    ensures o == Ok ==> result == Delivered(output, sinks, Assignments(store, head + rest))
    ensures o.Fail? ==> exists n, j :: PulledUntil(output, store, head + rest, n, j, sinks, o, result)
  {
    PullableConcat(store, head, rest);
    if o == Ok {
      AssignmentsConcat(store, head, rest);
      DeliveredConcat(output, sinks, Assignments(store, head), Assignments(store, rest));
    } else {
      var n, j :| PulledUntil(output, store, rest, n, j, Delivered(output, sinks, Assignments(store, head)), o, result);
      PulledShift(output, store, head, rest, n, j, sinks, o, result);
    }
  }

  /**
   * `pull` as a whole: it succeeds iff every visited path is stored and holds every mapped key;
   * then the sinks have received the flat sequence of assignments in server, path, mapping order
   * and exactly one connection was opened per server that is not skipped. A failure stops at the
   * first path not stored or the first missing key, with every assignment before it kept, and the
   * connections opened up to it are a prefix of those.
   */
  lemma {:induction false} PullTargetsEffect(output: Option<OutputMethod>, store: Store, ts: seq<Target>, st: PullState)
    ensures PullTargets(output, store, ts, st).0 == Ok <==> Pullable(store, Visits(ts))
    ensures PullTargets(output, store, ts, st).0 == Ok ==>
            PullTargets(output, store, ts, st).1 ==
            PullState(Delivered(output, st.sinks, Assignments(store, Visits(ts))), st.connections + Connections(ts))
    ensures PullTargets(output, store, ts, st).0.Fail? ==>
            exists n, j :: PulledUntil(output, store, Visits(ts), n, j, st.sinks,
                                       PullTargets(output, store, ts, st).0, PullTargets(output, store, ts, st).1.sinks)
    ensures PullTargets(output, store, ts, st).1.connections <= st.connections + Connections(ts)
    decreases |ts|
  {
    if ts == [] {
      assert Delivered(output, st.sinks, []) == st.sinks;
    } else if ts[0].skip {
      PullTargetsEffect(output, store, ts[1..], st);
    } else {
      var t := ts[0];
      var head := PathVisits(t.config.address, t.paths);
      var rest := Visits(ts[1..]);
      PullableConcat(store, head, rest);
      PullPathsEffect(output, store, t.config.address, t.paths, st.sinks);
      var (o, sinks) := PullPaths(output, store, t.config.address, t.paths, st.sinks);
      var next := PullState(sinks, st.connections + [t.config]);
      assert st.connections + Connections(ts) == next.connections + Connections(ts[1..]);
      if o == Ok {
        PullTargetsEffect(output, store, ts[1..], next);
        if Pullable(store, rest) {
          AssignmentsConcat(store, head, rest);
          DeliveredConcat(output, st.sinks, Assignments(store, head), Assignments(store, rest));
        } else {
          var (o2, result) := PullTargets(output, store, ts[1..], next);
          var n, j :| PulledUntil(output, store, rest, n, j, sinks, o2, result.sinks);
          PulledShift(output, store, head, rest, n, j, st.sinks, o2, result.sinks);
        }
      } else {
        var n, j :| PulledUntil(output, store, head, n, j, st.sinks, o, sinks);
        PulledExtend(output, store, head, rest, n, j, st.sinks, o, sinks);
      }
    }
  }

  /** With every server skipped, pull connects to nothing and changes nothing. */
  lemma {:induction false} PullAllSkipped(output: Option<OutputMethod>, store: Store, ts: seq<Target>, st: PullState)
    requires forall i :: 0 <= i < |ts| ==> ts[i].skip
    ensures PullTargets(output, store, ts, st) == (Ok, st)
    decreases |ts|
  {
    if ts != [] {
      PullAllSkipped(output, store, ts[1..], st);
    }
  }

  /** After a successful pull each mapped property holds the value of the last mapping to it. */
  lemma {:induction false} PullLastMappingWins(output: Option<OutputMethod>, store: Store, ts: seq<Target>, st: PullState, property: string)
    requires PullTargets(output, store, ts, st).0 == Ok
    ensures Pullable(store, Visits(ts))
    ensures var last := LastValue(Assignments(store, Visits(ts)), property);
            MapGet(PullTargets(output, store, ts, st).1.sinks.properties, property) ==
            if last.Some? then last else MapGet(st.sinks.properties, property)
  {
    PullTargetsEffect(output, store, ts, st);
    AssignLastWins(st.sinks.properties, Assignments(store, Visits(ts)), property);
  }
}

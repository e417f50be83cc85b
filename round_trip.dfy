/**
 * Push followed by pull over the same servers. When no two mappings of the same location name
 * the same key with different properties, a successful push stores every mapped property under
 * its key, and a pull of the pushed store then succeeds and brings every mapped property back
 * with the value it was pushed with. Pulling back into the same properties changes nothing.
 */
module RoundTrip {
  import opened Wrappers
  import opened JavaLang
  import opened VaultApi
  import opened PathConfig
  import opened Output
  import opened Sync
  import opened Reference
  import opened PullFacts
  import opened PushFacts

  /** Two mappings that name the same key at the same location name the same property. */
  predicate Consistent(vs: seq<Visit>)
  {
    forall i, j, m1, m2 ::
      (0 <= i < |vs| && 0 <= j < |vs| && vs[i].location == vs[j].location &&
       m1 in vs[i].path.mappings && m2 in vs[j].path.mappings && m1.key == m2.key) ==> m1.property == m2.property
  }

  /** Distinct locations and distinct keys within each path are one way to be consistent. */
  lemma {:induction false} DistinctKeysConsistent(vs: seq<Visit>)
    requires forall i, j :: 0 <= i < j < |vs| ==> vs[i].location != vs[j].location
    requires forall i, a, b :: 0 <= i < |vs| && 0 <= a < b < |vs[i].path.mappings| ==>
               vs[i].path.mappings[a].key != vs[i].path.mappings[b].key
    ensures Consistent(vs)
  {
    forall i, j, m1, m2 | 0 <= i < |vs| && 0 <= j < |vs| && vs[i].location == vs[j].location &&
                          m1 in vs[i].path.mappings && m2 in vs[j].path.mappings && m1.key == m2.key
      ensures m1.property == m2.property
    {
      var ms := vs[i].path.mappings;
      var a :| 0 <= a < |ms| && ms[a] == m1;
      var b :| 0 <= b < |ms| && ms[b] == m2;
      assert a == b;
    }
  }

  /** After a successful consistent push, every mapped key holds the value of its property. */
  lemma {:induction false} PushStores(properties: map<string, string>, ts: seq<Target>, st: PushState)
    requires PushTargets(properties, ts, st).0 == Ok
    requires Consistent(Visits(ts))
    ensures forall i, m :: 0 <= i < |Visits(ts)| && m in Visits(ts)[i].path.mappings ==>
              m.property in properties &&
              Lookup(PushTargets(properties, ts, st).1.store, Visits(ts)[i].location, m.key) == Some(properties[m.property])
    ensures forall i :: 0 <= i < |Visits(ts)| ==> Visits(ts)[i].location in PushTargets(properties, ts, st).1.store
  {
    var vs := Visits(ts);
    var ws := Writes(vs);
    PushTargetsEffect(properties, ts, st);
    PushableWrites(properties, vs);
    var store := PushTargets(properties, ts, st).1.store;
    assert store == Apply(properties, st.store, ws);
    forall i, m | 0 <= i < |vs| && m in vs[i].path.mappings
      ensures m.property in properties && Lookup(store, vs[i].location, m.key) == Some(properties[m.property])
    {
      var location := vs[i].location;
      WritesIn(vs, location, m.key, m.property);
      LastPutIn(ws, location, m.key);
      var p := LastPut(ws, location, m.key).value;
      WritesIn(vs, location, m.key, p);
      var j, m2 :| 0 <= j < |vs| && vs[j].location == location && m2 in vs[j].path.mappings && m2.key == m.key && m2.property == p;
      assert p == m.property;
      ApplyLookup(properties, st.store, ws, location, m.key);
    }
    forall i | 0 <= i < |vs|
      ensures vs[i].location in store
    {
      VisitTouched(vs, i);
      ApplyDomain(properties, st.store, ws, vs[i].location);
    }
  }

  /** If every assignment sets a property to its value in `properties`, so does performing them. */
  lemma {:induction false} AssignFaithful(table: map<string, string>, asg: seq<Assignment>, properties: map<string, string>, property: string)
    requires forall a :: a in asg ==> a.property in properties && a.value == properties[a.property]
    ensures LastValue(asg, property).Some? ==>
            property in properties && MapGet(Assign(table, asg), property) == Some(properties[property])
    ensures LastValue(asg, property).None? ==> MapGet(Assign(table, asg), property) == MapGet(table, property)
  {
    AssignLastWins(table, asg, property);
    LastValueIn(asg, property);
  }

  /**
   * Push then pull: a successful consistent push of `properties`, followed by a pull of the
   * pushed store over the same servers, succeeds and sets every mapped property to its pushed value;
   * a property that was not pushed, or that no mapping names, keeps the value it had before the pull.
   */
  lemma {:induction false} PushThenPull(properties: map<string, string>, ts: seq<Target>, pushState: PushState,
                                        output: Option<OutputMethod>, pullState: PullState)
    requires PushTargets(properties, ts, pushState).0 == Ok
    requires Consistent(Visits(ts))
    ensures PullTargets(output, PushTargets(properties, ts, pushState).1.store, ts, pullState).0 == Ok
    ensures forall i, m :: 0 <= i < |Visits(ts)| && m in Visits(ts)[i].path.mappings ==>
              m.property in properties &&
              MapGet(PullTargets(output, PushTargets(properties, ts, pushState).1.store, ts, pullState).1.sinks.properties, m.property)
                == Some(properties[m.property])
    ensures forall property :: property !in properties ==>
              MapGet(PullTargets(output, PushTargets(properties, ts, pushState).1.store, ts, pullState).1.sinks.properties, property)
                == MapGet(pullState.sinks.properties, property)
    ensures forall property ::
              (forall i, m :: 0 <= i < |Visits(ts)| && m in Visits(ts)[i].path.mappings ==> m.property != property) ==>
              MapGet(PullTargets(output, PushTargets(properties, ts, pushState).1.store, ts, pullState).1.sinks.properties, property)
                == MapGet(pullState.sinks.properties, property)
  {
    var vs := Visits(ts);
    var store := PushTargets(properties, ts, pushState).1.store;
    PushStores(properties, ts, pushState);
    assert Pullable(store, vs) by {
      forall i | 0 <= i < |vs|
        ensures vs[i].location in store && KeysPresent(store[vs[i].location], vs[i].path.mappings)
      {
        forall m | m in vs[i].path.mappings
          ensures m.key in store[vs[i].location]
        {
          assert Lookup(store, vs[i].location, m.key).Some?;
        }
      }
    }
    PullTargetsEffect(output, store, ts, pullState);
    var asg := Assignments(store, vs);
    var pulled := PullTargets(output, store, ts, pullState).1.sinks.properties;
    assert pulled == Assign(pullState.sinks.properties, asg);
    forall a | a in asg
      ensures a.property in properties && a.value == properties[a.property]
    {
      AssignmentsIn(store, vs, a);
      var i, m :| 0 <= i < |vs| && m in vs[i].path.mappings && a == Assignment(m.property, store[vs[i].location][m.key]);
      assert Lookup(store, vs[i].location, m.key) == Some(properties[m.property]);
    }
    forall i, m | 0 <= i < |vs| && m in vs[i].path.mappings
      ensures m.property in properties && MapGet(pulled, m.property) == Some(properties[m.property])
    {
      var a := Assignment(m.property, store[vs[i].location][m.key]);
      AssignmentsIn(store, vs, a);
      LastValueIn(asg, m.property);
      AssignFaithful(pullState.sinks.properties, asg, properties, m.property);
    }
    forall property | property !in properties
      ensures MapGet(pulled, property) == MapGet(pullState.sinks.properties, property)
    {
      LastValueIn(asg, property);
      AssignLastWins(pullState.sinks.properties, asg, property);
    }
    forall property | forall i, m :: 0 <= i < |vs| && m in vs[i].path.mappings ==> m.property != property
      ensures MapGet(pulled, property) == MapGet(pullState.sinks.properties, property)
    {
      forall v
        ensures Assignment(property, v) !in asg
      {
        AssignmentsIn(store, vs, Assignment(property, v));
      }
      LastValueIn(asg, property);
      AssignLastWins(pullState.sinks.properties, asg, property);
    }
  }

  /** Pulling a consistent push back into the very properties that were pushed leaves them as they were. */
  lemma {:induction false} PushThenPullSame(properties: map<string, string>, ts: seq<Target>, pushState: PushState,
                                            output: Option<OutputMethod>, pullState: PullState)
    requires PushTargets(properties, ts, pushState).0 == Ok
    requires Consistent(Visits(ts))
    requires pullState.sinks.properties == properties
    ensures PullTargets(output, PushTargets(properties, ts, pushState).1.store, ts, pullState).0 == Ok
    ensures PullTargets(output, PushTargets(properties, ts, pushState).1.store, ts, pullState).1.sinks.properties == properties
  {
    var vs := Visits(ts);
    var store := PushTargets(properties, ts, pushState).1.store;
    PushThenPull(properties, ts, pushState, output, pullState);
    PushStores(properties, ts, pushState);
    PullTargetsEffect(output, store, ts, pullState);
    var asg := Assignments(store, vs);
    var pulled := PullTargets(output, store, ts, pullState).1.sinks.properties;
    forall a | a in asg
      ensures a.property in properties && a.value == properties[a.property]
    {
      AssignmentsIn(store, vs, a);
      var i, m :| 0 <= i < |vs| && m in vs[i].path.mappings && a == Assignment(m.property, store[vs[i].location][m.key]);
      assert Lookup(store, vs[i].location, m.key) == Some(properties[m.property]);
    }
    forall property
      ensures MapGet(pulled, property) == MapGet(properties, property)
    {
      AssignFaithful(properties, asg, properties, property);
    }
    MapGetExtensional(pulled, properties);
  }

  /** Two maps that agree on every key are equal. */
  lemma {:induction false} MapGetExtensional(a: map<string, string>, b: map<string, string>)
    requires forall k :: MapGet(a, k) == MapGet(b, k)
    ensures a == b
  {
    assert forall k :: k in a <==> MapGet(a, k).Some?;
    assert forall k :: k in b <==> MapGet(b, k).Some?;
    assert a.Keys == b.Keys;
    forall k | k in a
      ensures a[k] == b[k]
    {
      assert MapGet(a, k) == MapGet(b, k);
    }
  }
}

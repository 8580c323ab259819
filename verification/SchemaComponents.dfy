/**
 * The components section of the finished document: no reference dangles, and
 * the section depends on the set of described types only.
 */
module SchemaComponents {
  import opened Wrappers
  import opened SchemaShape
  import opened SchemaBuilder
  import opened SchemaMeaning
  import opened SchemaEncoding

  /** Every reference in the components resolves. */
  ghost predicate NoDanglingEntries(defs: Defs) {
    forall n :: n in defs ==> Resolves(defs[n], defs.Keys)
  }

  ghost predicate NoDanglingRefs(schemas: seq<Schema>, defs: Defs) {
    forall s :: s in schemas ==> Resolves(s, defs.Keys)
  }

  /** Package and type name tell named structs apart. */
  ghost predicate DistinctNames(g: Graph) {
    forall u, v, n :: IsNamed(g, u, n) && IsNamed(g, v, n) ==> u == v
  }

  ghost predicate InGraph(g: Graph, types: seq<TypeId>) {
    forall i :: 0 <= i < |types| ==> types[i] < |g|
  }

  ghost function Roots(g: Graph, rk: Ranks, types: seq<TypeId>): set<string>
    requires Guarded(g, rk) && InGraph(g, types)
  {
    set i, n | 0 <= i < |types| && n in Describe(g, rk, types[i]).mentions :: n
  }

  /** defs describes what is reachable from roots and nothing else. */
  ghost predicate Complete(g: Graph, rk: Ranks, roots: set<string>, defs: Defs)
    requires Guarded(g, rk)
  {
    && Closed(g, rk, defs, {})
    && roots <= defs.Keys
    && forall n :: n in defs ==> Reachable(g, rk, roots, n)
  }

  lemma CompleteHasNoDangling(g: Graph, rk: Ranks, roots: set<string>, defs: Defs)
    requires Guarded(g, rk) && Complete(g, rk, roots, defs)
    ensures NoDanglingEntries(defs)
  {
    forall n | n in defs ensures Resolves(defs[n], defs.Keys) {
      assert Settled(g, rk, defs, {}, n);
      var u :| Describes(g, rk, u, n, defs[n]) && Collect(g, rk, u, 0).mentions <= defs.Keys + {};
      BodyResolves(g, rk, u, defs.Keys);
    }
  }

  lemma BodyResolves(g: Graph, rk: Ranks, u: TypeId, names: set<string>)
    requires Guarded(g, rk) && u < |g| && Collect(g, rk, u, 0).mentions <= names
    ensures Resolves(Body(Collect(g, rk, u, 0)), names)
  {
    var m := Collect(g, rk, u, 0);
    MembersResolve(g, rk, u, 0);
    forall p | p in m.properties ensures Resolves(m.properties[p], names) {
      ResolvesInMore(m.properties[p], m.mentions, names);
    }
  }

  /** With distinct names the described names are exactly the reachable ones. */
  lemma CompleteIsReachable(g: Graph, rk: Ranks, roots: set<string>, defs: Defs)
    requires Guarded(g, rk) && Complete(g, rk, roots, defs) && DistinctNames(g)
    ensures forall n :: n in defs <==> Reachable(g, rk, roots, n)
  {
    forall u, n | IsNamed(g, u, n) && n in defs.Keys ensures Collect(g, rk, u, 0).mentions <= defs.Keys {
      assert Settled(g, rk, defs, {}, n);
    }
    assert ClosedNames(g, rk, defs.Keys);
    forall n | Reachable(g, rk, roots, n) ensures n in defs {
      assert n in defs.Keys;
    }
  }

  /** Whatever the order of the routes, the same types give the same components. */
  lemma ComponentsAreDetermined(g: Graph, rk: Ranks, roots: set<string>, a: Defs, b: Defs)
    requires Guarded(g, rk) && DistinctNames(g)
    requires Complete(g, rk, roots, a) && Complete(g, rk, roots, b)
    ensures a == b
  {
    CompleteIsReachable(g, rk, roots, a);
    CompleteIsReachable(g, rk, roots, b);
    assert a.Keys == b.Keys;
    forall n | n in a ensures a[n] == b[n] {
      assert Settled(g, rk, a, {}, n) && Settled(g, rk, b, {}, n);
    }
  }

  /** A complete description leaves no unknown kind behind. */
  lemma CompleteIsSupported(g: Graph, rk: Ranks, roots: set<string>, defs: Defs)
    requires Guarded(g, rk) && Complete(g, rk, roots, defs) && DistinctNames(g)
    ensures !ReachesUnsupported(g, rk, roots)
  {
    CompleteIsReachable(g, rk, roots, defs);
    forall u, n | IsNamed(g, u, n) && Reachable(g, rk, roots, n) ensures Collect(g, rk, u, 0).supported {
      assert Settled(g, rk, defs, {}, n);
    }
  }

  lemma RootsGrow(g: Graph, rk: Ranks, types: seq<TypeId>, i: nat)
    requires Guarded(g, rk) && InGraph(g, types) && i < |types|
    ensures types[..i + 1] == types[..i] + [types[i]]
    ensures Roots(g, rk, types[..i + 1]) == Roots(g, rk, types[..i]) + Describe(g, rk, types[i]).mentions
    ensures Roots(g, rk, types[..i + 1]) <= Roots(g, rk, types)
  {
    var some, more := types[..i], types[..i + 1];
    forall n | n in Roots(g, rk, some) + Describe(g, rk, types[i]).mentions ensures n in Roots(g, rk, more) {
      if n in Roots(g, rk, some) {
        var j :| 0 <= j < |some| && n in Describe(g, rk, some[j]).mentions;
        assert more[j] == some[j];
      } else {
        assert more[i] == types[i];
      }
    }
    forall n | n in Roots(g, rk, more) ensures n in Roots(g, rk, some) + Describe(g, rk, types[i]).mentions
        && n in Roots(g, rk, types) {
      var j :| 0 <= j < |more| && n in Describe(g, rk, more[j]).mentions;
      assert more[j] == types[j];
      if j < i {
        assert some[j] == types[j];
      }
    }
  }

  /** One kind the generator does not know, among the types or in a struct they reach. */
  ghost predicate HasUnsupported(g: Graph, rk: Ranks, types: seq<TypeId>)
    requires Guarded(g, rk) && InGraph(g, types)
  {
    (exists i :: 0 <= i < |types| && !Describe(g, rk, types[i]).supported)
        || ReachesUnsupported(g, rk, Roots(g, rk, types))
  }

  /** Each schema validates exactly the documents that its type accepts. */
  ghost predicate SchemasAccept(g: Graph, rk: Ranks, types: seq<TypeId>, schemas: seq<Schema>, components: Defs)
    requires Guarded(g, rk) && InGraph(g, types) && |schemas| == |types|
  {
    forall x, i, j :: 0 <= i < |types| ==>
      (Validates(x, schemas[i], components, j) <==> Accepts(x, g, rk, types[i], j))
  }

  /** What encoding/json writes for a type validates against its schema unless it holds one of the cases given up. */
  ghost predicate EncodingsValidate(g: Graph, rk: Ranks, types: seq<TypeId>, schemas: seq<Schema>, components: Defs)
    requires Guarded(g, rk) && InGraph(g, types) && |schemas| == |types|
  {
    forall x, i, j :: 0 <= i < |types| && Encodes(x, g, rk, types[i], j) ==>
      (Validates(x, schemas[i], components, j) <==> !GivesUp(g, rk, types[i], j))
  }

  lemma SchemasMean(g: Graph, rk: Ranks, types: seq<TypeId>, schemas: seq<Schema>, components: Defs)
    requires Guarded(g, rk) && InGraph(g, types) && |schemas| == |types| && DistinctNames(g)
    requires Complete(g, rk, Roots(g, rk, types), components)
    requires forall i :: 0 <= i < |types| ==>
               schemas[i] == Describe(g, rk, types[i]).schema && Describe(g, rk, types[i]).supported
    ensures SchemasAccept(g, rk, types, schemas, components)
    ensures NoRepeats(g, rk) ==> EncodingsValidate(g, rk, types, schemas, components)
  {
    hide Describe, Closed, Validates, Accepts, Encodes, GivesUp, Reachable, NoRepeats;
    assert Describing(g, rk, components);
    forall i | 0 <= i < |types| ensures Describe(g, rk, types[i]).mentions <= components.Keys {
      assert Describe(g, rk, types[i]).mentions <= Roots(g, rk, types);
    }
    hide Roots, Complete, Describing;
    forall x, i, j | 0 <= i < |types|
      ensures Validates(x, schemas[i], components, j) <==> Accepts(x, g, rk, types[i], j)
    {
      SchemaAccepts(x, g, rk, components, types[i], j);
    }
    if NoRepeats(g, rk) {
      forall x, i, j | 0 <= i < |types| && Encodes(x, g, rk, types[i], j)
        ensures Validates(x, schemas[i], components, j) <==> !GivesUp(g, rk, types[i], j)
      {
        EncodingValidatesIff(x, g, rk, components, types[i], j);
      }
    }
  }

  /** Describes the response types of all routes; None reports an unknown kind. */
  method BuildSchemas(g: Graph, ghost rk: Ranks, types: seq<TypeId>) returns (r: Option<seq<Schema>>, components: Defs)
    requires Guarded(g, rk) && InGraph(g, types)
    ensures r.Some? ==>
              && |r.value| == |types|
              && (forall i :: 0 <= i < |types| ==> r.value[i] == Describe(g, rk, types[i]).schema)
              && Complete(g, rk, Roots(g, rk, types), components)
              && NoDanglingRefs(r.value, components) && NoDanglingEntries(components)
    ensures r.Some? && DistinctNames(g) ==> SchemasAccept(g, rk, types, r.value, components)
    ensures r.Some? && DistinctNames(g) && NoRepeats(g, rk) ==> EncodingsValidate(g, rk, types, r.value, components)
    ensures r.None? ==> HasUnsupported(g, rk, types)
    ensures DistinctNames(g) ==> (r.None? <==> HasUnsupported(g, rk, types))
  {
    hide Closed, Reachable, Collect, Describe, Resolves, SchemasAccept, EncodingsValidate, NoRepeats;
    var builder := new Builder();
    var schemas: seq<Schema> := [];
    assert Closed(g, rk, builder.defs, {}) by {
      NothingIsClosed(g, rk);
    }
    for i := 0 to |types|
      invariant fresh(builder) && builder.inProgress == {} && Complete(g, rk, Roots(g, rk, types[..i]), builder.defs)
      invariant |schemas| == i
      invariant forall j :: 0 <= j < i ==>
                  schemas[j] == Describe(g, rk, types[j]).schema && Describe(g, rk, types[j]).supported
    {
      RootsGrow(g, rk, types, i);
      ghost var before := builder.defs;
      var s := builder.SchemaFor(g, rk, types[i]);
      if s.None? {
        if Describe(g, rk, types[i]).supported {
          UnsupportedFromMore(g, rk, Describe(g, rk, types[i]).mentions, Roots(g, rk, types));
        }
        return None, builder.defs;
      }
      schemas := schemas + [s.value];
      StaysComplete(g, rk, Roots(g, rk, types[..i]), Describe(g, rk, types[i]).mentions, before, builder.defs);
    }
    assert types[..|types|] == types;
    r, components := Some(schemas), builder.defs;
    CompleteHasNoDangling(g, rk, Roots(g, rk, types), components);
    SchemasResolve(g, rk, types, schemas, components.Keys);
    if DistinctNames(g) {
      CompleteIsSupported(g, rk, Roots(g, rk, types), components);
      SchemasMean(g, rk, types, schemas, components);
    }
  }

  lemma NothingIsClosed(g: Graph, rk: Ranks)
    requires Guarded(g, rk)
    ensures Closed(g, rk, map[], {})
  {
  }

  lemma StaysComplete(g: Graph, rk: Ranks, roots: set<string>, mentions: set<string>, before: Defs, after: Defs)
    requires Guarded(g, rk) && Complete(g, rk, roots, before)
    requires Outcome(g, rk, before, {}, after, mentions, true, true)
    ensures Complete(g, rk, roots + mentions, after)
  {
    forall n | n in after ensures Reachable(g, rk, roots + mentions, n) {
      ReachableFromMore(g, rk, if n in before then roots else mentions, roots + mentions, n);
    }
  }

  lemma SchemasResolve(g: Graph, rk: Ranks, types: seq<TypeId>, schemas: seq<Schema>, names: set<string>)
    requires Guarded(g, rk) && InGraph(g, types) && |schemas| == |types|
    requires forall i :: 0 <= i < |types| ==> schemas[i] == Describe(g, rk, types[i]).schema
    requires Roots(g, rk, types) <= names
    ensures forall s :: s in schemas ==> Resolves(s, names)
  {
    forall s | s in schemas ensures Resolves(s, names) {
      var i :| 0 <= i < |schemas| && schemas[i] == s;
      ShapeResolves(g, rk, types[i]);
      assert Describe(g, rk, types[i]).mentions <= Roots(g, rk, types);
      ResolvesInMore(s, Describe(g, rk, types[i]).mentions, names);
    }
  }
}

/**
 * The OpenAPI generator: one pass over a possibly cyclic type graph that fills
 * the components section, with the types being described kept in progress.
 */
module SchemaBuilder {
  import opened Wrappers
  import opened SchemaShape

  type Defs = map<string, Schema>

  // ---- what a call does to the components ----

  ghost predicate Describes(g: Graph, rk: Ranks, u: TypeId, n: string, s: Schema)
    requires Guarded(g, rk)
  {
    IsNamed(g, u, n) && Collect(g, rk, u, 0).supported && s == Body(Collect(g, rk, u, 0))
  }

  /** The entry is the body of a struct of that name, and all it mentions is described or in progress. */
  ghost predicate Settled(g: Graph, rk: Ranks, defs: Defs, progress: set<string>, n: string)
    requires Guarded(g, rk) && n in defs
  {
    exists u :: Describes(g, rk, u, n, defs[n]) && Collect(g, rk, u, 0).mentions <= defs.Keys + progress
  }

  ghost predicate Closed(g: Graph, rk: Ranks, defs: Defs, progress: set<string>)
    requires Guarded(g, rk)
  {
    forall n :: n in defs ==> Settled(g, rk, defs, progress, n)
  }

  /** Nothing is removed or rewritten; what is added is reachable and not in progress. */
  ghost predicate Grown(g: Graph, rk: Ranks, before: Defs, progress: set<string>, after: Defs, roots: set<string>)
    requires Guarded(g, rk)
  {
    && before.Keys <= after.Keys
    && (forall n :: n in before ==> after[n] == before[n])
    && (forall n :: n in after && n !in before ==> n !in progress && Reachable(g, rk, roots, n))
  }

  /** A kind the generator does not know, in a struct reachable from roots. */
  ghost predicate ReachesUnsupported(g: Graph, rk: Ranks, roots: set<string>)
    requires Guarded(g, rk)
  {
    exists u, n :: IsNamed(g, u, n) && Reachable(g, rk, roots, n) && !Collect(g, rk, u, 0).supported
  }

  lemma GrownOnwards(g: Graph, rk: Ranks, a: Defs, progress: set<string>, b: Defs, c: Defs,
                     some: set<string>, roots: set<string>)
    requires Guarded(g, rk) && some <= roots
    requires Grown(g, rk, a, progress, b, roots) && Grown(g, rk, b, progress, c, some)
    ensures Grown(g, rk, a, progress, c, roots)
  {
    forall n | n in c && n !in a ensures n !in progress && Reachable(g, rk, roots, n) {
      if n !in b {
        ReachableFromMore(g, rk, some, roots, n);
      }
    }
  }

  lemma UnsupportedFromMore(g: Graph, rk: Ranks, some: set<string>, roots: set<string>)
    requires Guarded(g, rk) && some <= roots && ReachesUnsupported(g, rk, some)
    ensures ReachesUnsupported(g, rk, roots)
  {
    var u, n :| IsNamed(g, u, n) && Reachable(g, rk, some, n) && !Collect(g, rk, u, 0).supported;
    ReachableFromMore(g, rk, some, roots, n);
  }

  lemma ClosedWithMoreInProgress(g: Graph, rk: Ranks, defs: Defs, progress: set<string>, name: string)
    requires Guarded(g, rk) && Closed(g, rk, defs, progress)
    ensures Closed(g, rk, defs, progress + {name})
  {
    forall n | n in defs ensures Settled(g, rk, defs, progress + {name}, n) {
      assert Settled(g, rk, defs, progress, n);
    }
  }

  /** A finished struct moves from the set in progress to the components. */
  lemma EntryCloses(g: Graph, rk: Ranks, defs: Defs, progress: set<string>, u: TypeId, name: string)
    requires Guarded(g, rk) && IsNamed(g, u, name) && Collect(g, rk, u, 0).supported
    requires name !in defs && Closed(g, rk, defs, progress + {name})
    requires Collect(g, rk, u, 0).mentions <= defs.Keys + (progress + {name})
    ensures Closed(g, rk, defs[name := Body(Collect(g, rk, u, 0))], progress)
  {
    var after := defs[name := Body(Collect(g, rk, u, 0))];
    assert after.Keys + progress == defs.Keys + (progress + {name});
    forall n | n in after ensures Settled(g, rk, after, progress, n) {
      if n == name {
        assert Describes(g, rk, u, n, after[n]);
      } else {
        assert Settled(g, rk, defs, progress + {name}, n);
      }
    }
  }

  lemma EntryGrows(g: Graph, rk: Ranks, before: Defs, progress: set<string>, after: Defs, u: TypeId, name: string,
      body: Schema)
    requires Guarded(g, rk) && IsNamed(g, u, name) && name !in before && name !in progress
    requires Grown(g, rk, before, progress + {name}, after, Collect(g, rk, u, 0).mentions)
    ensures Grown(g, rk, before, progress, after, {name})
    ensures Grown(g, rk, before, progress, after[name := body], {name})
  {
    assert name !in after;
    assert Reachable(g, rk, {name}, name);
    forall n | n in after && n !in before ensures n !in progress && Reachable(g, rk, {name}, n) {
      ReachableThrough(g, rk, {name}, u, name, n);
    }
  }

  lemma UnsupportedInside(g: Graph, rk: Ranks, u: TypeId, name: string)
    requires Guarded(g, rk) && IsNamed(g, u, name)
    requires !Collect(g, rk, u, 0).supported || ReachesUnsupported(g, rk, Collect(g, rk, u, 0).mentions)
    ensures ReachesUnsupported(g, rk, {name})
  {
    var mentions := Collect(g, rk, u, 0).mentions;
    assert Reachable(g, rk, {name}, name);
    if Collect(g, rk, u, 0).supported {
      var v, n :| IsNamed(g, v, n) && Reachable(g, rk, mentions, n) && !Collect(g, rk, v, 0).supported;
      ReachableThrough(g, rk, {name}, u, name, n);
    }
  }

  /** What a call that ran into these mentions has made of the components. */
  ghost predicate Outcome(g: Graph, rk: Ranks, before: Defs, progress: set<string>, after: Defs,
                          mentions: set<string>, supported: bool, ok: bool)
    requires Guarded(g, rk)
  {
    && Grown(g, rk, before, progress, after, mentions)
    && (ok ==> Closed(g, rk, after, progress) && supported && mentions <= after.Keys + progress)
    && (!ok ==> !supported || ReachesUnsupported(g, rk, mentions))
  }

  /** Nothing mentioned, nothing to do. */
  lemma NothingMentioned(g: Graph, rk: Ranks, defs: Defs, progress: set<string>, supported: bool)
    requires Guarded(g, rk) && Closed(g, rk, defs, progress)
    ensures Outcome(g, rk, defs, progress, defs, {}, supported, supported)
  {
  }

  lemma AlreadyKnown(g: Graph, rk: Ranks, defs: Defs, progress: set<string>, name: string)
    requires Guarded(g, rk) && Closed(g, rk, defs, progress) && (name in defs || name in progress)
    ensures Outcome(g, rk, defs, progress, defs, {name}, true, true)
  {
  }

  /** Describing a named struct, from the outcome of its fields. */
  lemma EntryOutcome(g: Graph, rk: Ranks, before: Defs, progress: set<string>, after: Defs,
                     u: TypeId, name: string, ok: bool)
    requires Guarded(g, rk) && IsNamed(g, u, name) && name !in before && name !in progress
    requires var m := Collect(g, rk, u, 0);
             Outcome(g, rk, before, progress + {name}, after, m.mentions, m.supported, ok)
    ensures var defs := if ok then after[name := Body(Collect(g, rk, u, 0))] else after;
            Outcome(g, rk, before, progress, defs, {name}, true, ok)
  {
    hide Closed, Settled, Reachable, Grown, ReachesUnsupported;
    var body := Body(Collect(g, rk, u, 0));
    EntryGrows(g, rk, before, progress, after, u, name, body);
    if ok {
      NotAdded(g, rk, before, progress, after, name, Collect(g, rk, u, 0).mentions);
      EntryCloses(g, rk, after, progress, u, name);
    } else {
      UnsupportedInside(g, rk, u, name);
    }
  }

  lemma NotAdded(g: Graph, rk: Ranks, before: Defs, progress: set<string>, after: Defs, name: string,
      roots: set<string>)
    requires Guarded(g, rk) && name !in before && Grown(g, rk, before, progress + {name}, after, roots)
    ensures name !in after
  {
  }

  /** One more field, from the outcome of the fields before it. */
  lemma NextOutcome(g: Graph, rk: Ranks, a: Defs, progress: set<string>, b: Defs, c: Defs,
                    done: set<string>, next: Members, rest: Members, ok: bool)
    requires Guarded(g, rk)
    requires Grown(g, rk, a, progress, b, done + Merge(next, rest).mentions) && done <= b.Keys + progress
    requires Outcome(g, rk, b, progress, c, next.mentions, next.supported, ok)
    ensures var all := done + Merge(next, rest).mentions;
            && Grown(g, rk, a, progress, c, all)
            && (ok ==> done + next.mentions <= c.Keys + progress)
            && (!ok ==> Outcome(g, rk, a, progress, c, all, Merge(next, rest).supported, false))
  {
    hide Closed, ReachesUnsupported, Reachable;
    var all := done + Merge(next, rest).mentions;
    GrownOnwards(g, rk, a, progress, b, c, next.mentions, all);
    if !ok && next.supported {
      UnsupportedFromMore(g, rk, next.mentions, all);
    }
  }

  function Names(g: Graph): set<string> {
    set u: nat | u < |g| && Named(g[u]) :: g[u].name
  }

  class Builder {
    var defs: Defs
    var inProgress: set<string>

    constructor ()
      ensures defs == map[] && inProgress == {}
    {
      defs, inProgress := map[], {};
    }

    ghost predicate Valid(g: Graph, rk: Ranks)
      reads this
    {
      Guarded(g, rk) && Closed(g, rk, defs, inProgress)
    }

    /** Struct names still to be entered. */
    ghost function Todo(g: Graph): set<string>
      reads this
    {
      Names(g) - inProgress - defs.Keys
    }

    /** None reports a kind the generator does not know. */
    method SchemaFor(g: Graph, ghost rk: Ranks, t: TypeId) returns (r: Option<Schema>)
      requires Valid(g, rk) && t < |g|
      modifies this
      ensures inProgress == old(inProgress)
      ensures var d := Describe(g, rk, t);
              && Outcome(g, rk, old(defs), inProgress, defs, d.mentions, d.supported, r.Some?)
              && (r.Some? ==> r.value == d.schema)
      decreases Todo(g), rk.s[t], 2
    {
      hide Closed, Outcome, Collect;
      assert StepsDown(g, rk, t);
      NothingMentioned(g, rk, defs, inProgress, true);
      NothingMentioned(g, rk, defs, inProgress, false);
      match g[t] {
        case Nil => r := Some(EMPTY);
        case Time => r := Some(Plain("string").(format := "date-time"));
        case Bool => r := Some(Plain("boolean"));
        case Int => r := Some(Plain("integer"));
        case Byte => r := Some(Plain("integer"));
        case Float => r := Some(Plain("number"));
        case Str => r := Some(Plain("string"));
        case Interface => r := Some(EMPTY.(description := "any JSON value"));
        case Pointer(e) =>
          r := SchemaFor(g, rk, e);
          if r.Some? { r := Some(Nullable(r.value)); }
        case Seq(e, _) =>
          if g[e].Byte? {
            r := Some(Plain("string").(format := "byte"));
          } else {
            r := SchemaFor(g, rk, e);
            if r.Some? { r := Some(ArrayOf(r.value)); }
          }
        case Map(e) =>
          r := SchemaFor(g, rk, e);
          if r.Some? { r := Some(MapOf(r.value)); }
        case Struct(_, _) =>
          r := StructSchema(g, rk, t);
        case Unsupported => r := None;
      }
    }

    method StructSchema(g: Graph, ghost rk: Ranks, t: TypeId) returns (r: Option<Schema>)
      requires Valid(g, rk) && t < |g| && g[t].Struct?
      modifies this
      ensures inProgress == old(inProgress)
      ensures var d := Describe(g, rk, t);
              && Outcome(g, rk, old(defs), inProgress, defs, d.mentions, d.supported, r.Some?)
              && (r.Some? ==> r.value == d.schema)
      decreases Todo(g), rk.s[t], 1
    {
      hide Closed, Outcome, Collect;
      assert StepsDown(g, rk, t);
      var name := g[t].name;
      if name == "" {
        r := StructBody(g, rk, t);
        return;
      }
      if name in defs || name in inProgress {
        AlreadyKnown(g, rk, defs, inProgress, name);
        return Some(RefTo(name));
      }
      assert name in Todo(g);
      ClosedWithMoreInProgress(g, rk, defs, inProgress, name);
      inProgress := inProgress + {name};
      r := StructBody(g, rk, t);
      inProgress := inProgress - {name};
      EntryOutcome(g, rk, old(defs), inProgress, defs, t, name, r.Some?);
      if r.Some? {
        defs := defs[name := r.value];
        r := Some(RefTo(name));
      }
    }

    method StructBody(g: Graph, ghost rk: Ranks, t: TypeId) returns (r: Option<Schema>)
      requires Valid(g, rk) && t < |g|
      modifies this
      ensures inProgress == old(inProgress)
      ensures var m := Collect(g, rk, t, 0);
              && Outcome(g, rk, old(defs), inProgress, defs, m.mentions, m.supported, r.Some?)
              && (r.Some? ==> r.value == Body(m))
      decreases Todo(g), rk.c[t], 2
    {
      hide Closed, Outcome, Collect;
      var out := Plain("object");
      var ok;
      ok, out := CollectFields(g, rk, t, out);
      r := if ok then Some(out) else None;
      assert map[] + Collect(g, rk, t, 0).properties == Collect(g, rk, t, 0).properties;
      assert multiset{} + Collect(g, rk, t, 0).required == Collect(g, rk, t, 0).required;
    }

    /** Adds the members of the struct's field i to the schema out. */
    method CollectField(g: Graph, ghost rk: Ranks, t: TypeId, i: nat, out: Schema) returns (ok: bool, s: Schema)
      requires Valid(g, rk) && t < |g| && i < |FieldsOf(g[t])|
      modifies this
      ensures inProgress == old(inProgress)
      ensures var m := FieldMembers(g, rk, t, i);
              && Outcome(g, rk, old(defs), inProgress, defs, m.mentions, m.supported, ok)
              && (ok ==> s == out.(properties := out.properties + m.properties, required := out.required + m.required))
      decreases Todo(g), rk.c[t], 0
    {
      hide Closed, Outcome, Collect, Grown;
      assert StepsDown(g, rk, t);
      ok, s := true, out;
      var f := FieldsOf(g[t])[i];
      if Skipped(f) {
        NothingMentioned(g, rk, defs, inProgress, true);
        return;
      }
      if Merges(g, f) {
        ok, s := CollectFields(g, rk, MergedType(g, f), s);
        return;
      }
      var r := SchemaFor(g, rk, f.typ);
      if r.None? {
        ok := false;
        return;
      }
      s := s.(properties := s.properties[PropertyName(f) := r.value]);
      if !f.omitEmpty {
        s := s.(required := s.required + multiset{PropertyName(f)});
      }
    }

    /** Adds the struct's members to the schema out; a later property of the same name wins. */
    method CollectFields(g: Graph, ghost rk: Ranks, t: TypeId, out: Schema) returns (ok: bool, s: Schema)
      requires Valid(g, rk) && t < |g|
      modifies this
      ensures inProgress == old(inProgress)
      ensures var m := Collect(g, rk, t, 0);
              && Outcome(g, rk, old(defs), inProgress, defs, m.mentions, m.supported, ok)
              && (ok ==> s == out.(properties := out.properties + m.properties, required := out.required + m.required))
      decreases Todo(g), rk.c[t], 1
    {
      hide Closed, Outcome, Collect, Grown, FieldMembers;
      s := out;
      ghost var all := Collect(g, rk, t, 0);
      ghost var done: set<string> := {};
      GrownByNothing(g, rk, defs, inProgress, all.mentions);
      var count := |FieldsOf(g[t])|;
      for i := 0 to count
        invariant inProgress == old(inProgress) && Valid(g, rk)
        invariant Grown(g, rk, old(defs), inProgress, defs, all.mentions)
        invariant done <= defs.Keys + inProgress
        invariant var rest := Collect(g, rk, t, i);
                  && all.mentions == done + rest.mentions && all.supported == rest.supported
                  && s.properties + rest.properties == out.properties + all.properties
                  && s.required + rest.required == out.required + all.required
        invariant s == out.(properties := s.properties, required := s.required)
      {
        KeysGrow(g, rk, old(defs), inProgress, defs, all.mentions);
        assert Todo(g) <= old(Todo(g));
        ghost var before, next, rest := defs, FieldMembers(g, rk, t, i), Collect(g, rk, t, i + 1);
        CollectStep(g, rk, t, i);
        MapsAssociate(s.properties, next.properties, rest.properties);
        ok, s := CollectField(g, rk, t, i, s);
        NextOutcome(g, rk, old(defs), inProgress, before, defs, done, next, rest, ok);
        if !ok {
          return;
        }
        KnownAfter(g, rk, before, inProgress, defs, next.mentions, next.supported);
        done := done + next.mentions;
      }
      ok := true;
      CollectEnd(g, rk, t);
      OutcomeOfAll(g, rk, old(defs), inProgress, defs, all);
    }
  }

  lemma MapsAssociate<K, V>(a: map<K, V>, b: map<K, V>, c: map<K, V>)
    ensures a + (b + c) == (a + b) + c
  {
  }

  lemma KnownAfter(g: Graph, rk: Ranks, before: Defs, progress: set<string>, after: Defs, mentions: set<string>,
      supported: bool)
    requires Guarded(g, rk) && Outcome(g, rk, before, progress, after, mentions, supported, true)
    ensures Closed(g, rk, after, progress) && supported && mentions <= after.Keys + progress
  {
  }

  lemma OutcomeOfAll(g: Graph, rk: Ranks, before: Defs, progress: set<string>, after: Defs, all: Members)
    requires Guarded(g, rk) && Grown(g, rk, before, progress, after, all.mentions) && Closed(g, rk, after, progress)
    requires all.supported && all.mentions <= after.Keys + progress
    ensures Outcome(g, rk, before, progress, after, all.mentions, all.supported, true)
  {
  }

  lemma CollectEnd(g: Graph, rk: Ranks, t: TypeId)
    requires Guarded(g, rk) && t < |g|
    ensures Collect(g, rk, t, |FieldsOf(g[t])|) == NO_MEMBERS
  {
  }

  lemma CollectStep(g: Graph, rk: Ranks, t: TypeId, i: nat)
    requires Guarded(g, rk) && t < |g| && i < |FieldsOf(g[t])|
    ensures Collect(g, rk, t, i) == Merge(FieldMembers(g, rk, t, i), Collect(g, rk, t, i + 1))
  {
  }

  lemma KeysGrow(g: Graph, rk: Ranks, before: Defs, progress: set<string>, after: Defs, roots: set<string>)
    requires Guarded(g, rk) && Grown(g, rk, before, progress, after, roots)
    ensures before.Keys <= after.Keys
  {
  }

  lemma GrownByNothing(g: Graph, rk: Ranks, defs: Defs, progress: set<string>, roots: set<string>)
    requires Guarded(g, rk)
    ensures Grown(g, rk, defs, progress, defs, roots)
  {
  }
}

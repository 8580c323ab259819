/**
 * What the OpenAPI generator should say about a Go type, whatever it has
 * already described: named structs are referred to, everything else is
 * spelled out on the spot.
 */
module SchemaShape {
  import opened Wrappers

  type TypeId = nat

  datatype Field = Field(goName: string, exported: bool, embedded: bool,
                         dash: bool, tagName: string, omitEmpty: bool, typ: TypeId)

  datatype Kind =
    | Nil | Time | Bool | Int | Byte | Float | Str | Interface
    | Pointer(elem: TypeId)
    | Seq(elem: TypeId, fixed: bool)                    // a slice, or an array of fixed length
    | Map(elem: TypeId)
    | Struct(name: string, fields: seq<Field>)         // "" names an anonymous struct
    | Unsupported                                      // func, chan, complex, ...

  type Graph = seq<Kind>

  /** The schema's type keyword: absent, one name, or the 3.1 pair of a name and "null". */
  datatype TypeTag = Absent | Single(name: string) | OrNull(name: string)

  datatype Schema = Schema(
    ref: string,
    tag: TypeTag,
    format: string,
    description: string,
    items: Option<Schema>,
    values: Option<Schema>,                            // additionalProperties
    properties: map<string, Schema>,
    required: multiset<string>)                        // sorted when written

  const EMPTY := Schema("", Absent, "", "", None, None, map[], multiset{})

  function Plain(name: string): Schema {
    EMPTY.(tag := Single(name))
  }

  const REF_PREFIX := "#/components/schemas/"

  function RefTo(name: string): Schema {
    EMPTY.(ref := REF_PREFIX + name)
  }

  function Nullable(s: Schema): Schema {
    if s.ref == "" && s.tag.Single? then s.(tag := OrNull(s.tag.name)) else s
  }

  /** An embedded field without a name of its own is merged into its parent. */
  predicate Merges(g: Graph, f: Field)
    requires f.typ < |g|
  {
    && f.embedded && f.tagName == ""
    && (IsStruct(g[f.typ]) || (g[f.typ].Pointer? && g[f.typ].elem < |g| && IsStruct(g[g[f.typ].elem])))
  }

  predicate IsStruct(k: Kind) {
    k.Struct? || k.Time?
  }

  function MergedType(g: Graph, f: Field): TypeId
    requires f.typ < |g|
  {
    if g[f.typ].Pointer? then g[f.typ].elem else f.typ
  }

  function PropertyName(f: Field): string {
    if f.tagName == "" then f.goName else f.tagName
  }

  predicate Skipped(f: Field) {
    !f.exported || f.dash
  }

  /** time.Time has no exported fields. */
  function FieldsOf(k: Kind): seq<Field> {
    if k.Struct? then k.fields else []
  }

  predicate Named(k: Kind) {
    k.Struct? && k.name != ""
  }

  // ---- graphs on which the generator ends ----

  /** Ranks of a type when described (s) and when its fields are collected (c). */
  datatype Ranks = Ranks(s: seq<nat>, c: seq<nat>)

  /**
   * Ranks fall along every step but the one into the fields of a named struct
   * that is being described. SchemaCycles shows that there are such ranks
   * exactly when every cycle of the type graph takes that step somewhere.
   */
  ghost predicate Guarded(g: Graph, rk: Ranks) {
    && |rk.s| == |rk.c| == |g|
    && forall t :: 0 <= t < |g| ==> StepsDown(g, rk, t)
  }

  ghost predicate StepsDown(g: Graph, rk: Ranks, t: TypeId)
    requires |rk.s| == |rk.c| == |g| && t < |g|
  {
    && (g[t].Pointer? || g[t].Seq? || g[t].Map? ==> g[t].elem < |g| && rk.s[g[t].elem] < rk.s[t])
    && (g[t].Struct? && g[t].name == "" ==> rk.c[t] < rk.s[t])
    && (forall f :: f in FieldsOf(g[t]) ==>
          && f.typ < |g|
          && (!Skipped(f) && Merges(g, f) ==> rk.c[MergedType(g, f)] < rk.c[t])
          && (!Skipped(f) && !Merges(g, f) ==> rk.s[f.typ] < rk.c[t]))
  }

  // ---- what a type looks like ----

  /** A type's schema, the names it mentions, and whether every kind met on the way is known. */
  datatype Shape = Shape(schema: Schema, mentions: set<string>, supported: bool)

  datatype Members = Members(properties: map<string, Schema>, required: multiset<string>,
                             mentions: set<string>, supported: bool)

  const NO_MEMBERS := Members(map[], multiset{}, {}, true)

  /** A later property of the same name wins. */
  function Merge(a: Members, b: Members): Members {
    Members(a.properties + b.properties, a.required + b.required, a.mentions + b.mentions, a.supported && b.supported)
  }

  function Body(m: Members): Schema {
    Plain("object").(properties := m.properties, required := m.required)
  }

  function ArrayOf(items: Schema): Schema {
    Nullable(Plain("array").(items := Some(items)))
  }

  function MapOf(values: Schema): Schema {
    Nullable(Plain("object").(values := Some(values)))
  }

  ghost function Describe(g: Graph, rk: Ranks, t: TypeId): Shape
    requires Guarded(g, rk) && t < |g|
    decreases rk.s[t], 0
  {
    assert StepsDown(g, rk, t);
    match g[t]
    case Nil => Shape(EMPTY, {}, true)
    case Time => Shape(Plain("string").(format := "date-time"), {}, true)
    case Bool => Shape(Plain("boolean"), {}, true)
    case Int => Shape(Plain("integer"), {}, true)
    case Byte => Shape(Plain("integer"), {}, true)
    case Float => Shape(Plain("number"), {}, true)
    case Str => Shape(Plain("string"), {}, true)
    case Interface => Shape(EMPTY.(description := "any JSON value"), {}, true)
    case Pointer(e) => var inner := Describe(g, rk, e); inner.(schema := Nullable(inner.schema))
    case Seq(e, _) =>
      if g[e].Byte? then Shape(Plain("string").(format := "byte"), {}, true)
      else var inner := Describe(g, rk, e); inner.(schema := ArrayOf(inner.schema))
    case Map(e) => var inner := Describe(g, rk, e); inner.(schema := MapOf(inner.schema))
    case Struct(name, _) =>
      if name != "" then Shape(RefTo(name), {name}, true)
      else var m := Collect(g, rk, t, 0); Shape(Body(m), m.mentions, m.supported)
    case Unsupported => Shape(EMPTY, {}, false)
  }

  /** The members that the fields from i on give to the struct. */
  ghost function Collect(g: Graph, rk: Ranks, t: TypeId, i: nat): Members
    requires Guarded(g, rk) && t < |g| && i <= |FieldsOf(g[t])|
    decreases rk.c[t], |FieldsOf(g[t])| - i + 1
  {
    assert StepsDown(g, rk, t);
    if i == |FieldsOf(g[t])| then NO_MEMBERS
    else Merge(FieldMembers(g, rk, t, i), Collect(g, rk, t, i + 1))
  }

  ghost function FieldMembers(g: Graph, rk: Ranks, t: TypeId, i: nat): Members
    requires Guarded(g, rk) && t < |g| && i < |FieldsOf(g[t])|
    decreases rk.c[t], 0
  {
    assert StepsDown(g, rk, t);
    var f := FieldsOf(g[t])[i];
    if Skipped(f) then NO_MEMBERS
    else if Merges(g, f) then Collect(g, rk, MergedType(g, f), 0)
    else
      var s := Describe(g, rk, f.typ);
      Members(map[PropertyName(f) := s.schema], if f.omitEmpty then multiset{} else multiset{PropertyName(f)},
              s.mentions, s.supported)
  }

  // ---- references ----

  /** Every reference in the schema names one of these entries. */
  ghost predicate Resolves(s: Schema, names: set<string>) {
    && (s.ref == "" || exists n :: n in names && s.ref == REF_PREFIX + n)
    && (s.items.Some? ==> Resolves(s.items.value, names))
    && (s.values.Some? ==> Resolves(s.values.value, names))
    && (forall p :: p in s.properties ==> Resolves(s.properties[p], names))
  }

  /** A schema refers to nothing but the names its shape mentions. */
  lemma {:induction false} ShapeResolves(g: Graph, rk: Ranks, t: TypeId)
    requires Guarded(g, rk) && t < |g|
    ensures Resolves(Describe(g, rk, t).schema, Describe(g, rk, t).mentions)
    decreases rk.s[t], 0
  {
    assert StepsDown(g, rk, t);
    match g[t]
    case Pointer(e) => ShapeResolves(g, rk, e);
    case Seq(e, _) => ShapeResolves(g, rk, e);
    case Map(e) => ShapeResolves(g, rk, e);
    case Struct(name, _) =>
      if name == "" {
        MembersResolve(g, rk, t, 0);
      } else {
        assert name in {name};
      }
    case _ =>
  }

  ghost predicate AllResolve(m: Members) {
    forall p :: p in m.properties ==> Resolves(m.properties[p], m.mentions)
  }

  lemma {:induction false} MembersResolve(g: Graph, rk: Ranks, t: TypeId, i: nat)
    requires Guarded(g, rk) && t < |g| && i <= |FieldsOf(g[t])|
    ensures AllResolve(Collect(g, rk, t, i))
    decreases rk.c[t], |FieldsOf(g[t])| - i + 1
  {
    if i < |FieldsOf(g[t])| {
      FieldResolves(g, rk, t, i);
      MembersResolve(g, rk, t, i + 1);
      MergeResolves(FieldMembers(g, rk, t, i), Collect(g, rk, t, i + 1));
    }
  }

  lemma {:induction false} FieldResolves(g: Graph, rk: Ranks, t: TypeId, i: nat)
    requires Guarded(g, rk) && t < |g| && i < |FieldsOf(g[t])|
    ensures AllResolve(FieldMembers(g, rk, t, i))
    decreases rk.c[t], 0
  {
    assert StepsDown(g, rk, t);
    var f := FieldsOf(g[t])[i];
    if !Skipped(f) {
      if Merges(g, f) {
        MembersResolve(g, rk, MergedType(g, f), 0);
      } else {
        ShapeResolves(g, rk, f.typ);
      }
    }
  }

  lemma MergeResolves(a: Members, b: Members)
    requires AllResolve(a) && AllResolve(b)
    ensures AllResolve(Merge(a, b))
  {
    var m := Merge(a, b);
    forall p | p in m.properties ensures Resolves(m.properties[p], m.mentions) {
      if p in b.properties {
        ResolvesInMore(b.properties[p], b.mentions, m.mentions);
      } else {
        ResolvesInMore(a.properties[p], a.mentions, m.mentions);
      }
    }
  }

  lemma {:induction false} ResolvesInMore(s: Schema, names: set<string>, more: set<string>)
    requires Resolves(s, names) && names <= more
    ensures Resolves(s, more)
  {
    if s.items.Some? { ResolvesInMore(s.items.value, names, more); }
    if s.values.Some? { ResolvesInMore(s.values.value, names, more); }
    forall p | p in s.properties ensures Resolves(s.properties[p], more) {
      ResolvesInMore(s.properties[p], names, more);
    }
  }

  /** Marking a schema nullable twice changes nothing more, and a reference is left alone. */
  lemma NullableOnce(s: Schema)
    ensures Nullable(Nullable(s)) == Nullable(s)
    ensures s.ref != "" ==> Nullable(s) == s
    ensures s.ref == "" && s.tag.Single? <==> Nullable(s) != s
  {
  }

  // ---- which names belong in the components ----

  ghost predicate IsNamed(g: Graph, u: TypeId, name: string) {
    u < |g| && Named(g[u]) && g[u].name == name
  }

  /** names contains everything mentioned by the structs it names. */
  ghost predicate ClosedNames(g: Graph, rk: Ranks, names: set<string>)
    requires Guarded(g, rk)
  {
    forall u, n :: IsNamed(g, u, n) && n in names ==> Collect(g, rk, u, 0).mentions <= names
  }

  /** n is in the least closed set of names around roots. */
  ghost predicate Reachable(g: Graph, rk: Ranks, roots: set<string>, n: string)
    requires Guarded(g, rk)
  {
    forall names: set<string> :: ClosedNames(g, rk, names) && roots <= names ==> n in names
  }

  lemma ReachableThrough(g: Graph, rk: Ranks, roots: set<string>, u: TypeId, name: string, n: string)
    requires Guarded(g, rk) && IsNamed(g, u, name) && Reachable(g, rk, roots, name)
    requires Reachable(g, rk, Collect(g, rk, u, 0).mentions, n)
    ensures Reachable(g, rk, roots, n)
  {
    forall names: set<string> | ClosedNames(g, rk, names) && roots <= names ensures n in names {
      assert name in names;
      assert Collect(g, rk, u, 0).mentions <= names;
    }
  }

  lemma ReachableFromMore(g: Graph, rk: Ranks, roots: set<string>, more: set<string>, n: string)
    requires Guarded(g, rk) && roots <= more && Reachable(g, rk, roots, n)
    ensures Reachable(g, rk, more, n)
  {
  }
}

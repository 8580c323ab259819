/**
 * What the generated schemas say of JSON: which documents a type's schema
 * accepts, which documents encoding/json writes for the type, and which of
 * those the schema gives up.
 */
module SchemaMeaning {
  import opened Wrappers
  import opened SchemaShape
  import opened SchemaBuilder

  // ---- JSON and validation ----

  datatype Json =
    | JNull
    | JBool(truth: bool)
    | JInt(whole: int)
    | JFraction(number: real)
    | JStr(text: string)
    | JArr(elements: seq<Json>)
    | JObj(members: map<string, Json>)

  /** The strings of the two formats in use. */
  datatype Formats = Formats(dateTime: string -> bool, base64: string -> bool)

  predicate HasType(j: Json, name: string) {
    match j
    case JNull => name == "null"
    case JBool(_) => name == "boolean"
    case JInt(_) => name == "integer" || name == "number"
    case JFraction(_) => name == "number"
    case JStr(_) => name == "string"
    case JArr(_) => name == "array"
    case JObj(_) => name == "object"
  }

  predicate HasTag(j: Json, tag: TypeTag) {
    match tag
    case Absent => true
    case Single(name) => HasType(j, name)
    case OrNull(name) => HasType(j, name) || j == JNull
  }

  predicate HasFormat(x: Formats, j: Json, format: string) {
    j.JStr? ==> (format == "date-time" ==> x.dateTime(j.text)) && (format == "byte" ==> x.base64(j.text))
  }

  /** The document validates against the schema, whose references go to the components. */
  ghost predicate Validates(x: Formats, s: Schema, defs: Defs, j: Json)
    decreases j, 1
  {
    if s.ref == "" then MeetsBody(x, s, defs, j)
    else exists n :: n in defs && s.ref == REF_PREFIX + n && defs[n].ref == "" && MeetsBody(x, defs[n], defs, j)
  }

  ghost predicate MeetsBody(x: Formats, s: Schema, defs: Defs, j: Json)
    decreases j, 0
  {
    && HasTag(j, s.tag)
    && HasFormat(x, j, s.format)
    && (j.JArr? && s.items.Some? ==>
          forall i :: 0 <= i < |j.elements| ==> Validates(x, s.items.value, defs, j.elements[i]))
    && (j.JObj? ==>
          && (forall p :: p in s.required ==> p in j.members)
          && (forall p :: p in s.properties && p in j.members ==> Validates(x, s.properties[p], defs, j.members[p]))
          && (s.values.Some? ==>
                forall p :: p in j.members && p !in s.properties ==> Validates(x, s.values.value, defs, j.members[p])))
  }

  // ---- the fields that reach a struct's JSON object ----

  predicate Exposed(f: Field) {
    f.exported && !f.dash
  }

  function JsonName(f: Field): string {
    if f.tagName != "" then f.tagName else f.goName
  }

  /** The struct whose fields an embedded field without a name of its own brings in. */
  function Inlined(g: Graph, f: Field): Option<TypeId>
    requires f.typ < |g|
  {
    if !f.embedded || f.tagName != "" then None
    else
      match g[f.typ]
      case Struct(_, _) => Some(f.typ)
      case Time => Some(f.typ)
      case Pointer(e) => if e < |g| && (g[e].Struct? || g[e].Time?) then Some(e) else None
      case _ => None
  }

  function OwnFields(g: Graph, t: TypeId): seq<Field>
    requires t < |g|
  {
    match g[t]
    case Struct(_, fields) => fields
    case _ => []
  }

  /** In declaration order, with those of an embedded struct in the place where it is embedded. */
  ghost function Flat(g: Graph, rk: Ranks, t: TypeId, i: nat): (fs: seq<Field>)
    requires Guarded(g, rk) && t < |g| && i <= |OwnFields(g, t)|
    ensures forall k :: 0 <= k < |fs| ==> fs[k].typ < |g|
    decreases rk.c[t], |OwnFields(g, t)| - i + 1
  {
    if i == |OwnFields(g, t)| then [] else FlatField(g, rk, t, i) + Flat(g, rk, t, i + 1)
  }

  ghost function FlatField(g: Graph, rk: Ranks, t: TypeId, i: nat): (fs: seq<Field>)
    requires Guarded(g, rk) && t < |g| && i < |OwnFields(g, t)|
    ensures forall k :: 0 <= k < |fs| ==> fs[k].typ < |g|
    decreases rk.c[t], 0
  {
    assert StepsDown(g, rk, t);
    var f := OwnFields(g, t)[i];
    assert f in FieldsOf(g[t]);
    if !Exposed(f) then []
    else if Inlined(g, f).Some? then Flat(g, rk, Inlined(g, f).value, 0)
    else [f]
  }

  ghost function AllFields(g: Graph, rk: Ranks, t: TypeId): (fs: seq<Field>)
    requires Guarded(g, rk) && t < |g|
    ensures forall k :: 0 <= k < |fs| ==> fs[k].typ < |g|
  {
    Flat(g, rk, t, 0)
  }

  ghost predicate NoLaterNamesake(fs: seq<Field>, k: nat)
    requires k < |fs|
  {
    forall l :: k < l < |fs| ==> JsonName(fs[l]) != JsonName(fs[k])
  }

  // ---- what a schema accepts, said of the type ----

  /** A named struct, or a pointer to one, through any number of pointers. */
  ghost predicate LeadsToNamed(g: Graph, rk: Ranks, t: TypeId)
    requires Guarded(g, rk) && t < |g|
    decreases rk.s[t]
  {
    assert StepsDown(g, rk, t);
    match g[t]
    case Struct(name, _) => name != ""
    case Pointer(e) => LeadsToNamed(g, rk, e)
    case _ => false
  }

  ghost predicate Accepts(x: Formats, g: Graph, rk: Ranks, t: TypeId, j: Json)
    requires Guarded(g, rk) && t < |g|
    decreases j, 1, rk.s[t]
  {
    assert StepsDown(g, rk, t);
    match g[t]
    case Nil => true
    case Interface => true
    case Time => j.JStr? && x.dateTime(j.text)
    case Bool => j.JBool?
    case Int => j.JInt?
    case Byte => j.JInt?
    case Float => j.JInt? || j.JFraction?
    case Str => j.JStr?
    case Pointer(e) => Accepts(x, g, rk, e, j) || (j == JNull && !LeadsToNamed(g, rk, e))
    case Seq(e, _) =>
      if g[e].Byte? then j.JStr? && x.base64(j.text)
      else
        || j == JNull
        || (j.JArr? && forall i :: 0 <= i < |j.elements| ==> Accepts(x, g, rk, e, j.elements[i]))
    case Map(e) =>
      || j == JNull
      || (j.JObj? && forall p :: p in j.members ==> Accepts(x, g, rk, e, j.members[p]))
    case Struct(_, _) => j.JObj? && AcceptsObject(x, g, rk, t, j)
    case Unsupported => false
  }

  /** Every field that is never omitted is there, and each name has what the last field of that name accepts. */
  ghost predicate AcceptsObject(x: Formats, g: Graph, rk: Ranks, t: TypeId, j: Json)
    requires Guarded(g, rk) && t < |g| && j.JObj?
    decreases j, 0
  {
    var fs := AllFields(g, rk, t);
    forall k :: 0 <= k < |fs| ==>
      && (!fs[k].omitEmpty ==> JsonName(fs[k]) in j.members)
      && (JsonName(fs[k]) in j.members && NoLaterNamesake(fs, k) ==>
            Accepts(x, g, rk, fs[k].typ, j.members[JsonName(fs[k])]))
  }

  // ---- a struct's members, field by field ----

  ghost predicate InGraphFields(g: Graph, fs: seq<Field>) {
    forall k :: 0 <= k < |fs| ==> fs[k].typ < |g|
  }

  ghost predicate HasName(fs: seq<Field>, n: string) {
    exists k :: 0 <= k < |fs| && JsonName(fs[k]) == n
  }

  ghost predicate HasFirmName(fs: seq<Field>, n: string) {
    exists k :: 0 <= k < |fs| && JsonName(fs[k]) == n && !fs[k].omitEmpty
  }

  /** The members are what these fields give: one property a name, the last field's schema, and the firm names. */
  ghost predicate MembersOf(g: Graph, rk: Ranks, m: Members, fs: seq<Field>)
    requires Guarded(g, rk) && InGraphFields(g, fs)
  {
    && (forall n :: n in m.properties <==> HasName(fs, n))
    && (forall n :: n in m.required <==> HasFirmName(fs, n))
    && (forall k :: 0 <= k < |fs| && NoLaterNamesake(fs, k) ==>
          JsonName(fs[k]) in m.properties && m.properties[JsonName(fs[k])] == Describe(g, rk, fs[k].typ).schema)
    && (forall k :: 0 <= k < |fs| ==>
          && Describe(g, rk, fs[k].typ).mentions <= m.mentions
          && (m.supported ==> Describe(g, rk, fs[k].typ).supported))
  }

  lemma NamesOfBoth(a: seq<Field>, b: seq<Field>)
    ensures forall n :: HasName(a + b, n) <==> HasName(a, n) || HasName(b, n)
    ensures forall n :: HasFirmName(a + b, n) <==> HasFirmName(a, n) || HasFirmName(b, n)
  {
    forall n ensures HasName(a + b, n) <==> HasName(a, n) || HasName(b, n) {
      if HasName(b, n) {
        var k :| 0 <= k < |b| && JsonName(b[k]) == n;
        assert (a + b)[|a| + k] == b[k];
      }
      if HasName(a, n) {
        var k :| 0 <= k < |a| && JsonName(a[k]) == n;
        assert (a + b)[k] == a[k];
      }
    }
    forall n ensures HasFirmName(a + b, n) <==> HasFirmName(a, n) || HasFirmName(b, n) {
      if HasFirmName(b, n) {
        var k :| 0 <= k < |b| && JsonName(b[k]) == n && !b[k].omitEmpty;
        assert (a + b)[|a| + k] == b[k];
      }
      if HasFirmName(a, n) {
        var k :| 0 <= k < |a| && JsonName(a[k]) == n && !a[k].omitEmpty;
        assert (a + b)[k] == a[k];
      }
    }
  }

  lemma LastOfBoth(a: seq<Field>, b: seq<Field>, k: nat)
    requires k < |a + b| && NoLaterNamesake(a + b, k)
    ensures k >= |a| ==> NoLaterNamesake(b, k - |a|)
    ensures k < |a| ==> NoLaterNamesake(a, k) && !HasName(b, JsonName(a[k]))
  {
    var fs := a + b;
    if k >= |a| {
      forall l | k - |a| < l < |b| ensures JsonName(b[l]) != JsonName(b[k - |a|]) {
        assert fs[|a| + l] == b[l];
      }
    } else {
      forall l | k < l < |a| ensures JsonName(a[l]) != JsonName(a[k]) {
        assert fs[l] == a[l];
      }
      forall l | 0 <= l < |b| ensures JsonName(b[l]) != JsonName(a[k]) {
        assert fs[|a| + l] == b[l];
      }
    }
  }

  lemma MergedMembers(g: Graph, rk: Ranks, m: Members, a: seq<Field>, n: Members, b: seq<Field>)
    requires Guarded(g, rk) && InGraphFields(g, a) && InGraphFields(g, b)
    requires MembersOf(g, rk, m, a) && MembersOf(g, rk, n, b)
    ensures InGraphFields(g, a + b) && MembersOf(g, rk, Merge(m, n), a + b)
  {
    hide Describe, HasName, HasFirmName, NoLaterNamesake, JsonName;
    var fs, all := a + b, Merge(m, n);
    NamesOfBoth(a, b);
    forall k | 0 <= k < |fs| && NoLaterNamesake(fs, k)
      ensures JsonName(fs[k]) in all.properties
      ensures all.properties[JsonName(fs[k])] == Describe(g, rk, fs[k].typ).schema
    {
      LastOfBoth(a, b, k);
      if k >= |a| {
        assert fs[k] == b[k - |a|];
      } else {
        assert fs[k] == a[k];
      }
    }
    forall k | 0 <= k < |fs|
      ensures Describe(g, rk, fs[k].typ).mentions <= all.mentions
      ensures all.supported ==> Describe(g, rk, fs[k].typ).supported
    {
      assert fs[k] == if k < |a| then a[k] else b[k - |a|];
    }
  }

  lemma NoMembers(g: Graph, rk: Ranks)
    requires Guarded(g, rk)
    ensures MembersOf(g, rk, NO_MEMBERS, [])
  {
  }

  lemma OneMember(g: Graph, rk: Ranks, f: Field)
    requires Guarded(g, rk) && f.typ < |g|
    ensures var s := Describe(g, rk, f.typ);
            var firm := if f.omitEmpty then multiset{} else multiset{JsonName(f)};
            MembersOf(g, rk, Members(map[JsonName(f) := s.schema], firm, s.mentions, s.supported), [f])
  {
    hide Describe;
    var fs := [f];
    assert HasName(fs, JsonName(f)) by { assert fs[0] == f; }
    if !f.omitEmpty {
      assert fs[0] == f;
      assert HasFirmName(fs, JsonName(f));
    }
  }

  lemma {:induction false} FieldGives(g: Graph, rk: Ranks, t: TypeId, i: nat)
    requires Guarded(g, rk) && t < |g| && i < |FieldsOf(g[t])|
    ensures OwnFields(g, t) == FieldsOf(g[t])
    ensures MembersOf(g, rk, FieldMembers(g, rk, t, i), FlatField(g, rk, t, i))
    decreases rk.c[t], 0
  {
    hide MembersOf, Describe, Collect;
    assert StepsDown(g, rk, t);
    var f := FieldsOf(g[t])[i];
    if Skipped(f) {
      NoMembers(g, rk);
    } else if Merges(g, f) {
      StructGives(g, rk, MergedType(g, f), 0);
    } else {
      OneMember(g, rk, f);
    }
  }

  lemma {:induction false} StructGives(g: Graph, rk: Ranks, t: TypeId, i: nat)
    requires Guarded(g, rk) && t < |g| && i <= |FieldsOf(g[t])|
    ensures OwnFields(g, t) == FieldsOf(g[t])
    ensures MembersOf(g, rk, Collect(g, rk, t, i), Flat(g, rk, t, i))
    decreases rk.c[t], |FieldsOf(g[t])| - i + 1
  {
    hide MembersOf, FieldMembers, FlatField;
    if i == |FieldsOf(g[t])| {
      NoMembers(g, rk);
    } else {
      FieldGives(g, rk, t, i);
      StructGives(g, rk, t, i + 1);
      MergedMembers(g, rk, FieldMembers(g, rk, t, i), FlatField(g, rk, t, i), Collect(g, rk, t, i + 1),
                    Flat(g, rk, t, i + 1));
    }
  }

  // ---- the schema of a type accepts what the type accepts ----

  /** The components describe the structs they name, one struct a name. */
  ghost predicate Describing(g: Graph, rk: Ranks, defs: Defs)
    requires Guarded(g, rk)
  {
    && Closed(g, rk, defs, {})
    && forall u, v, n :: IsNamed(g, u, n) && IsNamed(g, v, n) ==> u == v
  }

  lemma RefsDiffer(a: string, b: string)
    ensures REF_PREFIX + a == REF_PREFIX + b <==> a == b
    ensures REF_PREFIX + a != ""
  {
    assert |REF_PREFIX| > 0;
    assert (REF_PREFIX + a)[|REF_PREFIX|..] == a && (REF_PREFIX + b)[|REF_PREFIX|..] == b;
  }

  /** A reference validates what the body of the struct does. */
  lemma RefValidates(x: Formats, g: Graph, rk: Ranks, defs: Defs, t: TypeId, j: Json)
    requires Guarded(g, rk) && Describing(g, rk, defs) && t < |g| && Named(g[t]) && g[t].name in defs
    ensures Collect(g, rk, t, 0).supported && Collect(g, rk, t, 0).mentions <= defs.Keys
    ensures Validates(x, RefTo(g[t].name), defs, j) <==> MeetsBody(x, Body(Collect(g, rk, t, 0)), defs, j)
  {
    hide MeetsBody, Collect;
    var n := g[t].name;
    assert IsNamed(g, t, n);
    assert Settled(g, rk, defs, {}, n);
    var u :| Describes(g, rk, u, n, defs[n]) && Collect(g, rk, u, 0).mentions <= defs.Keys + {};
    assert u == t;
    forall k ensures REF_PREFIX + n == REF_PREFIX + k <==> n == k {
      RefsDiffer(n, k);
    }
    RefsDiffer(n, n);
  }

  lemma NullIsNoObject(x: Formats, g: Graph, rk: Ranks, t: TypeId)
    requires Guarded(g, rk) && t < |g| && LeadsToNamed(g, rk, t)
    ensures !Accepts(x, g, rk, t, JNull)
    decreases rk.s[t]
  {
    assert StepsDown(g, rk, t);
    if g[t].Pointer? {
      NullIsNoObject(x, g, rk, g[t].elem);
    }
  }

  /** What a pointer's schema says of null depends on whether the schema is a reference. */
  lemma {:induction false} RefsAreNamed(g: Graph, rk: Ranks, t: TypeId)
    requires Guarded(g, rk) && t < |g|
    ensures Describe(g, rk, t).schema.ref != "" <==> LeadsToNamed(g, rk, t)
    decreases rk.s[t]
  {
    assert StepsDown(g, rk, t);
    if g[t].Pointer? {
      RefsAreNamed(g, rk, g[t].elem);
    } else if g[t].Struct? {
      RefsDiffer(g[t].name, g[t].name);
    }
  }

  lemma NullableAddsNull(x: Formats, s: Schema, defs: Defs, j: Json)
    requires s.ref == ""
    ensures Validates(x, Nullable(s), defs, j) <==> Validates(x, s, defs, j) || j == JNull
    ensures Nullable(s).ref == ""
  {
  }

  lemma {:induction false} ObjectValidates(x: Formats, g: Graph, rk: Ranks, defs: Defs, t: TypeId, j: Json)
    requires Guarded(g, rk) && Describing(g, rk, defs) && t < |g| && g[t].Struct?
    requires Collect(g, rk, t, 0).supported && Collect(g, rk, t, 0).mentions <= defs.Keys
    ensures MeetsBody(x, Body(Collect(g, rk, t, 0)), defs, j) <==> j.JObj? && AcceptsObject(x, g, rk, t, j)
    decreases j, 0, 0
  {
    hide Describe, Collect, Describing, Validates, Accepts, NoLaterNamesake, JsonName, AllFields;
    if j.JObj? {
      StructGives(g, rk, t, 0);
      var fs := AllFields(g, rk, t);
      assert fs == Flat(g, rk, t, 0) by { AllFieldsIs(g, rk, t); }
      forall k | 0 <= k < |fs| && JsonName(fs[k]) in j.members
        ensures Validates(x, Describe(g, rk, fs[k].typ).schema, defs, j.members[JsonName(fs[k])]) <==>
                Accepts(x, g, rk, fs[k].typ, j.members[JsonName(fs[k])])
      {
        SchemaAccepts(x, g, rk, defs, fs[k].typ, j.members[JsonName(fs[k])]);
      }
      MembersValidate(x, g, rk, defs, Collect(g, rk, t, 0), fs, j);
    }
  }

  lemma AllFieldsIs(g: Graph, rk: Ranks, t: TypeId)
    requires Guarded(g, rk) && t < |g|
    ensures AllFields(g, rk, t) == Flat(g, rk, t, 0)
  {
  }

  lemma {:induction false} LastNamesake(fs: seq<Field>, n: string) returns (k: nat)
    requires HasName(fs, n)
    ensures k < |fs| && JsonName(fs[k]) == n && NoLaterNamesake(fs, k)
    decreases |fs|
  {
    var last := |fs| - 1;
    if JsonName(fs[last]) == n {
      k := last;
    } else {
      var l :| 0 <= l < |fs| && JsonName(fs[l]) == n;
      assert fs[..last][l] == fs[l];
      k := LastNamesake(fs[..last], n);
      forall m | k < m < |fs| ensures JsonName(fs[m]) != JsonName(fs[k]) {
        assert m < last ==> fs[..last][m] == fs[m];
      }
    }
  }

  /** An object meets the body made of these members exactly when it suits their fields. */
  lemma MembersValidate(x: Formats, g: Graph, rk: Ranks, defs: Defs, m: Members, fs: seq<Field>, j: Json)
    requires Guarded(g, rk) && InGraphFields(g, fs) && MembersOf(g, rk, m, fs) && j.JObj?
    requires forall k :: 0 <= k < |fs| && JsonName(fs[k]) in j.members ==>
               (Validates(x, Describe(g, rk, fs[k].typ).schema, defs, j.members[JsonName(fs[k])]) <==>
                Accepts(x, g, rk, fs[k].typ, j.members[JsonName(fs[k])]))
    ensures MeetsBody(x, Body(m), defs, j) <==>
            forall k :: 0 <= k < |fs| ==>
              && (!fs[k].omitEmpty ==> JsonName(fs[k]) in j.members)
              && (JsonName(fs[k]) in j.members && NoLaterNamesake(fs, k) ==>
                    Accepts(x, g, rk, fs[k].typ, j.members[JsonName(fs[k])]))
  {
    hide Describe, Validates, Accepts, NoLaterNamesake, JsonName;
    if MeetsBody(x, Body(m), defs, j) {
      forall k | 0 <= k < |fs| && !fs[k].omitEmpty ensures JsonName(fs[k]) in j.members {
        assert HasFirmName(fs, JsonName(fs[k]));
      }
    } else {
      assert HasTag(j, Body(m).tag);
      if n :| n in m.required && n !in j.members {
        assert HasFirmName(fs, n);
      } else {
        var n :| n in m.properties && n in j.members && !Validates(x, m.properties[n], defs, j.members[n]);
        assert HasName(fs, n);
        var k := LastNamesake(fs, n);
      }
    }
  }

  /**
   * For every type and every document: the type's schema, with the components,
   * validates the document if and only if the type accepts it.
   */
  lemma {:induction false} SchemaAccepts(x: Formats, g: Graph, rk: Ranks, defs: Defs, t: TypeId, j: Json)
    requires Guarded(g, rk) && Describing(g, rk, defs) && t < |g|
    requires Describe(g, rk, t).supported && Describe(g, rk, t).mentions <= defs.Keys
    ensures Validates(x, Describe(g, rk, t).schema, defs, j) <==> Accepts(x, g, rk, t, j)
    decreases j, 1, rk.s[t]
  {
    hide Describing, Collect, AcceptsObject, Validates, Accepts;
    assert StepsDown(g, rk, t);
    match g[t]
    case Pointer(e) => PointerAccepts(x, g, rk, defs, t, j);
    case Seq(e, _) => SeqAccepts(x, g, rk, defs, t, j);
    case Map(e) => MapAccepts(x, g, rk, defs, t, j);
    case Struct(name, _) => StructAccepts(x, g, rk, defs, t, j);
    case _ => PlainAccepts(x, g, rk, defs, t, j);
  }

  lemma PlainAccepts(x: Formats, g: Graph, rk: Ranks, defs: Defs, t: TypeId, j: Json)
    requires Guarded(g, rk) && t < |g| && !g[t].Pointer? && !g[t].Seq? && !g[t].Map? && !g[t].Struct?
    requires Describe(g, rk, t).supported
    ensures Validates(x, Describe(g, rk, t).schema, defs, j) <==> Accepts(x, g, rk, t, j)
  {
  }

  lemma {:induction false} StructAccepts(x: Formats, g: Graph, rk: Ranks, defs: Defs, t: TypeId, j: Json)
    requires Guarded(g, rk) && Describing(g, rk, defs) && t < |g| && g[t].Struct?
    requires Describe(g, rk, t).supported && Describe(g, rk, t).mentions <= defs.Keys
    ensures Validates(x, Describe(g, rk, t).schema, defs, j) <==> Accepts(x, g, rk, t, j)
    decreases j, 1, rk.s[t], 0
  {
    hide Describing, Collect, AcceptsObject, MeetsBody;
    if g[t].name != "" {
      RefValidates(x, g, rk, defs, t, j);
    }
    ObjectValidates(x, g, rk, defs, t, j);
  }

  /** An array's items, or null in its place. */
  lemma ArrayValidates(x: Formats, items: Schema, defs: Defs, j: Json)
    ensures Validates(x, ArrayOf(items), defs, j) <==>
            || j == JNull
            || (j.JArr? && forall i :: 0 <= i < |j.elements| ==> Validates(x, items, defs, j.elements[i]))
  {
  }

  lemma MapValidates(x: Formats, values: Schema, defs: Defs, j: Json)
    ensures Validates(x, MapOf(values), defs, j) <==>
            || j == JNull
            || (j.JObj? && forall p :: p in j.members ==> Validates(x, values, defs, j.members[p]))
  {
  }

  lemma {:induction false} SeqAccepts(x: Formats, g: Graph, rk: Ranks, defs: Defs, t: TypeId, j: Json)
    requires Guarded(g, rk) && Describing(g, rk, defs) && t < |g| && g[t].Seq?
    requires Describe(g, rk, t).supported && Describe(g, rk, t).mentions <= defs.Keys
    ensures Validates(x, Describe(g, rk, t).schema, defs, j) <==> Accepts(x, g, rk, t, j)
    decreases j, 1, rk.s[t], 0
  {
    hide Describing, ArrayOf;
    assert StepsDown(g, rk, t);
    var e := g[t].elem;
    if !g[e].Byte? {
      hide Validates;
      ArrayValidates(x, Describe(g, rk, e).schema, defs, j);
      if j.JArr? {
        forall i | 0 <= i < |j.elements|
          ensures Validates(x, Describe(g, rk, e).schema, defs, j.elements[i]) <==> Accepts(x, g, rk, e, j.elements[i])
        {
          SchemaAccepts(x, g, rk, defs, e, j.elements[i]);
        }
      }
    }
  }

  lemma {:induction false} MapAccepts(x: Formats, g: Graph, rk: Ranks, defs: Defs, t: TypeId, j: Json)
    requires Guarded(g, rk) && Describing(g, rk, defs) && t < |g| && g[t].Map?
    requires Describe(g, rk, t).supported && Describe(g, rk, t).mentions <= defs.Keys
    ensures Validates(x, Describe(g, rk, t).schema, defs, j) <==> Accepts(x, g, rk, t, j)
    decreases j, 1, rk.s[t], 0
  {
    hide Describing, MapOf, Validates;
    assert StepsDown(g, rk, t);
    var e := g[t].elem;
    MapValidates(x, Describe(g, rk, e).schema, defs, j);
    if j.JObj? {
      forall p | p in j.members
        ensures Validates(x, Describe(g, rk, e).schema, defs, j.members[p]) <==> Accepts(x, g, rk, e, j.members[p])
      {
        SchemaAccepts(x, g, rk, defs, e, j.members[p]);
      }
    }
  }

  lemma {:induction false} PointerAccepts(x: Formats, g: Graph, rk: Ranks, defs: Defs, t: TypeId, j: Json)
    requires Guarded(g, rk) && Describing(g, rk, defs) && t < |g| && g[t].Pointer?
    requires Describe(g, rk, t).supported && Describe(g, rk, t).mentions <= defs.Keys
    ensures Validates(x, Describe(g, rk, t).schema, defs, j) <==> Accepts(x, g, rk, t, j)
    decreases j, 1, rk.s[t], 0
  {
    hide Describing, Collect, AcceptsObject, Validates;
    assert StepsDown(g, rk, t);
    var e := g[t].elem;
    SchemaAccepts(x, g, rk, defs, e, j);
    RefsAreNamed(g, rk, e);
    var s := Describe(g, rk, e).schema;
    if s.ref == "" {
      NullableAddsNull(x, s, defs, j);
    }
  }
}

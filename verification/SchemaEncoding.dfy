/**
 * The documents encoding/json writes for a type, against the type's schema:
 * every one of them is accepted but for a few cases, which are named; and which
 * names a struct's schema requires, said of the fields that embedding brings in.
 */
module SchemaEncoding {
  import opened Wrappers
  import opened SchemaShape
  import opened SchemaBuilder
  import opened SchemaMeaning

  // ---- what encoding/json writes ----

  /** An object may hold more members: an embedded struct of an unexported type brings in its exported fields. */
  ghost predicate Encodes(x: Formats, g: Graph, rk: Ranks, t: TypeId, j: Json)
    requires Guarded(g, rk) && t < |g|
    decreases j, 2, rk.s[t]
  {
    assert StepsDown(g, rk, t);
    match g[t]
    case Nil => true
    case Interface => true
    case Time => j.JStr? && x.dateTime(j.text)
    case Bool => j.JBool?
    case Int => j.JInt?
    case Byte => j.JInt?
    case Float => j.JInt? || j.JFraction?
    case Str => j.JStr?
    case Pointer(e) => j == JNull || Encodes(x, g, rk, e, j)
    case Seq(e, fixed) =>
      || (j == JNull && !fixed)
      || (if g[e].Byte? && !fixed then j.JStr? && x.base64(j.text)
          else j.JArr? && forall i :: 0 <= i < |j.elements| ==> Encodes(x, g, rk, e, j.elements[i]))
    case Map(e) =>
      || j == JNull
      || (j.JObj? && forall p :: p in j.members ==> Encodes(x, g, rk, e, j.members[p]))
    case Struct(_, _) => j.JObj? && EncodesFields(x, g, rk, t, 0, j)
    case Unsupported => false
  }

  ghost predicate EncodesFields(x: Formats, g: Graph, rk: Ranks, t: TypeId, i: nat, j: Json)
    requires Guarded(g, rk) && t < |g| && i <= |OwnFields(g, t)| && j.JObj?
    decreases j, 1, rk.c[t], |OwnFields(g, t)| - i + 1
  {
    i == |OwnFields(g, t)| || (EncodesField(x, g, rk, t, i, j) && EncodesFields(x, g, rk, t, i + 1, j))
  }

  /** A nil embedded pointer leaves out all that it would bring in; a field is left out only with omitempty. */
  ghost predicate EncodesField(x: Formats, g: Graph, rk: Ranks, t: TypeId, i: nat, j: Json)
    requires Guarded(g, rk) && t < |g| && i < |OwnFields(g, t)| && j.JObj?
    decreases j, 1, rk.c[t], 0
  {
    assert StepsDown(g, rk, t);
    var f := OwnFields(g, t)[i];
    assert f in FieldsOf(g[t]);
    if !Exposed(f) then true
    else if Inlined(g, f).Some? then
      var u := Inlined(g, f).value;
      || EncodesFields(x, g, rk, u, 0, j)
      || (g[f.typ].Pointer? && forall p :: HasName(AllFields(g, rk, u), p) ==> p !in j.members)
    else if JsonName(f) in j.members then Writes(x, g, rk, f, j.members[JsonName(f)])
    else f.omitEmpty
  }

  /** With omitempty a pointer is written only when it is not nil. */
  ghost predicate Writes(x: Formats, g: Graph, rk: Ranks, f: Field, v: Json)
    requires Guarded(g, rk) && f.typ < |g|
    decreases v, 3
  {
    assert StepsDown(g, rk, f.typ);
    if f.omitEmpty && g[f.typ].Pointer? then Encodes(x, g, rk, g[f.typ].elem, v) else Encodes(x, g, rk, f.typ, v)
  }

  // ---- what the schema gives up ----

  /**
   * Somewhere in the document: null for a nil pointer to a named struct; bytes that are not a string, being nil
   * or of fixed length; or no value for a field without omitempty, which a nil embedded pointer leaves out.
   */
  ghost predicate GivesUp(g: Graph, rk: Ranks, t: TypeId, j: Json)
    requires Guarded(g, rk) && t < |g|
    decreases j, 1, rk.s[t]
  {
    assert StepsDown(g, rk, t);
    match g[t]
    case Pointer(e) => if j == JNull then LeadsToNamed(g, rk, e) else GivesUp(g, rk, e, j)
    case Seq(e, _) =>
      if g[e].Byte? then !j.JStr?
      else j.JArr? && exists i :: 0 <= i < |j.elements| && GivesUp(g, rk, e, j.elements[i])
    case Map(e) => j.JObj? && exists p :: p in j.members && GivesUp(g, rk, e, j.members[p])
    case Struct(_, _) => j.JObj? && GivesUpObject(g, rk, t, j)
    case _ => false
  }

  ghost predicate GivesUpObject(g: Graph, rk: Ranks, t: TypeId, j: Json)
    requires Guarded(g, rk) && t < |g| && j.JObj?
    decreases j, 0
  {
    var fs := AllFields(g, rk, t);
    exists k :: 0 <= k < |fs| &&
      if JsonName(fs[k]) in j.members then GivesUp(g, rk, fs[k].typ, j.members[JsonName(fs[k])])
      else !fs[k].omitEmpty
  }

  /** No struct has two fields of one name, embedding included. */
  ghost predicate NoRepeats(g: Graph, rk: Ranks)
    requires Guarded(g, rk)
  {
    forall t, k, l :: 0 <= t < |g| && 0 <= k < l < |AllFields(g, rk, t)| ==>
      JsonName(AllFields(g, rk, t)[k]) != JsonName(AllFields(g, rk, t)[l])
  }

  ghost predicate FieldsWritten(x: Formats, g: Graph, rk: Ranks, fs: seq<Field>, j: Json)
    requires Guarded(g, rk) && InGraphFields(g, fs) && j.JObj?
  {
    forall k :: 0 <= k < |fs| && JsonName(fs[k]) in j.members ==> Writes(x, g, rk, fs[k], j.members[JsonName(fs[k])])
  }

  lemma WrittenBoth(x: Formats, g: Graph, rk: Ranks, a: seq<Field>, b: seq<Field>, j: Json)
    requires Guarded(g, rk) && InGraphFields(g, a) && InGraphFields(g, b) && j.JObj?
    requires FieldsWritten(x, g, rk, a, j) && FieldsWritten(x, g, rk, b, j)
    ensures InGraphFields(g, a + b) && FieldsWritten(x, g, rk, a + b, j)
  {
    hide Writes, JsonName;
    forall k | 0 <= k < |a + b| && JsonName((a + b)[k]) in j.members
      ensures Writes(x, g, rk, (a + b)[k], j.members[JsonName((a + b)[k])])
    {
      assert (a + b)[k] == if k < |a| then a[k] else b[k - |a|];
    }
  }

  lemma {:induction false} FieldIsWritten(x: Formats, g: Graph, rk: Ranks, t: TypeId, i: nat, j: Json)
    requires Guarded(g, rk) && t < |g| && i < |OwnFields(g, t)| && j.JObj? && EncodesField(x, g, rk, t, i, j)
    ensures FieldsWritten(x, g, rk, FlatField(g, rk, t, i), j)
    decreases rk.c[t], 0
  {
    hide Writes;
    assert StepsDown(g, rk, t);
    var f := OwnFields(g, t)[i];
    assert f in FieldsOf(g[t]);
    if Exposed(f) && Inlined(g, f).Some? {
      var u := Inlined(g, f).value;
      if EncodesFields(x, g, rk, u, 0, j) {
        StructIsWritten(x, g, rk, u, 0, j);
      } else {
        var fs := AllFields(g, rk, u);
        forall k | 0 <= k < |fs| ensures JsonName(fs[k]) !in j.members {
          assert HasName(fs, JsonName(fs[k]));
        }
      }
    }
  }

  lemma {:induction false} StructIsWritten(x: Formats, g: Graph, rk: Ranks, t: TypeId, i: nat, j: Json)
    requires Guarded(g, rk) && t < |g| && i <= |OwnFields(g, t)| && j.JObj? && EncodesFields(x, g, rk, t, i, j)
    ensures FieldsWritten(x, g, rk, Flat(g, rk, t, i), j)
    decreases rk.c[t], |OwnFields(g, t)| - i + 1
  {
    hide FieldsWritten, EncodesField, FlatField;
    if i < |OwnFields(g, t)| {
      FieldIsWritten(x, g, rk, t, i, j);
      StructIsWritten(x, g, rk, t, i + 1, j);
      WrittenBoth(x, g, rk, FlatField(g, rk, t, i), Flat(g, rk, t, i + 1), j);
    } else {
      NothingIsWritten(x, g, rk, j);
    }
  }

  lemma NothingIsWritten(x: Formats, g: Graph, rk: Ranks, j: Json)
    requires Guarded(g, rk) && j.JObj?
    ensures FieldsWritten(x, g, rk, [], j)
  {
  }

  lemma WritesEncoding(x: Formats, g: Graph, rk: Ranks, f: Field, v: Json)
    requires Guarded(g, rk) && f.typ < |g| && Writes(x, g, rk, f, v)
    ensures Encodes(x, g, rk, f.typ, v)
  {
    assert StepsDown(g, rk, f.typ);
  }

  /** Of what encoding/json writes for a type, the type's schema accepts exactly what it does not give up. */
  lemma {:induction false} EncodingAcceptedIff(x: Formats, g: Graph, rk: Ranks, t: TypeId, j: Json)
    requires Guarded(g, rk) && NoRepeats(g, rk) && t < |g| && Encodes(x, g, rk, t, j)
    ensures Accepts(x, g, rk, t, j) <==> !GivesUp(g, rk, t, j)
    decreases j, 1, rk.s[t]
  {
    hide NoRepeats, EncodesFields, GivesUpObject, AcceptsObject;
    assert StepsDown(g, rk, t);
    match g[t]
    case Pointer(e) =>
      if j == JNull {
        if LeadsToNamed(g, rk, e) {
          NullIsNoObject(x, g, rk, e);
        }
      } else {
        EncodingAcceptedIff(x, g, rk, e, j);
      }
    case Seq(e, _) =>
      if !g[e].Byte? && j.JArr? {
        forall i | 0 <= i < |j.elements|
          ensures Accepts(x, g, rk, e, j.elements[i]) <==> !GivesUp(g, rk, e, j.elements[i])
        {
          EncodingAcceptedIff(x, g, rk, e, j.elements[i]);
        }
      }
    case Map(e) =>
      if j.JObj? {
        forall p | p in j.members ensures Accepts(x, g, rk, e, j.members[p]) <==> !GivesUp(g, rk, e, j.members[p]) {
          EncodingAcceptedIff(x, g, rk, e, j.members[p]);
        }
      }
    case Struct(_, _) => ObjectAcceptedIff(x, g, rk, t, j);
    case _ =>
  }

  lemma {:induction false} ObjectAcceptedIff(x: Formats, g: Graph, rk: Ranks, t: TypeId, j: Json)
    requires Guarded(g, rk) && NoRepeats(g, rk) && t < |g| && j.JObj? && EncodesFields(x, g, rk, t, 0, j)
    ensures AcceptsObject(x, g, rk, t, j) <==> !GivesUpObject(g, rk, t, j)
    decreases j, 0, 0
  {
    hide Accepts, GivesUp, Encodes, EncodesFields, JsonName;
    StructIsWritten(x, g, rk, t, 0, j);
    var fs := AllFields(g, rk, t);
    forall k | 0 <= k < |fs| ensures NoLaterNamesake(fs, k) {
    }
    forall k | 0 <= k < |fs| && JsonName(fs[k]) in j.members
      ensures Accepts(x, g, rk, fs[k].typ, j.members[JsonName(fs[k])]) <==>
              !GivesUp(g, rk, fs[k].typ, j.members[JsonName(fs[k])])
    {
      WritesEncoding(x, g, rk, fs[k], j.members[JsonName(fs[k])]);
      EncodingAcceptedIff(x, g, rk, fs[k].typ, j.members[JsonName(fs[k])]);
    }
  }

  /**
   * For every type whose structs repeat no name, and every document that
   * encoding/json writes for it: the document validates against the generated
   * schema and components if and only if it holds none of the cases given up.
   */
  lemma EncodingValidatesIff(x: Formats, g: Graph, rk: Ranks, defs: Defs, t: TypeId, j: Json)
    requires Guarded(g, rk) && Describing(g, rk, defs) && NoRepeats(g, rk) && t < |g|
    requires Describe(g, rk, t).supported && Describe(g, rk, t).mentions <= defs.Keys
    requires Encodes(x, g, rk, t, j)
    ensures Validates(x, Describe(g, rk, t).schema, defs, j) <==> !GivesUp(g, rk, t, j)
  {
    hide NoRepeats, Describing, Encodes, Accepts, GivesUp, Validates, Describe;
    SchemaAccepts(x, g, rk, defs, t, j);
    EncodingAcceptedIff(x, g, rk, t, j);
  }

  // ---- each case given up does happen ----

  /** Encoded as null: a nil pointer to a named struct, and nil bytes; as numbers: an array of bytes. */
  lemma NilIsGivenUp(x: Formats)
    ensures var g := [Pointer(1), Struct("pkg.T", [])];
            var rk := Ranks([1, 0], [0, 0]);
            Guarded(g, rk) && Encodes(x, g, rk, 0, JNull) && !Accepts(x, g, rk, 0, JNull)
    ensures var g := [Seq(1, false), Byte];
            var rk := Ranks([1, 0], [0, 0]);
            Guarded(g, rk) && Encodes(x, g, rk, 0, JNull) && !Accepts(x, g, rk, 0, JNull)
    ensures var g := [Seq(1, true), Byte];
            var rk := Ranks([1, 0], [0, 0]);
            Guarded(g, rk) && Encodes(x, g, rk, 0, JArr([JInt(7)])) && !Accepts(x, g, rk, 0, JArr([JInt(7)]))
  {
    var named, bytes, numbers := [Pointer(1), Struct("pkg.T", [])], [Seq(1, false), Byte], [Seq(1, true), Byte];
    var rk := Ranks([1, 0], [0, 0]);
    assert Guarded(named, rk) && Guarded(bytes, rk) && Guarded(numbers, rk);
    assert Accepts(x, named, rk, 0, JNull) <==> Accepts(x, named, rk, 1, JNull);
    assert Encodes(x, numbers, rk, 1, JInt(7));
  }

  const ID := Field("ID", true, false, false, "id", false, 2)
  const EMBEDDED := Field("Base", true, true, false, "", false, 1)
  const OWN_ID := Field("ID", true, false, false, "id", false, 3)

  function FieldGraph(outer: seq<Field>, base: Kind): Graph {
    [Struct("pkg.T", outer), base, Str, Int, Struct("pkg.Base", [ID])]
  }

  const FIELD_RANKS := Ranks([0, 1, 0, 0, 0], [3, 2, 0, 0, 1])

  /** A nil embedded pointer leaves out a name that is required. */
  lemma NilEmbeddedIsGivenUp(x: Formats)
    ensures var g := FieldGraph([EMBEDDED], Pointer(4));
            && Guarded(g, FIELD_RANKS)
            && Encodes(x, g, FIELD_RANKS, 0, JObj(map[])) && !Accepts(x, g, FIELD_RANKS, 0, JObj(map[]))
  {
    var g, rk, j := FieldGraph([EMBEDDED], Pointer(4)), FIELD_RANKS, JObj(map[]);
    GraphIsGuarded([EMBEDDED], Pointer(4));
    assert Flat(g, rk, 4, 0) == [ID] by {
      assert FlatField(g, rk, 4, 0) == [ID] && Flat(g, rk, 4, 1) == [];
    }
    assert FlatField(g, rk, 0, 0) == [ID] && Flat(g, rk, 0, 1) == [];
    assert AllFields(g, rk, 0)[0] == ID;
    assert EncodesField(x, g, rk, 0, 0, j) && EncodesFields(x, g, rk, 0, 1, j);
  }

  lemma GraphIsGuarded(outer: seq<Field>, base: Kind)
    requires forall f :: f in outer ==> f in {ID, EMBEDDED, OWN_ID}
    requires base == Pointer(4) || base == Struct("pkg.Inner", [ID])
    ensures Guarded(FieldGraph(outer, base), FIELD_RANKS)
  {
    var g, rk := FieldGraph(outer, base), FIELD_RANKS;
    forall t | 0 <= t < |g| ensures StepsDown(g, rk, t) {
    }
  }

  /**
   * When a name repeats, encoding/json writes the field that lies nearest, and the schema describes the one
   * that comes last: here an own integer and an embedded string.
   */
  lemma RepeatedNameMisleads(x: Formats)
    ensures var g := FieldGraph([OWN_ID, EMBEDDED], Struct("pkg.Inner", [ID]));
            && Guarded(g, FIELD_RANKS) && !NoRepeats(g, FIELD_RANKS)
            && !Accepts(x, g, FIELD_RANKS, 0, JObj(map["id" := JInt(7)]))
            && Accepts(x, g, FIELD_RANKS, 0, JObj(map["id" := JStr("seven")]))
  {
    hide Flat, NoLaterNamesake, NoRepeats;
    var g, rk := FieldGraph([OWN_ID, EMBEDDED], Struct("pkg.Inner", [ID])), FIELD_RANKS;
    RepeatedFields();
    var fs := AllFields(g, rk, 0);
    RepeatsNames(fs);
    assert fs[0] == OWN_ID && fs[1] == ID && g[2] == Str;
    NamesRepeat(g, rk, 0);
    ObjectOfBoth(x, JInt(7));
    ObjectOfBoth(x, JStr("seven"));
  }

  lemma RepeatedFields()
    ensures var g := FieldGraph([OWN_ID, EMBEDDED], Struct("pkg.Inner", [ID]));
            Guarded(g, FIELD_RANKS) && AllFields(g, FIELD_RANKS, 0) == [OWN_ID, ID]
  {
    var outer, base := [OWN_ID, EMBEDDED], Struct("pkg.Inner", [ID]);
    var g, rk := FieldGraph(outer, base), FIELD_RANKS;
    GraphIsGuarded(outer, base);
    assert Flat(g, rk, 1, 0) == [ID] by {
      assert FlatField(g, rk, 1, 0) == [ID] && Flat(g, rk, 1, 1) == [];
    }
    assert FlatField(g, rk, 0, 0) == [OWN_ID] && FlatField(g, rk, 0, 1) == [ID] && Flat(g, rk, 0, 2) == [];
    assert Flat(g, rk, 0, 1) == [ID];
  }

  lemma RepeatsNames(fs: seq<Field>)
    requires fs == [OWN_ID, ID]
    ensures NoLaterNamesake(fs, 1) && !NoLaterNamesake(fs, 0) && JsonName(fs[0]) == JsonName(fs[1]) == "id"
  {
    assert JsonName(fs[1]) == JsonName(fs[0]);
  }

  lemma NamesRepeat(g: Graph, rk: Ranks, t: TypeId)
    requires Guarded(g, rk) && t < |g| && AllFields(g, rk, t) == [OWN_ID, ID]
    ensures !NoRepeats(g, rk)
  {
    var fs := AllFields(g, rk, t);
    RepeatsNames(fs);
    assert 0 <= t < |g| && 0 <= 0 < 1 < |AllFields(g, rk, t)|;
  }

  lemma ObjectOfBoth(x: Formats, v: Json)
    ensures var g := FieldGraph([OWN_ID, EMBEDDED], Struct("pkg.Inner", [ID]));
            Guarded(g, FIELD_RANKS) && (Accepts(x, g, FIELD_RANKS, 0, JObj(map["id" := v])) <==> v.JStr?)
  {
    hide Flat, NoLaterNamesake, AllFields;
    RepeatedFields();
    var g, rk, j := FieldGraph([OWN_ID, EMBEDDED], Struct("pkg.Inner", [ID])), FIELD_RANKS, JObj(map["id" := v]);
    var fs := AllFields(g, rk, 0);
    RepeatsNames(fs);
    assert fs[1] == ID && j.members["id"] == v;
    assert Accepts(x, g, rk, 2, v) <==> v.JStr?;
    assert Accepts(x, g, rk, 0, j) <==> AcceptsObject(x, g, rk, 0, j);
    assert AcceptsObject(x, g, rk, 0, j) ==> Accepts(x, g, rk, fs[1].typ, j.members[JsonName(fs[1])]);
  }

  // ---- the required names, over paths of embedded structs ----

  ghost predicate Embeds(g: Graph, u: TypeId, v: TypeId) {
    u < |g| && exists f :: f in OwnFields(g, u) && f.typ < |g| && Exposed(f) && Inlined(g, f) == Some(v)
  }

  /** Structs each of which is embedded in the one before it. */
  ghost predicate IsPath(g: Graph, p: seq<TypeId>) {
    p != [] && p[|p| - 1] < |g| && forall i :: 0 <= i < |p| - 1 ==> Embeds(g, p[i], p[i + 1])
  }

  /** The field stands in the last struct of the path, and is not itself embedded away. */
  ghost predicate Brings(g: Graph, p: seq<TypeId>, f: Field) {
    && IsPath(g, p) && f in OwnFields(g, p[|p| - 1]) && f.typ < |g| && Exposed(f) && Inlined(g, f) == None
  }

  ghost predicate ReachedFrom(g: Graph, t: TypeId, f: Field) {
    exists p :: Brings(g, p, f) && p[0] == t
  }

  lemma {:induction false} FlatHolds(g: Graph, rk: Ranks, t: TypeId, i: nat, k: nat)
    requires Guarded(g, rk) && t < |g| && i <= k < |OwnFields(g, t)|
    ensures forall f :: f in FlatField(g, rk, t, k) ==> f in Flat(g, rk, t, i)
    decreases k - i
  {
    if i < k {
      FlatHolds(g, rk, t, i + 1, k);
    }
  }

  lemma {:induction false} PathIsFlat(g: Graph, rk: Ranks, p: seq<TypeId>, f: Field)
    requires Guarded(g, rk) && Brings(g, p, f)
    ensures p[0] < |g| && f in AllFields(g, rk, p[0])
    decreases |p|
  {
    hide Inlined, Exposed;
    var t := p[0];
    if |p| == 1 {
      var k :| 0 <= k < |OwnFields(g, t)| && OwnFields(g, t)[k] == f;
      FlatHolds(g, rk, t, 0, k);
    } else {
      assert Embeds(g, p[0], p[1]);
      forall i | 0 <= i < |p[1..]| - 1 ensures Embeds(g, p[1..][i], p[1..][i + 1]) {
        assert Embeds(g, p[i + 1], p[i + 2]);
      }
      PathIsFlat(g, rk, p[1..], f);
      var e :| e in OwnFields(g, t) && e.typ < |g| && Exposed(e) && Inlined(g, e) == Some(p[1]);
      var k :| 0 <= k < |OwnFields(g, t)| && OwnFields(g, t)[k] == e;
      FlatHolds(g, rk, t, 0, k);
    }
  }

  lemma {:induction false} FlatFieldHasPath(g: Graph, rk: Ranks, t: TypeId, i: nat, f: Field)
    requires Guarded(g, rk) && t < |g| && i < |OwnFields(g, t)| && f in FlatField(g, rk, t, i)
    ensures ReachedFrom(g, t, f)
    decreases rk.c[t], 0
  {
    assert StepsDown(g, rk, t);
    var e := OwnFields(g, t)[i];
    assert e in FieldsOf(g[t]);
    if Inlined(g, e).Some? {
      var u := Inlined(g, e).value;
      FlatHasPath(g, rk, u, 0, f);
      var p :| Brings(g, p, f) && p[0] == u;
      LongerPath(g, t, p, f, e);
    } else {
      assert Brings(g, [t], f);
    }
  }

  lemma LongerPath(g: Graph, t: TypeId, p: seq<TypeId>, f: Field, e: Field)
    requires Brings(g, p, f) && t < |g| && e in OwnFields(g, t) && e.typ < |g| && Exposed(e)
    requires Inlined(g, e) == Some(p[0])
    ensures ReachedFrom(g, t, f)
  {
    hide Exposed, Inlined;
    var longer := [t] + p;
    assert Embeds(g, t, p[0]);
    forall i | 0 <= i < |longer| - 1 ensures Embeds(g, longer[i], longer[i + 1]) {
      assert i > 0 ==> longer[i] == p[i - 1] && longer[i + 1] == p[i];
    }
    assert longer[|longer| - 1] == p[|p| - 1];
    assert Brings(g, longer, f) && longer[0] == t;
  }

  lemma {:induction false} FlatHasPath(g: Graph, rk: Ranks, t: TypeId, i: nat, f: Field)
    requires Guarded(g, rk) && t < |g| && i <= |OwnFields(g, t)| && f in Flat(g, rk, t, i)
    ensures ReachedFrom(g, t, f)
    decreases rk.c[t], |OwnFields(g, t)| - i + 1
  {
    hide FlatField, ReachedFrom;
    if f in FlatField(g, rk, t, i) {
      FlatFieldHasPath(g, rk, t, i, f);
    } else {
      FlatHasPath(g, rk, t, i + 1, f);
    }
  }

  /**
   * A struct's schema has a property of the name exactly when some field of that name is reached over embedded
   * structs, and requires it exactly when some such field is without omitempty.
   */
  lemma NamesOverPaths(g: Graph, rk: Ranks, t: TypeId, n: string)
    requires Guarded(g, rk) && t < |g|
    ensures n in Body(Collect(g, rk, t, 0)).properties <==> exists f :: ReachedFrom(g, t, f) && JsonName(f) == n
    ensures n in Body(Collect(g, rk, t, 0)).required <==>
            exists f :: ReachedFrom(g, t, f) && JsonName(f) == n && !f.omitEmpty
  {
    hide Flat, ReachedFrom, JsonName, Collect, Describe;
    StructGives(g, rk, t, 0);
    var fs := AllFields(g, rk, t);
    assert forall k :: 0 <= k < |fs| ==> fs[k] in fs;
    forall f ensures f in fs <==> ReachedFrom(g, t, f) {
      FieldsAreReached(g, rk, t, f);
    }
  }

  lemma FieldsAreReached(g: Graph, rk: Ranks, t: TypeId, f: Field)
    requires Guarded(g, rk) && t < |g|
    ensures f in AllFields(g, rk, t) <==> ReachedFrom(g, t, f)
  {
    hide Flat;
    if f in AllFields(g, rk, t) {
      FlatHasPath(g, rk, t, 0, f);
    }
    if p :| Brings(g, p, f) && p[0] == t {
      PathIsFlat(g, rk, p, f);
    }
  }
}

/**
 * On which type graphs the OpenAPI generator ends. Calls nest along the steps
 * from a type to its parts; only entering a named struct is guarded, by its
 * place in progress. Ranks that fall along all other steps, as the generator's
 * termination needs them, exist exactly when no cycle consists of such steps,
 * and along a cycle calls nest without bound.
 */
module SchemaCycles {
  import opened SchemaShape

  /** A call that describes a type, or one that collects the fields of a type. */
  datatype Call = Describing(typ: TypeId) | Collecting(typ: TypeId)

  /** All parts of a type are types of the graph. */
  ghost predicate InRange(g: Graph) {
    forall t :: 0 <= t < |g| ==>
      && (g[t].Pointer? || g[t].Seq? || g[t].Map? ==> g[t].elem < |g|)
      && forall f :: f in FieldsOf(g[t]) ==> f.typ < |g|
  }

  /** Collecting a field merges its type's fields or describes its type. */
  predicate FieldCalls(g: Graph, f: Field, b: Call) {
    && !Skipped(f) && f.typ < |g|
    && b == if Merges(g, f) then Collecting(MergedType(g, f)) else Describing(f.typ)
  }

  /** Call a leads to call b, other than by entering a named struct. */
  ghost predicate Nests(g: Graph, a: Call, b: Call) {
    && a.typ < |g| && b.typ < |g|
    && match a
       case Describing(t) =>
         || ((g[t].Pointer? || g[t].Seq? || g[t].Map?) && b == Describing(g[t].elem))
         || (g[t].Struct? && g[t].name == "" && b == Collecting(t))
       case Collecting(t) => exists f :: f in FieldsOf(g[t]) && FieldCalls(g, f, b)
  }

  ghost predicate IsChain(g: Graph, p: seq<Call>) {
    p != [] && forall i :: 0 <= i < |p| - 1 ==> Nests(g, p[i], p[i + 1])
  }

  ghost predicate IsCycle(g: Graph, p: seq<Call>) {
    |p| > 1 && IsChain(g, p) && p[0] == p[|p| - 1]
  }

  ghost predicate Acyclic(g: Graph) {
    forall p :: !IsCycle(g, p)
  }

  // ---- with ranks there is no cycle ----

  function RankOf(g: Graph, rk: Ranks, a: Call): nat
    requires |rk.s| == |rk.c| == |g| && a.typ < |g|
  {
    if a.Describing? then rk.s[a.typ] else rk.c[a.typ]
  }

  lemma NestingFalls(g: Graph, rk: Ranks, a: Call, b: Call)
    requires Guarded(g, rk) && Nests(g, a, b)
    ensures RankOf(g, rk, b) < RankOf(g, rk, a)
  {
    assert StepsDown(g, rk, a.typ);
  }

  lemma {:induction false} ChainFalls(g: Graph, rk: Ranks, p: seq<Call>)
    requires Guarded(g, rk) && IsChain(g, p) && |p| > 1
    ensures p[0].typ < |g| && p[|p| - 1].typ < |g|
    ensures RankOf(g, rk, p[|p| - 1]) < RankOf(g, rk, p[0])
  {
    var n := |p| - 1;
    assert Nests(g, p[n - 1], p[n]);
    NestingFalls(g, rk, p[n - 1], p[n]);
    if n > 1 {
      ChainFalls(g, rk, p[..n]);
    }
  }

  // ---- without a cycle there are ranks: a call is ranked by what it can lead to ----

  ghost predicate LeadsTo(g: Graph, a: Call, b: Call) {
    exists p :: |p| > 1 && IsChain(g, p) && p[0] == a && p[|p| - 1] == b
  }

  function AllCalls(g: Graph): set<Call> {
    (set t: nat | t < |g| :: Describing(t)) + (set t: nat | t < |g| :: Collecting(t))
  }

  ghost function Below(g: Graph, a: Call): set<Call> {
    set b | b in AllCalls(g) && LeadsTo(g, a, b)
  }

  lemma NestsLeads(g: Graph, a: Call, b: Call)
    requires Nests(g, a, b)
    ensures LeadsTo(g, a, b)
  {
    var p := [a, b];
    assert |p| > 1 && IsChain(g, p) && p[0] == a && p[|p| - 1] == b;
  }

  lemma NestsThenLeads(g: Graph, a: Call, b: Call, c: Call)
    requires Nests(g, a, b) && LeadsTo(g, b, c)
    ensures LeadsTo(g, a, c)
  {
    hide Nests;
    var p :| |p| > 1 && IsChain(g, p) && p[0] == b && p[|p| - 1] == c;
    var q := [a] + p;
    forall i | 0 <= i < |q| - 1 ensures Nests(g, q[i], q[i + 1]) {
      assert i > 0 ==> q[i] == p[i - 1] && q[i + 1] == p[i];
    }
    assert |q| > 1 && IsChain(g, q) && q[0] == a && q[|q| - 1] == c;
  }

  lemma SmallerBelow(s: set<Call>, t: set<Call>, x: Call)
    requires s <= t && x in t && x !in s
    ensures |s| < |t|
  {
    assert s <= t - {x};
    SizeOfSubset(s, t - {x});
  }

  lemma {:induction false} SizeOfSubset(s: set<Call>, t: set<Call>)
    requires s <= t
    ensures |s| <= |t|
    decreases s
  {
    if s != {} {
      var x :| x in s;
      SizeOfSubset(s - {x}, t - {x});
    }
  }

  /** What a nested call can lead to, the calling one can, and the nested call itself besides. */
  lemma BelowShrinks(g: Graph, a: Call, b: Call)
    requires Acyclic(g) && Nests(g, a, b)
    ensures |Below(g, b)| < |Below(g, a)|
  {
    hide Nests, IsChain;
    NestsIsCall(g, a, b);
    NestsLeads(g, a, b);
    forall c | c in Below(g, b) ensures c in Below(g, a) {
      NestsThenLeads(g, a, b, c);
    }
    forall p ensures !(|p| > 1 && IsChain(g, p) && p[0] == b && p[|p| - 1] == b) {
      assert !IsCycle(g, p);
    }
    SmallerBelow(Below(g, b), Below(g, a), b);
  }

  lemma NestsIsCall(g: Graph, a: Call, b: Call)
    requires Nests(g, a, b)
    ensures b in AllCalls(g)
  {
  }

  ghost function RanksBelow(g: Graph): Ranks {
    Ranks(seq(|g|, t requires 0 <= t < |g| => |Below(g, Describing(t))|),
          seq(|g|, t requires 0 <= t < |g| => |Below(g, Collecting(t))|))
  }

  lemma AcyclicStepsDown(g: Graph, t: TypeId)
    requires InRange(g) && Acyclic(g) && t < |g|
    ensures StepsDown(g, RanksBelow(g), t)
  {
    hide Acyclic, Below;
    if g[t].Pointer? || g[t].Seq? || g[t].Map? {
      BelowShrinks(g, Describing(t), Describing(g[t].elem));
    }
    if g[t].Struct? && g[t].name == "" {
      BelowShrinks(g, Describing(t), Collecting(t));
    }
    forall f | f in FieldsOf(g[t]) && !Skipped(f)
      ensures Merges(g, f) ==> RanksBelow(g).c[MergedType(g, f)] < RanksBelow(g).c[t]
      ensures !Merges(g, f) ==> RanksBelow(g).s[f.typ] < RanksBelow(g).c[t]
    {
      var b := if Merges(g, f) then Collecting(MergedType(g, f)) else Describing(f.typ);
      assert FieldCalls(g, f, b);
      BelowShrinks(g, Collecting(t), b);
    }
  }

  lemma GuardedInRange(g: Graph, rk: Ranks)
    requires Guarded(g, rk)
    ensures InRange(g)
  {
    forall t | 0 <= t < |g|
      ensures g[t].Pointer? || g[t].Seq? || g[t].Map? ==> g[t].elem < |g|
      ensures forall f :: f in FieldsOf(g[t]) ==> f.typ < |g|
    {
      assert StepsDown(g, rk, t);
    }
  }

  /**
   * A type graph has the ranks the generator's termination rests on if and only
   * if no cycle gets by without entering the fields of a named struct.
   */
  lemma GuardedIffAcyclic(g: Graph)
    ensures (exists rk :: Guarded(g, rk)) <==> InRange(g) && Acyclic(g)
  {
    hide IsChain, StepsDown, InRange;
    if rk :| Guarded(g, rk) {
      GuardedInRange(g, rk);
      forall p ensures !IsCycle(g, p) {
        if IsCycle(g, p) {
          ChainFalls(g, rk, p);
        }
      }
    }
    if InRange(g) && Acyclic(g) {
      forall t | 0 <= t < |g| ensures StepsDown(g, RanksBelow(g), t) {
        AcyclicStepsDown(g, t);
      }
      assert Guarded(g, RanksBelow(g));
    }
  }

  /** Around a cycle calls nest as deep as you like, and none of them is the guarded one. */
  lemma {:induction false} CyclesNestForever(g: Graph, p: seq<Call>, n: nat)
    requires IsCycle(g, p)
    ensures exists q :: IsChain(g, q) && |q| > n && q[0] == p[0] && q[|q| - 1] == p[0]
  {
    hide Nests;
    if n == 0 {
      assert IsChain(g, p) && |p| > n && p[0] == p[0] && p[|p| - 1] == p[0];
    } else {
      CyclesNestForever(g, p, n - 1);
      var q :| IsChain(g, q) && |q| > n - 1 && q[0] == p[0] && q[|q| - 1] == p[0];
      var longer := q + p[1..];
      forall i | 0 <= i < |longer| - 1 ensures Nests(g, longer[i], longer[i + 1]) {
        if i < |q| - 1 {
          assert longer[i] == q[i] && longer[i + 1] == q[i + 1];
        } else {
          assert longer[i] == p[i - (|q| - 1)] && longer[i + 1] == p[i - (|q| - 1) + 1];
        }
      }
      assert IsChain(g, longer) && |longer| > n && longer[0] == p[0] && longer[|longer| - 1] == p[0];
    }
  }

  function SelfReference(embedded: bool): Graph {
    [Struct("p.T", [Field("T", true, embedded, false, "", false, 1)]), Pointer(0)]
  }

  /** A struct may refer to itself through a field, but not merge itself. */
  lemma OnlyFieldsMayCycle()
    ensures exists rk :: Guarded(SelfReference(false), rk)
    ensures forall rk :: !Guarded(SelfReference(true), rk)
  {
    var byField, merged := SelfReference(false), SelfReference(true);
    var rk := Ranks([0, 1], [2, 0]);
    assert StepsDown(byField, rk, 0) && StepsDown(byField, rk, 1);
    assert Guarded(byField, rk);
    forall rk: Ranks ensures !Guarded(merged, rk) {
      var f := FieldsOf(merged[0])[0];
      assert Merges(merged, f) && MergedType(merged, f) == 0;
      if |rk.s| == |rk.c| == 2 {
        assert !StepsDown(merged, rk, 0);
      }
    }
  }
}

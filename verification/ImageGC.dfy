/**
 * The agent's image collector: a small set of recently used refs that is never
 * collected, and a pass that deletes unused images, oldest first, while the
 * disk is above the watermark.
 */
module ImageGC {
  import opened NewestFirst

  const PROTECTED_CAP: nat := 8

  // ---- the protected refs ----

  /** The distinct refs of a history, latest touch first. */
  function Latest(history: seq<string>): seq<string> {
    if history == [] then []
    else
      var n := |history| - 1;
      [history[n]] + Without(Latest(history[..n]), history[n])
  }

  function Without(s: seq<string>, r: string): seq<string> {
    if s == [] then [] else (if s[0] == r then [] else [s[0]]) + Without(s[1..], r)
  }

  ghost predicate Distinct(s: seq<string>) {
    forall i, j :: 0 <= i < j < |s| ==> s[i] != s[j]
  }

  ghost function Refs(s: seq<string>): set<string> {
    set r | r in s
  }

  /** The up to eight most recently touched refs. */
  function Recent(history: seq<string>): seq<string> {
    Cut(Latest(history))
  }

  function Cut(s: seq<string>): seq<string> {
    if |s| <= PROTECTED_CAP then s else s[..PROTECTED_CAP]
  }

  lemma {:induction false} WithoutKeeps(s: seq<string>, r: string)
    requires Distinct(s)
    ensures Distinct(Without(s, r)) && r !in Without(s, r)
    ensures forall x :: x in Without(s, r) <==> x in s && x != r
    ensures |Without(s, r)| == if r in s then |s| - 1 else |s|
  {
    if s != [] {
      assert s == [s[0]] + s[1..];
      WithoutKeeps(s[1..], r);
      forall x | x in Without(s[1..], r) ensures x != s[0] {
        var k :| 0 <= k < |s[1..]| && s[1..][k] == x;
        assert s[k + 1] == x;
      }
      DistinctCons(s[0], Without(s[1..], r));
    }
  }

  lemma DistinctCons(x: string, s: seq<string>)
    requires Distinct(s) && x !in s
    ensures Distinct([x] + s)
  {
  }

  lemma {:induction false} LatestIsDistinct(history: seq<string>)
    ensures Distinct(Latest(history))
    ensures forall r :: r in Latest(history) <==> r in history
  {
    if history != [] {
      var n := |history| - 1;
      assert history == history[..n] + [history[n]];
      LatestIsDistinct(history[..n]);
      WithoutKeeps(Latest(history[..n]), history[n]);
    }
  }

  /** Taking a ref out of a prefix or after it. */
  lemma {:induction false} WithoutSplits(a: seq<string>, b: seq<string>, r: string)
    ensures Without(a + b, r) == Without(a, r) + Without(b, r)
  {
    if a == [] {
      assert a + b == b;
    } else {
      assert (a + b)[1..] == a[1..] + b;
      WithoutSplits(a[1..], b, r);
    }
  }

  /** The refs of the list, most recent first, each with the time of its last touch. */
  ghost predicate Remembers(touched: map<string, int>, lru: seq<string>) {
    && touched.Keys == Refs(lru) && Younger(touched, lru)
    && Distinct(lru) && |lru| <= PROTECTED_CAP
  }

  datatype Use = Touched(r: string) | Untouched(r: string)

  /** The list of a history of uses: a touch moves to the front and may push out the last, an untouch takes out. */
  function Lru(uses: seq<Use>): seq<string> {
    if uses == [] then []
    else
      var before, u := Lru(uses[..|uses| - 1]), uses[|uses| - 1];
      if u.Touched? then Cut([u.r] + Without(before, u.r)) else Without(before, u.r)
  }

  ghost predicate IsOldest(touched: map<string, int>, r: string) {
    r in touched && forall x :: x in touched ==> touched[r] <= touched[x]
  }

  class GC {
    var touched: map<string, int>

    constructor ()
      ensures touched == map[]
    {
      touched := map[];
    }

    /** Marks a ref as used now; one with the oldest use gives way when there are too many. */
    method Touch(r: string, now: int)
      requires |touched| <= PROTECTED_CAP && "" !in touched
      modifies this
      ensures |touched| <= 8 && "" !in touched
      ensures if r == "" then touched == old(touched) else TouchLeaves(old(touched), r, now, touched)
    {
      if r == "" {
        return;
      }
      ghost var before := touched;
      touched := touched[r := now];
      assert touched.Keys == before.Keys + {r};
      if |touched| <= PROTECTED_CAP {
        return;
      }
      var oldest := "";
      var left := touched.Keys;
      while left != {}
        invariant left <= touched.Keys && touched == before[r := now]
        invariant oldest == "" <==> left == touched.Keys
        invariant oldest != "" ==> oldest in touched && forall x :: x in touched && x !in left ==>
            touched[oldest] <= touched[x]
        decreases left
      {
        var x :| x in left;
        left := left - {x};
        if oldest == "" || touched[x] < touched[oldest] {
          oldest := x;
        }
      }
      assert IsOldest(touched, oldest);
      touched := touched - {oldest};
    }

    method Untouch(r: string)
      modifies this
      ensures touched == old(touched) - {r}
    {
      touched := touched - {r};
    }

    /**
     * One pass over the runtime's listing, whose backing array the filter reuses.
     * above(n) is the n-th sample of the disk, fails says which deletes do not go through.
     */
    method RunOnce(images: array<Image>, used: set<string>, above: nat -> bool, fails: string -> bool)
      returns (deleted: seq<string>, ghost tried: seq<Image>)
      modifies images
      ensures deleted == Deleted(tried, fails)
      ensures var candidates := OldestFirst(Removable(old(images[..]), used + touched.Keys));
              && tried <= candidates
              && (!above(0) ==> tried == [])
              && (forall i :: 0 < i <= |tried| ==> above(i))
              && (above(0) && tried != candidates ==> !above(|tried| + 1))
      ensures OnlyOldest(old(images[..]), used + touched.Keys, tried) && AreNames(tried, fails, deleted)
      ensures above(0) && above(|tried| + 1) ==> LeavesNone(old(images[..]), used + touched.Keys, tried)
      ensures touched == old(touched)
    {
      hide Sort, Removable, Deleted, OldestFirst, OnlyOldest, AreNames, LeavesNone;
      PassIsPlain(images[..], used + touched.Keys, fails);
      NothingYet(used + touched.Keys, fails);
      tried := [];
      deleted := [];
      if !above(0) {
        return;
      }
      ghost var listing := images[..];
      var keep := used + touched.Keys;
      var k := 0;
      for i := 0 to images.Length
        invariant 0 <= k <= i
        invariant images[i..] == listing[i..]
        invariant images[..k] == Removable(listing[..i], keep)
      {
        assert images[i] == images[i..][0] == listing[i];
        RemovableNext(listing, i, keep);
        if images[i].name !in keep {
          images[k] := images[i];
          k := k + 1;
        }
        assert images[i + 1..] == listing[i + 1..];
      }
      assert listing[..images.Length] == listing;
      var candidates := OldestFirst(images[..k]);
      var n := 0;
      while n < |candidates|
        invariant 0 <= n <= |candidates| && tried == candidates[..n]
        invariant deleted == Deleted(tried, fails)
        invariant forall i :: 0 < i <= n ==> above(i)
      {
        if !above(n + 1) {
          return;
        }
        var img := candidates[n];
        DeletedNext(candidates, n, fails);
        if !fails(img.name) {
          deleted := deleted + [img.name];
        }
        n := n + 1;
        tried := candidates[..n];
      }
    }
  }

  // ---- a pass ----

  datatype Image = Image(name: string, updated: int)

  function Removable(images: seq<Image>, keep: set<string>): seq<Image> {
    if images == [] then []
    else
      var n := |images| - 1;
      Removable(images[..n], keep) + (if images[n].name in keep then [] else [images[n]])
  }

  function OldestFirst(images: seq<Image>): seq<Image> {
    Sort((img: Image) => -img.updated, images)
  }

  function Deleted(tried: seq<Image>, fails: string -> bool): seq<string> {
    if tried == [] then []
    else
      var n := |tried| - 1;
      Deleted(tried[..n], fails) + (if fails(tried[n].name) then [] else [tried[n].name])
  }

  // ---- a pass, in terms of the listing ----

  /**
   * Only images that are listed and not kept are tried, each as often as it is listed, and in the order of
   * their age; none is tried while an older one is left.
   */
  ghost predicate OnlyOldest(images: seq<Image>, keep: set<string>, tried: seq<Image>) {
    && (forall img :: multiset(tried)[img] <= if img.name in keep then 0 else multiset(images)[img])
    && (forall i, j :: 0 <= i < j < |tried| ==> tried[i].updated <= tried[j].updated)
    && (forall img: Image, t :: t in tried && img.name !in keep && img.updated < t.updated ==>
          multiset(tried)[img] == multiset(images)[img])
  }

  /** Every image that may go has been tried. */
  ghost predicate LeavesNone(images: seq<Image>, keep: set<string>, tried: seq<Image>) {
    forall img: Image :: img.name !in keep ==> multiset(tried)[img] == multiset(images)[img]
  }

  /** The names are those of the images whose delete goes through, in the order of the attempts. */
  ghost predicate AreNames(tried: seq<Image>, fails: string -> bool, names: seq<string>) {
    exists at: seq<nat> :: NamesAt(tried, fails, names, at)
  }

  ghost predicate NamesAt(tried: seq<Image>, fails: string -> bool, names: seq<string>, at: seq<nat>) {
    && |at| == |names|
    && (forall k, l :: 0 <= k < l < |at| ==> at[k] < at[l])
    && (forall k :: 0 <= k < |at| ==> at[k] < |tried| && !fails(tried[at[k]].name) && names[k] == tried[at[k]].name)
    && (forall i :: 0 <= i < |tried| && !fails(tried[i].name) ==> i in at)
  }

  lemma NamesNext(tried: seq<Image>, img: Image, fails: string -> bool, names: seq<string>, at: seq<nat>)
    requires NamesAt(tried, fails, names, at)
    ensures if fails(img.name) then NamesAt(tried + [img], fails, names, at)
            else NamesAt(tried + [img], fails, names + [img.name], at + [|tried|])
  {
    var more := at + [|tried|];
    assert more[|at|] == |tried|;
    assert forall i :: i in at ==> i in more;
  }

  lemma NoNames(fails: string -> bool)
    ensures NamesAt([], fails, [], [])
  {
  }

  lemma {:induction false} DeletedNamesAt(tried: seq<Image>, fails: string -> bool) returns (at: seq<nat>)
    ensures NamesAt(tried, fails, Deleted(tried, fails), at)
  {
    hide NamesAt, Deleted;
    if tried == [] {
      NothingYet({}, fails);
      NoNames(fails);
      at := [];
    } else {
      var n: nat := |tried| - 1;
      var front, last := tried[..n], tried[n];
      assert front + [last] == tried;
      at := DeletedNamesAt(front, fails);
      NamesNext(front, last, fails, Deleted(front, fails), at);
      DeletedNext(tried, n, fails);
      assert tried[..n + 1] == tried;
      if fails(last.name) {
        assert Deleted(front, fails) + [] == Deleted(front, fails);
      } else {
        at := at + [n];
      }
    }
  }

  lemma {:induction false} RemovableCounts(images: seq<Image>, keep: set<string>, img: Image)
    ensures multiset(Removable(images, keep))[img] == if img.name in keep then 0 else multiset(images)[img]
  {
    if images != [] {
      var n := |images| - 1;
      RemovableCounts(images[..n], keep, img);
      assert images == images[..n] + [images[n]];
    }
  }

  /** The front of a sequence in the order of age. */
  lemma FrontIsOldest(all: seq<Image>, tried: seq<Image>, images: seq<Image>, keep: set<string>)
    requires tried <= all && forall i, j :: 0 <= i < j < |all| ==> all[i].updated <= all[j].updated
    requires forall img :: multiset(all)[img] == if img.name in keep then 0 else multiset(images)[img]
    ensures OnlyOldest(images, keep, tried)
  {
    var rest := all[|tried|..];
    assert all == tried + rest;
    forall img: Image, t | t in tried && img.name !in keep && img.updated < t.updated
      ensures multiset(tried)[img] == multiset(images)[img]
    {
      var i :| 0 <= i < |tried| && tried[i] == t;
      assert all[i] == t;
      assert img !in rest;
      assert multiset(rest)[img] == 0;
    }
  }

  /** What is tried from the front of the candidates is the oldest of what may go. */
  lemma {:induction false} PrefixIsOldest(images: seq<Image>, keep: set<string>, tried: seq<Image>)
    requires tried <= OldestFirst(Removable(images, keep))
    ensures OnlyOldest(images, keep, tried)
    ensures tried == OldestFirst(Removable(images, keep)) ==> LeavesNone(images, keep, tried)
  {
    hide Removable, OnlyOldest;
    var key := (img: Image) => -img.updated;
    var all := OldestFirst(Removable(images, keep));
    CandidatesAreOldestFirst(Removable(images, keep));
    SortIsStable(key, Removable(images, keep));
    forall img: Image ensures multiset(all)[img] == if img.name in keep then 0 else multiset(images)[img] {
      RemovableCounts(images, keep, img);
    }
    FrontIsOldest(all, tried, images, keep);
  }

  lemma SomeNames(tried: seq<Image>, fails: string -> bool, names: seq<string>, at: seq<nat>)
    requires NamesAt(tried, fails, names, at)
    ensures AreNames(tried, fails, names)
  {
  }

  lemma PassIsPlain(images: seq<Image>, keep: set<string>, fails: string -> bool)
    ensures forall tried: seq<Image> :: tried <= OldestFirst(Removable(images, keep)) ==>
              && OnlyOldest(images, keep, tried)
              && AreNames(tried, fails, Deleted(tried, fails))
              && (tried == OldestFirst(Removable(images, keep)) ==>
                    LeavesNone(images, keep, tried))
  {
    hide OnlyOldest, AreNames, LeavesNone, OldestFirst, Removable, Deleted;
    forall tried: seq<Image> | tried <= OldestFirst(Removable(images, keep))
      ensures OnlyOldest(images, keep, tried) && AreNames(tried, fails, Deleted(tried, fails))
      ensures tried == OldestFirst(Removable(images, keep)) ==>
                LeavesNone(images, keep, tried)
    {
      PrefixIsOldest(images, keep, tried);
      var at := DeletedNamesAt(tried, fails);
      SomeNames(tried, fails, Deleted(tried, fails), at);
    }
  }

  lemma NothingYet(keep: set<string>, fails: string -> bool)
    ensures Removable([], keep) == [] && Deleted([], fails) == []
  {
  }

  lemma RemovableNext(images: seq<Image>, i: nat, keep: set<string>)
    requires i < |images|
    ensures Removable(images[..i + 1], keep) ==
            Removable(images[..i], keep) + (if images[i].name in keep then [] else [images[i]])
  {
    assert images[..i + 1][..i] == images[..i];
  }

  lemma DeletedNext(images: seq<Image>, n: nat, fails: string -> bool)
    requires n < |images|
    ensures Deleted(images[..n + 1], fails) ==
            Deleted(images[..n], fails) + (if fails(images[n].name) then [] else [images[n].name])
  {
    assert images[..n + 1][..n] == images[..n];
  }

  lemma {:induction false} RemovableIsFilter(images: seq<Image>, keep: set<string>)
    ensures forall img :: img in Removable(images, keep) <==> img in images && img.name !in keep
  {
    if images != [] {
      var n := |images| - 1;
      RemovableIsFilter(images[..n], keep);
      assert images == images[..n] + [images[n]];
    }
  }

  predicate WasTried(tried: seq<Image>, name: string) {
    exists i :: 0 <= i < |tried| && tried[i].name == name
  }

  lemma TriedNext(tried: seq<Image>, img: Image, name: string)
    ensures WasTried(tried + [img], name) <==> WasTried(tried, name) || img.name == name
  {
    var more := tried + [img];
    if WasTried(tried, name) {
      var i :| 0 <= i < |tried| && tried[i].name == name;
      assert more[i].name == name;
    }
    assert more[|tried|] == img;
  }

  lemma {:induction false} DeletedWereTried(tried: seq<Image>, fails: string -> bool)
    ensures forall d :: d in Deleted(tried, fails) <==> !fails(d) && WasTried(tried, d)
  {
    hide WasTried;
    if tried == [] {
      NothingTried();
    } else {
      var n := |tried| - 1;
      DeletedWereTried(tried[..n], fails);
      assert tried == tried[..n] + [tried[n]];
      forall d ensures WasTried(tried, d) <==> WasTried(tried[..n], d) || tried[n].name == d {
        TriedNext(tried[..n], tried[n], d);
      }
    }
  }

  lemma NothingTried()
    ensures forall name :: !WasTried([], name)
  {
  }

  /** The candidates are the removable images, least recently updated first. */
  lemma CandidatesAreOldestFirst(images: seq<Image>)
    ensures var all := OldestFirst(images);
            && (forall img :: img in all <==> img in images)
            && forall i, j :: 0 <= i < j < |all| ==> all[i].updated <= all[j].updated
  {
    var key := (img: Image) => -img.updated;
    var all := OldestFirst(images);
    SortIsStable(key, images);
    forall img ensures img in all <==> img in images {
      assert img in all <==> img in multiset(all);
      assert img in images <==> img in multiset(images);
    }
    forall i, j | 0 <= i < j < |all| ensures all[i].updated <= all[j].updated {
      assert key(all[i]) >= key(all[j]);
    }
  }

  /** No used or protected image is deleted, and everything removable that is older than a tried image was tried too. */
  lemma PassIsSafe(images: seq<Image>, keep: set<string>, tried: seq<Image>, fails: string -> bool)
    requires tried <= OldestFirst(Removable(images, keep))
    ensures forall d :: d in Deleted(tried, fails) ==> d !in keep && exists img :: img in images && img.name == d
    ensures forall i, j :: 0 <= i < j < |tried| ==> tried[i].updated <= tried[j].updated
    ensures forall img, t :: img in images && img.name !in keep && t in tried && img.updated < t.updated ==>
        img in tried
  {
    hide OldestFirst, Removable, Deleted;
    var all := OldestFirst(Removable(images, keep));
    CandidatesAreOldestFirst(Removable(images, keep));
    RemovableIsFilter(images, keep);
    DeletedWereTried(tried, fails);
    forall d | d in Deleted(tried, fails) ensures d !in keep && exists img :: img in images && img.name == d {
      var i :| 0 <= i < |tried| && tried[i].name == d;
      assert all[i] in all;
    }
    forall img, t | img in images && img.name !in keep && t in tried && img.updated < t.updated ensures img in tried {
      var i :| 0 <= i < |all| && all[i] == img;
      var j :| 0 <= j < |tried| && tried[j] == t;
      assert all[j] == t;
      assert tried[i] == img;
    }
  }

  /** What a touch may leave: of equally old refs, any one gives way. */
  ghost predicate TouchLeaves(a: map<string, int>, r: string, now: int, b: map<string, int>) {
    var all := a[r := now];
    if |all| <= PROTECTED_CAP then b == all else exists o :: IsOldest(all, o) && b == all - {o}
  }

  /** The recent refs after one more touch depend on those before it only. */
  lemma RecentStep(history: seq<string>, r: string)
    ensures Recent(history + [r]) == Cut([r] + Without(Recent(history), r))
    ensures Distinct(Recent(history)) && |Recent(history)| <= PROTECTED_CAP
  {
    var latest, recent := Latest(history), Recent(history);
    LatestIsDistinct(history);
    assert (history + [r])[..|history|] == history;
    var rest := latest[|recent|..];
    assert latest == recent + rest;
    WithoutSplits(recent, rest, r);
    WithoutKeeps(recent, r);
    var candidates := [r] + Without(recent, r);
    assert Latest(history + [r]) == candidates + Without(rest, r);
    if rest == [] {
      assert candidates + Without(rest, r) == candidates;
    } else {
      CutPrefix(candidates, Without(rest, r));
    }
  }

  lemma CutPrefix(a: seq<string>, b: seq<string>)
    requires |a| >= PROTECTED_CAP
    ensures Cut(a + b) == Cut(a)
  {
    assert (a + b)[..PROTECTED_CAP] == a[..PROTECTED_CAP];
    assert |a| == PROTECTED_CAP ==> a[..PROTECTED_CAP] == a;
  }

  ghost predicate Younger(touched: map<string, int>, s: seq<string>) {
    && (forall x :: x in s ==> x in touched)
    && forall i, j :: 0 <= i < j < |s| ==> touched[s[i]] > touched[s[j]]
  }

  /** The touched ref comes first, the others keep their order. */
  lemma CandidatesAreYounger(a: map<string, int>, recent: seq<string>, r: string, now: int)
    requires Younger(a, recent) && Distinct(recent) && forall x :: x in a ==> a[x] < now
    ensures Younger(a[r := now], [r] + Without(recent, r))
    ensures Distinct([r] + Without(recent, r))
    ensures Refs([r] + Without(recent, r)) == Refs(recent) + {r}
  {
    WithoutKeeps(recent, r);
    WithoutKeepsOrder(a, recent, r);
    var w, all := Without(recent, r), a[r := now];
    forall i, j | 0 <= i < j < |[r] + w| ensures all[([r] + w)[i]] > all[([r] + w)[j]] {
      assert w[j - 1] in w && (i > 0 ==> w[i - 1] in w);
    }
  }

  /** One more touch does to the map what it does to the list. */
  lemma {:induction false} TouchRemembers(a: map<string, int>, lru: seq<string>, r: string, now: int,
                                           b: map<string, int>)
    requires Remembers(a, lru) && TouchLeaves(a, r, now, b)
    requires forall x :: x in a ==> a[x] < now
    ensures Remembers(b, Cut([r] + Without(lru, r)))
  {
    hide Without;
    var all := a[r := now];
    CandidatesAreYounger(a, lru, r, now);
    var candidates := [r] + Without(lru, r);
    assert all.Keys == Refs(candidates);
    DistinctSize(candidates);
    assert |all| == |all.Keys| == |candidates|;
    CutIsDistinct(candidates);
    if |candidates| > PROTECTED_CAP {
      var o :| IsOldest(all, o) && b == all - {o};
      WithoutSize(lru, r);
      OldestIsLast(all, candidates, o);
    }
  }

  lemma CutIsDistinct(s: seq<string>)
    requires Distinct(s)
    ensures Distinct(Cut(s)) && |Cut(s)| <= PROTECTED_CAP
  {
  }

  lemma UntouchRemembers(a: map<string, int>, lru: seq<string>, r: string)
    requires Remembers(a, lru)
    ensures Remembers(a - {r}, Without(lru, r))
  {
    WithoutKeeps(lru, r);
    WithoutKeepsOrder(a, lru, r);
    WithoutSize(lru, r);
  }

  lemma {:induction false} WithoutSize(s: seq<string>, r: string)
    ensures |Without(s, r)| <= |s|
  {
    if s != [] {
      WithoutSize(s[1..], r);
    }
  }

  lemma OldestIsLast(all: map<string, int>, s: seq<string>, o: string)
    requires |s| == PROTECTED_CAP + 1 && Younger(all, s) && Distinct(s) && all.Keys == Refs(s) && IsOldest(all, o)
    ensures o == s[PROTECTED_CAP]
    ensures (all - {o}).Keys == Refs(Cut(s)) && Younger(all - {o}, Cut(s))
  {
    assert s[PROTECTED_CAP] in Refs(s);
    var k :| 0 <= k < |s| && s[k] == o;
    assert k == PROTECTED_CAP;
    forall x ensures x in Refs(Cut(s)) <==> x in Refs(s) - {o} {
      if x in Refs(s) - {o} {
        var i :| 0 <= i < |s| && s[i] == x;
        assert Cut(s)[i] == x;
      }
    }
  }

  lemma {:induction false} DistinctSize(s: seq<string>)
    requires Distinct(s)
    ensures |Refs(s)| == |s|
  {
    if s == [] {
      assert Refs(s) == {};
    } else {
      DistinctSize(s[1..]);
      assert s == [s[0]] + s[1..];
      assert Refs(s) == {s[0]} + Refs(s[1..]);
      assert s[0] !in Refs(s[1..]);
    }
  }

  lemma {:induction false} WithoutKeepsOrder(touched: map<string, int>, s: seq<string>, r: string)
    requires Younger(touched, s)
    ensures forall x :: x in Without(s, r) ==> x in s
    ensures Younger(touched, Without(s, r))
  {
    if s != [] {
      assert s == [s[0]] + s[1..];
      WithoutKeepsOrder(touched, s[1..], r);
      forall x | x in Without(s[1..], r) ensures touched[s[0]] > touched[x] {
        var k :| 0 <= k < |s[1..]| && s[1..][k] == x;
        assert s[k + 1] == x;
      }
    }
  }

  /** What the map may be after each of a sequence of uses under a strictly increasing clock. */
  ghost predicate InUse(maps: seq<map<string, int>>, uses: seq<Use>, times: seq<int>) {
    && |maps| == |uses| + 1 && |times| == |uses| && maps[0] == map[]
    && (forall i, j :: 0 <= i < j < |times| ==> times[i] < times[j])
    && forall i :: 0 <= i < |uses| ==>
         && uses[i].r != ""
         && if uses[i].Touched? then TouchLeaves(maps[i], uses[i].r, times[i], maps[i + 1])
            else maps[i + 1] == maps[i] - {uses[i].r}
  }

  /** After any run of touches and untouches the protected refs are exactly those of the list, in order of use. */
  lemma {:induction false} ProtectsTheList(maps: seq<map<string, int>>, uses: seq<Use>, times: seq<int>, n: nat)
    requires InUse(maps, uses, times) && n <= |uses|
    ensures Remembers(maps[n], Lru(uses[..n]))
    ensures forall x :: x in maps[n] ==> exists i :: 0 <= i < n && maps[n][x] == times[i]
  {
    if n > 0 {
      ProtectsTheList(maps, uses, times, n - 1);
      var u := uses[n - 1];
      assert uses[..n] == uses[..n - 1] + [u];
      assert uses[..n][..n - 1] == uses[..n - 1];
      if u.Touched? {
        TouchRemembers(maps[n - 1], Lru(uses[..n - 1]), u.r, times[n - 1], maps[n]);
      } else {
        UntouchRemembers(maps[n - 1], Lru(uses[..n - 1]), u.r);
      }
      forall x | x in maps[n] ensures exists i :: 0 <= i < n && maps[n][x] == times[i] {
        if u == Touched(x) {
          assert maps[n][x] == times[n - 1];
        } else {
          assert maps[n][x] == maps[n - 1][x];
        }
      }
    }
  }

  function Touches(refs: seq<string>): seq<Use> {
    seq(|refs|, i requires 0 <= i < |refs| => Touched(refs[i]))
  }

  /** When nothing is untouched, the list holds exactly the eight refs touched most recently. */
  lemma {:induction false} TouchesProtectTheMostRecent(refs: seq<string>)
    ensures Lru(Touches(refs)) == Recent(refs)
  {
    if refs != [] {
      var n := |refs| - 1;
      TouchesProtectTheMostRecent(refs[..n]);
      RecentStep(refs[..n], refs[n]);
      assert Touches(refs)[..n] == Touches(refs[..n]);
      assert refs == refs[..n] + [refs[n]];
    }
  }
}

/**
 * The stable newest-first order of timed items, and how it treats a log whose
 * older part has been cut off.
 */
module NewestFirst {
  /** Before the first item that is not newer: an equal item that came later stays later. */
  function Insert<T>(time: T -> int, e: T, s: seq<T>): seq<T> {
    if s == [] || time(s[0]) <= time(e) then [e] + s else [s[0]] + Insert(time, e, s[1..])
  }

  function Sort<T>(time: T -> int, s: seq<T>): seq<T> {
    if s == [] then [] else Insert(time, s[0], Sort(time, s[1..]))
  }

  function Take<T>(s: seq<T>, limit: nat): seq<T> {
    if |s| > limit then s[..limit] else s
  }

  /** The items of one instant, in order. */
  function At<T>(time: T -> int, s: seq<T>, t: int): seq<T> {
    if s == [] then [] else (if time(s[0]) == t then [s[0]] else []) + At(time, s[1..], t)
  }

  ghost predicate Descending<T>(time: T -> int, s: seq<T>) {
    forall i, j :: 0 <= i < j < |s| ==> time(s[i]) >= time(s[j])
  }

  /** Every item of older is strictly older than every item of newer. */
  ghost predicate Before<T>(time: T -> int, older: seq<T>, newer: seq<T>) {
    forall i, j :: 0 <= i < |older| && 0 <= j < |newer| ==> time(older[i]) < time(newer[j])
  }

  ghost predicate NotAfter<T>(time: T -> int, older: seq<T>, newer: seq<T>) {
    forall i, j :: 0 <= i < |older| && 0 <= j < |newer| ==> time(older[i]) <= time(newer[j])
  }

  // ---- the sort is the stable one ----

  lemma {:induction false} InsertHolds<T>(time: T -> int, e: T, s: seq<T>)
    ensures multiset(Insert(time, e, s)) == multiset(s) + multiset{e}
  {
    if s != [] && time(s[0]) > time(e) {
      assert s == [s[0]] + s[1..];
      InsertHolds(time, e, s[1..]);
    }
  }

  lemma {:induction false} InsertDescends<T>(time: T -> int, e: T, s: seq<T>)
    requires Descending(time, s)
    ensures Descending(time, Insert(time, e, s))
  {
    if s != [] && time(s[0]) > time(e) {
      InsertDescends(time, e, s[1..]);
      InsertHolds(time, e, s[1..]);
      var rest := Insert(time, e, s[1..]);
      forall i | 0 <= i < |rest| ensures time(s[0]) >= time(rest[i]) {
        assert rest[i] in multiset(rest);
        assert rest[i] == e || rest[i] in s[1..];
      }
    }
  }

  lemma AtCons<T>(time: T -> int, x: T, s: seq<T>, t: int)
    ensures At(time, [x] + s, t) == if time(x) == t then [x] + At(time, s, t) else At(time, s, t)
  {
    assert ([x] + s)[1..] == s;
  }

  lemma {:induction false} InsertIsStable<T>(time: T -> int, e: T, s: seq<T>, t: int)
    ensures At(time, Insert(time, e, s), t) == if time(e) == t then [e] + At(time, s, t) else At(time, s, t)
  {
    AtCons(time, e, s, t);
    if s != [] && time(s[0]) > time(e) {
      InsertIsStable(time, e, s[1..], t);
      AtCons(time, s[0], Insert(time, e, s[1..]), t);
      AtCons(time, s[0], s[1..], t);
      assert s == [s[0]] + s[1..];
    }
  }

  /** Newest first, the same items, and items of one instant in their original order. */
  lemma {:induction false} SortIsStable<T>(time: T -> int, s: seq<T>)
    ensures Descending(time, Sort(time, s))
    ensures multiset(Sort(time, s)) == multiset(s)
    ensures forall t :: At(time, Sort(time, s), t) == At(time, s, t)
  {
    if s != [] {
      var rest := Sort(time, s[1..]);
      SortIsStable(time, s[1..]);
      InsertDescends(time, s[0], rest);
      InsertHolds(time, s[0], rest);
      assert s == [s[0]] + s[1..];
      forall t ensures At(time, Sort(time, s), t) == At(time, s, t) {
        InsertIsStable(time, s[0], rest, t);
        AtCons(time, s[0], s[1..], t);
      }
    }
  }

  lemma {:induction false} AtOldest<T>(time: T -> int, s: seq<T>, t: int)
    requires forall i :: 0 <= i < |s| ==> time(s[i]) < t
    ensures At(time, s, t) == []
  {
    if s != [] {
      AtOldest(time, s[1..], t);
    }
  }

  lemma {:induction false} AtHolds<T>(time: T -> int, s: seq<T>, x: T)
    requires x in s
    ensures x in At(time, s, time(x))
  {
    if s[0] != x {
      assert s == [s[0]] + s[1..];
      AtHolds(time, s[1..], x);
    }
  }

  /** A newest-first sequence is determined by what it holds at each instant, so there is one stable sort. */
  lemma {:induction false} StableSortIsUnique<T>(time: T -> int, a: seq<T>, b: seq<T>)
    requires Descending(time, a) && Descending(time, b)
    requires forall t :: At(time, a, t) == At(time, b, t)
    ensures a == b
  {
    if a == [] || b == [] {
      var c := if a == [] then b else a;
      if c != [] {
        AtHolds(time, c, c[0]);
      }
    } else {
      AtHolds(time, a, a[0]);
      AtHolds(time, b, b[0]);
      var t := time(a[0]);
      assert time(b[0]) == t by {
        if time(b[0]) < t { AtOldest(time, b, t); }
        if time(a[0]) < time(b[0]) { AtOldest(time, a, time(b[0])); }
      }
      assert At(time, a, t)[0] == a[0] && At(time, b, t)[0] == b[0];
      forall u ensures At(time, a[1..], u) == At(time, b[1..], u) {
        assert At(time, a, u) == At(time, b, u);
        if t == u {
          assert At(time, a, u)[1..] == At(time, a[1..], u);
          assert At(time, b, u)[1..] == At(time, b[1..], u);
        } else {
          assert At(time, a, u) == At(time, a[1..], u);
          assert At(time, b, u) == At(time, b[1..], u);
        }
      }
      StableSortIsUnique(time, a[1..], b[1..]);
    }
  }

  // ---- cutting off the older part ----

  lemma {:induction false} InsertIntoOlder<T>(time: T -> int, e: T, newer: seq<T>, older: seq<T>)
    requires forall i :: 0 <= i < |newer| ==> time(e) < time(newer[i])
    ensures Insert(time, e, newer + older) == newer + Insert(time, e, older)
  {
    if newer == [] {
      assert newer + older == older;
    } else {
      assert (newer + older)[1..] == newer[1..] + older;
      InsertIntoOlder(time, e, newer[1..], older);
    }
  }

  /** When everything cut off is strictly older, it sorts behind everything kept. */
  lemma {:induction false} SortSplits<T>(time: T -> int, older: seq<T>, newer: seq<T>)
    requires Before(time, older, newer)
    ensures Sort(time, older + newer) == Sort(time, newer) + Sort(time, older)
  {
    if older == [] {
      assert older + newer == newer;
    } else {
      assert (older + newer)[1..] == older[1..] + newer;
      SortSplits(time, older[1..], newer);
      SortIsStable(time, newer);
      var kept := Sort(time, newer);
      forall i | 0 <= i < |kept| ensures time(older[0]) < time(kept[i]) {
        assert kept[i] in multiset(kept);
        assert kept[i] in newer;
      }
      InsertIntoOlder(time, older[0], kept, Sort(time, older[1..]));
    }
  }

  lemma {:induction false} AtDistributes<T>(time: T -> int, a: seq<T>, b: seq<T>, t: int)
    ensures At(time, a + b, t) == At(time, a, t) + At(time, b, t)
    decreases |a|
  {
    if a == [] {
      assert a + b == b;
    } else {
      hide At;
      AtDistributes(time, a[1..], b, t);
      AtUnfolds(time, a, t);
      AtUnfolds(time, a + b, t);
      assert (a + b)[0] == a[0];
      assert (a + b)[1..] == a[1..] + b;
      Regroup(if time(a[0]) == t then [a[0]] else [], At(time, a[1..], t), At(time, b, t));
    }
  }

  lemma AtUnfolds<T>(time: T -> int, s: seq<T>, t: int)
    requires s != []
    ensures At(time, s, t) == (if time(s[0]) == t then [s[0]] else []) + At(time, s[1..], t)
  {
  }

  lemma Regroup<T>(a: seq<T>, b: seq<T>, c: seq<T>)
    ensures a + (b + c) == (a + b) + c
  {
  }

  ghost predicate SameTimes<T>(time: T -> int, a: seq<T>, b: seq<T>) {
    |a| == |b| && forall i :: 0 <= i < |a| ==> time(a[i]) == time(b[i])
  }

  ghost predicate SameCounts<T>(time: T -> int, a: seq<T>, b: seq<T>) {
    forall t :: |At(time, a, t)| == |At(time, b, t)|
  }

  lemma HeadIsNewest<T>(time: T -> int, a: seq<T>, b: seq<T>)
    requires Descending(time, b) && SameCounts(time, a, b) && a != []
    ensures b != [] && time(a[0]) <= time(b[0])
  {
    var t := time(a[0]);
    AtHolds(time, a, a[0]);
    assert |At(time, b, t)| == |At(time, a, t)|;
    if b == [] || time(b[0]) < t {
      AtOldest(time, b, t);
    }
  }

  lemma {:induction false} CountsFixTimes<T>(time: T -> int, a: seq<T>, b: seq<T>)
    requires Descending(time, a) && Descending(time, b) && SameCounts(time, a, b)
    ensures SameTimes(time, a, b)
  {
    if a == [] {
      if b != [] { HeadIsNewest(time, b, a); }
    } else {
      HeadIsNewest(time, a, b);
      HeadIsNewest(time, b, a);
      forall t ensures |At(time, a[1..], t)| == |At(time, b[1..], t)| {
        assert |At(time, a, t)| == |At(time, b, t)|;
      }
      CountsFixTimes(time, a[1..], b[1..]);
    }
  }

  /** When nothing cut off is newer, at least the instants come in the same order. */
  lemma TimesSplit<T>(time: T -> int, older: seq<T>, newer: seq<T>)
    requires NotAfter(time, older, newer)
    ensures SameTimes(time, Sort(time, older + newer), Sort(time, newer) + Sort(time, older))
  {
    hide At, Sort;
    var first, last := Sort(time, newer), Sort(time, older);
    SortIsStable(time, older + newer);
    SortIsStable(time, older);
    SortIsStable(time, newer);
    forall t ensures |At(time, Sort(time, older + newer), t)| == |At(time, first + last, t)| {
      AtDistributes(time, older, newer, t);
      AtDistributes(time, first, last, t);
    }
    assert Descending(time, first + last) by {
      forall i, j | 0 <= i < |first| && 0 <= j < |last| ensures time(first[i]) >= time(last[j]) {
        SortedFrom(time, newer, i);
        SortedFrom(time, older, j);
      }
    }
    CountsFixTimes(time, Sort(time, older + newer), first + last);
  }

  lemma SortedFrom<T>(time: T -> int, s: seq<T>, i: nat)
    requires i < |Sort(time, s)|
    ensures Sort(time, s)[i] in s
  {
    SortIsStable(time, s);
    assert Sort(time, s)[i] in multiset(Sort(time, s));
  }
}

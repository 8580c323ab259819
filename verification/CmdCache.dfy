/**
 * The agent's idempotency window: a ring of the last N command ids it accepted
 * and a set for looking them up. The specification is the history of accepted
 * ids; the class keeps ring and set in step with it.
 */
module CmdCache {
  import opened Messages

  /** The last n entries of the history, oldest first, padded in front with unused slots. */
  function Window(history: seq<Id>, n: nat): seq<Id> {
    if |history| >= n then history[|history| - n..]
    else seq(n - |history|, _ => "") + history
  }

  /**
   * The ids a lookup still finds. The empty id marks an unused slot, so once
   * accepted it is never evicted.
   */
  ghost function Remembered(history: seq<Id>, n: nat): set<Id> {
    Members(Window(history, n), "" in history)
  }

  ghost function Members(window: seq<Id>, empty: bool): set<Id> {
    set id | id in window + [""] && (if id == "" then empty else id in window)
  }

  ghost predicate Accepts(history: seq<Id>, n: nat, id: Id) {
    id !in Remembered(history, n)
  }

  /** A history the cache can have produced: every entry was new when it was accepted. */
  ghost predicate Produced(history: seq<Id>, n: nat) {
    forall i :: 0 <= i < |history| ==> Accepts(history[..i], n, history[i])
  }

  lemma {:induction false} WindowSlides(history: seq<Id>, n: nat, id: Id)
    requires n > 0
    ensures Window(history + [id], n) == Window(history, n)[1..] + [id]
    ensures |Window(history, n)| == n
  {
  }

  /** For real ids: accepted exactly when not among the last n accepted. */
  lemma {:induction false} AcceptsIffNotRecent(history: seq<Id>, n: nat, id: Id)
    requires id != ""
    ensures Accepts(history, n, id) <==> id !in (if |history| >= n then history[|history| - n..] else history)
  {
    if |history| < n {
      var pad := seq(n - |history|, _ => "");
      assert forall x :: x in Window(history, n) <==> x in pad || x in history;
      assert id !in pad;
    }
  }

  lemma RecentHolds(history: seq<Id>, n: nat, i: nat)
    requires |history| - n <= i < |history|
    ensures history[i] in (if |history| >= n then history[|history| - n..] else history)
  {
    if |history| >= n {
      assert history[|history| - n..][i - (|history| - n)] == history[i];
    }
  }

  /** An id comes back as new only after at least n other ids were accepted in between. */
  lemma {:induction false} ReacceptedOnlyAfterNOthers(history: seq<Id>, n: nat, i: nat, j: nat)
    requires Produced(history, n) && i < j < |history| && history[i] == history[j] && history[i] != ""
    ensures j - i - 1 >= n
  {
    if j - n <= i {
      RecentHolds(history[..j], n, i);
      AcceptsIffNotRecent(history[..j], n, history[j]);
    }
  }

  /** A lookup that finds an id finds one that was accepted. */
  lemma RecallsOnlyHistory(history: seq<Id>, n: nat, id: Id)
    requires id != "" && !Accepts(history, n, id)
    ensures id in history
  {
    AcceptsIffNotRecent(history, n, id);
  }

  lemma ProducedGrows(history: seq<Id>, n: nat, id: Id)
    requires Produced(history, n) && Accepts(history, n, id)
    ensures Produced(history + [id], n)
  {
    var longer := history + [id];
    forall i | 0 <= i < |longer| ensures Accepts(longer[..i], n, longer[i]) {
      if i < |history| {
        assert longer[..i] == history[..i];
      } else {
        assert longer[..i] == history;
      }
    }
  }

  /** A slot that holds a real id holds it alone. */
  ghost predicate NoRepeats(window: seq<Id>) {
    forall i, j :: 0 <= i < j < |window| && window[i] != "" ==> window[i] != window[j]
  }

  lemma {:induction false} WindowStaysUnrepeated(w: seq<Id>, w': seq<Id>, id: Id)
    requires w != [] && NoRepeats(w) && (id != "" ==> id !in w)
    requires w' == w[1..] + [id]
    ensures NoRepeats(w')
    ensures w[0] != "" ==> w[0] !in w[1..]
  {
    assert forall k :: 0 <= k < |w[1..]| ==> w[1..][k] == w[k + 1];
    assert forall k :: 0 <= k < |w| - 1 ==> w'[k] == w[k + 1] && w[k + 1] in w;
  }

  /** Accepting a new id forgets the evicted slot's id and nothing else. */
  lemma {:induction false} MembersSlide(w: seq<Id>, empty: bool, id: Id)
    requires w != [] && NoRepeats(w) && (id != "" ==> id !in w)
    ensures Members(w[1..] + [id], empty || id == "") ==
            Members(w, empty) - (if w[0] != "" then {w[0]} else {}) + {id}
  {
    var w' := w[1..] + [id];
    WindowStaysUnrepeated(w, w', id);
    assert w == [w[0]] + w[1..];
    var after := Members(w', empty || id == "");
    var expected := Members(w, empty) - (if w[0] != "" then {w[0]} else {}) + {id};
    forall x: Id ensures x in after <==> x in expected {
      assert x in w <==> x == w[0] || x in w[1..];
      assert x in w' <==> x in w[1..] || x == id;
    }
  }

  lemma {:induction false} RememberedSlides(history: seq<Id>, n: nat, id: Id)
    requires n > 0 && Accepts(history, n, id) && NoRepeats(Window(history, n))
    ensures Window(history, n) != []
    ensures Remembered(history + [id], n) ==
            Remembered(history, n) - (if Window(history, n)[0] != "" then {Window(history, n)[0]} else {}) + {id}
    ensures NoRepeats(Window(history + [id], n))
  {
    WindowSlides(history, n, id);
    var w := Window(history, n);
    assert id != "" ==> id !in w;
    MembersSlide(w, "" in history, id);
    WindowStaysUnrepeated(w, Window(history + [id], n), id);
  }

  /** Overwriting slot p and moving on rotates the view by one. */
  lemma RotationSlides(s: seq<Id>, p: nat, id: Id)
    requires p < |s|
    ensures var q := (p + 1) % |s|;
            var t := s[p := id];
            q < |s| && t[q..] + t[..q] == (s[p..] + s[..p])[1..] + [id]
  {
    var t := s[p := id];
    if p + 1 == |s| {
      assert (p + 1) % |s| == 0;
      assert t == s[..p] + [id];
    } else {
      assert (p + 1) % |s| == p + 1;
      assert t[..p + 1] == s[..p] + [id];
      assert t[p + 1..] == s[p + 1..];
      assert (s[p..] + s[..p])[1..] == s[p + 1..] + s[..p];
    }
  }

  /** Overwriting the slot read first with a new id moves the ring to the longer history. */
  lemma AcceptedSlides(history: seq<Id>, s: seq<Id>, p: nat, id: Id)
    requires p < |s| && s[p..] + s[..p] == Window(history, |s|) && NoRepeats(Window(history, |s|))
    requires Accepts(history, |s|, id)
    ensures var q := (p + 1) % |s|;
            var t := s[p := id];
            && q < |s| && t[q..] + t[..q] == Window(history + [id], |s|) && NoRepeats(t[q..] + t[..q])
    ensures Remembered(history + [id], |s|) ==
            Remembered(history, |s|) - (if s[p] != "" then {s[p]} else {}) + {id}
  {
    hide Window, Remembered, NoRepeats, Accepts;
    RotationSlides(s, p, id);
    RememberedSlides(history, |s|, id);
    WindowSlides(history, |s|, id);
    assert (s[p..] + s[..p])[0] == s[p];
  }

  class Cache {
    var members: set<Id>
    const ring: array<Id>
    var next: nat
    ghost var history: seq<Id>

    constructor (n: nat)
      requires n > 0
      ensures Valid() && fresh(ring) && ring.Length == n && history == []
    {
      members := {};
      ring := new Id[n](_ => "");
      next := 0;
      history := [];
      new;
      assert forall i :: 0 <= i < n ==> ring[i] == "";
      assert ring[..][0..] + ring[..][..0] == Window([], n);
    }

    /** The ring read from the slot that is overwritten next. */
    ghost function Slots(): seq<Id>
      requires next <= ring.Length
      reads this, ring
    {
      var s := ring[..];
      s[next..] + s[..next]
    }

    ghost predicate Valid()
      reads this, ring
    {
      && next < ring.Length
      && Slots() == Window(history, ring.Length)
      && NoRepeats(Slots())
      && members == Remembered(history, ring.Length)
    }

    method Add(id: Id) returns (isNew: bool)
      requires Valid()
      modifies this, ring
      ensures Valid()
      ensures isNew <==> Accepts(old(history), ring.Length, id)
      ensures history == if isNew then old(history) + [id] else old(history)
    {
      hide Window, Remembered, NoRepeats;
      if id in members {
        return false;
      }
      assert Slots()[0] == ring[next];
      AcceptedSlides(history, ring[..], next, id);
      var evicted := ring[next];
      if evicted != "" {
        members := members - {evicted};
      }
      ring[next] := id;
      next := (next + 1) % ring.Length;
      members := members + {id};
      history := history + [id];
      assert ring[..] == old(ring[..])[old(next) := id];
      isNew := true;
    }
  }
}

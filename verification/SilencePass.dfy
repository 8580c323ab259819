/**
 * What a reconcile pass leaves on both sides, row by row and silence by
 * silence, in the fields and nanoseconds that an operator can read off.
 */
module SilencePass {
  import opened Wrappers
  import opened Silences

  ghost predicate InForce(m: Mute, now: int) {
    m.expires == None || m.expires.value > now
  }

  ghost predicate Running(silences: map<SilenceId, Silence>, id: Option<SilenceId>, now: int) {
    id.Some? && id.value in silences && silences[id.value].starts <= now < silences[id.value].ends
  }

  /** The row's silence runs and ends within one second of the mute, or a year off for a mute without an end. */
  ghost predicate Silenced(silences: map<SilenceId, Silence>, m: Mute, now: int) {
    && Running(silences, m.silence, now)
    && var ends := silences[m.silence.value].ends;
       if m.expires.Some? then -1_000_000_000 <= ends - m.expires.value <= 1_000_000_000
       else ends - now >= 31_536_000 * 1_000_000_000
  }

  /** When a silence for the mute would end: with the mute, or in ten years. */
  ghost function Until(m: Mute, now: int): int {
    if m.expires.Some? then m.expires.value else now + 315_360_000 * 1_000_000_000
  }

  /** A silence that ends in whole seconds still ends in the future. */
  ghost predicate Worth(m: Mute, now: int) {
    Until(m, now) - Until(m, now) % 1_000_000_000 > now
  }

  /** The silence says in whole seconds what the mute says, and that it is the mirror's. */
  ghost predicate Speaks(s: Silence, m: Mute, now: int) {
    && s.starts % 1_000_000_000 == 0 && s.starts <= now < s.starts + 1_000_000_000
    && s.ends % 1_000_000_000 == 0 && s.ends <= Until(m, now) < s.ends + 1_000_000_000
    && s.updated == now
    && s.createdBy == "birdman:" + m.createdBy
    && s.comment == (if m.note == "" then "birdman mute" else m.note)
    && (forall x :: x in s.matchers <==>
          || x == Matcher("alertname", m.alertname)
          || (m.region.Some? && x == Matcher("region", m.region.value))
          || (m.project.Some? && x == Matcher("project", m.project.value)))
  }

  ghost function Put(a: State, id: SilenceId, s: Silence): State {
    a.(silences := a.silences[id := s])
  }

  ghost function Ended(a: State, id: SilenceId, now: int): Silence
    requires id in a.silences
  {
    a.silences[id].(ends := now)
  }

  /**
   * One POST for row i. A running silence of the row is replaced under its id or ends now, another id
   * is as if it were none; what is not worth posting changes nothing.
   */
  ghost predicate PostLeaves(a: State, b: State, i: nat, now: int, r: Reply)
    requires i < |a.mutes|
  {
    var id := a.mutes[i].silence;
    var runs := Running(a.silences, id, now);
    if !Worth(a.mutes[i], now) then b == a
    else if runs && r.inPlace then exists s :: Speaks(s, a.mutes[i], now) && b == Put(a, id.value, s)
    else
      && (exists s :: Speaks(s, a.mutes[i], now) &&
            b.silences == Put(if runs then Put(a, id.value, Ended(a, id.value, now)) else a, r.minted, s).silences)
      && b.mutes == a.mutes[i := a.mutes[i].(silence := Some(r.minted))]
  }

  lemma SecondsOf(t: int)
    ensures Truncated(t) % 1_000_000_000 == 0 && Truncated(t) <= t < Truncated(t) + 1_000_000_000
  {
    var q := t / 1_000_000_000;
    assert Truncated(t) == q * 1_000_000_000;
  }

  lemma MatchersSpeak(m: Mute)
    ensures forall x :: x in MuteMatchers(m) <==>
              || x == Matcher("alertname", m.alertname)
              || (m.region.Some? && x == Matcher("region", m.region.value))
              || (m.project.Some? && x == Matcher("project", m.project.value))
  {
  }

  lemma PostedSpeaks(m: Mute, now: int)
    ensures Speaks(Posted(m, now), m, now)
    ensures Accepts(Posted(m, now), now) <==> Worth(m, now)
  {
    hide MuteMatchers;
    MatchersSpeak(m);
    SecondsOf(now);
    SecondsOf(MuteEndsAt(m, now));
    assert MuteEndsAt(m, now) == Until(m, now);
  }

  lemma {:induction false} PostIsPlain(a: State, i: nat, now: int, r: Reply)
    requires i < |a.mutes|
    ensures PostLeaves(a, Post(a, i, now, r), i, now, r)
  {
    hide Speaks, Posted, Worth, Accepts;
    PostedSpeaks(a.mutes[i], now);
  }

  lemma BackedMeans(st: State, i: nat, now: int)
    requires i < |st.mutes|
    ensures Backed(st, i, now) <==> Silenced(st.silences, st.mutes[i], now)
  {
  }

  /** What one pass does for one row: a POST exactly for a mute in force that is not silenced. */
  ghost predicate RowLeaves(a: State, b: State, i: nat, now: int, r: Reply)
    requires i < |a.mutes|
  {
    if InForce(a.mutes[i], now) && !Silenced(a.silences, a.mutes[i], now)
    then PostLeaves(a, b, i, now, r) else b == a
  }

  lemma {:induction false} RowIsPlain(a: State, i: nat, now: int, r: Reply)
    requires i < |a.mutes|
    ensures RowLeaves(a, ReconcileMute(a, i, now, r), i, now, r)
  {
    hide Backed, Silenced, Post, PostLeaves;
    BackedMeans(a, i, now);
    PostIsPlain(a, i, now, r);
  }

  // ---- the rows of one pass ----

  ghost predicate Reposted(a: State, i: nat, now: int) {
    i < |a.mutes| && InForce(a.mutes[i], now) && !Silenced(a.silences, a.mutes[i], now) && Worth(a.mutes[i], now)
  }

  /** The row is reposted under the id it has. */
  ghost predicate InPlace(a: State, i: nat, now: int, replies: seq<Reply>) {
    Reposted(a, i, now) && i < |replies| && Running(a.silences, a.mutes[i].silence, now) && replies[i].inPlace
  }

  /** The row is reposted under a new id. */
  ghost predicate Anew(a: State, i: nat, now: int, replies: seq<Reply>) {
    Reposted(a, i, now) && i < |replies| && !(Running(a.silences, a.mutes[i].silence, now) && replies[i].inPlace)
  }

  /** Row i is as the pass leaves it. */
  ghost predicate RowPassed(a: State, b: State, i: nat, now: int, replies: seq<Reply>)
    requires i < |a.mutes| == |b.mutes| == |replies|
  {
    if Reposted(a, i, now) then
      var id := if InPlace(a, i, now, replies) then a.mutes[i].silence else Some(replies[i].minted);
      && b.mutes[i] == a.mutes[i].(silence := id)
      && id.Some? && id.value in b.silences && Speaks(b.silences[id.value], a.mutes[i], now)
    else b.mutes[i] == a.mutes[i]
  }

  /** One of the first n rows updates the silence in place. */
  ghost predicate Updated(a: State, n: nat, id: SilenceId, now: int, replies: seq<Reply>) {
    exists i :: 0 <= i < n && InPlace(a, i, now, replies) && a.mutes[i].silence == Some(id)
  }

  /** One of the first n rows replaces the silence, which still runs, by a new one. */
  ghost predicate Replaced(a: State, n: nat, id: SilenceId, now: int, replies: seq<Reply>) {
    exists i :: 0 <= i < n && Anew(a, i, now, replies) && a.mutes[i].silence == Some(id)
             && Running(a.silences, Some(id), now)
  }

  ghost predicate New(a: State, n: nat, id: SilenceId, now: int, replies: seq<Reply>) {
    exists i :: 0 <= i < n && Anew(a, i, now, replies) && replies[i].minted == id
  }

  /** The first n rows are passed and the silences of the others are as they were. */
  ghost predicate RowsPassed(a: State, b: State, n: nat, now: int, replies: seq<Reply>)
    requires n <= |a.mutes| == |replies|
  {
    && |b.mutes| == |a.mutes|
    && (forall i :: 0 <= i < n ==> RowPassed(a, b, i, now, replies))
    && (forall i :: n <= i < |a.mutes| ==> b.mutes[i] == a.mutes[i])
    && (forall id :: id in a.silences && !Updated(a, n, id, now, replies) ==>
          id in b.silences && b.silences[id] ==
            if Replaced(a, n, id, now, replies) then a.silences[id].(ends := now) else a.silences[id])
    && (forall id :: id in b.silences ==> id in a.silences || New(a, n, id, now, replies))
  }

  /** A running silence of the mirror that no mute in force names, and that is two minutes old. */
  ghost predicate Stray(a: State, id: SilenceId, now: int) {
    && Running(a.silences, Some(id), now)
    && "birdman:" <= a.silences[id].createdBy
    && now - a.silences[id].updated >= 120_000_000_000
    && (forall i :: 0 <= i < |a.mutes| && a.mutes[i].silence == Some(id) ==> !InForce(a.mutes[i], now))
  }

  /** A whole pass: every row, and every silence that was there or is there now. */
  ghost predicate PassLeaves(a: State, b: State, now: int, replies: seq<Reply>)
    requires |a.mutes| == |replies|
  {
    && |b.mutes| == |a.mutes|
    && (forall i :: 0 <= i < |a.mutes| ==> RowPassed(a, b, i, now, replies))
    && (forall id :: id in a.silences && !Updated(a, |a.mutes|, id, now, replies) ==>
          id in b.silences && b.silences[id] ==
            if Replaced(a, |a.mutes|, id, now, replies) || Stray(a, id, now)
            then a.silences[id].(ends := now) else a.silences[id])
    && (forall id :: id in b.silences ==> id in a.silences || New(a, |a.mutes|, id, now, replies))
  }

  lemma NoRowsYet(a: State, now: int, replies: seq<Reply>)
    requires |a.mutes| == |replies|
    ensures RowsPassed(a, a, 0, now, replies)
  {
    hide InPlace, Anew;
  }

  /** Ids that a row may still be given are new to the state and to the rows. */
  lemma {:induction false} RowsArePassed(a: State, n: nat, now: int, replies: seq<Reply>)
    requires n <= |a.mutes| == |replies| && Valid(a) && FreshFrom(a, replies, 0)
    ensures RowsPassed(a, ReconcileMutes(a, n, now, replies), n, now, replies)
  {
    hide ReconcileMute, RowsPassed, RowLeaves, Valid, FreshFrom;
    if n == 0 {
      NoRowsYet(a, now, replies);
    } else {
      RowsArePassed(a, n - 1, now, replies);
      var c := ReconcileMutes(a, n - 1, now, replies);
      RowIsPlain(c, n - 1, now, replies[n - 1]);
      NextRow(a, c, ReconcileMute(c, n - 1, now, replies[n - 1]), n - 1, now, replies);
    }
  }

  /** The next row still finds the silence it names as it was, and its new id unused. */
  lemma RowAsBefore(a: State, c: State, n: nat, now: int, replies: seq<Reply>)
    requires n < |a.mutes| == |replies| && Valid(a) && FreshFrom(a, replies, 0) && RowsPassed(a, c, n, now, replies)
    ensures var id := a.mutes[n].silence;
            id.Some? ==> (id.value in c.silences <==> id.value in a.silences)
                         && (id.value in a.silences ==> c.silences[id.value] == a.silences[id.value])
    ensures replies[n].minted !in c.silences
    ensures forall id :: id == a.mutes[n].silence && id.Some? ==>
              && !Updated(a, n, id.value, now, replies) && !Replaced(a, n, id.value, now, replies)
              && !New(a, n, id.value, now, replies)
    ensures !New(a, n, replies[n].minted, now, replies)
  {
    hide Speaks, Silenced, Worth, InForce;
  }

  /** What a row touches: the silence it names, when that runs, and the id minted for it. */
  ghost predicate Touches(a: State, i: nat, id: SilenceId, now: int, replies: seq<Reply>)
    requires i < |a.mutes| == |replies|
  {
    || (Reposted(a, i, now) && Running(a.silences, Some(id), now) && a.mutes[i].silence == Some(id))
    || (Anew(a, i, now, replies) && id == replies[i].minted)
  }

  lemma {:induction false} ThisRowPasses(a: State, c: State, b: State, n: nat, now: int, replies: seq<Reply>)
    requires n < |a.mutes| == |replies| && Valid(a) && FreshFrom(a, replies, 0)
    requires RowsPassed(a, c, n, now, replies) && RowLeaves(c, b, n, now, replies[n])
    ensures |b.mutes| == |a.mutes| && RowPassed(a, b, n, now, replies)
  {
    hide Speaks, Worth, InForce, FreshFrom, Valid, Updated, Replaced, New;
    RowAsBefore(a, c, n, now, replies);
  }

  lemma {:induction false} RowTouches(a: State, c: State, b: State, n: nat, now: int, replies: seq<Reply>)
    requires n < |a.mutes| == |replies| && Valid(a) && FreshFrom(a, replies, 0)
    requires RowsPassed(a, c, n, now, replies) && RowLeaves(c, b, n, now, replies[n])
    ensures |b.mutes| == |a.mutes| && RowPassed(a, b, n, now, replies)
    ensures forall i :: 0 <= i < |a.mutes| && i != n ==> b.mutes[i] == c.mutes[i]
    ensures forall id :: !Touches(a, n, id, now, replies) ==>
              (id in b.silences <==> id in c.silences)
              && (id in c.silences ==> b.silences[id] == c.silences[id])
    ensures var id := a.mutes[n].silence;
            Anew(a, n, now, replies) && Running(a.silences, id, now) ==>
              id.value in b.silences && b.silences[id.value] == a.silences[id.value].(ends := now)
  {
    hide Speaks, Worth, InForce, FreshFrom, Valid, RowPassed, Updated, Replaced, New;
    ThisRowPasses(a, c, b, n, now, replies);
    RowAsBefore(a, c, n, now, replies);
  }

  /** Rows before it are left as they are. */
  lemma EarlierRowsStay(a: State, c: State, b: State, i: nat, n: nat, now: int, replies: seq<Reply>)
    requires i < n < |a.mutes| == |replies| && Valid(a) && FreshFrom(a, replies, 0)
    requires |b.mutes| == |c.mutes| == |a.mutes| && b.mutes[i] == c.mutes[i]
    requires RowPassed(a, c, i, now, replies)
    requires forall id :: !Touches(a, n, id, now, replies) ==>
               (id in b.silences <==> id in c.silences) && (id in c.silences ==> b.silences[id] == c.silences[id])
    ensures RowPassed(a, b, i, now, replies)
  {
    hide Speaks, Reposted, Running;
  }

  lemma MoreRows(a: State, n: nat, id: SilenceId, now: int, replies: seq<Reply>)
    requires n < |a.mutes| == |replies|
    ensures Updated(a, n + 1, id, now, replies)
       <==> Updated(a, n, id, now, replies) || (InPlace(a, n, now, replies) && a.mutes[n].silence == Some(id))
    ensures Replaced(a, n + 1, id, now, replies)
       <==> || Replaced(a, n, id, now, replies)
            || (Anew(a, n, now, replies) && a.mutes[n].silence == Some(id) && Running(a.silences, Some(id), now))
    ensures New(a, n + 1, id, now, replies)
       <==> New(a, n, id, now, replies) || (Anew(a, n, now, replies) && replies[n].minted == id)
  {
    hide InPlace, Anew, Running;
  }

  lemma {:induction false} NextRow(a: State, c: State, b: State, n: nat, now: int, replies: seq<Reply>)
    requires n < |a.mutes| == |replies| && Valid(a) && FreshFrom(a, replies, 0)
    requires RowsPassed(a, c, n, now, replies) && RowLeaves(c, b, n, now, replies[n])
    ensures RowsPassed(a, b, n + 1, now, replies)
  {
    hide Speaks, Silenced, Worth, InForce, RowLeaves, RowPassed, Valid, Updated, Replaced, New;
    RowTouches(a, c, b, n, now, replies);
    RowAsBefore(a, c, n, now, replies);
    forall i | 0 <= i < n ensures RowPassed(a, b, i, now, replies) {
      EarlierRowsStay(a, c, b, i, n, now, replies);
    }
    forall id ensures
        && (id in a.silences && !Updated(a, n + 1, id, now, replies) ==>
              id in b.silences && b.silences[id] ==
                if Replaced(a, n + 1, id, now, replies) then a.silences[id].(ends := now) else a.silences[id])
        && (id in b.silences ==> id in a.silences || New(a, n + 1, id, now, replies))
    {
      MoreRows(a, n, id, now, replies);
    }
  }

  // ---- the sweep ----

  /** What the rows just posted, or ended, is no orphan; nothing else has changed sides. */
  lemma {:induction false} OrphanIsStray(a: State, c: State, id: SilenceId, now: int, replies: seq<Reply>)
    requires |a.mutes| == |replies| && FreshFrom(a, replies, 0) && RowsPassed(a, c, |a.mutes|, now, replies)
    requires id in c.silences
    ensures Orphan(c, id, now) <==> id in a.silences && !Updated(a, |a.mutes|, id, now, replies)
                                    && !Replaced(a, |a.mutes|, id, now, replies) && Stray(a, id, now)
  {
    hide Silenced, Worth;
    var n := |a.mutes|;
    if id !in a.silences {
      assert New(a, n, id, now, replies);
      var i :| 0 <= i < n && Anew(a, i, now, replies) && replies[i].minted == id;
      assert RowPassed(a, c, i, now, replies);
    } else if Updated(a, n, id, now, replies) {
      var i :| 0 <= i < n && InPlace(a, i, now, replies) && a.mutes[i].silence == Some(id);
      assert RowPassed(a, c, i, now, replies);
    } else if !Replaced(a, n, id, now, replies) && Running(a.silences, Some(id), now) {
      SameNamers(a, c, id, now, replies);
    }
  }

  lemma {:induction false} SameNamers(a: State, c: State, id: SilenceId, now: int, replies: seq<Reply>)
    requires |a.mutes| == |replies| && FreshFrom(a, replies, 0) && RowsPassed(a, c, |a.mutes|, now, replies)
    requires id in a.silences && Running(a.silences, Some(id), now)
    requires !Updated(a, |a.mutes|, id, now, replies) && !Replaced(a, |a.mutes|, id, now, replies)
    ensures Known(c.mutes, id, now)
       <==> exists i :: 0 <= i < |a.mutes| && a.mutes[i].silence == Some(id) && InForce(a.mutes[i], now)
  {
    hide Silenced, Worth, Speaks;
    forall i | 0 <= i < |a.mutes|
      ensures c.mutes[i].silence == Some(id) <==> a.mutes[i].silence == Some(id)
      ensures MuteActive(c.mutes[i], now) <==> InForce(a.mutes[i], now)
    {
      assert RowPassed(a, c, i, now, replies);
    }
  }

  /** One pass with alertmanager answering does to each row and each silence exactly what it should. */
  lemma {:induction false} PassIsPlain(a: State, now: int, replies: seq<Reply>)
    requires |a.mutes| == |replies| && Valid(a) && FreshFrom(a, replies, 0)
    ensures PassLeaves(a, ReconcileOnce(a, now, replies), now, replies)
  {
    hide Valid, Orphan, Stray, Updated, Replaced, New, ReconcileMutes, RowPassed;
    var n := |a.mutes|;
    RowsArePassed(a, n, now, replies);
    var c := ReconcileMutes(a, n, now, replies);
    var b := OrphanSweep(c, now);
    forall id | id in c.silences
      ensures Orphan(c, id, now) <==> id in a.silences && !Updated(a, n, id, now, replies)
                                      && !Replaced(a, n, id, now, replies) && Stray(a, id, now)
    {
      OrphanIsStray(a, c, id, now, replies);
    }
    forall i | 0 <= i < n ensures RowPassed(a, b, i, now, replies) {
      RowSurvives(a, c, b, i, now, replies);
    }
  }

  lemma RowSurvives(a: State, c: State, b: State, i: nat, now: int, replies: seq<Reply>)
    requires i < |a.mutes| == |replies| && |c.mutes| == |a.mutes| && RowPassed(a, c, i, now, replies)
    requires b.mutes == c.mutes && b.silences.Keys == c.silences.Keys
    requires forall id :: id in c.silences && !Orphan(c, id, now) ==> b.silences[id] == c.silences[id]
    ensures RowPassed(a, b, i, now, replies)
  {
    hide Silenced, Worth;
    if Reposted(a, i, now) {
      assert !Orphan(c, c.mutes[i].silence.value, now);
    }
  }

  // ---- what an operator sees after a pass ----

  /**
   * After a pass every mute in force has a running silence, unless it had none and ends within this
   * second; that silence ends within one second of the mute, or a year or more from now when the mute
   * has no end, and it suppresses exactly the alerts that carry the mute's name, region and project.
   */
  lemma {:induction false} MutesAreSilenced(a: State, i: nat, now: int, replies: seq<Reply>)
    requires i < |a.mutes| == |replies| && Valid(a) && FreshFrom(a, replies, 0)
    requires a.mutes[i].expires == None || a.mutes[i].expires.value > now
    ensures var b, m := ReconcileOnce(a, now, replies), a.mutes[i];
            && |b.mutes| == |a.mutes|
            && (Silenced(b.silences, b.mutes[i], now) <==> Silenced(a.silences, m, now) || Worth(m, now))
            && (Silenced(b.silences, b.mutes[i], now) ==>
                  var s := b.silences[b.mutes[i].silence.value];
                  && s.starts <= now < s.ends
                  && (m.expires.Some? ==> -1_000_000_000 <= s.ends - m.expires.value <= 1_000_000_000)
                  && (m.expires.None? ==> s.ends >= now + 365 * 24 * 3600 * 1_000_000_000)
                  && (forall labels :: Suppresses(s.matchers, labels) <==>
                        && Label(labels, "alertname") == m.alertname
                        && (m.region.Some? ==> Label(labels, "region") == m.region.value)
                        && (m.project.Some? ==> Label(labels, "project") == m.project.value)))
  {
    hide Valid, FreshFrom, Backed, ReconcileOnce, OperatorsUntouched, Orphan, Suppresses, Worth;
    PassConverges(a, now, replies);
    var b, m := ReconcileOnce(a, now, replies), a.mutes[i];
    BackedMeans(a, i, now);
    BackedMeans(b, i, now);
    WorthMeans(m, now);
    if Silenced(b.silences, b.mutes[i], now) {
      OwnMatchers(b, i);
      forall labels
        ensures Suppresses(b.silences[b.mutes[i].silence.value].matchers, labels) <==>
          && Label(labels, "alertname") == m.alertname
          && (m.region.Some? ==> Label(labels, "region") == m.region.value)
          && (m.project.Some? ==> Label(labels, "project") == m.project.value)
      {
        SilenceCoversWhatMuteCovers(b.mutes[i], labels);
      }
    }
  }

  lemma WorthMeans(m: Mute, now: int)
    ensures Worth(m, now) <==> Truncated(MuteEndsAt(m, now)) > now
  {
  }

  lemma OwnMatchers(st: State, i: nat)
    requires i < |st.mutes| && Valid(st) && st.mutes[i].silence.Some? && st.mutes[i].silence.value in st.silences
    ensures st.silences[st.mutes[i].silence.value].matchers == MuteMatchers(st.mutes[i])
  {
  }

  /** After a pass no silence of the mirror is left to a mute that is gone, once it is two minutes old. */
  lemma {:induction false} NothingIsAstray(a: State, id: SilenceId, now: int, replies: seq<Reply>)
    requires |a.mutes| == |replies| && Valid(a) && FreshFrom(a, replies, 0)
    ensures !Stray(ReconcileOnce(a, now, replies), id, now)
  {
    hide ReconcileOnce;
    PassConverges(a, now, replies);
    StrayIsOrphan(ReconcileOnce(a, now, replies), id, now);
  }

  lemma StrayIsOrphan(st: State, id: SilenceId, now: int)
    ensures Stray(st, id, now) <==> Orphan(st, id, now)
  {
  }
}

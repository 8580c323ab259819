/**
 * Mirroring alert mutes into alertmanager silences: what one silence says for
 * one mute, and what one reconcile pass makes of both sides.
 */
module Silences {
  import opened Wrappers

  type SilenceId = string

  /** Instants and spans in nanoseconds. */
  const SECOND: int := 1_000_000_000
  const YEAR: int := 365 * 24 * 3600 * SECOND
  const INDEFINITE_HORIZON: int := 10 * YEAR
  const REISSUE_LEAD: int := YEAR
  const DRIFT_TOLERANCE: int := SECOND
  const ORPHAN_GRACE: int := 120 * SECOND
  const CREATED_BY_PREFIX := "birdman:"

  datatype Matcher = Matcher(name: string, value: string)       // equality, no regex

  datatype Mute = Mute(alertname: string, region: Option<string>, project: Option<string>, note: string,
                       expires: Option<int>, createdBy: string, silence: Option<SilenceId>)

  datatype Silence = Silence(starts: int, ends: int, updated: int, createdBy: string, matchers: seq<Matcher>,
      comment: string)

  datatype State = State(silences: map<SilenceId, Silence>, mutes: seq<Mute>)

  /** The wire format carries whole seconds. */
  function Truncated(t: int): int {
    t - t % SECOND
  }

  // ---- one mute, one silence ----

  function MuteMatchers(m: Mute): seq<Matcher> {
    [Matcher("alertname", m.alertname)]
    + (if m.region.Some? then [Matcher("region", m.region.value)] else [])
    + (if m.project.Some? then [Matcher("project", m.project.value)] else [])
  }

  function Label(labels: map<string, string>, name: string): string {
    if name in labels then labels[name] else ""
  }

  /** A silence suppresses an alert when all its matchers hold; a missing label reads as empty. */
  ghost predicate Suppresses(matchers: seq<Matcher>, labels: map<string, string>) {
    forall m :: m in matchers ==> Label(labels, m.name) == m.value
  }

  /** AlertMute.Matches: an absent region or project covers all of them, a present one only itself. */
  predicate Matches(m: Mute, alertname: string, region: string, project: string) {
    && m.alertname == alertname
    && (m.region.Some? ==> m.region.value == region)
    && (m.project.Some? ==> m.project.value == project)
  }

  /** The silence of a mute suppresses exactly the alerts the mute is shown to cover. */
  lemma SilenceCoversWhatMuteCovers(m: Mute, labels: map<string, string>)
    ensures Suppresses(MuteMatchers(m), labels)
       <==> Matches(m, Label(labels, "alertname"), Label(labels, "region"), Label(labels, "project"))
  {
    var ms := MuteMatchers(m);
    assert ms[0] == Matcher("alertname", m.alertname);
    assert m.region.Some? ==> ms[1] == Matcher("region", m.region.value);
    assert m.project.Some? ==> ms[|ms| - 1] == Matcher("project", m.project.value);
    if Suppresses(ms, labels) {
      assert ms[0] in ms;
      assert m.region.Some? ==> ms[1] in ms;
      assert m.project.Some? ==> ms[|ms| - 1] in ms;
    }
  }

  predicate MuteActive(m: Mute, now: int) {
    m.expires.None? || m.expires.value > now
  }

  predicate SilenceActive(s: Silence, now: int) {
    s.starts <= now < s.ends
  }

  predicate Ours(s: Silence) {
    CREATED_BY_PREFIX <= s.createdBy
  }

  function MuteEndsAt(m: Mute, now: int): int {
    if m.expires.Some? then m.expires.value else now + INDEFINITE_HORIZON
  }

  predicate DriftsEndsAt(m: Mute, s: Silence, now: int) {
    if m.expires.Some? then
      var d := s.ends - m.expires.value;
      (if d < 0 then -d else d) > DRIFT_TOLERANCE
    else s.ends < now + REISSUE_LEAD
  }

  function Posted(m: Mute, now: int): Silence {
    Silence(Truncated(now), Truncated(MuteEndsAt(m, now)), now, CREATED_BY_PREFIX + m.createdBy, MuteMatchers(m),
            if m.note != "" then m.note else "birdman mute")
  }

  /** Alertmanager refuses a silence that has already ended. */
  predicate Accepts(s: Silence, now: int) {
    s.ends > now
  }

  // ---- one pass ----

  /** The mute has an active silence of its own that ends when it should. */
  predicate Backed(st: State, i: nat, now: int)
    requires i < |st.mutes|
  {
    var m := st.mutes[i];
    m.silence.Some? && m.silence.value in st.silences
    && var s := st.silences[m.silence.value];
       SilenceActive(s, now) && !DriftsEndsAt(m, s, now)
  }

  /** The id to send: only a live silence is updated in place. */
  function ExistingId(st: State, i: nat, now: int): Option<SilenceId>
    requires i < |st.mutes|
  {
    var id := st.mutes[i].silence;
    if id.Some? && id.value in st.silences && SilenceActive(st.silences[id.value], now) then id else None
  }

  function Expire(silences: map<SilenceId, Silence>, id: SilenceId, now: int): map<SilenceId, Silence> {
    if id in silences then silences[id := silences[id].(ends := now)] else silences
  }

  /**
   * How alertmanager answers a POST: the id it would mint, whether an update may keep the old one, and
   * whether it refuses an id that is gone or expired.
   */
  datatype Reply = Reply(minted: SilenceId, inPlace: bool, refusesStale: bool)

  function Post(st: State, i: nat, now: int, r: Reply): State
    requires i < |st.mutes|
  {
    var s := Posted(st.mutes[i], now);
    var existing := ExistingId(st, i, now);
    if !Accepts(s, now) then st
    else if existing.Some? && r.inPlace then st.(silences := st.silences[existing.value := s])
    else
      var kept := if existing.Some? then Expire(st.silences, existing.value, now) else st.silences;
      State(kept[r.minted := s], st.mutes[i := st.mutes[i].(silence := Some(r.minted))])
  }

  function ReconcileMute(st: State, i: nat, now: int, r: Reply): State
    requires i < |st.mutes|
  {
    if MuteActive(st.mutes[i], now) && !Backed(st, i, now) then Post(st, i, now, r) else st
  }

  function ReconcileMutes(st: State, n: nat, now: int, replies: seq<Reply>): (after: State)
    requires n <= |st.mutes| == |replies|
    ensures |after.mutes| == |st.mutes|
  {
    if n == 0 then st else ReconcileMute(ReconcileMutes(st, n - 1, now, replies), n - 1, now, replies[n - 1])
  }

  /** Ids of the silences that back an active mute. */
  predicate Known(mutes: seq<Mute>, id: SilenceId, now: int) {
    exists i :: 0 <= i < |mutes| && MuteActive(mutes[i], now) && mutes[i].silence == Some(id)
  }

  predicate Orphan(st: State, id: SilenceId, now: int) {
    && id in st.silences
    && SilenceActive(st.silences[id], now) && Ours(st.silences[id])
    && now - st.silences[id].updated >= ORPHAN_GRACE
    && !Known(st.mutes, id, now)
  }

  function OrphanSweep(st: State, now: int): State {
    st.(silences := map id | id in st.silences ::
          if Orphan(st, id, now) then st.silences[id].(ends := now) else st.silences[id])
  }

  function ReconcileOnce(st: State, now: int, replies: seq<Reply>): State
    requires |replies| == |st.mutes|
  {
    OrphanSweep(ReconcileMutes(st, |st.mutes|, now, replies), now)
  }

  // ---- what both sides keep ----

  /** Mutes do not share a silence, and the silence a mute names was posted for it. */
  ghost predicate Valid(st: State) {
    && (forall i, j :: 0 <= i < j < |st.mutes| && st.mutes[i].silence.Some? ==>
        st.mutes[i].silence != st.mutes[j].silence)
    && (forall i :: 0 <= i < |st.mutes| && st.mutes[i].silence.Some? && st.mutes[i].silence.value in st.silences ==>
          && Ours(st.silences[st.mutes[i].silence.value])
          && st.silences[st.mutes[i].silence.value].matchers == MuteMatchers(st.mutes[i]))
  }

  /** Minted ids are new everywhere. */
  ghost predicate FreshFrom(st: State, replies: seq<Reply>, k: nat) {
    && (forall i :: k <= i < |replies| ==> replies[i].minted !in st.silences)
    && (forall i, j :: k <= i < |replies| && 0 <= j < |st.mutes| ==> st.mutes[j].silence != Some(replies[i].minted))
    && (forall i, j :: 0 <= i < j < |replies| ==> replies[i].minted != replies[j].minted)
  }

  /** Nothing of an operator's is changed or removed, and nothing but the named mute's silence and new ones of ours. */
  ghost predicate OperatorsUntouched(a: State, b: State) {
    forall id :: id in a.silences && !Ours(a.silences[id]) ==> id in b.silences && b.silences[id] == a.silences[id]
  }

  lemma {:induction false} PostedIsGood(m: Mute, now: int)
    requires Accepts(Posted(m, now), now)
    ensures SilenceActive(Posted(m, now), now) && !DriftsEndsAt(m, Posted(m, now), now) && Ours(Posted(m, now))
    ensures Posted(m, now).matchers == MuteMatchers(m)
  {
    var author := CREATED_BY_PREFIX + m.createdBy;
    assert author[..|CREATED_BY_PREFIX|] == CREATED_BY_PREFIX;
  }

  lemma PostKeeps(st: State, i: nat, now: int, replies: seq<Reply>)
    requires i < |st.mutes| == |replies| && Valid(st) && FreshFrom(st, replies, i)
    ensures var b := Post(st, i, now, replies[i]);
            && |b.mutes| == |st.mutes| && Valid(b) && FreshFrom(b, replies, i + 1) && OperatorsUntouched(st, b)
            && (if Accepts(Posted(st.mutes[i], now), now) then Backed(b, i, now) else b == st)
            && (forall j :: 0 <= j < |st.mutes| && j != i ==>
                b.mutes[j] == st.mutes[j] && Backed(b, j, now) == Backed(st, j, now))
            && b.mutes[i] == st.mutes[i].(silence := b.mutes[i].silence)
  {
    var b := Post(st, i, now, replies[i]);
    if Accepts(Posted(st.mutes[i], now), now) {
      PostedIsGood(st.mutes[i], now);
    }
  }

  /** What the pass has done for the first n mutes, and not to the others. */
  ghost predicate Reconciled(a: State, b: State, n: nat, now: int, replies: seq<Reply>)
    requires n <= |a.mutes| == |replies| == |b.mutes|
  {
    && Valid(b) && FreshFrom(b, replies, n) && OperatorsUntouched(a, b)
    && (forall i :: 0 <= i < |a.mutes| ==> b.mutes[i] == a.mutes[i].(silence := b.mutes[i].silence))
    && (forall i :: n <= i < |a.mutes| ==> b.mutes[i] == a.mutes[i] && Backed(b, i, now) == Backed(a, i, now))
    && (forall i :: 0 <= i < n && MuteActive(a.mutes[i], now) ==>
          (Backed(b, i, now) <==> Backed(a, i, now) || Accepts(Posted(a.mutes[i], now), now)))
  }

  lemma PostedIgnoresId(m: Mute, now: int, id: Option<SilenceId>)
    ensures Posted(m.(silence := id), now) == Posted(m, now)
  {
  }

  lemma {:induction false} MutesAreReconciled(st: State, n: nat, now: int, replies: seq<Reply>)
    requires n <= |st.mutes| == |replies| && Valid(st) && FreshFrom(st, replies, 0)
    ensures Reconciled(st, ReconcileMutes(st, n, now, replies), n, now, replies)
  {
    hide Valid, FreshFrom, Backed, Accepts, Post, Posted;
    if n > 0 {
      MutesAreReconciled(st, n - 1, now, replies);
      var a := ReconcileMutes(st, n - 1, now, replies);
      PostedIgnoresId(st.mutes[n - 1], now, a.mutes[n - 1].silence);
      if MuteActive(a.mutes[n - 1], now) && !Backed(a, n - 1, now) {
        PostKeeps(a, n - 1, now, replies);
      }
      var b := ReconcileMutes(st, n, now, replies);
      assert b == ReconcileMute(a, n - 1, now, replies[n - 1]);
      FreshLater(b, replies, n - 1);
    }
  }

  lemma FreshLater(st: State, replies: seq<Reply>, k: nat)
    requires k < |replies|
    ensures FreshFrom(st, replies, k) ==> FreshFrom(st, replies, k + 1)
  {
  }

  /** The sweep takes out what backs no mute, and only that. */
  lemma SweepKeeps(st: State, now: int)
    requires Valid(st)
    ensures var b := OrphanSweep(st, now);
            && Valid(b) && OperatorsUntouched(st, b) && b.mutes == st.mutes
            && (forall i :: 0 <= i < |st.mutes| && MuteActive(st.mutes[i], now) ==>
                Backed(b, i, now) == Backed(st, i, now))
            && (forall id :: !Orphan(b, id, now))
  {
    var b := OrphanSweep(st, now);
    forall i | 0 <= i < |st.mutes| && MuteActive(st.mutes[i], now) ensures Backed(b, i, now) == Backed(st, i, now) {
      if st.mutes[i].silence.Some? {
        assert Known(st.mutes, st.mutes[i].silence.value, now);
      }
    }
  }

  /**
   * One pass with alertmanager answering: an active mute ends up backed exactly when it was backed
   * or its silence is still worth posting; no unbacked silence of ours older than the grace is left;
   * operators' silences are untouched.
   */
  lemma PassConverges(st: State, now: int, replies: seq<Reply>)
    requires |replies| == |st.mutes| && Valid(st) && FreshFrom(st, replies, 0)
    ensures var b := ReconcileOnce(st, now, replies);
            && |b.mutes| == |st.mutes| && Valid(b) && OperatorsUntouched(st, b)
            && (forall i :: 0 <= i < |st.mutes| ==> b.mutes[i] == st.mutes[i].(silence := b.mutes[i].silence))
            && (forall i :: 0 <= i < |st.mutes| && MuteActive(st.mutes[i], now) ==>
                  (Backed(b, i, now) <==> Backed(st, i, now) || Truncated(MuteEndsAt(st.mutes[i], now)) > now))
            && (forall id :: !Orphan(b, id, now))
  {
    hide Valid, FreshFrom, Backed, OperatorsUntouched, Orphan, OrphanSweep, ReconcileMutes, MuteActive;
    MutesAreReconciled(st, |st.mutes|, now, replies);
    var a := ReconcileMutes(st, |st.mutes|, now, replies);
    SweepKeeps(a, now);
    ActiveIgnoresId(st.mutes, a.mutes, now);
    UntouchedTwice(st, a, OrphanSweep(a, now));
  }

  lemma ActiveIgnoresId(a: seq<Mute>, b: seq<Mute>, now: int)
    requires |a| == |b| && forall i :: 0 <= i < |a| ==> b[i] == a[i].(silence := b[i].silence)
    ensures forall i :: 0 <= i < |a| ==> (MuteActive(a[i], now) <==> MuteActive(b[i], now))
  {
  }

  lemma UntouchedTwice(a: State, b: State, c: State)
    requires OperatorsUntouched(a, b) && OperatorsUntouched(b, c)
    ensures OperatorsUntouched(a, c)
  {
  }

  // ---- an immediate second pass ----

  /** No mute to post for and no silence to delete. */
  ghost predicate Quiet(st: State, now: int) {
    && (forall i :: 0 <= i < |st.mutes| && MuteActive(st.mutes[i], now) ==> Backed(st, i, now))
    && (forall id :: !Orphan(st, id, now))
  }

  /** What a pass would do is done: a mute that is not backed ends within this second, so its post is refused. */
  ghost predicate Done(st: State, now: int) {
    && (forall i :: 0 <= i < |st.mutes| && MuteActive(st.mutes[i], now) ==>
          Backed(st, i, now) || Truncated(MuteEndsAt(st.mutes[i], now)) <= now)
    && (forall id :: !Orphan(st, id, now))
  }

  lemma {:induction false} DoneMutes(st: State, n: nat, now: int, replies: seq<Reply>)
    requires n <= |st.mutes| == |replies| && Done(st, now)
    ensures ReconcileMutes(st, n, now, replies) == st
  {
    if n > 0 {
      DoneMutes(st, n - 1, now, replies);
    }
  }

  /** A pass changes nothing exactly when there is nothing left that it could do. */
  lemma UnchangedIffDone(st: State, now: int, replies: seq<Reply>)
    requires |replies| == |st.mutes| && Valid(st) && FreshFrom(st, replies, 0)
    ensures ReconcileOnce(st, now, replies) == st <==> Done(st, now)
  {
    if Done(st, now) {
      DoneMutes(st, |st.mutes|, now, replies);
      assert OrphanSweep(st, now).silences == st.silences;
    }
    PassConverges(st, now, replies);
  }

  /**
   * Nothing has lapsed between the two passes: the same mutes are active, their silences still run,
   * no orphan has come of age.
   */
  ghost predicate Immediate(st: State, now: int, later: int) {
    && now <= later
    && (forall i :: 0 <= i < |st.mutes| ==> (MuteActive(st.mutes[i], later) <==> MuteActive(st.mutes[i], now)))
    && (forall i :: 0 <= i < |st.mutes| && Backed(st, i, now) && MuteActive(st.mutes[i], now) ==>
          var ends := st.silences[st.mutes[i].silence.value].ends;
          if st.mutes[i].expires.Some? then later < ends else later + REISSUE_LEAD <= ends)
    && (forall id :: id in st.silences && SilenceActive(st.silences[id], later) ==>
          later - st.silences[id].updated >= ORPHAN_GRACE ==>
            now - st.silences[id].updated >= ORPHAN_GRACE && SilenceActive(st.silences[id], now))
  }

  /** After a pass that could back every mute, an immediate second one issues no POST and no DELETE. */
  lemma SecondPassIsQuiet(st: State, now: int, replies: seq<Reply>, later: int)
    requires |replies| == |st.mutes| && Valid(st) && FreshFrom(st, replies, 0)
    requires forall i :: 0 <= i < |st.mutes| && MuteActive(st.mutes[i], now) ==>
               Backed(st, i, now) || Truncated(MuteEndsAt(st.mutes[i], now)) > now
    requires Immediate(ReconcileOnce(st, now, replies), now, later)
    ensures Quiet(ReconcileOnce(st, now, replies), later)
  {
    hide ReconcileOnce;
    PassConverges(st, now, replies);
    var b := ReconcileOnce(st, now, replies);
    forall i | 0 <= i < |b.mutes| && MuteActive(b.mutes[i], later) ensures Backed(b, i, later) {
      assert MuteActive(st.mutes[i], now) && Backed(b, i, now);
    }
    forall id ensures !Orphan(b, id, later) {
      assert !Orphan(b, id, now);
      forall i | 0 <= i < |b.mutes| && MuteActive(b.mutes[i], now) && b.mutes[i].silence == Some(id)
        ensures Known(b.mutes, id, later)
      {
      }
    }
  }

  // ---- a mute is created, edited or removed ----

  /** The call after an upsert of row i leaves the mute backed unless its silence is not worth posting. */
  lemma UpsertBacks(st: State, i: nat, now: int, replies: seq<Reply>)
    requires i < |st.mutes| == |replies| && Valid(st) && FreshFrom(st, replies, i)
    ensures var b := Post(st, i, now, replies[i]);
            Valid(b) && OperatorsUntouched(st, b)
            && (Truncated(MuteEndsAt(st.mutes[i], now)) > now ==>
                Backed(b, i, now) && !Orphan(b, b.mutes[i].silence.value, now))
  {
    hide FreshFrom, Post;
    PostKeeps(st, i, now, replies);
    var b := Post(st, i, now, replies[i]);
    if b.mutes[i].silence.Some? && MuteActive(b.mutes[i], now) {
      assert Known(b.mutes, b.mutes[i].silence.value, now);
    }
  }

  /** Removing a row and expiring its silence leaves every other mute as it was. */
  lemma DeleteLeavesOthers(st: State, i: nat, now: int)
    requires i < |st.mutes| && Valid(st)
    ensures var id := st.mutes[i].silence;
            var left := if id.Some? then Expire(st.silences, id.value, now) else st.silences;
            var b := State(left, st.mutes[..i] + st.mutes[i + 1..]);
            Valid(b) && OperatorsUntouched(st, b)
            && (forall j :: 0 <= j < |b.mutes| ==> Backed(b, j, now) == Backed(st, if j < i then j else j + 1, now))
            && (id.Some? && id.value in st.silences ==> !SilenceActive(b.silences[id.value], now))
  {
    var id := st.mutes[i].silence;
    var rest := st.mutes[..i] + st.mutes[i + 1..];
    assert forall j :: 0 <= j < |rest| ==> rest[j] == st.mutes[if j < i then j else j + 1];
  }
}

/**
 * The automatic chain: a registered build newer than the marker is taken up by
 * the attempt after its registration, after the deploy in flight or after the
 * first fleet, or by the deploy after its promotion. Which steps leave one
 * behind, with no call under way that would take it up, is determined exactly.
 */
module DeployChain {
  import opened Wrappers
  import opened DeploySteps
  import opened DeployGuarantees

  // ---- left behind ----

  ghost predicate PickCovers(st: State, env: Env, mark: Mark, p: Pick) {
    p in st.picks && p.env == env && p.id in st.versions && !NewerThan(mark, MarkOf(st, p.id))
  }

  ghost predicate CallCovers(st: State, env: Env, mark: Mark, id: Id) {
    id in st.recording && id in st.versions && st.versions[id].env == env && !NewerThan(mark, MarkOf(st, id))
  }

  ghost predicate PromotionCovers(st: State, env: Env, mark: Mark, id: Id) {
    id in st.promoted && id in st.versions && st.versions[id].env == env && !NewerThan(mark, MarkOf(st, id))
  }

  /** A call under way will take the marker to this build or past it. */
  ghost predicate Covered(st: State, env: Env, mark: Mark) {
    || (exists p :: PickCovers(st, env, mark, p))
    || (exists id :: CallCovers(st, env, mark, id))
    || (exists id :: PromotionCovers(st, env, mark, id))
  }

  ghost predicate Unattended(st: State, env: Env, id: Id) {
    RegisteredAfter(st, env, Marker(st, env), id) && !Covered(st, env, MarkOf(st, id))
  }

  /** An automatic environment with a fleet in which nothing is in flight. */
  ghost predicate Open(st: State, env: Env) {
    env in st.auto && HasFleet(st, env) && !Busy(st, env)
  }

  ghost predicate Aborts(st: State, env: Env, k: nat) {
    && k in st.closing && k < |st.armed| && st.armed[k].outcome == Some(Abort)
    && st.armed[k].version in st.versions && st.versions[st.armed[k].version].env == env
  }

  /** A deploy is being aborted, which an attempt follows however the store answers. */
  ghost predicate Aborting(st: State, env: Env) {
    exists k :: Aborts(st, env, k)
  }

  /** An attempt is outstanding that has not picked yet, or is about to be made. */
  ghost predicate Called(st: State, env: Env) {
    env in st.kicks || (exists k :: k in st.looks && k.env == env) || Aborting(st, env)
  }

  /** Some build waits, nothing is in flight, and no call is outstanding that would take it up. */
  ghost predicate LeftBehind(st: State, env: Env) {
    Open(st, env) && !Called(st, env) && exists id :: Unattended(st, env, id)
  }

  /**
   * The steps that leave a build behind: an attempt that fails before it reads the marker, in choosing or in
   * beginning; a deploy after a promotion that fails or is refused; a mode switched on over a waiting build.
   */
  ghost predicate Misses(st: State, step: Step, env: Env)
    requires CanDo(st, step)
  {
    match step
    case Attempt(e, ok) =>
      && e == env && !ok && Open(st, env) && !Called(st.(kicks := st.kicks - multiset{e}), env)
      && exists id :: Unattended(st, env, id)
    case Choose(k, ok) =>
      && k.env == env && !ok && Open(st, env) && !Called(st.(looks := st.looks - multiset{k}), env)
      && exists id :: Unattended(st, env, id)
    case Begin(p, ok) =>
      && p.env == env && (!ok || st.versions[p.id].state == Disabled) && Open(st, env) && !Called(st, env)
      && exists id :: Unattended(st.(picks := st.picks - multiset{p}), env, id)
    case Deploy(v, promotion, ok) =>
      && promotion && st.versions[v].env == env && (!ok || st.versions[v].state == Disabled) && Open(st, env)
      && !Called(st, env) && exists id :: Unattended(st.(promoted := st.promoted - multiset{v}), env, id)
    case Switch(e, on) =>
      && e == env && on && env !in st.auto && HasFleet(st, env) && !Busy(st, env) && !Called(st, env)
      && exists id :: Unattended(st, env, id)
    case _ => false
  }

  // ---- frames ----

  lemma StaysAttended(a: State, b: State, env: Env)
    requires !LeftBehind(a, env)
    requires Open(b, env) && !Called(b, env) ==> Open(a, env) && !Called(a, env)
    requires forall id :: Unattended(b, env, id) ==> Unattended(a, env, id)
    ensures !LeftBehind(b, env)
  {
    hide Open, Called, Unattended;
  }

  lemma CalledFrame(a: State, b: State, env: Env)
    requires env in a.kicks <==> env in b.kicks
    requires forall k: Look :: k.env == env ==> (k in a.looks <==> k in b.looks)
    requires b.closing == a.closing && b.armed == a.armed
    requires forall id ::
               (id in a.versions && a.versions[id].env == env) <==> (id in b.versions && b.versions[id].env == env)
    ensures Called(a, env) <==> Called(b, env)
  {
    forall k ensures Aborts(a, env, k) <==> Aborts(b, env, k) {
    }
  }

  lemma CalledStays(a: State, b: State, env: Env)
    requires (env in a.kicks ==> env in b.kicks) && a.looks == b.looks && (Aborting(a, env) ==> Aborting(b, env))
    ensures Called(a, env) ==> Called(b, env)
  {
    hide Aborting;
  }

  /** Fan-outs that have ended stay as they are. */
  lemma AbortingStays(a: State, b: State, env: Env)
    requires ArmedOnwards(a, b) && RowsKept(a, b)
    requires forall k :: Aborts(a, env, k) ==> k in b.closing
    ensures Aborting(a, env) ==> Aborting(b, env)
  {
    if k: nat :| Aborts(a, env, k) {
      assert Onwards(a.armed[k], b.armed[k]);
      assert Aborts(b, env, k);
    }
  }

  lemma CoveredGrows(a: State, b: State, env: Env, mark: Mark)
    requires forall p :: PickCovers(a, env, mark, p) ==> Covered(b, env, mark)
    requires forall id :: CallCovers(a, env, mark, id) ==> Covered(b, env, mark)
    requires forall id :: PromotionCovers(a, env, mark, id) ==> Covered(b, env, mark)
    ensures Covered(a, env, mark) ==> Covered(b, env, mark)
  {
    hide PickCovers, CallCovers, PromotionCovers;
  }

  ghost predicate SameRows(a: State, b: State, env: Env) {
    && (forall id ::
          (id in a.versions && a.versions[id].env == env) <==> (id in b.versions && b.versions[id].env == env))
    && (forall id :: id in a.versions && a.versions[id].env == env ==> b.versions[id] == a.versions[id])
  }

  /** The environment has the same calls under way. */
  ghost predicate SameOpenCalls(a: State, b: State, env: Env) {
    && (forall p: Pick :: p.env == env ==> (p in a.picks <==> p in b.picks))
    && (forall id :: id in b.versions && b.versions[id].env == env ==>
          (id in a.recording <==> id in b.recording) && (id in a.promoted <==> id in b.promoted))
  }

  /** What a step does elsewhere leaves the environment as it was. */
  lemma SameFor(a: State, b: State, env: Env)
    requires RefsOk(a) && SameRows(a, b, env) && SameOpenCalls(a, b, env)
    requires (env in a.auto <==> env in b.auto) && (Called(a, env) <==> Called(b, env))
    requires Marker(a, env) == Marker(b, env) && (HasFleet(a, env) <==> HasFleet(b, env))
    ensures LeftBehind(a, env) <==> LeftBehind(b, env)
  {
    hide NewerThan, HasFleet, Marker, Covered, LeftBehind, Busy, Called, SameOpenCalls;
    SameBusy(a, b, env);
    SameBusy(b, a, env);
    forall mark ensures Covered(a, env, mark) <==> Covered(b, env, mark) {
      SameCovers(a, b, env, mark);
    }
    forall id ensures Unattended(a, env, id) <==> Unattended(b, env, id) {
    }
    SameLeftBehind(a, b, env);
  }

  lemma SameLeftBehind(a: State, b: State, env: Env)
    requires Open(a, env) == Open(b, env) && (Called(a, env) <==> Called(b, env))
    requires forall id :: Unattended(a, env, id) <==> Unattended(b, env, id)
    ensures LeftBehind(a, env) <==> LeftBehind(b, env)
  {
    hide Open, Called, Unattended;
  }

  lemma SameBusy(a: State, b: State, env: Env)
    requires SameRows(a, b, env)
    ensures Busy(a, env) ==> Busy(b, env)
  {
    if Busy(a, env) {
      var u :| u in a.versions && a.versions[u].env == env && a.versions[u].state == Prepulling;
      assert b.versions[u] == a.versions[u];
    }
  }

  lemma SameCovers(a: State, b: State, env: Env, mark: Mark)
    requires RefsOk(a) && SameRows(a, b, env) && SameOpenCalls(a, b, env)
    ensures Covered(a, env, mark) <==> Covered(b, env, mark)
  {
    hide NewerThan;
    forall p ensures PickCovers(a, env, mark, p) <==> PickCovers(b, env, mark, p) {
    }
    forall id ensures CallCovers(a, env, mark, id) <==> CallCovers(b, env, mark, id) {
    }
    forall id ensures PromotionCovers(a, env, mark, id) <==> PromotionCovers(b, env, mark, id) {
    }
  }

  // ---- step by step ----

  lemma CalledIsAttended(st: State, env: Env)
    requires Called(st, env) || Busy(st, env) || !HasFleet(st, env)
    ensures !LeftBehind(st, env)
  {
  }

  lemma KickedIsAttended(st: State, env: Env)
    requires env in st.kicks
    ensures !LeftBehind(st, env)
  {
  }

  lemma FleetsFrame(a: State, b: State, env: Env)
    requires b.fleets == a.fleets
    ensures HasFleet(b, env) <==> HasFleet(a, env)
  {
  }

  lemma SameMarker(a: State, b: State, env: Env)
    requires b.marks == a.marks
    ensures Marker(b, env) == Marker(a, env)
  {
  }

  lemma RegisterAttends(st: State, id: Id, v: Version, env: Env)
    requires RefsOk(st) && !LeftBehind(st, env) && id !in st.versions && v.state == Registered
    ensures !LeftBehind(NewVersion(st, id, v), env)
  {
    hide RefsOk, NewerThan, LeftBehind, Marker, HasFleet, Busy, Called, SameRows;
    var b := NewVersion(st, id, v);
    if v.env == env {
      KickedIsAttended(b, env);
    } else {
      FleetsFrame(st, b, env);
      SameMarker(st, b, env);
      CalledFrame(st, b, env);
      RowElsewhere(st, id, v, env);
      SameFor(st, b, env);
    }
  }

  lemma RowElsewhere(st: State, id: Id, v: Version, env: Env)
    requires id !in st.versions && v.env != env
    ensures SameRows(st, NewVersion(st, id, v), env)
  {
  }

  /** The promotion's own deploy takes up the build. */
  lemma PromoteAttends(st: State, id: Id, v: Version, env: Env)
    requires !LeftBehind(st, env) && (id in st.versions ==> st.versions[id] == v) && v.state == Registered
    ensures !LeftBehind(PromoteStep(st, id, v), env)
  {
    hide LeftBehind, Open, Called, Unattended;
    var b := PromoteStep(st, id, v);
    PromotedOpen(st, id, v, env);
    SameArmedGoesOn(st, b);
    AbortingStays(st, b, env);
    CalledStays(st, b, env);
    PromotionTakesUp(st, id, v, env);
    forall u ensures Unattended(b, env, u) ==> Unattended(st, env, u) {
      PromotedRow(st, id, v, env, u);
    }
    StaysAttended(st, b, env);
  }

  lemma PromotionTakesUp(st: State, id: Id, v: Version, env: Env)
    ensures !Unattended(PromoteStep(st, id, v), env, id)
  {
    var b := PromoteStep(st, id, v);
    var mark := MarkOf(b, id);
    if b.versions[id].env == env {
      assert PromotionCovers(b, env, mark, id);
    }
  }

  lemma PromotedOpen(st: State, id: Id, v: Version, env: Env)
    requires (id in st.versions ==> st.versions[id] == v) && v.state == Registered
    ensures Open(PromoteStep(st, id, v), env) ==> Open(st, env)
  {
    hide HasFleet;
    var b := PromoteStep(st, id, v);
    FleetsFrame(st, b, env);
    if Busy(st, env) {
      var u :| u in st.versions && st.versions[u].env == env && st.versions[u].state == Prepulling;
      assert u in b.versions && b.versions[u] == st.versions[u];
    }
  }

  lemma PromotedRow(st: State, id: Id, v: Version, env: Env, u: Id)
    requires (id in st.versions ==> st.versions[id] == v) && !Unattended(PromoteStep(st, id, v), env, id)
    ensures Unattended(PromoteStep(st, id, v), env, u) ==> Unattended(st, env, u)
  {
    hide NewerThan, Covered;
    var b := PromoteStep(st, id, v);
    SameMarker(st, b, env);
    if u != id && u in st.versions {
      PromotedCovers(st, id, v, env, MarkOf(b, u));
    }
  }

  lemma PromotedCovers(st: State, id: Id, v: Version, env: Env, mark: Mark)
    requires id in st.versions ==> st.versions[id] == v
    ensures Covered(st, env, mark) ==> Covered(PromoteStep(st, id, v), env, mark)
  {
    hide NewerThan;
    var b := PromoteStep(st, id, v);
    forall p | PickCovers(st, env, mark, p) ensures Covered(b, env, mark) {
      assert PickCovers(b, env, mark, p);
    }
    forall c | CallCovers(st, env, mark, c) ensures Covered(b, env, mark) {
      assert CallCovers(b, env, mark, c);
    }
    forall c | PromotionCovers(st, env, mark, c) ensures Covered(b, env, mark) {
      assert PromotionCovers(b, env, mark, c);
    }
    CoveredGrows(st, b, env, mark);
  }

  lemma PutFleetAttends(st: State, f: Fleet, pin: Option<Id>, env: Env)
    requires RefsOk(st) && !LeftBehind(st, env)
    ensures !LeftBehind(UpsertFleet(st, f, pin), env)
  {
    hide NewerThan, LeftBehind, HasFleet, Marker, Called, RefsOk, Busy;
    var b := UpsertFleet(st, f, pin);
    if env == f.env {
      KickedIsAttended(b, env);
    } else {
      CalledFrame(st, b, env);
      FleetOfOther(st, f, pin, env);
      SameMarker(st, b, env);
      SameFor(st, b, env);
    }
  }

  lemma FleetOfOther(st: State, f: Fleet, pin: Option<Id>, env: Env)
    requires env != f.env
    ensures HasFleet(UpsertFleet(st, f, pin), env) <==> HasFleet(st, env)
  {
    var b := UpsertFleet(st, f, pin);
    if HasFleet(st, env) {
      var g :| g in st.fleets && g.env == env;
      assert g in b.fleets;
    }
  }

  lemma SwitchIff(st: State, e: Env, on: bool, env: Env)
    requires RefsOk(st) && !LeftBehind(st, env)
    ensures LeftBehind(SwitchMode(st, e, on), env) <==> Misses(st, Switch(e, on), env)
  {
    hide NewerThan, HasFleet, Busy, Marker, Called;
    var b := SwitchMode(st, e, on);
    CalledFrame(st, b, env);
    FleetsFrame(st, b, env);
    SameMarker(st, b, env);
    RowsFrame(st, b, env);
    forall id ensures Unattended(b, env, id) <==> Unattended(st, env, id) {
    }
  }

  lemma RowsFrame(a: State, b: State, env: Env)
    requires b.versions == a.versions
    ensures Busy(b, env) <==> Busy(a, env)
    ensures b.picks == a.picks && b.recording == a.recording && b.promoted == a.promoted ==>
              forall mark :: Covered(b, env, mark) <==> Covered(a, env, mark)
  {
    hide NewerThan;
    if b.picks == a.picks && b.recording == a.recording && b.promoted == a.promoted {
      forall mark ensures Covered(b, env, mark) <==> Covered(a, env, mark) {
        forall p ensures PickCovers(b, env, mark, p) <==> PickCovers(a, env, mark, p) {
        }
        forall id ensures CallCovers(b, env, mark, id) <==> CallCovers(a, env, mark, id) {
        }
        forall id ensures PromotionCovers(b, env, mark, id) <==> PromotionCovers(a, env, mark, id) {
        }
      }
    }
  }

  lemma AttemptIff(st: State, e: Env, ok: bool, env: Env)
    requires RefsOk(st) && !LeftBehind(st, env)
    ensures LeftBehind(AttemptStep(st, e, ok), env) <==> Misses(st, Attempt(e, ok), env)
  {
    hide NewerThan, RefsOk, LeftBehind, Unattended, Open, Called;
    if e != env {
      AttemptElsewhere(st, e, ok, env);
    } else if ok && env in st.auto {
      LookAttends(st, env);
    } else {
      OnlyCalls(st, AttemptStep(st, e, ok), env);
      NotAutomatic(st, env);
    }
  }

  lemma NotAutomatic(st: State, env: Env)
    ensures Open(st, env) ==> env in st.auto
  {
  }

  lemma LookAttends(st: State, env: Env)
    requires env in st.auto
    ensures !LeftBehind(AttemptStep(st, env, true), env)
  {
    hide Open, Unattended;
    assert Look(env, SeenNow(st, env)) in AttemptStep(st, env, true).looks;
  }

  lemma AttemptElsewhere(st: State, e: Env, ok: bool, env: Env)
    requires RefsOk(st) && !LeftBehind(st, env) && e != env
    ensures !LeftBehind(AttemptStep(st, e, ok), env)
  {
    hide RefsOk, NewerThan, LeftBehind, Marker, HasFleet, Busy, Called, AttemptStep;
    var b := AttemptStep(st, e, ok);
    AttemptFrame(st, e, ok);
    AttemptCalls(st, e, ok);
    FleetsFrame(st, b, env);
    SameMarker(st, b, env);
    CalledFrame(st, b, env);
    SameFor(st, b, env);
  }

  lemma AttemptCalls(st: State, e: Env, ok: bool)
    ensures var b := AttemptStep(st, e, ok);
            && b.kicks == st.kicks - multiset{e}
            && forall k: Look :: k.env != e ==> (k in b.looks <==> k in st.looks)
  {
    hide SeenNow;
  }

  lemma OnlyCalls(a: State, b: State, env: Env)
    requires b == a.(kicks := b.kicks, looks := b.looks)
    ensures LeftBehind(b, env) <==> Open(a, env) && !Called(b, env) && exists id :: Unattended(a, env, id)
  {
    hide NewerThan, HasFleet, Busy, Covered, Called, Marker, RegisteredAfter;
    FleetsFrame(a, b, env);
    RowsFrame(a, b, env);
    forall id ensures Unattended(b, env, id) <==> Unattended(a, env, id) {
      SameRegistered(a, b, env, id);
    }
  }

  lemma SameRegistered(a: State, b: State, env: Env, id: Id)
    requires b.versions == a.versions && b.marks == a.marks
    ensures RegisteredAfter(b, env, Marker(b, env), id) <==> RegisteredAfter(a, env, Marker(a, env), id)
  {
  }

  // ---- the attempt chooses ----

  lemma ChooseIff(st: State, k: Look, ok: bool, env: Env)
    requires RefsOk(st) && LooksOk(st.looks, st.marks) && k in st.looks && !LeftBehind(st, env)
    ensures LeftBehind(ChooseStep(st, k, ok), env) <==> Misses(st, Choose(k, ok), env)
  {
    hide NewerThan, RefsOk, LooksOk, LeftBehind, Unattended, Open, Called, HasNewer;
    if k.env != env {
      ChooseElsewhere(st, k, ok, env);
    } else if ok {
      forall id ensures !Unattended(ChooseStep(st, k, true), env, id) {
        ChosenAttends(st, k, id);
      }
      NobodyWaits(ChooseStep(st, k, true), env);
    } else {
      OnlyCalls(st, ChooseStep(st, k, ok), env);
    }
  }

  lemma NobodyWaits(st: State, env: Env)
    requires forall id :: !Unattended(st, env, id)
    ensures !LeftBehind(st, env)
  {
    hide Unattended;
  }

  lemma ChooseElsewhere(st: State, k: Look, ok: bool, env: Env)
    requires RefsOk(st) && k in st.looks && !LeftBehind(st, env) && k.env != env
    ensures !LeftBehind(ChooseStep(st, k, ok), env)
  {
    hide RefsOk, NewerThan, NewestRegisteredAfter, LeftBehind, Marker, HasFleet, Busy, Called;
    var b := ChooseStep(st, k, ok);
    ChooseFrame(st, k, ok);
    FleetsFrame(st, b, env);
    SameMarker(st, b, env);
    CalledFrame(st, b, env);
    SameFor(st, b, env);
  }

  /** What waits now is newer than the marker that was read, so the pick covers it, or there is none. */
  lemma ChosenAttends(st: State, k: Look, id: Id)
    requires LooksOk(st.looks, st.marks) && k in st.looks
    ensures !Unattended(ChooseStep(st, k, true), k.env, id)
  {
    hide Busy, HasFleet;
    var b := ChooseStep(st, k, true);
    if RegisteredAfter(b, k.env, Marker(b, k.env), id) {
      assert RegisteredAfter(st, k.env, k.seen.marker, id);
      NewestExists(st, k.env, k.seen.marker, id);
      assert PickCovers(b, k.env, MarkOf(b, id), PickOf(st, k));
    }
  }

  // ---- a version is begun ----

  lemma BusyAttends(st: State, env: Env, id: Id)
    requires id in st.versions && st.versions[id].env == env && st.versions[id].state == Prepulling
    ensures !LeftBehind(st, env)
  {
    assert Busy(st, env);
  }

  /** A call of BeginDeploy, for this environment or another, leaves nothing behind. */
  lemma BeginAttends(st: State, id: Id, seen: Option<Seen>, env: Env)
    requires RefsOk(st) && id in st.versions && !LeftBehind(st, env)
    ensures !LeftBehind(BeginCall(st, id, seen), env)
  {
    hide NewerThan, LeftBehind, Marker, BeginResult, BeginDeploy, Called;
    var b := BeginCall(st, id, seen);
    BeginTouches(st, id, seen);
    CalledFrame(st, b, env);
    FleetsFrame(st, b, env);
    SameMarker(st, b, env);
    if st.versions[id].env != env {
      BeginElsewhere(st, id, seen, env);
      SameFor(st, b, env);
    } else if BeginResult(st, id) == Began {
      BeganIsPrepulling(st, id, seen);
      BusyAttends(b, env, id);
    } else if Begins(st, id) {
      RecordingAttends(st, b, env);
    }
  }

  lemma BeganIsPrepulling(st: State, id: Id, seen: Option<Seen>)
    requires id in st.versions && BeginResult(st, id) == Began
    ensures var b := BeginCall(st, id, seen);
            id in b.versions && b.versions[id].env == st.versions[id].env && b.versions[id].state == Prepulling
  {
    hide BeginResult;
  }

  lemma BeginElsewhere(st: State, id: Id, seen: Option<Seen>, env: Env)
    requires id in st.versions && st.versions[id].env != env
    ensures SameRows(st, BeginCall(st, id, seen), env)
  {
    hide BeginResult;
  }

  /** One more open call covers more. */
  lemma RecordingAttends(a: State, b: State, env: Env)
    requires !LeftBehind(a, env) && b == a.(recording := b.recording) && a.recording <= b.recording
    ensures !LeftBehind(b, env)
  {
    hide NewerThan, Marker, Covered, Busy, HasFleet, Called;
    FleetsFrame(a, b, env);
    RowsFrame(a, b, env);
    CalledFrame(a, b, env);
    forall id | Unattended(b, env, id) ensures Unattended(a, env, id) {
      SameRegistered(a, b, env, id);
      MoreCalls(a, b, env, MarkOf(b, id));
    }
    StaysAttended(a, b, env);
  }

  lemma MoreCalls(a: State, b: State, env: Env, mark: Mark)
    requires b == a.(recording := b.recording) && a.recording <= b.recording
    ensures Covered(a, env, mark) ==> Covered(b, env, mark)
  {
    hide NewerThan;
    forall p ensures PickCovers(a, env, mark, p) ==> PickCovers(b, env, mark, p) {
    }
    forall id ensures CallCovers(a, env, mark, id) ==> CallCovers(b, env, mark, id) {
    }
    forall id ensures PromotionCovers(a, env, mark, id) ==> PromotionCovers(b, env, mark, id) {
    }
  }

  // ---- the pick, or the version promoted, begins, or its BeginDeploy fails ----

  /** The call of a pick or of a promotion begins here: what it covered, and it alone, is no longer covered. */
  ghost predicate Drops(st: State, left: State, id: Id) {
    && id in st.versions && left == st.(picks := left.picks, promoted := left.promoted)
    && left.picks <= st.picks && left.promoted <= st.promoted
    && (forall p :: p in st.picks && p !in left.picks ==> p.id == id && p.env == st.versions[id].env)
    && (forall u :: u in st.promoted && u !in left.promoted ==> u == id)
  }

  lemma DropElsewhere(st: State, left: State, id: Id, env: Env)
    requires RefsOk(st) && Drops(st, left, id) && st.versions[id].env != env && !LeftBehind(st, env)
    ensures !LeftBehind(left, env)
  {
    hide RefsOk, NewerThan, LeftBehind, HasFleet, Busy, Marker, Called;
    FleetsFrame(st, left, env);
    SameMarker(st, left, env);
    CalledFrame(st, left, env);
    SameFor(st, left, env);
  }

  lemma DropKeepsRefs(st: State, left: State, id: Id)
    requires RefsOk(st) && Drops(st, left, id)
    ensures RefsOk(left)
  {
    RefsCarry(st, left);
  }

  /** Without the call the same things wait, and some may be unattended. */
  lemma DropIff(st: State, left: State, id: Id, env: Env)
    requires Drops(st, left, id)
    ensures LeftBehind(left, env) <==> Open(st, env) && !Called(st, env) && exists u :: Unattended(left, env, u)
  {
    hide NewerThan, Unattended, HasFleet, Busy, Called;
    FleetsFrame(st, left, env);
    RowsFrame(st, left, env);
    CalledFrame(st, left, env);
  }

  /** The version turns out to be active already: the call that will record it covers as much. */
  lemma CallForDrop(st: State, left: State, id: Id, b: State)
    requires RefsOk(st) && Drops(st, left, id) && !LeftBehind(st, st.versions[id].env)
    requires b == left.(recording := st.recording + multiset{id})
    ensures !LeftBehind(b, st.versions[id].env)
  {
    hide NewerThan, Marker, Covered, Busy, HasFleet, Called, Drops, RefsOk;
    DropFrame(st, left, id);
    var env := st.versions[id].env;
    FleetsFrame(st, b, env);
    RowsFrame(st, b, env);
    CalledFrame(st, b, env);
    forall u | Unattended(b, env, u) ensures Unattended(st, env, u) {
      SameRegistered(st, b, env, u);
      CallCoversForDrop(st, left, id, b, MarkOf(b, u));
    }
    StaysAttended(st, b, env);
  }

  lemma DropFrame(st: State, left: State, id: Id)
    requires Drops(st, left, id)
    ensures id in st.versions && left == st.(picks := left.picks, promoted := left.promoted)
  {
  }

  lemma CallCoversForDrop(st: State, left: State, id: Id, b: State, mark: Mark)
    requires RefsOk(st) && Drops(st, left, id)
    requires b == left.(recording := st.recording + multiset{id})
    ensures Covered(st, st.versions[id].env, mark) ==> Covered(b, st.versions[id].env, mark)
  {
    hide NewerThan;
    var env := st.versions[id].env;
    forall q | PickCovers(st, env, mark, q) ensures Covered(b, env, mark) {
      if q in left.picks {
        assert PickCovers(b, env, mark, q);
      } else {
        assert CallCovers(b, env, mark, id);
      }
    }
    forall u | CallCovers(st, env, mark, u) ensures Covered(b, env, mark) {
      assert CallCovers(b, env, mark, u);
    }
    forall u | PromotionCovers(st, env, mark, u) ensures Covered(b, env, mark) {
      if u in left.promoted {
        assert PromotionCovers(b, env, mark, u);
      } else {
        assert CallCovers(b, env, mark, id);
      }
    }
    CoveredGrows(st, b, env, mark);
  }

  lemma NotOpen(st: State, env: Env)
    requires Busy(st, env) || !HasFleet(st, env)
    ensures !LeftBehind(st, env)
  {
  }

  /** What each answer of BeginDeploy means for the environment. */
  lemma Answers(st: State, id: Id)
    requires id in st.versions
    ensures var env, res := st.versions[id].env, BeginResult(st, id);
            && (res == AlreadyPrepulling || res == DeployInProgress ==> Busy(st, env))
            && (res == NoFleet ==> !HasFleet(st, env))
            && (res == VersionState <==> st.versions[id].state == Disabled)
            && res !in {NotFound, StoreFailed}
  {
    if BeginResult(st, id) == AlreadyPrepulling {
      assert st.versions[id].state == Prepulling;
    }
  }

  /** The BeginDeploy of such a call leaves a build behind exactly when it fails or meets a disabled version. */
  lemma DropAndBegin(st: State, left: State, id: Id, seen: Option<Seen>, ok: bool, env: Env)
    requires RefsOk(st) && Drops(st, left, id) && !LeftBehind(st, env)
    ensures var b := if ok then BeginCall(left, id, seen) else left;
            LeftBehind(b, env) <==>
              && st.versions[id].env == env && (!ok || st.versions[id].state == Disabled) && Open(st, env)
              && !Called(st, env) && exists u :: Unattended(left, env, u)
  {
    hide LeftBehind, Unattended, Open, Called, BeginResult, BeginDeploy, Busy, HasFleet, RefsOk, Drops;
    DropFrame(st, left, id);
    DropKeepsRefs(st, left, id);
    if st.versions[id].env != env {
      DropElsewhere(st, left, id, env);
      BeginAttends(left, id, seen, env);
    } else {
      DropIff(st, left, id, env);
      Answers(left, id);
      if ok {
        BegunAttends(st, left, id, seen);
      }
    }
  }

  /** A BeginDeploy that is answered for a version not disabled. */
  lemma BegunAttends(st: State, left: State, id: Id, seen: Option<Seen>)
    requires RefsOk(st) && Drops(st, left, id) && !LeftBehind(st, st.versions[id].env)
    ensures st.versions[id].state != Disabled ==> !LeftBehind(BeginCall(left, id, seen), st.versions[id].env)
    ensures st.versions[id].state == Disabled ==> BeginCall(left, id, seen) == left
  {
    hide LeftBehind, BeginResult, BeginDeploy, Busy, HasFleet, RefsOk, Drops;
    DropFrame(st, left, id);
    Answers(left, id);
    BeginTouches(left, id, seen);
    var b, env := BeginCall(left, id, seen), st.versions[id].env;
    match BeginResult(left, id)
    case Began =>
      BeganIsPrepulling(left, id, seen);
      BusyAttends(b, env, id);
    case AlreadyActive => CallForDrop(st, left, id, b);
    case AlreadyPrepulling => BusyStays(left, b, env);
    case DeployInProgress => NotOpen(left, env);
    case NoFleet => NotOpen(left, env);
    case _ =>
  }

  lemma BeginIff(st: State, p: Pick, ok: bool, env: Env)
    requires RefsOk(st) && CanDo(st, Begin(p, ok)) && !LeftBehind(st, env)
    ensures LeftBehind(BeginStep(st, p, ok), env) <==> Misses(st, Begin(p, ok), env)
  {
    hide LeftBehind, Unattended, Open, Called, BeginCall, RefsOk;
    PickIsOfEnv(st, p);
    DropAndBegin(st, st.(picks := st.picks - multiset{p}), p.id, Some(p.seen), ok, env);
  }

  lemma DeployIff(st: State, id: Id, promotion: bool, ok: bool, env: Env)
    requires RefsOk(st) && CanDo(st, Deploy(id, promotion, ok)) && !LeftBehind(st, env)
    ensures LeftBehind(DeployStep(st, id, promotion, ok), env) <==> Misses(st, Deploy(id, promotion, ok), env)
  {
    hide LeftBehind, Unattended, Open, Called, BeginCall, RefsOk;
    if promotion {
      DropAndBegin(st, st.(promoted := st.promoted - multiset{id}), id, None, ok, env);
    } else {
      BeginAttends(st, id, None, env);
    }
  }

  lemma PickIsOfEnv(st: State, p: Pick)
    requires RefsOk(st) && p in st.picks
    ensures p.id in st.versions && st.versions[p.id].env == p.env
  {
  }

  lemma BusyStays(a: State, b: State, env: Env)
    requires Busy(a, env) && b.versions == a.versions
    ensures !LeftBehind(b, env)
  {
    NotOpen(b, env);
  }

  // ---- recording, and the steps that make nothing wait ----

  lemma RecordAttends(st: State, id: Id, env: Env)
    requires RefsOk(st) && id in st.recording && id in st.versions && !LeftBehind(st, env)
    ensures !LeftBehind(RecordStep(st, id), env)
  {
    hide LeftBehind, Unattended, Open, RefsOk, Called;
    var b := RecordStep(st, id);
    RecordFrame(st, id);
    CalledFrame(st, b, env);
    if st.versions[id].env == env {
      RecordSameOpen(st, id);
      forall u | Unattended(b, env, u) ensures Unattended(st, env, u) {
        RecordedStays(st, id, u);
      }
      StaysAttended(st, b, env);
    } else {
      RecordElsewhere(st, id, env);
      FleetsFrame(st, b, env);
      SameFor(st, b, env);
    }
  }

  lemma RecordElsewhere(st: State, id: Id, env: Env)
    requires id in st.versions && st.versions[id].env != env
    ensures var b := RecordStep(st, id);
            && SameRows(st, b, env) && Marker(b, env) == Marker(st, env) && b.fleets == st.fleets
            && b.picks == st.picks && b.promoted == st.promoted && b.auto == st.auto
            && forall u :: u != id ==> (u in st.recording <==> u in b.recording)
  {
    hide NewerThan;
  }

  lemma RecordSameOpen(st: State, id: Id)
    requires id in st.versions
    ensures var b, env := RecordStep(st, id), st.versions[id].env;
            Open(b, env) == Open(st, env)
  {
    hide NewerThan, HasFleet, Busy;
    var b := RecordStep(st, id);
    FleetsFrame(st, b, st.versions[id].env);
    RowsFrame(st, b, st.versions[id].env);
  }

  /** What still waits after the record waited before, and was covered by no more than it is. */
  lemma RecordedStays(st: State, id: Id, u: Id)
    requires id in st.recording && id in st.versions
    ensures var b, env := RecordStep(st, id), st.versions[id].env;
            Unattended(b, env, u) ==> Unattended(st, env, u)
  {
    var b, env := RecordStep(st, id), st.versions[id].env;
    if Unattended(b, env, u) {
      var mark := MarkOf(b, u);
      RecordAdvances(st, id, mark);
      forall p | PickCovers(st, env, mark, p) ensures Covered(b, env, mark) {
        assert PickCovers(b, env, mark, p);
      }
      forall r | CallCovers(st, env, mark, r) ensures Covered(b, env, mark) {
        assert r != id;
        assert CallCovers(b, env, mark, r);
      }
      forall r | PromotionCovers(st, env, mark, r) ensures Covered(b, env, mark) {
        assert PromotionCovers(b, env, mark, r);
      }
      CoveredGrows(st, b, env, mark);
    }
  }

  lemma RecordAdvances(st: State, id: Id, mark: Mark)
    requires id in st.versions
    ensures var b, env := RecordStep(st, id), st.versions[id].env;
            NewerThan(mark, Marker(b, env)) ==> NewerThan(mark, MarkOf(st, id)) && NewerThan(mark, Marker(st, env))
  {
  }

  ghost predicate CallsSame(a: State, b: State, env: Env) {
    && b.auto == a.auto && b.marks == a.marks && b.picks == a.picks && b.recording == a.recording
    && b.promoted == a.promoted && b.looks == a.looks && (env in a.kicks ==> env in b.kicks)
    && b.versions.Keys == a.versions.Keys && RowsKept(a, b)
  }

  /** A step that registers nothing again, ends no deploy and adds no fleet leaves nothing behind. */
  lemma NothingMoreWaits(a: State, b: State, env: Env)
    requires !LeftBehind(a, env) && CallsSame(a, b, env) && (Aborting(a, env) ==> Aborting(b, env))
    requires (Busy(a, env) ==> Busy(b, env)) && (HasFleet(b, env) ==> HasFleet(a, env))
    requires forall id :: id in a.versions && a.versions[id].env == env && b.versions[id].state == Registered ==>
               a.versions[id].state == Registered
    ensures !LeftBehind(b, env)
  {
    hide NewerThan, Busy, HasFleet, Called, Aborting;
    forall id | Unattended(b, env, id) ensures Unattended(a, env, id) {
      CallsCover(a, b, env, MarkOf(b, id));
    }
    CalledStays(a, b, env);
    StaysAttended(a, b, env);
  }

  lemma CallsCover(a: State, b: State, env: Env, mark: Mark)
    requires CallsSame(a, b, env)
    ensures Covered(a, env, mark) ==> Covered(b, env, mark)
  {
    hide NewerThan;
    forall p ensures PickCovers(a, env, mark, p) ==> PickCovers(b, env, mark, p) {
    }
    forall id ensures CallCovers(a, env, mark, id) ==> CallCovers(b, env, mark, id) {
    }
    forall id ensures PromotionCovers(a, env, mark, id) ==> PromotionCovers(b, env, mark, id) {
    }
  }

  lemma FlipStore(st: State, id: Id, regions: set<string>, env: Env)
    requires id in st.versions && st.versions[id].state != Prepulling
    ensures var b := Flip(st, id, regions);
            && (Busy(st, env) ==> Busy(b, env)) && (HasFleet(b, env) ==> HasFleet(st, env))
            && forall u :: u in st.versions && b.versions[u].state == Registered ==> st.versions[u].state == Registered
  {
    var b := Flip(st, id, regions);
    if Busy(st, env) {
      var u :| u in st.versions && st.versions[u].env == env && st.versions[u].state == Prepulling;
      assert u in b.versions && b.versions[u].env == env && b.versions[u].state == Prepulling;
    }
    if HasFleet(b, env) {
      var f :| f in b.fleets && f.env == env;
      assert f in st.fleets;
    }
  }

  lemma RollbackAttends(st: State, id: Id, regions: set<string>, env: Env)
    requires CanDo(st, Rollback(id, regions)) && !LeftBehind(st, env)
    ensures !LeftBehind(Flip(st, id, regions), env)
  {
    hide LeftBehind, Busy, HasFleet, StateAfterFlip, Repointed;
    FlipKeepsRows(st, id, regions);
    FlipStore(st, id, regions, env);
    SameArmedGoesOn(st, Flip(st, id, regions));
    AbortingStays(st, Flip(st, id, regions), env);
    NothingMoreWaits(st, Flip(st, id, regions), env);
  }

  lemma DisableStore(st: State, id: Id, env: Env)
    requires id in st.versions && st.versions[id].state != Prepulling
    ensures Busy(st, env) ==> Busy(SetState(st, id, Disabled), env)
  {
    if Busy(st, env) {
      var u :| u in st.versions && st.versions[u].env == env && st.versions[u].state == Prepulling;
      var b := SetState(st, id, Disabled);
      assert u in b.versions && b.versions[u] == st.versions[u];
    }
  }

  lemma DisableAttends(st: State, id: Id, env: Env)
    requires CanDo(st, Disable(id)) && !LeftBehind(st, env)
    ensures !LeftBehind(SetState(st, id, Disabled), env)
  {
    hide LeftBehind, Busy, HasFleet;
    DisableStore(st, id, env);
    SameArmedGoesOn(st, SetState(st, id, Disabled));
    AbortingStays(st, SetState(st, id, Disabled), env);
    FleetsFrame(st, SetState(st, id, Disabled), env);
    NothingMoreWaits(st, SetState(st, id, Disabled), env);
  }

  lemma JobStepAttends(a: State, b: State, env: Env)
    requires !LeftBehind(a, env) && ArmedOnwards(a, b) && forall k :: Aborts(a, env, k) ==> k in b.closing
    requires b == a.(jobs := b.jobs, armed := b.armed, reports := b.reports, closing := b.closing)
    ensures !LeftBehind(b, env)
  {
    hide LeftBehind, Busy, HasFleet, ArmedOnwards, Aborts;
    AbortingStays(a, b, env);
    RowsFrame(a, b, env);
    FleetsFrame(a, b, env);
    NothingMoreWaits(a, b, env);
  }

  lemma FlipElsewhere(st: State, id: Id, regions: set<string>, kicks: multiset<Env>, env: Env)
    requires RefsOk(st) && id in st.versions && st.versions[id].env != env && !LeftBehind(st, env)
    requires env in kicks <==> env in st.kicks
    ensures !LeftBehind(Flip(st, id, regions).(kicks := kicks), env)
  {
    hide LeftBehind, NewerThan, Marker, Called;
    var b := Flip(st, id, regions).(kicks := kicks);
    CalledFrame(st, b, env);
    SameMarker(st, b, env);
    FlipFleets(st, id, regions, kicks, env);
    SameFor(st, b, env);
  }

  lemma FlipFleets(st: State, id: Id, regions: set<string>, kicks: multiset<Env>, env: Env)
    requires id in st.versions
    ensures HasFleet(Flip(st, id, regions).(kicks := kicks), env) <==> HasFleet(st, env)
    ensures st.versions[id].env != env ==> SameRows(st, Flip(st, id, regions).(kicks := kicks), env)
  {
    var b := Flip(st, id, regions).(kicks := kicks);
    if HasFleet(st, env) {
      var f :| f in st.fleets && f.env == env;
      assert f in b.fleets;
    }
    if HasFleet(b, env) {
      var f :| f in b.fleets && f.env == env;
      assert f in st.fleets;
    }
  }

  lemma StateElsewhere(st: State, id: Id, s: VState, kicks: multiset<Env>, env: Env)
    requires RefsOk(st) && id in st.versions && st.versions[id].env != env && !LeftBehind(st, env)
    requires env in kicks <==> env in st.kicks
    ensures !LeftBehind(SetState(st, id, s).(kicks := kicks), env)
  {
    hide LeftBehind, NewerThan, Marker, HasFleet, Called;
    var b := SetState(st, id, s).(kicks := kicks);
    SameMarker(st, b, env);
    FleetsFrame(st, b, env);
    CalledFrame(st, b, env);
    SameFor(st, b, env);
  }

  lemma KicksElsewhere(st: State, kicks: multiset<Env>, env: Env)
    requires !LeftBehind(st, env) && (env in kicks <==> env in st.kicks)
    ensures !LeftBehind(st.(kicks := kicks), env)
  {
    hide Open, Unattended, Called;
    CalledFrame(st, st.(kicks := kicks), env);
    OnlyCalls(st, st.(kicks := kicks), env);
  }

  /** A completion is followed by an attempt, or has written nothing. */
  lemma FinishAttends(st: State, k: nat, ok: bool, env: Env)
    requires RefsOk(st) && k < |st.armed| && st.armed[k].version in st.versions && !LeftBehind(st, env)
    ensures !LeftBehind(FinishJob(st, k, ok), env)
  {
    hide LeftBehind, Flip, SetState, RefsOk, FinishJob;
    FinishCases(st, k, ok);
    var id := st.armed[k].version;
    var left := st.(closing := st.closing - {k});
    var kicks := st.kicks + multiset{st.versions[id].env};
    RefsDoNotClose(st, left);
    if st.versions[id].env == env && FinishJob(st, k, ok) != left {
      KickedIsAttended(FinishJob(st, k, ok), env);
    } else {
      SameArmedGoesOn(st, left);
      JobStepAttends(st, left, env);
    }
    if st.versions[id].env != env {
      FlipElsewhere(left, id, {}, kicks, env);
      StateElsewhere(left, id, Registered, kicks, env);
      KicksElsewhere(left, kicks, env);
    }
  }

  // ---- exactly these steps ----

  /** From a state in which no build is left behind, a step leaves one behind if and only if it misses it. */
  lemma StepLeavesBehindIff(st: State, step: Step, env: Env)
    requires Inv(st) && CanDo(st, step) && !LeftBehind(st, env)
    ensures LeftBehind(Do(st, step), env) <==> Misses(st, step, env)
  {
    hide JobsOk, OneEach, RefsOk, LooksOk, LeftBehind, Open, Called, Unattended, Covered, AttemptStep, ChooseStep,
      BeginStep, DeployStep, RecordStep, HandleReport, Arm, Remove, Flip, FinishJob, UpsertFleet, NewVersion,
      PromoteStep, SwitchMode, SetState, NewerThan;
    match step
    case Register(id, e, image, created) => RegisterAttends(st, id, Version(e, image, created, Registered), env);
    case Promote(id, e, image, created) => PromoteAttends(st, id, Version(e, image, created, Registered), env);
    case PutFleet(f, pin) => PutFleetAttends(st, f, pin, env);
    case Switch(e, on) => SwitchIff(st, e, on, env);
    case Attempt(e, ok) => AttemptIff(st, e, ok, env);
    case Choose(k, ok) => ChooseIff(st, k, ok, env);
    case Begin(p, ok) => BeginIff(st, p, ok, env);
    case Deploy(id, promotion, ok) => DeployIff(st, id, promotion, ok, env);
    case Record(id) => RecordAttends(st, id, env);
    case StartJob(id, targets) =>
      ArmKeepsStore(st, id, targets);
      StepGoesOn(st, step);
      JobStepAttends(st, Do(st, step), env);
    case PullReport(r, credit) =>
      ReportKeepsStore(st, r, credit);
      StepGoesOn(st, step);
      JobStepAttends(st, Do(st, step), env);
    case Expire(id) =>
      RemoveKeepsStore(st, id);
      StepGoesOn(st, step);
      JobStepAttends(st, Do(st, step), env);
    case Finish(k, ok) =>
      FinishKeepsJobs(st, k, ok);
      FinishAttends(st, k, ok, env);
    case Rollback(id, regions) => RollbackAttends(st, id, regions, env);
    case Disable(id) => DisableAttends(st, id, env);
  }

  // ---- over whole runs ----

  ghost predicate RunMisses(states: seq<State>, steps: seq<Step>, k: nat, env: Env) {
    && k < |steps| && k + 1 < |states|
    && IsStep(states[k], steps[k], states[k + 1]) && Misses(states[k], steps[k], env)
    && !LeftBehind(states[k], env)
  }

  /** Left behind from the step that missed it until now. */
  ghost predicate LeftSince(states: seq<State>, steps: seq<Step>, k: nat, i: nat, env: Env) {
    && RunMisses(states, steps, k, env) && k < i < |states|
    && forall j :: k < j <= i ==> LeftBehind(states[j], env)
  }

  /**
   * In every run: when a registered build newer than the marker waits, in an
   * automatic environment with a fleet, with nothing in flight and no call under
   * way that would take it up, it has waited so ever since an attempt failed, the
   * deploy of a promotion failed or was refused, or the mode was switched on.
   */
  lemma {:induction false} LeftBehindHasCause(states: seq<State>, steps: seq<Step>, i: nat, env: Env)
    requires IsRun(states, steps) && i <= |steps| && LeftBehind(states[i], env)
    ensures exists k :: LeftSince(states, steps, k, i, env)
  {
    hide Inv, CanDo, Do, LeftBehind;
    if i == 0 {
      NoneAtFirst(states[0], env);
    } else {
      assert IsStep(states[i - 1], steps[i - 1], states[i]);
      if LeftBehind(states[i - 1], env) {
        LeftBehindHasCause(states, steps, i - 1, env);
        var k :| LeftSince(states, steps, k, i - 1, env);
        assert LeftSince(states, steps, k, i, env);
      } else {
        RunKeeps(states, steps, i - 1);
        StepLeavesBehindIff(states[i - 1], steps[i - 1], env);
        assert LeftSince(states, steps, i - 1, i, env);
      }
    }
  }

  lemma NoneAtFirst(st: State, env: Env)
    requires exists auto :: st == Init(auto)
    ensures !LeftBehind(st, env)
  {
  }

  /** A run leaves no build behind if and only if it takes none of these steps. */
  lemma NothingIsLeftBehindIff(states: seq<State>, steps: seq<Step>, env: Env)
    requires IsRun(states, steps)
    ensures (forall i :: 0 <= i <= |steps| ==> !LeftBehind(states[i], env)) <==>
            (forall k :: 0 <= k < |steps| ==> !RunMisses(states, steps, k, env))
  {
    hide LeftBehind, Inv, CanDo, Do, Misses;
    if k: nat :| k < |steps| && RunMisses(states, steps, k, env) {
      RunKeeps(states, steps, k);
      StepLeavesBehindIff(states[k], steps[k], env);
    } else {
      forall i | 0 <= i <= |steps| ensures !LeftBehind(states[i], env) {
        if LeftBehind(states[i], env) {
          LeftBehindHasCause(states, steps, i, env);
        }
      }
    }
  }
}

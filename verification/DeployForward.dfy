/**
 * The forward-only promise: an automatic start is newer than everything put in
 * flight before it in its environment, so a build that failed is not retried.
 * Between reading the marker and beginning, and between beginning and
 * recording, other calls can come; the promise holds exactly as far as what an
 * attempt could see.
 */
module DeployForward {
  import opened Wrappers
  import opened DeploySteps
  import opened DeployGuarantees

  // ---- the promise and what breaks it ----

  /** Every automatic start is newer than everything put in flight before it in its environment. */
  ghost predicate Forward(starts: seq<Start>) {
    forall i, j :: 0 <= i < j < |starts| && starts[j].seen.Some? && starts[i].env == starts[j].env ==>
      NewerThan(starts[j].mark, starts[i].mark)
  }

  /** When the attempt read the marker the start had not begun, or had begun and was not recorded. */
  predicate Unseen(starts: seq<Start>, seen: Seen, i: nat)
    requires i < |starts|
  {
    i >= seen.begun || starts[i].id in seen.recording
  }

  /** The pick is not newer than some start of its environment, which the attempt could not see. */
  ghost predicate Overtaken(st: State, p: Pick)
    requires p.id in st.versions
  {
    exists i :: 0 <= i < |st.starts| && Unseen(st.starts, p.seen, i)
      && st.starts[i].env == p.env && !NewerThan(MarkOf(st, p.id), st.starts[i].mark)
  }

  /** BeginDeploy puts an overtaken pick in flight. */
  ghost predicate Overtakes(st: State, step: Step)
    requires CanDo(st, step)
  {
    match step
    case Begin(p, ok) => ok && BeginResult(st, p.id) == Began && Overtaken(st, p)
    case _ => false
  }

  // ---- what the marker covers ----

  /** The marker that was read covered every start of the environment but those being recorded. */
  ghost predicate ReadOk(starts: seq<Start>, seen: Seen, env: Env) {
    && seen.begun <= |starts|
    && forall i :: 0 <= i < seen.begun && starts[i].env == env && NewerThan(starts[i].mark, seen.marker) ==>
         starts[i].id in seen.recording
  }

  /** The version is newer than such a marker. */
  ghost predicate SeenOk(starts: seq<Start>, seen: Seen, env: Env, mark: Mark) {
    NewerThan(mark, seen.marker) && ReadOk(starts, seen, env)
  }

  /** A start ahead of the marker is one whose call has not recorded it yet. */
  ghost predicate MarkersOk(st: State) {
    forall s :: s in st.starts && NewerThan(s.mark, Marker(st, s.env)) ==> s.id in st.recording
  }

  ghost predicate ReadsOk(st: State) {
    forall k :: k in st.looks ==> ReadOk(st.starts, k.seen, k.env)
  }

  ghost predicate PicksOk(st: State) {
    forall p :: p in st.picks && p.id in st.versions ==> SeenOk(st.starts, p.seen, p.env, MarkOf(st, p.id))
  }

  ghost predicate StartsOk(starts: seq<Start>) {
    forall j :: 0 <= j < |starts| && starts[j].seen.Some? ==>
      starts[j].seen.value.begun <= j && SeenOk(starts, starts[j].seen.value, starts[j].env, starts[j].mark)
  }

  ghost predicate MarksOk(st: State) {
    MarkersOk(st) && ReadsOk(st) && PicksOk(st) && StartsOk(st.starts)
  }

  lemma ReadStays(starts: seq<Start>, s: Start, seen: Seen, env: Env)
    requires ReadOk(starts, seen, env)
    ensures ReadOk(starts + [s], seen, env)
  {
    assert forall i :: 0 <= i < seen.begun ==> (starts + [s])[i] == starts[i];
  }

  lemma AnotherStart(starts: seq<Start>, s: Start)
    requires StartsOk(starts) && (s.seen.Some? ==> SeenOk(starts, s.seen.value, s.env, s.mark))
    ensures StartsOk(starts + [s])
  {
    var more := starts + [s];
    forall j | 0 <= j < |more| && more[j].seen.Some?
      ensures more[j].seen.value.begun <= j && SeenOk(more, more[j].seen.value, more[j].env, more[j].mark)
    {
      assert j < |starts| ==> more[j] == starts[j];
      ReadStays(starts, s, more[j].seen.value, more[j].env);
    }
  }

  lemma BeginKeepsMarks(st: State, id: Id, seen: Option<Seen>)
    requires MarksOk(st) && id in st.versions
    requires seen.Some? ==> SeenOk(st.starts, seen.value, st.versions[id].env, MarkOf(st, id))
    ensures MarksOk(BeginCall(st, id, seen))
  {
    hide BeginDeploy, NewerThan, ReadOk, StartsOk;
    var b := BeginCall(st, id, seen);
    BeginTouches(st, id, seen);
    if b.starts != st.starts {
      var s := Start(id, st.versions[id].env, MarkOf(st, id), seen);
      AnotherStart(st.starts, s);
      forall p | p in b.picks && p.id in b.versions ensures SeenOk(b.starts, p.seen, p.env, MarkOf(b, p.id)) {
        ReadStays(st.starts, s, p.seen, p.env);
      }
      forall k | k in b.looks ensures ReadOk(b.starts, k.seen, k.env) {
        ReadStays(st.starts, s, k.seen, k.env);
      }
    }
  }

  lemma BeginStepKeepsMarks(st: State, p: Pick, ok: bool)
    requires MarksOk(st) && RefsOk(st) && p in st.picks && p.id in st.versions
    ensures MarksOk(BeginStep(st, p, ok))
  {
    hide BeginCall, NewerThan, SeenOk, StartsOk;
    var left := st.(picks := st.picks - multiset{p});
    assert SeenOk(st.starts, p.seen, p.env, MarkOf(st, p.id));
    assert MarksOk(left);
    BeginKeepsMarks(left, p.id, Some(p.seen));
  }

  lemma DeployStepKeepsMarks(st: State, id: Id, promotion: bool, ok: bool)
    requires MarksOk(st) && id in st.versions
    ensures MarksOk(DeployStep(st, id, promotion, ok))
  {
    hide BeginCall, NewerThan, SeenOk, StartsOk;
    var left := TakeUp(st, id, promotion);
    assert MarksOk(left);
    BeginKeepsMarks(left, id, None);
  }

  /** What an attempt reads covers every start but those being recorded. */
  lemma AttemptKeepsMarks(st: State, env: Env, ok: bool)
    requires MarksOk(st)
    ensures MarksOk(AttemptStep(st, env, ok))
  {
    hide NewerThan, StartsOk;
    assert ReadOk(st.starts, SeenNow(st, env), env);
    hide ReadOk;
  }

  lemma ChooseKeepsMarks(st: State, k: Look, ok: bool)
    requires MarksOk(st) && k in st.looks
    ensures MarksOk(ChooseStep(st, k, ok))
  {
    hide NewerThan, StartsOk, ReadOk;
    if HasNewer(st, k.env, k.seen.marker) {
      NewestIsNewer(st, k.env, k.seen.marker);
    }
  }

  /** Recording the attempt covers its start; what is newer still has another call to record it. */
  lemma RecordKeepsMarks(st: State, id: Id)
    requires MarksOk(st) && RefsOk(st) && id in st.versions
    ensures MarksOk(RecordStep(st, id))
  {
    hide SeenOk, ReadOk, StartsOk;
    var b := RecordStep(st, id);
    forall s | s in b.starts && NewerThan(s.mark, Marker(b, s.env)) ensures s.id in b.recording {
      assert StartOk(st.versions, s);
      assert s.id != id;
    }
  }

  /** Steps that neither read, pick, begin nor record. */
  lemma MarksFrame(a: State, b: State)
    requires MarksOk(a) && RefsOk(a) && RowsKept(a, b)
    requires b.starts == a.starts && b.marks == a.marks && b.recording == a.recording
    requires b.looks == a.looks && b.picks == a.picks
    ensures MarksOk(b)
  {
    hide SeenOk, ReadOk, StartsOk, NewerThan;
    forall p | p in b.picks && p.id in b.versions ensures SeenOk(b.starts, p.seen, p.env, MarkOf(b, p.id)) {
      assert p in a.picks && p.id in a.versions;
    }
  }

  /** Row and call bookkeeping of the other steps. */
  lemma OtherStepsFrame(st: State, step: Step)
    requires JobsOk(st) && CanDo(st, step)
    requires !step.Attempt? && !step.Choose? && !step.Begin? && !step.Deploy? && !step.Record?
    ensures var b := Do(st, step);
            && b.starts == st.starts && b.marks == st.marks && b.recording == st.recording
            && b.looks == st.looks && b.picks == st.picks && RowsKept(st, b)
  {
    hide HandleReport, Arm, Remove, JobsOk, Candidate, Flip, FinishJob;
    match step
    case PullReport(r, credit) => ReportKeepsStore(st, r, credit);
    case StartJob(id, targets) => ArmKeepsStore(st, id, targets);
    case Expire(id) => RemoveKeepsStore(st, id);
    case Rollback(id, regions) => FlipFrame(st, id, regions);
    case Finish(k, ok) =>
      FinishKeepsJobs(st, k, ok);
      FinishFrame(st, k, ok);
      FinishKeepsRows(st, k, ok);
    case _ =>
  }

  lemma FlipFrame(st: State, id: Id, regions: set<string>)
    requires id in st.versions
    ensures var b := Flip(st, id, regions);
            b == st.(versions := b.versions, fleets := b.fleets) && RowsKept(st, b)
  {
    hide StateAfterFlip, Repointed;
  }

  lemma FinishKeepsRows(st: State, k: nat, ok: bool)
    requires k < |st.armed| && st.armed[k].version in st.versions
    ensures RowsKept(st, FinishJob(st, k, ok))
  {
    hide Flip;
    FlipKeepsRows(st.(closing := st.closing - {k}), st.armed[k].version, {});
  }

  lemma StepKeepsMarks(st: State, step: Step)
    requires Inv(st) && MarksOk(st) && CanDo(st, step)
    ensures MarksOk(Do(st, step))
  {
    hide JobsOk, OneEach, LooksOk, MarksOk, AttemptStep, ChooseStep, BeginStep, DeployStep, RecordStep, HandleReport,
      Arm, Remove, Flip, FinishJob;
    match step
    case Attempt(env, ok) => AttemptKeepsMarks(st, env, ok);
    case Choose(k, ok) => ChooseKeepsMarks(st, k, ok);
    case Begin(p, ok) => BeginStepKeepsMarks(st, p, ok);
    case Deploy(id, promotion, ok) => DeployStepKeepsMarks(st, id, promotion, ok);
    case Record(id) => RecordKeepsMarks(st, id);
    case _ =>
      OtherStepsFrame(st, step);
      MarksFrame(st, Do(st, step));
  }

  lemma {:induction false} RunKeepsMarks(states: seq<State>, steps: seq<Step>, i: nat)
    requires IsRun(states, steps) && i <= |steps|
    ensures Inv(states[i]) && MarksOk(states[i])
  {
    hide Inv, MarksOk, CanDo, Do;
    RunKeeps(states, steps, i);
    if i > 0 {
      RunKeepsMarks(states, steps, i - 1);
      assert IsStep(states[i - 1], steps[i - 1], states[i]);
      StepKeepsMarks(states[i - 1], steps[i - 1]);
    } else {
      InitMarksOk(states[0]);
    }
  }

  lemma InitMarksOk(st: State)
    requires exists auto :: st == Init(auto)
    ensures MarksOk(st)
  {
  }

  // ---- forward, as far as an attempt could see ----

  lemma SeenIsOlder(starts: seq<Start>, seen: Seen, env: Env, mark: Mark, i: nat)
    requires SeenOk(starts, seen, env, mark) && i < |starts| && starts[i].env == env
    requires !Unseen(starts, seen, i)
    ensures NewerThan(mark, starts[i].mark)
  {
  }

  /**
   * In every run: an automatic start fails to be newer than an earlier start of
   * its environment, by going back or by retrying the same build, only if that
   * one had not begun, or was not recorded yet, when the attempt read the marker.
   */
  lemma AutoStartsGoForward(states: seq<State>, steps: seq<Step>, n: nat, i: nat, j: nat)
    requires IsRun(states, steps) && n <= |steps|
    requires i < j < |states[n].starts| && states[n].starts[j].seen.Some?
    requires states[n].starts[i].env == states[n].starts[j].env
    ensures var starts, versions := states[n].starts, states[n].versions;
            && starts[i].id in versions && starts[j].id in versions
            && (|| Unseen(starts, starts[j].seen.value, i)
                || versions[starts[i].id].created < versions[starts[j].id].created
                || (versions[starts[i].id].created == versions[starts[j].id].created && starts[i].id < starts[j].id))
  {
    hide JobsOk, OneEach, SeenOk, CanDo, Do;
    RunKeepsMarks(states, steps, n);
    var starts := states[n].starts;
    assert starts[i] in starts && starts[j] in starts;
    if !Unseen(starts, starts[j].seen.value, i) {
      SeenIsOlder(starts, starts[j].seen.value, starts[j].env, starts[j].mark, i);
    }
  }

  lemma OneMoreIsForward(starts: seq<Start>, s: Start)
    requires Forward(starts)
    ensures Forward(starts + [s]) <==>
            (s.seen.Some? ==> forall i :: 0 <= i < |starts| && starts[i].env == s.env ==>
                NewerThan(s.mark, starts[i].mark))
  {
    hide NewerThan;
    var more := starts + [s];
    assert forall i :: 0 <= i < |starts| ==> more[i] == starts[i];
    if Forward(more) && s.seen.Some? {
      forall i | 0 <= i < |starts| && starts[i].env == s.env ensures NewerThan(s.mark, starts[i].mark) {
        assert more[i] == starts[i] && more[|starts|] == s;
      }
    }
  }

  lemma BeginIsForwardIff(st: State, p: Pick, ok: bool)
    requires Inv(st) && MarksOk(st) && CanDo(st, Begin(p, ok)) && Forward(st.starts)
    ensures Forward(BeginStep(st, p, ok).starts) <==> !Overtakes(st, Begin(p, ok))
  {
    hide JobsOk, OneEach, Forward, SeenOk, StartsOk, NewerThan, BeginDeploy, BeginResult;
    var left := st.(picks := st.picks - multiset{p});
    BeginTouches(left, p.id, Some(p.seen));
    SameBegin(st, left, p.id);
    var s := Start(p.id, p.env, MarkOf(st, p.id), Some(p.seen));
    OneMoreIsForward(st.starts, s);
    assert SeenOk(st.starts, p.seen, p.env, MarkOf(st, p.id));
    forall i | 0 <= i < |st.starts| && st.starts[i].env == p.env && !Unseen(st.starts, p.seen, i)
      ensures NewerThan(MarkOf(st, p.id), st.starts[i].mark)
    {
      SeenIsOlder(st.starts, p.seen, p.env, MarkOf(st, p.id), i);
    }
  }

  lemma SameBegin(a: State, b: State, id: Id)
    requires id in a.versions && b.versions == a.versions && b.fleets == a.fleets
    ensures BeginResult(b, id) == BeginResult(a, id)
  {
  }

  lemma DeployIsForward(st: State, id: Id, promotion: bool, ok: bool)
    requires id in st.versions && Forward(st.starts)
    ensures Forward(DeployStep(st, id, promotion, ok).starts)
  {
    hide Forward, BeginDeploy, BeginResult;
    BeginTouches(TakeUp(st, id, promotion), id, None);
    OneMoreIsForward(st.starts, Start(id, st.versions[id].env, MarkOf(st, id), None));
  }

  lemma StepIsForwardIff(st: State, step: Step)
    requires Inv(st) && MarksOk(st) && CanDo(st, step) && Forward(st.starts)
    ensures Forward(Do(st, step).starts) <==> !Overtakes(st, step)
  {
    hide JobsOk, OneEach, RefsOk, LooksOk, MarksOk, Forward, AttemptStep, ChooseStep, BeginStep, DeployStep,
      HandleReport, Arm, Remove, Flip, FinishJob, RecordStep, Overtaken;
    match step
    case Attempt(env, ok) => AttemptFrame(st, env, ok);
    case Choose(k, ok) => ChooseFrame(st, k, ok);
    case Begin(p, ok) => BeginIsForwardIff(st, p, ok);
    case Deploy(id, promotion, ok) => DeployIsForward(st, id, promotion, ok);
    case Record(id) => RecordFrame(st, id);
    case _ => OtherStepsFrame(st, step);
  }

  lemma {:induction false} NeverOvertakenIsForward(states: seq<State>, steps: seq<Step>, i: nat)
    requires IsRun(states, steps) && i <= |steps|
    requires forall j :: 0 <= j < |steps| ==>
               IsStep(states[j], steps[j], states[j + 1]) && !Overtakes(states[j], steps[j])
    ensures Forward(states[i].starts)
  {
    hide Inv, MarksOk, CanDo, Do, Overtakes;
    if i > 0 {
      NeverOvertakenIsForward(states, steps, i - 1);
      RunKeepsMarks(states, steps, i - 1);
      assert IsStep(states[i - 1], steps[i - 1], states[i]);
      StepIsForwardIff(states[i - 1], steps[i - 1]);
    }
  }

  ghost predicate RunOvertakes(states: seq<State>, steps: seq<Step>, i: nat) {
    && i < |steps| && i + 1 < |states|
    && IsStep(states[i], steps[i], states[i + 1]) && Overtakes(states[i], steps[i])
  }

  /**
   * In every run: every automatic start is newer than everything put in flight
   * before it in its environment, if and only if no attempt begins a pick that
   * is not newer than some start the attempt could not see.
   */
  lemma ForwardThroughoutIff(states: seq<State>, steps: seq<Step>)
    requires IsRun(states, steps)
    ensures (forall i :: 0 <= i <= |steps| ==> Forward(states[i].starts)) <==>
            (forall i :: 0 <= i < |steps| ==> !RunOvertakes(states, steps, i))
  {
    hide Inv, MarksOk, CanDo, Do, Overtakes, Forward;
    if forall i :: 0 <= i <= |steps| ==> Forward(states[i].starts) {
      forall i | 0 <= i < |steps| ensures !RunOvertakes(states, steps, i) {
        RunKeepsMarks(states, steps, i);
        assert IsStep(states[i], steps[i], states[i + 1]);
        assert Forward(states[i].starts) && Forward(states[i + 1].starts);
        StepIsForwardIff(states[i], steps[i]);
      }
    }
    if forall i :: 0 <= i < |steps| ==> !RunOvertakes(states, steps, i) {
      forall i | 0 <= i < |steps|
        ensures IsStep(states[i], steps[i], states[i + 1]) && !Overtakes(states[i], steps[i])
      {
        assert !RunOvertakes(states, steps, i);
      }
      forall i | 0 <= i <= |steps| ensures Forward(states[i].starts) {
        NeverOvertakenIsForward(states, steps, i);
      }
    }
  }

  /** No call is interrupted: a pick begins when nothing has begun since and nothing was being recorded. */
  ghost predicate Uninterrupted(states: seq<State>, steps: seq<Step>)
    requires IsRun(states, steps)
  {
    forall i :: 0 <= i < |steps| && steps[i].Begin? ==>
      steps[i].pick.seen.begun == |states[i].starts| && steps[i].pick.seen.recording == {}
  }

  lemma UninterruptedGoesForward(states: seq<State>, steps: seq<Step>, i: nat)
    requires IsRun(states, steps) && Uninterrupted(states, steps) && i <= |steps|
    ensures Forward(states[i].starts)
  {
    hide CanDo, Do, Forward;
    forall k | 0 <= k < |steps| ensures !RunOvertakes(states, steps, k) {
      if steps[k].Begin? && RunOvertakes(states, steps, k) {
        NothingUnseen(states[k], steps[k]);
      }
    }
    ForwardThroughoutIff(states, steps);
  }

  lemma NothingUnseen(st: State, step: Step)
    requires CanDo(st, step) && step.Begin?
    requires step.pick.seen.begun == |st.starts| && step.pick.seen.recording == {}
    ensures !Overtakes(st, step)
  {
  }

  // ---- when a start is recorded ----

  /** In every run a start the marker does not cover is one whose call stands between BeginDeploy and recordAttempt. */
  lemma UncoveredIsUnrecorded(states: seq<State>, steps: seq<Step>, i: nat, s: Start)
    requires IsRun(states, steps) && i <= |steps| && s in states[i].starts
    ensures NewerThan(s.mark, Marker(states[i], s.env)) ==> s.id in states[i].recording
  {
    hide JobsOk, OneEach, CanDo, Do;
    RunKeepsMarks(states, steps, i);
  }
  /** The newest registered version of its environment. */
  ghost predicate IsNewestBuild(st: State, id: Id) {
    && id in st.versions && st.versions[id].state == Registered
    && forall u :: u in st.versions && u != id && RegisteredAfter(st, st.versions[id].env, ZERO, u) ==>
         NewerThan(MarkOf(st, id), MarkOf(st, u))
  }

  /**
   * In every run: a build that was started and is registered again, with nothing newer, is picked again by
   * an attempt if and only if the marker the attempt read does not cover its start; and then the attempt
   * could not see that start.
   */
  lemma PickedAgainIff(states: seq<State>, steps: seq<Step>, n: nat, k: Look, i: nat)
    requires IsRun(states, steps) && n <= |steps| && k in states[n].looks && i < |states[n].starts|
    requires states[n].starts[i].env == k.env && IsNewestBuild(states[n], states[n].starts[i].id)
    ensures var st, s := states[n], states[n].starts[i];
            && (ChooseStep(st, k, true).picks == st.picks + multiset{Pick(k.env, s.id, k.seen)} <==>
                  NewerThan(s.mark, k.seen.marker))
            && (NewerThan(s.mark, k.seen.marker) ==> Unseen(st.starts, k.seen, i))
  {
    hide JobsOk, OneEach, CanDo, Do, ChooseStep, IsNewestBuild, NewerThan;
    RunKeepsMarks(states, steps, n);
    var st, s := states[n], states[n].starts[i];
    assert s in st.starts && StartOk(st.versions, s);
    ChoosesNewestIff(st, k, s.id);
    assert ReadOk(st.starts, k.seen, k.env);
  }

  lemma ChoosesNewestIff(st: State, k: Look, id: Id)
    requires IsNewestBuild(st, id) && st.versions[id].env == k.env
    ensures ChooseStep(st, k, true).picks == st.picks + multiset{Pick(k.env, id, k.seen)} <==>
            NewerThan(MarkOf(st, id), k.seen.marker)
  {
    var picks, p := ChooseStep(st, k, true).picks, Pick(k.env, id, k.seen);
    if NewerThan(MarkOf(st, id), k.seen.marker) {
      NewestExists(st, k.env, k.seen.marker, id);
      assert picks == st.picks + multiset{PickOf(st, k)} && PickOf(st, k) == p;
    } else {
      if u: Id :| RegisteredAfter(st, k.env, k.seen.marker, u) {
        assert RegisteredAfter(st, k.env, ZERO, u);
        assert false;
      }
      assert picks == st.picks;
      assert (st.picks + multiset{p})[p] == st.picks[p] + 1;
    }
  }
}

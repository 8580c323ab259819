/**
 * Jobs that outlive their deploy. A version is armed again while a completion
 * of it waits to be written, the completion is written, and the job of the
 * second fan-out is left over. When that happens, what such a job can still do
 * to the store, and whom it can take pull reports from.
 */
module DeployLeftovers {
  import opened Wrappers
  import opened DeploySteps
  import opened DeployGuarantees

  /** The version has a job although it is not prepulling. */
  predicate LeftOver(st: State, v: Id) {
    v in st.jobs && v in st.versions && st.versions[v].state != Prepulling
  }

  // ---- how a job is left over ----

  /** What takes a version out of prepulling: a completion of one of its fan-outs that is written. */
  predicate Completes(st: State, step: Step, v: Id)
    requires JobsOk(st)
  {
    && step.Finish? && step.serial in st.closing && step.ok
    && v in st.versions && st.armed[step.serial].version == v && st.versions[v].state == Prepulling
  }

  lemma FlipState(st: State, id: Id, regions: set<string>, v: Id)
    requires id in st.versions && v in st.versions
    ensures v in Flip(st, id, regions).versions
    ensures var s := Flip(st, id, regions).versions[v].state;
            (s == Prepulling <==> v != id && st.versions[v].state == Prepulling) && (v == id ==> s == Active)
  {
  }

  lemma FinishState(st: State, k: nat, ok: bool, v: Id)
    requires JobsOk(st) && CanDo(st, Finish(k, ok)) && v in st.versions
    ensures var b := Do(st, Finish(k, ok));
            && v in b.versions && b.jobs == st.jobs
            && (b.versions[v].state == Prepulling <==>
                  st.versions[v].state == Prepulling && !Completes(st, Finish(k, ok), v))
  {
    hide Flip;
    assert ArmedOk(st, k);
    FinishFrame(st, k, ok);
    FlipState(st.(closing := st.closing - {k}), st.armed[k].version, {}, v);
  }

  lemma BeginState(st: State, id: Id, seen: Option<Seen>, v: Id)
    requires id in st.versions && v in st.versions
    ensures var b := BeginCall(st, id, seen);
            && v in b.versions
            && (b.versions[v].state == Prepulling <==>
                  st.versions[v].state == Prepulling || (v == id && BeginResult(st, id) == Began))
  {
    hide Busy, HasFleet;
  }

  /** A step other than a completion takes no version out of prepulling. */
  lemma PrepullingStays(st: State, step: Step, v: Id)
    requires JobsOk(st) && CanDo(st, step) && v in st.versions && !step.Finish?
    ensures v in Do(st, step).versions
    ensures st.versions[v].state == Prepulling ==> Do(st, step).versions[v].state == Prepulling
  {
    hide AttemptStep, ChooseStep, BeginCall, HandleReport, Arm, Remove, Flip, RecordAttempt, JobsOk, Candidate;
    match step
    case Attempt(env, ok) => AttemptFrame(st, env, ok);
    case Choose(k, ok) => ChooseFrame(st, k, ok);
    case Begin(p, _) => BeginState(st.(picks := st.picks - multiset{p}), p.id, Some(p.seen), v);
    case Deploy(id, promotion, _) => BeginState(TakeUp(st, id, promotion), id, None, v);
    case Record(id) => RecordFrame(st, id);
    case StartJob(id, targets) => ArmKeepsStore(st, id, targets);
    case PullReport(r, credit) => ReportKeepsStore(st, r, credit);
    case Expire(id) => RemoveKeepsStore(st, id);
    case Rollback(id, regions) => FlipState(st, id, regions, v);
    case _ =>
  }

  /** Reports and timeouts only take jobs away. */
  lemma JobsShrink(st: State, step: Step, v: Id)
    requires JobsOk(st) && CanDo(st, step) && (step.PullReport? || step.Expire?)
    ensures v in Do(st, step).jobs ==> v in st.jobs
  {
    match step
    case PullReport(r, credit) =>
      if credit.Some? {
        assert JobOk(st, credit.value);
      }
    case Expire(id) => assert JobOk(st, id);
    case _ =>
  }

  lemma ArmState(st: State, id: Id, targets: set<NodeId>, v: Id)
    requires JobsOk(st) && CanDo(st, StartJob(id, targets))
    ensures var b := Do(st, StartJob(id, targets));
            b.versions == st.versions && (v in b.jobs <==> v in st.jobs || (v == id && targets != {}))
  {
    if id in st.jobs {
      assert JobOk(st, id);
    }
  }

  /** A step other than arming does not give a version a job. */
  lemma JobsStay(st: State, step: Step, v: Id)
    requires JobsOk(st) && CanDo(st, step) && !step.StartJob?
    ensures v in Do(st, step).jobs ==> v in st.jobs
  {
    hide JobsOk, HandleReport, Remove, Arm, FinishJob, Flip, AttemptStep, ChooseStep, BeginStep, DeployStep, RecordStep;
    if step.PullReport? || step.Expire? {
      JobsShrink(st, step, v);
    } else {
      ArmedFrame(st, step);
    }
  }

  /**
   * A job is left over exactly by arming a version that is not prepulling, or by
   * writing the completion of an earlier fan-out of a version armed again.
   */
  lemma StepLeavesOverIff(st: State, step: Step, v: Id)
    requires Inv(st) && CanDo(st, step) && v in st.versions && !LeftOver(st, v)
    ensures LeftOver(Do(st, step), v) <==>
              || (step.StartJob? && step.version == v && step.targets != {} && st.versions[v].state != Prepulling)
              || (Completes(st, step, v) && v in st.jobs)
  {
    hide OneEach, RefsOk, LooksOk, JobsOk, Flip, FinishJob, HandleReport, Arm, Remove, AttemptStep, ChooseStep,
      BeginStep, DeployStep, RecordStep;
    if step.StartJob? {
      ArmState(st, step.version, step.targets, v);
    } else if step.Finish? {
      FinishState(st, step.serial, step.ok, v);
    } else {
      PrepullingStays(st, step, v);
      JobsStay(st, step, v);
    }
  }

  /**
   * A sweep finds the version prepulling without a job and arms it again. Exactly
   * when a finished fan-out of it still waits to be written, the write then makes
   * the version active with the new job left over.
   */
  lemma RearmOfFinishedIff(st: State, v: Id, targets: set<NodeId>, k: nat)
    requires JobsOk(st) && v in st.versions && st.versions[v].state != Active && targets != {} && k in st.closing
    ensures (v in st.jobs ==> st.jobs[v].serial < |st.armed|) && JobsOk(Arm(st, v, targets))
    ensures k < |st.armed| && CanDo(Arm(st, v, targets), Finish(k, true))
    ensures var b := Do(Arm(st, v, targets), Finish(k, true));
            v in b.versions && b.versions[v].state == Active && v in b.jobs <==>
            st.versions[v].state == Prepulling && st.armed[k].version == v && st.armed[k].outcome == Some(Activate)
  {
    hide Flip;
    ArmKeepsJobs(st, v, targets);
    assert ArmedOk(st, k);
    var a := Arm(st, v, targets);
    if v in st.jobs {
      assert JobOk(st, v);
    }
    assert a.armed[k] == st.armed[k];
    FinishFrame(a, k, true);
    FlipActivates(a.(closing := a.closing - {k}), st.armed[k].version, {}, v);
    FlipState(a.(closing := a.closing - {k}), st.armed[k].version, {}, v);
  }

  // ---- what a left-over job can do to the store ----

  /** A completion changes the store exactly when its write succeeds and its version is prepulling. */
  lemma CompletionWritesIff(st: State, k: nat, ok: bool)
    requires k < |st.armed| && st.armed[k].version in st.versions
    ensures var b := FinishJob(st, k, ok);
            b.versions != st.versions || b.fleets != st.fleets <==>
            ok && st.versions[st.armed[k].version].state == Prepulling
  {
    var v := st.armed[k].version;
    var b := FinishJob(st, k, ok);
    if ok && st.versions[v].state == Prepulling {
      assert b.versions[v].state != Prepulling;
    }
  }

  /** The step puts version v in flight. */
  predicate BeginsNow(st: State, step: Step, v: Id) {
    || (step.Begin? && step.ok && step.pick.id == v && v in st.versions && BeginResult(st, v) == Began)
    || (step.Deploy? && step.ok && step.manual == v && v in st.versions && BeginResult(st, v) == Began)
  }

  lemma SameBegin(a: State, b: State, id: Id)
    requires id in a.versions && b.versions == a.versions && b.fleets == a.fleets
    ensures BeginResult(b, id) == BeginResult(a, id)
  {
  }

  lemma CallPrepullsIff(st: State, left: State, id: Id, seen: Option<Seen>, v: Id)
    requires id in st.versions && v in st.versions && st.versions[v].state != Prepulling
    requires left.versions == st.versions && left.fleets == st.fleets
    ensures var b := BeginCall(left, id, seen);
            && v in b.versions
            && (b.versions[v].state == Prepulling <==> v == id && BeginResult(st, id) == Began)
  {
    hide BeginCall, BeginResult;
    SameBegin(st, left, id);
    BeginState(left, id, seen, v);
  }

  /** Only a successful BeginDeploy makes a version prepulling. */
  lemma StepPrepullsIff(st: State, step: Step, v: Id)
    requires JobsOk(st) && CanDo(st, step) && v in st.versions && st.versions[v].state != Prepulling
    ensures v in Do(st, step).versions
    ensures Do(st, step).versions[v].state == Prepulling <==> BeginsNow(st, step, v)
  {
    hide AttemptStep, ChooseStep, BeginCall, BeginResult, HandleReport, Arm, Remove, Flip, FinishJob, RecordAttempt,
      JobsOk, Candidate;
    match step
    case Attempt(env, ok) => AttemptFrame(st, env, ok);
    case Choose(k, ok) => ChooseFrame(st, k, ok);
    case Begin(p, _) => CallPrepullsIff(st, st.(picks := st.picks - multiset{p}), p.id, Some(p.seen), v);
    case Deploy(id, promotion, _) => CallPrepullsIff(st, TakeUp(st, id, promotion), id, None, v);
    case Record(id) => RecordFrame(st, id);
    case StartJob(id, targets) => ArmKeepsStore(st, id, targets);
    case PullReport(r, credit) => ReportKeepsStore(st, r, credit);
    case Expire(id) => RemoveKeepsStore(st, id);
    case Finish(k, ok) => FinishState(st, k, ok, v);
    case Rollback(id, regions) => FlipState(st, id, regions, v);
    case _ =>
  }

  /** Step m put the version in flight, and it has been prepulling ever since. */
  ghost predicate InFlightSince(states: seq<State>, steps: seq<Step>, v: Id, m: nat, j: nat) {
    && m < j < |states| && m < |steps| && BeginsNow(states[m], steps[m], v)
    && forall l :: m < l <= j ==> v in states[l].versions && states[l].versions[v].state == Prepulling
  }

  lemma {:induction false} RowsStay(states: seq<State>, steps: seq<Step>, v: Id, i: nat, j: nat)
    requires IsRun(states, steps) && i <= j <= |steps| && v in states[i].versions
    ensures v in states[j].versions
  {
    hide CanDo, Do, JobsOk;
    if i < j {
      RowsStay(states, steps, v, i, j - 1);
      assert IsStep(states[j - 1], steps[j - 1], states[j]);
      RowStays(states[j - 1], steps[j - 1], v);
    }
  }

  lemma RowStays(st: State, step: Step, v: Id)
    requires JobsOk(st) && CanDo(st, step) && v in st.versions
    ensures v in Do(st, step).versions
  {
    hide Do, CanDo, JobsOk;
    if step.Finish? {
      FinishState(st, step.serial, step.ok, v);
    } else {
      PrepullingStays(st, step, v);
    }
  }

  lemma {:induction false} BegunAgain(states: seq<State>, steps: seq<Step>, v: Id, i: nat, j: nat)
    requires IsRun(states, steps) && i <= j <= |steps| && v in states[i].versions && v in states[j].versions
    requires states[i].versions[v].state != Prepulling && states[j].versions[v].state == Prepulling
    ensures exists m: nat :: i <= m && InFlightSince(states, steps, v, m, j)
  {
    hide CanDo, Do, JobsOk, BeginsNow;
    RowsStay(states, steps, v, i, j - 1);
    assert IsStep(states[j - 1], steps[j - 1], states[j]);
    if states[j - 1].versions[v].state == Prepulling {
      BegunAgain(states, steps, v, i, j - 1);
      var m: nat :| i <= m && InFlightSince(states, steps, v, m, j - 1);
      assert InFlightSince(states, steps, v, m, j);
    } else {
      StepPrepullsIff(states[j - 1], steps[j - 1], v);
      assert InFlightSince(states, steps, v, j - 1, j);
    }
  }

  /**
   * In every run: after its version left prepulling, what a fan-out still writes
   * changes the store if and only if the version has been put in flight again
   * since and still is. A left-over job of a finished deploy is harmless until then.
   */
  lemma LeftOverWritesIff(states: seq<State>, steps: seq<Step>, i: nat, j: nat, k: nat)
    requires IsRun(states, steps) && i <= j < |steps| && steps[j] == Finish(k, true)
    requires k < |states[j].armed| && states[j].armed[k].version in states[i].versions
    requires states[i].versions[states[j].armed[k].version].state != Prepulling
    ensures var v := states[j].armed[k].version;
            states[j + 1].versions != states[j].versions || states[j + 1].fleets != states[j].fleets <==>
            exists m: nat :: i <= m && InFlightSince(states, steps, v, m, j)
  {
    hide JobsOk, FinishJob;
    var v := states[j].armed[k].version;
    assert IsStep(states[j], steps[j], states[j + 1]);
    RowsStay(states, steps, v, i, j);
    CompletionWritesIff(states[j], k, true);
    if states[j].versions[v].state == Prepulling {
      BegunAgain(states, steps, v, i, j);
    }
  }

  // ---- whose reports it can take ----

  /**
   * Which job gets the credit for a report is determined exactly when at most one job of the image
   * waits for the node.
   */
  lemma CreditIsDeterminedIff(st: State, r: Report)
    requires JobsOk(st)
    ensures (forall a, b :: CanDo(st, PullReport(r, a)) && CanDo(st, PullReport(r, b)) ==> a == b)
       <==> (forall u, v :: Candidate(st, r, u) && Candidate(st, r, v) ==> u == v)
  {
    if u, v :| Candidate(st, r, u) && Candidate(st, r, v) && u != v {
      assert CanDo(st, PullReport(r, Some(u))) && CanDo(st, PullReport(r, Some(v)));
    } else {
      forall a, b | CanDo(st, PullReport(r, a)) && CanDo(st, PullReport(r, b)) ensures a == b {
        if a.Some? && b.Some? {
          assert Candidate(st, r, a.value) && Candidate(st, r, b.value);
        }
      }
    }
  }

  /** A node belongs to one environment, and a job waits for nodes of its own environment only. */
  ghost predicate AtHome(st: State, home: NodeId -> Env) {
    forall id, n :: id in st.jobs && n in st.jobs[id].pending && id in st.versions ==> home(n) == st.versions[id].env
  }

  ghost predicate AsksAtHome(st: State, step: Step, home: NodeId -> Env) {
    step.StartJob? && step.version in st.versions ==>
      forall n :: n in step.targets ==> home(n) == st.versions[step.version].env
  }

  lemma JobsWaitLess(st: State, step: Step)
    requires JobsOk(st) && CanDo(st, step) && !step.StartJob?
    ensures forall id :: id in Do(st, step).jobs ==>
              id in st.jobs && Do(st, step).jobs[id].pending <= st.jobs[id].pending
  {
    hide HandleReport, Remove, Arm, FinishJob, Flip, AttemptStep, ChooseStep, BeginStep, DeployStep, RecordStep;
    match step
    case PullReport(r, credit) => ReportWaitsLess(st, r, credit);
    case Expire(id) => ExpireWaitsLess(st, id);
    case _ => ArmedFrame(st, step);
  }

  lemma ReportWaitsLess(st: State, r: Report, credit: Option<Id>)
    requires JobsOk(st) && CanDo(st, PullReport(r, credit))
    ensures credit.Some? ==> st.jobs[credit.value].serial < |st.armed|
    ensures var b := HandleReport(st, r, credit);
            forall id :: id in b.jobs ==> id in st.jobs && b.jobs[id].pending <= st.jobs[id].pending
  {
    if credit.Some? {
      assert JobOk(st, credit.value);
    }
  }

  lemma ExpireWaitsLess(st: State, v: Id)
    requires JobsOk(st) && v in st.jobs
    ensures st.jobs[v].serial < |st.armed|
    ensures var b := Remove(st, v, Abort); forall id :: id in b.jobs ==> id in st.jobs && b.jobs[id] == st.jobs[id]
  {
    assert JobOk(st, v);
  }

  lemma EnvStays(st: State, step: Step, v: Id)
    requires JobsOk(st) && CanDo(st, step) && v in st.versions
    ensures v in Do(st, step).versions && Do(st, step).versions[v].env == st.versions[v].env
  {
    hide AttemptStep, ChooseStep, BeginCall, HandleReport, Arm, Remove, Flip, FinishJob, RecordAttempt, JobsOk,
      Candidate;
    match step
    case Attempt(env, ok) => AttemptFrame(st, env, ok);
    case Choose(k, ok) => ChooseFrame(st, k, ok);
    case Begin(p, _) => CallKeepsEnv(st.(picks := st.picks - multiset{p}), p.id, Some(p.seen), v);
    case Deploy(id, promotion, _) => CallKeepsEnv(TakeUp(st, id, promotion), id, None, v);
    case Record(id) => RecordFrame(st, id);
    case StartJob(id, targets) => ArmKeepsStore(st, id, targets);
    case PullReport(r, credit) => ReportKeepsStore(st, r, credit);
    case Expire(id) => RemoveKeepsStore(st, id);
    case Finish(k, ok) => FinishKeepsEnv(st, k, ok, v);
    case Rollback(id, regions) => FlipKeepsRows(st, id, regions);
    case _ =>
  }

  lemma CallKeepsEnv(st: State, id: Id, seen: Option<Seen>, v: Id)
    requires id in st.versions && v in st.versions
    ensures var b := BeginCall(st, id, seen); v in b.versions && b.versions[v].env == st.versions[v].env
  {
    hide BeginResult;
  }

  lemma FinishKeepsEnv(st: State, k: nat, ok: bool, v: Id)
    requires JobsOk(st) && k in st.closing && v in st.versions
    ensures k < |st.armed| && st.armed[k].version in st.versions
    ensures var b := FinishJob(st, k, ok); v in b.versions && b.versions[v].env == st.versions[v].env
  {
    hide Flip;
    assert ArmedOk(st, k);
    FlipKeepsRows(st.(closing := st.closing - {k}), st.armed[k].version, {});
  }

  lemma StepStaysAtHome(st: State, step: Step, home: NodeId -> Env)
    requires JobsOk(st) && CanDo(st, step) && AtHome(st, home) && AsksAtHome(st, step, home)
    requires forall id :: id in st.jobs ==> id in st.versions
    ensures AtHome(Do(st, step), home)
  {
    hide JobsOk, Do, CanDo;
    var b := Do(st, step);
    forall id, n | id in b.jobs && n in b.jobs[id].pending && id in b.versions ensures home(n) == b.versions[id].env {
      if step.StartJob? {
        ArmedAtHome(st, step.version, step.targets, home, id, n);
      } else {
        JobsWaitLess(st, step);
        EnvStays(st, step, id);
      }
    }
  }

  lemma ArmedAtHome(st: State, v: Id, targets: set<NodeId>, home: NodeId -> Env, id: Id, n: NodeId)
    requires JobsOk(st) && CanDo(st, StartJob(v, targets)) && AtHome(st, home)
    requires AsksAtHome(st, StartJob(v, targets), home)
    requires var b := Do(st, StartJob(v, targets)); id in b.jobs && n in b.jobs[id].pending && id in b.versions
    ensures home(n) == Do(st, StartJob(v, targets)).versions[id].env
  {
    if v in st.jobs {
      assert JobOk(st, v);
    }
  }

  lemma JobsHaveRows(st: State)
    requires JobsOk(st)
    ensures forall id :: id in st.jobs ==> id in st.versions
  {
    forall id | id in st.jobs ensures id in st.versions {
      assert JobOk(st, id) && ArmedOk(st, st.jobs[id].serial);
    }
  }

  lemma {:induction false} RunStaysAtHome(states: seq<State>, steps: seq<Step>, home: NodeId -> Env, i: nat)
    requires IsRun(states, steps) && i <= |steps|
    requires forall j :: 0 <= j < |steps| ==> AsksAtHome(states[j], steps[j], home)
    ensures Inv(states[i]) && AtHome(states[i], home)
  {
    hide Inv, JobsOk, CanDo, Do, AsksAtHome;
    RunKeeps(states, steps, i);
    if i > 0 {
      RunStaysAtHome(states, steps, home, i - 1);
      assert IsStep(states[i - 1], steps[i - 1], states[i]);
      JobsHaveRows(states[i - 1]);
      StepStaysAtHome(states[i - 1], steps[i - 1], home);
    }
  }

  /**
   * In every run whose fan-outs ask nodes of the version's environment: when two
   * jobs could take one report, both are of one environment and one of them is
   * left over. Without left-over jobs the match is unique.
   */
  lemma TwoCandidatesNeedALeftOver(states: seq<State>, steps: seq<Step>, home: NodeId -> Env, i: nat,
                                   r: Report, u: Id, v: Id)
    requires IsRun(states, steps) && i <= |steps|
    requires forall j :: 0 <= j < |steps| ==> AsksAtHome(states[j], steps[j], home)
    requires u != v && Candidate(states[i], r, u) && Candidate(states[i], r, v)
    ensures var st := states[i];
            && u in st.versions && v in st.versions && st.versions[u].env == st.versions[v].env == home(r.node)
            && (LeftOver(st, u) || LeftOver(st, v))
  {
    hide JobsOk, CanDo, Do, AsksAtHome;
    RunStaysAtHome(states, steps, home, i);
    var st := states[i];
    JobsHaveRows(st);
    assert u in st.versions && r.node in st.jobs[u].pending;
    assert v in st.versions && r.node in st.jobs[v].pending;
    assert home(r.node) == st.versions[u].env && home(r.node) == st.versions[v].env;
  }
}

/**
 * What every run of deploy steps guarantees: the bookkeeping of jobs and rows,
 * that every fan-out ends once, and that an activation was earned by its reports.
 */
module DeployGuarantees {
  import opened Wrappers
  import opened DeploySteps

  // ---- the store ----

  lemma BeginKeepsOneEach(st: State, id: Id, seen: Option<Seen>)
    requires id in st.versions && OneEach(st.versions)
    ensures OneEach(BeginDeploy(st, id, seen).versions)
  {
    var b := BeginDeploy(st, id, seen).versions;
    if BeginResult(st, id) == Began {
      forall u, v | u in b && v in b && u != v && b[u].env == b[v].env
        ensures !(b[u].state == b[v].state == Prepulling) && !(b[u].state == b[v].state == Active)
      {
        assert u != id ==> b[u] == st.versions[u];
        assert v != id ==> b[v] == st.versions[v];
      }
    }
  }

  lemma LeavingKeepsOneEach(st: State, id: Id, s: VState)
    requires id in st.versions && OneEach(st.versions) && s != Prepulling && s != Active
    ensures OneEach(SetState(st, id, s).versions)
  {
  }

  lemma FlipKeepsOneEach(st: State, id: Id, regions: set<string>)
    requires id in st.versions && OneEach(st.versions)
    ensures OneEach(Flip(st, id, regions).versions)
  {
  }

  lemma NewVersionKeepsOneEach(versions: map<Id, Version>, id: Id, v: Version)
    requires OneEach(versions) && id !in versions && v.state == Registered
    ensures OneEach(versions[id := v])
  {
  }

  /** Version rows never disappear and keep their environment, image and place in the order. */
  ghost predicate RowsKept(a: State, b: State) {
    forall id :: id in a.versions ==>
      && id in b.versions && b.versions[id].env == a.versions[id].env
      && b.versions[id].image == a.versions[id].image && b.versions[id].created == a.versions[id].created
  }

  /** Rows kept, fleets alone, and nothing new but what names its version rightly. */
  lemma RefsCarry(a: State, b: State)
    requires RefsOk(a) && RowsKept(a, b) && b.fleets == a.fleets
    requires forall s :: s in b.starts ==> s in a.starts || StartOk(b.versions, s)
    requires forall p :: p in b.picks ==> p in a.picks || (p.id in b.versions && b.versions[p.id].env == p.env)
    requires forall id :: id in b.recording || id in b.promoted ==>
               id in a.recording || id in a.promoted || id in b.versions
    ensures RefsOk(b)
  {
  }

  lemma FlipKeepsRows(st: State, id: Id, regions: set<string>)
    requires id in st.versions
    ensures RowsKept(st, Flip(st, id, regions)) && Flip(st, id, regions).versions.Keys == st.versions.Keys
  {
  }

  lemma FlipKeepsRefs(st: State, id: Id, regions: set<string>)
    requires id in st.versions && RefsOk(st)
    ensures RefsOk(Flip(st, id, regions))
  {
    hide StateAfterFlip, Demoted;
    FlipKeepsRows(st, id, regions);
  }

  // ---- the newest registered version ----

  lemma {:induction false} NewestOf(st: State, ids: set<Id>) returns (n: Id)
    requires ids != {} && ids <= st.versions.Keys
    ensures n in ids && forall u :: u in ids && u != n ==> NewerThan(MarkOf(st, n), MarkOf(st, u))
    decreases |ids|
  {
    var id :| id in ids;
    var rest := ids - {id};
    if rest == {} {
      n := id;
      assert ids == {id};
    } else {
      var m := NewestOf(st, rest);
      n := if NewerThan(MarkOf(st, id), MarkOf(st, m)) then id else m;
    }
  }

  lemma NewestExists(st: State, env: Env, mark: Mark, id: Id)
    requires RegisteredAfter(st, env, mark, id)
    ensures exists n :: NewestRegisteredAfter(st, env, mark, n)
  {
    var ids := set u | u in st.versions && RegisteredAfter(st, env, mark, u);
    assert id in ids;
    var n := NewestOf(st, ids);
    assert NewestRegisteredAfter(st, env, mark, n);
  }

  lemma NewestIsNewer(st: State, env: Env, mark: Mark)
    requires HasNewer(st, env, mark)
    ensures RegisteredAfter(st, env, mark, Newest(st, env, mark))
  {
  }

  /** Registered in the environment, and created after a time, or at it with a greater id. */
  predicate Beyond(st: State, env: Env, created: nat, than: nat, id: Id) {
    && id in st.versions && st.versions[id].env == env && st.versions[id].state == Registered
    && (created < st.versions[id].created || (created == st.versions[id].created && than < id))
  }

  /** Every other registered version was created before it, or at the same time with a smaller id. */
  ghost predicate Latest(st: State, env: Env, id: Id) {
    && id in st.versions
    && forall u :: u in st.versions && u != id && st.versions[u].env == env && st.versions[u].state == Registered ==>
         || st.versions[u].created < st.versions[id].created
         || (st.versions[u].created == st.versions[id].created && u < id)
  }

  /**
   * In creation times and ids: something is newer than the marker exactly when a registered version of the
   * environment was created after it, or at the same time with a greater id; and the newest is such a version,
   * with every other registered one created before it, or at the same time with a smaller id.
   */
  lemma NewestInTimes(st: State, env: Env, mark: Mark)
    ensures HasNewer(st, env, mark) <==> exists u :: Beyond(st, env, mark.created, mark.id, u)
    ensures HasNewer(st, env, mark) ==>
              var id := Newest(st, env, mark);
              Beyond(st, env, mark.created, mark.id, id) && Latest(st, env, id)
  {
    if u :| Beyond(st, env, mark.created, mark.id, u) {
      assert RegisteredAfter(st, env, mark, u);
      NewestExists(st, env, mark, u);
    }
    if HasNewer(st, env, mark) {
      var id := Newest(st, env, mark);
      assert RegisteredAfter(st, env, mark, id);
      assert Beyond(st, env, mark.created, mark.id, id);
      forall u | u in st.versions && u != id && st.versions[u].env == env && st.versions[u].state == Registered
        ensures || st.versions[u].created < st.versions[id].created
                || (st.versions[u].created == st.versions[id].created && u < id)
      {
        assert RegisteredAfter(st, env, mark, u) ==> NewerThan(MarkOf(st, id), MarkOf(st, u));
      }
    }
  }

  // ---- every step keeps the invariant ----

  lemma BeginTouches(st: State, id: Id, seen: Option<Seen>)
    requires id in st.versions
    ensures var b := BeginDeploy(st, id, seen);
            && b == st.(versions := b.versions, starts := b.starts)
            && b.versions.Keys == st.versions.Keys && RowsKept(st, b)
            && b.starts == if BeginResult(st, id) == Began
                           then st.starts + [Start(id, st.versions[id].env, MarkOf(st, id), seen)] else st.starts
    ensures BeginResult(st, id) != Began ==> BeginDeploy(st, id, seen) == st
  {
    hide BeginResult;
  }

  lemma BeginKeeps(st: State, id: Id, seen: Option<Seen>)
    requires Inv(st) && id in st.versions
    ensures Inv(BeginCall(st, id, seen))
  {
    hide JobsOk, OneEach, BeginDeploy, BeginResult;
    var b := BeginCall(st, id, seen);
    BeginTouches(st, id, seen);
    JobsFrame(st, b);
    BeginKeepsOneEach(st, id, seen);
    RefsCarry(st, b);
  }

  lemma BeginStepKeeps(st: State, p: Pick, ok: bool)
    requires Inv(st) && p in st.picks && p.id in st.versions
    ensures Inv(BeginStep(st, p, ok))
  {
    hide JobsOk, OneEach, BeginCall;
    var left := st.(picks := st.picks - multiset{p});
    JobsFrame(st, left);
    RefsCarry(st, left);
    BeginKeeps(left, p.id, Some(p.seen));
  }

  lemma DeployStepKeeps(st: State, id: Id, promotion: bool, ok: bool)
    requires Inv(st) && id in st.versions
    ensures Inv(DeployStep(st, id, promotion, ok))
  {
    hide JobsOk, OneEach, LooksOk, BeginCall;
    var left := TakeUp(st, id, promotion);
    JobsFrame(st, left);
    RefsCarry(st, left);
    BeginKeeps(left, id, None);
  }

  lemma AttemptKeeps(st: State, env: Env, ok: bool)
    requires Inv(st)
    ensures Inv(AttemptStep(st, env, ok))
  {
    hide JobsOk, OneEach, RefsOk, LooksOk, AttemptStep;
    var b := AttemptStep(st, env, ok);
    AttemptFrame(st, env, ok);
    JobsFrame(st, b);
    RefsCarry(st, b);
    AttemptKeepsLooks(st, env, ok);
  }

  /** The marker as it was just read is the marker. */
  lemma AttemptKeepsLooks(st: State, env: Env, ok: bool)
    requires LooksOk(st.looks, st.marks)
    ensures LooksOk(AttemptStep(st, env, ok).looks, st.marks)
  {
    var marker := Marker(st, env);
    assert !NewerThan(marker, marker);
    hide NewerThan;
  }

  lemma ChooseKeeps(st: State, k: Look, ok: bool)
    requires Inv(st)
    ensures Inv(ChooseStep(st, k, ok))
  {
    hide JobsOk, OneEach, RefsOk, LooksOk, ChooseStep;
    var b := ChooseStep(st, k, ok);
    ChooseFrame(st, k, ok);
    JobsFrame(st, b);
    ChoosePicks(st, k, ok);
    RefsCarry(st, b);
    FewerLooks(st.looks, b.looks, st.marks);
  }

  lemma ChoosePicks(st: State, k: Look, ok: bool)
    ensures var b := ChooseStep(st, k, ok);
            && b.looks <= st.looks
            && forall p :: p in b.picks ==> p in st.picks || (p.id in b.versions && b.versions[p.id].env == p.env)
  {
    hide NewestRegisteredAfter;
    if HasNewer(st, k.env, k.seen.marker) {
      NewestIsNewer(st, k.env, k.seen.marker);
    }
  }

  lemma FewerLooks(more: multiset<Look>, fewer: multiset<Look>, marks: map<Env, Mark>)
    requires LooksOk(more, marks) && fewer <= more
    ensures LooksOk(fewer, marks)
  {
  }

  lemma RecordKeeps(st: State, id: Id)
    requires Inv(st) && id in st.versions
    ensures Inv(RecordStep(st, id))
  {
    hide JobsOk, OneEach, RefsOk, LooksOk, RecordStep;
    var b := RecordStep(st, id);
    RecordFrame(st, id);
    JobsFrame(st, b);
    assert b.recording <= st.recording;
    RefsCarry(st, b);
    RecordKeepsLooks(st, id);
  }

  /** The marker does not go back behind what was read of it. */
  lemma RecordKeepsLooks(st: State, id: Id)
    requires LooksOk(st.looks, st.marks) && id in st.versions
    ensures LooksOk(st.looks, RecordStep(st, id).marks)
  {
  }

  lemma RegisterKeeps(st: State, id: Id, v: Version)
    requires Inv(st) && id !in st.versions && v.state == Registered
    ensures Inv(NewVersion(st, id, v))
  {
    hide JobsOk, LooksOk;
    var b := NewVersion(st, id, v);
    JobsFrame(st, b);
    NewVersionKeepsOneEach(st.versions, id, v);
    RefsCarry(st, b);
  }

  lemma PromoteKeeps(st: State, id: Id, v: Version)
    requires Inv(st) && (id !in st.versions || st.versions[id] == v) && v.state == Registered
    ensures Inv(PromoteStep(st, id, v))
  {
    hide JobsOk, LooksOk, OneEach;
    var b := PromoteStep(st, id, v);
    JobsFrame(st, b);
    if id in st.versions {
      assert b.versions == st.versions;
    } else {
      NewVersionKeepsOneEach(st.versions, id, v);
    }
    RefsCarry(st, b);
  }

  lemma PutFleetKeeps(st: State, f: Fleet, pin: Option<Id>)
    requires Inv(st) && CanDo(st, PutFleet(f, pin))
    ensures Inv(UpsertFleet(st, f, pin))
  {
    hide JobsOk, OneEach;
    JobsFrame(st, UpsertFleet(st, f, pin));
  }

  lemma SwitchKeeps(st: State, env: Env, on: bool)
    requires Inv(st)
    ensures Inv(SwitchMode(st, env, on))
  {
    hide JobsOk, OneEach;
    JobsFrame(st, SwitchMode(st, env, on));
  }

  /** Steps on jobs touch nothing but jobs. */
  lemma JobStepKeeps(a: State, b: State)
    requires Inv(a) && JobsOk(b)
    requires b == a.(jobs := b.jobs, armed := b.armed, reports := b.reports, closing := b.closing)
    ensures Inv(b)
  {
    hide JobsOk, OneEach;
  }

  lemma StateKeepsRefs(st: State, id: Id, s: VState, kicks: multiset<Env>)
    requires id in st.versions && RefsOk(st)
    ensures RefsOk(SetState(st, id, s).(kicks := kicks))
  {
    RefsCarry(st, SetState(st, id, s).(kicks := kicks));
  }

  lemma FinishKeeps(st: State, k: nat, ok: bool)
    requires Inv(st) && k in st.closing
    ensures k < |st.armed| && st.armed[k].version in st.versions && Inv(FinishJob(st, k, ok))
  {
    hide JobsOk, OneEach, Flip, SetState, RefsOk, LooksOk, FinishJob;
    FinishKeepsJobs(st, k, ok);
    FinishFrame(st, k, ok);
    var id := st.armed[k].version;
    var left := st.(closing := st.closing - {k});
    RefsDoNotClose(st, left);
    FlipKeepsOneEach(left, id, {});
    FlipKeepsRefs(left, id, {});
    LeavingKeepsOneEach(left, id, Registered);
    var kicks := st.kicks + multiset{st.versions[id].env};
    StateKeepsRefs(left, id, Registered, kicks);
    RefsDoNotKick(Flip(left, id, {}), kicks);
    RefsDoNotKick(left, kicks);
    FinishCases(st, k, ok);
  }

  lemma RefsDoNotKick(st: State, kicks: multiset<Env>)
    requires RefsOk(st)
    ensures RefsOk(st.(kicks := kicks))
  {
  }

  lemma RefsDoNotClose(st: State, left: State)
    requires RefsOk(st) && left == st.(closing := left.closing)
    ensures RefsOk(left)
  {
  }

  /** A completion flips, or returns the version to registered, or leaves the store alone. */
  lemma FinishCases(st: State, k: nat, ok: bool)
    requires k < |st.armed| && st.armed[k].version in st.versions
    ensures var id := st.armed[k].version;
            var left := st.(closing := st.closing - {k});
            var kicks := st.kicks + multiset{st.versions[id].env};
            var activates := st.armed[k].outcome == Some(Activate);
            FinishJob(st, k, ok) ==
              if !ok || st.versions[id].state != Prepulling then (if activates then left else left.(kicks := kicks))
              else if activates then Flip(left, id, {}).(kicks := kicks)
              else SetState(left, id, Registered).(kicks := kicks)
  {
    hide Flip, SetState;
  }

  lemma RollbackKeeps(st: State, id: Id, regions: set<string>)
    requires Inv(st) && id in st.versions
    ensures Inv(Flip(st, id, regions))
  {
    hide JobsOk, OneEach, RefsOk;
    JobsFrame(st, Flip(st, id, regions));
    FlipKeepsOneEach(st, id, regions);
    FlipKeepsRefs(st, id, regions);
  }

  lemma DisableKeeps(st: State, id: Id)
    requires Inv(st) && id in st.versions
    ensures Inv(SetState(st, id, Disabled))
  {
    hide JobsOk, OneEach, RefsOk;
    JobsFrame(st, SetState(st, id, Disabled));
    LeavingKeepsOneEach(st, id, Disabled);
    StateKeepsRefs(st, id, Disabled, st.kicks);
  }

  /** The invariant holds after every step from a state in which it held. */
  lemma StepKeeps(st: State, step: Step)
    requires Inv(st) && CanDo(st, step)
    ensures Inv(Do(st, step))
  {
    hide Inv, Flip, FinishJob, HandleReport, Arm, Remove, SetState, UpsertFleet, AttemptStep, ChooseStep, BeginStep,
      DeployStep, RecordStep, NewVersion, PromoteStep;
    JobsHold(st);
    match step
    case Register(id, env, image, created) =>
      RegisterKeeps(st, id, Version(env, image, created, Registered));
    case Promote(id, env, image, created) =>
      PromoteKeeps(st, id, Version(env, image, created, Registered));
    case PutFleet(f, pin) => PutFleetKeeps(st, f, pin);
    case Switch(env, on) => SwitchKeeps(st, env, on);
    case Attempt(env, ok) => AttemptKeeps(st, env, ok);
    case Choose(k, ok) => ChooseKeeps(st, k, ok);
    case Begin(p, ok) => BeginStepKeeps(st, p, ok);
    case Deploy(id, promotion, ok) => DeployStepKeeps(st, id, promotion, ok);
    case Record(id) => RecordKeeps(st, id);
    case StartJob(id, targets) => StartJobKeeps(st, id, targets);
    case PullReport(r, credit) => PullReportKeeps(st, r, credit);
    case Expire(id) => ExpireKeeps(st, id);
    case Finish(k, ok) => FinishKeeps(st, k, ok);
    case Rollback(id, regions) => RollbackKeeps(st, id, regions);
    case Disable(id) => DisableKeeps(st, id);
  }

  lemma JobsHold(st: State)
    requires Inv(st)
    ensures JobsOk(st)
  {
  }

  lemma StartJobKeeps(st: State, id: Id, targets: set<NodeId>)
    requires Inv(st) && id in st.versions
    ensures (id in st.jobs ==> st.jobs[id].serial < |st.armed|) && Inv(Arm(st, id, targets))
  {
    hide Inv, JobsOk;
    JobsHold(st);
    ArmKeepsJobs(st, id, targets);
    JobStepKeeps(st, Arm(st, id, targets));
  }

  lemma PullReportKeeps(st: State, r: Report, credit: Option<Id>)
    requires Inv(st) && (credit.Some? ==> Candidate(st, r, credit.value))
    ensures Inv(HandleReport(st, r, credit))
  {
    hide Inv, JobsOk;
    JobsHold(st);
    ReportKeepsJobs(st, r, credit);
    JobStepKeeps(st, HandleReport(st, r, credit));
  }

  lemma ExpireKeeps(st: State, id: Id)
    requires Inv(st) && id in st.jobs
    ensures st.jobs[id].serial < |st.armed| && Inv(Remove(st, id, Abort))
  {
    assert JobOk(st, id);
    RemoveKeepsJobs(st, id, Abort);
    JobStepKeeps(st, Remove(st, id, Abort));
  }

  // ---- over whole runs ----

  ghost predicate IsStep(a: State, step: Step, b: State) {
    JobsOk(a) && CanDo(a, step) && b == Do(a, step)
  }

  ghost predicate IsRun(states: seq<State>, steps: seq<Step>) {
    && |states| == |steps| + 1
    && (exists auto :: states[0] == Init(auto))
    && (forall i :: 0 <= i < |steps| ==> IsStep(states[i], steps[i], states[i + 1]))
  }

  lemma {:induction false} RunKeeps(states: seq<State>, steps: seq<Step>, i: nat)
    requires IsRun(states, steps) && i <= |steps|
    ensures Inv(states[i])
  {
    hide Inv, Do, CanDo;
    if i > 0 {
      RunKeeps(states, steps, i - 1);
      assert IsStep(states[i - 1], steps[i - 1], states[i]);
      StepKeeps(states[i - 1], steps[i - 1]);
    } else {
      InitOk(states[0]);
    }
  }

  lemma InitOk(st: State)
    requires exists auto :: st == Init(auto)
    ensures Inv(st)
  {
  }

  /** What is fixed about a fan-out, what only grows, and that an end is final. */
  ghost predicate Onwards(a: Armed, b: Armed) {
    && b == a.(pulled := b.pulled, outcome := b.outcome)
    && a.pulled <= b.pulled
    && (a.outcome.Some? ==> b == a)
  }

  ghost predicate ArmedOnwards(a: State, b: State) {
    && |a.armed| <= |b.armed|
    && forall k :: 0 <= k < |a.armed| ==> Onwards(a.armed[k], b.armed[k])
  }

  lemma ReportGoesOn(st: State, r: Report, credit: Option<Id>)
    requires JobsOk(st) && (credit.Some? ==> Candidate(st, r, credit.value))
    ensures credit.Some? ==> st.jobs[credit.value].serial < |st.armed|
    ensures ArmedOnwards(st, HandleReport(st, r, credit))
  {
    if credit.Some? {
      assert JobOk(st, credit.value);
    }
  }

  lemma ArmGoesOn(st: State, id: Id, targets: set<NodeId>)
    requires JobsOk(st) && id in st.versions
    ensures (id in st.jobs ==> st.jobs[id].serial < |st.armed|) && ArmedOnwards(st, Arm(st, id, targets))
  {
    if id in st.jobs {
      assert JobOk(st, id);
    }
    hide JobsOk;
  }

  lemma RemoveGoesOn(st: State, id: Id)
    requires JobsOk(st) && id in st.jobs
    ensures st.jobs[id].serial < |st.armed| && ArmedOnwards(st, Remove(st, id, Abort))
  {
    assert JobOk(st, id);
    hide JobsOk;
  }

  lemma AttemptFrame(st: State, env: Env, ok: bool)
    ensures var b := AttemptStep(st, env, ok); b == st.(kicks := b.kicks, looks := b.looks)
  {
  }

  lemma ChooseFrame(st: State, k: Look, ok: bool)
    ensures var b := ChooseStep(st, k, ok); b == st.(looks := b.looks, picks := b.picks)
  {
    hide NewestRegisteredAfter;
  }

  lemma BeginFrame(st: State, p: Pick, ok: bool)
    requires p.id in st.versions
    ensures var b := BeginStep(st, p, ok);
            b == st.(versions := b.versions, starts := b.starts, recording := b.recording, picks := b.picks)
  {
    hide BeginResult, BeginDeploy;
    BeginTouches(st.(picks := st.picks - multiset{p}), p.id, Some(p.seen));
  }

  lemma DeployFrame(st: State, id: Id, promotion: bool, ok: bool)
    requires id in st.versions
    ensures var b := DeployStep(st, id, promotion, ok);
            b == st.(versions := b.versions, starts := b.starts, recording := b.recording, promoted := b.promoted)
  {
    hide BeginResult, BeginDeploy;
    BeginTouches(TakeUp(st, id, promotion), id, None);
  }

  lemma FinishFrame(st: State, k: nat, ok: bool)
    requires k < |st.armed| && st.armed[k].version in st.versions
    ensures var b := FinishJob(st, k, ok);
            b == st.(versions := b.versions, fleets := b.fleets, kicks := b.kicks, closing := b.closing)
  {
    hide StateAfterFlip, Repointed;
  }

  /** Other steps do not touch the fan-outs. */
  lemma ArmedFrame(st: State, step: Step)
    requires JobsOk(st) && CanDo(st, step) && !step.StartJob? && !step.PullReport? && !step.Expire?
    ensures Do(st, step).armed == st.armed && Do(st, step).jobs == st.jobs
  {
    hide AttemptStep, ChooseStep, BeginStep, DeployStep, FinishJob, StateAfterFlip, Repointed, NewerThan;
    match step
    case Attempt(env, ok) => AttemptFrame(st, env, ok);
    case Choose(k, ok) => ChooseFrame(st, k, ok);
    case Begin(p, ok) => BeginFrame(st, p, ok);
    case Deploy(id, promotion, ok) => DeployFrame(st, id, promotion, ok);
    case Finish(k, ok) =>
      assert ArmedOk(st, k);
      FinishFrame(st, k, ok);
    case _ =>
  }

  lemma StepGoesOn(st: State, step: Step)
    requires JobsOk(st) && CanDo(st, step)
    ensures ArmedOnwards(st, Do(st, step))
  {
    hide JobsOk, ArmedOnwards, HandleReport, Arm, Remove, FinishJob, Flip;
    if step.PullReport? {
      ReportGoesOn(st, step.report, step.credit);
    } else if step.StartJob? {
      ArmGoesOn(st, step.version, step.targets);
    } else if step.Expire? {
      RemoveGoesOn(st, step.expired);
    } else {
      ArmedFrame(st, step);
      SameArmedGoesOn(st, Do(st, step));
    }
  }

  lemma SameArmedGoesOn(a: State, b: State)
    requires b.armed == a.armed
    ensures ArmedOnwards(a, b)
  {
  }

  /** Every fan-out ends at most once, and how it ended never changes. */
  lemma {:induction false} FanOutEndsOnce(states: seq<State>, steps: seq<Step>, i: nat, j: nat)
    requires IsRun(states, steps) && i <= j <= |steps|
    ensures ArmedOnwards(states[i], states[j])
  {
    hide Inv, JobsOk, ArmedOnwards, CanDo, Do;
    if i == j {
      SameArmedGoesOn(states[i], states[j]);
    } else {
      FanOutEndsOnce(states, steps, i, j - 1);
      assert IsStep(states[j - 1], steps[j - 1], states[j]);
      StepGoesOn(states[j - 1], steps[j - 1]);
      OnwardsIsOrder(states[i], states[j - 1], states[j]);
    }
  }

  lemma OnwardsIsOrder(a: State, b: State, c: State)
    requires ArmedOnwards(a, b) && ArmedOnwards(b, c)
    ensures ArmedOnwards(a, c)
  {
    forall k | 0 <= k < |a.armed| ensures Onwards(a.armed[k], c.armed[k]) {
      assert Onwards(a.armed[k], b.armed[k]) && Onwards(b.armed[k], c.armed[k]);
    }
  }

  /** In every reachable state a fan-out is either the job of its version, or has ended; never both. */
  lemma LiveOrEnded(states: seq<State>, steps: seq<Step>, i: nat, k: nat)
    requires IsRun(states, steps) && i <= |steps| && k < |states[i].armed|
    ensures var st, a := states[i], states[i].armed[k];
            && (a.outcome.None? <==> a.version in st.jobs && st.jobs[a.version].serial == k)
            && (a.outcome.None? ==> st.jobs[a.version].pending == a.fanout - a.pulled != {})
  {
    RunKeeps(states, steps, i);
    var st, a := states[i], states[i].armed[k];
    assert ArmedOk(st, k);
    if a.version in st.jobs {
      assert JobOk(st, a.version);
    }
  }

  /** Every node of the finished fan-out reported the image pulled after the fan-out was armed. */
  ghost predicate Earned(st: State, k: nat, v: Id) {
    && k < |st.armed| && st.armed[k].version == v
    && forall n :: n in st.armed[k].fanout ==> ReportedSince(st, n, st.armed[k].image, st.armed[k].since)
  }

  lemma ClosedIsEarned(st: State, k: nat)
    requires JobsOk(st) && k < |st.armed| && st.armed[k].outcome == Some(Activate)
    ensures Earned(st, k, st.armed[k].version)
  {
    assert ArmedOk(st, k);
  }

  /** Besides flips, nothing makes a version active. */
  lemma OthersDoNotActivate(st: State, step: Step, v: Id)
    requires JobsOk(st) && CanDo(st, step) && !step.Finish? && !step.Rollback?
    requires v in st.versions && st.versions[v].state != Active
    ensures v in Do(st, step).versions && Do(st, step).versions[v].state != Active
  {
    hide AttemptStep, ChooseStep, BeginCall, HandleReport, Arm, Remove, JobsOk, Candidate, RecordAttempt;
    match step
    case Attempt(env, ok) => AttemptFrame(st, env, ok);
    case Choose(k, ok) => ChooseFrame(st, k, ok);
    case Begin(p, _) => BeginDoesNotActivate(st.(picks := st.picks - multiset{p}), p.id, Some(p.seen), v);
    case Deploy(id, promotion, _) => BeginDoesNotActivate(TakeUp(st, id, promotion), id, None, v);
    case Record(id) => RecordFrame(st, id);
    case PullReport(r, credit) => ReportKeepsStore(st, r, credit);
    case StartJob(id, targets) => ArmKeepsStore(st, id, targets);
    case Expire(id) => RemoveKeepsStore(st, id);
    case _ =>
  }

  lemma BeginDoesNotActivate(st: State, id: Id, seen: Option<Seen>, v: Id)
    requires id in st.versions && v in st.versions && st.versions[v].state != Active
    ensures v in BeginCall(st, id, seen).versions && BeginCall(st, id, seen).versions[v].state != Active
  {
    hide BeginResult;
  }

  lemma RecordFrame(st: State, id: Id)
    requires id in st.versions
    ensures var b := RecordStep(st, id); b == st.(marks := b.marks, recording := st.recording - multiset{id})
  {
    hide NewerThan;
  }

  lemma ArmKeepsStore(st: State, id: Id, targets: set<NodeId>)
    requires JobsOk(st) && id in st.versions
    ensures id in st.jobs ==> st.jobs[id].serial < |st.armed|
    ensures var b := Arm(st, id, targets);
            b == st.(jobs := b.jobs, armed := b.armed, closing := b.closing) && st.closing <= b.closing
  {
    if id in st.jobs {
      assert JobOk(st, id);
    }
  }

  lemma RemoveKeepsStore(st: State, id: Id)
    requires JobsOk(st) && id in st.jobs
    ensures st.jobs[id].serial < |st.armed|
    ensures var b := Remove(st, id, Abort);
            b == st.(jobs := b.jobs, armed := b.armed, closing := b.closing) && st.closing <= b.closing
  {
    assert JobOk(st, id);
  }

  lemma ReportKeepsStore(st: State, r: Report, credit: Option<Id>)
    requires JobsOk(st) && (credit.Some? ==> Candidate(st, r, credit.value))
    ensures credit.Some? ==> st.jobs[credit.value].serial < |st.armed|
    ensures var b := HandleReport(st, r, credit);
            && b == st.(jobs := b.jobs, armed := b.armed, closing := b.closing, reports := b.reports)
            && st.closing <= b.closing
    ensures credit.None? ==> HandleReport(st, r, credit).closing == st.closing
  {
    if credit.Some? {
      assert JobOk(st, credit.value);
    }
  }

  /** A version becomes active by a rollback of a deprecated one, or because a fan-out of it has been earned. */
  lemma ActivationIsEarned(st: State, step: Step, v: Id)
    requires Inv(st) && CanDo(st, step) && v in st.versions && st.versions[v].state != Active
    ensures v in Do(st, step).versions && Do(st, step).versions[v].state == Active ==>
              if step.Rollback? then step.target == v && st.versions[v].state == Deprecated
              else step.Finish? && step.ok && st.versions[v].state == Prepulling && Earned(st, step.serial, v)
  {
    hide OneEach, RefsOk, Earned, JobsOk, Flip;
    if step.Finish? {
      FinishActivates(st, step.serial, step.ok, v);
    } else if step.Rollback? {
      FlipActivates(st, step.target, step.regions, v);
    } else {
      OthersDoNotActivate(st, step, v);
    }
  }

  lemma FinishActivates(st: State, k: nat, ok: bool, v: Id)
    requires JobsOk(st) && k in st.closing && v in st.versions && st.versions[v].state != Active
    ensures k < |st.armed| && st.armed[k].version in st.versions
    ensures FinishJob(st, k, ok).versions[v].state == Active ==>
              ok && st.versions[v].state == Prepulling && Earned(st, k, v)
  {
    hide Flip, Earned;
    assert ArmedOk(st, k);
    if st.armed[k].outcome == Some(Activate) {
      ClosedIsEarned(st, k);
    }
    FlipActivates(st.(closing := st.closing - {k}), st.armed[k].version, {}, v);
  }

  lemma FlipActivates(st: State, id: Id, regions: set<string>, v: Id)
    requires id in st.versions && v in st.versions && st.versions[v].state != Active
    ensures v in Flip(st, id, regions).versions
    ensures v != id ==> Flip(st, id, regions).versions[v].state != Active
  {
  }

  /**
   * What a flip leaves in the environment: the version as the only active one, exactly the versions it
   * demoted as deprecated, the older deprecated disabled, every fleet in the regions on the version; and
   * nothing else touched anywhere.
   */
  lemma FlipWindow(st: State, v: Id, regions: set<string>)
    requires v in st.versions && OneEach(st.versions)
    ensures var b, env := Flip(st, v, regions), st.versions[v].env;
            forall u :: u in st.versions ==>
              var was, now := st.versions[u].state, b.versions[u].state;
              && b.versions[u] == st.versions[u].(state := now)
              && if st.versions[u].env != env then now == was
              else
                && (now == Active <==> u == v)
                && (now == Deprecated <==> Demoted(st, v, u))
                && (now == Deprecated <==>
                      && u != v
                      && (was == Active
                          || (was == Registered
                              && exists f :: f in st.fleets && f.env == env && st.fleets[f] == Some(u))))
                && (now == Disabled <==> u != v && (was == Disabled || was == Deprecated))
                && (now == Prepulling <==> u != v && was == Prepulling)
    ensures forall f :: f in st.fleets ==>
              Flip(st, v, regions).fleets[f] ==
                if f.env == st.versions[v].env && (regions == {} || f.region in regions) then Some(v) else st.fleets[f]
  {
  }

  /** One version at most is left to roll back to exactly when the flip demoted one at most. */
  lemma OneRollbackTargetIff(st: State, v: Id, regions: set<string>)
    requires v in st.versions && OneEach(st.versions)
    ensures (forall t, u :: t in st.versions && u in st.versions && Demoted(st, v, t) && Demoted(st, v, u) ==> t == u)
       <==> var b, env := Flip(st, v, regions), st.versions[v].env;
            forall t, u :: IsRollbackTarget(b, env, t) && IsRollbackTarget(b, env, u) ==> t == u
  {
    hide Demoted, Flip;
    FlipWindow(st, v, regions);
    var b := Flip(st, v, regions);
    FlipKeepsRows(st, v, regions);
    forall u | u in st.versions ensures Demoted(st, v, u) <==> IsRollbackTarget(b, st.versions[v].env, u) {
      DemotedIsThere(st, v, u);
    }
  }

  ghost predicate IsRollbackTarget(st: State, env: Env, u: Id) {
    u in st.versions && st.versions[u].env == env && st.versions[u].state == Deprecated
  }

  lemma DemotedIsThere(st: State, v: Id, u: Id)
    requires v in st.versions && u in st.versions
    ensures Demoted(st, v, u) ==> st.versions[u].env == st.versions[v].env
  {
  }

  // ---- what there is to roll back to was demoted together ----

  /** The step flips the environment of v to v. */
  predicate Flips(st: State, step: Step, v: Id) {
    && v in st.versions
    && ((step.Rollback? && step.target == v)
        || (step.Finish? && step.ok && step.serial < |st.armed| && st.armed[step.serial].version == v
            && st.armed[step.serial].outcome == Some(Activate) && st.versions[v].state == Prepulling))
  }

  ghost predicate DemotedBy(st: State, step: Step, env: Env, v: Id, t: Id) {
    Flips(st, step, v) && st.versions[v].env == env && t in st.versions && Demoted(st, v, t)
  }

  /** After a flip the deprecated versions of its environment are the ones it demoted. */
  lemma FlipDeprecates(st: State, v: Id, regions: set<string>, t: Id)
    requires v in st.versions && OneEach(st.versions)
    requires IsRollbackTarget(Flip(st, v, regions), st.versions[v].env, t)
    ensures t in st.versions && Demoted(st, v, t)
  {
    hide Demoted, Flip, OneEach;
    FlipKeepsRows(st, v, regions);
    FlipWindow(st, v, regions);
  }

  lemma FlipElsewhereDeprecates(st: State, v: Id, regions: set<string>, env: Env, t: Id)
    requires v in st.versions && st.versions[v].env != env && OneEach(st.versions)
    requires IsRollbackTarget(Flip(st, v, regions), env, t)
    ensures IsRollbackTarget(st, env, t)
  {
    hide Demoted, Flip, OneEach;
    FlipKeepsRows(st, v, regions);
    FlipWindow(st, v, regions);
  }

  /** A step deprecates only what its flip demotes. */
  lemma StepDeprecates(st: State, step: Step, env: Env, t: Id)
    requires Inv(st) && CanDo(st, step) && IsRollbackTarget(Do(st, step), env, t)
    ensures IsRollbackTarget(st, env, t) || exists v :: DemotedBy(st, step, env, v, t)
    ensures forall v :: Flips(st, step, v) && st.versions[v].env == env ==> DemotedBy(st, step, env, v, t)
  {
    hide JobsOk, OneEach, RefsOk, LooksOk, Do, CanDo, Demoted;
    if step.Rollback? {
      RollbackDeprecates(st, step, env, t);
    } else if step.Finish? {
      FinishDeprecates(st, step, env, t);
    } else {
      OthersDoNotDeprecate(st, step, env, t);
    }
  }

  lemma RollbackDeprecates(st: State, step: Step, env: Env, t: Id)
    requires Inv(st) && CanDo(st, step) && step.Rollback? && IsRollbackTarget(Do(st, step), env, t)
    ensures IsRollbackTarget(st, env, t) || exists v :: DemotedBy(st, step, env, v, t)
    ensures forall v :: Flips(st, step, v) && st.versions[v].env == env ==> DemotedBy(st, step, env, v, t)
  {
    hide JobsOk, OneEach, RefsOk, LooksOk, Demoted, Flip;
    if st.versions[step.target].env == env {
      FlipDeprecates(st, step.target, step.regions, t);
      assert DemotedBy(st, step, env, step.target, t);
    } else {
      FlipElsewhereDeprecates(st, step.target, step.regions, env, t);
    }
  }

  lemma FinishDeprecates(st: State, step: Step, env: Env, t: Id)
    requires Inv(st) && CanDo(st, step) && step.Finish? && IsRollbackTarget(Do(st, step), env, t)
    ensures IsRollbackTarget(st, env, t) || exists v :: DemotedBy(st, step, env, v, t)
    ensures forall v :: Flips(st, step, v) && st.versions[v].env == env ==> DemotedBy(st, step, env, v, t)
  {
    hide JobsOk, OneEach, RefsOk, LooksOk, Demoted, Flip, FinishJob;
    var k := step.serial;
    FinishKeepsJobs(st, k, step.ok);
    FinishCases(st, k, step.ok);
    var v, left := st.armed[k].version, st.(closing := st.closing - {k});
    SameDemoted(st, left, v, t);
    if Flips(st, step, v) {
      assert IsRollbackTarget(Flip(left, v, {}), env, t);
      if st.versions[v].env == env {
        FlipDeprecates(left, v, {}, t);
        assert DemotedBy(st, step, env, v, t);
      } else {
        FlipElsewhereDeprecates(left, v, {}, env, t);
      }
    }
  }

  lemma SameDemoted(a: State, b: State, v: Id, u: Id)
    requires b.versions == a.versions && b.fleets == a.fleets && v in a.versions
    ensures u in a.versions ==> (Demoted(b, v, u) <==> Demoted(a, v, u))
  {
  }

  lemma OthersDoNotDeprecate(st: State, step: Step, env: Env, t: Id)
    requires JobsOk(st) && CanDo(st, step) && !step.Finish? && !step.Rollback?
    requires IsRollbackTarget(Do(st, step), env, t)
    ensures IsRollbackTarget(st, env, t)
  {
    hide AttemptStep, ChooseStep, BeginCall, HandleReport, Arm, Remove, JobsOk, Candidate, RecordAttempt;
    match step
    case Attempt(e, ok) => AttemptFrame(st, e, ok);
    case Choose(k, ok) => ChooseFrame(st, k, ok);
    case Begin(p, _) => BeginDoesNotDeprecate(st.(picks := st.picks - multiset{p}), p.id, Some(p.seen), env, t);
    case Deploy(id, promotion, _) => BeginDoesNotDeprecate(TakeUp(st, id, promotion), id, None, env, t);
    case Record(id) => RecordFrame(st, id);
    case PullReport(r, credit) => ReportKeepsStore(st, r, credit);
    case StartJob(id, targets) => ArmKeepsStore(st, id, targets);
    case Expire(id) => RemoveKeepsStore(st, id);
    case _ =>
  }

  lemma BeginDoesNotDeprecate(st: State, id: Id, seen: Option<Seen>, env: Env, t: Id)
    requires id in st.versions
    ensures IsRollbackTarget(BeginCall(st, id, seen), env, t) ==> IsRollbackTarget(st, env, t)
  {
    hide BeginResult;
  }

  /** One flip demoted both, and they have been deprecated ever since. */
  ghost predicate DemotedTogether(states: seq<State>, steps: seq<Step>, k: nat, i: nat, env: Env, t: Id, u: Id) {
    && k < |steps| && k < i < |states|
    && (exists v :: DemotedBy(states[k], steps[k], env, v, t) && DemotedBy(states[k], steps[k], env, v, u))
    && forall j :: k < j <= i ==> IsRollbackTarget(states[j], env, t) && IsRollbackTarget(states[j], env, u)
  }

  /**
   * In every run: all versions there are to roll back to in an environment were demoted by one flip and have
   * been deprecated ever since, so they carry one deprecated_at.
   */
  lemma {:induction false} RollbackTargetsAreOfOneFlip(states: seq<State>, steps: seq<Step>, i: nat, env: Env,
                                                       t: Id, u: Id)
    requires IsRun(states, steps) && i <= |steps|
    requires IsRollbackTarget(states[i], env, t) && IsRollbackTarget(states[i], env, u)
    ensures exists k :: DemotedTogether(states, steps, k, i, env, t, u)
  {
    hide Inv, CanDo, Do, Flips, DemotedBy, IsRollbackTarget;
    if i == 0 {
      NothingToRollBackTo(states[0], env, t);
    } else {
      var a, step := states[i - 1], steps[i - 1];
      assert IsStep(a, step, states[i]);
      RunKeeps(states, steps, i - 1);
      StepDeprecates(a, step, env, t);
      StepDeprecates(a, step, env, u);
      if IsRollbackTarget(a, env, t) && IsRollbackTarget(a, env, u) {
        RollbackTargetsAreOfOneFlip(states, steps, i - 1, env, t, u);
        var k :| DemotedTogether(states, steps, k, i - 1, env, t, u);
        assert DemotedTogether(states, steps, k, i, env, t, u);
      } else {
        var w := if IsRollbackTarget(a, env, t) then u else t;
        var v :| DemotedBy(a, step, env, v, w);
        FlipsIt(a, step, env, v, w);
        assert DemotedTogether(states, steps, i - 1, i, env, t, u);
      }
    }
  }

  lemma NothingToRollBackTo(st: State, env: Env, t: Id)
    requires exists auto :: st == Init(auto)
    ensures !IsRollbackTarget(st, env, t)
  {
  }

  lemma FlipsIt(st: State, step: Step, env: Env, v: Id, t: Id)
    requires DemotedBy(st, step, env, v, t)
    ensures Flips(st, step, v) && v in st.versions && st.versions[v].env == env
  {
  }
}

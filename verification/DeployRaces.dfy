/**
 * Runs of the deploy steps in which a promise does not hold: a failed build is
 * retried, an automatic start goes back, a build is left behind, a finished
 * deploy is armed again and its job undoes a later deploy, and a flip leaves
 * two versions to roll back to.
 */
module DeployRaces {
  import opened Wrappers
  import opened DeploySteps
  import opened DeployGuarantees
  import opened DeployForward
  import opened DeployChain
  import opened DeployLeftovers

  const ENV: Env := "game/dev"
  const FLEET := Fleet(ENV, "eu")
  const PULLED := Report("node", "image", true)
  const FAILED := Report("node", "image", false)

  function Build(created: nat, s: VState): Version {
    Version(ENV, "image", created, s)
  }

  // ---- reaching states ----

  ghost predicate Reached(st: State) {
    exists states, steps :: IsRun(states, steps) && states[|steps|] == st
  }

  lemma StartIsReached(auto: set<Env>)
    ensures Reached(Init(auto))
  {
    assert IsRun([Init(auto)], []);
  }

  lemma ReachedIsOk(st: State)
    requires Reached(st)
    ensures Inv(st)
  {
    hide Inv, IsStep;
    var states, steps :| IsRun(states, steps) && states[|steps|] == st;
    RunKeeps(states, steps, |steps|);
  }

  lemma Then(a: State, step: Step) returns (b: State)
    requires Reached(a) && CanDo(a, step)
    ensures JobsOk(a) && b == Do(a, step) && Reached(b)
  {
    hide Inv, JobsOk, CanDo, Do;
    ReachedIsOk(a);
    JobsHold(a);
    b := Do(a, step);
    var states, steps :| IsRun(states, steps) && states[|steps|] == a;
    var longer, more := states + [b], steps + [step];
    assert IsStep(a, step, b);
    assert forall i :: 0 <= i < |more| ==> IsStep(longer[i], more[i], longer[i + 1]);
    assert IsRun(longer, more) && longer[|more|] == b;
  }

  /** Nothing is running, no call is outstanding but attempts, and nothing has been put in flight. */
  predicate Calm(st: State) {
    && st.jobs == map[] && st.marks == map[] && NoCalls(st)
    && st.armed == [] && st.reports == [] && st.starts == []
  }

  /** No call is outstanding but attempts that have not read the marker. */
  predicate NoCalls(st: State) {
    && st.closing == {} && st.looks == multiset{} && st.picks == multiset{}
    && st.recording == multiset{} && st.promoted == multiset{}
  }

  /** The environment has its fleet, and no attempt is outstanding. */
  lemma WithFleet(auto: set<Env>) returns (st: State)
    ensures Reached(st) && Calm(st) && st.auto == auto && st.kicks == multiset{}
    ensures st.versions == map[] && st.fleets == map[FLEET := None]
  {
    hide Reached;
    StartIsReached(auto);
    var s1 := Then(Init(auto), PutFleet(FLEET, None));
    var s2 := Then(s1, Attempt(ENV, true));
    if ENV in auto {
      var k := Look(ENV, SeenNow(s1, ENV));
      assert !HasNewer(s2, ENV, k.seen.marker);
      st := Then(s2, Choose(k, true));
    } else {
      st := s2;
    }
  }

  lemma WithBuild(auto: set<Env>) returns (st: State)
    ensures Reached(st) && Calm(st) && st.auto == auto && st.kicks == multiset{ENV}
    ensures st.versions == map[1 := Build(7, Registered)] && st.fleets == map[FLEET := None]
  {
    hide Reached;
    var s := WithFleet(auto);
    st := Then(s, Register(1, ENV, "image", 7));
  }

  /** A job of the version waits for one node. */
  lemma ArmsOnly(st: State, id: Id)
    requires JobsOk(st) && id in st.versions && id !in st.jobs
    ensures Arm(st, id, {"node"}) ==
            st.(armed := st.armed + [Armed(id, st.versions[id].image, {"node"}, {}, |st.reports|, None)],
                jobs := st.jobs[id := Job(|st.armed|, st.versions[id].image, {"node"})])
  {
  }

  /** The one node it waits for reports: the job is gone, its completion outstanding. */
  lemma ReportEnds(st: State, id: Id, r: Report)
    requires JobsOk(st) && Candidate(st, r, id) && st.jobs[id].pending == {"node"} && r.node == "node"
    ensures var k := st.jobs[id].serial;
            && k < |st.armed|
            && var b := HandleReport(st, r, Some(id));
               && b == st.(jobs := st.jobs - {id}, closing := st.closing + {k}, armed := b.armed, reports := b.reports)
               && |b.armed| == |st.armed| && b.reports == st.reports + [r]
               && b.armed[k] == st.armed[k].(
                    pulled := if r.ok then st.armed[k].pulled + {"node"} else st.armed[k].pulled,
                    outcome := Some(if r.ok then Activate else Abort))
  {
    assert JobOk(st, id);
    assert {"node"} - {"node"} == {};
  }

  // ---- a failed build is retried ----
  //
  // A manual start is not recorded yet when a sweep finds it without a job, the
  // node fails to pull, and the attempt after the abort reads the marker.

  /** BeginDeploy puts the only build in flight. */
  lemma BeginsOnly(st: State, seen: Option<Seen>)
    requires st.versions == map[1 := Build(7, Registered)] && FLEET in st.fleets
    ensures BeginResult(st, 1) == Began
    ensures BeginCall(st, 1, seen) ==
            st.(versions := map[1 := Build(7, Prepulling)],
                starts := st.starts + [Start(1, ENV, Mark(7, 1), seen)],
                recording := st.recording + multiset{1})
  {
    assert !Busy(st, ENV);
    assert HasFleet(st, ENV);
    assert st.versions[1 := Build(7, Prepulling)] == map[1 := Build(7, Prepulling)];
  }

  lemma ManuallyBegun() returns (st: State)
    ensures Reached(st) && st.auto == {ENV}
    ensures st.fleets == map[FLEET := None] && st.versions == map[1 := Build(7, Prepulling)]
    ensures st.jobs == map[] && st.marks == map[] && st.recording == multiset{1}
    ensures st.armed == [] && st.closing == {}
    ensures st.starts == [Start(1, ENV, Mark(7, 1), None)]
  {
    hide Reached, BeginCall, JobsOk;
    var s := WithBuild({ENV});
    BeginsOnly(s, None);
    assert s.starts + [Start(1, ENV, Mark(7, 1), None)] == [Start(1, ENV, Mark(7, 1), None)];
    st := Then(s, Deploy(1, false, true));
  }

  lemma UnrecordedFailed() returns (st: State)
    ensures Reached(st) && st.auto == {ENV}
    ensures st.fleets == map[FLEET := None] && st.versions == map[1 := Build(7, Prepulling)]
    ensures st.marks == map[] && st.recording == multiset{1}
    ensures st.starts == [Start(1, ENV, Mark(7, 1), None)]
    ensures st.closing == {0} && st.armed != [] && st.armed[0].version == 1 && st.armed[0].outcome == Some(Abort)
  {
    hide Reached, JobsOk, Arm, HandleReport;
    var s := ManuallyBegun();
    ReachedIsOk(s);
    ArmsOnly(s, 1);
    var s1 := Then(s, StartJob(1, {"node"}));
    ReachedIsOk(s1);
    assert Candidate(s1, FAILED, 1);
    ReportEnds(s1, 1, FAILED);
    st := Then(s1, PullReport(FAILED, Some(1)));
  }

  lemma UnrecordedAborted() returns (st: State)
    ensures Reached(st) && st.auto == {ENV}
    ensures st.fleets == map[FLEET := None] && st.versions == map[1 := Build(7, Registered)]
    ensures st.marks == map[] && st.recording == multiset{1}
    ensures st.starts == [Start(1, ENV, Mark(7, 1), None)]
  {
    hide Reached, JobsOk, FinishJob;
    var s := UnrecordedFailed();
    FinishCases(s, 0, true);
    st := Then(s, Finish(0, true));
    assert st.versions == map[1 := Build(7, Registered)];
  }

  lemma OnlyPick(st: State)
    requires st.versions == map[1 := Build(7, Registered)]
    ensures HasNewer(st, ENV, ZERO) && Newest(st, ENV, ZERO) == 1
  {
    assert NewestRegisteredAfter(st, ENV, ZERO, 1);
  }

  lemma PickedAgain() returns (st: State, p: Pick)
    ensures Reached(st) && st.fleets == map[FLEET := None] && st.versions == map[1 := Build(7, Registered)]
    ensures p in st.picks && p.id == 1 && p.env == ENV && st.starts == [Start(1, ENV, Mark(7, 1), None)]
  {
    hide Reached, JobsOk;
    var s := UnrecordedAborted();
    var k := Look(ENV, SeenNow(s, ENV));
    var s1 := Then(s, Attempt(ENV, true));
    OnlyPick(s1);
    p := PickOf(s1, k);
    st := Then(s1, Choose(k, true));
  }

  /** The same build is started by hand and, after it failed, automatically. */
  lemma UnrecordedStartCanBeRetried()
    ensures exists st :: Reached(st) && |st.starts| == 2 && st.starts[0].id == st.starts[1].id
              && st.starts[0].seen.None? && st.starts[1].seen.Some? && !Forward(st.starts)
  {
    hide Reached, BeginCall, BeginResult, JobsOk;
    var s, p := PickedAgain();
    var left := s.(picks := s.picks - multiset{p});
    BeginsOnly(left, Some(p.seen));
    var st := Then(s, Begin(p, true));
    assert st.starts == [Start(1, ENV, Mark(7, 1), None), Start(1, ENV, Mark(7, 1), Some(p.seen))];
    assert !NewerThan(st.starts[1].mark, st.starts[0].mark);
  }

  // ---- an automatic start goes back ----
  //
  // One attempt has picked build 1; build 2 is registered, started, recorded and
  // activated by another; then the first attempt goes on.

  const FIRST := Look(ENV, Seen(ZERO, 0, {}))
  const STALE := Pick(ENV, 1, Seen(ZERO, 0, {}))

  function Rows(first: VState, second: VState): map<Id, Version> {
    map[1 := Build(7, first), 2 := Build(8, second)]
  }

  lemma Looked() returns (st: State)
    ensures Reached(st) && st.auto == {ENV} && st.kicks == multiset{}
    ensures st.fleets == map[FLEET := None] && st.versions == map[1 := Build(7, Registered)]
    ensures st.jobs == map[] && st.marks == map[] && st.recording == multiset{} && st.armed == [] && st.starts == []
    ensures st.closing == {} && st.looks == multiset{FIRST} && st.picks == multiset{} && st.promoted == multiset{}
  {
    hide Reached;
    var s := WithBuild({ENV});
    assert Recording(s) == {};
    st := Then(s, Attempt(ENV, true));
  }

  lemma Picked() returns (st: State)
    ensures Reached(st) && st.auto == {ENV} && st.kicks == multiset{}
    ensures st.fleets == map[FLEET := None] && st.versions == map[1 := Build(7, Registered)]
    ensures st.jobs == map[] && st.marks == map[] && st.recording == multiset{} && st.armed == [] && st.starts == []
    ensures st.closing == {} && st.looks == multiset{} && st.picks == multiset{STALE} && st.promoted == multiset{}
  {
    hide Reached;
    var s := Looked();
    OnlyPick(s);
    st := Then(s, Choose(FIRST, true));
  }

  /** BeginDeploy puts the second build in flight. */
  lemma BeginsSecond(st: State, first: VState, seen: Option<Seen>)
    requires st.versions == Rows(first, Registered) && first != Prepulling && FLEET in st.fleets
    ensures BeginResult(st, 2) == Began
    ensures BeginCall(st, 2, seen) ==
            st.(versions := Rows(first, Prepulling),
                starts := st.starts + [Start(2, ENV, Mark(8, 2), seen)],
                recording := st.recording + multiset{2})
  {
    assert !Busy(st, ENV);
    assert HasFleet(st, ENV);
    assert st.versions[2 := Build(8, Prepulling)] == Rows(first, Prepulling);
  }

  lemma SecondBegun() returns (st: State)
    ensures Reached(st) && st.fleets == map[FLEET := None] && st.versions == Rows(Registered, Prepulling)
    ensures st.jobs == map[] && st.armed == [] && STALE in st.picks && 2 in st.recording && st.marks == map[]
    ensures st.starts == [Start(2, ENV, Mark(8, 2), None)]
  {
    hide Reached, BeginCall, JobsOk;
    var s := Picked();
    var s1 := Then(s, Register(2, ENV, "image", 8));
    assert s1.versions == Rows(Registered, Registered);
    BeginsSecond(s1, Registered, None);
    st := Then(s1, Deploy(2, false, true));
    assert st.starts == [Start(2, ENV, Mark(8, 2), None)];
  }

  lemma SecondRecorded() returns (st: State)
    ensures Reached(st) && st.fleets == map[FLEET := None] && st.versions == Rows(Registered, Prepulling)
    ensures st.jobs == map[] && st.armed == [] && STALE in st.picks
    ensures st.starts == [Start(2, ENV, Mark(8, 2), None)] && st.marks == map[ENV := Mark(8, 2)]
  {
    hide Reached, JobsOk;
    var s := SecondBegun();
    st := Then(s, Record(2));
    assert st.marks == map[ENV := Mark(8, 2)];
  }

  lemma SecondActive() returns (st: State)
    ensures Reached(st) && FLEET in st.fleets && st.versions == Rows(Registered, Active) && STALE in st.picks
    ensures st.starts == [Start(2, ENV, Mark(8, 2), None)]
  {
    hide Reached, JobsOk;
    var s := SecondRecorded();
    var s1 := Then(s, StartJob(2, {}));
    assert s1.armed == [Armed(2, "image", {}, {}, |s.reports|, Some(Activate))];
    FlipIsQuiet(s1.(closing := s1.closing - {0}));
    st := Then(s1, Finish(0, true));
  }

  /** No fleet points to build 1, so the flip of build 2 leaves it registered. */
  lemma FlipIsQuiet(st: State)
    requires st.versions == Rows(Registered, Prepulling) && forall f :: f in st.fleets ==> st.fleets[f] != Some(1)
    ensures Flip(st, 2, {}).versions == Rows(Registered, Active)
  {
  }

  lemma BeginsFirst(st: State, second: VState, seen: Option<Seen>)
    requires st.versions == Rows(Registered, second) || st.versions == Rows(Deprecated, second)
    requires second != Prepulling && FLEET in st.fleets
    ensures BeginResult(st, 1) == Began
    ensures BeginCall(st, 1, seen) ==
            st.(versions := Rows(Prepulling, second),
                starts := st.starts + [Start(1, ENV, Mark(7, 1), seen)],
                recording := st.recording + multiset{1})
  {
    assert !Busy(st, ENV);
    assert HasFleet(st, ENV);
    assert st.versions[1 := Build(7, Prepulling)] == Rows(Prepulling, second);
  }

  /** After build 2 was started, recorded and activated, build 1 is started automatically. */
  lemma StalePickCanGoBack()
    ensures exists st :: Reached(st) && !Forward(st.starts) && st.versions == Rows(Prepulling, Active)
  {
    hide Reached, BeginCall, BeginResult, JobsOk;
    var s := SecondActive();
    var left := s.(picks := s.picks - multiset{STALE});
    BeginsFirst(left, Active, Some(STALE.seen));
    var st := Then(s, Begin(STALE, true));
    assert st.starts == [Start(2, ENV, Mark(8, 2), None), Start(1, ENV, Mark(7, 1), Some(STALE.seen))];
    assert !NewerThan(st.starts[1].mark, st.starts[0].mark);
  }

  // ---- a later build with a smaller id ----

  /** Ids are uuids, so build 1 may be the later one; the attempt starts it, and build 2 is passed over for good. */
  lemma LaterBuildIsStarted()
    ensures exists st :: Reached(st) && st.versions == map[1 := Build(8, Prepulling), 2 := Build(7, Registered)]
              && |st.starts| == 1 && st.starts[0].id == 1 && st.starts[0].seen.Some?
              && Marker(st, ENV) == Mark(8, 1) && !HasNewer(st, ENV, Mark(8, 1))
  {
    hide Reached, JobsOk;
    var s := LaterBegun();
    var st := Then(s, Record(1));
    assert !HasNewer(st, ENV, Mark(8, 1));
  }

  lemma LaterBegun() returns (st: State)
    ensures Reached(st) && st.versions == map[1 := Build(8, Prepulling), 2 := Build(7, Registered)]
    ensures |st.starts| == 1 && st.starts[0].id == 1 && st.starts[0].seen.Some?
    ensures st.marks == map[] && 1 in st.recording
  {
    hide Reached, BeginCall, BeginResult, JobsOk;
    var s, p := LaterPicked();
    var left := s.(picks := s.picks - multiset{p});
    BeginsLater(left, Some(p.seen));
    st := Then(s, Begin(p, true));
    assert st.starts == [Start(1, ENV, Mark(8, 1), Some(p.seen))];
  }

  lemma LaterRegistered() returns (st: State)
    ensures Reached(st) && st.fleets == map[FLEET := None] && st.marks == map[] && st.starts == []
    ensures st.versions == map[1 := Build(8, Registered), 2 := Build(7, Registered)]
    ensures st.auto == {ENV} && st.recording == multiset{}
  {
    hide Reached, JobsOk;
    var s := WithFleet({ENV});
    var s1 := Then(s, Register(2, ENV, "image", 7));
    st := Then(s1, Register(1, ENV, "image", 8));
    assert st.versions == map[1 := Build(8, Registered), 2 := Build(7, Registered)];
  }

  lemma LaterPicked() returns (st: State, p: Pick)
    ensures Reached(st) && st.fleets == map[FLEET := None] && st.marks == map[] && st.starts == []
    ensures st.versions == map[1 := Build(8, Registered), 2 := Build(7, Registered)]
    ensures p in st.picks && p.id == 1 && p.env == ENV && st.recording == multiset{}
  {
    hide Reached, JobsOk;
    var s := LaterRegistered();
    var k := Look(ENV, SeenNow(s, ENV));
    var s1 := Then(s, Attempt(ENV, true));
    assert NewestRegisteredAfter(s1, ENV, ZERO, 1);
    p := PickOf(s1, k);
    st := Then(s1, Choose(k, true));
  }

  lemma BeginsLater(st: State, seen: Option<Seen>)
    requires st.versions == map[1 := Build(8, Registered), 2 := Build(7, Registered)] && FLEET in st.fleets
    ensures BeginResult(st, 1) == Began
    ensures BeginCall(st, 1, seen) ==
            st.(versions := map[1 := Build(8, Prepulling), 2 := Build(7, Registered)],
                starts := st.starts + [Start(1, ENV, Mark(8, 1), seen)],
                recording := st.recording + multiset{1})
  {
    assert !Busy(st, ENV);
    assert HasFleet(st, ENV);
    assert st.versions[1 := Build(8, Prepulling)] == map[1 := Build(8, Prepulling), 2 := Build(7, Registered)];
  }

  // ---- a build is left behind ----

  lemma NobodyAttends(st: State)
    requires st.versions == map[1 := Build(7, Registered)] && FLEET in st.fleets && ENV in st.auto && ENV !in st.kicks
    requires st.marks == map[] && NoCalls(st)
    ensures LeftBehind(st, ENV)
  {
    assert !Busy(st, ENV);
    assert HasFleet(st, ENV);
    assert Unattended(st, ENV, 1);
  }

  /** In some run the step leaves a build behind. */
  ghost predicate LeavesBehind(st: State, step: Step) {
    Reached(st) && JobsOk(st) && CanDo(st, step) && !LeftBehind(st, ENV) && LeftBehind(Do(st, step), ENV)
  }

  /** The attempt after the registration fails before it reads the marker. */
  lemma FailedAttemptCanLeaveBehind()
    ensures exists st :: LeavesBehind(st, Attempt(ENV, false))
  {
    hide Reached, LeftBehind;
    var s := WithBuild({ENV});
    KickedIsAttended(s, ENV);
    var b := Then(s, Attempt(ENV, false));
    NobodyAttends(b);
    assert LeavesBehind(s, Attempt(ENV, false));
  }

  /** It fails in looking for the newest version. */
  lemma FailedChoiceCanLeaveBehind()
    ensures exists st :: LeavesBehind(st, Choose(FIRST, false))
  {
    hide Reached, LeftBehind;
    var s := Looked();
    CalledIsAttended(s, ENV);
    var b := Then(s, Choose(FIRST, false));
    NobodyAttends(b);
    assert LeavesBehind(s, Choose(FIRST, false));
  }

  /** Its BeginDeploy fails in the store. */
  lemma FailedBeginCanLeaveBehind()
    ensures exists st :: LeavesBehind(st, Begin(STALE, false))
  {
    hide Reached, LeftBehind;
    var s := Picked();
    PickAttends(s);
    var b := Then(s, Begin(STALE, false));
    NobodyAttends(b);
    assert LeavesBehind(s, Begin(STALE, false));
  }

  lemma PickAttends(st: State)
    requires st.versions == map[1 := Build(7, Registered)] && STALE in st.picks
    ensures !LeftBehind(st, ENV)
  {
    assert PickCovers(st, ENV, Mark(7, 1), STALE);
  }

  /** The build was registered, and its attempt made, in manual mode. */
  lemma SwitchedModeCanLeaveBehind()
    ensures exists st :: LeavesBehind(st, Switch(ENV, true))
  {
    hide Reached, LeftBehind;
    var s := WithBuild({});
    var s1 := Then(s, Attempt(ENV, true));
    ManualIsAttended(s1);
    var b := Then(s1, Switch(ENV, true));
    NobodyAttends(b);
    assert LeavesBehind(s1, Switch(ENV, true));
  }

  lemma ManualIsAttended(st: State)
    requires ENV !in st.auto
    ensures !LeftBehind(st, ENV)
  {
  }

  /** The build was promoted into an automatic environment, and the BeginDeploy of its deploy fails in the store. */
  lemma FailedPromotionCanLeaveBehind()
    ensures exists st :: LeavesBehind(st, Deploy(1, true, false))
  {
    hide Reached, LeftBehind;
    var s := WithFleet({ENV});
    var s1 := Then(s, Promote(1, ENV, "image", 7));
    PromotionAttends(s1);
    var b := Then(s1, Deploy(1, true, false));
    NobodyAttends(b);
    assert LeavesBehind(s1, Deploy(1, true, false));
  }

  lemma PromotionAttends(st: State)
    requires st.versions == map[1 := Build(7, Registered)] && 1 in st.promoted
    ensures !LeftBehind(st, ENV)
  {
    assert PromotionCovers(st, ENV, Mark(7, 1), 1);
  }

  // ---- a finished deploy is armed again ----
  //
  // The last node has reported and the job is gone, but the flip has not been
  // written: a sweep finds the version prepulling without a job.

  lemma Waiting() returns (st: State)
    ensures Reached(st) && st.fleets == map[FLEET := None] && st.versions == map[1 := Build(7, Prepulling)]
    ensures st.jobs == map[1 := Job(0, "image", {"node"})] && st.closing == {} && st.reports == []
    ensures st.armed == [Armed(1, "image", {"node"}, {}, 0, None)]
  {
    hide Reached, BeginCall, JobsOk, Arm;
    var s := WithBuild({});
    BeginsOnly(s, None);
    var s1 := Then(s, Deploy(1, false, true));
    ReachedIsOk(s1);
    ArmsOnly(s1, 1);
    st := Then(s1, StartJob(1, {"node"}));
    assert st.armed == [Armed(1, "image", {"node"}, {}, 0, None)];
  }

  lemma Pulled() returns (st: State)
    ensures Reached(st) && st.fleets == map[FLEET := None] && st.versions == map[1 := Build(7, Prepulling)]
    ensures st.jobs == map[] && st.closing == {0} && st.reports == [PULLED]
    ensures st.armed == [Armed(1, "image", {"node"}, {"node"}, 0, Some(Activate))]
  {
    hide Reached, JobsOk, HandleReport;
    var s := Waiting();
    ReachedIsOk(s);
    assert Candidate(s, PULLED, 1);
    ReportEnds(s, 1, PULLED);
    st := Then(s, PullReport(PULLED, Some(1)));
    assert s.armed[0].pulled + {"node"} == {"node"};
    assert st.armed == [Armed(1, "image", {"node"}, {"node"}, 0, Some(Activate))];
    assert st.reports == [PULLED];
    assert st.jobs == map[];
  }

  lemma Rearmed() returns (st: State)
    ensures Reached(st) && st.fleets == map[FLEET := Some(1)] && st.versions == map[1 := Build(7, Active)]
    ensures st.jobs == map[1 := Job(1, "image", {"node"})] && st.closing == {}
    ensures |st.armed| == 2 && st.armed[1].version == 1
  {
    hide Reached, JobsOk, Arm;
    var s := Pulled();
    ReachedIsOk(s);
    ArmsOnly(s, 1);
    var s1 := Then(s, StartJob(1, {"node"}));
    assert |s1.armed| == 2 && s1.armed[0] == s.armed[0];
    FlipsOnly(s1.(closing := s1.closing - {0}));
    st := Then(s1, Finish(0, true));
  }

  lemma FlipsOnly(st: State)
    requires st.fleets == map[FLEET := None] && st.versions == map[1 := Build(7, Prepulling)]
    ensures var b := Flip(st, 1, {});
            b.fleets == map[FLEET := Some(1)] && b.versions == map[1 := Build(7, Active)]
  {
  }

  /** The version is active and has a job. */
  lemma FinishedDeployCanBeRearmed()
    ensures exists st :: Reached(st) && LeftOver(st, 1) && st.versions[1].state == Active
  {
    hide Reached;
    var st := Rearmed();
  }

  lemma NextBegun() returns (st: State)
    ensures Reached(st) && st.fleets == map[FLEET := Some(1)] && st.versions == Rows(Active, Prepulling)
    ensures st.jobs == map[1 := Job(1, "image", {"node"})] && st.closing == {}
    ensures |st.armed| == 2 && st.armed[1].version == 1
  {
    hide Reached, BeginCall, JobsOk;
    var s := Rearmed();
    var s1 := Then(s, Register(2, ENV, "image", 8));
    assert s1.versions == Rows(Active, Registered);
    BeginsSecond(s1, Active, None);
    st := Then(s1, Deploy(2, false, true));
  }

  /** The next build has the same image and is put on the same node: two jobs wait for one report. */
  lemma NextArmed() returns (st: State)
    ensures Reached(st) && st.fleets == map[FLEET := Some(1)] && st.versions == Rows(Active, Prepulling)
    ensures st.jobs == map[1 := Job(1, "image", {"node"}), 2 := Job(2, "image", {"node"})]
    ensures st.closing == {} && |st.armed| == 3 && st.armed[1].version == 1 && st.armed[2].version == 2
  {
    hide Reached, JobsOk, Arm;
    var s := NextBegun();
    ReachedIsOk(s);
    ArmsOnly(s, 2);
    st := Then(s, StartJob(2, {"node"}));
    assert st.jobs == map[1 := Job(1, "image", {"node"}), 2 := Job(2, "image", {"node"})];
  }

  lemma TwoJobsCanWaitForOneReport()
    ensures exists st :: Reached(st) && Candidate(st, PULLED, 1) && Candidate(st, PULLED, 2)
  {
    hide Reached;
    var st := NextArmed();
  }

  // ---- a left-over job undoes a later deploy ----
  //
  // Build 2 is activated, build 1 is deployed again by hand, and before it is
  // armed the job left over from its first deploy runs into its timeout.

  lemma NextPulled() returns (st: State)
    ensures Reached(st) && st.fleets == map[FLEET := Some(1)] && st.versions == Rows(Active, Prepulling)
    ensures st.jobs == map[1 := Job(1, "image", {"node"})] && st.closing == {2}
    ensures |st.armed| == 3 && st.armed[2].version == 2 && st.armed[2].outcome == Some(Activate)
  {
    hide Reached, JobsOk, HandleReport;
    var s := NextArmed();
    ReachedIsOk(s);
    assert Candidate(s, PULLED, 2);
    ReportEnds(s, 2, PULLED);
    st := Then(s, PullReport(PULLED, Some(2)));
    assert st.jobs == map[1 := Job(1, "image", {"node"})];
  }

  lemma NextActive() returns (st: State)
    ensures Reached(st) && FLEET in st.fleets && st.versions == Rows(Deprecated, Active)
    ensures st.jobs == map[1 := Job(1, "image", {"node"})] && st.closing == {}
  {
    hide Reached, JobsOk, Flip;
    var s := NextPulled();
    var left := s.(closing := s.closing - {2});
    assert left.closing == {};
    FlipsSecond(left);
    FlipFrame(left, 2, {});
    FinishCases(s, 2, true);
    st := Then(s, Finish(2, true));
  }

  lemma FlipsSecond(st: State)
    requires st.fleets == map[FLEET := Some(1)] && st.versions == Rows(Active, Prepulling)
    ensures var b := Flip(st, 2, {});
            b.versions == Rows(Deprecated, Active) && FLEET in b.fleets
  {
  }

  lemma BegunAgainByHand() returns (st: State)
    ensures Reached(st) && st.versions == Rows(Prepulling, Active) && 1 in st.recording
    ensures st.jobs == map[1 := Job(1, "image", {"node"})] && st.closing == {}
  {
    hide Reached, JobsOk, BeginCall;
    var s := NextActive();
    BeginsFirst(s, Active, None);
    st := Then(s, Deploy(1, false, true));
  }

  lemma TimedOut(st: State)
    requires JobsOk(st) && 1 in st.jobs
    ensures var k := st.jobs[1].serial;
            && k < |st.armed|
            && var b := Remove(st, 1, Abort);
               && b == st.(jobs := b.jobs, armed := b.armed, closing := st.closing + {k})
               && k < |b.armed| && b.armed[k].version == 1 && b.armed[k].outcome == Some(Abort)
  {
    assert JobOk(st, 1);
  }

  lemma TimedOutAgain(a: State) returns (st: State)
    requires Reached(a) && a.jobs == map[1 := Job(1, "image", {"node"})] && a.closing == {}
    ensures Reached(st) && st.versions == a.versions && st.starts == a.starts && st.closing == {1}
    ensures |st.armed| > 1 && st.armed[1].version == 1 && st.armed[1].outcome == Some(Abort)
  {
    hide Reached, JobsOk, Remove;
    ReachedIsOk(a);
    TimedOut(a);
    st := Then(a, Expire(1));
  }

  lemma AbortReturns(st: State)
    requires st.versions == Rows(Prepulling, Active)
    ensures SetState(st, 1, Registered).versions == Rows(Registered, Active)
  {
    assert Rows(Prepulling, Active)[1 := Build(7, Registered)] == Rows(Registered, Active);
  }

  /** Between BeginDeploy and startJob the version has only the job of its first deploy, which aborts the second. */
  lemma LeftOverJobCanAbort()
    ensures exists a, b: State :: Reached(a) && a.versions == Rows(Prepulling, Active) && 1 in a.recording
              && Reached(b) && b.versions == Rows(Registered, Active) && b.starts == a.starts
  {
    hide Reached, JobsOk, SetState, FinishJob;
    var a := BegunAgainByHand();
    var s := TimedOutAgain(a);
    FinishCases(s, 1, true);
    FinishFrame(s, 1, true);
    AbortReturns(s.(closing := s.closing - {1}));
    var b := Then(s, Finish(1, true));
  }

  // ---- two versions to roll back to ----
  //
  // Build 1 is active; the fleet is pointed to build 2 while that is registered;
  // then build 3 is deployed.

  lemma FirstActive() returns (st: State)
    ensures Reached(st) && st.fleets == map[FLEET := Some(1)] && st.versions == map[1 := Build(7, Active)]
    ensures st.jobs == map[]
  {
    hide Reached, BeginCall, JobsOk;
    var s := WithBuild({});
    BeginsOnly(s, None);
    var s1 := Then(s, Deploy(1, false, true));
    var s2 := Then(s1, StartJob(1, {}));
    assert s2.armed == [Armed(1, "image", {}, {}, 0, Some(Activate))];
    FlipsOnly(s2.(closing := s2.closing - {0}));
    st := Then(s2, Finish(0, true));
  }

  function Three(first: VState, second: VState, third: VState): map<Id, Version> {
    map[1 := Build(7, first), 2 := Build(8, second), 3 := Build(9, third)]
  }

  lemma Pinned() returns (st: State)
    ensures Reached(st) && st.fleets == map[FLEET := Some(2)] && st.versions == Rows(Active, Registered)
    ensures st.jobs == map[]
  {
    hide Reached, JobsOk;
    var s := FirstActive();
    var s1 := Then(s, Register(2, ENV, "image", 8));
    assert s1.versions == Rows(Active, Registered);
    st := Then(s1, PutFleet(FLEET, Some(2)));
  }

  lemma ThirdBegun() returns (st: State)
    ensures Reached(st) && st.fleets == map[FLEET := Some(2)] && st.versions == Three(Active, Registered, Prepulling)
    ensures st.jobs == map[]
  {
    hide Reached, JobsOk, BeginCall;
    var s := Pinned();
    var s1 := Then(s, Register(3, ENV, "image", 9));
    assert s1.versions == Three(Active, Registered, Registered);
    BeginsThird(s1);
    st := Then(s1, Deploy(3, false, true));
  }

  lemma BeginsThird(st: State)
    requires st.versions == Three(Active, Registered, Registered) && FLEET in st.fleets
    ensures BeginCall(st, 3, None) ==
            st.(versions := Three(Active, Registered, Prepulling),
                starts := st.starts + [Start(3, ENV, Mark(9, 3), None)],
                recording := st.recording + multiset{3})
  {
    assert !Busy(st, ENV);
    assert HasFleet(st, ENV);
    assert st.versions[3 := Build(9, Prepulling)] == Three(Active, Registered, Prepulling);
  }

  lemma FlipsThird(st: State)
    requires st.fleets == map[FLEET := Some(2)] && st.versions == Three(Active, Registered, Prepulling)
    ensures Flip(st, 3, {}).versions == Three(Deprecated, Deprecated, Active)
  {
    assert st.fleets[FLEET] == Some(2);
    assert Demoted(st, 3, 1) && Demoted(st, 3, 2);
  }

  lemma ThirdArmed() returns (st: State, k: nat)
    ensures Reached(st) && st.fleets == map[FLEET := Some(2)] && st.versions == Three(Active, Registered, Prepulling)
    ensures k in st.closing && k < |st.armed| && st.armed[k].version == 3 && st.armed[k].outcome == Some(Activate)
  {
    hide Reached, JobsOk;
    var s := ThirdBegun();
    k := |s.armed|;
    st := Then(s, StartJob(3, {}));
    assert st.armed[k] == Armed(3, "image", {}, {}, |s.reports|, Some(Activate));
  }

  lemma TwoRollbackTargetsCanBeLeft()
    ensures exists st, t, u :: Reached(st) && t != u && IsRollbackTarget(st, ENV, t) && IsRollbackTarget(st, ENV, u)
  {
    hide Reached, JobsOk;
    var s, k := ThirdArmed();
    FlipsThird(s.(closing := s.closing - {k}));
    var st := Then(s, Finish(k, true));
    assert IsRollbackTarget(st, ENV, 1) && IsRollbackTarget(st, ENV, 2);
  }
}

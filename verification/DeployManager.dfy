/**
 * The deploy manager and the store transactions it calls, as objects. Every
 * method is a sequence of deploy steps; a completion runs the automatic chain
 * synchronously, and the chain ends because each start leaves fewer registered
 * versions newer than the marker.
 */
module DeployManager {
  import opened Wrappers
  import opened DeploySteps
  import opened DeployGuarantees
  import opened DeployForward
  import opened DeployChain

  // ---- sequences of steps ----

  ghost predicate IsPath(states: seq<State>, steps: seq<Step>) {
    |states| == |steps| + 1 && forall i :: 0 <= i < |steps| ==> IsStep(states[i], steps[i], states[i + 1])
  }

  ghost predicate Leads(a: State, b: State) {
    exists states, steps :: IsPath(states, steps) && states[0] == a && states[|steps|] == b
  }

  lemma LeadsToItself(a: State)
    ensures Leads(a, a)
  {
    assert IsPath([a], []);
  }

  lemma LeadsOn(a: State, step: Step)
    requires JobsOk(a) && CanDo(a, step)
    ensures Leads(a, Do(a, step))
  {
    hide JobsOk, CanDo, Do;
    var states, steps := [a, Do(a, step)], [step];
    assert IsStep(a, step, Do(a, step));
    assert IsPath(states, steps) && states[0] == a && states[|steps|] == Do(a, step);
  }

  lemma Joined(xs: seq<State>, us: seq<Step>, ys: seq<State>, vs: seq<Step>)
    requires IsPath(xs, us) && IsPath(ys, vs) && xs[|us|] == ys[0]
    ensures IsPath(xs[..|us|] + ys, us + vs)
  {
    hide IsStep;
    var states, steps := xs[..|us|] + ys, us + vs;
    forall i | 0 <= i < |steps| ensures IsStep(states[i], steps[i], states[i + 1]) {
      if i < |us| {
        assert states[i] == xs[i] && states[i + 1] == xs[i + 1] && steps[i] == us[i];
      } else {
        assert states[i] == ys[i - |us|] && states[i + 1] == ys[i - |us| + 1] && steps[i] == vs[i - |us|];
      }
    }
  }

  lemma LeadsTwice(a: State, b: State, c: State)
    requires Leads(a, b) && Leads(b, c)
    ensures Leads(a, c)
  {
    hide IsStep;
    var xs, us :| IsPath(xs, us) && xs[0] == a && xs[|us|] == b;
    var ys, vs :| IsPath(ys, vs) && ys[0] == b && ys[|vs|] == c;
    Joined(xs, us, ys, vs);
    var states, steps := xs[..|us|] + ys, us + vs;
    assert states[0] == a && states[|steps|] == c;
  }

  function Demote(versions: map<Id, Version>, demoted: set<Id>): map<Id, Version> {
    map u | u in versions :: if u in demoted then versions[u].(state := Deprecated) else versions[u]
  }

  /** Deprecated versions outside the window. */
  function DisableOlder(versions: map<Id, Version>, env: Env, keep: set<Id>): map<Id, Version> {
    map u | u in versions ::
      if versions[u].env == env && versions[u].state == Deprecated && u !in keep then versions[u].(state := Disabled)
      else versions[u]
  }

  /** What runs in the environment today: the active version, and what the fleets point to while it is registered. */
  function DemotedRows(versions: map<Id, Version>, fleets: map<Fleet, Option<Id>>, id: Id): set<Id>
    requires id in versions
  {
    var env := versions[id].env;
    set u | u in versions && u != id && versions[u].env == env
      && (versions[u].state == Active
          || (versions[u].state == Registered && exists f :: f in fleets && f.env == env && fleets[f] == Some(u)))
  }

  function Hit(fleets: map<Fleet, Option<Id>>, env: Env, regions: set<string>): set<Fleet> {
    set f | f in fleets && f.env == env && (regions == {} || f.region in regions)
  }

  function Repoint(fleets: map<Fleet, Option<Id>>, hit: set<Fleet>, id: Id): map<Fleet, Option<Id>> {
    map f | f in fleets :: if f in hit then Some(id) else fleets[f]
  }

  function FlippedRows(versions: map<Id, Version>, env: Env, demoted: set<Id>, id: Id): map<Id, Version>
    requires id in versions
  {
    var rows := DisableOlder(Demote(versions, demoted), env, demoted + {id});
    rows[id := rows[id].(state := Active)]
  }

  lemma DemotedRowsAre(st: State, id: Id, u: Id)
    requires id in st.versions && u in st.versions
    ensures u in DemotedRows(st.versions, st.fleets, id) <==> Demoted(st, id, u)
  {
  }

  /** The updates of the transaction are the flip. */
  lemma FlipRows(st: State, id: Id, regions: set<string>)
    requires id in st.versions
    ensures var env := st.versions[id].env;
            Flip(st, id, regions) == st.(
              versions := FlippedRows(st.versions, env, DemotedRows(st.versions, st.fleets, id), id),
              fleets := Repoint(st.fleets, Hit(st.fleets, env, regions), id))
  {
    hide Demoted, DemotedRows;
    var env := st.versions[id].env;
    var flipped := Flip(st, id, regions);
    var rows := FlippedRows(st.versions, env, DemotedRows(st.versions, st.fleets, id), id);
    forall u | u in st.versions ensures flipped.versions[u] == rows[u] {
      DemotedIsThere(st, id, u);
      DemotedRowsAre(st, id, u);
    }
    assert flipped.versions == rows;
    assert flipped.fleets == Repoint(st.fleets, Hit(st.fleets, env, regions), id);
  }

  lemma HitIsThere(fleets: map<Fleet, Option<Id>>, env: Env, regions: set<string>)
    ensures Hit(fleets, env, regions) != {} <==>
            exists f :: f in fleets && f.env == env && (regions == {} || f.region in regions)
  {
    if f :| f in fleets && f.env == env && (regions == {} || f.region in regions) {
      assert f in Hit(fleets, env, regions);
    }
  }

  lemma HitIsRepointed(st: State, id: Id, regions: set<string>)
    requires id in st.versions
    ensures Hit(st.fleets, st.versions[id].env, regions) == {} <==>
            forall f :: f in st.fleets ==> !Repointed(st, id, regions, f)
  {
    if f :| f in st.fleets && Repointed(st, id, regions, f) {
      assert f in Hit(st.fleets, st.versions[id].env, regions);
    } else if f :| f in Hit(st.fleets, st.versions[id].env, regions) {
      assert Repointed(st, id, regions, f);
    }
  }

  /**
   * What the fleet and the database answer during one call: the nodes to warm, whether a completion is
   * written, whether an attempt finds its environment and its newest version, and whether a BeginDeploy gets
   * through. An attempt is told apart by the marker it reads.
   */
  datatype World = World(
    targets: Id -> Option<set<NodeId>>,
    writes: Id -> bool,
    looks: (Env, Mark) -> bool,
    finds: (Env, Mark) -> bool,
    begins: Id -> bool)

  class Store {
    var auto: set<Env>
    var versions: map<Id, Version>
    var fleets: map<Fleet, Option<Id>>
    ghost var starts: seq<Start>

    ghost predicate Shows(st: State)
      reads this
    {
      st.auto == auto && st.versions == versions && st.fleets == fleets && st.starts == starts
    }

    constructor (auto: set<Env>)
      ensures Shows(Init(auto))
    {
      this.auto, versions, fleets, starts := auto, map[], map[], [];
    }

    method SwitchMode(ghost st: State, env: Env, on: bool)
      requires Shows(st)
      modifies this`auto
      ensures Shows(DeploySteps.SwitchMode(st, env, on))
      ensures forall e :: e in auto <==> if e == env then on else e in old(auto)
    {
      auto := if on then auto + {env} else auto - {env};
    }

    method BeginDeploy(ghost st: State, id: Id, ghost seen: Option<Seen>) returns (res: Begun)
      requires Shows(st)
      modifies this`versions, this`starts
      ensures id in st.versions ==> res == BeginResult(st, id) && Shows(DeploySteps.BeginDeploy(st, id, seen))
      ensures id !in st.versions ==> res == NotFound && Shows(st)
      ensures id in old(versions) ==>
                var v := old(versions)[id];
                var busy := exists u :: u in old(versions) && old(versions)[u].env == v.env
                                        && old(versions)[u].state == Prepulling;
                var runs := exists f :: f in fleets && f.env == v.env;
                && (res == AlreadyActive <==> v.state == Active)
                && (res == AlreadyPrepulling <==> v.state == Prepulling)
                && (res == VersionState <==> v.state == Disabled)
                && (res == DeployInProgress <==> v.state in {Registered, Deprecated} && busy)
                && (res == NoFleet <==> v.state in {Registered, Deprecated} && !busy && !runs)
                && (res == Began <==> v.state in {Registered, Deprecated} && !busy && runs)
      ensures versions == if res == Began then old(versions)[id := old(versions)[id].(state := Prepulling)]
                          else old(versions)
    {
      if id !in versions {
        return NotFound;
      }
      var v := versions[id];
      match v.state {
        case Active => return AlreadyActive;
        case Prepulling => return AlreadyPrepulling;
        case Disabled => return VersionState;
        case _ =>
      }
      if exists u :: u in versions && versions[u].env == v.env && versions[u].state == Prepulling {
        assert Busy(st, v.env);
        return DeployInProgress;
      }
      if !exists f :: f in fleets && f.env == v.env {
        return NoFleet;
      }
      versions := versions[id := v.(state := Prepulling)];
      starts := starts + [Start(id, v.env, Mark(v.created, id), seen)];
      res := Began;
    }

    /** The flip of a deploy or a rollback; refused from another state, or if no fleet is in the regions asked for. */
    method ActivateVersion(ghost st: State, id: Id, from: VState, regions: set<string>) returns (ok: bool)
      requires Shows(st) && id in versions
      modifies this`versions, this`fleets
      ensures ok <==> CanFlip(st, id, from, regions)
      ensures ok <==>
                && old(versions)[id].state == from
                && (regions == {}
                    || exists f :: f in old(fleets) && f.env == old(versions)[id].env && f.region in regions)
      ensures Shows(if ok then Flip(st, id, regions) else st)
    {
      hide Flip, Repointed, DemotedRows, FlippedRows, Hit, Repoint;
      FlipRows(st, id, regions);
      HitIsRepointed(st, id, regions);
      HitIsThere(fleets, versions[id].env, regions);
      if versions[id].state != from {
        return false;
      }
      var env := versions[id].env;
      var demoted := DemotedRows(versions, fleets, id);
      var rows := FlippedRows(versions, env, demoted, id);
      var hit := Hit(fleets, env, regions);
      if regions != {} && hit == {} {
        return false;                                  // rolled back: the version states stay as they were
      }
      versions, fleets := rows, Repoint(fleets, hit, id);
      ok := true;
    }

    method AbortDeploy(ghost st: State, id: Id)
      requires Shows(st) && id in versions
      modifies this`versions
      ensures Shows(if st.versions[id].state == Prepulling then SetState(st, id, Registered) else st)
      ensures versions == if old(versions)[id].state == Prepulling
                          then old(versions)[id := old(versions)[id].(state := Registered)] else old(versions)
    {
      if versions[id].state == Prepulling {
        versions := versions[id := versions[id].(state := Registered)];
      }
    }

    /** The row of a promoted version: a new one, or the registered one that is there. */
    method PromoteVersion(ghost st: State, id: Id, v: Version)
      requires Shows(st) && (id in versions ==> versions[id] == v)
      modifies this`versions
      ensures Shows(st.(versions := st.versions[id := v])) && versions == old(versions)[id := v]
    {
      if id !in versions {
        versions := versions[id := v];
      } else {
        assert versions[id := v] == versions;
      }
    }

    method NewestRegisteredAfter(ghost st: State, env: Env, mark: Mark) returns (target: Option<Id>)
      requires Shows(st)
      ensures target.None? <==> !HasNewer(st, env, mark)
      ensures target.Some? ==> target.value == Newest(st, env, mark)
      ensures target.None? ==>
                forall u :: u in versions && versions[u].env == env && versions[u].state == Registered ==>
                  versions[u].created < mark.created || (versions[u].created == mark.created && u <= mark.id)
      ensures target.Some? ==>
                var id := target.value;
                && id in versions && versions[id].env == env && versions[id].state == Registered
                && (mark.created < versions[id].created || (mark.created == versions[id].created && mark.id < id))
                && forall u :: u in versions && u != id && versions[u].env == env && versions[u].state == Registered ==>
                     || versions[u].created < versions[id].created
                     || (versions[u].created == versions[id].created && u < id)
    {
      NewestInTimes(st, env, mark);
      assert forall u :: Beyond(st, env, mark.created, mark.id, u) <==>
        u in versions && versions[u].env == env && versions[u].state == Registered
        && (mark.created < versions[u].created || (mark.created == versions[u].created && mark.id < u));
      var after := map id | id in versions && versions[id].env == env && versions[id].state == Registered
        && NewerThan(Mark(versions[id].created, id), mark) :: Mark(versions[id].created, id);
      assert forall id :: id in after <==> RegisteredAfter(st, env, mark, id);
      if after == map[] {
        return None;
      }
      var any :| any in after;
      NewestExists(st, env, mark, any);
      ghost var newest := Newest(st, env, mark);
      assert IsNewest(after, newest);
      var id :| id in after && IsNewest(after, id);
      NewestIsUnique(after, id, newest);
      target := Some(id);
    }
  }

  predicate IsNewest(marks: map<Id, Mark>, id: Id) {
    id in marks && forall u :: u in marks && u != id ==> NewerThan(marks[id], marks[u])
  }

  lemma NewestIsUnique(marks: map<Id, Mark>, a: Id, b: Id)
    requires IsNewest(marks, a) && IsNewest(marks, b)
    ensures a == b
  {
  }

  ghost function WaitingIn(st: State, env: Env): set<Id> {
    set id | id in st.versions && RegisteredAfter(st, env, Marker(st, env), id)
  }

  // ---- what a call makes of the state ----

  /** startJob: nothing on a failed query, a job when there are nodes to wait for, else the flip at once. */
  ghost function Launched(w: World, st: State, id: Id): State
    requires Inv(st) && id in st.versions
    decreases WaitingIn(st, st.versions[id].env), 3
  {
    var targets := w.targets(id);
    if targets.None? then st
    else
      StartJobKeeps(st, id, targets.value);
      var b := Arm(st, id, targets.value);
      if targets.value != {} then b
      else
        ArmedIsClosing(st, id);
        Activated(w, b, |st.armed|)
  }

  /** activate: the flip and the chain; a refused flip ends there. */
  ghost function Activated(w: World, st: State, k: nat): State
    requires Inv(st) && k in st.closing && k < |st.armed| && st.armed[k].version in st.versions
    requires st.armed[k].outcome == Some(Activate)
    decreases WaitingIn(st, st.versions[st.armed[k].version].env), 2
  {
    var id := st.armed[k].version;
    FinishKeeps(st, k, w.writes(id));
    FinishLeavesFewer(st, k, w.writes(id));
    var b := FinishJob(st, k, w.writes(id));
    if w.writes(id) && st.versions[id].state == Prepulling then Chain(w, b, st.versions[id].env) else b
  }

  /** abort: back to registered, and the chain in any case. */
  ghost function Aborted(w: World, st: State, k: nat): State
    requires Inv(st) && k in st.closing && k < |st.armed| && st.armed[k].version in st.versions
  {
    FinishKeeps(st, k, w.writes(st.armed[k].version));
    Chain(w, FinishJob(st, k, w.writes(st.armed[k].version)), st.versions[st.armed[k].version].env)
  }

  /**
   * TryAutoDeploy: an attempt uses up its kick; it begins, records and launches the newest waiting
   * version, or nothing.
   */
  ghost function Chain(w: World, st: State, env: Env): State
    requires Inv(st)
    decreases WaitingIn(st, env), 1
  {
    var left := st.(kicks := st.kicks - multiset{env});
    if !Chooses(w, st, env) then
      NoPickSteps(w, st, env);
      left
    else
      var id := Target(st, env);
      PickSteps(st, env, w.begins(id));
      if !(w.begins(id) && BeginResult(st, id) == Began) then left else Launched(w, PickBegun(st, env), id)
  }

  /** An attempt gets as far as a pick. */
  ghost predicate Chooses(w: World, st: State, env: Env) {
    var marker := Marker(st, env);
    w.looks(env, marker) && env in st.auto && w.finds(env, marker) && HasNewer(st, env, marker)
  }

  ghost function Target(st: State, env: Env): Id
    requires HasNewer(st, env, Marker(st, env))
  {
    Newest(st, env, Marker(st, env))
  }

  ghost function LookNow(st: State, env: Env): Look {
    Look(env, SeenNow(st, env))
  }

  ghost function PickNow(st: State, env: Env): Pick
    requires HasNewer(st, env, Marker(st, env))
  {
    Pick(env, Target(st, env), SeenNow(st, env))
  }

  /** The attempt has made its pick. */
  ghost function Picked(st: State, env: Env): State
    requires HasNewer(st, env, Marker(st, env))
  {
    st.(kicks := st.kicks - multiset{env}, picks := st.picks + multiset{PickNow(st, env)})
  }

  /** The newest waiting version after its BeginDeploy and recordAttempt. */
  ghost function PickBegun(st: State, env: Env): State
    requires HasNewer(st, env, Marker(st, env))
  {
    var begun := BeginDeploy(st.(kicks := st.kicks - multiset{env}), Target(st, env), Some(SeenNow(st, env)));
    BeginTouches(st.(kicks := st.kicks - multiset{env}), Target(st, env), Some(SeenNow(st, env)));
    RecordAttempt(begun, Target(st, env))
  }

  /** HandlePullReport once the job to credit is chosen. */
  ghost function Reported(w: World, st: State, r: Report, credit: Option<Id>): State
    requires Inv(st) && (if credit.Some? then Candidate(st, r, credit.value) else Unclaimed(st, r))
  {
    ReportSteps(st, r, credit);
    var b := HandleReport(st, r, credit);
    if credit.None? || (r.ok && st.jobs[credit.value].pending - {r.node} != {}) then b
    else if r.ok then Activated(w, b, st.jobs[credit.value].serial)
    else Aborted(w, b, st.jobs[credit.value].serial)
  }

  ghost function Expired(w: World, st: State, id: Id): State
    requires Inv(st)
  {
    if id !in st.jobs then st
    else
      ExpireSteps(st, id);
      Aborted(w, Remove(st, id, Abort), st.jobs[id].serial)
  }

  /** Deploy: BeginDeploy, the record, and the fan-out of what began or has lost its job. */
  ghost function Deployed(w: World, st: State, id: Id): State
    requires Inv(st)
  {
    if id !in st.versions || !w.begins(id) || !Begins(st, id) then st
    else
      ManualSteps(st, st, id, false);
      var b := RecordStep(BeginCall(st, id, None), id);
      if BeginResult(st, id) == Began || (BeginResult(st, id) == AlreadyPrepulling && id !in st.jobs)
      then Launched(w, b, id) else b
  }

  /** A promotion: the row, and the deploy of it. */
  ghost function Promoted(w: World, st: State, id: Id, v: Version): State
    requires Inv(st) && (id in st.versions ==> st.versions[id] == v) && v.state == Registered
  {
    PromotionSteps(st, id, v);
    Deployed(w, TakeUp(PromoteStep(st, id, v), id, true), id)
  }

  lemma ArmedIsClosing(st: State, id: Id)
    requires id in st.versions && (id in st.jobs ==> st.jobs[id].serial < |st.armed|)
    ensures var b := Arm(st, id, {});
            && |st.armed| in b.closing && |st.armed| < |b.armed| && b.armed[|st.armed|].version == id
            && b.armed[|st.armed|].outcome == Some(Activate)
            && b.versions == st.versions && WaitingIn(b, st.versions[id].env) == WaitingIn(st, st.versions[id].env)
  {
  }

  /** However far a call goes, it goes in deploy steps; it keeps the rows and leaves no write or call outstanding. */
  ghost predicate GoesTo(a: State, b: State) {
    && Inv(b) && Leads(a, b) && a.versions.Keys <= b.versions.Keys
    && b.kicks <= a.kicks && b.closing <= a.closing && b.looks <= a.looks && b.picks <= a.picks
    && b.recording <= a.recording && b.promoted <= a.promoted
  }

  lemma GoesTwice(a: State, b: State, c: State)
    requires GoesTo(a, b) && GoesTo(b, c)
    ensures GoesTo(a, c)
  {
    hide Inv, Leads;
    LeadsTwice(a, b, c);
  }

  lemma LaunchedGoesTo(w: World, st: State, id: Id)
    requires Inv(st) && id in st.versions
    ensures GoesTo(st, Launched(w, st, id))
    decreases WaitingIn(st, st.versions[id].env), 3
  {
    hide Inv, Leads, Do, CanDo, WaitingIn, Arm;
    LeadsToItself(st);
    if w.targets(id).Some? {
      StartJobSteps(st, id, w.targets(id).value);
      if w.targets(id).value == {} {
        ArmedIsClosing(st, id);
        ActivatedGoesTo(w, Arm(st, id, {}), |st.armed|);
        LeadsTwice(st, Arm(st, id, {}), Launched(w, st, id));
      }
    }
  }

  lemma ActivatedGoesTo(w: World, st: State, k: nat)
    requires Inv(st) && k in st.closing && k < |st.armed| && st.armed[k].version in st.versions
    requires st.armed[k].outcome == Some(Activate)
    ensures GoesTo(st, Activated(w, st, k)) && k !in Activated(w, st, k).closing
    decreases WaitingIn(st, st.versions[st.armed[k].version].env), 2
  {
    hide Inv, Leads, Do, CanDo, WaitingIn, FinishJob, Chain;
    var id := st.armed[k].version;
    FinishSteps(st, k, w.writes(id));
    FinishLeavesFewer(st, k, w.writes(id));
    if w.writes(id) && st.versions[id].state == Prepulling {
      var b := FinishJob(st, k, true);
      ChainGoesTo(w, b, st.versions[id].env);
      LeadsTwice(st, b, Activated(w, st, k));
    }
  }

  lemma AbortedGoesTo(w: World, st: State, k: nat)
    requires Inv(st) && k in st.closing && k < |st.armed| && st.armed[k].version in st.versions
    requires st.armed[k].outcome == Some(Abort)
    ensures GoesTo(st, Aborted(w, st, k)) && k !in Aborted(w, st, k).closing
  {
    hide Inv, Leads, Do, CanDo, WaitingIn, FinishJob, Chain;
    var id := st.armed[k].version;
    FinishSteps(st, k, w.writes(id));
    var b := FinishJob(st, k, w.writes(id));
    ChainGoesTo(w, b, st.versions[id].env);
    LeadsTwice(st, b, Aborted(w, st, k));
  }

  lemma ChainGoesTo(w: World, st: State, env: Env)
    requires Inv(st)
    ensures GoesTo(st, Chain(w, st, env)) && Chain(w, st, env).kicks <= st.kicks - multiset{env}
    decreases WaitingIn(st, env), 1
  {
    hide Inv, Leads, Do, CanDo, WaitingIn, BeginResult, Launched, HasNewer, PickBegun, Picked, BeginStep, RecordStep;
    if !Chooses(w, st, env) {
      NoPickSteps(w, st, env);
    } else {
      var id := Target(st, env);
      PickSteps(st, env, w.begins(id));
      if w.begins(id) && BeginResult(st, id) == Began {
        LaunchedGoesTo(w, PickBegun(st, env), id);
        GoesTwice(st, PickBegun(st, env), Launched(w, PickBegun(st, env), id));
      }
    }
  }

  lemma ReportedGoesTo(w: World, st: State, r: Report, credit: Option<Id>)
    requires Inv(st) && (if credit.Some? then Candidate(st, r, credit.value) else Unclaimed(st, r))
    ensures GoesTo(st, Reported(w, st, r, credit))
  {
    hide Inv, Leads, HandleReport, Activated, Aborted, JobsOk;
    JobsHold(st);
    ReportSteps(st, r, credit);
    ReportKeepsStore(st, r, credit);
    var b := HandleReport(st, r, credit);
    if credit.Some? && (!r.ok || st.jobs[credit.value].pending - {r.node} == {}) {
      var k := st.jobs[credit.value].serial;
      if r.ok {
        ActivatedGoesTo(w, b, k);
      } else {
        AbortedGoesTo(w, b, k);
      }
      LeadsTwice(st, b, Reported(w, st, r, credit));
    }
  }

  lemma ExpiredGoesTo(w: World, st: State, id: Id)
    requires Inv(st)
    ensures GoesTo(st, Expired(w, st, id))
  {
    hide Inv, Leads, Aborted;
    LeadsToItself(st);
    if id in st.jobs {
      ExpireSteps(st, id);
      var b := Remove(st, id, Abort);
      AbortedGoesTo(w, b, st.jobs[id].serial);
      LeadsTwice(st, b, Expired(w, st, id));
    }
  }

  lemma DeployedGoesTo(w: World, st: State, id: Id)
    requires Inv(st)
    ensures GoesTo(st, Deployed(w, st, id))
  {
    CallGoesTo(w, st, st, id, false);
  }

  /** The deploy of a promotion begins where the promotion left the state, and is no longer outstanding. */
  lemma CallGoesTo(w: World, a: State, left: State, id: Id, promotion: bool)
    requires Inv(a) && Inv(left) && left == TakeUp(a, id, promotion) && (promotion ==> CanDo(a, Deploy(id, true, true)))
    ensures GoesTo(a, Deployed(w, left, id)) && Deployed(w, left, id).promoted <= left.promoted
  {
    hide Inv, Leads, Launched, RecordStep, BeginCall, BeginResult, BeginDeploy, RecordAttempt, Do;
    LeadsToItself(a);
    if id in left.versions && w.begins(id) && Begins(left, id) {
      ManualSteps(a, left, id, promotion);
      var b := RecordStep(BeginCall(left, id, None), id);
      LaunchedGoesTo(w, b, id);
      GoesTwice(a, b, Launched(w, b, id));
    } else if promotion {
      PromotionDropped(a, id);
    }
  }

  /** A promotion goes in deploy steps, and its deploy is not left outstanding. */
  lemma PromotedGoesTo(w: World, st: State, id: Id, v: Version)
    requires Inv(st) && (id in st.versions ==> st.versions[id] == v) && v.state == Registered
    ensures GoesTo(st, Promoted(w, st, id, v))
  {
    hide Inv, Leads, Deployed, PromoteStep, Do;
    PromotionSteps(st, id, v);
    var a := PromoteStep(st, id, v);
    CallGoesTo(w, a, TakeUp(a, id, true), id, true);
    LeadsTwice(st, a, Promoted(w, st, id, v));
  }

  /**
   * An attempt that gets through, in an automatic environment with a fleet and nothing in flight, begins the
   * version created last, or among those of one time the one with the greatest id, if that is beyond the marker;
   * and the marker is then that version's.
   */
  lemma ChainStartsNewest(w: World, st: State, env: Env)
    requires Inv(st) && Answers(w) && env in st.auto && HasFleet(st, env) && !Busy(st, env)
    requires exists u :: Beyond(st, env, Marker(st, env).created, Marker(st, env).id, u)
    ensures exists id: Id, d: State ::
              && Beyond(st, env, Marker(st, env).created, Marker(st, env).id, id) && Latest(st, env, id)
              && Inv(d) && id in d.versions && d.versions[id].state == Prepulling
              && Marker(d, env) == Mark(st.versions[id].created, id)
              && Chain(w, st, env) == Launched(w, d, id)
  {
    hide Inv, Launched, Chain, HasNewer, HasFleet, Busy;
    NewestInTimes(st, env, Marker(st, env));
    ChainIs(w, st, env);
    var id := Target(st, env);
    AnswerIsBegan(st, id);
    PickIsBegun(st, env);
  }

  /**
   * An attempt that fails on the way, or in a manual environment, or with nothing beyond the marker, or with a
   * deploy in flight or no fleet, uses up its kick and does nothing else.
   */
  lemma ChainRests(w: World, st: State, env: Env)
    requires Inv(st)
    requires var marker := Marker(st, env);
             || !w.looks(env, marker) || env !in st.auto || !w.finds(env, marker)
             || Busy(st, env) || !HasFleet(st, env)
             || (forall id :: Beyond(st, env, marker.created, marker.id, id) && Latest(st, env, id) ==> !w.begins(id))
    ensures Chain(w, st, env) == st.(kicks := st.kicks - multiset{env})
  {
    hide Inv, Launched, Chain, HasNewer, Latest;
    NewestInTimes(st, env, Marker(st, env));
    ChainIs(w, st, env);
    if Chooses(w, st, env) {
      AnswerForNewest(st, env);
    }
  }

  lemma AnswerIsBegan(st: State, id: Id)
    requires id in st.versions && st.versions[id].state == Registered
    requires HasFleet(st, st.versions[id].env) && !Busy(st, st.versions[id].env)
    ensures BeginResult(st, id) == Began
  {
  }

  lemma PickBegunIs(st: State, env: Env)
    requires HasNewer(st, env, Marker(st, env))
    ensures var left, id := st.(kicks := st.kicks - multiset{env}), Target(st, env);
            && id in left.versions && id in BeginDeploy(left, id, Some(SeenNow(st, env))).versions
            && PickBegun(st, env) == RecordAttempt(BeginDeploy(left, id, Some(SeenNow(st, env))), id)
  {
    hide NewestRegisteredAfter, BeginResult;
    NewestIsNewer(st, env, Marker(st, env));
  }

  lemma PickIsBegun(st: State, env: Env)
    requires HasNewer(st, env, Marker(st, env)) && BeginResult(st, Target(st, env)) == Began
    ensures var id, d := Target(st, env), PickBegun(st, env);
            && id in st.versions && id in d.versions && d.versions[id].state == Prepulling
            && Marker(d, env) == Mark(st.versions[id].created, id)
  {
    hide BeginResult, NewestRegisteredAfter;
    NewestIsNewer(st, env, Marker(st, env));
    var left := st.(kicks := st.kicks - multiset{env});
    SameAnswer(st, left, Target(st, env));
  }

  // ---- what a completion does to the rows, the fleets and the jobs ----

  /** From a to b nothing but the rows and fleets given, and the jobs given, with an attempt for env behind that. */
  ghost predicate ThenChains(w: World, a: State, b: State, rows: map<Id, Version>, fleets: map<Fleet, Option<Id>>,
                             jobs: map<Id, Job>, env: Env) {
    exists d: State ::
      && Inv(d) && d.versions == rows && d.fleets == fleets && d.jobs == jobs && d.auto == a.auto
      && d.marks == a.marks && d.starts == a.starts && b == Chain(w, d, env)
  }

  ghost predicate LeavesStore(a: State, b: State) {
    b.versions == a.versions && b.fleets == a.fleets && b.auto == a.auto && b.starts == a.starts
  }

  lemma SameStore(a: State, b: State)
    requires b.versions == a.versions && b.fleets == a.fleets && b.auto == a.auto && b.starts == a.starts
    ensures LeavesStore(a, b)
  {
  }

  /** A fan-out of id that is complete: the flip and an attempt, or nothing when the flip is refused. */
  ghost predicate Completed(w: World, a: State, b: State, id: Id, jobs: map<Id, Job>)
    requires id in a.versions
  {
    if w.writes(id) && a.versions[id].state == Prepulling
    then ThenChains(w, a, b, Flip(a, id, {}).versions, Flip(a, id, {}).fleets, jobs, a.versions[id].env)
    else LeavesStore(a, b) && b.jobs == jobs && b.marks == a.marks
  }

  /** A fan-out of id that has failed: the version is registered again if it was in flight, and an attempt. */
  ghost predicate RolledBack(w: World, a: State, b: State, id: Id, jobs: map<Id, Job>)
    requires id in a.versions
  {
    ThenChains(w, a, b, if w.writes(id) && a.versions[id].state == Prepulling
                        then a.versions[id := a.versions[id].(state := Registered)] else a.versions,
               a.fleets, jobs, a.versions[id].env)
  }

  lemma ActivatedIsPlain(w: World, st: State, k: nat)
    requires Inv(st) && k in st.closing && k < |st.armed| && st.armed[k].version in st.versions
    requires st.armed[k].outcome == Some(Activate)
    ensures Completed(w, st, Activated(w, st, k), st.armed[k].version, st.jobs)
  {
    hide Inv, Flip, Chain;
    var id := st.armed[k].version;
    FinishKeeps(st, k, w.writes(id));
    FlipFrame(st.(closing := st.closing - {k}), id, {});
    SameFlip(st, st.(closing := st.closing - {k}), id);
  }

  lemma SameFlip(a: State, b: State, id: Id)
    requires id in a.versions && b.versions == a.versions && b.fleets == a.fleets
    ensures Flip(b, id, {}).versions == Flip(a, id, {}).versions && Flip(b, id, {}).fleets == Flip(a, id, {}).fleets
  {
  }

  /** A completion goes by the rows and the fleets that it finds. */
  lemma SameCompleted(w: World, a: State, b: State, id: Id)
    requires id in a.versions && LeavesStore(a, b) && b.marks == a.marks
    ensures forall c, jobs :: Completed(w, b, c, id, jobs) <==> Completed(w, a, c, id, jobs)
    ensures forall c, jobs :: RolledBack(w, b, c, id, jobs) <==> RolledBack(w, a, c, id, jobs)
  {
    hide Flip, Chain, Inv;
    SameFlip(a, b, id);
  }

  lemma AbortedIsPlain(w: World, st: State, k: nat)
    requires Inv(st) && k in st.closing && k < |st.armed| && st.armed[k].version in st.versions
    requires st.armed[k].outcome == Some(Abort)
    ensures RolledBack(w, st, Aborted(w, st, k), st.armed[k].version, st.jobs)
  {
    hide Inv, Flip, Chain;
    FinishKeeps(st, k, w.writes(st.armed[k].version));
  }

  /** The version is in flight if it was put so, and the marker no longer behind it; the jobs are as they were. */
  ghost predicate DeployBegan(a: State, d: State, id: Id, put: bool)
    requires id in a.versions
  {
    var v := a.versions[id];
    var was := Marker(a, v.env);
    && d.versions == (if put then a.versions[id := v.(state := Prepulling)] else a.versions)
    && d.fleets == a.fleets && d.auto == a.auto && d.jobs == a.jobs && d.kicks == a.kicks
    && d.starts == (if put then a.starts + [Start(id, v.env, Mark(v.created, id), None)] else a.starts)
    && Marker(d, v.env) == (if was.created < v.created || (was.created == v.created && was.id < id)
                            then Mark(v.created, id) else was)
    && forall env :: env != v.env ==> Marker(d, env) == Marker(a, env)
  }

  lemma BeganIsPlain(st: State, id: Id)
    requires id in st.versions && id in BeginDeploy(st, id, None).versions
    ensures DeployBegan(st, RecordAttempt(BeginDeploy(st, id, None), id), id, BeginResult(st, id) == Began)
  {
    hide BeginResult;
  }

  // ---- who is in flight without a job ----

  ghost predicate Orphaned(st: State, id: Id) {
    id in st.versions && st.versions[id].state == Prepulling && id !in st.jobs
  }

  /** Its nodes cannot be asked for, or its completion cannot be written. */
  ghost predicate Excused(w: World, id: Id) {
    w.targets(id).None? || !w.writes(id)
  }

  lemma LaunchedOrphans(w: World, st: State, id: Id, u: Id)
    requires Inv(st) && id in st.versions && Orphaned(Launched(w, st, id), u)
    ensures Excused(w, u) || (u != id && Orphaned(st, u))
    decreases WaitingIn(st, st.versions[id].env), 3
  {
    hide Inv, WaitingIn;
    if w.targets(id) == Some({}) {
      StartJobSteps(st, id, {});
      ArmedIsClosing(st, id);
      ActivatedOrphans(w, Arm(st, id, {}), |st.armed|, u);
    }
  }

  lemma ActivatedOrphans(w: World, st: State, k: nat, u: Id)
    requires Inv(st) && k in st.closing && k < |st.armed| && st.armed[k].version in st.versions
    requires st.armed[k].outcome == Some(Activate) && Orphaned(Activated(w, st, k), u)
    ensures Excused(w, u) || (u != st.armed[k].version && Orphaned(st, u))
    decreases WaitingIn(st, st.versions[st.armed[k].version].env), 2
  {
    hide Inv, WaitingIn, Chain, Excused;
    var id := st.armed[k].version;
    FinishSteps(st, k, w.writes(id));
    FinishLeavesFewer(st, k, w.writes(id));
    if w.writes(id) && st.versions[id].state == Prepulling {
      ChainOrphans(w, FinishJob(st, k, true), st.versions[id].env, u);
    } else if u == id {
      UnwrittenIsExcused(w, u);
    }
  }

  lemma UnwrittenIsExcused(w: World, id: Id)
    requires !w.writes(id)
    ensures Excused(w, id)
  {
  }

  lemma ChainOrphans(w: World, st: State, env: Env, u: Id)
    requires Inv(st) && Orphaned(Chain(w, st, env), u)
    ensures Excused(w, u) || Orphaned(st, u)
    decreases WaitingIn(st, env), 1
  {
    hide Inv, WaitingIn, Launched, Chain, Excused, BeginResult, HasNewer, PickBegun, Orphaned;
    ChainIs(w, st, env);
    if Chooses(w, st, env) && w.begins(Target(st, env)) && BeginResult(st, Target(st, env)) == Began {
      LaunchedOrphans(w, PickBegun(st, env), Target(st, env), u);
      PickOrphans(st, env, u);
    } else {
      SameOrphans(st, st.(kicks := st.kicks - multiset{env}), u);
    }
  }

  lemma SameOrphans(a: State, b: State, id: Id)
    requires b.versions == a.versions && b.jobs == a.jobs
    ensures Orphaned(b, id) <==> Orphaned(a, id)
  {
  }

  lemma PickOrphans(st: State, env: Env, u: Id)
    requires HasNewer(st, env, Marker(st, env)) && BeginResult(st, Target(st, env)) == Began
    ensures Orphaned(PickBegun(st, env), u) && u != Target(st, env) ==> Orphaned(st, u)
  {
    hide BeginResult, NewestRegisteredAfter, HasNewer;
    var left := st.(kicks := st.kicks - multiset{env});
    NewestIsNewer(st, env, Marker(st, env));
    SameAnswer(st, left, Target(st, env));
  }

  // ---- a call that meets no failure leaves no build behind ----

  /** The lookups of attempts and all BeginDeploys get through. */
  ghost predicate Answers(w: World) {
    (forall env, mark :: w.looks(env, mark) && w.finds(env, mark)) && (forall id :: w.begins(id))
  }

  lemma StepIsAttended(st: State, step: Step, env: Env)
    requires Inv(st) && CanDo(st, step) && !LeftBehind(st, env) && !Misses(st, step, env)
    ensures !LeftBehind(Do(st, step), env)
  {
    hide Inv, CanDo, Do, Misses, LeftBehind;
    StepLeavesBehindIff(st, step, env);
  }

  lemma LaunchedAttends(w: World, st: State, id: Id, env: Env)
    requires Inv(st) && id in st.versions && Answers(w) && !LeftBehind(st, env)
    ensures !LeftBehind(Launched(w, st, id), env)
    decreases WaitingIn(st, st.versions[id].env), 3
  {
    hide Inv, Leads, WaitingIn, Arm, LeftBehind, Answers;
    if w.targets(id).Some? {
      StartJobSteps(st, id, w.targets(id).value);
      StepIsAttended(st, Step.StartJob(id, w.targets(id).value), env);
      if w.targets(id).value == {} {
        ArmedIsClosing(st, id);
        ActivatedAttends(w, Arm(st, id, {}), |st.armed|, env);
      }
    }
  }

  lemma ActivatedAttends(w: World, st: State, k: nat, env: Env)
    requires Inv(st) && k in st.closing && k < |st.armed| && st.armed[k].version in st.versions
    requires st.armed[k].outcome == Some(Activate) && Answers(w) && !LeftBehind(st, env)
    ensures !LeftBehind(Activated(w, st, k), env)
    decreases WaitingIn(st, st.versions[st.armed[k].version].env), 2
  {
    hide Inv, Leads, WaitingIn, FinishJob, Chain, LeftBehind, Answers;
    var id := st.armed[k].version;
    FinishSteps(st, k, w.writes(id));
    FinishLeavesFewer(st, k, w.writes(id));
    StepIsAttended(st, Finish(k, w.writes(id)), env);
    if w.writes(id) && st.versions[id].state == Prepulling {
      ChainAttends(w, FinishJob(st, k, true), st.versions[id].env, env);
    }
  }

  /** An attempt that meets no failure, however many immediate flips follow, leaves no build behind anywhere. */
  lemma ChainAttends(w: World, st: State, e: Env, env: Env)
    requires Inv(st) && Answers(w) && (e == env || !LeftBehind(st, env))
    ensures !LeftBehind(Chain(w, st, e), env)
    decreases WaitingIn(st, e), 1
  {
    hide Inv, Leads, WaitingIn, RecordStep, BeginStep, Launched, LeftBehind, HasNewer, BeginResult, PickBegun, Picked;
    if e in st.auto && HasNewer(st, e, Marker(st, e)) {
      PickSteps(st, e, true);
      PickAttended(st, e, env);
      if BeginResult(st, Target(st, e)) == Began {
        LaunchedAttends(w, PickBegun(st, e), Target(st, e), env);
      }
    } else {
      NoPickSteps(w, st, e);
      NoPickAttends(st, e, env);
    }
  }

  /** With nothing to pick, or in another mode, nothing is left behind. */
  lemma NoPickAttends(st: State, e: Env, env: Env)
    requires Inv(st) && (e == env || !LeftBehind(st, env)) && !(e in st.auto && HasNewer(st, e, Marker(st, e)))
    ensures !LeftBehind(st.(kicks := st.kicks - multiset{e}), env)
  {
    hide Inv, LeftBehind, HasNewer, AttemptStep, ChooseStep;
    AttemptAttends(st, e, env);
    AttemptSteps(st, e, true);
    if e in st.auto {
      ChooseSteps(st, e, true);
      StepIsAttended(AttemptStep(st, e, true), Choose(LookNow(st, e), true), env);
    }
  }

  /** Neither the pick that begins nor its record leaves anything behind. */
  lemma PickAttended(st: State, e: Env, env: Env)
    requires Inv(st) && e in st.auto && HasNewer(st, e, Marker(st, e)) && (e == env || !LeftBehind(st, env))
    ensures BeginResult(st, Target(st, e)) != Began ==> !LeftBehind(st.(kicks := st.kicks - multiset{e}), env)
    ensures BeginResult(st, Target(st, e)) == Began ==> !LeftBehind(PickBegun(st, e), env)
  {
    hide Inv, RecordStep, BeginStep, LeftBehind, Misses, HasNewer, GoesTo, BeginResult, WaitingIn, PickBegun, Picked,
      Target, AttemptStep, ChooseStep;
    PickSteps(st, e, true);
    PickedAttends(st, e, env);
    PickIsNotDisabled(st, e, env);
    var b, p := Picked(st, e), PickNow(st, e);
    StepIsAttended(b, Begin(p, true), env);
    if BeginResult(st, p.id) == Began {
      RecordIsAttended(BeginStep(b, p, true), p.id, env);
    }
  }

  lemma PickedAttends(st: State, e: Env, env: Env)
    requires Inv(st) && e in st.auto && HasNewer(st, e, Marker(st, e)) && (e == env || !LeftBehind(st, env))
    ensures !LeftBehind(Picked(st, e), env)
  {
    hide Inv, LeftBehind, HasNewer, AttemptStep, ChooseStep, Picked;
    AttemptAttends(st, e, env);
    AttemptSteps(st, e, true);
    ChooseSteps(st, e, true);
    StepIsAttended(AttemptStep(st, e, true), Choose(LookNow(st, e), true), env);
  }

  lemma RecordIsAttended(st: State, id: Id, env: Env)
    requires Inv(st) && CanDo(st, Record(id)) && !LeftBehind(st, env)
    ensures !LeftBehind(RecordStep(st, id), env)
  {
    hide Inv, LeftBehind, RecordStep;
    StepIsAttended(st, Record(id), env);
  }

  lemma AttemptAttends(st: State, e: Env, env: Env)
    requires Inv(st) && (e == env || !LeftBehind(st, env))
    ensures !LeftBehind(AttemptStep(st, e, true), env)
  {
    hide Inv, LeftBehind, AttemptStep;
    if e != env {
      StepIsAttended(st, Attempt(e, true), env);
    } else if e in st.auto {
      LookAttends(st, e);
    } else {
      ManualIsAttended(st, e);
    }
  }

  lemma ManualIsAttended(st: State, env: Env)
    requires env !in st.auto
    ensures !LeftBehind(AttemptStep(st, env, true), env)
  {
  }

  lemma PickIsNotDisabled(st: State, e: Env, env: Env)
    requires Inv(st) && e in st.auto && HasNewer(st, e, Marker(st, e))
    ensures var b, p := Picked(st, e), PickNow(st, e);
            CanDo(b, Begin(p, true)) && !Misses(b, Begin(p, true), env)
  {
    hide Inv, NewestRegisteredAfter;
    NewestIsNewer(st, e, Marker(st, e));
  }

  /** A promotion whose BeginDeploy gets through leaves no build behind anywhere. */
  lemma PromotedAttends(w: World, st: State, id: Id, v: Version, env: Env)
    requires Inv(st) && (id in st.versions ==> st.versions[id] == v) && v.state == Registered
    requires Answers(w) && !LeftBehind(st, env)
    ensures !LeftBehind(Promoted(w, st, id, v), env)
  {
    hide Inv, Leads, Launched, RecordStep, BeginCall, BeginResult, BeginDeploy, RecordAttempt, Do, CanDo, TakeUp,
      PromoteStep, LeftBehind, Misses;
    PromotionSteps(st, id, v);
    var a := PromoteStep(st, id, v);
    var left := TakeUp(a, id, true);
    PromotionIsAttended(st, id, v, env);
    if Begins(left, id) {
      ManualSteps(a, left, id, true);
      RecordIsAttended(BeginCall(left, id, None), id, env);
      LaunchedAttends(w, RecordStep(BeginCall(left, id, None), id), id, env);
    }
  }

  lemma PromotionIsAttended(st: State, id: Id, v: Version, env: Env)
    requires Inv(st) && (id in st.versions ==> st.versions[id] == v) && v.state == Registered
    requires !LeftBehind(st, env)
    ensures var left := TakeUp(PromoteStep(st, id, v), id, true);
            && id in left.versions && !LeftBehind(BeginCall(left, id, None), env)
            && (!Begins(left, id) ==> !LeftBehind(left, env))
  {
    hide Inv, LeftBehind, BeginResult;
    PromotionSteps(st, id, v);
    StepIsAttended(st, Promote(id, v.env, v.image, v.created), env);
    StepIsAttended(PromoteStep(st, id, v), Step.Deploy(id, true, true), env);
  }

  datatype Status = Started | Idle | Failed

  class Manager {
    const store: Store
    var jobs: map<Id, Job>
    var lastAttempted: map<Env, Mark>
    var next: nat                                      // tells one job from its replacement
    ghost var closing: set<nat>
    ghost var kicks: multiset<Env>
    ghost var armed: seq<Armed>
    ghost var reports: seq<Report>

    constructor (store: Store)
      requires store.Shows(Init(store.auto))
      ensures Valid() && View() == Init(store.auto) && this.store == store
    {
      this.store, jobs, lastAttempted, next := store, map[], map[], 0;
      closing, kicks, armed, reports := {}, multiset{}, [], [];
    }

    /** Between calls no attempt, pick, record or promotion is under way. */
    ghost function View(): State
      reads this, store
    {
      State(store.versions, store.fleets, store.auto, jobs, lastAttempted, closing, kicks, multiset{}, multiset{},
            multiset{}, multiset{}, armed, reports, store.starts)
    }

    ghost predicate Valid()
      reads this, store
    {
      Inv(View()) && next == |armed|
    }

    /** Registered versions the automatic chain could still start. */
    ghost function Waiting(env: Env): set<Id>
      reads this, store
    {
      WaitingIn(View(), env)
    }

    method RecordAttempt(id: Id)
      requires id in store.versions
      modifies this`lastAttempted
      ensures View() == DeploySteps.RecordAttempt(old(View()), id)
      ensures var v := store.versions[id];
              var was, now := Marker(old(View()), v.env), Marker(View(), v.env);
              now == if was.created < v.created || (was.created == v.created && was.id < id)
                     then Mark(v.created, id) else was
      ensures forall env :: env != store.versions[id].env ==> Marker(View(), env) == Marker(old(View()), env)
    {
      var v := store.versions[id];
      var mark := Mark(v.created, id);
      if NewerThan(mark, if v.env in lastAttempted then lastAttempted[v.env] else ZERO) {
        lastAttempted := lastAttempted[v.env := mark];
      }
    }

    /** BeginDeploy and, after success, recordAttempt. */
    method BeginAndRecord(id: Id, ghost seen: Option<Seen>) returns (res: Begun)
      modifies this`lastAttempted, store`versions, store`starts
      ensures id !in old(store.versions) ==> res == NotFound && View() == old(View())
      ensures id in old(store.versions) ==>
                && res == BeginResult(old(View()), id)
                && id in DeploySteps.BeginDeploy(old(View()), id, seen).versions
                && View() == if res in {Began, AlreadyActive, AlreadyPrepulling}
                             then DeploySteps.RecordAttempt(DeploySteps.BeginDeploy(old(View()), id, seen), id)
                             else old(View())
    {
      hide BeginResult, DeploySteps.BeginDeploy, DeploySteps.RecordAttempt;
      ghost var before := View();
      if id in store.versions {
        BeginTouches(before, id, seen);
      }
      res := store.BeginDeploy(before, id, seen);
      if res in {Began, AlreadyActive, AlreadyPrepulling} {
        RecordAttempt(id);
      }
    }

    /** Fans PrePull out and arms the timeout; with no live node the flip happens at once. */
    method StartJob(w: World, id: Id) returns (status: Status)
      requires Valid() && id in store.versions
      modifies this, store
      ensures Valid() && View() == Launched(w, old(View()), id)
      ensures match w.targets(id)
              case None => status == Failed && View() == old(View())
              case Some(targets) =>
                if targets == {} then Completed(w, old(View()), View(), id, old(jobs))
                else
                  && LeavesStore(old(View()), View()) && lastAttempted == old(lastAttempted)
                  && jobs == old(jobs)[id := Job(old(next), old(store.versions)[id].image, targets)]
      decreases Waiting(store.versions[id].env), 3
    {
      hide Inv, Leads, Activated, Completed, LeavesStore;
      ghost var before := View();
      JobsHold(before);
      LaunchedGoesTo(w, before, id);
      var v := store.versions[id];
      if w.targets(id).None? {
        return Failed;
      }
      var targets := w.targets(id).value;
      StartJobSteps(before, id, targets);
      if targets == {} {
        ArmedIsClosing(before, id);
        armed := armed + [Armed(id, v.image, {}, {}, |reports|, Some(Outcome.Activate))];
        closing := closing + {next};
        next := next + 1;
        assert View() == Arm(before, id, targets);
        SameStore(before, View());
        SameCompleted(w, before, View(), id);
        status := this.Activate(w, next - 1, id);
        return;
      }
      armed := (if id in jobs then Close(before, jobs[id].serial, Replaced) else armed)
               + [Armed(id, v.image, targets, {}, |reports|, None)];
      jobs := jobs[id := Job(next, v.image, targets)];
      next := next + 1;
      assert View() == Arm(before, id, targets);
      SameStore(before, View());
      status := Started;
    }

    /** Writes the flip of a finished fan-out, then continues the automatic chain. */
    method Activate(w: World, ghost k: nat, id: Id) returns (status: Status)
      requires Valid() && id in store.versions
      requires k in closing && k < |armed| && armed[k].version == id && armed[k].outcome == Some(Outcome.Activate)
      modifies this, store
      ensures Valid() && View() == Activated(w, old(View()), k)
      ensures Completed(w, old(View()), View(), id, old(jobs))
      decreases Waiting(store.versions[id].env), 2
    {
      hide Inv, Leads, Flip, Chain, JobsOk, Completed;
      ghost var before := View();
      ActivatedGoesTo(w, before, k);
      ActivatedIsPlain(w, before, k);
      FinishSteps(before, k, w.writes(id));
      FinishLeavesFewer(before, k, w.writes(id));
      var env := store.versions[id].env;
      var ok := false;
      closing := closing - {k};
      ghost var left := View();
      FlipFrame(left, id, {});
      if w.writes(id) {
        ok := store.ActivateVersion(left, id, Prepulling, {});
      }
      if !ok {
        assert View() == FinishJob(before, k, w.writes(id));
        return Failed;
      }
      kicks := kicks + multiset{env};
      assert View() == FinishJob(before, k, true);
      status := TryAutoDeploy(w, env);
      status := Started;
    }

    /** Rolls a failed prepull back to registered, then continues the automatic chain. */
    method Abort(w: World, ghost k: nat, id: Id)
      requires Valid() && id in store.versions
      requires k in closing && k < |armed| && armed[k].version == id && armed[k].outcome == Some(Outcome.Abort)
      modifies this, store
      ensures Valid() && View() == Aborted(w, old(View()), k)
      ensures RolledBack(w, old(View()), View(), id, old(jobs))
    {
      hide Inv, Leads, Chain, RolledBack;
      ghost var before := View();
      AbortedIsPlain(w, before, k);
      JobsHold(before);
      FinishSteps(before, k, w.writes(id));
      var env := store.versions[id].env;
      closing := closing - {k};
      if w.writes(id) {
        store.AbortDeploy(View(), id);
      }
      kicks := kicks + multiset{env};
      assert View() == FinishJob(before, k, w.writes(id));
      var _ := TryAutoDeploy(w, env);
    }

    /** Starts the newest registered version newer than the marker, unless a deploy is in flight or no fleet exists. */
    method TryAutoDeploy(w: World, env: Env) returns (status: Status)
      requires Valid()
      modifies this, store
      ensures Valid() && View() == Chain(w, old(View()), env)
      decreases Waiting(env), 1
    {
      hide Inv, Leads, GoesTo, DeploySteps.BeginDeploy, BeginResult, Launched, DeploySteps.RecordAttempt, HasNewer,
        Newest, WaitingIn, BeginStep, RecordStep, Picked, Chain, Completed, LeavesStore, PickBegun;
      ghost var before := View();
      ghost var left := before.(kicks := kicks - multiset{env});
      ChainIs(w, before, env);
      var marker := if env in lastAttempted then lastAttempted[env] else ZERO;
      kicks := kicks - multiset{env};
      assert View() == left;
      if !w.looks(env, marker) || env !in store.auto {
        return Idle;
      }
      if !w.finds(env, marker) {
        return Failed;
      }
      var target := store.NewestRegisteredAfter(left, env, marker);
      SameNewest(before, left, env, marker);
      if target.None? {
        return Idle;
      }
      var id := target.value;
      if !w.begins(id) {
        return Failed;
      }
      SameAnswer(before, left, id);
      AnswerForNewest(before, env);
      var res := BeginAndRecord(id, Some(SeenNow(before, env)));
      if res != Began {
        return Idle;                                   // queued: the deploy in flight or the first fleet retries
      }
      PickBegunIs(before, env);
      status := StartJob(w, id);
    }

    /**
     * A pull report: the last pending node activates, a failed pull aborts, progress is ignored.
     * Which job is credited is left to the order of the map.
     */
    method HandlePullReport(w: World, node: NodeId, image: string, status: string) returns (ghost credit: Option<Id>)
      requires Valid()
      modifies this, store
      ensures Valid()
      ensures var r := Report(node, image, status == "pulled");
              if status != "pulled" && status != "failed" then View() == old(View())
              else (if credit.Some? then Candidate(old(View()), r, credit.value) else Unclaimed(old(View()), r))
                   && View() == Reported(w, old(View()), r, credit)
      ensures credit.Some? ==> credit.value in old(jobs) && credit.value in old(store.versions)
      ensures credit.Some? ==>
                var id, j := credit.value, old(jobs)[credit.value];
                && j.image == image && node in j.pending
                && if status == "failed" then RolledBack(w, old(View()), View(), id, old(jobs) - {id})
                   else if j.pending == {node} then Completed(w, old(View()), View(), id, old(jobs) - {id})
                   else
                     && status == "pulled" && LeavesStore(old(View()), View()) && lastAttempted == old(lastAttempted)
                     && jobs == old(jobs)[id := j.(pending := j.pending - {node})]
      ensures credit.None? ==>
                LeavesStore(old(View()), View()) && jobs == old(jobs) && lastAttempted == old(lastAttempted)
    {
      hide Inv, Leads, JobsOk, Activated, Aborted, HandleReport, Completed, RolledBack, LeavesStore;
      ghost var before := View();
      credit := None;
      SameStore(before, before);
      if status != "pulled" && status != "failed" {
        return;
      }
      ghost var r := Report(node, image, status == "pulled");
      if !exists id :: id in jobs && jobs[id].image == image && node in jobs[id].pending {
        assert Unclaimed(before, r);
        ReportSteps(before, r, None);
        UnclaimedIsSeen(before, r);
        reports := reports + [r];
        SameStore(before, View());
        return;
      }
      var id :| id in jobs && jobs[id].image == image && node in jobs[id].pending;
      credit := Some(id);
      assert Candidate(before, r, id);
      ReportSteps(before, r, credit);
      ReportMoves(before, r, id);
      ghost var after := HandleReport(before, r, credit);
      SameStore(before, after);
      SameCompleted(w, before, after, id);
      var j := jobs[id];
      reports, armed, closing := after.reports, after.armed, after.closing;
      if status == "failed" {
        jobs := jobs - {id};
        assert View() == after;
        this.Abort(w, j.serial, id);
        return;
      }
      var pending := j.pending - {node};
      if pending == {} {
        jobs := jobs - {id};
        assert View() == after;
        var _ := this.Activate(w, j.serial, id);
      } else {
        jobs := jobs[id := j.(pending := pending)];
        assert View() == after;
      }
    }

    /** The prepull timeout of a version. */
    method Expire(w: World, id: Id)
      requires Valid()
      modifies this, store
      ensures Valid() && View() == Expired(w, old(View()), id)
      ensures id !in old(jobs) ==> View() == old(View())
      ensures id in old(jobs) ==>
                id in old(store.versions) && RolledBack(w, old(View()), View(), id, old(jobs) - {id})
    {
      hide Inv, Leads, JobsOk, Aborted, RolledBack;
      ghost var before := View();
      if id !in jobs {
        return;
      }
      ExpireSteps(before, id);
      ghost var after := Remove(before, id, Outcome.Abort);
      SameCompleted(w, before, after, id);
      var k := jobs[id].serial;
      armed, closing := after.armed, after.closing;
      jobs := jobs - {id};
      assert View() == after;
      this.Abort(w, k, id);
    }

    /** POST /v1/deploy; a version already in flight is only re-armed when it has lost its job. */
    method Deploy(w: World, id: Id) returns (res: Begun, status: Status)
      requires Valid()
      modifies this, store
      ensures Valid() && View() == Deployed(w, old(View()), id)
      ensures res == if !w.begins(id) then StoreFailed
                     else if id in old(store.versions) then BeginResult(old(View()), id) else NotFound
      ensures res !in {Began, AlreadyActive, AlreadyPrepulling} ==> View() == old(View())
      ensures res in {Began, AlreadyActive, AlreadyPrepulling} ==>
                && id in old(store.versions)
                && exists d: State ::
                     && Inv(d) && DeployBegan(old(View()), d, id, res == Began)
                     && View() == if res == Began || (res == AlreadyPrepulling && id !in old(jobs))
                                  then Launched(w, d, id) else d
    {
      hide Inv, Leads, JobsOk, DeploySteps.BeginDeploy, BeginResult, Launched, DeploySteps.RecordAttempt, DeployBegan;
      ghost var before := View();
      if !w.begins(id) {
        return StoreFailed, Failed;
      }
      res := BeginAndRecord(id, None);
      status := Failed;
      if res !in {Began, AlreadyActive, AlreadyPrepulling} {
        return;
      }
      ManualSteps(before, before, id, false);
      BeganIsPlain(before, id);
      if res == AlreadyActive || (res == AlreadyPrepulling && id in jobs) {
        status := Idle;
        return;
      }
      status := StartJob(w, id);
    }

    /** POST /v1/versions/promote: the row and then its deploy, which may fail and leave the row registered. */
    method Promote(w: World, id: Id, v: Version) returns (res: Begun, status: Status)
      requires Valid() && (id in store.versions ==> store.versions[id] == v) && v.state == Registered
      modifies this, store
      ensures Valid() && View() == Promoted(w, old(View()), id, v)
      ensures exists a: State :: a == old(View()).(versions := old(store.versions)[id := v]) && Inv(a)
                                 && View() == Deployed(w, a, id)
    {
      hide Inv, Deployed, PromoteStep;
      ghost var before := View();
      PromotionSteps(before, id, v);
      store.PromoteVersion(before, id, v);
      assert View() == TakeUp(PromoteStep(before, id, v), id, true);
      res, status := Deploy(w, id);
    }

    /** POST /v1/rollback: flips some deprecated version of the environment back, at once. */
    method Rollback(env: Env, regions: set<string>) returns (target: Option<Id>, ok: bool)
      requires Valid()
      modifies this, store
      ensures Valid()
      ensures target.None? <==> !exists id :: IsRollbackTarget(old(View()), env, id)
      ensures target.Some? ==> IsRollbackTarget(old(View()), env, target.value)
      ensures ok <==>
                && target.Some?
                && (regions == {} || exists f :: f in old(store.fleets) && f.env == env && f.region in regions)
      ensures View() == if ok then Flip(old(View()), target.value, regions) else old(View())
    {
      hide Inv, Flip;
      ghost var before := View();
      target, ok := None, false;
      if exists id :: id in store.versions && store.versions[id].env == env && store.versions[id].state == Deprecated {
        var id :| id in store.versions && store.versions[id].env == env && store.versions[id].state == Deprecated;
        assert IsRollbackTarget(before, env, id);
        target := Some(id);
        ok := store.ActivateVersion(before, id, Deprecated, regions);
        RollbackKeeps(before, id, regions);
        FlipFrame(before, id, regions);
      } else {
        assert forall id :: !IsRollbackTarget(before, env, id);
      }
    }

    /** Re-arms every version that is prepulling without a job; one whose deploy has ended meanwhile is left alone. */
    method SweepOrphans(w: World) returns (ghost swept: seq<Id>)
      requires Valid()
      modifies this, store
      ensures Valid() && GoesTo(old(View()), View())
      ensures View() == Swept(w, old(View()), swept)
      ensures forall id :: id in swept <==> id in old(store.versions) && old(store.versions)[id].state == Prepulling
      ensures forall id :: id in store.versions && store.versions[id].state == Prepulling && id !in jobs ==>
                w.targets(id).None? || !w.writes(id)
    {
      hide Inv, Leads, JobsOk, Launched, Swept, GoesTo;
      ghost var before := View();
      GoesToItself(before);
      SweptNothing(w, before);
      swept := [];
      var todo := set id | id in store.versions && store.versions[id].state == Prepulling;
      ghost var found := todo;
      while todo != {}
        invariant Valid() && GoesTo(before, View()) && View() == Swept(w, before, swept)
        invariant found <= store.versions.Keys && todo <= found && forall id :: id in swept <==> id in found - todo
        invariant forall u :: Orphaned(View(), u) ==> Excused(w, u) || u in todo
        decreases todo
      {
        var id :| id in todo;
        todo := todo - {id};
        SweptNext(w, before, swept, id);
        ghost var here := View();
        LaunchedNext(w, before, here, id);
        if id !in jobs && store.versions[id].state == Prepulling {
          var _ := StartJob(w, id);
          forall u | Orphaned(View(), u) ensures Excused(w, u) || u in todo {
            LaunchedOrphans(w, here, id, u);
          }
        }
        swept := swept + [id];
      }
      assert forall id :: id in store.versions && store.versions[id].state == Prepulling && id !in jobs ==>
        Orphaned(View(), id);
    }
  }

  /** One orphan after the other, each looked at again when its turn comes. */
  ghost function Swept(w: World, st: State, ids: seq<Id>): State
    requires Inv(st)
  {
    if ids == [] then st
    else
      var b := Swept(w, st, ids[..|ids| - 1]);
      var id := ids[|ids| - 1];
      if Inv(b) && id in b.versions && id !in b.jobs && b.versions[id].state == Prepulling
      then Launched(w, b, id) else b
  }

  lemma GoesToItself(st: State)
    requires Inv(st)
    ensures GoesTo(st, st)
  {
    hide Inv, Leads;
    LeadsToItself(st);
  }

  lemma LaunchedNext(w: World, st: State, b: State, id: Id)
    requires Inv(st) && GoesTo(st, b) && id in b.versions
    ensures Inv(b) && GoesTo(st, Launched(w, b, id)) && b.versions.Keys <= Launched(w, b, id).versions.Keys
  {
    hide Inv, Leads, Launched;
    LaunchedGoesTo(w, b, id);
    GoesTwice(st, b, Launched(w, b, id));
  }

  lemma SweptNothing(w: World, st: State)
    requires Inv(st)
    ensures Swept(w, st, []) == st
  {
  }

  lemma SweptNext(w: World, st: State, ids: seq<Id>, id: Id)
    requires Inv(st) && Inv(Swept(w, st, ids))
    ensures var b := Swept(w, st, ids);
            Swept(w, st, ids + [id])
            == if id in b.versions && id !in b.jobs && b.versions[id].state == Prepulling then Launched(w, b, id) else b
  {
    assert (ids + [id])[..|ids|] == ids;
  }

  lemma ReportSteps(st: State, r: Report, credit: Option<Id>)
    requires Inv(st) && (if credit.Some? then Candidate(st, r, credit.value) else Unclaimed(st, r))
    ensures credit.Some? ==> st.jobs[credit.value].serial < |st.armed|
    ensures var b := HandleReport(st, r, credit);
            && Inv(b) && Leads(st, b) && |b.armed| == |st.armed|
            && (credit.Some? ==> ReportEnds(st, r, credit.value, b))
  {
    hide Inv, Leads, JobsOk, HandleReport, ReportEnds;
    JobsHold(st);
    PullReportKeeps(st, r, credit);
    if credit.Some? {
      ReportEnding(st, r, credit.value);
    } else {
      ReportKeepsStore(st, r, credit);
      UnclaimedIsSeen(st, r);
    }
    LeadsOn(st, PullReport(r, credit));
  }

  lemma UnclaimedIsSeen(st: State, r: Report)
    ensures HandleReport(st, r, None) == st.(reports := st.reports + [r])
  {
  }

  /** What a credited report does to the jobs, and that it leaves the store, the marker and the calls alone. */
  lemma ReportMoves(st: State, r: Report, id: Id)
    requires Inv(st) && Candidate(st, r, id)
    ensures st.jobs[id].serial < |st.armed|
    ensures var b := HandleReport(st, r, Some(id));
            && b == st.(jobs := b.jobs, armed := b.armed, closing := b.closing, reports := b.reports)
            && b.jobs == if !r.ok || st.jobs[id].pending - {r.node} == {} then st.jobs - {id}
                         else st.jobs[id := st.jobs[id].(pending := st.jobs[id].pending - {r.node})]
  {
    assert JobOk(st, id);
    var b := HandleReport(st, r, Some(id));
    if r.ok && st.jobs[id].pending - {r.node} == {} {
      assert b.jobs == st.jobs - {id};
    }
  }

  lemma ReportEnding(st: State, r: Report, id: Id)
    requires JobsOk(st) && Candidate(st, r, id)
    ensures st.jobs[id].serial < |st.armed|
    ensures var b := HandleReport(st, r, Some(id)); |b.armed| == |st.armed| && ReportEnds(st, r, id, b)
  {
    assert JobOk(st, id) && ArmedOk(st, st.jobs[id].serial);
  }

  /** The last report of a job, or a failed one, leaves its completion to be written. */
  ghost predicate ReportEnds(st: State, r: Report, id: Id, b: State)
    requires id in st.jobs && st.jobs[id].serial < |st.armed| == |b.armed|
  {
    var k := st.jobs[id].serial;
    && id in st.versions && st.armed[k].version == id && b.armed[k].version == id
    && (!r.ok ==> k in b.closing && b.closing <= st.closing + {k} && b.armed[k].outcome == Some(Abort))
    && (r.ok && st.jobs[id].pending - {r.node} == {} ==>
          k in b.closing && b.closing <= st.closing + {k} && b.armed[k].outcome == Some(Activate))
    && (r.ok && st.jobs[id].pending - {r.node} != {} ==> b.closing == st.closing)
  }

  lemma ExpireSteps(st: State, id: Id)
    requires Inv(st) && id in st.jobs
    ensures st.jobs[id].serial < |st.armed| && st.armed[st.jobs[id].serial].version == id && id in st.versions
    ensures Inv(Remove(st, id, Abort)) && Leads(st, Remove(st, id, Abort))
  {
    hide Leads;
    assert JobOk(st, id) && ArmedOk(st, st.jobs[id].serial);
    ExpireKeeps(st, id);
    LeadsOn(st, Step.Expire(id));
  }

  lemma DeployLeads(a: State, id: Id, promotion: bool)
    requires Inv(a) && CanDo(a, Deploy(id, promotion, true))
    ensures var c := BeginCall(TakeUp(a, id, promotion), id, None); Inv(c) && Leads(a, c)
  {
    hide Inv, Leads, BeginCall;
    DeployStepKeeps(a, id, promotion, true);
    JobsHold(a);
    LeadsOn(a, Step.Deploy(id, promotion, true));
  }

  lemma RecordLeads(a: State, id: Id)
    requires Inv(a) && CanDo(a, Record(id))
    ensures Inv(RecordStep(a, id)) && Leads(a, RecordStep(a, id))
  {
    hide Inv, Leads, RecordStep;
    RecordKeeps(a, id);
    JobsHold(a);
    LeadsOn(a, Record(id));
  }

  lemma BeginLeads(a: State, p: Pick, ok: bool)
    requires Inv(a) && CanDo(a, Begin(p, ok))
    ensures Inv(BeginStep(a, p, ok)) && Leads(a, BeginStep(a, p, ok))
  {
    hide Inv, Leads, BeginStep;
    BeginStepKeeps(a, p, ok);
    JobsHold(a);
    LeadsOn(a, Begin(p, ok));
  }

  /** The two steps of a manual deploy, or of the deploy of a promotion, leave nothing to record. */
  lemma ManualSteps(a: State, left: State, id: Id, promotion: bool)
    requires Inv(a) && left == TakeUp(a, id, promotion) && CanDo(a, Deploy(id, promotion, true)) && Begins(left, id)
    ensures id in BeginCall(left, id, None).versions && id in BeginDeploy(left, id, None).versions
    ensures var c, b := BeginCall(left, id, None), RecordStep(BeginCall(left, id, None), id);
            && b == RecordAttempt(BeginDeploy(left, id, None), id)
            && id in b.versions && GoesTo(a, b) && b.promoted == left.promoted && b.recording == a.recording
            && Inv(c) && CanDo(c, Record(id))
  {
    hide Inv, Leads, BeginDeploy, BeginResult, RecordStep, RecordAttempt, Do;
    var c := BeginCall(left, id, None);
    DeployLeads(a, id, promotion);
    BeginTouches(left, id, None);
    RecordsBegun(left, c, id);
    RecordLeads(c, id);
    LeadsTwice(a, c, RecordStep(c, id));
  }

  /** The promotion of a version, and the state in which its deploy makes its call. */
  lemma PromotionSteps(st: State, id: Id, v: Version)
    requires Inv(st) && (id in st.versions ==> st.versions[id] == v) && v.state == Registered
    ensures CanDo(st, Promote(id, v.env, v.image, v.created))
    ensures var a, left := PromoteStep(st, id, v), TakeUp(PromoteStep(st, id, v), id, true);
            && Inv(a) && Leads(st, a) && a == Do(st, Promote(id, v.env, v.image, v.created))
            && CanDo(a, Deploy(id, true, true)) && CanDo(a, Deploy(id, true, false))
            && a == st.(versions := st.versions[id := v], promoted := st.promoted + multiset{id})
            && Inv(left) && left == st.(versions := st.versions[id := v])
  {
    hide Inv, Leads;
    PromoteKeeps(st, id, v);
    JobsHold(st);
    LeadsOn(st, Promote(id, v.env, v.image, v.created));
    var a := PromoteStep(st, id, v);
    DeployStepKeeps(a, id, true, false);
    assert st.promoted + multiset{id} - multiset{id} == st.promoted;
  }

  /** A promotion whose BeginDeploy fails, or is refused, makes no further step. */
  lemma PromotionDropped(a: State, id: Id)
    requires Inv(a) && CanDo(a, Deploy(id, true, false))
    ensures Leads(a, TakeUp(a, id, true))
  {
    hide Inv, Leads;
    JobsHold(a);
    LeadsOn(a, Step.Deploy(id, true, false));
  }

  lemma RecordsBegun(st: State, a: State, id: Id)
    requires Inv(a) && id in a.versions && a.recording == st.recording + multiset{id}
    ensures var b := RecordStep(a, id);
            && Inv(b) && b == RecordAttempt(a.(recording := st.recording), id) && b.recording == st.recording
            && b == a.(marks := b.marks, recording := st.recording)
  {
    hide Inv, NewerThan;
    RecordKeeps(a, id);
    assert a.recording - multiset{id} == st.recording;
  }

  lemma FinishSteps(st: State, k: nat, ok: bool)
    requires Inv(st) && k in st.closing
    ensures k < |st.armed| && st.armed[k].version in st.versions
    ensures var b := FinishJob(st, k, ok);
            && Inv(b) && Leads(st, b) && b.versions.Keys == st.versions.Keys
            && b == st.(versions := b.versions, fleets := b.fleets, kicks := b.kicks, closing := st.closing - {k})
            && b.kicks <= st.kicks + multiset{st.versions[st.armed[k].version].env}
            && (ok && st.versions[st.armed[k].version].state != Prepulling && st.armed[k].outcome == Some(Activate) ==>
                  b.kicks == st.kicks)
            && (!ok && st.armed[k].outcome == Some(Activate) ==> b.kicks == st.kicks)
  {
    hide Leads, Flip, JobsOk, RefsOk, OneEach;
    FinishKeeps(st, k, ok);
    LeadsOn(st, Finish(k, ok));
    FlipFrame(st.(closing := st.closing - {k}), st.armed[k].version, {});
    FlipKeepsRows(st.(closing := st.closing - {k}), st.armed[k].version, {});
  }

  /** BeginDeploy of a pick that was just made: the pick is gone, and a success is to be recorded. */
  lemma BeginOfPick(st: State, env: Env, ok: bool)
    requires HasNewer(st, env, Marker(st, env))
    ensures var p := PickNow(st, env);
            var left := st.(kicks := st.kicks - multiset{env});
            var b := Picked(st, env);
            && p.id in st.versions && st.versions[p.id].env == env && p in b.picks && b.versions == st.versions
            && b.picks == st.picks + multiset{p}
            && BeginResult(left, p.id) == BeginResult(st, p.id)
            && BeginStep(b, p, ok) == if ok then BeginCall(left, p.id, Some(p.seen)) else left
  {
    hide BeginCall, BeginResult, NewestRegisteredAfter;
    NewestIsNewer(st, env, Marker(st, env));
    var p := PickNow(st, env);
    var left := st.(kicks := st.kicks - multiset{env});
    assert st.picks + multiset{p} - multiset{p} == st.picks;
    assert Picked(st, env).(picks := st.picks) == left;
    SameAnswer(st, left, p.id);
  }

  /** The newest waiting version is registered, so there are three answers. */
  lemma AnswerForNewest(st: State, env: Env)
    requires HasNewer(st, env, Marker(st, env))
    ensures Target(st, env) in st.versions && BeginResult(st, Target(st, env)) in {Began, DeployInProgress, NoFleet}
  {
    hide Busy, HasFleet, NewestRegisteredAfter;
    NewestIsNewer(st, env, Marker(st, env));
  }

  lemma SameNewest(a: State, b: State, env: Env, mark: Mark)
    requires b.versions == a.versions
    ensures HasNewer(b, env, mark) <==> HasNewer(a, env, mark)
    ensures HasNewer(a, env, mark) ==> Newest(b, env, mark) == Newest(a, env, mark)
  {
    if id :| NewestRegisteredAfter(a, env, mark, id) {
      assert NewestRegisteredAfter(b, env, mark, id);
    }
    if id :| NewestRegisteredAfter(b, env, mark, id) {
      assert NewestRegisteredAfter(a, env, mark, id);
    }
  }

  lemma SameAnswer(a: State, b: State, id: Id)
    requires id in a.versions && b.versions == a.versions && b.fleets == a.fleets
    ensures BeginResult(b, id) == BeginResult(a, id)
  {
  }

  /** The version begun and recorded no longer waits, and no other does that did not. */
  lemma FewerWait(st: State, left: State, id: Id, seen: Option<Seen>)
    requires id in st.versions && left == st.(kicks := left.kicks) && BeginResult(left, id) == Began
    requires RegisteredAfter(st, st.versions[id].env, Marker(st, st.versions[id].env), id)
    ensures var d := RecordAttempt(BeginDeploy(left, id, seen), id);
            WaitingIn(d, st.versions[id].env) < WaitingIn(st, st.versions[id].env)
  {
    hide Busy, HasFleet;
    var env := st.versions[id].env;
    var d := RecordAttempt(BeginDeploy(left, id, seen), id);
    forall u | u in WaitingIn(d, env) ensures u in WaitingIn(st, env) && u != id {
      assert NewerThan(MarkOf(d, u), MarkOf(st, id));
    }
    assert id in WaitingIn(st, env) && id !in WaitingIn(d, env);
  }

  /** The attempt reads the marker, or gets no further. */
  lemma AttemptSteps(st: State, env: Env, ok: bool)
    requires Inv(st)
    ensures var b := AttemptStep(st, env, ok);
            && Inv(b) && Leads(st, b)
            && b == st.(kicks := st.kicks - multiset{env},
                        looks := if ok && env in st.auto then st.looks + multiset{LookNow(st, env)} else st.looks)
  {
    hide Inv, Leads;
    AttemptKeeps(st, env, ok);
    JobsHold(st);
    LeadsOn(st, Attempt(env, ok));
  }

  /** It picks the newest version after the marker, if there is one and the queries get through. */
  lemma ChooseSteps(st: State, env: Env, ok: bool)
    requires Inv(st) && env in st.auto
    ensures var b, k := AttemptStep(st, env, true), LookNow(st, env);
            var c := ChooseStep(b, k, ok);
            && k in b.looks && Inv(c) && Leads(st, c)
            && c == if ok && HasNewer(st, env, Marker(st, env)) then Picked(st, env)
                    else st.(kicks := st.kicks - multiset{env})
  {
    hide Inv, Leads, HasNewer;
    AttemptSteps(st, env, true);
    var b, k := AttemptStep(st, env, true), LookNow(st, env);
    ChooseKeeps(b, k, ok);
    JobsHold(b);
    LeadsOn(b, Choose(k, ok));
    LeadsTwice(st, b, ChooseStep(b, k, ok));
    SameNewest(st, b, env, Marker(st, env));
    assert st.looks + multiset{k} - multiset{k} == st.looks;
  }

  /** An attempt that makes no pick only uses up its kick. */
  lemma NoPickSteps(w: World, st: State, env: Env)
    requires Inv(st) && !Chooses(w, st, env)
    ensures GoesTo(st, st.(kicks := st.kicks - multiset{env}))
  {
    hide Inv, Leads, HasNewer, AttemptStep, ChooseStep;
    var marker := Marker(st, env);
    if w.looks(env, marker) && env in st.auto {
      ChooseSteps(st, env, w.finds(env, marker));
    } else {
      AttemptSteps(st, env, w.looks(env, marker));
    }
  }

  /** From the pick to the record: steps that leave no pick and no record outstanding. */
  lemma PickSteps(st: State, env: Env, ok: bool)
    requires Inv(st) && env in st.auto && HasNewer(st, env, Marker(st, env))
    ensures var b, p, left := Picked(st, env), PickNow(st, env), st.(kicks := st.kicks - multiset{env});
            && p.id in st.versions && p.id in b.versions && p in b.picks && Inv(b)
            && var c, d := BeginStep(b, p, ok), PickBegun(st, env);
               && Inv(c)
               && (!ok || BeginResult(st, p.id) != Began ==> c == left && GoesTo(st, left))
               && (ok && BeginResult(st, p.id) == Began ==>
                     && CanDo(c, Record(p.id)) && d == RecordStep(c, p.id) && GoesTo(st, d) && d.kicks == left.kicks
                     && p.id in d.versions && d.versions[p.id].env == env && WaitingIn(d, env) < WaitingIn(st, env))
  {
    hide Inv, Leads, BeginResult, BeginDeploy, BeginStep, WaitingIn, RecordStep, RecordAttempt, HasNewer, AttemptStep,
      ChooseStep, Do, NewestRegisteredAfter;
    ChooseSteps(st, env, true);
    BeginOfPick(st, env, ok);
    AnswerForNewest(st, env);
    var b, p, left := Picked(st, env), PickNow(st, env), st.(kicks := st.kicks - multiset{env});
    var c := BeginStep(b, p, ok);
    BeginLeads(b, p, ok);
    LeadsTwice(st, b, c);
    if ok && BeginResult(st, p.id) == Began {
      BeginTouches(left, p.id, Some(p.seen));
      RecordsBegun(st, c, p.id);
      RecordLeads(c, p.id);
      LeadsTwice(st, c, RecordStep(c, p.id));
      NewestIsNewer(st, env, Marker(st, env));
      FewerWait(st, left, p.id, Some(p.seen));
    }
  }

  /** What an attempt makes of the state, and what its fan-out needs. */
  lemma ChainIs(w: World, st: State, env: Env)
    requires Inv(st)
    ensures Inv(Chain(w, st, env)) && Inv(st.(kicks := st.kicks - multiset{env}))
    ensures !Chooses(w, st, env) ==> Chain(w, st, env) == st.(kicks := st.kicks - multiset{env})
    ensures Chooses(w, st, env) ==>
              var id, d := Target(st, env), PickBegun(st, env);
              && id in st.versions
              && if w.begins(id) && BeginResult(st, id) == Began
                 then && Inv(d) && id in d.versions && d.versions[id].env == env
                      && WaitingIn(d, env) < WaitingIn(st, env) && Chain(w, st, env) == Launched(w, d, id)
                 else Chain(w, st, env) == st.(kicks := st.kicks - multiset{env})
  {
    hide Inv, Leads, BeginResult, Launched, PickBegun, Picked, WaitingIn, BeginStep, RecordStep, HasNewer;
    ChainGoesTo(w, st, env);
    AttemptSteps(st, env, false);
    if Chooses(w, st, env) {
      PickSteps(st, env, w.begins(Target(st, env)));
    }
  }

  /** A flip never makes a version wait. */
  lemma FinishLeavesFewer(st: State, k: nat, ok: bool)
    requires Inv(st) && k < |st.armed| && st.armed[k].version in st.versions && st.armed[k].outcome == Some(Activate)
    ensures var env := st.versions[st.armed[k].version].env;
            WaitingIn(FinishJob(st, k, ok), env) <= WaitingIn(st, env)
  {
  }

  lemma StartJobSteps(st: State, id: Id, targets: set<NodeId>)
    requires Inv(st) && id in st.versions
    ensures id in st.jobs ==> st.jobs[id].serial < |st.armed|
    ensures var b := Arm(st, id, targets);
            && Inv(b) && Leads(st, b) && b == st.(jobs := b.jobs, armed := b.armed, closing := b.closing)
            && b.closing == if targets == {} then st.closing + {|st.armed|} else st.closing
  {
    hide Inv, Leads;
    JobsHold(st);
    StartJobKeeps(st, id, targets);
    LeadsOn(st, Step.StartJob(id, targets));
  }
}

/**
 * Deploys as a step system: version rows and fleets in the store, in-flight
 * prepull jobs and the forward-only marker in the manager. Completions of jobs
 * interleave with pull reports, timeouts, re-arms, registrations and rollbacks.
 *
 * A deploy begins in steps other calls can come between: an automatic attempt
 * reads the marker, picks the newest version after it, BeginDeploy puts the pick
 * in flight, and recordAttempt advances the marker; a manual deploy does the
 * last two, and a promotion registers a version before it does.
 */
module DeploySteps {
  import opened Wrappers

  type Env = string                                    // one (project, env) pair
  type NodeId = string
  type Id = x: int | 0 < x witness 1                   // ordered as the store orders version ids

  datatype VState = Registered | Prepulling | Active | Deprecated | Disabled

  datatype Version = Version(env: Env, image: string, created: nat, state: VState)

  datatype Fleet = Fleet(env: Env, region: string)

  /** A point of the (created_at, id) order; the zero value precedes every version. */
  datatype Mark = Mark(created: nat, id: nat)

  const ZERO := Mark(0, 0)

  predicate NewerThan(a: Mark, b: Mark) {
    a.created > b.created || (a.created == b.created && a.id > b.id)
  }

  datatype Job = Job(serial: nat, image: string, pending: set<NodeId>)

  datatype Outcome = Activate | Abort | Replaced

  /** One fan-out: which nodes were asked, which have reported, and how it ended. */
  datatype Armed = Armed(version: Id, image: string, fanout: set<NodeId>, pulled: set<NodeId>,
                         since: nat, outcome: Option<Outcome>)

  datatype Report = Report(node: NodeId, image: string, ok: bool)

  /** What an automatic attempt found when it read the marker: the marker, the starts so far, the unrecorded ones. */
  datatype Seen = Seen(marker: Mark, begun: nat, recording: set<Id>)

  /** An automatic attempt that has read the marker and not picked yet. */
  datatype Look = Look(env: Env, seen: Seen)

  /** The version an automatic attempt has chosen and not begun yet. */
  datatype Pick = Pick(env: Env, id: Id, seen: Seen)

  /** A version put in flight by BeginDeploy, automatically if an attempt had picked it. */
  datatype Start = Start(id: Id, env: Env, mark: Mark, seen: Option<Seen>)

  datatype State = State(
    versions: map<Id, Version>,
    fleets: map<Fleet, Option<Id>>,                    // active_version per fleet
    auto: set<Env>,                                    // environments with auto_deploy
    jobs: map<Id, Job>,
    marks: map<Env, Mark>,                             // lastAttempted
    closing: set<nat>,                                 // fan-outs taken out of jobs, store write outstanding
    kicks: multiset<Env>,                              // TryAutoDeploy calls that have not read the marker yet
    looks: multiset<Look>,                             // those that have, and have not picked yet
    picks: multiset<Pick>,                             // picks whose BeginDeploy is outstanding
    recording: multiset<Id>,                           // successful BeginDeploys whose recordAttempt is outstanding
    promoted: multiset<Id>,                            // promotions whose Deploy is outstanding
    // observers
    armed: seq<Armed>,
    reports: seq<Report>,
    starts: seq<Start>)

  function Init(auto: set<Env>): State {
    State(map[], map[], auto, map[], map[], {}, multiset{}, multiset{}, multiset{}, multiset{}, multiset{}, [], [], [])
  }

  datatype Step =
    | Register(id: Id, env: Env, image: string, created: nat)
    | Promote(id: Id, env: Env, image: string, created: nat)
    | PutFleet(fleet: Fleet, pin: Option<Id>)
    | Switch(mode: Env, on: bool)                      // PATCH of auto_deploy
    | Attempt(tried: Env, ok: bool)                    // TryAutoDeploy up to reading the marker; the lookup may fail
    | Choose(look: Look, ok: bool)                     // its queries for the newest version, which may fail
    | Begin(pick: Pick, ok: bool)                      // its BeginDeploy, which may fail in the store
    | Deploy(manual: Id, promotion: bool, ok: bool)    // the BeginDeploy of a deploy by hand or of a promotion
    | Record(recorded: Id)
    | StartJob(version: Id, targets: set<NodeId>)
    | PullReport(report: Report, credit: Option<Id>)
    | Expire(expired: Id)
    | Finish(serial: nat, ok: bool)
    | Rollback(target: Id, regions: set<string>)
    | Disable(unused: Id)

  // ---- the store ----

  function MarkOf(st: State, id: Id): Mark
    requires id in st.versions
  {
    Mark(st.versions[id].created, id)
  }

  predicate Busy(st: State, env: Env) {
    exists u :: u in st.versions && st.versions[u].env == env && st.versions[u].state == Prepulling
  }

  predicate HasFleet(st: State, env: Env) {
    exists f :: f in st.fleets && f.env == env
  }

  function SetState(st: State, id: Id, s: VState): State
    requires id in st.versions
  {
    st.(versions := st.versions[id := st.versions[id].(state := s)])
  }

  datatype Begun =
    | Began | AlreadyActive | AlreadyPrepulling
    | NotFound | VersionState | DeployInProgress | NoFleet
    | StoreFailed                                      // never the answer of a store that works

  function BeginResult(st: State, id: Id): Begun
    requires id in st.versions
  {
    var v := st.versions[id];
    if v.state == Active then AlreadyActive
    else if v.state == Prepulling then AlreadyPrepulling
    else if v.state == Disabled then VersionState
    else if Busy(st, v.env) then DeployInProgress
    else if !HasFleet(st, v.env) then NoFleet
    else Began
  }

  function BeginDeploy(st: State, id: Id, seen: Option<Seen>): State
    requires id in st.versions
  {
    if BeginResult(st, id) != Began then st
    else SetState(st, id, Prepulling).(starts := st.starts + [Start(id, st.versions[id].env, MarkOf(st, id), seen)])
  }

  /** BeginDeploy reports success also for a version that is in flight or active already. */
  predicate Begins(st: State, id: Id)
    requires id in st.versions
  {
    BeginResult(st, id) in {Began, AlreadyActive, AlreadyPrepulling}
  }

  /** A call of BeginDeploy: after success the caller goes on to record the attempt. */
  function BeginCall(st: State, id: Id, seen: Option<Seen>): State
    requires id in st.versions
  {
    if Begins(st, id) then BeginDeploy(st, id, seen).(recording := st.recording + multiset{id}) else st
  }

  /** What the flip takes out of service in the environment of v. */
  predicate Demoted(st: State, v: Id, u: Id)
    requires v in st.versions && u in st.versions
  {
    && u != v && st.versions[u].env == st.versions[v].env
    && (st.versions[u].state == Active
        || (st.versions[u].state == Registered
            && exists f :: f in st.fleets && f.env == st.versions[v].env && st.fleets[f] == Some(u)))
  }

  function StateAfterFlip(st: State, v: Id, u: Id): VState
    requires v in st.versions && u in st.versions
  {
    var s := st.versions[u];
    if u == v then Active
    else if Demoted(st, v, u) then Deprecated
    else if s.env == st.versions[v].env && s.state == Deprecated then Disabled
    else s.state
  }

  predicate Repointed(st: State, v: Id, regions: set<string>, f: Fleet)
    requires v in st.versions
  {
    f.env == st.versions[v].env && (regions == {} || f.region in regions)
  }

  /** ActivateVersion: refused in another state, or when no fleet of the environment is in the regions. */
  predicate CanFlip(st: State, v: Id, from: VState, regions: set<string>)
    requires v in st.versions
  {
    && st.versions[v].state == from
    && (regions == {} || exists f :: f in st.fleets && Repointed(st, v, regions, f))
  }

  function Flip(st: State, v: Id, regions: set<string>): State
    requires v in st.versions
  {
    st.(versions := map u | u in st.versions :: st.versions[u].(state := StateAfterFlip(st, v, u)),
        fleets := map f | f in st.fleets :: if Repointed(st, v, regions, f) then Some(v) else st.fleets[f])
  }

  // ---- the manager ----

  function Marker(st: State, env: Env): Mark {
    if env in st.marks then st.marks[env] else ZERO
  }

  function RecordAttempt(st: State, id: Id): State
    requires id in st.versions
  {
    var env := st.versions[id].env;
    if NewerThan(MarkOf(st, id), Marker(st, env)) then st.(marks := st.marks[env := MarkOf(st, id)]) else st
  }

  predicate RegisteredAfter(st: State, env: Env, mark: Mark, id: Id) {
    && id in st.versions && st.versions[id].env == env && st.versions[id].state == Registered
    && NewerThan(MarkOf(st, id), mark)
  }

  predicate NewestRegisteredAfter(st: State, env: Env, mark: Mark, id: Id) {
    && RegisteredAfter(st, env, mark, id)
    && forall u :: u in st.versions && u != id && RegisteredAfter(st, env, mark, u) ==>
         NewerThan(MarkOf(st, id), MarkOf(st, u))
  }

  ghost predicate HasNewer(st: State, env: Env, mark: Mark) {
    exists id :: NewestRegisteredAfter(st, env, mark, id)
  }

  ghost function Newest(st: State, env: Env, mark: Mark): (id: Id)
    requires HasNewer(st, env, mark)
    ensures NewestRegisteredAfter(st, env, mark, id)
  {
    var id :| NewestRegisteredAfter(st, env, mark, id);
    id
  }

  function RecordStep(st: State, id: Id): State
    requires id in st.versions
  {
    RecordAttempt(st, id).(recording := st.recording - multiset{id})
  }

  ghost function Recording(st: State): set<Id> {
    set id | id in st.recording
  }

  ghost function SeenNow(st: State, env: Env): Seen {
    Seen(Marker(st, env), |st.starts|, Recording(st))
  }

  /** TryAutoDeploy up to reading the marker: nothing follows in another mode, or when the lookup fails. */
  ghost function AttemptStep(st: State, env: Env, ok: bool): State {
    var left := st.(kicks := st.kicks - multiset{env});
    if ok && env in st.auto then left.(looks := st.looks + multiset{Look(env, SeenNow(st, env))}) else left
  }

  ghost function PickOf(st: State, k: Look): Pick
    requires HasNewer(st, k.env, k.seen.marker)
  {
    Pick(k.env, Newest(st, k.env, k.seen.marker), k.seen)
  }

  /** The newest version after the marker that was read, if there is one and the queries get through. */
  ghost function ChooseStep(st: State, k: Look, ok: bool): State {
    var left := st.(looks := st.looks - multiset{k});
    if ok && HasNewer(st, k.env, k.seen.marker) then left.(picks := st.picks + multiset{PickOf(st, k)}) else left
  }

  function BeginStep(st: State, p: Pick, ok: bool): State
    requires p.id in st.versions
  {
    var left := st.(picks := st.picks - multiset{p});
    if ok then BeginCall(left, p.id, Some(p.seen)) else left
  }

  /** The deploy of a promotion is no longer outstanding once it is made. */
  function TakeUp(st: State, id: Id, promotion: bool): State {
    if promotion then st.(promoted := st.promoted - multiset{id}) else st
  }

  /** The BeginDeploy of a deploy by hand, or of the deploy that a promotion goes on with. */
  function DeployStep(st: State, id: Id, promotion: bool, ok: bool): State
    requires id in st.versions
  {
    var left := TakeUp(st, id, promotion);
    if ok then BeginCall(left, id, None) else left
  }

  function Close(st: State, serial: nat, outcome: Outcome): seq<Armed>
    requires serial < |st.armed|
  {
    st.armed[serial := st.armed[serial].(outcome := Some(outcome))]
  }

  /**
   * startJob once the targets are known: with none the flip follows at once, else a job of that
   * version is replaced.
   */
  function Arm(st: State, id: Id, targets: set<NodeId>): State
    requires id in st.versions && (id in st.jobs ==> st.jobs[id].serial < |st.armed|)
  {
    var v, k := st.versions[id], |st.armed|;
    if targets == {} then
      st.(armed := st.armed + [Armed(id, v.image, {}, {}, |st.reports|, Some(Activate))], closing := st.closing + {k})
    else
      var before := if id in st.jobs then Close(st, st.jobs[id].serial, Replaced) else st.armed;
      st.(armed := before + [Armed(id, v.image, targets, {}, |st.reports|, None)],
          jobs := st.jobs[id := Job(k, v.image, targets)])
  }

  predicate Candidate(st: State, r: Report, id: Id) {
    id in st.jobs && st.jobs[id].image == r.image && r.node in st.jobs[id].pending
  }

  ghost predicate Unclaimed(st: State, r: Report) {
    forall id :: !Candidate(st, r, id)
  }

  function Remove(st: State, id: Id, outcome: Outcome): State
    requires id in st.jobs && st.jobs[id].serial < |st.armed|
  {
    st.(jobs := st.jobs - {id},
        armed := Close(st, st.jobs[id].serial, outcome),
        closing := st.closing + {st.jobs[id].serial})
  }

  function CreditNode(st: State, id: Id, node: NodeId): State
    requires id in st.jobs && st.jobs[id].serial < |st.armed|
  {
    var j := st.jobs[id];
    st.(jobs := st.jobs[id := j.(pending := j.pending - {node})],
        armed := st.armed[j.serial := st.armed[j.serial].(pulled := st.armed[j.serial].pulled + {node})])
  }

  function HandleReport(st: State, r: Report, credit: Option<Id>): State
    requires credit.Some? ==> Candidate(st, r, credit.value) && st.jobs[credit.value].serial < |st.armed|
  {
    var seen := st.(reports := st.reports + [r]);
    if credit.None? then seen
    else if !r.ok then Remove(seen, credit.value, Abort)
    else
      var after := CreditNode(seen, credit.value, r.node);
      if after.jobs[credit.value].pending == {} then Remove(after, credit.value, Activate) else after
  }

  /** The store write after a job has left the map; its failure leaves the row as it is. */
  function FinishJob(st: State, k: nat, ok: bool): State
    requires k < |st.armed| && st.armed[k].version in st.versions
  {
    var id := st.armed[k].version;
    var env := st.versions[id].env;
    var left := st.(closing := st.closing - {k});
    var current := st.versions[id].state == Prepulling;
    if st.armed[k].outcome == Some(Activate) then
      if ok && current then Flip(left, id, {}).(kicks := st.kicks + multiset{env}) else left
    else
      (if ok && current then SetState(left, id, Registered) else left).(kicks := st.kicks + multiset{env})
  }

  /** A registration is followed by an automatic attempt. */
  function NewVersion(st: State, id: Id, v: Version): State {
    st.(versions := st.versions[id := v], kicks := st.kicks + multiset{v.env})
  }

  /** A promotion is followed by a deploy of the version; promoted again, a registered one is used again. */
  function PromoteStep(st: State, id: Id, v: Version): State {
    st.(versions := st.versions[id := v], promoted := st.promoted + multiset{id})
  }

  function UpsertFleet(st: State, f: Fleet, pin: Option<Id>): State {
    st.(fleets := st.fleets[f := if pin.Some? || f !in st.fleets then pin else st.fleets[f]],
        kicks := st.kicks + multiset{f.env})
  }

  function SwitchMode(st: State, env: Env, on: bool): State {
    st.(auto := if on then st.auto + {env} else st.auto - {env})
  }

  ghost predicate CanDo(st: State, step: Step) {
    match step
    case Register(id, _, _, _) => id !in st.versions
    case Promote(id, env, image, created) =>
      id !in st.versions || st.versions[id] == Version(env, image, created, Registered)
    case PutFleet(f, pin) => pin.Some? ==> pin.value in st.versions && st.versions[pin.value].env == f.env
    case Switch(_, _) => true
    case Attempt(_, _) => true
    case Choose(k, _) => k in st.looks
    case Begin(p, _) => p in st.picks && p.id in st.versions
    case Deploy(id, promotion, _) => id in st.versions && (promotion ==> id in st.promoted)
    case Record(id) => id in st.recording && id in st.versions
    case StartJob(id, _) => id in st.versions
    case PullReport(r, credit) =>
      if credit.Some? then Candidate(st, r, credit.value) else Unclaimed(st, r)
    case Expire(id) => id in st.jobs
    case Finish(k, _) => k in st.closing
    case Rollback(id, regions) => id in st.versions && CanFlip(st, id, Deprecated, regions)
    case Disable(id) =>
      id in st.versions && (st.versions[id].state == Deprecated || st.versions[id].state == Registered)
  }

  ghost function Do(st: State, step: Step): State
    requires JobsOk(st) && CanDo(st, step)
  {
    match step
    case Register(id, env, image, created) =>
      NewVersion(st, id, Version(env, image, created, Registered))
    case Promote(id, env, image, created) =>
      PromoteStep(st, id, Version(env, image, created, Registered))
    case PutFleet(f, pin) => UpsertFleet(st, f, pin)
    case Switch(env, on) => SwitchMode(st, env, on)
    case Attempt(env, ok) => AttemptStep(st, env, ok)
    case Choose(k, ok) => ChooseStep(st, k, ok)
    case Begin(p, ok) => BeginStep(st, p, ok)
    case Deploy(id, promotion, ok) => DeployStep(st, id, promotion, ok)
    case Record(id) => RecordStep(st, id)
    case StartJob(id, targets) => Arm(st, id, targets)
    case PullReport(r, credit) => HandleReport(st, r, credit)
    case Expire(id) => Remove(st, id, Abort)
    case Finish(k, ok) => assert ArmedOk(st, k); FinishJob(st, k, ok)
    case Rollback(id, regions) => Flip(st, id, regions)
    case Disable(id) => SetState(st, id, Disabled)
  }

  // ---- what every step keeps ----

  ghost predicate ReportedSince(st: State, node: NodeId, image: string, since: nat) {
    exists i :: since <= i < |st.reports| && st.reports[i] == Report(node, image, true)
  }

  ghost predicate ArmedOk(st: State, k: nat)
    requires k < |st.armed|
  {
    var a := st.armed[k];
    && a.version in st.versions && a.since <= |st.reports| && a.pulled <= a.fanout
    && (forall n :: n in a.pulled ==> ReportedSince(st, n, a.image, a.since))
    && (a.outcome == Some(Activate) ==> a.pulled == a.fanout)
    && (a.outcome == None ==> a.version in st.jobs && st.jobs[a.version].serial == k)
    && (k in st.closing ==> a.outcome == Some(Activate) || a.outcome == Some(Abort))
  }

  ghost predicate JobOk(st: State, id: Id)
    requires id in st.jobs
  {
    var j := st.jobs[id];
    && j.serial < |st.armed|
    && var a := st.armed[j.serial];
       && a.version == id && a.image == j.image && a.outcome == None
       && j.pending == a.fanout - a.pulled && j.pending != {}
  }

  /** Every fan-out is in the map under its own version, or has ended in exactly one way. */
  ghost predicate JobsOk(st: State) {
    && (forall k :: 0 <= k < |st.armed| ==> ArmedOk(st, k))
    && (forall id :: id in st.jobs ==> JobOk(st, id))
    && (forall k :: k in st.closing ==> k < |st.armed|)
  }

  /** At most one version of an environment is prepulling, and at most one is active. */
  ghost predicate OneEach(versions: map<Id, Version>) {
    forall u, v :: u in versions && v in versions && u != v && versions[u].env == versions[v].env ==>
      !(versions[u].state == versions[v].state == Prepulling) && !(versions[u].state == versions[v].state == Active)
  }

  /** A fleet never points at another environment's version; starts, picks and open calls name versions rightly. */
  ghost predicate RefsOk(st: State) {
    && (forall f :: f in st.fleets && st.fleets[f].Some? ==>
          st.fleets[f].value in st.versions && st.versions[st.fleets[f].value].env == f.env)
    && (forall s :: s in st.starts ==> StartOk(st.versions, s))
    && (forall p :: p in st.picks ==> p.id in st.versions && st.versions[p.id].env == p.env)
    && (forall id :: id in st.recording || id in st.promoted ==> id in st.versions)
  }

  ghost predicate StartOk(versions: map<Id, Version>, s: Start) {
    s.id in versions && s.mark == Mark(versions[s.id].created, s.id) && s.env == versions[s.id].env
  }

  /** The marker only moves forward: none that was read is ahead of it. */
  ghost predicate LooksOk(looks: multiset<Look>, marks: map<Env, Mark>) {
    forall k :: k in looks ==> !NewerThan(k.seen.marker, if k.env in marks then marks[k.env] else ZERO)
  }

  ghost predicate Inv(st: State) {
    JobsOk(st) && OneEach(st.versions) && RefsOk(st) && LooksOk(st.looks, st.marks)
  }

  // ---- jobs ----

  /** Steps that leave the jobs alone. */
  lemma JobsFrame(a: State, b: State)
    requires JobsOk(a) && b.armed == a.armed && b.jobs == a.jobs && b.reports == a.reports
    requires a.versions.Keys <= b.versions.Keys && b.closing <= a.closing
    ensures JobsOk(b)
  {
    forall k | 0 <= k < |b.armed| ensures ArmedOk(b, k) {
      assert ArmedOk(a, k);
      forall n | n in b.armed[k].pulled ensures ReportedSince(b, n, b.armed[k].image, b.armed[k].since) {
        assert ReportedSince(a, n, b.armed[k].image, b.armed[k].since);
      }
    }
    forall id | id in b.jobs ensures JobOk(b, id) {
      assert JobOk(a, id);
    }
  }

  lemma ReportedInMore(a: State, b: State, node: NodeId, image: string, since: nat)
    requires a.reports <= b.reports && ReportedSince(a, node, image, since)
    ensures ReportedSince(b, node, image, since)
  {
    var i :| since <= i < |a.reports| && a.reports[i] == Report(node, image, true);
    assert b.reports[i] == a.reports[i];
  }

  lemma SeenKeepsJobs(st: State, r: Report)
    requires JobsOk(st)
    ensures JobsOk(st.(reports := st.reports + [r]))
  {
    var b := st.(reports := st.reports + [r]);
    forall k | 0 <= k < |b.armed| ensures ArmedOk(b, k) {
      assert ArmedOk(st, k);
      forall n | n in b.armed[k].pulled ensures ReportedSince(b, n, b.armed[k].image, b.armed[k].since) {
        ReportedInMore(st, b, n, b.armed[k].image, b.armed[k].since);
      }
    }
    forall id | id in b.jobs ensures JobOk(b, id) {
      assert JobOk(st, id);
    }
  }

  /** Same fan-outs but for the one at k, same jobs but for the one of id. */
  ghost predicate ChangesOnly(a: State, b: State, k: nat, id: Id) {
    && b.reports == a.reports && b.versions == a.versions
    && k < |a.armed| == |b.armed|
    && (forall i :: 0 <= i < |a.armed| && i != k ==> b.armed[i] == a.armed[i])
    && (forall i :: i != k ==> (i in b.closing <==> i in a.closing))
    && (forall v :: v != id ==> (v in b.jobs <==> v in a.jobs) && (v in a.jobs ==> b.jobs[v] == a.jobs[v]))
  }

  lemma ChangeKeepsJobs(a: State, b: State, k: nat, id: Id)
    requires JobsOk(a) && id in a.jobs && a.jobs[id].serial == k && ChangesOnly(a, b, k, id)
    requires ArmedOk(b, k) && (id in b.jobs ==> JobOk(b, id))
    ensures JobsOk(b)
  {
    assert JobOk(a, id);
    forall i | 0 <= i < |b.armed| ensures ArmedOk(b, i) {
      if i != k {
        assert ArmedOk(a, i);
        forall n | n in b.armed[i].pulled ensures ReportedSince(b, n, b.armed[i].image, b.armed[i].since) {
          ReportedInMore(a, b, n, b.armed[i].image, b.armed[i].since);
        }
      }
    }
    forall v | v in b.jobs ensures JobOk(b, v) {
      if v != id {
        assert JobOk(a, v);
        assert ArmedOk(a, k);
      }
    }
  }

  lemma RemoveKeepsJobs(st: State, id: Id, outcome: Outcome)
    requires JobsOk(st) && id in st.jobs && outcome != Replaced
    requires outcome == Activate ==> st.armed[st.jobs[id].serial].pulled == st.armed[st.jobs[id].serial].fanout
    ensures JobsOk(Remove(st, id, outcome))
  {
    var k, b := st.jobs[id].serial, Remove(st, id, outcome);
    assert JobOk(st, id) && ArmedOk(st, k);
    forall n | n in b.armed[k].pulled ensures ReportedSince(b, n, b.armed[k].image, b.armed[k].since) {
      ReportedInMore(st, b, n, b.armed[k].image, b.armed[k].since);
    }
    ChangeKeepsJobs(st, b, k, id);
  }

  lemma CreditKeepsJobs(st: State, id: Id, node: NodeId)
    requires JobsOk(st) && id in st.jobs && node in st.jobs[id].pending && |st.reports| > 0
    requires st.reports[|st.reports| - 1] == Report(node, st.jobs[id].image, true)
    requires st.armed[st.jobs[id].serial].since < |st.reports|
    ensures CreditNode(st, id, node).jobs[id].pending != {} ==> JobsOk(CreditNode(st, id, node))
    ensures CreditNode(st, id, node).jobs[id].pending == {} ==> JobsOk(Remove(CreditNode(st, id, node), id, Activate))
  {
    var k, b := st.jobs[id].serial, CreditNode(st, id, node);
    assert JobOk(st, id) && ArmedOk(st, k);
    var image, since := st.armed[k].image, st.armed[k].since;
    assert ReportedSince(b, node, image, since);
    forall n | n in b.armed[k].pulled ensures ReportedSince(b, n, image, since) {
      if n != node { ReportedInMore(st, b, n, image, since); }
    }
    assert b.jobs[id].pending == b.armed[k].fanout - b.armed[k].pulled;
    if b.jobs[id].pending == {} {
      var c := Remove(b, id, Activate);
      forall n | n in c.armed[k].pulled ensures ReportedSince(c, n, image, since) {
        ReportedInMore(b, c, n, image, since);
      }
      assert forall n :: n in c.armed[k].fanout ==> n in c.armed[k].pulled;
      ChangeKeepsJobs(st, c, k, id);
    } else {
      ChangeKeepsJobs(st, b, k, id);
    }
  }

  lemma ReportKeepsJobs(st: State, r: Report, credit: Option<Id>)
    requires JobsOk(st) && (credit.Some? ==> Candidate(st, r, credit.value))
    ensures credit.Some? ==> st.jobs[credit.value].serial < |st.armed|
    ensures JobsOk(HandleReport(st, r, credit))
  {
    var seen := st.(reports := st.reports + [r]);
    SeenKeepsJobs(st, r);
    if credit.Some? {
      var id := credit.value;
      assert JobOk(st, id) && ArmedOk(st, st.jobs[id].serial);
      if r.ok {
        CreditKeepsJobs(seen, id, r.node);
      } else {
        RemoveKeepsJobs(seen, id, Abort);
      }
    }
  }

  lemma ArmKeepsJobs(st: State, id: Id, targets: set<NodeId>)
    requires JobsOk(st) && id in st.versions
    ensures (id in st.jobs ==> st.jobs[id].serial < |st.armed|) && JobsOk(Arm(st, id, targets))
  {
    if id in st.jobs { assert JobOk(st, id); }
    var b, last := Arm(st, id, targets), |st.armed|;
    forall k | 0 <= k < |b.armed| ensures ArmedOk(b, k) {
      if k < last {
        assert ArmedOk(st, k);
        forall n | n in b.armed[k].pulled ensures ReportedSince(b, n, b.armed[k].image, b.armed[k].since) {
          ReportedInMore(st, b, n, b.armed[k].image, b.armed[k].since);
        }
      }
    }
    forall v | v in b.jobs ensures JobOk(b, v) {
      if v != id {
        assert JobOk(st, v);
      } else if targets == {} {
        assert JobOk(st, id);
      }
    }
  }

  lemma FinishKeepsJobs(st: State, k: nat, ok: bool)
    requires JobsOk(st) && k in st.closing
    ensures k < |st.armed| && st.armed[k].version in st.versions && JobsOk(FinishJob(st, k, ok))
  {
    assert ArmedOk(st, k);
    JobsFrame(st, FinishJob(st, k, ok));
  }
}

/** What holds of a node's servers and ports in every run of the agent. */
module SupervisionGuarantees {
  import opened Wrappers
  import opened Lifecycle
  import opened Supervision

  ghost predicate IsRun(from: int, to: int, found: seq<Found>, states: seq<State>, steps: seq<Step>) {
    && |states| == |steps| + 1
    && states[0] == Init(from, to, found)
    && forall i :: 0 <= i < |steps| ==> CanDo(states[i], steps[i]) && states[i + 1] == Do(states[i], steps[i])
  }

  /** Containers have ids of their own. */
  ghost predicate DistinctIds(found: seq<Found>) {
    forall i, j :: 0 <= i < j < |found| ==> found[i].id != found[j].id
  }

  lemma {:induction false} RunKeeps(from: int, to: int, found: seq<Found>, states: seq<State>, steps: seq<Step>, i: nat)
    requires IsRun(from, to, found, states, steps) && i <= |steps|
    requires DistinctIds(found) && DistinctPorts(Init(from, to, found), found)
    ensures Inv(states[i])
  {
    hide CanDo, Do;
    if i > 0 {
      RunKeeps(from, to, found, states, steps, i - 1);
      StepKeeps(states[i - 1], steps[i - 1]);
    }
  }

  // ---- when the restored ports are not distinct ----

  function RestoreStates(st: State, k: nat): seq<State>
    requires k <= |st.todo|
    ensures |RestoreStates(st, k)| == k + 1
    decreases k
  {
    if k == 0 then [st]
    else
      var before := RestoreStates(st, k - 1);
      before + [if before[k - 1].todo != [] then Restored(before[k - 1]) else before[k - 1]]
  }

  ghost predicate RestoredSoFar(st: State, found: seq<Found>, k: nat)
    requires k <= |found|
  {
    && st.todo == found[k..]
    && forall i :: 0 <= i < k ==>
         && found[i].id in st.servers && st.servers[found[i].id].phase == Supervised
         && st.servers[found[i].id].port == found[i].port
  }

  lemma {:induction false} RestoringIsARun(from: int, to: int, found: seq<Found>, k: nat)
    requires k <= |found| && DistinctIds(found)
    ensures var states := RestoreStates(Init(from, to, found), k);
            && IsRun(from, to, found, states, seq(k, _ => RestoreNext))
            && states[k].from == from && states[k].to == to && RestoredSoFar(states[k], found, k)
  {
    var states := RestoreStates(Init(from, to, found), k);
    if k > 0 {
      RestoringIsARun(from, to, found, k - 1);
      var before := RestoreStates(Init(from, to, found), k - 1);
      var last := before[k - 1];
      assert last.todo == found[k - 1..] && last.todo != [];
      RestoreOne(last, found, k - 1);
      RunGoesOn(from, to, found, before, seq(k - 1, _ => RestoreNext), RestoreNext);
      assert seq(k - 1, _ => RestoreNext) + [RestoreNext] == seq(k, _ => RestoreNext);
      assert states == before + [Restored(last)];
    }
  }

  lemma RunGoesOn(from: int, to: int, found: seq<Found>, states: seq<State>, steps: seq<Step>, step: Step)
    requires IsRun(from, to, found, states, steps) && CanDo(states[|steps|], step)
    ensures IsRun(from, to, found, states + [Do(states[|steps|], step)], steps + [step])
  {
    hide CanDo, Do;
    var longer, more := states + [Do(states[|steps|], step)], steps + [step];
    forall i | 0 <= i < |more| ensures CanDo(longer[i], more[i]) && longer[i + 1] == Do(longer[i], more[i]) {
      assert i < |steps| ==> longer[i] == states[i] && longer[i + 1] == states[i + 1] && more[i] == steps[i];
    }
  }

  lemma RestoreOne(st: State, found: seq<Found>, k: nat)
    requires k < |found| && DistinctIds(found) && RestoredSoFar(st, found, k)
    ensures RestoredSoFar(Restored(st), found, k + 1)
    ensures Restored(st).from == st.from && Restored(st).to == st.to
  {
    assert st.todo[0] == found[k];
    assert found[k..][1..] == found[k + 1..];
  }

  /** The books stay right in every run if and only if the containers found running had distinct ports in the range. */
  lemma PortsAreConservedIff(from: int, to: int, found: seq<Found>)
    requires DistinctIds(found)
    ensures DistinctPorts(Init(from, to, found), found)
       <==> forall states, steps :: IsRun(from, to, found, states, steps) ==> PortsOk(states[|steps|])
  {
    if DistinctPorts(Init(from, to, found), found) {
      forall states, steps | IsRun(from, to, found, states, steps) ensures PortsOk(states[|steps|]) {
        RunKeeps(from, to, found, states, steps, |steps|);
      }
    } else {
      var i, j :| 0 <= i < j < |found| && InRange(Init(from, to, found), found[i].port)
        && found[i].port == found[j].port;
      var n := |found|;
      RestoringIsARun(from, to, found, n);
      var states := RestoreStates(Init(from, to, found), n);
      var steps: seq<Step> := seq(n, _ => RestoreNext);
      var st := states[n];
      assert HoldsPort(st, found[i].id, found[i].port) && HoldsPort(st, found[j].id, found[i].port);
      assert !PortsOk(st);
      assert IsRun(from, to, found, states, steps) && states[|steps|] == st;
    }
  }

  ghost predicate Reached(from: int, to: int, found: seq<Found>, st: State) {
    exists states, steps :: IsRun(from, to, found, states, steps) && states[|steps|] == st
  }

  lemma Then(from: int, to: int, found: seq<Found>, st: State, step: Step) returns (b: State)
    requires Reached(from, to, found, st) && CanDo(st, step)
    ensures b == Do(st, step) && Reached(from, to, found, b)
  {
    hide CanDo, Do;
    b := Do(st, step);
    var states, steps :| IsRun(from, to, found, states, steps) && states[|steps|] == st;
    RunGoesOn(from, to, found, states, steps, step);
    assert (states + [b])[|steps + [step]|] == b;
  }

  /** All containers found have been restored. */
  lemma AllRestored(from: int, to: int, found: seq<Found>) returns (st: State)
    requires DistinctIds(found)
    ensures Reached(from, to, found, st) && st.from == from && st.to == to && RestoredSoFar(st, found, |found|)
    ensures forall i :: 0 <= i < |found| ==> st.servers[found[i].id].want == None
  {
    var n := |found|;
    RestoringIsARun(from, to, found, n);
    var states := RestoreStates(Init(from, to, found), n);
    var steps: seq<Step> := seq(n, _ => RestoreNext);
    st := states[n];
    assert IsRun(from, to, found, states, steps) && states[|steps|] == st;
    RestoredWantNothing(from, to, found, n);
  }

  lemma {:induction false} RestoredWantNothing(from: int, to: int, found: seq<Found>, k: nat)
    requires k <= |found|
    ensures forall id :: id in RestoreStates(Init(from, to, found), k)[k].servers ==>
              RestoreStates(Init(from, to, found), k)[k].servers[id].want == None
  {
    if k > 0 {
      RestoredWantNothing(from, to, found, k - 1);
    }
  }

  lemma CommitIsLocal(st: State, id: Id)
    requires CanDo(st, Commit(id))
    ensures var b := Do(st, Commit(id));
            && b == st.(servers := b.servers) && id in b.servers
            && b.servers[id].phase == st.servers[id].phase && b.servers[id].port == st.servers[id].port
            && b.servers[id].want == None
            && forall x :: x != id && x in st.servers ==> x in b.servers && b.servers[x] == st.servers[x]
  {
  }

  /**
   * Whenever two restored containers share a port in the range, there is a run in
   * which the one that exits releases it while the other is still supervised on it.
   */
  lemma FinishReleasesAnothersPort(from: int, to: int, found: seq<Found>, i: nat, j: nat)
    requires DistinctIds(found) && i < |found| && j < |found| && i != j
    requires from <= found[i].port <= to && found[i].port == found[j].port
    ensures exists st :: Reached(from, to, found, st)
              && found[j].id in st.servers && st.servers[found[j].id].phase == Supervised
              && Holds(st, st.servers[found[j].id]) && st.servers[found[j].id].port == found[j].port
              && found[j].port !in st.inUse
  {
    hide Reached, Transition, FinalState;
    var a, b := found[i].id, found[j].id;
    assert a != b;
    var s0 := AllRestored(from, to, found);
    assert s0.servers[a].phase == Supervised && s0.servers[b].phase == Supervised;
    var s1 := Then(from, to, found, s0, Exit(a, true, 0));
    var s2 := s1;
    if s1.servers[a].want.Some? {
      s2 := Then(from, to, found, s1, Commit(a));
      CommitIsLocal(s1, a);
    }
    var st := Then(from, to, found, s2, ReleasePort(a));
  }

  /** A port that leaves the pool's books is given back by the server that held it. */
  lemma ReleaseIsOfOwnPort(st: State, step: Step, p: int)
    requires Inv(st) && CanDo(st, step) && p in st.inUse && p !in Do(st, step).inUse
    ensures (step.LaunchFails? || step.ReleasePort?) && Holds(st, st.servers[step.id]) && st.servers[step.id].port == p
  {
    hide TodoOk, AllServersOk;
    InUseIsInRange(st);
  }

  /** A server record: its state only goes deeper, and its events are counted up. */
  ghost predicate Deeper(a: Server, b: Server) {
    && Depth(a.state) <= Depth(b.state) && (a.state != b.state ==> Depth(a.state) < Depth(b.state))
    && a.ready <= b.ready && a.failed <= b.failed
  }

  lemma TransitionDeepens(s: Server, to: LState)
    ensures Deeper(s, Transition(s, to))
  {
    TerminalIsDeadEnd(s.state);
  }

  /** Over all interleavings states only move down the transition graph, as long as a server is in the map. */
  lemma StatesOnlyDeepen(st: State, step: Step, id: Id)
    requires Inv(st) && CanDo(st, step) && id in st.servers && step != Evict(id)
    ensures id in Do(st, step).servers && Deeper(st.servers[id], Do(st, step).servers[id])
  {
    hide PortsOk, TodoOk, Transition, FinalState, AllServersOk;
    var s := st.servers[id];
    match step
    case RestoreNext => assert st.todo[0] in st.todo; NextIsNew(st);
    case Reject(x) => TransitionDeepens(s, Failed);
    case LaunchGivesUp(x) => TransitionDeepens(s, Failed);
    case Runs(x) => TransitionDeepens(s, Starting);
    case Commit(x) => if x == id { TransitionDeepens(s, s.want.value); }
    case CommitCommand(x, target) => TransitionDeepens(s.(commands := s.commands - multiset{target}), target);
    case _ =>
  }

  lemma NextIsNew(st: State)
    requires TodoOk(st) && st.todo != []
    ensures st.todo[0].id !in st.servers
  {
    assert st.todo[0] in st.todo;
  }

  /** In every run: at most one ready and one failed event per server, failed exactly when it ended so,
      and a server whose exit has been dealt with is in a terminal state and has given its port back. */
  lemma EventsAndEnds(from: int, to: int, found: seq<Found>, states: seq<State>, steps: seq<Step>, i: nat, id: Id)
    requires IsRun(from, to, found, states, steps) && i <= |steps| && id in states[i].servers
    requires DistinctIds(found) && DistinctPorts(Init(from, to, found), found)
    ensures var s := states[i].servers[id];
            && s.ready <= 1 && s.failed <= 1 && (s.failed == 1 <==> s.state == Failed)
            && (s.phase == Over ==> Terminal(s.state) && !Holds(states[i], s))
            && (Terminal(s.state) && s.state == Stopped ==> s.phase in {Finishing, Cleared, Over})
  {
    RunKeeps(from, to, found, states, steps, i);
    assert ServerOk(states[i].servers[id]);
  }

  /** Snapshot evicts only what has ended and holds nothing; the pool does not change. */
  lemma EvictionIsSafe(st: State, id: Id)
    requires Inv(st) && CanDo(st, Evict(id))
    ensures Terminal(st.servers[id].state) && !Holds(st, st.servers[id]) && st.servers[id].want == None
    ensures Do(st, Evict(id)).inUse == st.inUse
  {
    assert ServerOk(st.servers[id]);
  }

  /** Whatever Allocate and DrainServer do in between, the decision taken at exit ends in a terminal state. */
  lemma FinishEndsTerminal(st: State, id: Id)
    requires Inv(st) && id in st.servers && st.servers[id].phase == Finishing && st.servers[id].want.Some?
    ensures Terminal(Do(st, Commit(id)).servers[id].state)
    ensures CanDo(Do(st, Commit(id)), ReleasePort(id))
  {
    hide PortsOk, TodoOk;
    assert ServerOk(st.servers[id]);
    TerminalIsDeadEnd(st.servers[id].state);
  }

  // ---- how a server ends ----

  lemma {:induction false} RunKeepsServers(from: int, to: int, found: seq<Found>, states: seq<State>, steps: seq<Step>,
                                           i: nat)
    requires IsRun(from, to, found, states, steps) && i <= |steps|
    ensures AllServersOk(states[i])
  {
    hide CanDo, Do, AllServersOk;
    if i > 0 {
      RunKeepsServers(from, to, found, states, steps, i - 1);
      ServersKept(states[i - 1], steps[i - 1]);
    } else {
      NoServersOk(states[0]);
    }
  }

  lemma NoServersOk(st: State)
    requires st.servers == map[]
    ensures AllServersOk(st)
  {
  }

  /** The container is gone, or the server never ran. */
  predicate Gone(st: State, id: Id) {
    id in st.servers && (st.servers[id].phase == Finishing || st.servers[id].phase == Cleared
                         || st.servers[id].phase == Over)
  }

  /** The exit was watched to the end, and wanted or clean, and the server had not failed before. */
  predicate StopsCleanly(s: Server, err: bool, code: int) {
    s.state != Failed && !err && (s.stop || code == 0)
  }

  /** The server is where its exit sends it, or is about to go there. */
  predicate EndsAs(s: Server, cleanly: bool) {
    if s.want.Some? then
      s.phase == Finishing && s.state != Stopped && s.state != Failed
      && s.want.value == if cleanly then Stopped else Failed
    else s.state == if cleanly then Stopped else Failed
  }

  predicate IsExit(st: State, step: Step, id: Id) {
    step.Exit? && step.id == id && id in st.servers && st.servers[id].phase == Supervised
  }

  /** Step e is the exit of the server, which has been gone since. */
  ghost predicate ExitedAt(states: seq<State>, steps: seq<Step>, e: nat, i: nat, id: Id) {
    && e < i < |states| && e < |steps| && IsExit(states[e], steps[e], id)
    && forall j :: e < j <= i ==> Gone(states[j], id)
  }

  /** Step e failed the server before it ran, and it has been over since. */
  ghost predicate NeverRan(states: seq<State>, steps: seq<Step>, e: nat, i: nat, id: Id) {
    && e < i < |states| && e < |steps| && (steps[e] == Reject(id) || steps[e] == LaunchGivesUp(id))
    && forall j :: e < j <= i ==> Gone(states[j], id)
  }

  /** What one step does to a server that is gone: it is evicted, or ends as before. */
  lemma StaysAsItEnds(st: State, step: Step, id: Id, cleanly: bool)
    requires AllServersOk(st) && CanDo(st, step) && Gone(st, id) && EndsAs(st.servers[id], cleanly)
    requires id in Do(st, step).servers && (step.RestoreNext? ==> st.todo[0].id != id)
    ensures Gone(Do(st, step), id) && EndsAs(Do(st, step).servers[id], cleanly)
  {
    hide CanAcquire, FinalState;
    assert ServerOk(st.servers[id]);
    if step.Commit? && step.id == id {
      TerminalIsDeadEnd(st.servers[id].state);
    }
    if step.CommitCommand? && step.id == id {
      CommandEnds(st.servers[id], step.target, cleanly);
    }
  }

  lemma CommandEnds(s: Server, target: LState, cleanly: bool)
    requires ServerOk(s) && target in s.commands && EndsAs(s, cleanly)
    requires s.phase == Finishing || s.phase == Cleared || s.phase == Over
    ensures var t := Transition(s.(commands := s.commands - multiset{target}), target);
            EndsAs(t, cleanly) && t.phase == s.phase
  {
  }

  /** How a server comes to be gone. */
  lemma GoesBy(st: State, step: Step, id: Id)
    requires AllServersOk(st) && CanDo(st, step) && !Gone(st, id) && Gone(Do(st, step), id)
    ensures || (IsExit(st, step, id)
                && EndsAs(Do(st, step).servers[id], StopsCleanly(st.servers[id], step.err, step.code)))
            || ((step == Reject(id) || step == LaunchGivesUp(id)) && EndsAs(Do(st, step).servers[id], false))
  {
    hide CanAcquire;
    if id in st.servers {
      assert ServerOk(st.servers[id]);
    }
  }

  lemma RestoredIsNew(from: int, to: int, found: seq<Found>, states: seq<State>, steps: seq<Step>, i: nat, id: Id)
    requires IsRun(from, to, found, states, steps) && i < |steps| && DistinctIds(found) && DistinctTodo(states[i])
    ensures steps[i].RestoreNext? && id in states[i].servers ==> states[i].todo[0].id != id
  {
    assert CanDo(states[i], steps[i]);
  }

  /** What is still to be restored is in no record yet. */
  ghost predicate DistinctTodo(st: State) {
    && (forall i, j :: 0 <= i < j < |st.todo| ==> st.todo[i].id != st.todo[j].id)
    && (forall i :: 0 <= i < |st.todo| ==> st.todo[i].id !in st.servers)
  }

  lemma {:induction false} TodoStaysDistinct(from: int, to: int, found: seq<Found>, states: seq<State>,
                                             steps: seq<Step>, i: nat)
    requires IsRun(from, to, found, states, steps) && i <= |steps| && DistinctIds(found)
    ensures DistinctTodo(states[i])
  {
    hide CanDo, Do;
    if i > 0 {
      TodoStaysDistinct(from, to, found, states, steps, i - 1);
      StepKeepsTodoDistinct(states[i - 1], steps[i - 1]);
    }
  }

  lemma StepKeepsTodoDistinct(st: State, step: Step)
    requires DistinctTodo(st) && CanDo(st, step)
    ensures DistinctTodo(Do(st, step))
  {
    hide Transition, FinalState, CanAcquire;
    var b := Do(st, step);
    if step.RestoreNext? {
      assert forall i :: 0 <= i < |b.todo| ==> b.todo[i] == st.todo[i + 1];
    } else if st.todo != [] {
      assert b.todo == st.todo;
      assert b.servers.Keys <= st.servers.Keys;
    }
  }

  ghost predicate EndedBy(states: seq<State>, steps: seq<Step>, e: nat, i: nat, id: Id) {
    && i < |states| && id in states[i].servers
    && (|| (ExitedAt(states, steps, e, i, id)
            && EndsAs(states[i].servers[id], StopsCleanly(states[e].servers[id], steps[e].err, steps[e].code)))
        || (NeverRan(states, steps, e, i, id) && EndsAs(states[i].servers[id], false)))
  }

  lemma {:induction false} GoneHasEnd(from: int, to: int, found: seq<Found>, states: seq<State>, steps: seq<Step>,
                                      i: nat, id: Id)
    requires IsRun(from, to, found, states, steps) && i <= |steps| && DistinctIds(found) && Gone(states[i], id)
    ensures exists e :: EndedBy(states, steps, e, i, id)
  {
    hide CanDo, Do, AllServersOk, EndsAs, StopsCleanly, DistinctTodo, Gone;
    if i == 0 {
      NoneGone(states[0], id);
    } else {
      var st, step := states[i - 1], steps[i - 1];
      RunKeepsServers(from, to, found, states, steps, i - 1);
      if Gone(st, id) {
        GoneHasEnd(from, to, found, states, steps, i - 1, id);
        var e: nat :| EndedBy(states, steps, e, i - 1, id);
        TodoStaysDistinct(from, to, found, states, steps, i - 1);
        RestoredIsNew(from, to, found, states, steps, i - 1, id);
        IsGone(states[i], id);
        if ExitedAt(states, steps, e, i - 1, id)
            && EndsAs(st.servers[id], StopsCleanly(states[e].servers[id], steps[e].err, steps[e].code)) {
          StaysAsItEnds(st, step, id, StopsCleanly(states[e].servers[id], steps[e].err, steps[e].code));
          assert ExitedAt(states, steps, e, i, id);
        } else {
          StaysAsItEnds(st, step, id, false);
          assert NeverRan(states, steps, e, i, id);
        }
        assert EndedBy(states, steps, e, i, id);
      } else {
        GoesBy(st, step, id);
        IsGone(states[i], id);
        SinceNow(states, steps, i, id);
        assert EndedBy(states, steps, i - 1, i, id);
      }
    }
  }

  lemma SinceNow(states: seq<State>, steps: seq<Step>, i: nat, id: Id)
    requires 0 < i < |states| && i - 1 < |steps| && Gone(states[i], id)
    ensures forall j :: i - 1 < j <= i ==> Gone(states[j], id)
    ensures IsExit(states[i - 1], steps[i - 1], id) ==> ExitedAt(states, steps, i - 1, i, id)
    ensures steps[i - 1] == Reject(id) || steps[i - 1] == LaunchGivesUp(id) ==> NeverRan(states, steps, i - 1, i, id)
  {
  }

  lemma IsGone(st: State, id: Id)
    requires Gone(st, id)
    ensures id in st.servers
  {
  }

  lemma NoneGone(st: State, id: Id)
    requires st.servers == map[]
    ensures !Gone(st, id)
  {
  }

  /**
   * In every run, whatever Allocate and DrainServer do in between: a server that is over either was failed before
   * it ran, or has been gone since its exit; and then it is stopped exactly when that exit was watched to the
   * end, a stop had been requested or the code was 0, and the server had not failed before. Else it is failed.
   */
  lemma OverIsAsExited(from: int, to: int, found: seq<Found>, states: seq<State>, steps: seq<Step>, i: nat, id: Id)
    requires IsRun(from, to, found, states, steps) && i <= |steps| && DistinctIds(found)
    requires id in states[i].servers && states[i].servers[id].phase == Over
    ensures var s := states[i].servers[id];
            || (s.state == Failed && exists e :: NeverRan(states, steps, e, i, id))
            || (exists e: nat :: ExitedAt(states, steps, e, i, id) &&
                  var x := states[e].servers[id];
                  if x.state != Failed && !steps[e].err && (x.stop || steps[e].code == 0)
                  then s.state == Stopped else s.state == Failed)
  {
    hide CanDo, Do;
    GoneHasEnd(from, to, found, states, steps, i, id);
    var e: nat :| EndedBy(states, steps, e, i, id);
  }
}

/**
 * All servers of a node as a step system: starts, failed starts, exits,
 * commands and restores share one port pool. A transition is decided on the
 * state that was read and performed in a later step, as the machine's lock is
 * not held in between.
 */
module Supervision {
  import opened Wrappers
  import opened Lifecycle
  import opened PortPool

  type Id = string

  /** How far the goroutine of a server has come. */
  datatype Phase =
    | Launching                                        // no port yet
    | Bound                                            // port acquired, container not running
    | Unbound                                          // start failed, port given back
    | Supervised                                       // container running
    | Finishing                                        // container gone, port not given back yet
    | Cleared                                          // port given back
    | Over                                             // doneAt is set

  datatype Server = Server(
    state: LState, phase: Phase, port: int,
    stop: bool,                                        // stopRequested
    want: Option<LState>,                              // the supervisor's decided transition
    commands: multiset<LState>,                        // transitions decided by Allocate and DrainServer
    ready: nat, failed: nat)                           // events sent to the master

  /** A container found running when the agent starts. */
  datatype Found = Found(id: Id, port: int, recorded: LState)

  datatype State = State(from: int, to: int, inUse: set<int>, servers: map<Id, Server>, todo: seq<Found>)

  datatype Step =
    | RestoreNext
    | Start(id: Id)
    | Reject(id: Id)                                   // node draining, disk full, or no host port
    | Acquire(id: Id, requested: int, port: int)
    | LaunchFails(id: Id)                              // socket or container
    | LaunchGivesUp(id: Id)
    | Runs(id: Id)
    | ReadyFrame(id: Id)
    | GraceExpires(id: Id)
    | StopServer(id: Id)
    | Exit(id: Id, err: bool, code: int)
    | Commit(id: Id)
    | ReleasePort(id: Id)
    | SetDone(id: Id)
    | Allocate(id: Id)
    | DrainServer(id: Id)
    | CommitCommand(id: Id, target: LState)
    | Evict(id: Id)

  function Init(from: int, to: int, found: seq<Found>): State {
    State(from, to, {}, map[], found)
  }

  // ---- one server ----

  function NewServer(state: LState, phase: Phase, port: int): Server {
    Server(state, phase, port, false, None, multiset{}, 0, 0)
  }

  /** Recorded labels of unknown or early states restart the readiness grace. */
  function RestoredState(recorded: LState): LState {
    if recorded == Ready || recorded == Allocated || recorded == LState.Draining then recorded else Starting
  }

  /** Manager.transition: an illegal move is refused, ready and failed are reported. */
  function Transition(s: Server, to: LState): Server {
    if to in Next(s.state)
    then s.(state := to,
            ready := s.ready + (if to == Ready then 1 else 0),
            failed := s.failed + (if to == Failed then 1 else 0))
    else s
  }

  function Fail(s: Server): Server {
    Transition(s, Failed).(phase := Over)
  }

  /** finish's choice of a final state. */
  function FinalState(s: Server, err: bool, code: int): Option<LState> {
    if Terminal(s.state) then None
    else if err then Some(Failed)
    else if s.stop || code == 0 then Some(Stopped)
    else Some(Failed)
  }

  predicate InRange(st: State, port: int) {
    st.from <= port <= st.to
  }

  /** Between acquire and release. */
  predicate Holds(st: State, s: Server) {
    (s.phase == Bound || s.phase == Supervised || s.phase == Finishing) && InRange(st, s.port)
  }

  function Put(st: State, id: Id, s: Server): State {
    st.(servers := st.servers[id := s])
  }

  /** The supervisor is waiting for its next event. */
  predicate Idle(st: State, id: Id) {
    id in st.servers && st.servers[id].phase == Supervised && st.servers[id].want == None
  }

  predicate At(st: State, id: Id, phase: Phase) {
    id in st.servers && st.servers[id].phase == phase
  }

  ghost predicate CanAcquire(st: State, requested: int, port: int) {
    if requested > 0 then port == requested && InRange(st, port) && port !in st.inUse
    else IsLowestFree(st.from, st.to, st.inUse, port)
  }

  ghost predicate CanDo(st: State, step: Step) {
    match step
    case RestoreNext => st.todo != []
    case Start(id) => st.todo == [] && id != "" && id !in st.servers
    case Reject(id) => At(st, id, Launching)
    case Acquire(id, requested, port) => At(st, id, Launching) && CanAcquire(st, requested, port)
    case LaunchFails(id) => At(st, id, Bound)
    case LaunchGivesUp(id) => At(st, id, Unbound)
    case Runs(id) => At(st, id, Bound)
    case ReadyFrame(id) => Idle(st, id)
    case GraceExpires(id) => Idle(st, id)
    case StopServer(id) => Idle(st, id)
    case Exit(id, _, _) => Idle(st, id)
    case Commit(id) => id in st.servers && st.servers[id].want.Some?
    case ReleasePort(id) => At(st, id, Finishing) && st.servers[id].want == None
    case SetDone(id) => At(st, id, Cleared)
    case Allocate(id) => id in st.servers
    case DrainServer(id) => id in st.servers
    case CommitCommand(id, target) => id in st.servers && target in st.servers[id].commands
    case Evict(id) => At(st, id, Over) && Terminal(st.servers[id].state)
  }

  function Restored(st: State): State
    requires st.todo != []
  {
    var r := st.todo[0];
    var acquired := if InRange(st, r.port) && r.port !in st.inUse then {r.port} else {};
    Put(st, r.id, NewServer(RestoredState(r.recorded), Supervised, r.port))
    .(inUse := st.inUse + acquired, todo := st.todo[1..])
  }

  function Do(st: State, step: Step): State
    requires CanDo(st, step)
  {
    match step
    case RestoreNext => Restored(st)
    case Start(id) => Put(st, id, NewServer(Pulling, Launching, 0))
    case Reject(id) => Put(st, id, Fail(st.servers[id]))
    case Acquire(id, _, port) => Put(st, id, st.servers[id].(phase := Bound, port := port)).(inUse := st.inUse + {port})
    case LaunchFails(id) => Put(st, id, st.servers[id].(phase := Unbound)).(inUse := st.inUse - {st.servers[id].port})
    case LaunchGivesUp(id) => Put(st, id, Fail(st.servers[id]))
    case Runs(id) => Put(st, id, Transition(st.servers[id], Starting).(phase := Supervised))
    case ReadyFrame(id) =>
      if st.servers[id].state == Starting then Put(st, id, st.servers[id].(want := Some(Ready))) else st
    case GraceExpires(id) =>
      if st.servers[id].state == Starting then Put(st, id, st.servers[id].(want := Some(Failed))) else st
    case StopServer(id) =>
      var s := st.servers[id];
      var drains := !s.stop && (s.state == Ready || s.state == Allocated);
      Put(st, id, s.(stop := true, want := if drains then Some(LState.Draining) else None))
    case Exit(id, err, code) =>
      Put(st, id, st.servers[id].(phase := Finishing, want := FinalState(st.servers[id], err, code)))
    case Commit(id) => Put(st, id, Transition(st.servers[id], st.servers[id].want.value).(want := None))
    case ReleasePort(id) => Put(st, id, st.servers[id].(phase := Cleared)).(inUse := st.inUse - {st.servers[id].port})
    case SetDone(id) => Put(st, id, st.servers[id].(phase := Over))
    case Allocate(id) =>
      var s := st.servers[id];
      if s.state == Ready then Put(st, id, s.(commands := s.commands + multiset{Allocated})) else st
    case DrainServer(id) =>
      var s := st.servers[id];
      if s.state == Ready || s.state == Allocated
      then Put(st, id, s.(commands := s.commands + multiset{LState.Draining})) else st
    case CommitCommand(id, target) =>
      var s := st.servers[id];
      Put(st, id, Transition(s.(commands := s.commands - multiset{target}), target))
    case Evict(id) => st.(servers := st.servers - {id})
  }

  // ---- ports ----

  /** Containers found running in the range have a port each. */
  ghost predicate DistinctPorts(st: State, found: seq<Found>) {
    forall i, j :: 0 <= i < j < |found| && InRange(st, found[i].port) ==> found[i].port != found[j].port
  }

  /** The server holds the port. */
  predicate HoldsPort(st: State, id: Id, p: int) {
    id in st.servers && Holds(st, st.servers[id]) && st.servers[id].port == p
  }

  /** The pool's books: in use are exactly the ports held, and no two servers hold the same one. */
  ghost predicate PortsOk(st: State) {
    && (forall id, p :: HoldsPort(st, id, p) ==> p in st.inUse)
    && (forall p :: p in st.inUse ==> exists id :: HoldsPort(st, id, p))
    && (forall a, b, p :: HoldsPort(st, a, p) && HoldsPort(st, b, p) ==> a == b)
  }

  /** What is still to be restored: new servers, on ports of their own. */
  ghost predicate TodoOk(st: State) {
    && (forall i, j :: 0 <= i < j < |st.todo| ==> st.todo[i].id != st.todo[j].id)
    && (forall r :: r in st.todo ==> r.id !in st.servers && (InRange(st, r.port) ==> r.port !in st.inUse))
    && DistinctPorts(st, st.todo)
    && (st.todo != [] ==> forall id :: id in st.servers ==> st.servers[id].phase != Launching)
  }

  // ---- states and events ----

  ghost predicate ServerOk(s: Server) {
    && s.ready <= 1 && s.failed <= 1
    && (s.ready == 1 ==> Depth(s.state) >= Depth(Ready))
    && (s.failed == 1 <==> s.state == Failed)
    && (s.phase in {Launching, Bound, Unbound} ==> s.state == Pulling && s.want == None)
    && (s.phase == Supervised ==> s.state in {Starting, Ready, Allocated, LState.Draining, Failed})
    && (s.phase == Supervised && s.want.Some? ==> s.want.value in {Ready, LState.Draining, Failed})
    && (s.phase == Finishing ==> if s.want.Some? then Terminal(s.want.value) else Terminal(s.state))
    && (s.phase in {Cleared, Over} ==> Terminal(s.state) && s.want == None)
    && (forall c :: c in s.commands ==> c in {Allocated, LState.Draining} && Depth(s.state) >= Depth(Ready))
  }

  ghost predicate AllServersOk(st: State) {
    forall id :: id in st.servers ==> ServerOk(st.servers[id])
  }

  ghost predicate Inv(st: State) {
    PortsOk(st) && TodoOk(st) && AllServersOk(st)
  }

  /** A server record changes, the port it holds does not. */
  lemma SamePort(st: State, id: Id, s: Server)
    requires PortsOk(st) && id in st.servers
    requires Holds(st, s) <==> Holds(st, st.servers[id])
    requires s.port == st.servers[id].port
    ensures PortsOk(Put(st, id, s))
  {
    var b := Put(st, id, s);
    forall x, p ensures HoldsPort(b, x, p) <==> HoldsPort(st, x, p) {
    }
    SameHoldings(st, b);
  }

  lemma SameHoldings(a: State, b: State)
    requires PortsOk(a) && b.inUse == a.inUse
    requires forall x, p :: HoldsPort(b, x, p) <==> HoldsPort(a, x, p)
    ensures PortsOk(b)
  {
    hide HoldsPort;
  }

  /** A server that held no port takes one nobody holds. */
  lemma TakesPort(st: State, id: Id, s: Server, taken: set<int>)
    requires PortsOk(st) && (id in st.servers ==> !Holds(st, st.servers[id]))
    requires taken == (if Holds(st, s) then {s.port} else {}) && taken !! st.inUse
    ensures PortsOk(Put(st, id, s).(inUse := st.inUse + taken))
  {
    var b := Put(st, id, s).(inUse := st.inUse + taken);
    forall x, p ensures HoldsPort(b, x, p) <==> HoldsPort(st, x, p) || (x == id && p in taken) {
    }
    OneMoreHolding(st, b, id, taken);
  }

  lemma OneMoreHolding(a: State, b: State, id: Id, taken: set<int>)
    requires PortsOk(a) && b.inUse == a.inUse + taken && taken !! a.inUse
    requires forall x, p :: HoldsPort(b, x, p) <==> HoldsPort(a, x, p) || (x == id && p in taken)
    ensures PortsOk(b)
  {
    hide HoldsPort;
    forall p | p in b.inUse ensures exists x :: HoldsPort(b, x, p) {
      if p in taken {
        assert HoldsPort(b, id, p);
      } else {
        var x :| HoldsPort(a, x, p);
        assert HoldsPort(b, x, p);
      }
    }
  }

  /** A release is of the port the server itself holds, or of none. */
  lemma GivesBackOwnPort(st: State, id: Id, s: Server)
    requires PortsOk(st) && id in st.servers && !Holds(st, s)
    requires Holds(st, st.servers[id]) || !InRange(st, st.servers[id].port)
    requires forall p :: p in st.inUse ==> InRange(st, p)
    ensures PortsOk(Put(st, id, s).(inUse := st.inUse - {st.servers[id].port}))
  {
    var port := st.servers[id].port;
    var b := Put(st, id, s).(inUse := st.inUse - {port});
    assert port in st.inUse ==> HoldsPort(st, id, port);
    forall x, p ensures HoldsPort(b, x, p) <==> HoldsPort(st, x, p) && x != id {
    }
    OneLessHolding(st, b, id, port);
  }

  lemma OneLessHolding(a: State, b: State, id: Id, port: int)
    requires PortsOk(a) && b.inUse == a.inUse - {port} && (port in a.inUse ==> HoldsPort(a, id, port))
    requires forall x, p :: HoldsPort(b, x, p) <==> HoldsPort(a, x, p) && x != id
    requires forall p :: HoldsPort(a, id, p) ==> p == port
    ensures PortsOk(b)
  {
    hide HoldsPort;
    forall p | p in b.inUse ensures exists x :: HoldsPort(b, x, p) {
      var x :| HoldsPort(a, x, p);
      assert HoldsPort(b, x, p);
    }
  }

  lemma InUseIsInRange(st: State)
    requires PortsOk(st)
    ensures forall p :: p in st.inUse ==> InRange(st, p)
  {
  }

  lemma RestoreKeepsPorts(st: State)
    requires PortsOk(st) && TodoOk(st) && st.todo != []
    ensures PortsOk(Restored(st))
  {
    hide PortsOk;
    var r := st.todo[0];
    assert r in st.todo;
    var s := NewServer(RestoredState(r.recorded), Supervised, r.port);
    var taken := if InRange(st, r.port) && r.port !in st.inUse then {r.port} else {};
    TakesPort(st, r.id, s, taken);
    SamePorts(Put(st, r.id, s).(inUse := st.inUse + taken), Restored(st));
  }

  lemma SamePorts(a: State, b: State)
    requires PortsOk(a) && b.servers == a.servers && b.inUse == a.inUse && b.from == a.from && b.to == a.to
    ensures PortsOk(b)
  {
    forall x, p ensures HoldsPort(b, x, p) <==> HoldsPort(a, x, p) {
    }
    SameHoldings(a, b);
  }

  lemma RestoreKeepsTodo(st: State)
    requires TodoOk(st) && st.todo != []
    ensures TodoOk(Restored(st))
  {
    var b := Restored(st);
    var rest := st.todo[1..];
    assert forall i :: 0 <= i < |rest| ==> rest[i] == st.todo[i + 1];
    forall x | x in rest ensures x.id !in b.servers && (InRange(b, x.port) ==> x.port !in b.inUse) {
      var i :| 0 <= i < |rest| && rest[i] == x;
      assert st.todo[i + 1] == x && x in st.todo;
      assert st.todo[0].id != x.id && (InRange(st, st.todo[0].port) ==> st.todo[0].port != x.port);
    }
  }

  /** Steps on one record, which leave the pool and the port alone. */
  lemma RecordKeepsPorts(st: State, step: Step)
    requires PortsOk(st) && CanDo(st, step) && !TouchesPool(step) && !step.Start?
    ensures PortsOk(Do(st, step))
  {
    hide PortsOk, Next;
    OnlyRecord(st, step);
    SamePort(st, step.id, Do(st, step).servers[step.id]);
  }

  /** Steps after the restore: nothing is left to do there. */
  lemma PortsKept(st: State, step: Step)
    requires PortsOk(st) && CanDo(st, step) && !step.RestoreNext?
    ensures PortsOk(Do(st, step))
  {
    hide PortsOk, Transition, FinalState, IsLowestFree;
    InUseIsInRange(st);
    match step
    case Start(id) =>
      TakesPort(st, id, NewServer(Pulling, Launching, 0), {});
      assert st.inUse + {} == st.inUse;
    case Acquire(id, requested, port) =>
      AcquiresFree(st, requested, port);
      TakesPort(st, id, st.servers[id].(phase := Bound, port := port), {port});
    case LaunchFails(id) => GivesBackOwnPort(st, id, st.servers[id].(phase := Unbound));
    case ReleasePort(id) => GivesBackOwnPort(st, id, st.servers[id].(phase := Cleared));
    case Evict(id) => EvictKeepsPorts(st, id);
    case _ => RecordKeepsPorts(st, step);
  }

  lemma AcquiresFree(st: State, requested: int, port: int)
    requires CanAcquire(st, requested, port)
    ensures InRange(st, port) && port !in st.inUse
  {
  }

  lemma EvictKeepsPorts(st: State, id: Id)
    requires PortsOk(st) && id in st.servers && !Holds(st, st.servers[id])
    ensures PortsOk(st.(servers := st.servers - {id}))
  {
    var b := st.(servers := st.servers - {id});
    forall x, p ensures HoldsPort(b, x, p) <==> HoldsPort(st, x, p) {
    }
    SameHoldings(st, b);
  }

  /** While something is left to restore, no server is new, no port is taken, and nothing is launched. */
  lemma StillRestoring(st: State, step: Step)
    requires TodoOk(st) && st.todo != [] && CanDo(st, step) && !step.RestoreNext?
    ensures var b := Do(st, step);
            && b.servers.Keys <= st.servers.Keys && b.inUse <= st.inUse
            && forall id :: id in b.servers ==> b.servers[id].phase != Launching
  {
    hide Transition, IsLowestFree, DistinctPorts;
    NothingLaunches(st);
    forall s, to ensures Transition(s, to).phase == s.phase {
      TransitionKeepsPhase(s, to);
    }
  }

  lemma NothingLaunches(st: State)
    requires TodoOk(st) && st.todo != []
    ensures forall id :: id in st.servers ==> st.servers[id].phase != Launching
  {
  }

  lemma TransitionKeepsPhase(s: Server, to: LState)
    ensures Transition(s, to).phase == s.phase
  {
  }

  lemma TodoKept(st: State, step: Step)
    requires Inv(st) && CanDo(st, step) && !step.RestoreNext?
    ensures TodoOk(Do(st, step))
  {
    hide PortsOk, AllServersOk, Transition, IsLowestFree, TodoOk, FinalState;
    if st.todo == [] {
      NothingToDo(Do(st, step));
    } else {
      StillRestoring(st, step);
      TodoFrame(st, Do(st, step));
    }
  }

  lemma NothingToDo(st: State)
    requires st.todo == []
    ensures TodoOk(st)
  {
  }

  lemma TodoFrame(a: State, b: State)
    requires TodoOk(a) && b.todo == a.todo && b.from == a.from && b.to == a.to
    requires b.servers.Keys <= a.servers.Keys && b.inUse <= a.inUse
    requires forall id :: id in b.servers ==> b.servers[id].phase != Launching
    ensures TodoOk(b)
  {
  }

  lemma PutKeepsServers(st: State, id: Id, s: Server)
    requires AllServersOk(st) && ServerOk(s)
    ensures AllServersOk(Put(st, id, s))
  {
    hide ServerOk;
  }

  lemma FailOk(s: Server)
    requires ServerOk(s) && (s.phase == Launching || s.phase == Unbound)
    ensures ServerOk(Fail(s))
  {
  }

  lemma RunsOk(s: Server)
    requires ServerOk(s) && s.phase == Bound
    ensures ServerOk(Transition(s, Starting).(phase := Supervised))
  {
  }

  lemma ExitOk(s: Server, err: bool, code: int)
    requires ServerOk(s) && s.phase == Supervised && s.want == None
    ensures ServerOk(s.(phase := Finishing, want := FinalState(s, err, code)))
  {
  }

  /** The supervisor performs what it decided, in a state that Allocate or DrainServer may have moved meanwhile. */
  lemma CommitOk(s: Server)
    requires ServerOk(s) && s.want.Some?
    ensures ServerOk(Transition(s, s.want.value).(want := None))
  {
    assert s.phase == Supervised || s.phase == Finishing;
  }

  lemma CommandOk(s: Server, target: LState)
    requires ServerOk(s) && target in s.commands
    ensures ServerOk(Transition(s.(commands := s.commands - multiset{target}), target))
  {
    hide Transition, Next, Depth;
    var t := s.(commands := s.commands - multiset{target});
    assert forall c :: c in t.commands ==> c in s.commands;
    assert ServerOk(t);
    assert target == Allocated || target == LState.Draining;
    CommandTransitionOk(t, target);
  }

  lemma CommandTransitionOk(s: Server, target: LState)
    requires ServerOk(s) && Depth(s.state) >= Depth(Ready) && (target == Allocated || target == LState.Draining)
    ensures ServerOk(Transition(s, target))
  {
  }

  /** Steps that also touch the pool or what is left to restore. */
  predicate TouchesPool(step: Step) {
    step.RestoreNext? || step.Acquire? || step.LaunchFails? || step.ReleasePort? || step.Evict?
  }

  lemma PoolStepsKeepServers(st: State, step: Step)
    requires AllServersOk(st) && CanDo(st, step) && TouchesPool(step)
    ensures AllServersOk(Do(st, step))
  {
    hide PortsOk, TodoOk, IsLowestFree, Transition, FinalState, AllServersOk, Next;
    EachServerOk(st);
    if step.Evict? {
      FewerServers(st, step.id);
    } else {
      var id := if step.RestoreNext? then st.todo[0].id else step.id;
      var s := Do(st, step).servers[id];
      PutKeepsServers(st, id, s);
      SameServers(Put(st, id, s), Do(st, step));
    }
  }

  /** Steps that perform a transition and leave the pool alone. */
  predicate Moves(step: Step) {
    step.Reject? || step.LaunchGivesUp? || step.Runs? || step.Commit? || step.CommitCommand?
  }

  lemma MovedOk(st: State, step: Step)
    requires CanDo(st, step) && Moves(step) && ServerOk(st.servers[step.id])
    ensures ServerOk(Do(st, step).servers[step.id])
  {
    hide ServerOk, Transition;
    var s := st.servers[step.id];
    match step
    case Reject(_) => FailOk(s);
    case LaunchGivesUp(_) => FailOk(s);
    case Runs(_) => RunsOk(s);
    case Commit(_) => CommitOk(s);
    case CommitCommand(_, target) => CommandOk(s, target);
    case _ =>
  }

  /** Other steps on one record: a new server, a decision, or the end of its goroutine. */
  lemma DecidedOk(st: State, step: Step)
    requires CanDo(st, step) && !Moves(step) && !TouchesPool(step)
    requires step.id in st.servers ==> ServerOk(st.servers[step.id])
    ensures step.id in Do(st, step).servers && ServerOk(Do(st, step).servers[step.id])
  {
    hide Transition, FinalState;
    if step.Exit? {
      ExitOk(st.servers[step.id], step.err, step.code);
    }
  }

  lemma OnlyRecord(st: State, step: Step)
    requires CanDo(st, step) && !TouchesPool(step)
    ensures var b := Do(st, step); step.id in b.servers && b == Put(st, step.id, b.servers[step.id])
  {
    hide Transition, FinalState;
  }

  lemma ServersKept(st: State, step: Step)
    requires AllServersOk(st) && CanDo(st, step)
    ensures AllServersOk(Do(st, step))
  {
    hide ServerOk, AllServersOk, Do, CanDo;
    EachServerOk(st);
    if TouchesPool(step) {
      PoolStepsKeepServers(st, step);
    } else {
      OnlyRecord(st, step);
      if Moves(step) {
        MoverIsThere(st, step);
        MovedOk(st, step);
      } else {
        DecidedOk(st, step);
      }
      PutKeepsServers(st, step.id, Do(st, step).servers[step.id]);
    }
  }

  lemma MoverIsThere(st: State, step: Step)
    requires CanDo(st, step) && Moves(step)
    ensures step.id in st.servers
  {
  }

  lemma EachServerOk(st: State)
    requires AllServersOk(st)
    ensures forall id :: id in st.servers ==> ServerOk(st.servers[id])
  {
  }

  lemma SameServers(a: State, b: State)
    requires AllServersOk(a) && b.servers == a.servers
    ensures AllServersOk(b)
  {
  }

  lemma FewerServers(st: State, id: Id)
    requires AllServersOk(st)
    ensures AllServersOk(st.(servers := st.servers - {id}))
  {
  }

  /** Every step keeps the books and every server's record in order. */
  lemma StepKeeps(st: State, step: Step)
    requires Inv(st) && CanDo(st, step)
    ensures Inv(Do(st, step))
  {
    hide PortsOk, TodoOk, AllServersOk;
    ServersKept(st, step);
    if step.RestoreNext? {
      RestoreKeepsPorts(st);
      RestoreKeepsTodo(st);
    } else {
      PortsKept(st, step);
      TodoKept(st, step);
    }
  }
}

/**
 * The agent's manager as an object over the port pool and the server map. Its
 * methods are sequences of supervision steps, so what holds of all runs of
 * steps holds of every history of calls.
 */
module AgentManager {
  import opened Wrappers
  import opened Lifecycle
  import opened PortPool
  import opened Supervision

  ghost predicate IsPath(states: seq<State>, steps: seq<Step>) {
    && |states| == |steps| + 1
    && forall i :: 0 <= i < |steps| ==> CanDo(states[i], steps[i]) && states[i + 1] == Do(states[i], steps[i])
  }

  ghost predicate Leads(a: State, b: State) {
    exists states, steps :: IsPath(states, steps) && states[0] == a && states[|steps|] == b
  }

  lemma LeadsToItself(a: State)
    ensures Leads(a, a)
  {
    assert IsPath([a], []);
  }

  lemma PathGoesOn(states: seq<State>, steps: seq<Step>, step: Step)
    requires IsPath(states, steps) && CanDo(states[|steps|], step)
    ensures IsPath(states + [Do(states[|steps|], step)], steps + [step])
  {
    hide CanDo, Do;
    var more, longer := states + [Do(states[|steps|], step)], steps + [step];
    forall i | 0 <= i < |longer| ensures CanDo(more[i], longer[i]) && more[i + 1] == Do(more[i], longer[i]) {
      assert i < |steps| ==> more[i] == states[i] && more[i + 1] == states[i + 1] && longer[i] == steps[i];
    }
  }

  /** One more step. */
  lemma LeadsOn(a: State, b: State, step: Step, c: State)
    requires Leads(a, b) && Inv(b) && CanDo(b, step) && c == Do(b, step)
    ensures Leads(a, c) && Inv(c)
  {
    hide Inv, CanDo, Do;
    StepKeeps(b, step);
    var states, steps :| IsPath(states, steps) && states[0] == a && states[|steps|] == b;
    PathGoesOn(states, steps, step);
    assert (states + [c])[0] == a && (states + [c])[|steps + [step]|] == c;
  }

  /** How the parts of a launch outside the agent turn out. */
  datatype Launch = Launch(requested: int, socket: bool, container: bool)

  /** A port can be had: the one asked for, or any. */
  ghost predicate Available(from: int, to: int, inUse: set<int>, requested: int) {
    if requested > 0 then from <= requested <= to && requested !in inUse
    else exists p :: from <= p <= to && p !in inUse
  }

  class Manager {
    const pool: Pool
    var servers: map<Id, Server>
    ghost var todo: seq<Found>

    ghost function View(): State
      reads this, pool
    {
      State(pool.from, pool.to, pool.inUse, servers, todo)
    }

    ghost predicate Valid()
      reads this, pool
    {
      pool.Valid() && Inv(View())
    }

    constructor (from: int, to: int, ghost found: seq<Found>)
      requires 0 < from <= to <= 65535 && TodoOk(Init(from, to, found))
      ensures Valid() && View() == Init(from, to, found) && fresh(pool)
    {
      pool := new Pool(from, to);
      servers := map[];
      todo := found;
    }

    /** Re-adopts the containers found running; a port outside the pool is only logged. */
    method Restore(found: seq<Found>)
      requires Valid() && todo == found
      modifies this, pool
      ensures Valid() && Leads(old(View()), View()) && todo == []
      ensures forall i :: 0 <= i < |found| ==>
                && found[i].id in servers
                && var kept := found[i].recorded in {Ready, Allocated, LState.Draining};
                   servers[found[i].id] == Server(if kept then found[i].recorded else Starting, Supervised,
                                                  found[i].port, false, None, multiset{}, 0, 0)
      ensures forall id :: id in old(servers) ==> id in servers && servers[id] == old(servers)[id]
      ensures forall p :: p in pool.inUse <==>
          p in old(pool.inUse) || exists i :: 0 <= i < |found| && found[i].port == p && pool.from <= p <= pool.to
    {
      hide Inv, Leads, CanDo, Do, TodoOk;
      ghost var before := View();
      LeadsToItself(before);
      for i := 0 to |found|
        invariant Valid() && Leads(before, View()) && todo == found[i..]
        invariant forall j :: 0 <= j < i ==>
                    && found[j].id in servers
                    && servers[found[j].id] == NewServer(RestoredState(found[j].recorded), Supervised, found[j].port)
        invariant forall id :: id in old(servers) ==> id in servers && servers[id] == old(servers)[id]
        invariant forall p :: p in pool.inUse <==>
            p in old(pool.inUse) || exists j :: 0 <= j < i && found[j].port == p && pool.from <= p <= pool.to
      {
        var r := found[i];
        ghost var b := View();
        NextIsFresh(b);
        var _ := pool.AcquireSpecific(r.port);
        servers := servers[r.id := NewServer(RestoredState(r.recorded), Supervised, r.port)];
        todo := todo[1..];
        RestoreIsStep(b, View());
        LeadsOn(before, b, RestoreNext, View());
      }
    }

    /** StartServer up to the launch: a known id is left alone, a draining or full node rejects. */
    method Start(id: Id, rejected: bool) returns (launch: bool)
      requires Valid() && todo == []
      modifies this
      ensures Valid() && Leads(old(View()), View()) && todo == []
      ensures launch <==> id != "" && id !in old(servers) && !rejected
      ensures id == "" || id in old(servers) ==> View() == old(View())
      ensures launch ==>
                servers == old(servers)[id := Server(Pulling, Launching, 0, false, None, multiset{}, 0, 0)]
      ensures id != "" && id !in old(servers) && rejected ==>
                servers == old(servers)[id := Server(Failed, Over, 0, false, None, multiset{}, 0, 1)]
    {
      hide Inv, Leads, Do;
      ghost var before := View();
      LeadsToItself(before);
      if id == "" || id in servers {
        return false;
      }
      servers := servers[id := NewServer(Pulling, Launching, 0)];
      ghost var added := View();
      StartIsStep(before, id);
      LeadsOn(before, before, Step.Start(id), added);
      launch := !rejected;
      if rejected {
        servers := servers[id := Fail(servers[id])];
        RejectIsStep(added, id);
        LeadsOn(before, added, Reject(id), View());
        FailsAndRuns(NewServer(Pulling, Launching, 0));
      }
    }

    /** The port asked for, or else the lowest free one. */
    method AcquirePort(requested: int) returns (port: Option<int>)
      requires pool.Valid()
      modifies pool
      ensures pool.Valid() && (port.Some? <==> Available(pool.from, pool.to, old(pool.inUse), requested))
      ensures port.None? ==> pool.inUse == old(pool.inUse)
      ensures port.Some? ==>
                && CanAcquire(old(View()), requested, port.value) && port.value !in old(pool.inUse)
                && pool.inUse == old(pool.inUse) + {port.value}
                && (if requested > 0 then port.value == requested
                    else IsLowestFree(pool.from, pool.to, old(pool.inUse), port.value))
    {
      if requested > 0 {
        var ok := pool.AcquireSpecific(requested);
        port := if ok then Some(requested) else None;
      } else {
        port := pool.Acquire();
      }
    }

    /** Port, socket, container; whatever fails, the port goes back before the server is failed. */
    method Launch(id: Id, l: Launch)
      requires Valid() && id in servers && servers[id].phase == Launching
      modifies this, pool
      ensures Valid() && Leads(old(View()), View()) && todo == old(todo)
      ensures servers.Keys == old(servers).Keys
      ensures forall k :: k in servers && k != id ==> servers[k] == old(servers)[k]
      ensures var s := old(servers)[id];
              if l.socket && l.container && Available(pool.from, pool.to, old(pool.inUse), l.requested)
              then
                && servers[id] == s.(state := Starting, phase := Supervised, port := servers[id].port)
                && pool.inUse == old(pool.inUse) + {servers[id].port} && servers[id].port !in old(pool.inUse)
                && (if l.requested > 0 then servers[id].port == l.requested
                    else IsLowestFree(pool.from, pool.to, old(pool.inUse), servers[id].port))
              else
                && servers[id] == s.(state := Failed, phase := Over, port := servers[id].port, failed := s.failed + 1)
                && pool.inUse == old(pool.inUse)
    {
      hide Inv, Leads, CanDo, Do, Fail, Transition, Exhausted, Available, CanAcquire, IsLowestFree;
      ghost var before := View();
      LeadsToItself(before);
      LaunchingIsPulling(before, id);
      FailsAndRuns(servers[id]);
      var p := AcquirePort(l.requested);
      if p.None? {
        servers := servers[id := Fail(servers[id])];
        RejectIsStep(before, id);
        LeadsOn(before, before, Reject(id), View());
        return;
      }
      var port := p.value;
      servers := servers[id := servers[id].(phase := Bound, port := port)];
      ghost var bound := View();
      AcquireIsStep(before, id, l.requested, port);
      LeadsOn(before, before, Step.Acquire(id, l.requested, port), bound);
      if !l.socket || !l.container {
        var _ := pool.Release(port);
        servers := servers[id := servers[id].(phase := Unbound)];
        ghost var unbound := View();
        LaunchFailsIsStep(bound, id);
        LeadsOn(before, bound, LaunchFails(id), unbound);
        FailsAndRuns(servers[id]);
        servers := servers[id := Fail(servers[id])];
        GivesUpIsStep(unbound, id);
        LeadsOn(before, unbound, LaunchGivesUp(id), View());
        return;
      }
      FailsAndRuns(servers[id]);
      servers := servers[id := Transition(servers[id], Starting).(phase := Supervised)];
      RunsIsStep(bound, id);
      LeadsOn(before, bound, Runs(id), View());
    }

    /** Container exit: final state, port, doneAt. */
    method Finish(id: Id, err: bool, code: int)
      requires Valid() && Idle(View(), id)
      modifies this, pool
      ensures Valid() && Leads(old(View()), View()) && todo == old(todo)
      ensures servers.Keys == old(servers).Keys && servers[id].phase == Over
      ensures forall k :: k in servers && k != id ==> servers[k] == old(servers)[k]
      ensures var s, now := old(servers)[id], servers[id];
              if s.state == Stopped || s.state == Failed then
                now.state == s.state && now.failed == s.failed && now.ready == s.ready
              else if !err && (s.stop || code == 0) then
                now.state == Stopped && now.failed == s.failed == 0 && now.ready == s.ready
              else
                now.state == Failed && now.failed == 1 && s.failed == 0 && now.ready == s.ready
      ensures pool.inUse == old(pool.inUse) - {old(servers)[id].port}
    {
      hide Inv, Leads, CanDo, Do, FinalState, Transition;
      ghost var before := View();
      LeadsToItself(before);
      var cur := servers[id];
      servers := servers[id := cur.(phase := Finishing, want := FinalState(cur, err, code))];
      ghost var exited := View();
      ExitIsStep(before, id, err, code);
      ExitDecides(before, id, err, code);
      LeadsOn(before, before, Exit(id, err, code), exited);
      if servers[id].want.Some? {
        var s := servers[id];
        servers := servers[id := Transition(s, s.want.value).(want := None)];
        CommitIsStep(exited, id);
        LeadsOn(before, exited, Commit(id), View());
      }
      ghost var settled := View();
      SettledIsTerminal(settled, id);
      var port := servers[id].port;
      var _ := pool.Release(port);
      servers := servers[id := servers[id].(phase := Cleared)];
      ghost var cleared := View();
      ReleaseIsStep(settled, id);
      LeadsOn(before, settled, ReleasePort(id), cleared);
      servers := servers[id := servers[id].(phase := Over)];
      SetDoneIsStep(cleared, id);
      LeadsOn(before, cleared, SetDone(id), View());
    }

    /** liba is up: only a starting server becomes ready. */
    method OnReady(id: Id)
      requires Valid() && Idle(View(), id)
      modifies this
      ensures Valid() && Leads(old(View()), View()) && todo == old(todo)
      ensures var s := old(servers)[id];
              servers == old(servers)[id := if s.state == Starting then s.(state := Ready, ready := s.ready + 1) else s]
    {
      hide Inv, Leads, Transition;
      LeadsToItself(View());
      if servers[id].state == Starting {
        StartingMoves(servers[id]);
        ReadyIsStep(View(), id);
        servers := servers[id := Transition(servers[id], Ready)];
      }
    }

    /** The readiness grace is over: only a starting server fails. */
    method OnGraceExpired(id: Id)
      requires Valid() && Idle(View(), id)
      modifies this
      ensures Valid() && Leads(old(View()), View()) && todo == old(todo)
      ensures var s := old(servers)[id];
              servers == old(servers)[id :=
                if s.state == Starting then s.(state := Failed, failed := s.failed + 1) else s]
    {
      hide Inv, Leads, Transition;
      LeadsToItself(View());
      if servers[id].state == Starting {
        StartingMoves(servers[id]);
        GraceIsStep(View(), id);
        servers := servers[id := Transition(servers[id], Failed)];
      }
    }

    /** StopServer: the first request drains a ready or allocated server; later ones are ignored. */
    method OnStop(id: Id)
      requires Valid() && Idle(View(), id)
      modifies this
      ensures Valid() && Leads(old(View()), View()) && todo == old(todo)
      ensures var s := old(servers)[id];
              servers == old(servers)[id :=
                if !s.stop && (s.state == Ready || s.state == Allocated)
                    then s.(stop := true, state := LState.Draining) else s.(stop := true)]
    {
      hide Inv, Leads, Transition;
      StopIsStep(View(), id);
      var s := servers[id].(stop := true);
      if !servers[id].stop && (s.state == Ready || s.state == Allocated) {
        s := Transition(s, LState.Draining);
      }
      servers := servers[id := s];
    }

    /** AllocateServer: only a ready server becomes allocated; an unknown one is ignored. */
    method AllocateServer(id: Id)
      requires Valid()
      modifies this
      ensures Valid() && Leads(old(View()), View()) && todo == old(todo)
      ensures servers == if id in old(servers) && old(servers)[id].state == Ready
                         then old(servers)[id := old(servers)[id].(state := Allocated)] else old(servers)
    {
      hide Inv, Leads, Transition;
      LeadsToItself(View());
      if id in servers && servers[id].state == Ready {
        AllocateIsStep(View(), id);
        servers := servers[id := Transition(servers[id], Allocated)];
      }
    }

    /** DrainServer: a ready or allocated server drains, without any signal. */
    method Drain(id: Id)
      requires Valid()
      modifies this
      ensures Valid() && Leads(old(View()), View()) && todo == old(todo)
      ensures servers == if id in old(servers)
          && (old(servers)[id].state == Ready || old(servers)[id].state == Allocated)
                         then old(servers)[id := old(servers)[id].(state := LState.Draining)] else old(servers)
    {
      hide Inv, Leads, Transition;
      LeadsToItself(View());
      if id in servers && (servers[id].state == Ready || servers[id].state == Allocated) {
        DrainIsStep(View(), id);
        servers := servers[id := Transition(servers[id], LState.Draining)];
      }
    }

    /** The server map for a heartbeat; tombstones past their time to live are dropped from it for good. */
    method Snapshot(expired: set<Id>) returns (alive: set<Id>)
      requires Valid()
      modifies this
      ensures Valid() && Leads(old(View()), View()) && todo == old(todo)
      ensures alive == servers.Keys <= old(servers).Keys
      ensures forall id :: id in alive ==> servers[id] == old(servers)[id]
      ensures forall id :: id in old(servers) ==>
                (id !in alive <==> id in expired && old(servers)[id].phase == Over
                                   && (old(servers)[id].state == Stopped || old(servers)[id].state == Failed))
    {
      hide Inv, Leads, CanDo, Do;
      ghost var before := View();
      LeadsToItself(before);
      alive := {};
      var left := servers.Keys;
      while left != {}
        invariant Valid() && Leads(before, View()) && todo == old(todo)
        invariant left !! alive && left + alive == servers.Keys <= old(servers).Keys
        invariant forall id :: id in servers ==> servers[id] == old(servers)[id]
        invariant forall id :: id in old(servers) && id !in left ==>
                    (id !in alive <==> id in expired && old(servers)[id].phase == Over
                                       && (old(servers)[id].state == Stopped || old(servers)[id].state == Failed))
        decreases left
      {
        var id :| id in left;
        left := left - {id};
        if Terminal(servers[id].state) && servers[id].phase == Over && id in expired {
          ghost var b := View();
          servers := servers - {id};
          EvictIsStep(b, id);
          LeadsOn(before, b, Evict(id), View());
        } else {
          alive := alive + {id};
        }
      }
    }
  }

  // ---- the statements above are steps ----

  /** The supervisor decides on a transition and performs it. */
  lemma DecidesAndCommits(b: State, id: Id, step: Step, s: Server, to: LState)
    requires Inv(b) && id in b.servers && CanDo(b, step) && s.want == None
    requires Do(b, step) == Put(b, id, s.(want := Some(to)))
    ensures Inv(Put(b, id, Transition(s, to))) && Leads(b, Put(b, id, Transition(s, to)))
  {
    hide Inv, Leads;
    LeadsToItself(b);
    var decided := Put(b, id, s.(want := Some(to)));
    LeadsOn(b, b, step, decided);
    CommitIsStep(decided, id);
    assert Transition(s.(want := Some(to)), to).(want := None) == Transition(s, to);
    assert Put(decided, id, Transition(s, to)) == Put(b, id, Transition(s, to));
    LeadsOn(b, decided, Commit(id), Put(b, id, Transition(s, to)));
  }

  lemma CommandIsStep(b: State, id: Id, s: Server, to: LState)
    requires id in b.servers && b.servers[id] == s.(commands := s.commands + multiset{to})
    ensures CanDo(b, CommitCommand(id, to)) && Do(b, CommitCommand(id, to)) == Put(b, id, Transition(s, to))
  {
    hide Transition;
    assert s.commands + multiset{to} - multiset{to} == s.commands;
  }

  /** A command decides on a transition and performs it. */
  lemma CommandDecidesAndCommits(b: State, id: Id, step: Step, to: LState)
    requires Inv(b) && id in b.servers && CanDo(b, step)
    requires Do(b, step) == Put(b, id, b.servers[id].(commands := b.servers[id].commands + multiset{to}))
    ensures Inv(Put(b, id, Transition(b.servers[id], to))) && Leads(b, Put(b, id, Transition(b.servers[id], to)))
  {
    hide Inv, Leads, Transition, CanDo, Do;
    LeadsToItself(b);
    var s := b.servers[id];
    var decided := Put(b, id, s.(commands := s.commands + multiset{to}));
    LeadsOn(b, b, step, decided);
    CommandIsStep(decided, id, s, to);
    assert Put(decided, id, Transition(s, to)) == Put(b, id, Transition(s, to));
    LeadsOn(b, decided, CommitCommand(id, to), Put(b, id, Transition(s, to)));
  }

  lemma ReadyIsStep(b: State, id: Id)
    requires Inv(b) && Idle(b, id) && b.servers[id].state == Starting
    ensures Inv(Put(b, id, Transition(b.servers[id], Ready))) && Leads(b, Put(b, id, Transition(b.servers[id], Ready)))
  {
    hide Inv, Leads, Transition;
    DecidesAndCommits(b, id, ReadyFrame(id), b.servers[id], Ready);
  }

  lemma GraceIsStep(b: State, id: Id)
    requires Inv(b) && Idle(b, id) && b.servers[id].state == Starting
    ensures Inv(Put(b, id, Transition(b.servers[id], Failed)))
        && Leads(b, Put(b, id, Transition(b.servers[id], Failed)))
  {
    hide Inv, Leads, Transition;
    DecidesAndCommits(b, id, GraceExpires(id), b.servers[id], Failed);
  }

  lemma StopIsStep(b: State, id: Id)
    requires Inv(b) && Idle(b, id)
    ensures var s := b.servers[id].(stop := true);
            if !b.servers[id].stop && (s.state == Ready || s.state == Allocated)
            then Transition(s, LState.Draining) == s.(state := LState.Draining)
                 && Inv(Put(b, id, Transition(s, LState.Draining)))
                 && Leads(b, Put(b, id, Transition(s, LState.Draining)))
            else Inv(Put(b, id, s)) && Leads(b, Put(b, id, s))
  {
    hide Inv, Leads;
    var s := b.servers[id].(stop := true);
    if !b.servers[id].stop && (s.state == Ready || s.state == Allocated) {
      DecidesAndCommits(b, id, StopServer(id), s, LState.Draining);
    } else {
      LeadsToItself(b);
      LeadsOn(b, b, StopServer(id), Put(b, id, s));
    }
  }

  lemma AllocateIsStep(b: State, id: Id)
    requires Inv(b) && id in b.servers && b.servers[id].state == Ready
    ensures Transition(b.servers[id], Allocated) == b.servers[id].(state := Allocated)
    ensures Inv(Put(b, id, Transition(b.servers[id], Allocated)))
        && Leads(b, Put(b, id, Transition(b.servers[id], Allocated)))
  {
    hide Inv, Leads;
    CommandDecidesAndCommits(b, id, Step.Allocate(id), Allocated);
  }

  lemma DrainIsStep(b: State, id: Id)
    requires Inv(b) && id in b.servers && (b.servers[id].state == Ready || b.servers[id].state == Allocated)
    ensures Transition(b.servers[id], LState.Draining) == b.servers[id].(state := LState.Draining)
    ensures Inv(Put(b, id, Transition(b.servers[id], LState.Draining)))
        && Leads(b, Put(b, id, Transition(b.servers[id], LState.Draining)))
  {
    hide Inv, Leads;
    CommandDecidesAndCommits(b, id, Step.DrainServer(id), LState.Draining);
  }

  lemma NextIsFresh(b: State)
    requires Inv(b) && b.todo != []
    ensures b.todo[0].id !in b.servers && (InRange(b, b.todo[0].port) ==> b.todo[0].port !in b.inUse)
  {
    assert b.todo[0] in b.todo;
  }

  lemma RestoreIsStep(b: State, c: State)
    requires b.todo != [] && c == Restored(b)
    ensures CanDo(b, RestoreNext) && c == Do(b, RestoreNext)
  {
  }

  lemma StartIsStep(b: State, id: Id)
    requires b.todo == [] && id != "" && id !in b.servers
    ensures CanDo(b, Step.Start(id)) && Do(b, Step.Start(id)) == Put(b, id, NewServer(Pulling, Launching, 0))
  {
  }

  lemma RejectIsStep(b: State, id: Id)
    requires At(b, id, Launching)
    ensures CanDo(b, Reject(id)) && Do(b, Reject(id)) == Put(b, id, Fail(b.servers[id]))
  {
  }

  lemma LaunchingIsPulling(b: State, id: Id)
    requires Inv(b) && At(b, id, Launching)
    ensures b.servers[id].state == Pulling
  {
    assert ServerOk(b.servers[id]);
  }

  lemma FailsAndRuns(s: Server)
    requires s.state == Pulling
    ensures Fail(s) == s.(state := Failed, phase := Over, failed := s.failed + 1)
    ensures Transition(s, Starting) == s.(state := Starting)
  {
  }

  lemma AcquireIsStep(b: State, id: Id, requested: int, port: int)
    requires At(b, id, Launching) && CanAcquire(b, requested, port)
    ensures CanDo(b, Step.Acquire(id, requested, port))
    ensures Do(b, Step.Acquire(id, requested, port))
         == Put(b, id, b.servers[id].(phase := Bound, port := port)).(inUse := b.inUse + {port})
  {
  }

  lemma LaunchFailsIsStep(b: State, id: Id)
    requires At(b, id, Bound)
    ensures CanDo(b, LaunchFails(id))
    ensures Do(b, LaunchFails(id)) ==
            Put(b, id, b.servers[id].(phase := Unbound)).(inUse := b.inUse - {b.servers[id].port})
  {
  }

  lemma GivesUpIsStep(b: State, id: Id)
    requires At(b, id, Unbound)
    ensures CanDo(b, LaunchGivesUp(id)) && Do(b, LaunchGivesUp(id)) == Put(b, id, Fail(b.servers[id]))
  {
  }

  lemma RunsIsStep(b: State, id: Id)
    requires At(b, id, Bound)
    ensures CanDo(b, Runs(id))
    ensures Do(b, Runs(id)) == Put(b, id, Transition(b.servers[id], Starting).(phase := Supervised))
  {
  }

  lemma ExitIsStep(b: State, id: Id, err: bool, code: int)
    requires Idle(b, id)
    ensures CanDo(b, Exit(id, err, code))
    ensures Do(b, Exit(id, err, code)) ==
            Put(b, id, b.servers[id].(phase := Finishing, want := FinalState(b.servers[id], err, code)))
  {
  }

  lemma StartingMoves(s: Server)
    requires s.state == Starting
    ensures Transition(s, Ready) == s.(state := Ready, ready := s.ready + 1)
    ensures Transition(s, Failed) == s.(state := Failed, failed := s.failed + 1)
  {
  }

  /** A server that has not ended is stopped by a clean or wanted exit, and failed by any other. */
  lemma ExitDecides(b: State, id: Id, err: bool, code: int)
    requires Inv(b) && Idle(b, id)
    ensures var s := b.servers[id];
            && (s.state == Stopped || s.state == Failed ==> FinalState(s, err, code) == None)
            && (s.state != Stopped && s.state != Failed ==>
                  && s.failed == 0
                  && var final := if !err && (s.stop || code == 0) then Stopped else Failed;
                     var x := s.(phase := Finishing, want := Some(final));
                     && FinalState(s, err, code) == Some(final)
                     && Transition(x, final) == x.(state := final, failed := if final == Failed then 1 else 0))
  {
    assert ServerOk(b.servers[id]);
    TerminalIsDeadEnd(b.servers[id].state);
  }

  lemma CommitIsStep(b: State, id: Id)
    requires id in b.servers && b.servers[id].want.Some?
    ensures CanDo(b, Commit(id))
    ensures Do(b, Commit(id)) == Put(b, id, Transition(b.servers[id], b.servers[id].want.value).(want := None))
    ensures Transition(b.servers[id], b.servers[id].want.value).phase == b.servers[id].phase
    ensures Transition(b.servers[id], b.servers[id].want.value).port == b.servers[id].port
  {
  }

  lemma SettledIsTerminal(b: State, id: Id)
    requires Inv(b) && At(b, id, Finishing) && b.servers[id].want == None
    ensures Terminal(b.servers[id].state)
  {
    assert ServerOk(b.servers[id]);
  }

  lemma ReleaseIsStep(b: State, id: Id)
    requires At(b, id, Finishing) && b.servers[id].want == None
    ensures CanDo(b, ReleasePort(id))
    ensures Do(b, ReleasePort(id)) ==
            Put(b, id, b.servers[id].(phase := Cleared)).(inUse := b.inUse - {b.servers[id].port})
  {
  }

  lemma SetDoneIsStep(b: State, id: Id)
    requires At(b, id, Cleared)
    ensures CanDo(b, SetDone(id)) && Do(b, SetDone(id)) == Put(b, id, b.servers[id].(phase := Over))
  {
  }

  lemma EvictIsStep(b: State, id: Id)
    requires At(b, id, Over) && Terminal(b.servers[id].state)
    ensures CanDo(b, Evict(id)) && Do(b, Evict(id)) == b.(servers := b.servers - {id})
  {
  }
}

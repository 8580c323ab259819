/**
 * What every run of the AgentLink protocol guarantees, whatever superseded
 * receive loops do: snapshots are accepted in the order read, work stays
 * pending until it is acknowledged, and nothing is executed twice.
 */
module AgentLinkGuarantees {
  import opened Wrappers
  import opened Messages
  import opened AgentLinkProtocol
  import Q = CommandQueue
  import C = CmdCache
  import R = RegistryStore

  ghost predicate IsRun(states: seq<State>, steps: seq<Step>) {
    && |states| == |steps| + 1
    && states[0] == INIT
    && forall i :: 0 <= i < |steps| ==> CanDo(states[i], steps[i]) && states[i + 1] == Do(states[i], steps[i])
  }

  // ---- the structure holds throughout ----

  lemma InitOk()
    ensures Structure(INIT)
  {
  }

  lemma {:induction false} RunKeepsStructure(states: seq<State>, steps: seq<Step>, i: nat)
    requires IsRun(states, steps) && i < |states|
    ensures Structure(states[i])
  {
    if i == 0 {
      InitOk();
    } else {
      RunKeepsStructure(states, steps, i - 1);
      StepKeepsStructure(states[i - 1], steps[i - 1]);
    }
  }

  /** regMu: snapshots are accepted in the order read, so the newest accepted is the newest read among them. */
  lemma AcceptedInReadOrder(states: seq<State>, steps: seq<Step>, i: nat)
    requires IsRun(states, steps) && i < |states|
    ensures forall j, k :: 0 <= j <= k < |states[i].accepted| ==>
              states[i].accepted[j].read.version <= states[i].accepted[k].read.version
    ensures forall s :: s in states[i].accepted ==>
              s.read.version < |states[i].tables| && s.read.creds == states[i].tables[s.read.version]
    ensures Q.Coherent(states[i].queue)
  {
    RunKeepsStructure(states, steps, i);
  }

  // ---- work is not lost ----

  ghost predicate Queued(st: State, id: Id) {
    exists m :: m in st.queue.pending && m.Command? && m.cmdId == id
  }

  /** An accepted command leaves pending only on an ack that names it. */
  ghost predicate WorkKept(st: State) {
    && (forall id :: id in st.sent ==> id in st.released || Queued(st, id))
    && st.released <= st.acks
  }

  lemma {:induction false} SendingKeepsWork(st: State, step: Step)
    requires Structure(st) && WorkKept(st) && CanDo(st, step) && (step.SendWork? || step.Broadcast?)
    ensures WorkKept(Do(st, step))
  {
    hide C.Produced, C.Accepts, ReadsOk, Ascending, R.CredMap, StaleOk, DownOk, Rank;
    match step
    case SendWork(id, kind, payload) =>
      Q.SendOnlyReplacesRegistries(st.queue, id, Command(kind, id, payload));
      PendingSnapshotsDiffer(st, id);
      WorkReachesChannel(st.queue, id, kind, payload);
    case Broadcast(id) =>
      Q.SendOnlyReplacesRegistries(st.queue, id, SetRegistries("", st.reader.value.creds));
  }

  lemma {:induction false} AttachKeepsWork(st: State, stream: nat, id: Id, readOk: bool, trusted: bool, flushed: nat)
    requires WorkKept(st) && CanAttach(st, stream, id, trusted, flushed)
    ensures WorkKept(AttachStep(st, stream, id, readOk, trusted, flushed))
  {
    var preface := if trusted && readOk then Some(SetRegistries("", st.reader.value.creds)) else None;
    AttachReachesChannel(st.queue, preface, id, trusted);
  }

  lemma {:induction false} AckKeepsWork(st: State, id: Id)
    requires Structure(st) && WorkKept(st) && id in st.acks
    ensures WorkKept(AckStep(st, id))
  {
    hide C.Produced, C.Accepts, ReadsOk, Ascending, R.CredMap, StaleOk, DownOk;
    RankFinds(st.accepted, id);
    Q.AckRemovesExactly(st.queue, id);
  }

  lemma {:induction false} StepKeepsWork(st: State, step: Step)
    requires Structure(st) && WorkKept(st) && CanDo(st, step)
    ensures WorkKept(Do(st, step))
  {
    hide C.Produced, C.Accepts, R.CredMap, Q.Coherent, Structure, Rank;
    match step
    case SendWork(id, kind, payload) => SendingKeepsWork(st, step);
    case Broadcast(id) => SendingKeepsWork(st, step);
    case Attach(stream, id, readOk, trusted, n) => AttachKeepsWork(st, stream, id, readOk, trusted, n);
    case AckArrives(id) => AckKeepsWork(st, id);
    case _ =>
  }

  lemma {:induction false} WorkIsKept(states: seq<State>, steps: seq<Step>, i: nat)
    requires IsRun(states, steps) && i < |states|
    ensures WorkKept(states[i])
  {
    if i > 0 {
      WorkIsKept(states, steps, i - 1);
      RunKeepsStructure(states, steps, i - 1);
      StepKeepsWork(states[i - 1], steps[i - 1]);
    }
  }

  // ---- nothing is executed twice ----

  function Admitting(holds: map<nat, Hold>, id: Id): set<nat> {
    set l | l in holds && holds[l].phase == Admitted && AgentCommandId(holds[l].msg) == id
  }

  /** Every acceptance by the cache leads to one execution, done or in some loop's hands. */
  ghost predicate Counted(history: seq<Id>, executed: seq<Id>, holds: map<nat, Hold>) {
    forall id :: CountedFor(history, executed, holds, id)
  }

  ghost predicate CountedFor(history: seq<Id>, executed: seq<Id>, holds: map<nat, Hold>, id: Id) {
    multiset(history)[id] == multiset(executed)[id] + |Admitting(holds, id)|
  }

  lemma OneMore(ids: seq<Id>, x: Id, id: Id)
    ensures multiset(ids + [x])[id] == multiset(ids)[id] + if id == x then 1 else 0
  {
    assert multiset(ids + [x]) == multiset(ids) + multiset{x};
  }

  lemma SizeWithout(s: set<nat>, l: nat)
    ensures |s - {l}| == |s| - if l in s then 1 else 0
  {
    assert if l in s then s == s - {l} + {l} else s == s - {l};
  }

  lemma AdmittingChanges(holds: map<nat, Hold>, l: nat, hold: Hold, id: Id)
    ensures var now := hold.phase == Admitted && AgentCommandId(hold.msg) == id;
            Admitting(holds[l := hold], id) == Admitting(holds, id) - {l} + if now then {l} else {}
  {
  }

  lemma HoldChanges(holds: map<nat, Hold>, l: nat, hold: Hold, id: Id)
    ensures var was := l in Admitting(holds, id);
            var now := hold.phase == Admitted && AgentCommandId(hold.msg) == id;
            |Admitting(holds[l := hold], id)| ==
            |Admitting(holds, id)| - (if was then 1 else 0) + (if now then 1 else 0)
  {
    hide Admitting;
    AdmittingChanges(holds, l, hold, id);
    SizeWithout(Admitting(holds, id), l);
  }

  lemma AcceptCounts(history: seq<Id>, executed: seq<Id>, holds: map<nat, Hold>, l: nat, m: Msg)
    requires Counted(history, executed, holds) && (l in holds ==> holds[l].phase != Admitted)
    ensures Counted(history + [AgentCommandId(m)], executed, holds[l := Hold(m, Admitted)])
  {
    var longer, after := history + [AgentCommandId(m)], holds[l := Hold(m, Admitted)];
    forall id ensures CountedFor(longer, executed, after, id) {
      assert CountedFor(history, executed, holds, id);
      OneMore(history, AgentCommandId(m), id);
      HoldChanges(holds, l, Hold(m, Admitted), id);
    }
  }

  lemma ExecuteCounts(history: seq<Id>, executed: seq<Id>, holds: map<nat, Hold>, l: nat)
    requires Counted(history, executed, holds) && l in holds && holds[l].phase == Admitted
    ensures Counted(history, executed + [AgentCommandId(holds[l].msg)], holds[l := Hold(holds[l].msg, Handled)])
  {
    var m := holds[l].msg;
    var longer, after := executed + [AgentCommandId(m)], holds[l := Hold(m, Handled)];
    forall id ensures CountedFor(history, longer, after, id) {
      assert CountedFor(history, executed, holds, id);
      OneMore(executed, AgentCommandId(m), id);
      HoldChanges(holds, l, Hold(m, Handled), id);
    }
  }

  lemma OtherwiseCounts(history: seq<Id>, executed: seq<Id>, holds: map<nat, Hold>, l: nat, hold: Hold)
    requires Counted(history, executed, holds) && hold.phase != Admitted && (l in holds ==> holds[l].phase != Admitted)
    ensures Counted(history, executed, holds[l := hold]) && Counted(history, executed, holds - {l})
  {
    var updated, dropped := holds[l := hold], holds - {l};
    forall id
      ensures CountedFor(history, executed, updated, id)
      ensures CountedFor(history, executed, dropped, id)
    {
      assert CountedFor(history, executed, holds, id);
      HoldChanges(holds, l, hold, id);
      assert Admitting(dropped, id) == Admitting(holds, id);
    }
    assert Counted(history, executed, updated) && Counted(history, executed, dropped);
  }

  lemma {:induction false} StepKeepsCount(st: State, step: Step)
    requires CanDo(st, step) && Counted(st.history, st.executed, st.holds)
    ensures var after := Do(st, step); Counted(after.history, after.executed, after.holds)
  {
    hide C.Accepts, R.CredMap, Q.Send, Q.Attach, Q.Ack, Q.Do, Flush, Rank;
    match step
    case Receive =>
      var c: nat := st.streams - 1;
      OtherwiseCounts(st.history, st.executed, st.holds, c, Hold(st.wires[c][0], Received));
    case Admit(l) =>
      AcceptCounts(st.history, st.executed, st.holds, l, st.holds[l].msg);
      OtherwiseCounts(st.history, st.executed, st.holds, l, Hold(st.holds[l].msg, Handled));
    case Execute(l) => ExecuteCounts(st.history, st.executed, st.holds, l);
    case Finish(l) => OtherwiseCounts(st.history, st.executed, st.holds, l, st.holds[l]);
    case Restart =>
      forall id ensures CountedFor([], [], map[], id) {
        assert Admitting(map[], id) == {};
      }
    case _ =>
  }

  lemma {:induction false} RunKeepsCount(states: seq<State>, steps: seq<Step>, i: nat)
    requires IsRun(states, steps) && i < |states|
    ensures Counted(states[i].history, states[i].executed, states[i].holds)
  {
    if i > 0 {
      RunKeepsCount(states, steps, i - 1);
      StepKeepsCount(states[i - 1], steps[i - 1]);
    }
  }

  lemma OccursOnceBetween(before: seq<Id>, id: Id, rest: seq<Id>)
    requires id !in before && id !in rest
    ensures multiset(before + [id] + rest)[id] == 1
  {
    assert multiset(before + [id] + rest) == multiset(before) + multiset{id} + multiset(rest);
  }

  lemma {:induction false} OccursOnce(history: seq<Id>, first: nat)
    requires C.Produced(history, WINDOW) && first < |history| <= first + 1 + WINDOW
    requires history[first] != "" && history[first] !in history[..first]
    ensures multiset(history)[history[first]] == 1
  {
    hide C.Produced;
    var id := history[first];
    var rest := history[first + 1..];
    if id in rest {
      var j :| 0 <= j < |rest| && rest[j] == id;
      C.ReacceptedOnlyAfterNOthers(history, WINDOW, first, first + 1 + j);
    }
    assert history == history[..first] + [id] + rest;
    OccursOnceBetween(history[..first], id, rest);
  }

  /**
   * Within one agent process a command is executed exactly once, or is in the
   * hands of the one loop that will, until more than 1024 other commands were
   * accepted after it. This holds in every run, orderly or not.
   */
  lemma {:induction false} ExecutedOnce(states: seq<State>, steps: seq<Step>, i: nat, first: nat)
    requires IsRun(states, steps) && i < |states|
    requires first < |states[i].history| && |states[i].history| - 1 - first <= WINDOW
    requires states[i].history[first] !in states[i].history[..first]
    ensures var st := states[i];
            var id := st.history[first];
            multiset(st.executed)[id] + |Admitting(st.holds, id)| == 1
  {
    RunKeepsStructure(states, steps, i);
    RunKeepsCount(states, steps, i);
    var st := states[i];
    var id := st.history[first];
    assert id in st.history && CountedFor(st.history, st.executed, st.holds, id);
    RankFinds(st.accepted, id);
    OccursOnce(st.history, first);
  }
}

/**
 * The promise that the agent ends up with the newest registry snapshot, in a
 * weaker form (it is pending or in use) and a stronger one (it will get
 * through). A superseded loop can break both: the steps that do are named, and
 * in every run each form holds throughout exactly when no such step is taken.
 */
module AgentLinkConvergence {
  import opened Wrappers
  import opened Messages
  import opened AgentLinkProtocol
  import opened AgentLinkGuarantees
  import opened AgentLinkAcks
  import Q = CommandQueue
  import C = CmdCache
  import R = RegistryStore

  // ---- vocabulary ----

  function Newest(st: State): Snapshot
    requires st.accepted != []
  {
    st.accepted[|st.accepted| - 1]
  }

  ghost predicate Pends(pending: seq<Msg>, id: Id) {
    exists m :: m in pending && m.SetRegistries? && m.regId == id
  }

  ghost predicate NewestPending(st: State)
    requires st.accepted != []
  {
    Pends(st.queue.pending, Newest(st).id)
  }

  ghost predicate InUse(st: State)
    requires st.accepted != []
  {
    st.creds == R.CredMap(Newest(st).read.creds)
  }

  /** While covered: the Hub still holds the newest snapshot, or the agent's credentials are its. */
  ghost predicate Converged(st: State) {
    st.covered ==> st.accepted != [] && (NewestPending(st) || InUse(st))
  }

  /**
   * While covered: the newest snapshot is in use, or in the hands of a loop
   * about to execute it, or pending and unknown to this process, so that the
   * process will execute it once it gets through. Pending alone is not enough:
   * a replay of an id the process has accepted is acknowledged again and not executed.
   */
  ghost predicate Delivering(st: State) {
    st.covered ==>
      && st.accepted != []
      && (|| InUse(st)
          || InExecution(st.holds, Newest(st).id)
          || (NewestPending(st) && Newest(st).id !in st.history))
  }

  // ---- the steps that break them ----

  /** A loop is about to apply a snapshot that configures something else than the newest one. */
  ghost predicate Differs(st: State, l: nat)
    requires st.accepted != [] && l in st.holds
  {
    var m := st.holds[l].msg;
    m.SetRegistries? && R.CredMap(m.creds) != R.CredMap(Newest(st).read.creds)
  }

  /**
   * The newest snapshot is no longer pending when another one is applied, or
   * its ack takes it out of pending while the agent does not use it.
   */
  ghost predicate Undoes(st: State, step: Step)
    requires CanDo(st, step)
  {
    && st.covered && st.accepted != []
    && match step
       case Execute(l) => Differs(st, l) && !NewestPending(st)
       case AckArrives(id) => id == Newest(st).id && !InUse(st)
       case _ => false
  }

  /** Another snapshot is applied after this process accepted the newest one and no loop still has it to execute. */
  ghost predicate Strands(st: State, step: Step)
    requires CanDo(st, step)
  {
    && st.covered && st.accepted != []
    && match step
       case Execute(l) => Differs(st, l) && Newest(st).id in st.history && !InExecution(st.holds, Newest(st).id)
       case _ => false
  }

  // ---- what a step does to the newest snapshot ----

  lemma NewestIsNoWork(st: State)
    requires Structure(st) && st.accepted != []
    ensures Newest(st).id != "" && Newest(st).id !in st.sent
  {
    hide QueueOk, ReadsOk, DownOk, StaleOk, HoldsOk, HistoryOk, AppliedOk, ShapeOk;
    assert Newest(st) in st.accepted;
  }

  lemma BroadcastIsPending(st: State, id: Id)
    requires Structure(st) && CanDo(st, Broadcast(id)) && BroadcastStep(st, id).accepted != st.accepted
    ensures var after := BroadcastStep(st, id);
            && after.accepted == st.accepted + [Snapshot(id, st.reader.value)]
            && Pends(after.queue.pending, id)
  {
    hide Structure, Q.Send, RemoveSetRegistries, Rank;
    PendingIdsDiffer(st, id);
    SnapshotReachesChannel(st.queue, id, st.reader.value.creds);
    assert SetRegistries(id, st.reader.value.creds) in BroadcastStep(st, id).queue.pending;
  }

  lemma PrefaceIsPending(q: Q.Queue, id: Id, creds: seq<Cred>)
    ensures Pends(Q.Attach(q, Some(SetRegistries("", creds)), id, true).pending, id)
  {
    hide Q.Attach, RemoveSetRegistries;
    AttachReachesChannel(q, Some(SetRegistries("", creds)), id, true);
    assert SetRegistries(id, creds) in Q.Attach(q, Some(SetRegistries("", creds)), id, true).pending;
  }

  /** A snapshot the Hub accepts is pending, under an id nobody has used. */
  lemma NewSnapshot(st: State, step: Step)
    requires Structure(st) && CanDo(st, step) && Do(st, step).accepted != st.accepted
    ensures var after := Do(st, step);
            && (step.Broadcast? || step.Attach?)
            && after.accepted != [] && NewestPending(after) && Fresh(st, Newest(after).id)
  {
    hide Structure, Pends, Flush, Q.Send, Q.Attach, R.CredMap, Rank, C.Accepts;
    match step
    case Broadcast(id) => BroadcastIsPending(st, id);
    case Attach(_, id, _, _, _) => PrefaceIsPending(st.queue, id, st.reader.value.creds);
    case _ =>
  }

  /** Otherwise, while the agent stays covered, only an ack that names it takes a snapshot out of pending. */
  lemma SameSnapshots(st: State, step: Step, id: Id)
    requires Structure(st) && CanDo(st, step) && Do(st, step).accepted == st.accepted
    requires Do(st, step).covered && step != AckArrives(id)
    ensures Pends(st.queue.pending, id) ==> Pends(Do(st, step).queue.pending, id)
  {
    hide Structure, Flush, Pends, Q.Coherent, Q.Ack, Q.Send, Q.Attach, RemoveSetRegistries, R.CredMap, Rank, C.Accepts;
    match step
    case SendWork(w, kind, payload) => SendKeepsPends(st, w, kind, payload, id);
    case Broadcast(a) => BroadcastKeepsPends(st, a);
    case Attach(_, a, _, trusted, _) => AttachKeepsPends(st, a, trusted, id);
    case AckArrives(a) => AckKeepsPends(st, a, id);
    case _ =>
  }

  /** An agent is covered because it was, or because a snapshot was just accepted with an attach. */
  lemma CoverLasts(st: State, step: Step)
    requires CanDo(st, step) && Do(st, step).covered && Do(st, step).accepted == st.accepted
    ensures st.covered
  {
    hide Flush, Q.Ack, Q.Send, Q.Attach, Q.Do, R.CredMap, C.Accepts, Rank;
  }

  lemma SendKeepsPends(st: State, w: Id, kind: Kind, payload: string, id: Id)
    requires Structure(st) && w !in SnapshotIds(st) && w != ""
    ensures Pends(st.queue.pending, id) ==> Pends(Q.Send(st.queue, w, Command(kind, w, payload)).pending, id)
  {
    hide Structure, Q.Send, RemoveSetRegistries, Rank;
    PendingSnapshotsDiffer(st, w);
    assert Q.Coherent(st.queue) by {
      QueueIsCoherent(st);
    }
    WorkReachesChannel(st.queue, w, kind, payload);
  }

  lemma QueueIsCoherent(st: State)
    requires Structure(st)
    ensures Q.Coherent(st.queue)
  {
    hide Q.Coherent, ReadsOk, DownOk, StaleOk, HoldsOk, HistoryOk, AppliedOk, ShapeOk, IdsOk;
  }

  /** A broadcast that is not accepted leaves the queue alone. */
  lemma BroadcastKeepsPends(st: State, a: Id)
    requires Structure(st) && CanDo(st, Broadcast(a)) && BroadcastStep(st, a).accepted == st.accepted
    ensures BroadcastStep(st, a).queue == st.queue
  {
    hide Structure, Q.Send, RemoveSetRegistries, Rank;
    PendingIdsDiffer(st, a);
    SnapshotReachesChannel(st.queue, a, st.reader.value.creds);
  }

  lemma AttachKeepsPends(st: State, a: Id, trusted: bool, id: Id)
    ensures trusted && Pends(st.queue.pending, id) ==> Pends(Q.Attach(st.queue, None, a, trusted).pending, id)
  {
    hide Q.Attach, RemoveSetRegistries;
    AttachReachesChannel(st.queue, None, a, trusted);
  }

  lemma AckKeepsPends(st: State, a: Id, id: Id)
    requires Structure(st) && a in st.acks
    ensures Pends(Q.Ack(st.queue, a).pending, id) <==> a != id && Pends(st.queue.pending, id)
  {
    hide Structure, Q.Ack, Rank;
    QueueIsCoherent(st);
    AckedIdsAreKnown(st, a);
    Q.AckRemovesExactly(st.queue, a);
  }

  lemma AckedIdsAreKnown(st: State, id: Id)
    requires Structure(st) && id in st.acks
    ensures id != ""
  {
    hide Q.Coherent, QueueOk, ReadsOk, DownOk, StaleOk, HoldsOk, AppliedOk, ShapeOk;
    RankFinds(st.accepted, id);
  }

  // ---- the newest snapshot is pending or in use ----

  /** Executing a snapshot puts it in use, and changes nothing at the Hub. */
  lemma ExecuteApplies(st: State, l: nat)
    requires Structure(st) && CanDo(st, Execute(l)) && st.accepted != []
    ensures var after := ExecuteStep(st, l);
            && after.accepted == st.accepted && after.queue == st.queue && after.covered == st.covered
            && (st.holds[l].msg.SetRegistries? ==> (InUse(after) <==> !Differs(st, l)))
            && (!st.holds[l].msg.SetRegistries? ==> after.creds == st.creds)
            && (CommandId(st.holds[l].msg) == Newest(st).id ==> st.holds[l].msg.SetRegistries? && !Differs(st, l))
  {
    hide Structure, R.CredMap;
    HeldIsKnown(st, l);
    var m := st.holds[l].msg;
    NewestIsNoWork(st);
    if CommandId(m) == Newest(st).id {
      NewestRank(st);
    }
  }

  lemma NewestRank(st: State)
    requires Structure(st) && st.accepted != []
    ensures Rank(st.accepted, Newest(st).id) == |st.accepted| - 1
  {
    hide QueueOk, ReadsOk, DownOk, StaleOk, HoldsOk, HistoryOk, AppliedOk, ShapeOk, Rank;
    RankIs(st.accepted, |st.accepted| - 1);
  }

  lemma StepConvergesIff(st: State, step: Step)
    requires Structure(st) && CanDo(st, step) && Converged(st)
    ensures Converged(Do(st, step)) <==> !Undoes(st, step)
  {
    hide Structure, Pends, R.CredMap, Rank, CanDo, Do;
    var after := Do(st, step);
    if step.Execute? {
      ExecuteConvergesIff(st, step.loop);
    } else if st.accepted != [] && step == AckArrives(Newest(st).id) {
      AckConvergesIff(st, step.ackId);
    } else if after.covered {
      OtherStepConverges(st, step);
    }
  }

  lemma ExecuteConvergesIff(st: State, l: nat)
    requires Structure(st) && CanDo(st, Execute(l)) && Converged(st)
    ensures Converged(Do(st, Execute(l))) <==> !Undoes(st, Execute(l))
  {
    hide Structure, Pends, R.CredMap, Rank;
    if st.accepted != [] {
      ExecuteApplies(st, l);
    }
  }

  lemma AckConvergesIff(st: State, id: Id)
    requires Structure(st) && CanDo(st, AckArrives(id)) && Converged(st) && st.accepted != [] && id == Newest(st).id
    ensures Converged(Do(st, AckArrives(id))) <==> !Undoes(st, AckArrives(id))
  {
    hide Structure, Pends, R.CredMap, Rank, Q.Ack;
    AckKeepsPends(st, id, id);
  }

  lemma OtherStepConverges(st: State, step: Step)
    requires Structure(st) && CanDo(st, step) && Converged(st) && Do(st, step).covered && !step.Execute?
    requires st.accepted != [] ==> step != AckArrives(Newest(st).id)
    ensures Converged(Do(st, step))
  {
    hide Structure, Pends, R.CredMap, Rank, CanDo, Do;
    if Do(st, step).accepted != st.accepted {
      NewSnapshot(st, step);
    } else {
      AgentFrame(st, step);
      CoverLasts(st, step);
      SameSnapshots(st, step, Newest(st).id);
    }
  }

  lemma {:induction false} NeverUndoneIsConverged(states: seq<State>, steps: seq<Step>, i: nat)
    requires IsRun(states, steps) && i < |states|
    requires forall j :: 0 <= j < |steps| ==> !Undoes(states[j], steps[j])
    ensures Converged(states[i])
  {
    hide Structure, Undoes, CanDo, Do;
    if i > 0 {
      NeverUndoneIsConverged(states, steps, i - 1);
      RunKeepsStructure(states, steps, i - 1);
      StepConvergesIff(states[i - 1], steps[i - 1]);
    }
  }

  /** Step by step: the newest snapshot stays pending or in use exactly while no step undoes it. */
  lemma NeverUndoneIff(states: seq<State>, steps: seq<Step>)
    requires IsRun(states, steps)
    ensures (forall i :: 0 <= i < |states| ==> Converged(states[i])) <==>
            (forall i :: 0 <= i < |steps| ==> !Undoes(states[i], steps[i]))
  {
    hide Structure, Undoes, Converged, CanDo, Do;
    if forall i :: 0 <= i < |states| ==> Converged(states[i]) {
      forall i | 0 <= i < |steps| ensures !Undoes(states[i], steps[i]) {
        RunKeepsStructure(states, steps, i);
        assert Converged(states[i]) && Converged(states[i + 1]);
        StepConvergesIff(states[i], steps[i]);
      }
    }
    if forall i :: 0 <= i < |steps| ==> !Undoes(states[i], steps[i]) {
      forall i | 0 <= i < |states| ensures Converged(states[i]) {
        NeverUndoneIsConverged(states, steps, i);
      }
    }
  }

  // ---- the newest snapshot gets through ----

  /** While covered, this process accepted the newest snapshot before its ack, and before it left pending. */
  ghost predicate Settled(st: State) {
    st.covered ==>
      && st.accepted != []
      && (Newest(st).id in st.acks ==> Newest(st).id in st.history)
      && (NewestPending(st) || Newest(st).id in st.history)
  }

  lemma FreshIsUnseen(st: State, id: Id)
    requires Structure(st) && Fresh(st, id)
    ensures id !in st.history && id !in st.acks
  {
    hide Q.Coherent, QueueOk, ReadsOk, DownOk, StaleOk, HoldsOk, AppliedOk, ShapeOk, C.Produced, Rank;
    RankFinds(st.accepted, id);
  }

  lemma HistoryGrows(st: State, step: Step)
    requires Structure(st) && CanDo(st, step) && !step.Restart?
    ensures forall id :: id in st.history ==> id in Do(st, step).history
  {
    hide Structure, AdmitStep;
    if step.Admit? {
      AdmitExecution(st, step.loop, "");
    } else {
      AgentFrame(st, step);
    }
  }

  lemma AcksAreAccepted(st: State, step: Step, id: Id)
    requires Structure(st) && CanDo(st, step) && !step.Restart? && (id in st.acks ==> id in st.history)
    ensures id in Do(st, step).acks ==> id in Do(st, step).history
  {
    hide Structure, Genuine, Known, Rank, Flush, Q.Ack, Q.Send, Q.Attach, Q.Do, R.CredMap, C.Accepts;
    HistoryGrows(st, step);
    if step.Finish? {
      HeldIsKnown(st, step.loop);
    } else {
      AgentFrame(st, step);
    }
  }

  lemma StepSettles(st: State, step: Step)
    requires Structure(st) && Settled(st) && CanDo(st, step)
    ensures Settled(Do(st, step))
  {
    hide Structure, Pends, CanDo, Do;
    var after := Do(st, step);
    if after.covered {
      AgentFrame(st, step);
      if after.accepted != st.accepted {
        NewSnapshotIsUnseen(st, step);
      } else {
        SettledStays(st, step);
      }
    }
  }

  lemma NewSnapshotIsUnseen(st: State, step: Step)
    requires Structure(st) && CanDo(st, step) && Do(st, step).accepted != st.accepted
    ensures var after := Do(st, step);
            && after.accepted != [] && NewestPending(after)
            && Newest(after).id !in after.history && Newest(after).id !in after.acks
  {
    hide Structure, Pends, Fresh, Q.Ack, Q.Send, Q.Attach;
    NewSnapshot(st, step);
    FreshIsUnseen(st, Newest(Do(st, step)).id);
    AgentFrame(st, step);
  }

  lemma SettledStays(st: State, step: Step)
    requires Structure(st) && Settled(st) && CanDo(st, step)
    requires Do(st, step).covered && Do(st, step).accepted == st.accepted
    ensures Settled(Do(st, step))
  {
    hide Structure, Pends, CanDo, Do;
    AgentFrame(st, step);
    CoverLasts(st, step);
    var id := Newest(st).id;
    HistoryGrows(st, step);
    if step == AckArrives(id) {
      AckIsCovered(st, id);
    } else {
      SameSnapshots(st, step, id);
    }
    AcksAreAccepted(st, step, id);
  }

  lemma AckIsCovered(st: State, id: Id)
    requires CanDo(st, AckArrives(id))
    ensures Do(st, AckArrives(id)).covered == st.covered && id in st.acks
  {
  }

  lemma {:induction false} RunSettles(states: seq<State>, steps: seq<Step>, i: nat)
    requires IsRun(states, steps) && i < |states|
    ensures Structure(states[i]) && Settled(states[i])
  {
    hide Structure, CanDo, Do;
    RunKeepsStructure(states, steps, i);
    if i > 0 {
      RunSettles(states, steps, i - 1);
      StepSettles(states[i - 1], steps[i - 1]);
    }
  }

  /** Executing the newest snapshot puts it in use; another one leaves it to the loop that holds the newest. */
  lemma ExecuteDeliversIff(st: State, l: nat)
    requires Structure(st) && Settled(st) && Delivering(st) && CanDo(st, Execute(l))
    ensures Delivering(ExecuteStep(st, l)) <==> !Strands(st, Execute(l))
  {
    hide Structure, Pends, R.CredMap, Rank, InExecution;
    if st.covered {
      var id := Newest(st).id;
      ExecuteApplies(st, l);
      if CommandId(st.holds[l].msg) != id {
        ExecuteExecution(st, l, id);
      }
    }
  }

  lemma AdmitDelivers(st: State, l: nat)
    requires Structure(st) && Delivering(st) && CanDo(st, Admit(l))
    ensures Delivering(AdmitStep(st, l))
  {
    hide Structure, R.CredMap, C.Accepts, InExecution, Pends;
    if st.covered {
      AdmitExecution(st, l, Newest(st).id);
    }
  }

  lemma OtherStepDelivers(st: State, step: Step)
    requires Structure(st) && Settled(st) && Delivering(st) && CanDo(st, step) && Do(st, step).covered
    requires !step.Execute? && !step.Admit? && Do(st, step).accepted == st.accepted
    ensures Delivering(Do(st, step))
  {
    hide Structure, Pends, R.CredMap, InExecution, CanDo, Do;
    AgentFrame(st, step);
    CoverLasts(st, step);
    var id := Newest(st).id;
    ExecutionFrame(st, step, id);
    AgentFrame(st, step);
    if step == AckArrives(id) {
      AckIsCovered(st, id);
    } else {
      SameSnapshots(st, step, id);
    }
  }

  lemma StepDeliversIff(st: State, step: Step)
    requires Structure(st) && Settled(st) && Delivering(st) && CanDo(st, step)
    ensures Delivering(Do(st, step)) <==> !Strands(st, step)
  {
    hide Structure, Pends, R.CredMap, InExecution, Settled, AdmitStep, ExecuteStep;
    if step.Execute? {
      ExecuteDeliversIff(st, step.loop);
    } else if step.Admit? {
      AdmitDelivers(st, step.loop);
    } else if Do(st, step).covered {
      if Do(st, step).accepted != st.accepted {
        NewSnapshotIsUnseen(st, step);
      } else {
        OtherStepDelivers(st, step);
      }
    }
  }

  lemma {:induction false} NeverStrandedIsDelivering(states: seq<State>, steps: seq<Step>, i: nat)
    requires IsRun(states, steps) && i < |states|
    requires forall j :: 0 <= j < |steps| ==> !Strands(states[j], steps[j])
    ensures Delivering(states[i])
  {
    hide Structure, Settled, Strands, CanDo, Do;
    if i > 0 {
      NeverStrandedIsDelivering(states, steps, i - 1);
      RunSettles(states, steps, i - 1);
      StepDeliversIff(states[i - 1], steps[i - 1]);
    }
  }

  /**
   * In every run the newest snapshot is at every moment in use, about to be
   * executed, or pending and new to the process, if and only if no loop
   * applies another one after this process accepted the newest and no loop
   * still has it to execute.
   */
  lemma DeliveringThroughoutIff(states: seq<State>, steps: seq<Step>)
    requires IsRun(states, steps)
    ensures (forall i :: 0 <= i < |states| ==> Delivering(states[i])) <==>
            (forall i :: 0 <= i < |steps| ==> !Strands(states[i], steps[i]))
  {
    hide Structure, Settled, Strands, Delivering, CanDo, Do;
    if forall i :: 0 <= i < |states| ==> Delivering(states[i]) {
      forall i | 0 <= i < |steps| ensures !Strands(states[i], steps[i]) {
        RunSettles(states, steps, i);
        assert Delivering(states[i]) && Delivering(states[i + 1]);
        StepDeliversIff(states[i], steps[i]);
      }
    }
    if forall i :: 0 <= i < |steps| ==> !Strands(states[i], steps[i]) {
      forall i | 0 <= i < |states| ensures Delivering(states[i]) {
        NeverStrandedIsDelivering(states, steps, i);
      }
    }
  }

  // ---- why an ack finds the newest snapshot not in use ----

  /** Loop l applies a snapshot that configures what the newest one does. */
  ghost predicate Restores(st: State, step: Step) {
    && st.accepted != [] && step.Execute? && step.loop in st.holds
    && st.holds[step.loop].msg.SetRegistries? && !Differs(st, step.loop)
  }

  /** Step j stranded the snapshot that is the newest still, and none that configures the same was applied since. */
  ghost predicate StrandedSince(states: seq<State>, steps: seq<Step>, j: nat, k: nat)
    requires IsRun(states, steps)
  {
    && j < k < |states| && Strands(states[j], steps[j])
    && (forall i :: j < i <= k ==> states[i].covered && states[i].accepted == states[j].accepted)
    && (forall i :: j < i < k ==> !Restores(states[i], steps[i]))
  }

  lemma StrandsApplies(st: State, step: Step)
    requires Structure(st) && CanDo(st, step) && Strands(st, step)
    ensures var after := Do(st, step); after.covered && after.accepted == st.accepted != [] && !InUse(after)
  {
    hide Structure, R.CredMap, Pends, InExecution;
    ExecuteApplies(st, step.loop);
  }

  /** What strands a snapshot is a step, and nothing else gets it out of a loop's reach. */
  lemma {:induction false} UndeliveredIsStranded(states: seq<State>, steps: seq<Step>, k: nat)
    requires IsRun(states, steps) && k < |states| && !Delivering(states[k])
    ensures exists j :: StrandedSince(states, steps, j, k)
  {
    hide Structure, Settled, Strands, CanDo, Do, R.CredMap, InExecution, Pends, Restores;
    if k > 0 {
      var st, step := states[k - 1], steps[k - 1];
      RunSettles(states, steps, k - 1);
      if Delivering(st) {
        StepDeliversIff(st, step);
        StrandsApplies(st, step);
        assert StrandedSince(states, steps, k - 1, k);
      } else {
        UndeliveredIsStranded(states, steps, k - 1);
        var j :| StrandedSince(states, steps, j, k - 1);
        UndeliveredStays(st, step);
        assert StrandedSince(states, steps, j, k);
      }
    }
  }

  lemma UndeliveredStays(st: State, step: Step)
    requires Structure(st) && CanDo(st, step) && !Delivering(Do(st, step))
    ensures var after := Do(st, step);
            after.covered && after.accepted == st.accepted && !Restores(st, step)
  {
    hide Structure, Pends, R.CredMap, InExecution, ExecuteStep, AdmitStep;
    if Do(st, step).accepted != st.accepted {
      NewSnapshotIsUnseen(st, step);
    } else if Restores(st, step) {
      ExecuteApplies(st, step.loop);
    }
  }

  lemma {:induction false} StrandedIsNotInUse(states: seq<State>, steps: seq<Step>, j: nat, k: nat)
    requires IsRun(states, steps) && StrandedSince(states, steps, j, k)
    ensures states[k].accepted != [] && !InUse(states[k])
  {
    hide Structure, Strands, CanDo, Do, R.CredMap, Restores, InUse;
    RunKeepsStructure(states, steps, k - 1);
    var st, step := states[k - 1], steps[k - 1];
    assert CanDo(st, step) && states[k] == Do(st, step);
    if k == j + 1 {
      StrandsApplies(st, step);
    } else {
      assert StrandedSince(states, steps, j, k - 1);
      StrandedIsNotInUse(states, steps, j, k - 1);
      assert states[k].covered && states[k].accepted == states[k - 1].accepted;
      NotRestoredStays(st, step);
    }
  }

  lemma NotRestoredStays(st: State, step: Step)
    requires Structure(st) && CanDo(st, step) && st.accepted != [] && !InUse(st) && !Restores(st, step)
    requires Do(st, step).covered && Do(st, step).accepted == st.accepted
    ensures !InUse(Do(st, step))
  {
    hide Structure, R.CredMap, Do, CanDo;
    AgentFrame(st, step);
    if step.Execute? {
      ExecuteMoves(st, step.loop);
    }
  }

  lemma ExecuteMoves(st: State, l: nat)
    requires Structure(st) && CanDo(st, Execute(l)) && st.accepted != []
    ensures var after := Do(st, Execute(l));
            && l in st.holds && after.accepted == st.accepted
            && (if st.holds[l].msg.SetRegistries? then (InUse(after) <==> !Differs(st, l)) else after.creds == st.creds)
  {
    hide Structure, R.CredMap;
    ExecuteApplies(st, l);
  }

  /**
   * What undoes convergence, by cause: another snapshot is applied when the newest is no longer pending; or the
   * newest is let go on an ack while a loop still has it to execute and the agent uses something else, or after
   * another one was applied over it and it was not restored.
   */
  ghost predicate UndoneAt(states: seq<State>, steps: seq<Step>, k: nat)
    requires IsRun(states, steps) && k < |steps|
  {
    var st := states[k];
    && st.covered && st.accepted != []
    && match steps[k]
       case Execute(l) => CanDo(st, steps[k]) && Differs(st, l) && !NewestPending(st)
       case AckArrives(id) =>
         && id == Newest(st).id
         && ((InExecution(st.holds, id) && !InUse(st)) || exists j :: StrandedSince(states, steps, j, k))
       case _ => false
  }

  lemma UndoneIsUndoes(states: seq<State>, steps: seq<Step>, k: nat)
    requires IsRun(states, steps) && k < |steps|
    ensures CanDo(states[k], steps[k]) && (UndoneAt(states, steps, k) <==> Undoes(states[k], steps[k]))
  {
    hide Structure, R.CredMap, InExecution, Pends, StrandedSince, Do;
    var st, step := states[k], steps[k];
    if st.covered && st.accepted != [] && step == AckArrives(Newest(st).id) {
      RunSettles(states, steps, k);
      AckIsOfAcks(st, Newest(st).id);
      if !Delivering(st) {
        UndeliveredIsStranded(states, steps, k);
      }
      if j :| StrandedSince(states, steps, j, k) {
        StrandedIsNotInUse(states, steps, j, k);
      }
    }
  }

  lemma AckIsOfAcks(st: State, id: Id)
    requires CanDo(st, AckArrives(id))
    ensures id in st.acks
  {
  }

  /** In every run the newest snapshot is at every moment pending or in use, if and only if nothing undoes it. */
  lemma ConvergedThroughoutIff(states: seq<State>, steps: seq<Step>)
    requires IsRun(states, steps)
    ensures (forall i :: 0 <= i < |states| ==> Converged(states[i])) <==>
            (forall k :: 0 <= k < |steps| ==> !UndoneAt(states, steps, k))
  {
    hide Undoes, UndoneAt, Converged, CanDo, Do;
    forall k | 0 <= k < |steps|
      ensures CanDo(states[k], steps[k]) && (UndoneAt(states, steps, k) <==> Undoes(states[k], steps[k]))
    {
      UndoneIsUndoes(states, steps, k);
    }
    NeverUndoneIff(states, steps);
  }

  // ---- a stranded snapshot stays so ----

  /** The process knows the newest snapshot's id, does not use it, and no loop is about to execute it. */
  ghost predicate Stranded(st: State) {
    && st.covered && st.accepted != []
    && !C.Accepts(st.history, WINDOW, Newest(st).id)
    && !InExecution(st.holds, Newest(st).id)
    && !InUse(st)
  }

  /**
   * Replays and acks do not help: until the Hub accepts another snapshot, the
   * process restarts or forgets the id, or a loop happens to apply a snapshot
   * that configures the same, it stays stranded.
   */
  lemma StrandedStays(st: State, step: Step)
    requires Stranded(st) && CanDo(st, step)
    requires var after := Do(st, step);
             && after.accepted == st.accepted && after.covered && !C.Accepts(after.history, WINDOW, Newest(st).id)
    requires step.Execute? && st.holds[step.loop].msg.SetRegistries? ==> Differs(st, step.loop)
    requires Structure(st)
    ensures Stranded(Do(st, step))
  {
    hide Structure, R.CredMap, C.Accepts, InExecution;
    var id := Newest(st).id;
    NewestIsNoWork(st);
    AgentFrame(st, step);
    if step.Execute? {
      ExecuteApplies(st, step.loop);
      ExecuteExecution(st, step.loop, id);
    } else if step.Admit? {
      AdmitExecution(st, step.loop, id);
      HeldIsKnown(st, step.loop);
    } else {
      AgentFrame(st, step);
      ExecutionFrame(st, step, id);
    }
  }

  // ---- orderly runs ----

  /** A superseded loop executes no outdated snapshot, and nothing is acknowledged early. */
  ghost predicate Orderly(st: State, step: Step)
    requires CanDo(st, step)
  {
    && !EarlyAck(st, step)
    && match step
       case Execute(l) =>
         var m := st.holds[l].msg;
         l + 1 < st.streams && m.SetRegistries? ==> Rank(st.accepted, m.regId) + 1 == |st.accepted|
       case _ => true
  }

  ghost predicate OrderlyRun(states: seq<State>, steps: seq<Step>)
    requires IsRun(states, steps)
  {
    forall i :: 0 <= i < |steps| ==> Orderly(states[i], steps[i])
  }

  ghost predicate Applied(st: State) {
    st.accepted != [] && st.applied == Some(|st.accepted| - 1)
  }

  /** Once executed the newest snapshot stays applied; until then it is pending. */
  ghost predicate Delivered(st: State) {
    st.covered ==>
      && st.accepted != []
      && (Newest(st).id in st.everExecuted ==> Applied(st))
      && (NewestPending(st) || Applied(st))
  }

  lemma AppliedIsInUse(st: State)
    requires Structure(st) && Applied(st)
    ensures InUse(st)
  {
    hide Q.Coherent, QueueOk, ReadsOk, DownOk, StaleOk, HoldsOk, HistoryOk, ShapeOk, R.CredMap;
  }

  lemma HeadIsHeld(st: State, l: nat)
    requires l in st.holds && l + 1 == st.streams
    ensures Down(st) != [] && Down(st)[0] == st.holds[l].msg
  {
  }

  /**
   * The current loop holds nothing older than what was applied; it and orderly loops only apply the
   * newest over the newest.
   */
  lemma OrderlyApplies(st: State, l: nat)
    requires Structure(st) && CanDo(st, Execute(l)) && Orderly(st, Execute(l)) && st.holds[l].msg.SetRegistries?
    ensures var newest := CommandId(st.holds[l].msg) == Newest(st).id;
            st.accepted != [] && (newest || Applied(st) ==> Applied(ExecuteStep(st, l)))
  {
    hide Q.Coherent, QueueOk, ReadsOk, StaleOk, HistoryOk, AppliedOk, R.CredMap, EarlyAck, Down, Ascending;
    var m := st.holds[l].msg;
    HeldIsKnown(st, l);
    NewestRank(st);
    if l + 1 == st.streams {
      HeadIsHeld(st, l);
      assert m in Down(st);
    }
  }

  lemma ExecuteIsOrderly(st: State, l: nat)
    requires Structure(st) && Delivered(st) && CanDo(st, Execute(l)) && Orderly(st, Execute(l))
    ensures Delivered(ExecuteStep(st, l))
  {
    hide Structure, Pends, R.CredMap, Orderly, Applied;
    if st.covered {
      ExecuteApplies(st, l);
      HeldIsKnown(st, l);
      if st.holds[l].msg.SetRegistries? {
        OrderlyApplies(st, l);
      } else {
        ExecuteKeepsApplied(st, l);
      }
    }
  }

  lemma ExecuteKeepsApplied(st: State, l: nat)
    requires CanDo(st, Execute(l)) && !st.holds[l].msg.SetRegistries?
    ensures Applied(ExecuteStep(st, l)) == Applied(st)
  {
  }

  lemma NewSnapshotIsUnexecuted(st: State, step: Step)
    requires Structure(st) && Accounted(st) && CanDo(st, step) && Do(st, step).accepted != st.accepted
    ensures var after := Do(st, step);
            after.accepted != [] && NewestPending(after) && Newest(after).id !in after.everExecuted
  {
    hide Structure, Pends, Fresh, Known, Q.Ack, Q.Send, Q.Attach;
    NewSnapshot(st, step);
    FreshIsUnknown(st, Newest(Do(st, step)).id);
    AgentFrame(st, step);
  }

  lemma OtherStepIsOrderly(st: State, step: Step)
    requires Structure(st) && Delivered(st) && CanDo(st, step) && st.acks <= st.everExecuted
    requires Do(st, step).covered && Do(st, step).accepted == st.accepted && !step.Execute?
    ensures Delivered(Do(st, step))
  {
    hide Structure, Pends, CanDo, Do;
    AgentFrame(st, step);
    CoverLasts(st, step);
    var id := Newest(st).id;
    if step == AckArrives(id) {
      AckIsCovered(st, id);
    } else {
      SameSnapshots(st, step, id);
    }
  }

  lemma StepIsOrderly(st: State, step: Step)
    requires Structure(st) && Accounted(st) && Delivered(st) && st.acks <= st.everExecuted
    requires CanDo(st, step) && Orderly(st, step)
    ensures Delivered(Do(st, step))
  {
    hide Structure, Accounted, Pends, Orderly, ExecuteStep;
    if step.Execute? {
      ExecuteIsOrderly(st, step.loop);
    } else if Do(st, step).covered {
      if Do(st, step).accepted != st.accepted {
        NewSnapshotIsUnexecuted(st, step);
      } else {
        OtherStepIsOrderly(st, step);
      }
    }
  }

  lemma DeliveredIsDelivering(st: State)
    requires Structure(st) && Accounted(st) && Delivered(st)
    ensures Converged(st) && Delivering(st)
  {
    hide Structure, Pends, R.CredMap, InExecution, Known;
    if Applied(st) {
      AppliedIsInUse(st);
    }
  }

  lemma {:induction false} OrderlyRunIsDelivered(states: seq<State>, steps: seq<Step>, i: nat)
    requires IsRun(states, steps) && OrderlyRun(states, steps) && i < |states|
    ensures Delivered(states[i]) && AcksAreHonest(states[i])
  {
    hide Structure, Accounted, EarlyAck, CanDo, Do;
    NeverEarlyIsHonest(states, steps, i);
    if i > 0 {
      OrderlyRunIsDelivered(states, steps, i - 1);
      RunAccounts(states, steps, i - 1);
      StepIsOrderly(states[i - 1], steps[i - 1]);
    }
  }

  /**
   * In every orderly run: since the last trusted attach with a preface (and
   * with no agent restart and no untrusted attach since), the newest snapshot
   * is pending or is what the agent uses, and it will get through; and no
   * command was acknowledged, or dropped by the Hub, without having been executed.
   */
  lemma OrderlyRunsConverge(states: seq<State>, steps: seq<Step>, i: nat)
    requires IsRun(states, steps) && OrderlyRun(states, steps) && i < |states|
    ensures Converged(states[i]) && Delivering(states[i]) && AcksAreHonest(states[i])
  {
    hide Structure, Accounted, Delivered, Converged, Delivering;
    OrderlyRunIsDelivered(states, steps, i);
    RunAccounts(states, steps, i);
    DeliveredIsDelivering(states[i]);
  }

  // ---- when runs are orderly ----

  /** A new stream is opened only after every earlier receive loop has put its command down. */
  ghost predicate QuietRun(states: seq<State>, steps: seq<Step>)
    requires IsRun(states, steps)
  {
    forall i :: 0 <= i < |steps| && steps[i].OpenStream? ==> states[i].holds == map[]
  }

  ghost predicate NoneSuperseded(st: State) {
    forall l :: l in st.holds ==> l + 1 == st.streams
  }

  lemma StepSupersedesNone(st: State, step: Step)
    requires CanDo(st, step) && NoneSuperseded(st) && (step.OpenStream? ==> st.holds == map[])
    ensures NoneSuperseded(Do(st, step))
  {
    hide Flush, Q.Ack, Q.Send, Q.Attach, Q.Do, R.CredMap, C.Accepts, Rank;
  }

  lemma {:induction false} NoSupersededLoops(states: seq<State>, steps: seq<Step>, i: nat)
    requires IsRun(states, steps) && QuietRun(states, steps) && i < |states|
    ensures NoneSuperseded(states[i])
  {
    hide CanDo, Do;
    if i > 0 {
      NoSupersededLoops(states, steps, i - 1);
      StepSupersedesNone(states[i - 1], steps[i - 1]);
    }
  }

  lemma QuietRunsAreOrderly(states: seq<State>, steps: seq<Step>)
    requires IsRun(states, steps) && QuietRun(states, steps)
    ensures OrderlyRun(states, steps)
  {
    forall i | 0 <= i < |steps| ensures Orderly(states[i], steps[i]) {
      NoSupersededLoops(states, steps, i);
      assert CanDo(states[i], steps[i]);
    }
  }
}

/**
 * The commands in the hands of the agent's receive loops, and the promise that
 * nothing is acknowledged that was not executed. A superseded loop can break
 * it: the step that does is named, and in every run the promise holds
 * throughout exactly when no such step is taken.
 */
module AgentLinkAcks {
  import opened Wrappers
  import opened Messages
  import opened AgentLinkProtocol
  import opened AgentLinkGuarantees
  import Q = CommandQueue
  import C = CmdCache
  import R = RegistryStore

  // ---- vocabulary ----

  /** Loop l accepted the command and is about to execute it. */
  ghost predicate Executing(holds: map<nat, Hold>, l: nat, id: Id) {
    l in holds && holds[l].phase == Admitted && CommandId(holds[l].msg) == id
  }

  ghost predicate InExecution(holds: map<nat, Hold>, id: Id) {
    exists l: nat :: Executing(holds, l, id)
  }

  /** Nothing the Hub let go on an ack, and nothing acknowledged, went unexecuted. */
  ghost predicate AcksAreHonest(st: State) {
    st.released <= st.acks <= st.everExecuted
  }

  /** The current loop acknowledges a command it found known, while a superseded loop has yet to execute it. */
  ghost predicate EarlyAck(st: State, step: Step)
    requires CanDo(st, step)
  {
    match step
    case Finish(l) =>
      var id := CommandId(st.holds[l].msg);
      && st.online && l + 1 == st.streams && id !in st.everExecuted
      && exists k: nat :: k + 1 < st.streams && Executing(st.holds, k, id)
    case _ => false
  }

  // ---- frames ----

  /** What each kind of step leaves alone at the agent. */
  lemma AgentFrame(st: State, step: Step)
    requires CanDo(st, step)
    ensures var after := Do(st, step);
            && (!step.Finish? ==> after.acks == st.acks)
            && (!step.Execute? ==> after.everExecuted == st.everExecuted)
            && (step.Restart? ==> after.history == [] && !after.covered)
            && (!step.Restart? && !step.Admit? ==> after.history == st.history)
            && (!step.Restart? && (step.Execute? ==> !st.holds[step.loop].msg.SetRegistries?) ==>
                  after.creds == st.creds && after.applied == st.applied)
  {
    hide Flush, Q.Ack, Q.Send, Q.Attach, Q.Do, R.CredMap, C.Accepts, Rank;
  }

  /** Moving loop l neither puts the command into nor takes it out of another loop's hands. */
  lemma ExecutionStays(holds: map<nat, Hold>, after: map<nat, Hold>, l: nat, id: Id)
    requires forall k :: k != l ==> (k in holds <==> k in after) && (k in holds ==> after[k] == holds[k])
    requires !Executing(holds, l, id) && !Executing(after, l, id)
    ensures InExecution(holds, id) <==> InExecution(after, id)
  {
    forall k: nat ensures Executing(holds, k, id) <==> Executing(after, k, id) {
    }
  }

  /** Only admitting, executing and a restart change what is in execution. */
  lemma ExecutionFrame(st: State, step: Step, id: Id)
    requires CanDo(st, step) && !step.Admit? && !step.Execute? && !step.Restart?
    ensures InExecution(Do(st, step).holds, id) <==> InExecution(st.holds, id)
  {
    hide Flush, Q.Ack, Q.Send, Q.Attach, Q.Do, R.CredMap, C.Accepts, InExecution;
    match step
    case Receive => ExecutionStays(st.holds, Do(st, step).holds, st.streams - 1, id);
    case Finish(l) => ExecutionStays(st.holds, Do(st, step).holds, l, id);
    case _ =>
  }

  lemma InHand(holds: map<nat, Hold>, l: nat, id: Id)
    requires Executing(holds, l, id)
    ensures InExecution(holds, id)
  {
  }

  ghost predicate Known(st: State, id: Id) {
    id in st.sent || Rank(st.accepted, id) < |st.accepted|
  }

  /** What a loop holds carries a real, known id, which is in the history once the loop looked it up. */
  lemma HeldIsKnown(st: State, l: nat)
    requires Structure(st) && l in st.holds
    ensures var m := st.holds[l].msg;
            && Genuine(st.accepted, st.sent, m)
            && AgentCommandId(m) == CommandId(m) != "" && Known(st, CommandId(m))
            && (st.holds[l].phase != Received ==> CommandId(m) in st.history)
            && l < st.streams
  {
    hide Q.Coherent, QueueOk, ReadsOk, DownOk, StaleOk, HistoryOk, AppliedOk, Rank;
    RankOfId(st, st.holds[l].msg);
    assert l in st.wires;
  }

  /** A command is admitted into execution unless its id is known, and always when it never was accepted. */
  lemma AdmitExecution(st: State, l: nat, id: Id)
    requires Structure(st) && CanDo(st, Admit(l))
    ensures var after := AdmitStep(st, l);
            var mine := CommandId(st.holds[l].msg);
            && (after.history == st.history || after.history == st.history + [mine])
            && (mine !in st.history ==> after.history == st.history + [mine])
            && (InExecution(after.holds, id) <==>
                  InExecution(st.holds, id) || (after.history != st.history && mine == id))
  {
    hide Structure, C.Accepts, InExecution, Genuine, Known;
    var after := AdmitStep(st, l);
    var m := st.holds[l].msg;
    HeldIsKnown(st, l);
    if !C.Accepts(st.history, WINDOW, CommandId(m)) {
      C.RecallsOnlyHistory(st.history, WINDOW, CommandId(m));
    }
    if after.history != st.history && CommandId(m) == id {
      InHand(after.holds, l, id);
    } else {
      ExecutionStays(st.holds, after.holds, l, id);
    }
  }

  lemma ExecuteExecution(st: State, l: nat, id: Id)
    requires CanDo(st, Execute(l)) && CommandId(st.holds[l].msg) != id
    ensures InExecution(ExecuteStep(st, l).holds, id) <==> InExecution(st.holds, id)
  {
    hide R.CredMap, Rank, InExecution;
    ExecutionStays(st.holds, ExecuteStep(st, l).holds, l, id);
  }

  /** What is known stays known. */
  lemma KnownStays(st: State, step: Step, id: Id)
    requires CanDo(st, step) && Known(st, id)
    ensures Known(Do(st, step), id)
  {
    hide Flush, Q.Ack, Q.Send, Q.Attach, R.CredMap, C.Accepts;
    var after := Do(st, step);
    if after.accepted != st.accepted {
      assert after.accepted == st.accepted + [after.accepted[|st.accepted|]];
      RankStays(st.accepted, after.accepted[|st.accepted|], id);
    }
  }

  lemma FreshIsUnknown(st: State, id: Id)
    requires Fresh(st, id)
    ensures !Known(st, id)
  {
    RankFinds(st.accepted, id);
  }

  // ---- accepted means executed or about to be ----

  /** Everything this process accepted was executed or is about to be; everything executed is known. */
  ghost predicate Accounted(st: State) {
    && (forall id :: id in st.history ==> id in st.everExecuted || InExecution(st.holds, id))
    && (forall id :: id in st.everExecuted ==> Known(st, id))
  }

  lemma KnowsAsMuch(st: State, after: State, id: Id)
    requires after.sent == st.sent && after.accepted == st.accepted
    ensures Known(st, id) <==> Known(after, id)
  {
  }

  lemma {:induction false} ExecuteAccounts(st: State, l: nat)
    requires Structure(st) && Accounted(st) && CanDo(st, Execute(l))
    ensures Accounted(ExecuteStep(st, l))
  {
    hide Structure, InExecution, Known, R.CredMap, Genuine;
    var after := ExecuteStep(st, l);
    var mine := CommandId(st.holds[l].msg);
    HeldIsKnown(st, l);
    forall id ensures Known(st, id) ==> Known(after, id) {
      KnowsAsMuch(st, after, id);
    }
    forall id | id in after.history ensures id in after.everExecuted || InExecution(after.holds, id) {
      if id != mine {
        ExecuteExecution(st, l, id);
      }
    }
  }

  lemma AdmitAccounts(st: State, l: nat, id: Id)
    requires Structure(st) && Accounted(st) && CanDo(st, Admit(l)) && id in AdmitStep(st, l).history
    ensures id in st.everExecuted || InExecution(AdmitStep(st, l).holds, id)
  {
    hide Structure, InExecution, Known, AdmitStep;
    AdmitExecution(st, l, id);
  }

  lemma HistoryAccounts(st: State, step: Step, id: Id)
    requires Structure(st) && Accounted(st) && CanDo(st, step) && !step.Execute? && id in Do(st, step).history
    ensures id in st.everExecuted || InExecution(Do(st, step).holds, id)
  {
    hide Structure, InExecution, Known, AdmitStep;
    if step.Admit? {
      AdmitAccounts(st, step.loop, id);
    } else if step.Restart? {
      AgentFrame(st, step);
    } else {
      AgentFrame(st, step);
      ExecutionFrame(st, step, id);
    }
  }

  lemma {:induction false} StepAccounts(st: State, step: Step)
    requires Structure(st) && Accounted(st) && CanDo(st, step)
    ensures Accounted(Do(st, step))
  {
    var after := Do(st, step);
    if step.Execute? {
      ExecuteAccounts(st, step.loop);
    } else {
      AgentFrame(st, step);
      forall id | id in after.everExecuted ensures Known(after, id) {
        KnownStays(st, step, id);
      }
      forall id | id in after.history ensures id in after.everExecuted || InExecution(after.holds, id) {
        HistoryAccounts(st, step, id);
      }
    }
  }

  lemma {:induction false} RunAccounts(states: seq<State>, steps: seq<Step>, i: nat)
    requires IsRun(states, steps) && i < |states|
    ensures Structure(states[i]) && WorkKept(states[i]) && Accounted(states[i])
  {
    hide Structure, WorkKept, CanDo, Do;
    RunKeepsStructure(states, steps, i);
    WorkIsKept(states, steps, i);
    if i > 0 {
      RunAccounts(states, steps, i - 1);
      StepAccounts(states[i - 1], steps[i - 1]);
    }
  }

  // ---- acknowledged means executed ----

  /** What the current loop acknowledges was executed, or it is acknowledged early. */
  lemma FinishIsHonestIff(st: State, l: nat)
    requires Structure(st) && Accounted(st) && CanDo(st, Finish(l)) && st.acks <= st.everExecuted
    ensures FinishStep(st, l).acks <= st.everExecuted <==> !EarlyAck(st, Finish(l))
  {
    hide Structure, Known, Genuine;
    var id := CommandId(st.holds[l].msg);
    HeldIsKnown(st, l);
    if st.online && l + 1 == st.streams && id !in st.everExecuted {
      assert id in FinishStep(st, l).acks;
      var k: nat :| Executing(st.holds, k, id);
      HeldIsKnown(st, k);
      assert k + 1 < st.streams;
    }
  }

  lemma StepIsHonestIff(st: State, step: Step)
    requires Structure(st) && Accounted(st) && CanDo(st, step) && st.acks <= st.everExecuted
    ensures Do(st, step).acks <= Do(st, step).everExecuted <==> !EarlyAck(st, step)
  {
    hide Structure, Accounted;
    match step
    case Finish(l) => FinishIsHonestIff(st, l);
    case Execute(_) => AgentFrame(st, step);
    case _ =>
      AgentFrame(st, step);
  }

  lemma {:induction false} NeverEarlyIsHonest(states: seq<State>, steps: seq<Step>, i: nat)
    requires IsRun(states, steps) && i < |states|
    requires forall j :: 0 <= j < |steps| ==> !EarlyAck(states[j], steps[j])
    ensures AcksAreHonest(states[i])
  {
    hide Structure, Accounted, EarlyAck, CanDo, Do;
    RunAccounts(states, steps, i);
    if i > 0 {
      NeverEarlyIsHonest(states, steps, i - 1);
      RunAccounts(states, steps, i - 1);
      StepIsHonestIff(states[i - 1], steps[i - 1]);
    }
  }

  /**
   * In every run: whatever the Hub dropped on an ack, and whatever was
   * acknowledged, had been executed at every moment, if and only if no command
   * was ever acknowledged early.
   */
  lemma AcksAreHonestIff(states: seq<State>, steps: seq<Step>)
    requires IsRun(states, steps)
    ensures (forall i :: 0 <= i < |states| ==> AcksAreHonest(states[i])) <==>
            (forall i :: 0 <= i < |steps| ==> !EarlyAck(states[i], steps[i]))
  {
    hide Structure, Accounted, EarlyAck, CanDo, Do;
    if forall i :: 0 <= i < |states| ==> AcksAreHonest(states[i]) {
      forall i | 0 <= i < |steps| ensures !EarlyAck(states[i], steps[i]) {
        RunAccounts(states, steps, i);
        assert AcksAreHonest(states[i]) && AcksAreHonest(states[i + 1]);
        StepIsHonestIff(states[i], steps[i]);
      }
    }
    if forall i :: 0 <= i < |steps| ==> !EarlyAck(states[i], steps[i]) {
      forall i | 0 <= i < |states| ensures AcksAreHonest(states[i]) {
        NeverEarlyIsHonest(states, steps, i);
      }
    }
  }
}

/**
 * Runs in which a superseded receive loop interferes: an outdated snapshot
 * overwrites the newest one before or after the ack of the newest arrives, and
 * a command is acknowledged that never runs.
 */
module AgentLinkRaces {
  import opened Wrappers
  import opened Messages
  import opened AgentLinkProtocol
  import opened AgentLinkGuarantees
  import opened AgentLinkAcks
  import opened AgentLinkConvergence
  import Q = CommandQueue
  import C = CmdCache
  import R = RegistryStore

  ghost predicate Reached(st: State) {
    exists states, steps :: IsRun(states, steps) && states[|steps|] == st
  }

  ghost predicate Next(a: State, step: Step, b: State) {
    CanDo(a, step) && b == Do(a, step)
  }

  lemma StartIsReached()
    ensures Reached(INIT)
  {
    assert IsRun([INIT], []);
  }

  lemma Then(a: State, step: Step, b: State)
    requires Reached(a) && Next(a, step, b)
    ensures Reached(b)
  {
    hide CanDo, Do;
    var states, steps :| IsRun(states, steps) && states[|steps|] == a;
    var longer, more := states + [b], steps + [step];
    assert IsRun(longer, more) && longer[|more|] == b;
  }

  function Channel(pending: seq<Msg>, trusted: bool, out: seq<Msg>): Q.Queue {
    Q.Queue(pending, Some(Q.Link(trusted, out)))
  }

  /** A trusted attach that replays nothing but its snapshot. */
  lemma AttachesWith(st: State, stream: nat, id: Id)
    requires CanAttach(st, stream, id, true, 0) && RemoveSetRegistries(st.queue.pending) == []
    ensures var x := SetRegistries(id, st.reader.value.creds);
            AttachStep(st, stream, id, true, true, 0).queue == Channel([x], true, [x])
  {
    var x := SetRegistries(id, st.reader.value.creds);
    assert [x] + [] == [x];
    Q.ReplayIsPrefix([x]);
  }

  /** The writer moves the only message of the channel to an empty wire. */
  lemma WritesOne(st: State, pending: seq<Msg>, trusted: bool, m: Msg)
    requires st.queue == Channel(pending, trusted, [m]) && st.live in st.wires && st.wires[st.live] == []
    ensures WriteStep(st) == st.(queue := Channel(pending, trusted, []), wires := st.wires[st.live := [m]])
  {
    assert [m][1..] == [] && [m][..1] == [m] && [] + [m] == [m];
    assert LinkOut(st.queue) == [m];
  }

  /** The only pending command is acknowledged. */
  lemma AckEmpties(m: Msg, trusted: bool)
    ensures Q.Ack(Channel([m], trusted, []), CommandId(m)) == Channel([], trusted, [])
  {
    assert Q.IndexOf([m], CommandId(m)) == 0;
    assert [m][..0] + [m][1..] == [];
  }

  // ---- an outdated snapshot wins ----
  //
  // The agent accepts snapshot "a" on stream 0 and that loop stalls; the table
  // is edited, and stream 1 delivers, executes and acknowledges snapshot "b".

  const TOKEN := Cred("ghcr.io", "bot", "secret")
  const A := SetRegistries("a", [])
  const B := SetRegistries("b", [TOKEN])
  const READ_A := Read([], 0)
  const READ_B := Read([TOKEN], 1)

  /** The first stream has been attached with snapshot "a". */
  function First(out: seq<Msg>, wire: seq<Msg>, holds: map<nat, Hold>, history: seq<Id>): State {
    INIT.(queue := Channel([A], true, out), wires := map[0 := wire], reader := Some(READ_A),
          streams := 1, online := true, accepted := [Snapshot("a", READ_A)],
          holds := holds, history := history, covered := true)
  }

  const STALLED := First([], [], map[0 := Hold(A, Admitted)], ["a"])

  lemma FirstAttached()
    ensures Reached(First([A], [], map[], []))
  {
    hide Reached, Q.Send, Q.Ack, Q.Attach, Q.Do, R.CredMap, C.Accepts, Rank;
    StartIsReached();
    var s1 := INIT.(streams := 1, online := true);
    Then(INIT, OpenStream, s1);
    var s2 := s1.(reader := Some(READ_A));
    Then(s1, LockAndRead, s2);
    AttachesWith(s2, 0, "a");
    Then(s2, Attach(0, "a", true, true, 0), First([A], [], map[], []));
  }

  lemma FirstReceived()
    ensures Reached(First([], [], map[0 := Hold(A, Received)], []))
  {
    hide Reached, Q.Send, Q.Ack, Q.Attach, Q.Do, R.CredMap, C.Accepts, Rank;
    FirstAttached();
    var s1 := First([A], [], map[], []);
    var s2 := First([], [A], map[], []);
    WritesOne(s1, [A], true, A);
    Then(s1, Write, s2);
    Then(s2, Receive, First([], [], map[0 := Hold(A, Received)], []));
  }

  lemma FirstStalled()
    ensures Reached(STALLED)
  {
    hide Reached, Q.Send, Q.Ack, Q.Attach, Q.Do, R.CredMap, Rank, Flush;
    FirstReceived();
    var s := First([], [], map[0 := Hold(A, Received)], []);
    C.AcceptsIffNotRecent([], WINDOW, "a");
    assert s.history + ["a"] == ["a"];
    assert s.holds[0 := Hold(A, Admitted)] == STALLED.holds;
    Then(s, Admit(0), STALLED);
  }

  /** The table has been edited and the second stream attached with snapshot "b". */
  function Second(queue: Q.Queue, wire: seq<Msg>, holds: map<nat, Hold>, history: seq<Id>): State {
    INIT.(queue := queue, live := 1, wires := map[0 := [], 1 := wire], reader := Some(READ_B),
          streams := 2, online := true, tables := [[], [TOKEN]],
          accepted := [Snapshot("a", READ_A), Snapshot("b", READ_B)],
          holds := holds, history := history, covered := true)
  }

  const LOOP_A := map[0 := Hold(A, Admitted)]

  /** The table has been edited and read again, and the agent has reconnected. */
  const REOPENED := STALLED.(reader := Some(READ_B), tables := [[], [TOKEN]], streams := 2)

  lemma SecondOpened()
    ensures Reached(REOPENED)
  {
    hide Reached, Q.Send, Q.Ack, Q.Attach, Q.Do, R.CredMap, C.Accepts, Rank;
    FirstStalled();
    var s1 := STALLED.(reader := None);
    Then(STALLED, Unlock, s1);
    var s2 := s1.(tables := [[], [TOKEN]]);
    Then(s1, EditTable([TOKEN]), s2);
    var s3 := s2.(reader := Some(READ_B));
    Then(s2, LockAndRead, s3);
    var s4 := s3.(online := false);
    Then(s3, Disconnect, s4);
    Then(s4, OpenStream, REOPENED);
  }

  lemma SecondAttached()
    ensures Reached(Second(Channel([B], true, [B]), [], LOOP_A, ["a"]))
  {
    hide Reached, Q.Send, Q.Ack, Q.Attach, Q.Do, R.CredMap, C.Accepts, Rank;
    SecondOpened();
    assert RemoveSetRegistries([A]) == [];
    AttachesWith(REOPENED, 1, "b");
    Then(REOPENED, Attach(1, "b", true, true, 0), Second(Channel([B], true, [B]), [], LOOP_A, ["a"]));
  }

  lemma SecondReceived()
    ensures Reached(Second(Channel([B], true, []), [], LOOP_A[1 := Hold(B, Received)], ["a"]))
  {
    hide Reached, Q.Send, Q.Ack, Q.Attach, Q.Do, R.CredMap, C.Accepts, Rank, Flush;
    SecondAttached();
    var s1 := Second(Channel([B], true, [B]), [], LOOP_A, ["a"]);
    var s2 := Second(Channel([B], true, []), [B], LOOP_A, ["a"]);
    WritesOne(s1, [B], true, B);
    Then(s1, Write, s2);
    Then(s2, Receive, Second(Channel([B], true, []), [], LOOP_A[1 := Hold(B, Received)], ["a"]));
  }

  lemma SecondAccepted()
    ensures Reached(Second(Channel([B], true, []), [], LOOP_A[1 := Hold(B, Admitted)], ["a", "b"]))
  {
    hide Reached, Q.Send, Q.Ack, Q.Attach, Q.Do, R.CredMap, Rank, Flush;
    SecondReceived();
    var s := Second(Channel([B], true, []), [], LOOP_A[1 := Hold(B, Received)], ["a"]);
    C.AcceptsIffNotRecent(["a"], WINDOW, "b");
    assert s.history + ["b"] == ["a", "b"];
    Then(s, Admit(1), Second(Channel([B], true, []), [], LOOP_A[1 := Hold(B, Admitted)], ["a", "b"]));
  }

  /** Snapshot "b" has been executed. */
  function Executed(queue: Q.Queue, holds: map<nat, Hold>): State {
    Second(queue, [], holds, ["a", "b"])
    .(executed := ["b"], everExecuted := {"b"}, creds := R.CredMap([TOKEN]), applied := Some(1))
  }

  lemma SecondExecuted()
    ensures Reached(Executed(Channel([B], true, []), LOOP_A[1 := Hold(B, Handled)]))
  {
    hide Reached, Q.Send, Q.Ack, Q.Attach, Q.Do, R.CredMap, C.Accepts, Flush;
    SecondAccepted();
    var s := Second(Channel([B], true, []), [], LOOP_A[1 := Hold(B, Admitted)], ["a", "b"]);
    RankIs(s.accepted, 1);
    assert s.executed + ["b"] == ["b"];
    Then(s, Execute(1), Executed(Channel([B], true, []), LOOP_A[1 := Hold(B, Handled)]));
  }

  lemma SecondFinished()
    ensures Reached(Executed(Channel([B], true, []), LOOP_A).(acks := {"b"}))
  {
    hide Reached, Q.Send, Q.Ack, Q.Attach, Q.Do, R.CredMap, C.Accepts, Flush, Rank;
    SecondExecuted();
    var s1 := Executed(Channel([B], true, []), LOOP_A[1 := Hold(B, Handled)]);
    assert s1.holds - {1} == LOOP_A;
    Then(s1, Finish(1), Executed(Channel([B], true, []), LOOP_A).(acks := {"b"}));
  }

  lemma SecondAcknowledged()
    ensures Reached(Executed(Channel([], true, []), LOOP_A).(acks := {"b"}, released := {"b"}))
  {
    hide Reached, Q.Send, Q.Ack, Q.Attach, Q.Do, R.CredMap, C.Accepts, Flush, Rank;
    SecondFinished();
    AckEmpties(B, true);
    var s := Executed(Channel([B], true, []), LOOP_A).(acks := {"b"});
    Then(s, AckArrives("b"), Executed(Channel([], true, []), LOOP_A).(acks := {"b"}, released := {"b"}));
  }

  /** The two snapshots configure different credentials. */
  lemma TokenMatters()
    ensures R.CredMap([TOKEN]) != R.CredMap([])
  {
    assert R.ToLower(TOKEN.host) == TOKEN.host;
    assert R.IsLastFor([TOKEN], TOKEN.host, 0);
    R.CredMapIsLastEntry([TOKEN], TOKEN.host);
    R.CredMapIsLastEntry([], TOKEN.host);
  }

  /** The newest snapshot ends up neither pending nor in use. */
  lemma OutdatedSnapshotCanWin()
    ensures exists st :: Reached(st) && !Converged(st)
  {
    hide Reached, R.CredMap;
    SecondAcknowledged();
    var s := Executed(Channel([], true, []), LOOP_A).(acks := {"b"}, released := {"b"});
    var st := ExecuteStep(s, 0);
    Then(s, Execute(0), st);
    TokenMatters();
  }

  /**
   * Here the newest is still pending when the outdated one is applied: nothing is executed again,
   * and its ack undoes it.
   */
  lemma PendingSnapshotCanBeStranded()
    ensures exists st :: Reached(st) && Converged(st) && Stranded(st) && NewestPending(st)
              && st.holds == map[] && var ack := AckArrives(Newest(st).id); CanDo(st, ack) && !Converged(Do(st, ack))
  {
    hide Reached, R.CredMap, Rank, Q.Ack;
    SecondFinished();
    var s := Executed(Channel([B], true, []), LOOP_A).(acks := {"b"});
    var s1 := ExecuteStep(s, 0);
    Then(s, Execute(0), s1);
    assert s1.holds - {0} == map[];
    var s2 := FinishStep(s1, 0);
    Then(s1, Finish(0), s2);
    TokenMatters();
    AckEmpties(B, true);
    C.AcceptsIffNotRecent(["a", "b"], WINDOW, "b");
    assert B in s2.queue.pending;
    assert Stranded(s2);
  }

  // ---- an acknowledged command never runs ----
  //
  // The loop of stream 0 accepts command "w" and stalls; stream 1 replays it,
  // finds it known and acknowledges it; then the agent restarts.

  const W := Command(Stop, "w", "server")

  function Working(queue: Q.Queue, live: nat, wires: map<nat, seq<Msg>>, streams: nat, holds: map<nat, Hold>,
      history: seq<Id>): State {
    INIT.(queue := queue, live := live, wires := wires, streams := streams, online := true,
          sent := {"w"}, holds := holds, history := history)
  }

  const LOOP_W := map[0 := Hold(W, Admitted)]

  /** An untrusted attach replays the one pending command. */
  lemma AttachReplaysWork(st: State, stream: nat, id: Id)
    requires CanAttach(st, stream, id, false, 0) && st.queue.pending == [W]
    ensures AttachStep(st, stream, id, false, false, 0).queue == Channel([W], false, [W])
  {
    RemoveSetRegistriesKeeps([W]);
    Q.ReplayIsPrefix([W]);
  }

  lemma WorkAttached()
    ensures Reached(Working(Channel([W], false, [W]), 0, map[0 := []], 1, map[], []))
  {
    hide Reached, Q.Ack, Q.Attach, Q.Do, R.CredMap, C.Accepts, Rank;
    StartIsReached();
    var s1 := INIT.(streams := 1, online := true);
    Then(INIT, OpenStream, s1);
    var s2 := Working(Q.Queue([W], None), 0, map[], 1, map[], []);
    assert [] + [W] == [W];
    Then(s1, SendWork("w", Stop, "server"), s2);
    AttachReplaysWork(s2, 0, "p");
    Then(s2, Attach(0, "p", false, false, 0), Working(Channel([W], false, [W]), 0, map[0 := []], 1, map[], []));
  }

  lemma WorkReceived()
    ensures Reached(Working(Channel([W], false, []), 0, map[0 := []], 1, map[0 := Hold(W, Received)], []))
  {
    hide Reached, Q.Send, Q.Ack, Q.Attach, Q.Do, R.CredMap, C.Accepts, Rank, Flush;
    WorkAttached();
    var s1 := Working(Channel([W], false, [W]), 0, map[0 := []], 1, map[], []);
    var s2 := Working(Channel([W], false, []), 0, map[0 := [W]], 1, map[], []);
    WritesOne(s1, [W], false, W);
    Then(s1, Write, s2);
    Then(s2, Receive, Working(Channel([W], false, []), 0, map[0 := []], 1, map[0 := Hold(W, Received)], []));
  }

  lemma WorkStalled()
    ensures Reached(Working(Channel([W], false, []), 0, map[0 := []], 2, LOOP_W, ["w"]))
  {
    hide Reached, Q.Send, Q.Ack, Q.Attach, Q.Do, R.CredMap, Rank, Flush;
    WorkReceived();
    var s1 := Working(Channel([W], false, []), 0, map[0 := []], 1, map[0 := Hold(W, Received)], []);
    var s2 := Working(Channel([W], false, []), 0, map[0 := []], 1, LOOP_W, ["w"]);
    C.AcceptsIffNotRecent([], WINDOW, "w");
    assert s1.history + ["w"] == ["w"];
    assert s1.holds[0 := Hold(W, Admitted)] == LOOP_W;
    Then(s1, Admit(0), s2);
    var s3 := s2.(online := false);
    Then(s2, Disconnect, s3);
    Then(s3, OpenStream, Working(Channel([W], false, []), 0, map[0 := []], 2, LOOP_W, ["w"]));
  }

  /** The second stream is attached and its channel is written. */
  function Replay(wire: seq<Msg>, holds: map<nat, Hold>): State {
    Working(Channel([W], false, []), 1, map[0 := [], 1 := wire], 2, holds, ["w"])
  }

  const RELEASED := Replay([], LOOP_W).(queue := Channel([], false, []), acks := {"w"}, released := {"w"})

  const REPLAYED := Working(Channel([W], false, [W]), 1, map[0 := [], 1 := []], 2, LOOP_W, ["w"])

  lemma WorkQueued()
    ensures Reached(REPLAYED)
  {
    hide Reached, Q.Send, Q.Ack, Q.Do, Q.Attach, R.CredMap, C.Accepts, Rank;
    WorkStalled();
    var s1 := Working(Channel([W], false, []), 0, map[0 := []], 2, LOOP_W, ["w"]);
    AttachReplaysWork(s1, 1, "q");
    Then(s1, Attach(1, "q", false, false, 0), REPLAYED);
  }

  lemma WorkReplayed()
    ensures Reached(Replay([], LOOP_W[1 := Hold(W, Received)]))
  {
    hide Reached, Q.Send, Q.Ack, Q.Do, Q.Attach, R.CredMap, C.Accepts, Rank, Flush;
    WorkQueued();
    var s3 := Replay([W], LOOP_W);
    WritesOne(REPLAYED, [W], false, W);
    assert REPLAYED.wires[1 := [W]] == s3.wires && s3.wires[1 := []] == REPLAYED.wires;
    Then(REPLAYED, Write, s3);
    Then(s3, Receive, Replay([], LOOP_W[1 := Hold(W, Received)]));
  }

  lemma WorkKnown()
    ensures Reached(Replay([], LOOP_W[1 := Hold(W, Handled)]))
  {
    hide Reached, Q.Send, Q.Ack, Q.Attach, Q.Do, R.CredMap, Rank, Flush;
    WorkReplayed();
    var s := Replay([], LOOP_W[1 := Hold(W, Received)]);
    C.AcceptsIffNotRecent(["w"], WINDOW, "w");
    Then(s, Admit(1), Replay([], LOOP_W[1 := Hold(W, Handled)]));
  }

  lemma WorkReleased()
    ensures Reached(RELEASED)
  {
    hide Reached, Q.Send, Q.Ack, Q.Attach, Q.Do, R.CredMap, C.Accepts, Flush, Rank;
    WorkKnown();
    var s1 := Replay([], LOOP_W[1 := Hold(W, Handled)]);
    var s2 := Replay([], LOOP_W).(acks := {"w"});
    assert s1.holds - {1} == LOOP_W;
    Then(s1, Finish(1), s2);
    AckEmpties(W, false);
    Then(s2, AckArrives("w"), RELEASED);
  }

  /** The command is gone from the Hub and no loop will ever run it. */
  lemma AcknowledgedWorkCanBeLost()
    ensures exists st :: Reached(st) && "w" in st.released && "w" !in st.everExecuted
              && st.holds == map[] && st.queue.pending == []
  {
    WorkReleased();
    Then(RELEASED, Restart, RestartStep(RELEASED));
  }
}

/**
 * The AgentLink delivery protocol between the master and one agent as a step
 * system: commands queue, coalesce, are pushed, dropped, written, received,
 * deduplicated, executed, acknowledged and replayed, while sessions come and
 * go, the agent restarts and operators edit the registries table.
 *
 * Streams are numbered in the order the agent opens them. The receive loop of
 * a stream is not joined when its session ends, so a superseded loop can still
 * hold one command; its steps interleave with those of the current loop.
 */
module AgentLinkProtocol {
  import opened Wrappers
  import opened Messages
  import Q = CommandQueue
  import C = CmdCache
  import R = RegistryStore

  /** Size of the agent's idempotency window. */
  const WINDOW: nat := 1024

  datatype Phase = Received | Admitted | Handled

  /** The command a receive loop is working on. */
  datatype Hold = Hold(msg: Msg, phase: Phase)

  /** One content of the registries table, as read under regMu. */
  datatype Read = Read(creds: seq<Cred>, version: nat)

  /** A SetRegistries the Hub has accepted. */
  datatype Snapshot = Snapshot(id: Id, read: Read)

  datatype State = State(
    // master
    queue: Q.Queue,                 // pending commands and the live session's channel
    live: nat,                      // the stream of the live session, when there is one
    wires: map<nat, seq<Msg>>,      // per attached stream: written, not yet received
    tables: seq<seq<Cred>>,         // contents the registries table has had
    reader: Option<Read>,           // holder of regMu, after its read
    accepted: seq<Snapshot>,        // snapshots accepted by the Hub, oldest first
    sent: set<Id>,                  // ids of the work commands accepted by the Hub
    released: set<Id>,              // ids taken out of pending by an ack
    // agent
    streams: nat,                   // streams opened so far
    online: bool,                   // the newest stream is still up
    holds: map<nat, Hold>,
    history: seq<Id>,               // ids accepted by the cache of this process
    executed: seq<Id>,              // ids dispatched by this process
    applied: Option<nat>,           // the snapshot this process applied last
    creds: map<string, R.Login>,
    // observers
    everExecuted: set<Id>,
    acks: set<Id>,                  // acks handed to a stream; each may still be lost or late
    covered: bool)                  // since the last trusted attach with a preface: no restart, no untrusted attach

  const INIT := State(Q.EMPTY_QUEUE, 0, map[], [[]], None, [], {}, {},
                      0, false, map[], [], [], None, map[], {}, {}, false)

  datatype Step =
    | SendWork(id: Id, kind: Kind, payload: string)
    | EditTable(table: seq<Cred>)
    | LockAndRead
    | Broadcast(regId: Id)
    | Unlock
    | Attach(stream: nat, prefaceId: Id, readOk: bool, trusted: bool, flushed: nat)
    | Detach(flushed: nat)
    | Write
    | AckArrives(ackId: Id)
    | OpenStream
    | Disconnect
    | Receive
    | Admit(loop: nat)
    | Execute(loop: nat)
    | Finish(loop: nat)
    | Restart

  // ---- vocabulary ----

  function Rank(accepted: seq<Snapshot>, id: Id): nat {
    if accepted == [] || accepted[0].id == id then 0 else 1 + Rank(accepted[1..], id)
  }

  ghost function SnapshotIds(st: State): set<Id> {
    set s | s in st.accepted :: s.id
  }

  /** A uuid nobody has used yet. */
  ghost predicate Fresh(st: State, id: Id) {
    id != "" && id !in st.sent && id !in SnapshotIds(st)
  }

  function LinkOut(q: Q.Queue): seq<Msg> {
    if q.link.Some? then q.link.value.out else []
  }

  /** What the current receive loop has in hand or will still see, in order. */
  function Down(st: State): seq<Msg> {
    var c := st.streams - 1;
    (if c in st.holds then [st.holds[c].msg] else [])
    + (if c in st.wires then st.wires[c] else [])
    + (if st.queue.link.Some? && st.live == c then LinkOut(st.queue) else [])
  }

  /** A replaced or detached session's writer may send a few more messages before it stops. */
  function Flush(st: State, n: nat): map<nat, seq<Msg>> {
    if st.queue.link.Some? && n <= |LinkOut(st.queue)| && st.live in st.wires
    then st.wires[st.live := st.wires[st.live] + LinkOut(st.queue)[..n]]
    else st.wires
  }

  // ---- steps ----

  ghost predicate CanAttach(st: State, stream: nat, id: Id, trusted: bool, flushed: nat) {
    && stream < st.streams && stream !in st.wires && Fresh(st, id)
    && (trusted ==> st.reader.Some?) && flushed <= |LinkOut(st.queue)|
  }

  ghost predicate CanDo(st: State, step: Step) {
    match step
    case SendWork(id, _, _) => id != "" && id !in SnapshotIds(st)
    case EditTable(_) => true
    case LockAndRead => st.reader.None? && st.tables != []
    case Broadcast(id) => st.reader.Some? && st.queue.link.Some? && Fresh(st, id)
    case Unlock => st.reader.Some?
    case Attach(s, id, _, trusted, n) => CanAttach(st, s, id, trusted, n)
    case Detach(n) => st.queue.link.Some? && n <= |LinkOut(st.queue)|
    case Write => LinkOut(st.queue) != []
    case AckArrives(id) => id in st.acks
    case OpenStream => !st.online
    case Disconnect => st.online
    case Receive => CanReceive(st)
    case Admit(l) => l in st.holds && st.holds[l].phase == Received
    case Execute(l) => l in st.holds && st.holds[l].phase == Admitted
    case Finish(l) => l in st.holds && st.holds[l].phase == Handled
    case Restart => true
  }

  function SendWorkStep(st: State, id: Id, kind: Kind, payload: string): State {
    st.(queue := Q.Send(st.queue, id, Command(kind, id, payload)), sent := st.sent + {id})
  }

  function LockAndReadStep(st: State): State
    requires st.tables != []
  {
    st.(reader := Some(Read(st.tables[|st.tables| - 1], |st.tables| - 1)))
  }

  function BroadcastStep(st: State, id: Id): State
    requires st.reader.Some?
  {
    var m := SetRegistries("", st.reader.value.creds);
    st.(queue := Q.Send(st.queue, id, m),
        accepted := if Q.Withheld(st.queue, m) then st.accepted else st.accepted + [Snapshot(id, st.reader.value)])
  }

  function AttachStep(st: State, stream: nat, id: Id, readOk: bool, trusted: bool, flushed: nat): State
    requires trusted ==> st.reader.Some?
  {
    var prefaced := trusted && readOk;
    var preface := if prefaced then Some(SetRegistries("", st.reader.value.creds)) else None;
    st.(queue := Q.Attach(st.queue, preface, id, trusted),
        live := stream,
        wires := Flush(st, flushed)[stream := []],
        accepted := if prefaced then st.accepted + [Snapshot(id, st.reader.value)] else st.accepted,
        covered := prefaced || (trusted && st.covered))
  }

  function DetachStep(st: State, flushed: nat): State {
    st.(queue := Q.Detach(st.queue), wires := Flush(st, flushed))
  }

  function WriteStep(st: State): State {
    st.(queue := Q.Do(st.queue, Q.DoWrite), wires := Flush(st, 1))
  }

  function AckStep(st: State, id: Id): State {
    st.(queue := Q.Ack(st.queue, id), released := st.released + {id})
  }

  ghost predicate CanReceive(st: State) {
    var c := st.streams - 1;
    st.online && c !in st.holds && c in st.wires && st.wires[c] != []
  }

  ghost function ReceiveStep(st: State): State
    requires CanReceive(st)
  {
    var c := st.streams - 1;
    var m := st.wires[c][0];
    var taken := st.(wires := st.wires[c := st.wires[c][1..]]);
    if AgentCommandId(m) == "" then taken else taken.(holds := st.holds[c := Hold(m, Received)])
  }

  ghost function AdmitStep(st: State, l: nat): State
    requires l in st.holds
  {
    var m := st.holds[l].msg;
    if C.Accepts(st.history, WINDOW, AgentCommandId(m))
    then st.(history := st.history + [AgentCommandId(m)], holds := st.holds[l := Hold(m, Admitted)])
    else st.(holds := st.holds[l := Hold(m, Handled)])
  }

  function ExecuteStep(st: State, l: nat): State
    requires l in st.holds
  {
    var m := st.holds[l].msg;
    var done := st.(holds := st.holds[l := Hold(m, Handled)],
                    executed := st.executed + [AgentCommandId(m)],
                    everExecuted := st.everExecuted + {AgentCommandId(m)});
    if m.SetRegistries?
    then done.(creds := R.CredMap(m.creds), applied := Some(Rank(st.accepted, m.regId)))
    else done
  }

  /** Only the loop of a session that is still up gets its ack out. */
  function FinishStep(st: State, l: nat): State
    requires l in st.holds
  {
    var id := AgentCommandId(st.holds[l].msg);
    st.(holds := st.holds - {l},
        acks := if st.online && l + 1 == st.streams then st.acks + {id} else st.acks)
  }

  function RestartStep(st: State): State {
    st.(online := false, holds := map[], history := [], executed := [], applied := None, creds := map[],
        covered := false)
  }

  ghost function Do(st: State, step: Step): State
    requires CanDo(st, step)
  {
    match step
    case SendWork(id, kind, payload) => SendWorkStep(st, id, kind, payload)
    case EditTable(table) => st.(tables := st.tables + [table])
    case LockAndRead => LockAndReadStep(st)
    case Broadcast(id) => BroadcastStep(st, id)
    case Unlock => st.(reader := None)
    case Attach(stream, id, readOk, trusted, n) => AttachStep(st, stream, id, readOk, trusted, n)
    case Detach(n) => DetachStep(st, n)
    case Write => WriteStep(st)
    case AckArrives(id) => AckStep(st, id)
    case OpenStream => st.(streams := st.streams + 1, online := true)
    case Disconnect => st.(online := false)
    case Receive => ReceiveStep(st)
    case Admit(l) => AdmitStep(st, l)
    case Execute(l) => ExecuteStep(st, l)
    case Finish(l) => FinishStep(st, l)
    case Restart => RestartStep(st)
  }

  // ---- what is kept ----

  ghost predicate HasEntry(accepted: seq<Snapshot>, m: Msg)
    requires m.SetRegistries?
  {
    var k := Rank(accepted, m.regId);
    k < |accepted| && accepted[k].read.creds == m.creds
  }

  /** Every message in the system is accepted work or an accepted snapshot. */
  ghost predicate Genuine(accepted: seq<Snapshot>, sent: set<Id>, m: Msg) {
    || (m.Command? && m.cmdId in sent)
    || (m.SetRegistries? && HasEntry(accepted, m))
  }

  ghost predicate AllGenuine(accepted: seq<Snapshot>, sent: set<Id>, ms: seq<Msg>) {
    forall m :: m in ms ==> Genuine(accepted, sent, m)
  }

  ghost predicate IdsOk(accepted: seq<Snapshot>, sent: set<Id>) {
    && (forall i, j :: 0 <= i < j < |accepted| ==> accepted[i].id != accepted[j].id)
    && (forall s :: s in accepted ==> s.id != "" && s.id !in sent)
    && "" !in sent
  }

  /** regMu: snapshots are accepted in the order in which they were read. */
  ghost predicate ReadsOk(tables: seq<seq<Cred>>, accepted: seq<Snapshot>, reader: Option<Read>) {
    && tables != []
    && (forall s :: s in accepted ==> s.read.version < |tables| && s.read.creds == tables[s.read.version])
    && (forall i, j :: 0 <= i < j < |accepted| ==> accepted[i].read.version <= accepted[j].read.version)
    && (reader.Some? ==>
          && reader.value.version < |tables|
          && reader.value.creds == tables[reader.value.version]
          && forall s :: s in accepted ==> s.read.version <= reader.value.version)
  }

  /** The one snapshot that may be pending is the newest the Hub accepted. */
  ghost predicate QueueOk(accepted: seq<Snapshot>, sent: set<Id>, queue: Q.Queue) {
    && Q.Coherent(queue)
    && AllGenuine(accepted, sent, queue.pending)
    && AllGenuine(accepted, sent, LinkOut(queue))
    && (forall m :: m in queue.pending && m.SetRegistries? ==> Rank(accepted, m.regId) == |accepted| - 1)
  }

  ghost predicate ShapeOk(queue: Q.Queue, live: nat, wires: map<nat, seq<Msg>>, streams: nat, holds: map<nat, Hold>) {
    && (queue.link.Some? ==> live in wires)
    && (forall s :: s in wires ==> s < streams)
    && (forall l :: l in holds ==> l in wires)
  }

  /** Ranks never decrease along what the current loop will see. */
  ghost predicate Ascending(accepted: seq<Snapshot>, ms: seq<Msg>) {
    forall i, j :: 0 <= i < j < |ms| && ms[i].SetRegistries? && ms[j].SetRegistries? ==>
      Rank(accepted, ms[i].regId) <= Rank(accepted, ms[j].regId)
  }

  /** No snapshot in ms is older than rank. */
  ghost predicate NotOlder(accepted: seq<Snapshot>, ms: seq<Msg>, rank: nat) {
    forall m :: m in ms && m.SetRegistries? ==> rank <= Rank(accepted, m.regId)
  }

  ghost predicate DownOk(accepted: seq<Snapshot>, sent: set<Id>, down: seq<Msg>, applied: Option<nat>) {
    && AllGenuine(accepted, sent, down)
    && Ascending(accepted, down)
    && (applied.Some? ==> applied.value < |accepted| && NotOlder(accepted, down, applied.value))
  }

  /** A superseded loop holds nothing newer than what the current loop will see. */
  ghost predicate StaleOk(accepted: seq<Snapshot>, down: seq<Msg>, holds: map<nat, Hold>, streams: nat) {
    forall l :: l in holds && l + 1 != streams && holds[l].msg.SetRegistries? ==>
      NotOlder(accepted, down, Rank(accepted, holds[l].msg.regId))
  }

  ghost predicate HoldsOk(accepted: seq<Snapshot>, sent: set<Id>, holds: map<nat, Hold>, history: seq<Id>) {
    forall l :: l in holds ==>
      && Genuine(accepted, sent, holds[l].msg)
      && (holds[l].phase != Received ==> CommandId(holds[l].msg) in history)
  }

  ghost predicate HistoryOk(accepted: seq<Snapshot>, sent: set<Id>, history: seq<Id>, acks: set<Id>) {
    && (forall id :: id in history ==> id in sent || Rank(accepted, id) < |accepted|)
    && (forall id :: id in acks ==> id in sent || Rank(accepted, id) < |accepted|)
    && C.Produced(history, WINDOW)
  }

  ghost predicate AppliedOk(accepted: seq<Snapshot>, applied: Option<nat>, creds: map<string, R.Login>) {
    match applied
    case None => creds == map[]
    case Some(r) => r < |accepted| && creds == R.CredMap(accepted[r].read.creds)
  }

  ghost predicate Structure(st: State) {
    && IdsOk(st.accepted, st.sent)
    && ReadsOk(st.tables, st.accepted, st.reader)
    && QueueOk(st.accepted, st.sent, st.queue)
    && ShapeOk(st.queue, st.live, st.wires, st.streams, st.holds)
    && DownOk(st.accepted, st.sent, Down(st), st.applied)
    && StaleOk(st.accepted, Down(st), st.holds, st.streams)
    && HoldsOk(st.accepted, st.sent, st.holds, st.history)
    && HistoryOk(st.accepted, st.sent, st.history, st.acks)
    && AppliedOk(st.accepted, st.applied, st.creds)
  }

  // ---- ranks ----

  lemma {:induction false} RankFinds(accepted: seq<Snapshot>, id: Id)
    ensures Rank(accepted, id) <= |accepted|
    ensures Rank(accepted, id) < |accepted| ==> accepted[Rank(accepted, id)].id == id
    ensures forall i :: 0 <= i < Rank(accepted, id) ==> accepted[i].id != id
  {
    if accepted != [] && accepted[0].id != id {
      RankFinds(accepted[1..], id);
      forall i | 0 <= i < Rank(accepted, id) ensures accepted[i].id != id {
        assert i > 0 ==> accepted[i] == accepted[1..][i - 1];
      }
    }
  }

  lemma RankIs(accepted: seq<Snapshot>, k: nat)
    requires k < |accepted|
    requires forall i, j :: 0 <= i < j < |accepted| ==> accepted[i].id != accepted[j].id
    ensures Rank(accepted, accepted[k].id) == k
  {
    RankFinds(accepted, accepted[k].id);
  }

  lemma {:induction false} RankStays(accepted: seq<Snapshot>, s: Snapshot, id: Id)
    ensures Rank(accepted, id) < |accepted| ==> Rank(accepted + [s], id) == Rank(accepted, id)
    ensures Rank(accepted, id) == |accepted| && s.id == id ==> Rank(accepted + [s], id) == |accepted|
  {
    if accepted == [] {
      assert accepted + [s] == [s];
    } else if accepted[0].id != id {
      RankStays(accepted[1..], s, id);
      assert (accepted + [s])[1..] == accepted[1..] + [s];
    }
  }

  /** Accepting a fresh snapshot leaves the rank of everything already accepted alone. */
  lemma AcceptKeepsRanks(accepted: seq<Snapshot>, sent: set<Id>, s: Snapshot, ms: seq<Msg>)
    requires AllGenuine(accepted, sent, ms)
    ensures AllGenuine(accepted + [s], sent, ms)
    ensures forall m :: m in ms && m.SetRegistries? ==>
              Rank(accepted + [s], m.regId) == Rank(accepted, m.regId) < |accepted|
  {
    forall m | m in ms
      ensures Genuine(accepted + [s], sent, m)
      ensures m.SetRegistries? ==> Rank(accepted + [s], m.regId) == Rank(accepted, m.regId) < |accepted|
    {
      assert Genuine(accepted, sent, m);
      if m.SetRegistries? {
        RankStays(accepted, s, m.regId);
      }
    }
  }

  lemma FreshRank(accepted: seq<Snapshot>, s: Snapshot)
    requires forall t :: t in accepted ==> t.id != s.id
    ensures Rank(accepted + [s], s.id) == |accepted|
  {
    RankFinds(accepted, s.id);
    RankStays(accepted, s, s.id);
  }

  // ---- what a section of the Hub does to the current channel ----

  /** Sending work appends at most one pending work command to the channel. */
  lemma {:induction false} WorkReachesChannel(q: Q.Queue, id: Id, kind: Kind, payload: string)
    requires Q.Coherent(q) && id != ""
    requires forall m :: m in q.pending ==> m.Command? || (m.SetRegistries? && m.regId != id)
    ensures var after := Q.Send(q, id, Command(kind, id, payload));
            && (after.link.Some? <==> q.link.Some?)
            && (LinkOut(after) == LinkOut(q)
                || exists x :: LinkOut(after) == LinkOut(q) + [x] && x.Command? && x.cmdId == id)
            && (forall m :: m in after.pending ==> m in q.pending || m == Command(kind, id, payload))
            && (forall m :: m in q.pending ==> m in after.pending)
            && (exists m :: m in after.pending && m.Command? && m.cmdId == id)
  {
    Q.IndexOfFinds(q.pending, id);
    var k := Q.IndexOf(q.pending, id);
    var m := Command(kind, id, payload);
    var after := Q.Send(q, id, m);
    if k < |q.pending| {
      assert q.pending[k] in after.pending && q.pending[k].Command?;
      assert LinkOut(after) == LinkOut(q) || LinkOut(after) == LinkOut(q) + [q.pending[k]];
    } else {
      assert after.pending == q.pending + [m];
      assert m in after.pending;
      assert LinkOut(after) == LinkOut(q) || LinkOut(after) == LinkOut(q) + [m];
    }
  }

  /** Sending a snapshot over a trusted link replaces any older one and keeps all work. */
  lemma {:induction false} SnapshotReachesChannel(q: Q.Queue, id: Id, creds: seq<Cred>)
    requires forall m :: m in q.pending ==> CommandId(m) != id
    ensures var m := SetRegistries("", creds);
            var after := Q.Send(q, id, m);
            if Q.Withheld(q, m) then after == q
            else
              && after.link.Some?
              && (LinkOut(after) == LinkOut(q) || LinkOut(after) == LinkOut(q) + [SetRegistries(id, creds)])
              && (forall w :: w in after.pending <==>
                  w == SetRegistries(id, creds) || (w in q.pending && !w.SetRegistries?))
  {
    Q.IndexOfFinds(q.pending, id);
    RemoveSetRegistriesKeeps(q.pending);
  }

  /** After an attach the channel is a prefix of pending, and pending holds no older snapshot. */
  lemma {:induction false} AttachReachesChannel(q: Q.Queue, preface: Option<Msg>, id: Id, trusted: bool)
    requires preface.Some? ==> trusted && preface.value.SetRegistries?
    ensures var after := Q.Attach(q, preface, id, trusted);
            && after.link.Some?
            && LinkOut(after) <= after.pending
            && (forall w :: w in after.pending <==>
                  || (preface.Some? && w == SetRegistries(id, preface.value.creds))
                  || (w in q.pending && (w.SetRegistries? ==> trusted && preface.None?)))
  {
    RemoveSetRegistriesKeeps(q.pending);
    RemoveSetRegistriesKeeps(RemoveSetRegistries(q.pending));
    Q.ReplayIsPrefix(Q.Attach(q, preface, id, trusted).pending);
  }

  // ---- slices and extensions of what the current loop will see ----

  lemma SliceKeepsOrder(accepted: seq<Snapshot>, ms: seq<Msg>, slice: seq<Msg>, from: nat)
    requires from + |slice| <= |ms| && slice == ms[from..from + |slice|]
    requires Ascending(accepted, ms)
    ensures Ascending(accepted, slice)
    ensures forall m :: m in slice ==> m in ms
    ensures forall r: nat :: NotOlder(accepted, ms, r) ==> NotOlder(accepted, slice, r)
  {
    assert forall i :: 0 <= i < |slice| ==> slice[i] == ms[from + i];
    forall m | m in slice ensures m in ms {
      var i :| 0 <= i < |slice| && slice[i] == m;
      assert ms[from + i] == m;
    }
  }

  /** Appending work, or the newest snapshot, keeps the order. */
  lemma ExtensionKeepsOrder(accepted: seq<Snapshot>, ms: seq<Msg>, x: Msg)
    requires Ascending(accepted, ms)
    requires x.SetRegistries? ==> forall m :: m in ms && m.SetRegistries? ==>
        Rank(accepted, m.regId) <= Rank(accepted, x.regId)
    ensures Ascending(accepted, ms + [x])
  {
    var all := ms + [x];
    forall i, j | 0 <= i < j < |all| && all[i].SetRegistries? && all[j].SetRegistries?
      ensures Rank(accepted, all[i].regId) <= Rank(accepted, all[j].regId)
    {
      assert all[i] in ms;
    }
  }

  // ---- the loops' hands ----

  lemma DropHold(accepted: seq<Snapshot>, sent: set<Id>, holds: map<nat, Hold>, history: seq<Id>,
                 down: seq<Msg>, streams: nat, l: nat)
    requires HoldsOk(accepted, sent, holds, history) && StaleOk(accepted, down, holds, streams)
    ensures HoldsOk(accepted, sent, holds - {l}, history) && StaleOk(accepted, down, holds - {l}, streams)
  {
  }

  lemma SetHold(accepted: seq<Snapshot>, sent: set<Id>, holds: map<nat, Hold>, history: seq<Id>, more: seq<Id>,
                down: seq<Msg>, streams: nat, l: nat, hold: Hold)
    requires HoldsOk(accepted, sent, holds, history) && StaleOk(accepted, down, holds, streams)
    requires Genuine(accepted, sent, hold.msg)
    requires hold.phase != Received ==> CommandId(hold.msg) in history + more
    requires l + 1 == streams || (l in holds && holds[l].msg == hold.msg)
    ensures HoldsOk(accepted, sent, holds[l := hold], history + more)
    ensures StaleOk(accepted, down, holds[l := hold], streams)
  {
  }

  lemma SliceKeepsDown(accepted: seq<Snapshot>, sent: set<Id>, down: seq<Msg>, applied: Option<nat>,
                       holds: map<nat, Hold>, streams: nat, slice: seq<Msg>, from: nat)
    requires DownOk(accepted, sent, down, applied) && StaleOk(accepted, down, holds, streams)
    requires from + |slice| <= |down| && slice == down[from..from + |slice|]
    ensures DownOk(accepted, sent, slice, applied) && StaleOk(accepted, slice, holds, streams)
  {
    SliceKeepsOrder(accepted, down, slice, from);
  }

  // ---- every step keeps the structure ----

  /** Growing the set of sent ids disturbs nothing. */
  lemma SentGrows(st: State, id: Id)
    requires Structure(st) && id != "" && id !in SnapshotIds(st)
    ensures Structure(st.(sent := st.sent + {id}))
  {
    var after := st.(sent := st.sent + {id});
    assert Down(after) == Down(st);
    assert forall m :: Genuine(st.accepted, st.sent, m) ==> Genuine(st.accepted, after.sent, m);
  }

  lemma SendWorkKeeps(st: State, id: Id, kind: Kind, payload: string)
    requires Structure(st) && id != "" && id !in SnapshotIds(st)
    ensures Structure(SendWorkStep(st, id, kind, payload))
  {
    SentGrows(st, id);
    SendKeeps(st.(sent := st.sent + {id}), id, kind, payload);
  }

  lemma SendKeeps(st: State, id: Id, kind: Kind, payload: string)
    requires Structure(st) && id in st.sent && id !in SnapshotIds(st)
    ensures Structure(st.(queue := Q.Send(st.queue, id, Command(kind, id, payload))))
  {
    hide IdsOk, ReadsOk, QueueOk, ShapeOk, StaleOk, DownOk, HoldsOk, HistoryOk, AppliedOk, Down, Q.Send;
    var after := st.(queue := Q.Send(st.queue, id, Command(kind, id, payload)));
    SentQueue(st, id, kind, payload);
    SentShape(st, id, kind, payload);
    SentDown(st, after.queue, id);
    if Down(after) != Down(st) {
      var x :| Down(after) == Down(st) + [x] && x.Command? && x.cmdId == id;
      WorkExtends(st, x);
    }
  }

  lemma SentQueue(st: State, id: Id, kind: Kind, payload: string)
    requires Structure(st) && id in st.sent && id !in SnapshotIds(st)
    ensures var q := Q.Send(st.queue, id, Command(kind, id, payload));
            && QueueOk(st.accepted, st.sent, q)
            && (LinkOut(q) == LinkOut(st.queue)
                || exists x :: LinkOut(q) == LinkOut(st.queue) + [x] && x.Command? && x.cmdId == id)
  {
    hide ReadsOk, ShapeOk, StaleOk, DownOk, HoldsOk, HistoryOk, AppliedOk, Q.Send, Q.Coherent, Rank;
    Q.SendKeepsCoherent(st.queue, id, Command(kind, id, payload));
    PendingSnapshotsDiffer(st, id);
    WorkReachesChannel(st.queue, id, kind, payload);
  }

  lemma SentShape(st: State, id: Id, kind: Kind, payload: string)
    requires ShapeOk(st.queue, st.live, st.wires, st.streams, st.holds)
    ensures ShapeOk(Q.Send(st.queue, id, Command(kind, id, payload)), st.live, st.wires, st.streams, st.holds)
    ensures Q.Send(st.queue, id, Command(kind, id, payload)).link.Some? == st.queue.link.Some?
  {
  }

  lemma SentDown(st: State, q: Q.Queue, id: Id)
    requires LinkOut(q) == LinkOut(st.queue)
             || exists x :: LinkOut(q) == LinkOut(st.queue) + [x] && x.Command? && x.cmdId == id
    requires q.link.Some? == st.queue.link.Some?
    ensures var after := st.(queue := q);
            || Down(after) == Down(st)
            || exists x :: Down(after) == Down(st) + [x] && x.Command? && x.cmdId == id
  {
    var after := st.(queue := q);
    if LinkOut(q) != LinkOut(st.queue) {
      var x :| LinkOut(q) == LinkOut(st.queue) + [x] && x.Command? && x.cmdId == id;
      assert Down(after) == Down(st) || Down(after) == Down(st) + [x];
    }
  }

  lemma WorkExtends(st: State, x: Msg)
    requires DownOk(st.accepted, st.sent, Down(st), st.applied)
    requires StaleOk(st.accepted, Down(st), st.holds, st.streams)
    requires x.Command? && x.cmdId in st.sent
    ensures DownOk(st.accepted, st.sent, Down(st) + [x], st.applied)
    ensures StaleOk(st.accepted, Down(st) + [x], st.holds, st.streams)
  {
    hide Ascending, Down, Rank;
    ExtensionKeepsOrder(st.accepted, Down(st), x);
    assert forall m :: m in Down(st) + [x] <==> m in Down(st) || m == x;
  }

  lemma BroadcastKeeps(st: State, id: Id)
    requires Structure(st) && st.reader.Some? && Fresh(st, id)
    ensures Structure(BroadcastStep(st, id))
  {
    hide C.Produced, IdsOk, ReadsOk, QueueOk, Ascending, NotOlder;
    var after := BroadcastStep(st, id);
    BroadcastQueue(st, id);
    if after.accepted != st.accepted {
      AcceptGrows(st, Snapshot(id, st.reader.value));
      NewestExtends(st, Snapshot(id, st.reader.value));
      assert Down(after) == Down(st) || Down(after) == Down(st) + [SetRegistries(id, st.reader.value.creds)];
    }
  }

  lemma BroadcastQueue(st: State, id: Id)
    requires Structure(st) && st.reader.Some? && Fresh(st, id)
    ensures var after := BroadcastStep(st, id);
            var x := SetRegistries(id, st.reader.value.creds);
            && QueueOk(after.accepted, after.sent, after.queue)
            && (after.accepted == st.accepted ==> after.queue == st.queue)
            && (after.queue.link.Some? <==> st.queue.link.Some?)
            && (after.accepted != st.accepted ==>
                  LinkOut(after.queue) == LinkOut(st.queue) || LinkOut(after.queue) == LinkOut(st.queue) + [x])
  {
    hide C.Produced, ReadsOk, Ascending, NotOlder;
    var after := BroadcastStep(st, id);
    var m := SetRegistries("", st.reader.value.creds);
    PendingIdsDiffer(st, id);
    Q.SendKeepsCoherent(st.queue, id, m);
    SnapshotReachesChannel(st.queue, id, m.creds);
    if !Q.Withheld(st.queue, m) {
      AcceptedQueue(st, after.queue, Snapshot(id, st.reader.value));
    }
  }

  lemma PendingIdsDiffer(st: State, id: Id)
    requires Structure(st) && Fresh(st, id)
    ensures forall m :: m in st.queue.pending ==> CommandId(m) != id
  {
    hide C.Produced, ReadsOk, Ascending, NotOlder, Q.Coherent;
    forall m | m in st.queue.pending ensures CommandId(m) != id {
      assert Genuine(st.accepted, st.sent, m);
      if m.SetRegistries? {
        RankFinds(st.accepted, m.regId);
      }
    }
  }

  /** No pending snapshot carries the id of a work command. */
  lemma PendingSnapshotsDiffer(st: State, id: Id)
    requires Structure(st) && id !in SnapshotIds(st)
    ensures forall m :: m in st.queue.pending ==> m.Command? || (m.SetRegistries? && m.regId != id)
  {
    hide C.Produced, ReadsOk, Ascending, NotOlder, Q.Coherent;
    forall m | m in st.queue.pending ensures m.Command? || (m.SetRegistries? && m.regId != id) {
      assert Genuine(st.accepted, st.sent, m);
      if m.SetRegistries? {
        RankFinds(st.accepted, m.regId);
      }
    }
  }

  /** Pushing the snapshot just accepted onto the current channel keeps the order. */
  lemma NewestExtends(st: State, s: Snapshot)
    requires Structure(st) && Fresh(st, s.id)
    ensures var down := Down(st) + [SetRegistries(s.id, s.read.creds)];
            && DownOk(st.accepted + [s], st.sent, down, st.applied)
            && StaleOk(st.accepted + [s], down, st.holds, st.streams)
  {
    var accepted := st.accepted + [s];
    var x := SetRegistries(s.id, s.read.creds);
    FreshRank(st.accepted, s);
    AcceptKeepsRanks(st.accepted, st.sent, s, Down(st));
    ExtensionKeepsOrder(accepted, Down(st), x);
    assert forall m :: m in Down(st) + [x] <==> m in Down(st) || m == x;
    forall l | l in st.holds && st.holds[l].msg.SetRegistries?
      ensures Rank(accepted, st.holds[l].msg.regId) == Rank(st.accepted, st.holds[l].msg.regId) < |st.accepted|
    {
      AcceptKeepsRanks(st.accepted, st.sent, s, [st.holds[l].msg]);
      assert st.holds[l].msg in [st.holds[l].msg];
    }
  }

  lemma IdsGrow(accepted: seq<Snapshot>, sent: set<Id>, s: Snapshot)
    requires IdsOk(accepted, sent) && s.id != "" && s.id !in sent && forall t :: t in accepted ==> t.id != s.id
    ensures IdsOk(accepted + [s], sent)
  {
    var longer := accepted + [s];
    forall i, j | 0 <= i < j < |longer| ensures longer[i].id != longer[j].id {
      assert longer[i] in accepted;
    }
  }

  lemma ReadsGrow(tables: seq<seq<Cred>>, accepted: seq<Snapshot>, s: Snapshot)
    requires ReadsOk(tables, accepted, Some(s.read))
    ensures ReadsOk(tables, accepted + [s], Some(s.read))
  {
    var longer := accepted + [s];
    forall i, j | 0 <= i < j < |longer| ensures longer[i].read.version <= longer[j].read.version {
      assert longer[i] in accepted;
    }
  }

  lemma DownGrows(accepted: seq<Snapshot>, sent: set<Id>, down: seq<Msg>, applied: Option<nat>, s: Snapshot)
    requires DownOk(accepted, sent, down, applied)
    ensures DownOk(accepted + [s], sent, down, applied)
  {
    hide Genuine, Rank;
    AcceptKeepsRanks(accepted, sent, s, down);
    assert forall i :: 0 <= i < |down| ==> down[i] in down;
  }

  /** What the loops hold keeps its rank. */
  lemma HoldsGrow(accepted: seq<Snapshot>, sent: set<Id>, holds: map<nat, Hold>, history: seq<Id>, s: Snapshot)
    requires HoldsOk(accepted, sent, holds, history)
    ensures HoldsOk(accepted + [s], sent, holds, history)
    ensures forall l :: l in holds && holds[l].msg.SetRegistries? ==>
              Rank(accepted + [s], holds[l].msg.regId) == Rank(accepted, holds[l].msg.regId)
  {
    hide Genuine, Rank;
    forall l | l in holds
      ensures Genuine(accepted + [s], sent, holds[l].msg)
      ensures holds[l].msg.SetRegistries? ==>
                Rank(accepted + [s], holds[l].msg.regId) == Rank(accepted, holds[l].msg.regId)
    {
      AcceptKeepsRanks(accepted, sent, s, [holds[l].msg]);
      assert holds[l].msg in [holds[l].msg];
    }
  }

  lemma StaleGrows(accepted: seq<Snapshot>, sent: set<Id>, down: seq<Msg>, holds: map<nat, Hold>, history: seq<Id>,
                   streams: nat, s: Snapshot)
    requires AllGenuine(accepted, sent, down) && HoldsOk(accepted, sent, holds, history)
    requires StaleOk(accepted, down, holds, streams)
    ensures StaleOk(accepted + [s], down, holds, streams)
  {
    hide Genuine, Rank;
    AcceptKeepsRanks(accepted, sent, s, down);
    HoldsGrow(accepted, sent, holds, history, s);
  }

  lemma KnownIdsGrow(accepted: seq<Snapshot>, sent: set<Id>, history: seq<Id>, acks: set<Id>, s: Snapshot)
    requires HistoryOk(accepted, sent, history, acks)
    ensures HistoryOk(accepted + [s], sent, history, acks)
  {
    hide C.Produced, Rank;
    forall id: Id | Rank(accepted, id) < |accepted| ensures Rank(accepted + [s], id) == Rank(accepted, id) {
      RankStays(accepted, s, id);
    }
  }

  /** Everything but the queue, after one more snapshot was accepted. */
  lemma AcceptGrows(st: State, s: Snapshot)
    requires Structure(st) && Fresh(st, s.id) && st.reader == Some(s.read)
    ensures var accepted := st.accepted + [s];
            && IdsOk(accepted, st.sent) && ReadsOk(st.tables, accepted, st.reader)
            && DownOk(accepted, st.sent, Down(st), st.applied)
            && StaleOk(accepted, Down(st), st.holds, st.streams)
            && HoldsOk(accepted, st.sent, st.holds, st.history)
            && HistoryOk(accepted, st.sent, st.history, st.acks)
            && AppliedOk(accepted, st.applied, st.creds)
  {
    hide IdsOk, ReadsOk, QueueOk, ShapeOk, StaleOk, HoldsOk, HistoryOk, AllGenuine, Ascending, NotOlder, Down,
        R.CredMap;
    IdsGrow(st.accepted, st.sent, s);
    ReadsGrow(st.tables, st.accepted, s);
    DownGrows(st.accepted, st.sent, Down(st), st.applied, s);
    StaleGrows(st.accepted, st.sent, Down(st), st.holds, st.history, st.streams, s);
    HoldsGrow(st.accepted, st.sent, st.holds, st.history, s);
    KnownIdsGrow(st.accepted, st.sent, st.history, st.acks, s);
  }

  lemma AcceptedQueue(st: State, queue: Q.Queue, s: Snapshot)
    requires QueueOk(st.accepted, st.sent, st.queue) && Fresh(st, s.id) && Q.Coherent(queue)
    requires var x := SetRegistries(s.id, s.read.creds);
             && (forall m :: m in LinkOut(queue) ==> m == x || m in LinkOut(st.queue) || m in queue.pending)
             && (forall w :: w in queue.pending ==> w == x || (w in st.queue.pending && !w.SetRegistries?))
    ensures QueueOk(st.accepted + [s], st.sent, queue)
  {
    FreshRank(st.accepted, s);
    AcceptKeepsRanks(st.accepted, st.sent, s, st.queue.pending);
    AcceptKeepsRanks(st.accepted, st.sent, s, LinkOut(st.queue));
  }

  lemma AttachKeeps(st: State, stream: nat, id: Id, readOk: bool, trusted: bool, flushed: nat)
    requires Structure(st) && CanAttach(st, stream, id, trusted, flushed)
    ensures Structure(AttachStep(st, stream, id, readOk, trusted, flushed))
  {
    hide IdsOk, ReadsOk, QueueOk, StaleOk, DownOk, HoldsOk, HistoryOk, AppliedOk, Down, Flush, Q.Attach;
    var after := AttachStep(st, stream, id, readOk, trusted, flushed);
    AttachedQueue(st, stream, id, readOk, trusted, flushed);
    AttachedShape(st, stream, id, readOk, trusted, flushed);
    if after.accepted != st.accepted {
      AcceptGrows(st, Snapshot(id, st.reader.value));
    }
    AppliedIsAccepted(after.accepted, st.applied, st.creds);
    if stream == st.streams - 1 {
      ReplayedDown(after.accepted, after.sent, after.queue, Down(after), st.applied, st.holds, st.history, st.streams);
    } else {
      FlushedDown(st, flushed);
      SliceKeepsDown(after.accepted, st.sent, Down(st), st.applied, st.holds, st.streams, Down(after), 0);
    }
  }

  lemma AppliedIsAccepted(accepted: seq<Snapshot>, applied: Option<nat>, creds: map<string, R.Login>)
    requires AppliedOk(accepted, applied, creds)
    ensures applied.Some? ==> applied.value < |accepted|
  {
  }

  /** The current loop sees the new channel, or what is left of the old one. */
  lemma AttachedShape(st: State, stream: nat, id: Id, readOk: bool, trusted: bool, flushed: nat)
    requires ShapeOk(st.queue, st.live, st.wires, st.streams, st.holds)
    requires CanAttach(st, stream, id, trusted, flushed)
    ensures var after := AttachStep(st, stream, id, readOk, trusted, flushed);
            && ShapeOk(after.queue, after.live, after.wires, after.streams, after.holds)
            && Down(after) == if stream == st.streams - 1 then LinkOut(after.queue) else FlushView(st, flushed)
  {
    hide Q.Attach;
    var after := AttachStep(st, stream, id, readOk, trusted, flushed);
    if stream == st.streams - 1 {
      assert stream !in st.holds;
      assert Down(after) == LinkOut(after.queue);
    } else {
      assert Down(after) == FlushView(st, flushed);
    }
  }

  lemma AttachedQueue(st: State, stream: nat, id: Id, readOk: bool, trusted: bool, flushed: nat)
    requires Structure(st) && CanAttach(st, stream, id, trusted, flushed)
    ensures var after := AttachStep(st, stream, id, readOk, trusted, flushed);
            && QueueOk(after.accepted, after.sent, after.queue)
            && LinkOut(after.queue) <= after.queue.pending && after.queue.link.Some?
  {
    hide C.Produced, ReadsOk, Ascending, NotOlder;
    var after := AttachStep(st, stream, id, readOk, trusted, flushed);
    var prefaced := trusted && readOk;
    var preface := if prefaced then Some(SetRegistries("", st.reader.value.creds)) else None;
    PendingIdsDiffer(st, id);
    Q.AttachKeepsCoherent(st.queue, preface, id, trusted);
    AttachReachesChannel(st.queue, preface, id, trusted);
    if prefaced {
      AcceptedQueue(st, after.queue, Snapshot(id, st.reader.value));
    }
  }

  /** A freshly attached channel: the only snapshot in it is the newest. */
  lemma ReplayedDown(accepted: seq<Snapshot>, sent: set<Id>, queue: Q.Queue, down: seq<Msg>, applied: Option<nat>,
                     holds: map<nat, Hold>, history: seq<Id>, streams: nat)
    requires QueueOk(accepted, sent, queue) && down == LinkOut(queue) <= queue.pending
    requires applied.Some? ==> applied.value < |accepted|
    requires HoldsOk(accepted, sent, holds, history)
    ensures DownOk(accepted, sent, down, applied) && StaleOk(accepted, down, holds, streams)
  {
    forall m | m in down && m.SetRegistries? ensures Rank(accepted, m.regId) == |accepted| - 1 {
      assert m in queue.pending;
    }
  }

  /** What the current loop sees once the live session's writer stopped after n more messages. */
  function FlushView(st: State, n: nat): seq<Msg> {
    var c := st.streams - 1;
    (if c in st.holds then [st.holds[c].msg] else [])
    + (if c in Flush(st, n) then Flush(st, n)[c] else [])
  }

  lemma FlushedDown(st: State, n: nat)
    requires n <= |LinkOut(st.queue)|
    ensures FlushView(st, n) <= Down(st)
  {
    var c := st.streams - 1;
    var out := LinkOut(st.queue);
    assert out == out[..n] + out[n..];
    if st.queue.link.Some? && st.live == c && c in st.wires {
      assert Down(st) == FlushView(st, n) + out[n..];
    }
  }

  lemma DetachKeeps(st: State, flushed: nat)
    requires Structure(st) && flushed <= |LinkOut(st.queue)|
    ensures Structure(DetachStep(st, flushed))
  {
    hide IdsOk, ReadsOk, StaleOk, DownOk, HoldsOk, HistoryOk, AppliedOk, FlushView;
    var after := DetachStep(st, flushed);
    FlushedDown(st, flushed);
    DetachedDown(st, flushed);
    SliceKeepsDown(st.accepted, st.sent, Down(st), st.applied, st.holds, st.streams, Down(after), 0);
  }

  lemma DetachedDown(st: State, flushed: nat)
    ensures Down(DetachStep(st, flushed)) == FlushView(st, flushed)
  {
  }

  lemma WriteKeeps(st: State)
    requires Structure(st) && LinkOut(st.queue) != []
    ensures Structure(WriteStep(st))
  {
    hide IdsOk, ReadsOk, StaleOk, DownOk, HoldsOk, HistoryOk, AppliedOk, Down;
    WrittenDown(st);
  }

  /** The head of the channel becomes the end of the wire. */
  lemma WrittenDown(st: State)
    requires ShapeOk(st.queue, st.live, st.wires, st.streams, st.holds) && LinkOut(st.queue) != []
    ensures Down(WriteStep(st)) == Down(st)
  {
    var after := WriteStep(st);
    var out := LinkOut(st.queue);
    assert out == out[..1] + out[1..];
    assert st.live in st.wires && after.wires == st.wires[st.live := st.wires[st.live] + out[..1]];
    if st.live == st.streams - 1 {
      assert st.wires[st.live] + out == st.wires[st.live] + out[..1] + out[1..];
    }
  }

  lemma AckKeeps(st: State, id: Id)
    requires Structure(st) && id in st.acks
    ensures Structure(AckStep(st, id))
  {
    var after := AckStep(st, id);
    Q.AckKeepsCoherent(st.queue, id);
    RankFinds(st.accepted, id);
    Q.AckRemovesExactly(st.queue, id);
    assert Down(after) == Down(st);
  }

  lemma SmallStepsKeep(st: State, step: Step)
    requires Structure(st) && CanDo(st, step)
    requires step.EditTable? || step.LockAndRead? || step.Unlock? || step.OpenStream? || step.Disconnect?
    ensures Structure(Do(st, step))
  {
    hide IdsOk, QueueOk, DownOk, HoldsOk, HistoryOk, AppliedOk, NotOlder, Down;
    var after := Do(st, step);
    if step.OpenStream? {
      OpenedDown(st);
    } else {
      SameDown(st, after);
    }
  }

  lemma SameDown(st: State, after: State)
    requires after.queue == st.queue && after.live == st.live && after.wires == st.wires
    requires after.streams == st.streams && after.holds == st.holds
    ensures Down(after) == Down(st)
  {
  }

  /** The loop of a stream just opened has nothing to see yet. */
  lemma OpenedDown(st: State)
    requires Structure(st)
    ensures var after := st.(streams := st.streams + 1, online := true);
            && Down(after) == []
            && DownOk(after.accepted, after.sent, [], after.applied)
            && StaleOk(after.accepted, [], after.holds, after.streams)
  {
    hide IdsOk, ReadsOk, QueueOk, HoldsOk, HistoryOk, AppliedOk;
  }

  /** Receiving moves the head of the wire into the hand of the current loop. */
  lemma ReceiveKeepsDown(st: State)
    requires CanReceive(st) && AgentCommandId(st.wires[st.streams - 1][0]) != ""
    ensures Down(ReceiveStep(st)) == Down(st)
  {
    var wire := st.wires[st.streams - 1];
    assert wire == [wire[0]] + wire[1..];
  }

  lemma HeadIsDown(st: State)
    requires CanReceive(st)
    ensures st.wires[st.streams - 1][0] in Down(st)
  {
    var wire := st.wires[st.streams - 1];
    assert wire[0] in wire;
  }

  lemma ReceiveKeeps(st: State)
    requires Structure(st) && CanReceive(st)
    ensures Structure(ReceiveStep(st))
  {
    hide Q.Coherent, C.Produced, IdsOk, ReadsOk, Ascending, NotOlder, Down;
    var after := ReceiveStep(st);
    var c := st.streams - 1;
    var m := st.wires[c][0];
    HeadIsDown(st);
    RankOfId(st, m);
    ReceiveKeepsDown(st);
    assert st.history + [] == st.history;
    SetHold(st.accepted, st.sent, st.holds, st.history, [], Down(st), st.streams, c, Hold(m, Received));
  }

  /** Commands in the system carry a real id, the same one for master and agent. */
  lemma RankOfId(st: State, m: Msg)
    requires Structure(st) && Genuine(st.accepted, st.sent, m)
    ensures AgentCommandId(m) == CommandId(m) != ""
    ensures CommandId(m) in st.sent || Rank(st.accepted, CommandId(m)) < |st.accepted|
  {
    if m.SetRegistries? {
      RankFinds(st.accepted, m.regId);
    }
  }

  lemma AdmitKeeps(st: State, l: nat)
    requires Structure(st) && l in st.holds && st.holds[l].phase == Received
    ensures Structure(AdmitStep(st, l))
  {
    hide Q.Coherent, C.Produced, IdsOk, ReadsOk, Ascending, NotOlder;
    var after := AdmitStep(st, l);
    var m := st.holds[l].msg;
    RankOfId(st, m);
    assert Down(after) == Down(st);
    if C.Accepts(st.history, WINDOW, CommandId(m)) {
      C.ProducedGrows(st.history, WINDOW, CommandId(m));
      SetHold(st.accepted, st.sent, st.holds, st.history, [CommandId(m)], Down(st), st.streams, l, Hold(m, Admitted));
    } else {
      C.RecallsOnlyHistory(st.history, WINDOW, CommandId(m));
      assert st.history + [] == st.history;
      SetHold(st.accepted, st.sent, st.holds, st.history, [], Down(st), st.streams, l, Hold(m, Handled));
    }
  }

  lemma ExecuteKeeps(st: State, l: nat)
    requires Structure(st) && l in st.holds && st.holds[l].phase == Admitted
    ensures Structure(ExecuteStep(st, l))
  {
    hide Q.Coherent, C.Produced, IdsOk, ReadsOk, Ascending, NotOlder;
    var after := ExecuteStep(st, l);
    var m := st.holds[l].msg;
    assert Down(after) == Down(st);
    assert st.history + [] == st.history;
    SetHold(st.accepted, st.sent, st.holds, st.history, [], Down(st), st.streams, l, Hold(m, Handled));
    if m.SetRegistries? && l + 1 == st.streams {
      HeadIsOldest(st.accepted, Down(st), m);
    }
  }

  lemma HeadIsOldest(accepted: seq<Snapshot>, down: seq<Msg>, m: Msg)
    requires Ascending(accepted, down) && down != [] && down[0] == m && m.SetRegistries?
    ensures NotOlder(accepted, down, Rank(accepted, m.regId))
  {
    forall x | x in down && x.SetRegistries? ensures Rank(accepted, m.regId) <= Rank(accepted, x.regId) {
      var j :| 0 <= j < |down| && down[j] == x;
    }
  }

  lemma FinishKeeps(st: State, l: nat)
    requires Structure(st) && l in st.holds && st.holds[l].phase == Handled
    ensures Structure(FinishStep(st, l))
  {
    hide Q.Coherent, C.Produced, IdsOk, ReadsOk, Ascending, NotOlder;
    var after := FinishStep(st, l);
    RankOfId(st, st.holds[l].msg);
    var k := if l + 1 == st.streams then 1 else 0;
    assert Down(after) == Down(st)[k..];
    SliceKeepsDown(st.accepted, st.sent, Down(st), st.applied, st.holds, st.streams, Down(after), k);
    DropHold(st.accepted, st.sent, st.holds, st.history, Down(after), st.streams, l);
  }

  lemma RestartKeeps(st: State)
    requires Structure(st)
    ensures Structure(RestartStep(st))
  {
    var after := RestartStep(st);
    var k := if st.streams - 1 in st.holds then 1 else 0;
    assert Down(after) == Down(st)[k..];
    SliceKeepsDown(st.accepted, st.sent, Down(st), st.applied, st.holds, st.streams, Down(after), k);
  }

  lemma StepKeepsStructure(st: State, step: Step)
    requires Structure(st) && CanDo(st, step)
    ensures Structure(Do(st, step))
  {
    match step
    case SendWork(id, kind, payload) => SendWorkKeeps(st, id, kind, payload);
    case EditTable(_) => SmallStepsKeep(st, step);
    case LockAndRead => SmallStepsKeep(st, step);
    case Broadcast(id) => BroadcastKeeps(st, id);
    case Unlock => SmallStepsKeep(st, step);
    case Attach(stream, id, readOk, trusted, n) => AttachKeeps(st, stream, id, readOk, trusted, n);
    case Detach(n) => DetachKeeps(st, n);
    case Write => WriteKeeps(st);
    case AckArrives(id) => AckKeeps(st, id);
    case OpenStream => SmallStepsKeep(st, step);
    case Disconnect => SmallStepsKeep(st, step);
    case Receive => ReceiveKeeps(st);
    case Admit(l) => AdmitKeeps(st, l);
    case Execute(l) => ExecuteKeeps(st, l);
    case Finish(l) => FinishKeeps(st, l);
    case Restart => RestartKeeps(st);
  }
}

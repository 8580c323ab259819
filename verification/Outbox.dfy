/**
 * The agent's outbox of events and reports: a bounded queue that survives
 * reconnects, drained by the session of the moment. Messages are told apart by
 * the order in which they were pushed, as the source tells them apart by
 * pointer.
 */
module Outbox {
  import opened Wrappers

  const OUTBOX_CAP: nat := 1024

  function Push(queue: seq<nat>, m: nat): seq<nat> {
    (if |queue| >= OUTBOX_CAP then queue[1..] else queue) + [m]
  }

  function Pop(queue: seq<nat>, m: nat): seq<nat> {
    if queue != [] && queue[0] == m then queue[1..] else queue
  }

  /** The queue holds the last messages pushed, in order and without gaps, and never too many. */
  ghost predicate Consecutive(queue: seq<nat>, pushed: nat) {
    && |queue| <= OUTBOX_CAP
    && |queue| <= pushed
    && forall i :: 0 <= i < |queue| ==> queue[i] == pushed - |queue| + i
  }

  // ---- pushes interleaved with drains ----

  /**
   * The drain loop holds the message it peeked while it writes to the stream;
   * pushes go on meanwhile and may drop that very message from the queue.
   */
  datatype State = State(
    queue: seq<nat>,
    pushed: nat,
    held: Option<nat>,                                 // peeked by the session, send outstanding
    sent: seq<nat>,                                    // messages a stream took, in order
    dropped: set<nat>)                                 // dropped as the oldest of a full queue

  const INIT := State([], 0, None, [], {})

  datatype Step =
    | DoPush
    | Peek                                             // the loop looks for the head
    | SendOk                                           // the stream takes it, then pop
    | SendFails                                        // the session ends, the message stays queued

  predicate CanDo(st: State, step: Step) {
    match step
    case DoPush => true
    case Peek => st.held == None && st.queue != []
    case SendOk => st.held.Some?
    case SendFails => st.held.Some?
  }

  function Do(st: State, step: Step): State
    requires CanDo(st, step)
  {
    match step
    case DoPush =>
      st.(queue := Push(st.queue, st.pushed), pushed := st.pushed + 1,
          dropped := if |st.queue| >= OUTBOX_CAP then st.dropped + {st.queue[0]} else st.dropped)
    case Peek => st.(held := Some(st.queue[0]))
    case SendOk => st.(queue := Pop(st.queue, st.held.value), held := None, sent := st.sent + [st.held.value])
    case SendFails => st.(held := None)
  }

  ghost predicate Ascending(s: seq<nat>) {
    forall i, j :: 0 <= i < j < |s| ==> s[i] < s[j]
  }

  /** The first message still in the queue, or the next one to be pushed. */
  function Front(st: State): nat {
    if st.queue == [] then st.pushed else st.queue[0]
  }

  ghost predicate Inv(st: State) {
    && Consecutive(st.queue, st.pushed)
    && Ascending(st.sent)
    && (forall m :: m in st.sent ==> m < Front(st) && m < st.pushed)
    && (st.held.Some? ==> st.held.value <= Front(st) && st.held.value < st.pushed && st.held.value !in st.sent
                          && (st.sent != [] ==> st.sent[|st.sent| - 1] < st.held.value))
    && (forall m :: m in st.dropped ==> m < Front(st))
    && (forall m :: 0 <= m < Front(st) ==> m in st.sent || m in st.dropped)
  }

  lemma StepKeeps(st: State, step: Step)
    requires Inv(st) && CanDo(st, step)
    ensures Inv(Do(st, step))
  {
    if step.SendOk? {
      SendOkKeeps(st);
    } else if step.DoPush? {
      PushKeeps(st);
    } else {
      assert st.sent != [] ==> st.sent[|st.sent| - 1] in st.sent;
    }
  }

  lemma PushKeeps(st: State)
    requires Inv(st)
    ensures Inv(Do(st, DoPush))
  {
  }

  /** What was sent last is the newest sent, and at the front or in front of it. */
  lemma SendOkKeeps(st: State)
    requires Inv(st) && st.held.Some?
    ensures Inv(Do(st, SendOk))
  {
    var b := Do(st, SendOk);
    assert st.sent != [] ==> st.sent[|st.sent| - 1] in st.sent;
    forall m | 0 <= m < Front(b) ensures m in b.sent || m in b.dropped {
      assert b.sent[|st.sent|] == st.held.value;
      assert m in st.sent ==> m in b.sent;
    }
  }

  ghost predicate IsRun(states: seq<State>, steps: seq<Step>) {
    && |states| == |steps| + 1 && states[0] == INIT
    && forall i :: 0 <= i < |steps| ==> CanDo(states[i], steps[i]) && states[i + 1] == Do(states[i], steps[i])
  }

  lemma {:induction false} RunKeeps(states: seq<State>, steps: seq<Step>, i: nat)
    requires IsRun(states, steps) && i <= |steps|
    ensures Inv(states[i])
  {
    hide Inv, Do;
    if i == 0 {
      InitIsOk();
    } else {
      RunKeeps(states, steps, i - 1);
      StepKeeps(states[i - 1], steps[i - 1]);
    }
  }

  lemma InitIsOk()
    ensures Inv(INIT)
  {
  }

  /**
   * Across all sessions: messages are sent in push order, none twice, and every
   * message pushed is still queued, was sent, or was dropped as the oldest.
   */
  lemma OrderAndAccounting(states: seq<State>, steps: seq<Step>, i: nat, m: nat)
    requires IsRun(states, steps) && i <= |steps| && m < states[i].pushed
    ensures Ascending(states[i].sent)
    ensures m in states[i].queue || m in states[i].sent || m in states[i].dropped
    ensures m in states[i].queue ==> m !in states[i].sent && m !in states[i].dropped
  {
    RunKeeps(states, steps, i);
    var st := states[i];
    if m >= Front(st) {
      assert st.queue[m - (st.pushed - |st.queue|)] == m;
    }
  }

  /** A send removes nothing but what was sent, even when the message it held was dropped meanwhile. */
  lemma PopRemovesOnlySent(states: seq<State>, steps: seq<Step>, i: nat, m: nat)
    requires IsRun(states, steps) && i < |steps| && m in states[i].queue && m !in states[i + 1].queue
    ensures match steps[i]
            case SendOk => states[i].held == Some(m) && m in states[i + 1].sent
            case DoPush => |states[i].queue| == 1024 && m == states[i].queue[0] && m in states[i + 1].dropped
            case _ => false
  {
    RunKeeps(states, steps, i);
    var st, b := states[i], states[i + 1];
    if steps[i].SendOk? {
      assert b.sent[|st.sent|] == st.held.value;
      assert st.queue == [st.queue[0]] + st.queue[1..];
    } else if steps[i].DoPush? {
      assert st.queue == [st.queue[0]] + st.queue[1..];
    }
  }

  // ---- the queue as an object ----

  /** The steps lead from a to b. */
  ghost predicate Leads(a: State, steps: seq<Step>, b: State)
    decreases |steps|
  {
    if steps == [] then b == a
    else
      var n := |steps| - 1;
      exists c :: Leads(a, steps[..n], c) && CanDo(c, steps[n]) && b == Do(c, steps[n])
  }

  lemma LeadsNowhere(a: State)
    ensures Leads(a, [], a)
  {
  }

  lemma LeadsOn(a: State, steps: seq<Step>, b: State, step: Step)
    requires Leads(a, steps, b) && CanDo(b, step)
    ensures Leads(a, steps + [step], Do(b, step))
  {
    assert (steps + [step])[..|steps|] == steps;
  }

  class Queue {
    var queue: seq<nat>
    var pushed: nat                                    // stands for the identity of the next message
    ghost var sent: seq<nat>
    ghost var dropped: set<nat>

    /** The state while the drain loop holds the message, or holds none. */
    ghost function View(held: Option<nat>): State
      reads this
    {
      State(queue, pushed, held, sent, dropped)
    }

    ghost predicate Valid(held: Option<nat>)
      reads this
    {
      Inv(View(held))
    }

    constructor ()
      ensures Valid(None) && View(None) == INIT
    {
      queue, pushed, sent, dropped := [], 0, [], {};
    }

    method PushMessage(ghost held: Option<nat>) returns (m: nat)
      requires Valid(held)
      modifies this
      ensures m == old(pushed) && Valid(held) && View(held) == Do(old(View(held)), DoPush)
      ensures pushed == m + 1 && sent == old(sent)
      ensures if |old(queue)| < 1024 then queue == old(queue) + [m] && dropped == old(dropped)
              else queue == old(queue)[1..] + [m] && dropped == old(dropped) + {old(queue)[0]}
    {
      StepKeeps(View(held), DoPush);
      m := pushed;
      if |queue| >= OUTBOX_CAP {
        dropped := dropped + {queue[0]};
        queue := queue[1..];
      }
      queue := queue + [m];
      pushed := pushed + 1;
    }

    method Peek() returns (m: Option<nat>)
      ensures m == if queue == [] then None else Some(queue[0])
    {
      m := if queue == [] then None else Some(queue[0]);
    }

    method PopMessage(m: nat)
      modifies this`queue
      ensures queue == Pop(old(queue), m)
      ensures if old(queue) != [] && old(queue)[0] == m then old(queue) == [m] + queue else queue == old(queue)
    {
      if queue != [] && queue[0] == m {
        queue := queue[1..];
      }
    }

    /** What is pushed while the stream takes a message, which may be dropped meanwhile. */
    method PushMeanwhile(m: nat, count: nat, ghost before: State, ghost path: seq<Step>) returns (ghost more: seq<Step>)
      requires Valid(Some(m)) && Leads(before, path, View(Some(m)))
      modifies this
      ensures Valid(Some(m)) && Leads(before, more, View(Some(m)))
      ensures sent == old(sent) && (count == 0 ==> queue == old(queue))
    {
      more := path;
      for k := 0 to count
        invariant Valid(Some(m)) && Leads(before, more, View(Some(m)))
        invariant sent == old(sent) && (k == 0 ==> queue == old(queue))
      {
        LeadsOn(before, more, View(Some(m)), DoPush);
        var _ := PushMessage(Some(m));
        more := more + [DoPush];
      }
    }

    /**
     * One session's drain. A message is sent successfully or not; while the i-th is being sent pushes[i] more
     * are pushed. The drain goes in steps, sends what goes through in the order of the queue, and ends on an
     * empty queue or at the first send that fails; with no push meanwhile it takes a prefix of the queue, and
     * the message that failed stays at the head.
     */
    method Drain(sends: nat -> bool, pushes: seq<nat>)
      returns (taken: seq<nat>, failed: Option<nat>, ghost path: seq<Step>)
      requires Valid(None)
      modifies this
      ensures Valid(None) && Leads(old(View(None)), path, View(None))
      ensures sent == old(sent) + taken && forall m :: m in taken ==> sends(m)
      ensures if failed.Some? then !sends(failed.value) else queue == []
      ensures pushes == [] ==> old(queue) == taken + queue && (failed.Some? ==> queue != [] && queue[0] == failed.value)
    {
      hide Inv, Do, CanDo, Leads, Pop;
      ghost var before := View(None);
      LeadsNowhere(before);
      taken, failed, path := [], None, [];
      var i := 0;
      while queue != []
        invariant Valid(None) && Leads(before, path, View(None))
        invariant sent == old(sent) + taken && forall m :: m in taken ==> sends(m)
        invariant pushes == [] ==> old(queue) == taken + queue
        decreases if i < |pushes| then |pushes| - i else 0, |queue|
      {
        var m := queue[0];
        Peeked(View(None));
        LeadsOn(before, path, View(None), Step.Peek);
        path := path + [Step.Peek];
        path := PushMeanwhile(m, if i < |pushes| then pushes[i] else 0, before, path);
        i := i + 1;
        Settled(View(Some(m)));
        if !sends(m) {
          LeadsOn(before, path, View(Some(m)), SendFails);
          path := path + [SendFails];
          failed := Some(m);
          return;                                      // stays queued for the next session
        }
        LeadsOn(before, path, View(Some(m)), SendOk);
        path := path + [SendOk];
        PopTakesHead(taken, queue, m);
        sent, taken := sent + [m], taken + [m];
        PopMessage(m);
      }
    }
  }

  lemma PopTakesHead(taken: seq<nat>, queue: seq<nat>, m: nat)
    ensures queue != [] && queue[0] == m ==> taken + queue == (taken + [m]) + Pop(queue, m)
    ensures |Pop(queue, m)| <= |queue| && (queue != [] && queue[0] == m ==> |Pop(queue, m)| < |queue|)
  {
  }

  lemma Peeked(st: State)
    requires Inv(st) && st.held == None && st.queue != []
    ensures CanDo(st, Peek) && Do(st, Peek) == st.(held := Some(st.queue[0])) && Inv(Do(st, Peek))
  {
    StepKeeps(st, Peek);
  }

  lemma Settled(st: State)
    requires Inv(st) && st.held.Some?
    ensures CanDo(st, SendFails) && Do(st, SendFails) == st.(held := None) && Inv(Do(st, SendFails))
    ensures CanDo(st, SendOk) && Inv(Do(st, SendOk))
    ensures Do(st, SendOk) ==
            st.(queue := Pop(st.queue, st.held.value), held := None, sent := st.sent + [st.held.value])
  {
    StepKeeps(st, SendFails);
    StepKeeps(st, SendOk);
  }
}

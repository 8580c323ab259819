/**
 * The master's Hub: one command queue and at most one live session per node,
 * updated in place. Every method is one critical section of the Hub's mutex.
 */
module Hub {
  import opened Wrappers
  import opened Messages
  import opened Q = CommandQueue

  class Session {
    const certAuth: bool
    const loopback: bool
    var out: seq<Msg>
    var closed: bool

    constructor (certAuth: bool, loopback: bool)
      ensures this.certAuth == certAuth && this.loopback == loopback
      ensures out == [] && !closed
    {
      this.certAuth, this.loopback := certAuth, loopback;
      out, closed := [], false;
    }

    predicate Trusted() {
      certAuth || loopback
    }

    method PushOut(m: Msg)
      modifies this`out
      ensures out == Push(old(out), m)
    {
      if |out| < OUT_CAP {
        out := out + [m];
      }
    }

    /** Closing a closed channel would panic, hence the precondition. */
    method Close()
      requires !closed
      modifies this`closed
      ensures closed
    {
      closed := true;
    }
  }

  class NodeQueue {
    var pending: seq<Msg>
    var sess: Session?

    constructor ()
      ensures pending == [] && sess == null
    {
      pending, sess := [], null;
    }

    ghost function View(): Queue
      reads this, sess
    {
      Queue(pending, if sess == null then None else Some(Link(sess.Trusted(), sess.out)))
    }

    method Enqueue(id: Id, m: Msg) returns (reply: Id)
      modifies this`pending, (if sess == null then {} else {sess})`out
      ensures View() == Q.Send(old(View()), id, m)
      ensures reply == SendReply(old(View()), id, m)
      ensures SentTo(old(View()), View(), id, m, reply)
    {
      hide SentTo;
      SendReachesSession(View(), id, m);
      IndexOfFinds(pending, id);
      var i := 0;
      while i < |pending|
        invariant 0 <= i <= |pending|
        invariant forall j :: 0 <= j < i ==> CommandId(pending[j]) != id
      {
        if CommandId(pending[i]) == id {
          assert i == IndexOf(pending, id);
          if sess != null {
            sess.PushOut(pending[i]);
          }
          return id;
        }
        i := i + 1;
      }
      var msg := Stamp(m, id);
      if msg.SetRegistries? {
        if sess == null || !sess.Trusted() {
          return "";
        }
        pending := WithoutRegistries(pending);
      }
      pending := pending + [msg];
      if sess != null {
        sess.PushOut(msg);
      }
      reply := id;
    }

    method Remove(id: Id)
      modifies this`pending
      ensures View() == Q.Ack(old(View()), id)
    {
      IndexOfFinds(pending, id);
      var i := 0;
      while i < |pending|
        invariant 0 <= i <= |pending|
        invariant forall j :: 0 <= j < i ==> CommandId(pending[j]) != id
      {
        if CommandId(pending[i]) == id {
          assert i == IndexOf(pending, id);
          pending := pending[..i] + pending[i + 1..];
          return;
        }
        i := i + 1;
      }
    }

    /**
     * Terminates the previous session, makes a new one current and replays into
     * it what is still pending.
     */
    method Adopt(preface: Option<Msg>, prefaceId: Id, certAuth: bool, loopback: bool) returns (s: Session)
      requires sess != null ==> !sess.closed
      modifies this, (if sess == null then {} else {sess})`closed
      ensures sess == s && fresh(s) && !s.closed && s.certAuth == certAuth && s.loopback == loopback
      ensures old(sess) != null ==> old(sess).closed
      ensures View() == Q.Attach(old(View()), preface, prefaceId, certAuth || loopback)
      ensures AttachedTo(old(View()), View(), preface, prefaceId, certAuth || loopback)
    {
      hide PushAll, RemoveSetRegistries, Push, AttachedTo;
      AttachReachesSession(View(), preface, prefaceId, certAuth || loopback);
      s := new Session(certAuth, loopback);
      if sess != null {
        sess.Close();
      }
      sess := s;
      if !s.Trusted() {
        var rest := WithoutRegistries(pending);
        RemoveSetRegistriesKeeps(pending);
        if |rest| != |pending| {
          pending := rest;
        }
      } else if preface.Some? {
        var rest := WithoutRegistries(pending);
        pending := [Stamp(preface.value, prefaceId)] + rest;
      }
      var i := 0;
      assert pending[0..] == pending;
      while i < |pending|
        invariant 0 <= i <= |pending|
        invariant PushAll(s.out, pending[i..]) == PushAll([], pending)
        invariant fresh(s) && !s.closed
        modifies s`out
      {
        PushAllNext(s.out, pending, i);
        s.PushOut(pending[i]);
        i := i + 1;
      }
      assert pending[i..] == [];
      PushAllNothing(s.out);
    }
  }

  lemma PushAllNext(out: seq<Msg>, ms: seq<Msg>, i: nat)
    requires i < |ms|
    ensures PushAll(out, ms[i..]) == PushAll(Push(out, ms[i]), ms[i + 1..])
  {
    assert ms[i..][0] == ms[i] && ms[i..][1..] == ms[i + 1..];
  }

  lemma PushAllNothing(out: seq<Msg>)
    ensures PushAll(out, []) == out
  {
  }

  class Hub {
    var queues: map<NodeId, NodeQueue>

    constructor ()
      ensures Valid() && queues == map[]
    {
      queues := map[];
    }

    ghost predicate Valid()
      reads this, queues.Values, set n | n in queues :: queues[n].sess
    {
      && (forall a, b :: a in queues && b in queues && a != b ==>
            queues[a] != queues[b] && (queues[a].sess != null ==> queues[a].sess != queues[b].sess))
      && (forall n :: n in queues && queues[n].sess != null ==> !queues[n].sess.closed)
    }

    ghost function View(n: NodeId): Queue
      reads this, queues.Values, set k | k in queues :: queues[k].sess
    {
      if n in queues then queues[n].View() else EMPTY_QUEUE
    }

    ghost function Live(n: NodeId): Session?
      reads this, queues.Values
    {
      if n in queues then queues[n].sess else null
    }

    ghost function Owned(n: NodeId): set<object?>
      reads this, queues.Values
    {
      if n in queues then {queues[n], queues[n].sess} else {}
    }

    ghost function Objects(): set<object?>
      reads this, queues.Values
    {
      (set k | k in queues :: queues[k] as object?) + (set k | k in queues :: queues[k].sess as object?)
    }

    method QueueOf(n: NodeId) returns (q: NodeQueue)
      requires Valid()
      modifies this`queues
      ensures Valid() && n in queues && q == queues[n]
      ensures queues.Keys == old(queues.Keys) + {n}
      ensures forall k :: k in old(queues) ==> queues[k] == old(queues[k])
      ensures n !in old(queues) ==> fresh(q) && q.sess == null
      ensures forall k :: View(k) == old(View(k)) && Live(k) == old(Live(k))
    {
      if n !in queues {
        q := new NodeQueue();
        queues := queues[n := q];
      } else {
        q := queues[n];
      }
    }

    method Send(n: NodeId, id: Id, m: Msg) returns (reply: Id)
      requires Valid()
      modifies this`queues, Owned(n)
      ensures Valid()
      ensures View(n) == Q.Send(old(View(n)), id, m)
      ensures reply == SendReply(old(View(n)), id, m)
      ensures SentTo(old(View(n)), View(n), id, m, reply)
      ensures Live(n) == old(Live(n))
      ensures queues.Keys == old(queues.Keys) + {n}
      ensures forall k :: k in old(queues) ==> queues[k] == old(queues[k])
      ensures forall k :: k != n ==> View(k) == old(View(k)) && Live(k) == old(Live(k))
    {
      hide SentTo, Q.Send, SendReply;
      var q := QueueOf(n);
      reply := q.Enqueue(id, m);
    }

    method Ack(n: NodeId, id: Id)
      requires Valid()
      modifies Owned(n)
      ensures Valid()
      ensures View(n) == Q.Ack(old(View(n)), id)
      ensures Live(n) == old(Live(n))
      ensures forall k :: k != n ==> View(k) == old(View(k)) && Live(k) == old(Live(k))
    {
      if n in queues {
        queues[n].Remove(id);
      }
    }

    /** Swaps in a new session, terminates the previous one once, replays pending. */
    method Attach(n: NodeId, preface: Option<Msg>, prefaceId: Id, certAuth: bool, loopback: bool) returns (s: Session)
      requires Valid()
      modifies this`queues, Owned(n)
      ensures Valid() && fresh(s) && Live(n) == s && !s.closed
      ensures s.certAuth == certAuth && s.loopback == loopback
      ensures View(n) == Q.Attach(old(View(n)), preface, prefaceId, certAuth || loopback)
      ensures AttachedTo(old(View(n)), View(n), preface, prefaceId, certAuth || loopback)
      ensures old(Live(n)) != null ==> old(Live(n)).closed && old(Live(n)).out == old(Live(n).out)
      ensures queues.Keys == old(queues.Keys) + {n}
      ensures forall k :: k != n ==> View(k) == old(View(k)) && Live(k) == old(Live(k))
    {
      hide AttachedTo;
      var q := QueueOf(n);
      s := q.Adopt(preface, prefaceId, certAuth, loopback);
    }

    /** A session that is no longer the current one detaches without effect. */
    method Detach(n: NodeId, s: Session)
      requires Valid()
      modifies Owned(n)
      ensures Valid()
      ensures View(n) == if old(Live(n)) == s then Q.Detach(old(View(n))) else old(View(n))
      ensures Live(n) == if old(Live(n)) == s then null else old(Live(n))
      ensures s.closed == old(s.closed)
      ensures forall k :: k != n ==> View(k) == old(View(k)) && Live(k) == old(Live(k))
    {
      if n in queues && queues[n].sess == s {
        queues[n].sess := null;
      }
    }

    /** Each node with a live session once, in the order of the map. */
    method ConnectedNodes() returns (nodes: seq<NodeId>)
      requires Valid()
      ensures forall n :: n in nodes <==> Live(n) != null
      ensures forall i, j :: 0 <= i < j < |nodes| ==> nodes[i] != nodes[j]
    {
      nodes := [];
      var left := queues.Keys;
      while left != {}
        invariant left <= queues.Keys
        invariant forall n :: n in nodes <==> n in queues && n !in left && queues[n].sess != null
        invariant forall i, j :: 0 <= i < j < |nodes| ==> nodes[i] != nodes[j]
        decreases left
      {
        var n :| n in left;
        left := left - {n};
        if queues[n].sess != null {
          nodes := nodes + [n];
        }
      }
    }
  }

  method WithoutRegistries(pending: seq<Msg>) returns (out: seq<Msg>)
    ensures out == RemoveSetRegistries(pending)
  {
    out := [];
    var i := 0;
    while i < |pending|
      invariant 0 <= i <= |pending|
      invariant out + RemoveSetRegistries(pending[i..]) == RemoveSetRegistries(pending)
    {
      assert pending[i..][0] == pending[i] && pending[i..][1..] == pending[i + 1..];
      if !pending[i].SetRegistries? {
        out := out + [pending[i]];
      }
      i := i + 1;
    }
  }
}

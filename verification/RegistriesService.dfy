/**
 * The two places that read the registries table and hand the snapshot to the
 * Hub. Each method body is one regMu critical section: the read result comes in
 * as a parameter (None for a failed query) and is enqueued before the section
 * ends. Every stamped id is a fresh uuid, passed in.
 */
module RegistriesService {
  import opened Wrappers
  import opened Messages
  import Q = CommandQueue
  import H = Hub

  function Snapshot(read: Option<seq<Cred>>): Option<Msg> {
    if read.Some? then Some(SetRegistries("", read.value)) else None
  }

  /** An untrusted session gets no preface: the credentials are not even read for it. */
  function Preface(read: Option<seq<Cred>>, trusted: bool): Option<Msg> {
    if trusted then Snapshot(read) else None
  }

  class Service {
    const hub: H.Hub

    constructor (hub: H.Hub)
      ensures this.hub == hub
    {
      this.hub := hub;
    }

    method AttachWithFreshRegistries(n: NodeId, read: Option<seq<Cred>>, prefaceId: Id,
                                     certAuth: bool, loopback: bool) returns (s: H.Session)
      requires hub.Valid()
      modifies hub`queues, hub.Owned(n)
      ensures hub.Valid() && hub.Live(n) == s
      ensures var trusted := certAuth || loopback;
              && hub.View(n) == Q.Attach(old(hub.View(n)), Preface(read, trusted), prefaceId, trusted)
              && Q.AttachedTo(old(hub.View(n)), hub.View(n),
                              if trusted && read.Some? then Some(SetRegistries("", read.value)) else None,
                              prefaceId, trusted)
      ensures forall k :: k != n ==> hub.View(k) == old(hub.View(k))
    {
      if !certAuth && !loopback {
        s := hub.Attach(n, None, prefaceId, certAuth, loopback);
      } else {
        s := hub.Attach(n, Snapshot(read), prefaceId, certAuth, loopback);
      }
    }

    /**
     * One fresh copy, with its own id, to every node that has a live session.
     * The contract speaks of an arbitrary node n, which the code never looks at.
     */
    method BroadcastRegistries(read: Option<seq<Cred>>, ids: map<NodeId, Id>, ghost n: NodeId)
      requires hub.Valid()
      requires forall k :: k in hub.queues && hub.queues[k].sess != null ==> k in ids
      modifies hub`queues, hub.Objects()
      ensures hub.Valid() && hub.Live(n) == old(hub.Live(n))
      ensures hub.View(n) ==
                if read.Some? && old(hub.Live(n)) != null
                then Q.Send(old(hub.View(n)), ids[n], SetRegistries("", read.value))
                else old(hub.View(n))
      ensures read.Some? && old(hub.Live(n)) != null ==>
                var before, m := old(hub.View(n)), SetRegistries("", read.value);
                Q.SentTo(before, hub.View(n), ids[n], m, Q.SendReply(before, ids[n], m))
      ensures read.None? || old(hub.Live(n)) == null ==> hub.View(n) == old(hub.View(n))
    {
      hide Q.Send, Q.SentTo, Q.SendReply;
      if read.None? {
        return;
      }
      ghost var m := SetRegistries("", read.value);
      ghost var id := if n in ids then ids[n] else "";
      ghost var before := hub.View(n);
      assert Q.SentTo(before, Q.Send(before, id, m), id, m, Q.SendReply(before, id, m)) by {
        Q.SendReachesSession(before, id, m);
      }
      var nodes := hub.ConnectedNodes();
      assert n in nodes <==> old(hub.Live(n)) != null;
      for i := 0 to |nodes|
        invariant hub.Valid() && hub.queues == old(hub.queues)
        invariant forall j :: j in hub.queues ==> hub.queues[j].sess == old(hub.queues[j].sess)
        invariant forall k :: k in nodes ==> k in ids && k in hub.queues
        invariant hub.View(n) ==
                    if n in nodes[..i]
                    then Q.Send(old(hub.View(n)), ids[n], SetRegistries("", read.value))
                    else old(hub.View(n))
      {
        SendSnapshot(nodes[i], ids[nodes[i]], read.value, n);
        assert nodes[..i + 1] == nodes[..i] + [nodes[i]];
      }
      assert nodes[..|nodes|] == nodes;
      assert n in nodes ==> hub.View(n) == Q.Send(before, id, m);
    }

    method SendSnapshot(k: NodeId, id: Id, creds: seq<Cred>, ghost n: NodeId)
      requires hub.Valid() && k in hub.queues
      modifies hub`queues, hub.Owned(k)
      ensures hub.Valid() && hub.queues == old(hub.queues)
      ensures forall j :: j in hub.queues ==> hub.queues[j].sess == old(hub.queues[j].sess)
      ensures hub.Live(n) == old(hub.Live(n))
      ensures hub.View(n) == if k == n then Q.Send(old(hub.View(n)), id, SetRegistries("", creds)) else old(hub.View(n))
    {
      var _ := hub.Send(k, id, SetRegistries("", creds));
    }
  }
}

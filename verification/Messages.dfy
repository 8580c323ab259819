/**
 * The master-to-agent messages of the AgentLink stream, reduced to what the
 * delivery protocol looks at: which command the oneof carries and its cmd_id.
 */
module Messages {
  type Id = string
  type NodeId = string

  datatype Cred = Cred(host: string, username: string, token: string)

  datatype Kind =
    Start | Stop | PrePull | Drain | Undrain | Upgrade | TailLogs | Allocate | DrainServer | RemoveImage

  datatype Msg =
    | Empty                                            // no command set in the oneof
    | MasterAck(ackId: Id)
    | SetRegistries(regId: Id, creds: seq<Cred>)
    | Command(kind: Kind, cmdId: Id, payload: string)

  /** The master's commandID: every command kind and the master's own ack carry one. */
  function CommandId(m: Msg): Id {
    match m
    case Empty => ""
    case MasterAck(id) => id
    case SetRegistries(id, _) => id
    case Command(_, id, _) => id
  }

  /** The agent's commandID ignores the master's ack. */
  function AgentCommandId(m: Msg): Id {
    if m.MasterAck? then "" else CommandId(m)
  }

  function Stamp(m: Msg, id: Id): Msg {
    match m
    case Empty => Empty
    case MasterAck(_) => MasterAck(id)
    case SetRegistries(_, creds) => SetRegistries(id, creds)
    case Command(kind, _, payload) => Command(kind, id, payload)
  }

  function RemoveSetRegistries(pending: seq<Msg>): seq<Msg> {
    if pending == [] then []
    else if pending[0].SetRegistries? then RemoveSetRegistries(pending[1..])
    else [pending[0]] + RemoveSetRegistries(pending[1..])
  }

  ghost predicate HoldsNoRegistries(ms: seq<Msg>) {
    forall m :: m in ms ==> !m.SetRegistries?
  }

  ghost predicate AtMostOneRegistries(ms: seq<Msg>) {
    forall i, j :: 0 <= i < j < |ms| ==> !(ms[i].SetRegistries? && ms[j].SetRegistries?)
  }

  /** Commands are told apart by their ids; the id-less Empty message is exempt. */
  ghost predicate DistinctIds(ms: seq<Msg>) {
    forall i, j :: 0 <= i < j < |ms| && ms[i] != Empty && ms[j] != Empty ==> CommandId(ms[i]) != CommandId(ms[j])
  }

  /** Coalescing drops exactly the snapshots and keeps everything else, in order. */
  lemma {:induction false} RemoveSetRegistriesKeeps(p: seq<Msg>)
    ensures HoldsNoRegistries(RemoveSetRegistries(p))
    ensures forall m :: m in RemoveSetRegistries(p) <==> m in p && !m.SetRegistries?
    ensures HoldsNoRegistries(p) ==> RemoveSetRegistries(p) == p
    ensures |RemoveSetRegistries(p)| == |p| ==> HoldsNoRegistries(p)
    ensures |RemoveSetRegistries(p)| <= |p|
  {
    if p != [] {
      RemoveSetRegistriesKeeps(p[1..]);
      assert p == [p[0]] + p[1..];
      assert forall m :: m in p <==> m == p[0] || m in p[1..];
    }
  }

  /** Order is kept: what is left of a part stays where the part was. */
  lemma {:induction false} RemoveDistributes(a: seq<Msg>, b: seq<Msg>)
    ensures RemoveSetRegistries(a + b) == RemoveSetRegistries(a) + RemoveSetRegistries(b)
  {
    if a == [] {
      assert a + b == b;
    } else {
      assert (a + b)[0] == a[0] && (a + b)[1..] == a[1..] + b;
      RemoveDistributes(a[1..], b);
    }
  }

  lemma FirstIsDistinct(p: seq<Msg>, m: Msg)
    requires p != [] && DistinctIds(p) && m in p[1..] && m != Empty && p[0] != Empty
    ensures CommandId(m) != CommandId(p[0])
  {
    var k :| 0 <= k < |p[1..]| && p[1..][k] == m;
    assert p[k + 1] == m;
  }

  lemma {:induction false} RemoveKeepsDistinct(p: seq<Msg>)
    requires DistinctIds(p)
    ensures DistinctIds(RemoveSetRegistries(p))
  {
    if p != [] {
      assert forall i :: 0 <= i < |p[1..]| ==> p[1..][i] == p[i + 1];
      RemoveKeepsDistinct(p[1..]);
      RemoveSetRegistriesKeeps(p[1..]);
      if !p[0].SetRegistries? {
        var r := RemoveSetRegistries(p[1..]);
        forall j | 0 <= j < |r| && p[0] != Empty && r[j] != Empty
          ensures CommandId(r[j]) != CommandId(p[0])
        {
          FirstIsDistinct(p, r[j]);
        }
        assert RemoveSetRegistries(p) == [p[0]] + r;
      }
    }
  }
}

/**
 * What one critical section of the Hub does to one node's command queue, and
 * what every run of such sections keeps true of it.
 */
module CommandQueue {
  import opened Wrappers
  import opened Messages

  /** Capacity of a session's outgoing channel. */
  const OUT_CAP: nat := 256

  datatype Link = Link(trusted: bool, out: seq<Msg>)

  datatype Queue = Queue(pending: seq<Msg>, link: Option<Link>)

  const EMPTY_QUEUE := Queue([], None)

  /** A push never blocks: a full channel drops the message. */
  function Push(out: seq<Msg>, m: Msg): seq<Msg> {
    if |out| < OUT_CAP then out + [m] else out
  }

  function PushAll(out: seq<Msg>, ms: seq<Msg>): seq<Msg>
    decreases |ms|
  {
    if ms == [] then out else PushAll(Push(out, ms[0]), ms[1..])
  }

  /** Position of the oldest pending command with this id, |pending| if there is none. */
  function IndexOf(pending: seq<Msg>, id: Id): nat {
    if pending == [] || CommandId(pending[0]) == id then 0 else 1 + IndexOf(pending[1..], id)
  }

  function Deliver(q: Queue, m: Msg): Queue {
    if q.link.Some? then q.(link := Some(q.link.value.(out := Push(q.link.value.out, m)))) else q
  }

  predicate Withheld(q: Queue, m: Msg) {
    m.SetRegistries? && !(q.link.Some? && q.link.value.trusted)
  }

  function Send(q: Queue, id: Id, m: Msg): Queue {
    var k := IndexOf(q.pending, id);
    var msg := Stamp(m, id);
    if k < |q.pending| then Deliver(q, q.pending[k])
    else if Withheld(q, m) then q
    else
      var kept := if m.SetRegistries? then RemoveSetRegistries(q.pending) else q.pending;
      Deliver(q.(pending := kept + [msg]), msg)
  }

  function SendReply(q: Queue, id: Id, m: Msg): Id {
    if IndexOf(q.pending, id) == |q.pending| && Withheld(q, m) then "" else id
  }

  function Ack(q: Queue, id: Id): Queue {
    var k := IndexOf(q.pending, id);
    if k < |q.pending| then q.(pending := q.pending[..k] + q.pending[k + 1..]) else q
  }

  function Attach(q: Queue, preface: Option<Msg>, prefaceId: Id, trusted: bool): Queue {
    var kept := if trusted then q.pending else RemoveSetRegistries(q.pending);
    var pending :=
      if trusted && preface.Some? then [Stamp(preface.value, prefaceId)] + RemoveSetRegistries(kept) else kept;
    Queue(pending, Some(Link(trusted, PushAll([], pending))))
  }

  function Detach(q: Queue): Queue {
    q.(link := None)
  }

  /** What every critical section keeps true of a node's queue. */
  ghost predicate Coherent(q: Queue) {
    && AtMostOneRegistries(q.pending)
    && DistinctIds(q.pending)
    && (q.link.Some? ==> |q.link.value.out| <= OUT_CAP)
    && (q.link.Some? && !q.link.value.trusted ==>
          HoldsNoRegistries(q.pending) && HoldsNoRegistries(q.link.value.out))
  }

  // ---- what the queue functions mean ----

  lemma {:induction false} IndexOfFinds(pending: seq<Msg>, id: Id)
    ensures IndexOf(pending, id) <= |pending|
    ensures IndexOf(pending, id) < |pending| ==> CommandId(pending[IndexOf(pending, id)]) == id
    ensures forall i :: 0 <= i < IndexOf(pending, id) ==> CommandId(pending[i]) != id
    ensures IndexOf(pending, id) < |pending| <==> exists m :: m in pending && CommandId(m) == id
  {
    if pending != [] && CommandId(pending[0]) != id {
      IndexOfFinds(pending[1..], id);
      forall i | 0 <= i < IndexOf(pending, id) ensures CommandId(pending[i]) != id {
        assert i > 0 ==> pending[i] == pending[1..][i - 1];
      }
    }
  }

  lemma {:induction false} PushAllTakesPrefix(out: seq<Msg>, ms: seq<Msg>)
    requires |out| <= OUT_CAP
    ensures PushAll(out, ms) == if |out| + |ms| <= OUT_CAP then out + ms else out + ms[..OUT_CAP - |out|]
    decreases |ms|
  {
    if ms == [] {
      assert out + ms == out;
    } else {
      PushAllTakesPrefix(Push(out, ms[0]), ms[1..]);
      assert ms == [ms[0]] + ms[1..];
      if |out| < OUT_CAP {
        assert out + [ms[0]] + ms[1..] == out + ms;
      }
    }
  }

  lemma {:induction false} SendKeepsCoherent(q: Queue, id: Id, m: Msg)
    requires Coherent(q)
    ensures Coherent(Send(q, id, m))
  {
    hide IndexOf, RemoveSetRegistries, DistinctIds, AtMostOneRegistries;
    IndexOfFinds(q.pending, id);
    RemoveSetRegistriesKeeps(q.pending);
    RemoveKeepsDistinct(q.pending);
    if IndexOf(q.pending, id) == |q.pending| && !Withheld(q, m) {
      var kept := if m.SetRegistries? then RemoveSetRegistries(q.pending) else q.pending;
      OneRegistriesMore(kept, Stamp(m, id));
      NewIdStaysDistinct(kept, Stamp(m, id));
    }
  }

  lemma OneRegistriesMore(kept: seq<Msg>, m: Msg)
    requires if m.SetRegistries? then HoldsNoRegistries(kept) else AtMostOneRegistries(kept)
    ensures AtMostOneRegistries(kept + [m])
  {
    assert forall i :: 0 <= i < |kept| ==> (kept + [m])[i] == kept[i];
  }

  lemma NewIdStaysDistinct(kept: seq<Msg>, m: Msg)
    requires DistinctIds(kept) && (m != Empty ==> forall w :: w in kept ==> CommandId(w) != CommandId(m))
    ensures DistinctIds(kept + [m])
  {
    assert forall i :: 0 <= i < |kept| ==> (kept + [m])[i] == kept[i] && kept[i] in kept;
  }

  lemma {:induction false} AckKeepsCoherent(q: Queue, id: Id)
    requires Coherent(q)
    ensures Coherent(Ack(q, id))
  {
    var k := IndexOf(q.pending, id);
    IndexOfFinds(q.pending, id);
    if k < |q.pending| {
      var p := Ack(q, id).pending;
      assert forall i :: 0 <= i < |p| ==> p[i] == q.pending[if i < k then i else i + 1];
    }
  }

  lemma ReplayIsPrefix(ms: seq<Msg>)
    ensures PushAll([], ms) == if |ms| <= OUT_CAP then ms else ms[..OUT_CAP]
  {
    PushAllTakesPrefix([], ms);
    assert [] + ms == ms;
    assert |ms| > OUT_CAP ==> [] + ms[..OUT_CAP - 0] == ms[..OUT_CAP];
  }

  lemma {:induction false} PrefaceKeepsCoherent(kept: seq<Msg>, preface: Msg)
    requires HoldsNoRegistries(kept) && DistinctIds(kept)
    requires forall m :: m in kept ==> CommandId(m) != CommandId(preface)
    ensures AtMostOneRegistries([preface] + kept) && DistinctIds([preface] + kept)
  {
    var p := [preface] + kept;
    assert forall i :: 0 < i < |p| ==> p[i] == kept[i - 1] && p[i] in kept;
  }

  lemma {:induction false} AttachKeepsCoherent(q: Queue, preface: Option<Msg>, prefaceId: Id, trusted: bool)
    requires Coherent(q)
    requires forall m :: m in q.pending ==> CommandId(m) != prefaceId   // a fresh uuid
    ensures Coherent(Attach(q, preface, prefaceId, trusted))
  {
    var after := Attach(q, preface, prefaceId, trusted);
    var kept := RemoveSetRegistries(q.pending);
    RemoveSetRegistriesKeeps(q.pending);
    RemoveKeepsDistinct(q.pending);
    ReplayIsPrefix(after.pending);
    if trusted && preface.Some? && preface.value != Empty {
      PrefaceKeepsCoherent(kept, Stamp(preface.value, prefaceId));
    } else if trusted && preface.Some? {
      assert forall i :: 0 < i < |after.pending| ==> after.pending[i] == kept[i - 1];
    }
  }

  /** A run of critical sections on one node's queue, starting with no command and no session. */
  datatype Section =
    | DoSend(id: Id, msg: Msg)
    | DoAck(id: Id)
    | DoAttach(preface: Option<Msg>, prefaceId: Id, trusted: bool)
    | DoDetach
    | DoWrite                                          // the session's writer takes the head of its channel

  function Do(q: Queue, s: Section): Queue {
    match s
    case DoSend(id, msg) => Send(q, id, msg)
    case DoAck(id) => Ack(q, id)
    case DoAttach(preface, prefaceId, trusted) => Attach(q, preface, prefaceId, trusted)
    case DoDetach => Detach(q)
    case DoWrite =>
      if q.link.Some? && q.link.value.out != [] then
        q.(link := Some(q.link.value.(out := q.link.value.out[1..])))
      else q
  }

  function Run(sections: seq<Section>): Queue {
    if sections == [] then EMPTY_QUEUE else Do(Run(sections[..|sections| - 1]), sections[|sections| - 1])
  }

  /** The id stamped on an attach preface is a fresh uuid: nothing pending carries it. */
  ghost predicate FreshPrefaces(sections: seq<Section>) {
    forall i :: 0 <= i < |sections| && sections[i].DoAttach? ==>
      forall m :: m in Run(sections[..i]).pending ==> CommandId(m) != sections[i].prefaceId
  }

  /** In every run: one snapshot at most, no id twice, nothing secret on an untrusted link. */
  lemma {:induction false} EveryRunIsCoherent(sections: seq<Section>)
    requires FreshPrefaces(sections)
    ensures Coherent(Run(sections))
    decreases |sections|
  {
    if sections != [] {
      var n := |sections| - 1;
      var before := sections[..n];
      forall i | 0 <= i < n ensures before[..i] == sections[..i] && before[i] == sections[i] {
      }
      EveryRunIsCoherent(before);
      var q := Run(before);
      match sections[n]
      case DoSend(id, msg) => SendKeepsCoherent(q, id, msg);
      case DoAck(id) => AckKeepsCoherent(q, id);
      case DoAttach(preface, prefaceId, trusted) => AttachKeepsCoherent(q, preface, prefaceId, trusted);
      case DoDetach =>
      case DoWrite =>
    }
  }

  /** Sending never drops another command, and a command it accepts is pending afterwards. */
  lemma {:induction false} SendOnlyReplacesRegistries(q: Queue, id: Id, m: Msg)
    ensures forall w :: w in q.pending && !w.SetRegistries? ==> w in Send(q, id, m).pending
    ensures forall w :: w in Send(q, id, m).pending ==> w in q.pending || w == Stamp(m, id)
    ensures SendReply(q, id, m) == "" || m == Empty || id in Ids(Send(q, id, m).pending)
  {
    IndexOfFinds(q.pending, id);
    RemoveSetRegistriesKeeps(q.pending);
    var k := IndexOf(q.pending, id);
    var after := Send(q, id, m).pending;
    if k < |q.pending| {
      assert q.pending[k] in after;
    } else if !Withheld(q, m) {
      assert Stamp(m, id) in after;
    }
  }

  // ---- what a send does, said of the queue before and after ----

  /** msg is the command m under this id, with the content it was given. */
  ghost predicate Carries(msg: Msg, m: Msg, id: Id) {
    match m
    case Empty => msg == Empty
    case MasterAck(_) => msg == MasterAck(id)
    case SetRegistries(_, creds) => msg == SetRegistries(id, creds)
    case Command(kind, _, payload) => msg == Command(kind, id, payload)
  }

  /** Of two views of one link: the message was pushed behind all others, or the 256 places were taken. */
  ghost predicate WasPushed(before: Option<Link>, after: Option<Link>, msg: Msg) {
    match before
    case None => after == None
    case Some(l) =>
      && after.Some? && after.value.trusted == l.trusted
      && (|l.out| < 256 ==> after.value.out == l.out + [msg])
      && (|l.out| >= 256 ==> after.value.out == l.out)
  }

  /** A command pending already is pushed again and stays where it is. */
  ghost predicate Repeated(before: Queue, after: Queue, id: Id) {
    && after.pending == before.pending
    && exists i :: 0 <= i < |before.pending| && CommandId(before.pending[i]) == id
         && (forall j :: 0 <= j < i ==> CommandId(before.pending[j]) != id)
         && WasPushed(before.link, after.link, before.pending[i])
  }

  /** A new one goes to the end of pending, a snapshot in place of any other, and is pushed. */
  ghost predicate Queued(before: Queue, after: Queue, id: Id, m: Msg) {
    exists msg :: Carries(msg, m, id) && WasPushed(before.link, after.link, msg)
      && after.pending == (if m.SetRegistries? then RemoveSetRegistries(before.pending) else before.pending) + [msg]
  }

  /** What a send makes of the queue, and what it answers. */
  ghost predicate SentTo(before: Queue, after: Queue, id: Id, m: Msg, reply: Id) {
    if exists w :: w in before.pending && CommandId(w) == id then
      reply == id && Repeated(before, after, id)
    else if m.SetRegistries? && (before.link.None? || !before.link.value.trusted) then
      reply == "" && after == before
    else
      reply == id && Queued(before, after, id, m)
  }

  /** A command that a send accepts reaches the live session at once, behind what is there, unless that is full. */
  lemma SendReachesSession(q: Queue, id: Id, m: Msg)
    ensures SentTo(q, Send(q, id, m), id, m, SendReply(q, id, m))
  {
    hide IndexOf, RemoveSetRegistries;
    IndexOfFinds(q.pending, id);
    var k, a := IndexOf(q.pending, id), Send(q, id, m);
    if k < |q.pending| {
      assert WasPushed(q.link, a.link, q.pending[k]);
    } else if !Withheld(q, m) {
      assert Carries(Stamp(m, id), m, id) && WasPushed(q.link, a.link, Stamp(m, id));
    }
  }

  /**
   * What an attach makes of the queue: the new channel holds what is pending, oldest first, up to its 256
   * places; a trusted session's preface comes first, in place of any other snapshot; an untrusted one gets none.
   */
  ghost predicate AttachedTo(before: Queue, after: Queue, preface: Option<Msg>, id: Id, trusted: bool) {
    && after.link.Some? && after.link.value.trusted == trusted
    && after.link.value.out == (if |after.pending| <= 256 then after.pending else after.pending[..256])
    && if !trusted then after.pending == RemoveSetRegistries(before.pending)
       else if preface.None? then after.pending == before.pending
       else
         && after.pending != [] && Carries(after.pending[0], preface.value, id)
         && after.pending[1..] == RemoveSetRegistries(before.pending)
  }

  lemma AttachReachesSession(q: Queue, preface: Option<Msg>, id: Id, trusted: bool)
    ensures AttachedTo(q, Attach(q, preface, id, trusted), preface, id, trusted)
  {
    RemoveSetRegistriesKeeps(q.pending);
    ReplayIsPrefix(Attach(q, preface, id, trusted).pending);
  }

  // ---- over runs: what is pending under a live session was pushed to it ----

  /** The session attached by section j is the live one. */
  ghost predicate LiveSince(sections: seq<Section>, j: nat) {
    && j < |sections| && sections[j].DoAttach?
    && forall k :: j < k < |sections| ==> !sections[k].DoAttach? && !sections[k].DoDetach?
  }

  ghost predicate InChannel(q: Queue, m: Msg) {
    q.link.Some? && m in q.link.value.out
  }

  /** The session's writer took the message in section k. */
  ghost predicate WrittenAt(sections: seq<Section>, k: nat, m: Msg) {
    && k < |sections| && sections[k].DoWrite?
    && var q := Run(sections[..k]);
       q.link.Some? && q.link.value.out != [] && q.link.value.out[0] == m
  }

  /** When section k accepted or replayed the message, it found the channel full. */
  ghost predicate FoundFullAt(sections: seq<Section>, k: nat, m: Msg) {
    && k < |sections| && (sections[k].DoAttach? || (sections[k].DoSend? && m !in Run(sections[..k]).pending))
    && var q := Run(sections[..k + 1]);
       m in q.pending && q.link.Some? && |q.link.value.out| >= 256
  }

  ghost predicate ReachedSession(sections: seq<Section>, j: nat, m: Msg) {
    || InChannel(Run(sections), m)
    || (exists k :: j <= k && WrittenAt(sections, k, m))
    || (exists k :: j <= k && FoundFullAt(sections, k, m))
  }

  /**
   * In every run: what is pending while a session is live waits in its channel, was written to its stream, or
   * found the channel full when it was accepted or replayed.
   */
  lemma {:induction false} PendingReachedSession(sections: seq<Section>, j: nat, m: Msg)
    requires LiveSince(sections, j) && m in Run(sections).pending
    ensures Run(sections).link.Some? && ReachedSession(sections, j, m)
    decreases |sections|
  {
    hide Do, Run, FoundFullAt, WrittenAt;
    var n := |sections| - 1;
    var before := sections[..n];
    RunTakesLast(sections);
    var q, s := Run(before), sections[n];
    if n == j {
      ReplayReaches(q, s, m);
      assert sections[..n + 1] == sections;
      if !InChannel(Run(sections), m) {
        FullOnAttach(sections, n, m);
      }
    } else {
      LiveBefore(before, j);
      SectionReaches(q, s, m);
      if m in q.pending {
        PendingReachedSession(before, j, m);
        ReachedStays(sections, j, m);
      } else if !InChannel(Run(sections), m) {
        assert sections[..n + 1] == sections;
        FullOnSend(sections, n, m);
      }
    }
  }

  lemma RunTakesLast(sections: seq<Section>)
    requires sections != []
    ensures Run(sections) == Do(Run(sections[..|sections| - 1]), sections[|sections| - 1])
  {
  }

  lemma FullOnAttach(sections: seq<Section>, k: nat, m: Msg)
    requires k < |sections| && sections[k].DoAttach?
    requires var q := Run(sections[..k + 1]); m in q.pending && q.link.Some? && |q.link.value.out| >= 256
    ensures FoundFullAt(sections, k, m)
  {
  }

  lemma FullOnSend(sections: seq<Section>, k: nat, m: Msg)
    requires k < |sections| && sections[k].DoSend? && m !in Run(sections[..k]).pending
    requires var q := Run(sections[..k + 1]); m in q.pending && q.link.Some? && |q.link.value.out| >= 256
    ensures FoundFullAt(sections, k, m)
  {
  }

  /** A replay puts everything pending into the new channel, as far as that goes. */
  lemma ReplayReaches(q: Queue, s: Section, m: Msg)
    requires s.DoAttach? && m in Do(q, s).pending
    ensures var a := Do(q, s); a.link.Some? && (InChannel(a, m) || |a.link.value.out| >= 256)
  {
    ReplayIsPrefix(Do(q, s).pending);
  }

  lemma LiveBefore(before: seq<Section>, j: nat)
    requires LiveSince(before, j)
    ensures Run(before).link.Some?
    decreases |before|
  {
    hide IndexOf, RemoveSetRegistries;
    if |before| - 1 > j {
      LiveBefore(before[..|before| - 1], j);
    }
  }

  /** Under a live session a section adds at most one command to pending, and pushes that. */
  lemma SectionReaches(q: Queue, s: Section, m: Msg)
    requires q.link.Some? && !s.DoAttach? && !s.DoDetach? && m in Do(q, s).pending
    ensures Do(q, s).link.Some?
    ensures m !in q.pending ==> s.DoSend? && (InChannel(Do(q, s), m) || |Do(q, s).link.value.out| >= 256)
    ensures forall w :: InChannel(q, w) ==>
              InChannel(Do(q, s), w) || (s.DoWrite? && q.link.value.out != [] && q.link.value.out[0] == w)
  {
    if s.DoSend? {
      hide Send, SendReply, IndexOf, RemoveSetRegistries;
      SendReachesSession(q, s.id, s.msg);
      RemoveSetRegistriesKeeps(q.pending);
    }
  }

  /** What reached the session has reached it one section later. */
  lemma ReachedStays(sections: seq<Section>, j: nat, m: Msg)
    requires sections != []
    requires var n := |sections| - 1; n > j && LiveSince(sections, j) && ReachedSession(sections[..n], j, m)
    requires var q := Run(sections[..|sections| - 1]);
             q.link.Some? && m in Do(q, sections[|sections| - 1]).pending
    ensures ReachedSession(sections, j, m)
  {
    hide Do, Run;
    var n := |sections| - 1;
    var before := sections[..n];
    RunTakesLast(sections);
    SectionReaches(Run(before), sections[n], m);
    assert forall k :: 0 <= k <= n ==> before[..k] == sections[..k];
    if k: nat :| j <= k && WrittenAt(before, k, m) {
      assert WrittenAt(sections, k, m);
    }
    if k: nat :| j <= k && FoundFullAt(before, k, m) {
      assert FoundFullAt(sections, k, m);
    }
    if InChannel(Run(before), m) && !InChannel(Run(sections), m) {
      assert WrittenAt(sections, n, m);
    }
  }

  ghost function Ids(ms: seq<Msg>): set<Id> {
    set m | m in ms :: CommandId(m)
  }

  /** Position i is taken out, and the rest keeps its order. */
  ghost predicate TakenOut(before: seq<Msg>, after: seq<Msg>, i: nat) {
    && i < |before| == |after| + 1
    && (forall j :: 0 <= j < i ==> after[j] == before[j])
    && (forall j :: i <= j < |after| ==> after[j] == before[j + 1])
  }

  /** An ack takes out the one command it names and nothing else, and the rest keeps its order. */
  lemma {:induction false} AckRemovesExactly(q: Queue, id: Id)
    requires Coherent(q) && id != ""
    ensures forall m :: m in Ack(q, id).pending <==> m in q.pending && CommandId(m) != id
    ensures Ack(q, id).pending == q.pending || exists i :: TakenOut(q.pending, Ack(q, id).pending, i)
    ensures Ack(q, id).link == q.link
  {
    hide IndexOf;
    var k := IndexOf(q.pending, id);
    IndexOfFinds(q.pending, id);
    assert k < |q.pending| ==> TakenOut(q.pending, Ack(q, id).pending, k);
    if k < |q.pending| {
      WithoutOne(q.pending, k);
      assert DistinctIds(q.pending) && CommandId(q.pending[k]) == id;
    }
  }

  /** Taking out position k takes out the messages with its id, as no other has it. */
  lemma WithoutOne(pending: seq<Msg>, k: nat)
    requires k < |pending| && DistinctIds(pending) && CommandId(pending[k]) != ""
    ensures forall m :: m in pending[..k] + pending[k + 1..] <==>
              m in pending && CommandId(m) != CommandId(pending[k])
  {
    var p := pending[..k] + pending[k + 1..];
    forall m | m in p ensures m in pending && CommandId(m) != CommandId(pending[k]) {
      var i :| 0 <= i < |p| && p[i] == m;
      assert p[i] == pending[if i < k then i else i + 1];
    }
    forall m | m in pending && CommandId(m) != CommandId(pending[k]) ensures m in p {
      OthersStay(pending, k, m);
    }
  }

  lemma OthersStay(pending: seq<Msg>, k: nat, m: Msg)
    requires k < |pending| && m in pending && m != pending[k]
    ensures m in pending[..k] + pending[k + 1..]
  {
    var i :| 0 <= i < |pending| && pending[i] == m;
    assert m == (pending[..k] + pending[k + 1..])[if i < k then i else i - 1];
  }

  /** Reconnect replays what is pending, oldest first, with a snapshot in front of all work. */
  lemma {:induction false} AttachReplays(q: Queue, preface: Option<Msg>, prefaceId: Id, trusted: bool)
    requires preface.Some? ==> preface.value.SetRegistries?
    ensures var a := Attach(q, preface, prefaceId, trusted);
            && a.link == Some(Link(trusted, if |a.pending| <= OUT_CAP then a.pending else a.pending[..OUT_CAP]))
            && RemoveSetRegistries(a.pending) == RemoveSetRegistries(q.pending)
            && (trusted && preface.Some? ==>
                  && a.pending != []
                  && a.pending[0] == SetRegistries(prefaceId, preface.value.creds)
                  && a.link.value.out[0] == a.pending[0])
            && (!trusted ==> HoldsNoRegistries(a.pending) && HoldsNoRegistries(a.link.value.out))
  {
    var kept := RemoveSetRegistries(q.pending);
    RemoveSetRegistriesKeeps(q.pending);
    RemoveSetRegistriesKeeps(kept);
    var a := Attach(q, preface, prefaceId, trusted);
    ReplayIsPrefix(a.pending);
    if trusted && preface.Some? {
      assert a.pending[1..] == kept;
    }
  }

  /** Stamped ids are uuids. */
  ghost predicate RealIds(sections: seq<Section>) {
    forall s :: s in sections ==> (s.DoSend? ==> s.id != "") && (s.DoAttach? ==> s.prefaceId != "")
  }

  ghost predicate EmptyOrReal(ms: seq<Msg>) {
    forall m :: m in ms ==> m == Empty || CommandId(m) != ""
  }

  lemma SectionKeepsReal(q: Queue, s: Section)
    requires EmptyOrReal(q.pending) && RealIds([s])
    ensures EmptyOrReal(Do(q, s).pending)
  {
    hide Send, Attach, IndexOf, RemoveSetRegistries;
    assert s in [s];
    match s
    case DoSend(id, msg) => SendOnlyReplacesRegistries(q, id, msg);
    case DoAck(_) =>
    case DoAttach(preface, prefaceId, trusted) =>
      AttachReachesSession(q, preface, prefaceId, trusted);
      RemoveSetRegistriesKeeps(q.pending);
      var p := Do(q, s).pending;
      assert p != [] ==> p == [p[0]] + p[1..];
    case DoDetach =>
    case DoWrite =>
  }

  lemma {:induction false} RunIdsAreReal(sections: seq<Section>)
    requires RealIds(sections)
    ensures EmptyOrReal(Run(sections).pending)
    decreases |sections|
  {
    if sections != [] {
      var n := |sections| - 1;
      assert forall s :: s in sections[..n] ==> s in sections;
      RunIdsAreReal(sections[..n]);
      assert sections[n] in sections;
      SectionKeepsReal(Run(sections[..n]), sections[n]);
    }
  }

  /** In every run two pending messages share an id if and only if neither carries a command. */
  lemma SharedIdIffEmpty(sections: seq<Section>, i: nat, j: nat)
    requires FreshPrefaces(sections) && RealIds(sections) && i < j < |Run(sections).pending|
    ensures var p := Run(sections).pending;
            CommandId(p[i]) == CommandId(p[j]) <==> p[i] == Empty && p[j] == Empty
  {
    EveryRunIsCoherent(sections);
    RunIdsAreReal(sections);
    var p := Run(sections).pending;
    assert p[i] in p && p[j] in p;
  }

  /** And that happens: without a command in the oneof there is no id to tell two messages apart. */
  lemma EmptyMessagesShareAnId()
    ensures var q := Send(Send(EMPTY_QUEUE, "a", Empty), "b", Empty);
            q.pending == [Empty, Empty] && CommandId(q.pending[0]) == CommandId(q.pending[1])
  {
  }
}

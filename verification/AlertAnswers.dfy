/**
 * What an answer of the alert history means for the reader: which alerts of
 * the log it comes from, said of their labels and timestamps alone.
 */
module AlertAnswers {
  import opened Wrappers
  import opened Lines
  import opened NewestFirst
  import opened AlertLog

  /** An alert as it stands in the log, with the time its delivery was received. */
  datatype Decoded = Decoded(alert: Alert, receivedAt: string)

  // ---- the alerts of the log ----

  function Each(alerts: seq<Alert>, receivedAt: string): seq<Decoded> {
    seq(|alerts|, i requires 0 <= i < |alerts| => Decoded(alerts[i], receivedAt))
  }

  /** A line is a delivery with at least one alert, or else one bare alert with at least one label. */
  function Carried(codec: Codec, token: Bytes): seq<Decoded> {
    var line := codec.trim(token);
    var delivery, bare := codec.delivery(line), codec.alert(line);
    if line == [] then []
    else if delivery.ok && |delivery.value.alerts| > 0 then Each(delivery.value.alerts, delivery.value.receivedAt)
    else if bare.ok && |bare.value.labels| > 0 then [Decoded(bare.value, delivery.value.receivedAt)]
    else []
  }

  function CarriedBy(codec: Codec, lines: seq<Bytes>): seq<Decoded> {
    if lines == [] then [] else Carried(codec, lines[0]) + CarriedBy(codec, lines[1..])
  }

  // ---- who may see them ----

  function ProjectOf(d: Decoded): string {
    if "project" in d.alert.labels then d.alert.labels["project"] else ""
  }

  /**
   * A bound key sees its own project and what belongs to none; any other caller loses only what names
   * another project than the one asked for.
   */
  predicate MaySee(bound: bool, project: string, alertProject: string) {
    if bound then alertProject == "" || alertProject == project
    else !(project != "" && alertProject != "" && alertProject != project)
  }

  function Permitted(vis: Visibility, ds: seq<Decoded>): seq<Decoded> {
    if ds == [] then []
    else (if MaySee(vis.bound, vis.project, ProjectOf(ds[0])) then [ds[0]] else []) + Permitted(vis, ds[1..])
  }

  // ---- what an event says of its alert ----

  /** The value of a label or annotation, empty when it is absent. */
  ghost predicate Says(m: map<string, string>, key: string, value: string) {
    if key in m then value == m[key] else value == ""
  }

  /** The first value that is not empty, in the order of the keys. */
  ghost predicate SaysFirst(m: map<string, string>, keys: seq<string>, value: string) {
    || (exists i :: 0 <= i < |keys| && value != "" && Says(m, keys[i], value)
          && forall j :: 0 <= j < i ==> Says(m, keys[j], ""))
    || (value == "" && forall j :: 0 <= j < |keys| ==> Says(m, keys[j], ""))
  }

  /** Not resolved, and with no end, an end to come, or no readable end but said to be firing. */
  ghost predicate StillActive(q: Request, status: string, endsAt: string) {
    && status != "resolved"
    && (|| endsAt == ""
        || (q.codec.instant(endsAt).None? && status == "firing")
        || (exists t :: q.codec.instant(endsAt) == Some(t) && (q.codec.year(t) <= 1 || q.now < t)))
  }

  ghost predicate Describes(q: Request, e: Event, d: Decoded) {
    var a := d.alert;
    && Says(a.labels, "alertname", e.name) && Says(a.labels, "severity", e.severity)
    && Says(a.labels, "region", e.region) && Says(a.labels, "project", e.project)
    && SaysFirst(a.labels, ["node", "instance", "hostname", "host"], e.node)
    && SaysFirst(a.annotations, ["description", "summary"], e.description)
    && Says(a.annotations, "description_ru", e.descriptionRu)
    && (e.platform <==> e.project == "")
    && e.startsAt == a.startsAt && e.endsAt == a.endsAt && e.receivedAt == d.receivedAt
    && (e.active <==> StillActive(q, a.status, a.endsAt))
  }

  /** The time a string gives, if it gives one. */
  function Dated(codec: Codec, s: string): Option<int> {
    if s == "" then None else codec.instant(s)
  }

  /** When an alert was delivered, else when it started, else the zero time. */
  function InstantOf(codec: Codec, d: Decoded): int {
    match Dated(codec, d.receivedAt)
    case Some(t) => t
    case None =>
      match Dated(codec, d.alert.startsAt)
      case Some(t) => t
      case None => ZERO_TIME
  }

  // ---- what an answer promises ----

  ghost predicate NewestFirstOf(codec: Codec, ds: seq<Decoded>) {
    forall i, j :: 0 <= i < j < |ds| ==> InstantOf(codec, ds[i]) >= InstantOf(codec, ds[j])
  }

  /** The events tell of these alerts of the log, each once, newest first, as many as the limit allows. */
  ghost predicate AnswersFrom(q: Request, all: seq<Decoded>, limit: nat, events: seq<Event>, origin: seq<Decoded>) {
    var permitted := Permitted(q.vis, all);
    && |events| == |origin| == (if |permitted| < limit then |permitted| else limit)
    && (forall i :: 0 <= i < |events| ==> Describes(q, events[i], origin[i]))
    && multiset(origin) <= multiset(permitted)
    && NewestFirstOf(q.codec, origin)
  }

  ghost predicate Answers(q: Request, all: seq<Decoded>, limit: nat, events: seq<Event>) {
    exists origin :: AnswersFrom(q, all, limit, events, origin)
  }

  /** And none that was left out is newer than one that was told of. */
  ghost predicate LeavesOlder(q: Request, all: seq<Decoded>, origin: seq<Decoded>) {
    forall d, i :: d in multiset(Permitted(q.vis, all)) - multiset(origin) && 0 <= i < |origin| ==>
      InstantOf(q.codec, d) <= InstantOf(q.codec, origin[i])
  }

  ghost predicate AnswersNewest(q: Request, all: seq<Decoded>, limit: nat, events: seq<Event>) {
    exists origin :: AnswersFrom(q, all, limit, events, origin) && LeavesOlder(q, all, origin)
  }

  /** Permitted alerts of a later line are not older than those of an earlier one. */
  ghost predicate LinesInOrder(q: Request, lines: seq<Bytes>) {
    forall i, j :: 0 <= i < j < |lines| ==>
      NoneOlder(q.codec, Permitted(q.vis, Carried(q.codec, lines[i])), Permitted(q.vis, Carried(q.codec, lines[j])))
  }

  ghost predicate NoneOlder(codec: Codec, first: seq<Decoded>, second: seq<Decoded>) {
    forall a, b :: a in first && b in second ==> InstantOf(codec, a) <= InstantOf(codec, b)
  }

  // ---- events and alerts correspond ----

  function Normalized(q: Request): Decoded -> Event {
    (d: Decoded) => NormalizeAlert(q, d.alert, d.receivedAt)
  }

  function Map<T, U>(f: T -> U, s: seq<T>): seq<U> {
    if s == [] then [] else [f(s[0])] + Map(f, s[1..])
  }

  lemma {:induction false} MapIs<T, U>(f: T -> U, s: seq<T>)
    ensures |Map(f, s)| == |s| && forall i :: 0 <= i < |s| ==> Map(f, s)[i] == f(s[i])
  {
    if s != [] {
      MapIs(f, s[1..]);
      assert forall i :: 0 < i < |s| ==> s[i] == s[1..][i - 1];
    }
  }

  lemma {:induction false} MapDistributes<T, U>(f: T -> U, a: seq<T>, b: seq<T>)
    ensures Map(f, a + b) == Map(f, a) + Map(f, b)
  {
    if a == [] {
      assert a + b == b;
    } else {
      assert (a + b)[1..] == a[1..] + b;
      MapDistributes(f, a[1..], b);
    }
  }

  lemma {:induction false} PermittedDistributes(vis: Visibility, a: seq<Decoded>, b: seq<Decoded>)
    ensures Permitted(vis, a + b) == Permitted(vis, a) + Permitted(vis, b)
  {
    if a == [] {
      assert a + b == b;
    } else {
      assert (a + b)[1..] == a[1..] + b;
      PermittedDistributes(vis, a[1..], b);
    }
  }

  lemma {:induction false} FirstLabelSays(m: map<string, string>, keys: seq<string>)
    ensures SaysFirst(m, keys, FirstLabel(m, keys))
  {
    if keys != [] {
      if Label(m, keys[0]) != "" {
        assert Says(m, keys[0], Label(m, keys[0]));
      } else {
        FirstLabelSays(m, keys[1..]);
        var value := FirstLabel(m, keys[1..]);
        assert forall j :: 0 < j < |keys| ==> keys[j] == keys[1..][j - 1];
        assert Says(m, keys[0], "");
        if value != "" {
          var i :| 0 <= i < |keys[1..]| && Says(m, keys[1..][i], value)
            && forall j :: 0 <= j < i ==> Says(m, keys[1..][j], "");
          assert Says(m, keys[i + 1], value);
          forall j | 0 <= j < i + 1 ensures Says(m, keys[j], "") {
            assert j > 0 ==> keys[j] == keys[1..][j - 1];
          }
        }
      }
    }
  }

  lemma NormalizedDescribes(q: Request, d: Decoded)
    ensures Describes(q, Normalized(q)(d), d)
    ensures SortTime(q)(Normalized(q)(d)) == InstantOf(q.codec, d)
  {
    hide FirstLabel, SaysFirst;
    FirstLabelSays(d.alert.labels, ["node", "instance", "hostname", "host"]);
    FirstLabelSays(d.alert.annotations, ["description", "summary"]);
  }

  lemma EachTail(alerts: seq<Alert>, receivedAt: string)
    requires alerts != []
    ensures Each(alerts, receivedAt)[0] == Decoded(alerts[0], receivedAt)
    ensures Each(alerts, receivedAt)[1..] == Each(alerts[1..], receivedAt)
  {
  }

  lemma {:induction false} ShownIsPermitted(q: Request, alerts: seq<Alert>, receivedAt: string)
    ensures Shown(q, alerts, receivedAt) == Map(Normalized(q), Permitted(q.vis, Each(alerts, receivedAt)))
  {
    if alerts != [] {
      hide NormalizeAlert;
      EachTail(alerts, receivedAt);
      ShownIsPermitted(q, alerts[1..], receivedAt);
      var ds := Each(alerts, receivedAt);
      MapDistributes(Normalized(q), if MaySee(q.vis.bound, q.vis.project, ProjectOf(ds[0])) then [ds[0]] else [],
                     Permitted(q.vis, ds[1..]));
    }
  }

  lemma LineIsPermitted(q: Request, token: Bytes)
    ensures LineEvents(q, token) == Map(Normalized(q), Permitted(q.vis, Carried(q.codec, token)))
  {
    hide NormalizeAlert, Shown;
    var line := q.codec.trim(token);
    var wl, bare := q.codec.delivery(line), q.codec.alert(line);
    ShownIsPermitted(q, wl.value.alerts, wl.value.receivedAt);
    ShownIsPermitted(q, [bare.value], wl.value.receivedAt);
    assert Each([bare.value], wl.value.receivedAt) == [Decoded(bare.value, wl.value.receivedAt)];
  }

  lemma {:induction false} EventsArePermitted(q: Request, lines: seq<Bytes>)
    ensures Events(q, lines) == Map(Normalized(q), Permitted(q.vis, CarriedBy(q.codec, lines)))
  {
    if lines != [] {
      hide LineEvents, Carried, Normalized;
      LineIsPermitted(q, lines[0]);
      EventsArePermitted(q, lines[1..]);
      var first, rest := Carried(q.codec, lines[0]), CarriedBy(q.codec, lines[1..]);
      PermittedDistributes(q.vis, first, rest);
      MapDistributes(Normalized(q), Permitted(q.vis, first), Permitted(q.vis, rest));
    }
  }

  // ---- sorting events is sorting alerts ----

  lemma {:induction false} InsertMaps<T(!new), U>(f: T -> U, time: U -> int, key: T -> int, e: T, s: seq<T>)
    requires forall x :: key(x) == time(f(x))
    ensures Insert(time, f(e), Map(f, s)) == Map(f, Insert(key, e, s))
  {
    MapIs(f, s);
    if s != [] && key(s[0]) > key(e) {
      InsertMaps(f, time, key, e, s[1..]);
      assert Map(f, s)[1..] == Map(f, s[1..]);
      var rest := Insert(key, e, s[1..]);
      assert ([s[0]] + rest)[1..] == rest;
    } else {
      assert ([e] + s)[1..] == s;
    }
  }

  lemma {:induction false} SortMaps<T(!new), U>(f: T -> U, time: U -> int, key: T -> int, s: seq<T>)
    requires forall x :: key(x) == time(f(x))
    ensures Sort(time, Map(f, s)) == Map(f, Sort(key, s))
  {
    if s != [] {
      SortMaps(f, time, key, s[1..]);
      assert Map(f, s)[1..] == Map(f, s[1..]);
      InsertMaps(f, time, key, s[0], Sort(key, s[1..]));
    }
  }

  function Key(codec: Codec): Decoded -> int {
    (d: Decoded) => InstantOf(codec, d)
  }

  /** The alerts an answer drawn from these lines tells of. */
  function Origin(q: Request, lines: seq<Bytes>, limit: nat): seq<Decoded> {
    Take(Sort(Key(q.codec), Permitted(q.vis, CarriedBy(q.codec, lines))), limit)
  }

  lemma AnswerIsOrigin(q: Request, lines: seq<Bytes>, limit: nat)
    ensures Take(Sort(SortTime(q), Events(q, lines)), limit) == Map(Normalized(q), Origin(q, lines, limit))
  {
    hide Permitted, CarriedBy, Events, Normalized, SortTime, Key, Sort;
    var ds := Permitted(q.vis, CarriedBy(q.codec, lines));
    EventsArePermitted(q, lines);
    KeyIsTime(q);
    SortMaps(Normalized(q), SortTime(q), Key(q.codec), ds);
    TakeMaps(Normalized(q), Sort(Key(q.codec), ds), limit);
  }

  lemma KeyIsTime(q: Request)
    ensures forall d :: Key(q.codec)(d) == SortTime(q)(Normalized(q)(d))
  {
    hide Normalized, SortTime, InstantOf;
    forall d ensures Key(q.codec)(d) == SortTime(q)(Normalized(q)(d)) {
      NormalizedDescribes(q, d);
    }
  }

  lemma TakeMaps<T, U>(f: T -> U, s: seq<T>, limit: nat)
    ensures Take(Map(f, s), limit) == Map(f, Take(s, limit))
  {
    MapIs(f, s);
    MapIs(f, Take(s, limit));
  }

  lemma TakeOfSorted<T>(time: T -> int, s: seq<T>, limit: nat)
    ensures var t := Take(Sort(time, s), limit);
            && |t| == (if |s| < limit then |s| else limit)
            && multiset(t) <= multiset(s) && Descending(time, t)
            && forall d, i :: d in multiset(s) - multiset(t) && 0 <= i < |t| ==> time(d) <= time(t[i])
  {
    hide Sort;
    SortIsStable(time, s);
    var all := Sort(time, s);
    assert |multiset(all)| == |multiset(s)|;
    var t := Take(all, limit);
    var rest := all[|t|..];
    assert all == t + rest;
    assert multiset(all) == multiset(t) + multiset(rest);
    forall d, i | d in multiset(rest) && 0 <= i < |t| ensures time(d) <= time(t[i]) {
      var j :| 0 <= j < |rest| && rest[j] == d;
      assert all[|t| + j] == d && all[i] == t[i];
    }
  }

  /** An answer drawn from these lines answers for all of them, if they carry enough for the limit. */
  lemma TakenAnswers(q: Request, lines: seq<Bytes>, k: nat, limit: nat)
    requires k <= |lines|
    requires k == 0 || |Permitted(q.vis, CarriedBy(q.codec, lines[k..]))| >= limit
    ensures AnswersFrom(q, CarriedBy(q.codec, lines), limit, Map(Normalized(q), Origin(q, lines[k..], limit)),
                        Origin(q, lines[k..], limit))
  {
    hide Permitted, CarriedBy, Normalized, Sort, Key, Describes, Take;
    var last := Permitted(q.vis, CarriedBy(q.codec, lines[k..]));
    var first := Permitted(q.vis, CarriedBy(q.codec, lines[..k]));
    var origin := Origin(q, lines[k..], limit);
    PermittedSplits(q, lines, k);
    TakeOfSorted(Key(q.codec), last, limit);
    KeyIsInstant(q.codec);
    MapIs(Normalized(q), origin);
    assert multiset(first + last) == multiset(first) + multiset(last);
    forall i | 0 <= i < |origin| ensures Describes(q, Map(Normalized(q), origin)[i], origin[i]) {
      NormalizedDescribes(q, origin[i]);
    }
  }

  lemma TakenLeavesOlder(q: Request, lines: seq<Bytes>, k: nat, limit: nat)
    requires k <= |lines| && LinesInOrder(q, lines)
    ensures LeavesOlder(q, CarriedBy(q.codec, lines), Origin(q, lines[k..], limit))
  {
    hide Permitted, CarriedBy, Sort, Key, LinesInOrder, Take, InstantOf;
    var last := Permitted(q.vis, CarriedBy(q.codec, lines[k..]));
    var first := Permitted(q.vis, CarriedBy(q.codec, lines[..k]));
    var origin := Origin(q, lines[k..], limit);
    PermittedSplits(q, lines, k);
    TakeOfSorted(Key(q.codec), last, limit);
    KeyIsInstant(q.codec);
    FirstAreOlder(q, lines, k);
    forall d, i | d in multiset(first + last) - multiset(origin) && 0 <= i < |origin|
      ensures InstantOf(q.codec, d) <= InstantOf(q.codec, origin[i])
    {
      LeftOut(first, last, origin, d);
      assert origin[i] in multiset(origin);
    }
  }

  lemma LeftOut<T>(first: seq<T>, last: seq<T>, taken: seq<T>, d: T)
    requires d in multiset(first + last) - multiset(taken) && multiset(taken) <= multiset(last)
    ensures d in first || d in multiset(last) - multiset(taken)
    ensures forall x :: x in multiset(taken) ==> x in last
  {
    assert multiset(first + last) == multiset(first) + multiset(last);
  }

  lemma KeyIsInstant(codec: Codec)
    ensures forall d :: Key(codec)(d) == InstantOf(codec, d)
  {
  }

  lemma {:induction false} CarriedDistributes(codec: Codec, a: seq<Bytes>, b: seq<Bytes>)
    ensures CarriedBy(codec, a + b) == CarriedBy(codec, a) + CarriedBy(codec, b)
  {
    if a == [] {
      assert a + b == b;
    } else {
      assert (a + b)[1..] == a[1..] + b;
      CarriedDistributes(codec, a[1..], b);
    }
  }

  lemma PermittedSplits(q: Request, lines: seq<Bytes>, k: nat)
    requires k <= |lines|
    ensures Permitted(q.vis, CarriedBy(q.codec, lines)) ==
            Permitted(q.vis, CarriedBy(q.codec, lines[..k])) + Permitted(q.vis, CarriedBy(q.codec, lines[k..]))
    ensures k == 0 ==> Permitted(q.vis, CarriedBy(q.codec, lines[..k])) == []
  {
    assert lines == lines[..k] + lines[k..];
    CarriedDistributes(q.codec, lines[..k], lines[k..]);
    PermittedDistributes(q.vis, CarriedBy(q.codec, lines[..k]), CarriedBy(q.codec, lines[k..]));
  }

  lemma {:induction false} PermittedFromLine(q: Request, lines: seq<Bytes>, d: Decoded) returns (i: nat)
    requires d in Permitted(q.vis, CarriedBy(q.codec, lines))
    ensures i < |lines| && d in Permitted(q.vis, Carried(q.codec, lines[i]))
  {
    PermittedDistributes(q.vis, Carried(q.codec, lines[0]), CarriedBy(q.codec, lines[1..]));
    if d in Permitted(q.vis, Carried(q.codec, lines[0])) {
      i := 0;
    } else {
      var j := PermittedFromLine(q, lines[1..], d);
      i := j + 1;
    }
  }

  lemma FirstAreOlder(q: Request, lines: seq<Bytes>, k: nat)
    requires k <= |lines| && LinesInOrder(q, lines)
    ensures NoneOlder(q.codec, Permitted(q.vis, CarriedBy(q.codec, lines[..k])),
                      Permitted(q.vis, CarriedBy(q.codec, lines[k..])))
  {
    hide Permitted, CarriedBy, Carried, InstantOf;
    var first := Permitted(q.vis, CarriedBy(q.codec, lines[..k]));
    var last := Permitted(q.vis, CarriedBy(q.codec, lines[k..]));
    forall a, b | a in first && b in last ensures InstantOf(q.codec, a) <= InstantOf(q.codec, b) {
      var i := PermittedFromLine(q, lines[..k], a);
      var j := PermittedFromLine(q, lines[k..], b);
      assert NoneOlder(q.codec, Permitted(q.vis, Carried(q.codec, lines[i])),
                       Permitted(q.vis, Carried(q.codec, lines[k + j])));
    }
  }
}

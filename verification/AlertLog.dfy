/**
 * The alert history: a log of JSON lines, newest at the end, read through a
 * byte window that grows from the end of the file until enough events that
 * the caller may see have been found.
 */
module AlertLog {
  import opened Wrappers
  import opened Lines
  import opened NewestFirst

  /** The scanner's token cap, 4 MiB. */
  const LINE_CAP: nat := 4 * 1024 * 1024

  datatype Alert = Alert(status: string, labels: map<string, string>, annotations: map<string, string>,
                         startsAt: string, endsAt: string)

  datatype Delivery = Delivery(receivedAt: string, alerts: seq<Alert>)

  /** What unmarshalling leaves behind; a failed one may have filled some fields. */
  datatype Unmarshalled<T> = Unmarshalled(ok: bool, value: T)

  /** Whitespace, JSON and RFC 3339 are taken as given. */
  datatype Codec = Codec(
    trim: Bytes -> Bytes,
    delivery: Bytes -> Unmarshalled<Delivery>,
    alert: Bytes -> Unmarshalled<Alert>,
    instant: string -> Option<int>,
    year: int -> int)

  /** The zero time.Time, the instant of an event without a usable timestamp. */
  const ZERO_TIME: int := 0

  datatype Event = Event(name: string, severity: string, region: string, node: string, project: string,
                         platform: bool, startsAt: string, endsAt: string, description: string,
                         descriptionRu: string, active: bool, receivedAt: string)

  // ---- who may see an alert ----

  predicate KeepForBinding(project: string, binding: string) {
    project == "" || project == binding
  }

  predicate KeepAlertForProject(project: string, want: string) {
    want == "" || project == "" || project == want
  }

  datatype Visibility = Visibility(project: string, bound: bool) {
    predicate Keep(alertProject: string) {
      if bound then KeepForBinding(alertProject, project) else KeepAlertForProject(alertProject, project)
    }
  }

  /** One request: its visibility rule and the time at which it is answered. */
  datatype Request = Request(codec: Codec, now: int, vis: Visibility)

  // ---- one line ----

  function Label(m: map<string, string>, key: string): string {
    if key in m then m[key] else ""
  }

  function FirstLabel(m: map<string, string>, keys: seq<string>): string {
    if keys == [] then ""
    else if Label(m, keys[0]) != "" then Label(m, keys[0])
    else FirstLabel(m, keys[1..])
  }

  predicate AlertActive(q: Request, status: string, endsAt: string) {
    if status == "resolved" then false
    else if endsAt == "" then true
    else
      match q.codec.instant(endsAt)
      case None => status == "firing"
      case Some(t) => q.codec.year(t) <= 1 || t > q.now
  }

  function NormalizeAlert(q: Request, a: Alert, receivedAt: string): Event {
    Event(Label(a.labels, "alertname"), Label(a.labels, "severity"), Label(a.labels, "region"),
          FirstLabel(a.labels, ["node", "instance", "hostname", "host"]), Label(a.labels, "project"),
          Label(a.labels, "project") == "", a.startsAt, a.endsAt,
          FirstLabel(a.annotations, ["description", "summary"]), Label(a.annotations, "description_ru"),
          AlertActive(q, a.status, a.endsAt), receivedAt)
  }

  function Shown(q: Request, alerts: seq<Alert>, receivedAt: string): seq<Event> {
    if alerts == [] then []
    else (if q.vis.Keep(Label(alerts[0].labels, "project")) then [NormalizeAlert(q, alerts[0], receivedAt)] else [])
         + Shown(q, alerts[1..], receivedAt)
  }

  /** A delivery, else a bare alert, else nothing. */
  function LineEvents(q: Request, token: Bytes): seq<Event> {
    var line := q.codec.trim(token);
    var wl := q.codec.delivery(line);
    var a := q.codec.alert(line);
    if line == [] then []
    else if wl.ok && wl.value.alerts != [] then Shown(q, wl.value.alerts, wl.value.receivedAt)
    else if a.ok && a.value.labels != map[] then Shown(q, [a.value], wl.value.receivedAt)
    else []
  }

  function Events(q: Request, lines: seq<Bytes>): seq<Event> {
    if lines == [] then [] else LineEvents(q, lines[0]) + Events(q, lines[1..])
  }

  function AlertSortTime(codec: Codec, e: Event): int {
    if e.receivedAt != "" && codec.instant(e.receivedAt).Some? then codec.instant(e.receivedAt).value
    else if e.startsAt != "" && codec.instant(e.startsAt).Some? then codec.instant(e.startsAt).value
    else ZERO_TIME
  }

  function SortTime(q: Request): Event -> int {
    e => AlertSortTime(q.codec, e)
  }

  /** The events of the whole log that the request may see, in file order. */
  function Visible(q: Request, data: Bytes): seq<Event> {
    Events(q, Scan(data, LINE_CAP))
  }

  /** What parsing the whole log returns. */
  function History(q: Request, data: Bytes, limit: nat): seq<Event> {
    Take(Sort(SortTime(q), Visible(q, data)), limit)
  }

  lemma VisibleStep(q: Request, rest: Bytes)
    requires rest != [] && LineEnd(rest) < LINE_CAP
    ensures Visible(q, rest) == LineEvents(q, DropCR(rest[..LineEnd(rest)])) + Visible(q, AfterLine(rest))
  {
    assert Scan(rest, LINE_CAP)[1..] == Scan(AfterLine(rest), LINE_CAP);
  }

  lemma ShownAlone(q: Request, a: Alert, receivedAt: string)
    ensures Shown(q, [a], receivedAt)
         == if q.vis.Keep(Label(a.labels, "project")) then [NormalizeAlert(q, a, receivedAt)] else []
  {
    assert [a][1..] == [];
  }

  /** The events of one token, one alert of a delivery after the other. */
  method ParseLine(q: Request, token: Bytes) returns (out: seq<Event>)
    ensures out == LineEvents(q, token)
  {
    hide NormalizeAlert;
    out := [];
    var line := q.codec.trim(token);
    if line == [] {
      return;
    }
    var wl := q.codec.delivery(line);
    if wl.ok && wl.value.alerts != [] {
      var alerts := wl.value.alerts;
      for i := 0 to |alerts|
        invariant out + Shown(q, alerts[i..], wl.value.receivedAt) == Shown(q, alerts, wl.value.receivedAt)
      {
        var a := alerts[i];
        assert alerts[i..][1..] == alerts[i + 1..];
        if q.vis.Keep(Label(a.labels, "project")) {
          out := out + [NormalizeAlert(q, a, wl.value.receivedAt)];
        }
      }
      return;
    }
    var a := q.codec.alert(line);
    ShownAlone(q, a.value, wl.value.receivedAt);
    if a.ok && a.value.labels != map[] && q.vis.Keep(Label(a.value.labels, "project")) {
      out := [NormalizeAlert(q, a.value, wl.value.receivedAt)];
    }
  }

  method ParseAlertsLog(q: Request, data: Bytes, limit: nat) returns (out: seq<Event>)
    ensures out == History(q, data, limit)
  {
    hide LineEvents;
    out := [];
    var rest := data;
    while rest != []
      invariant out + Visible(q, rest) == Visible(q, data)
      decreases |rest|
    {
      var n := LineEnd(rest);
      if n >= LINE_CAP {
        assert Visible(q, rest) == [];
        break;
      }
      VisibleStep(q, rest);
      var events := ParseLine(q, DropCR(rest[..n]));
      out := out + events;
      rest := AfterLine(rest);
    }
    assert out == Visible(q, data);
    out := Sort(SortTime(q), out);
    if |out| > limit {
      out := out[..limit];
    }
  }

  // ---- lines and their events ----

  lemma {:induction false} EventsDistribute(q: Request, a: seq<Bytes>, b: seq<Bytes>)
    ensures Events(q, a + b) == Events(q, a) + Events(q, b)
  {
    if a == [] {
      assert a + b == b;
    } else {
      assert (a + b)[1..] == a[1..] + b;
      EventsDistribute(q, a[1..], b);
    }
  }

  lemma {:induction false} EventComesFromLine(q: Request, lines: seq<Bytes>, e: Event) returns (i: nat)
    requires e in Events(q, lines)
    ensures i < |lines| && e in LineEvents(q, lines[i])
  {
    if e in LineEvents(q, lines[0]) {
      i := 0;
    } else {
      var j := EventComesFromLine(q, lines[1..], e);
      i := j + 1;
    }
  }

  lemma {:induction false} ShownIsVisible(q: Request, alerts: seq<Alert>, receivedAt: string)
    ensures forall e :: e in Shown(q, alerts, receivedAt) ==> q.vis.Keep(e.project)
  {
    if alerts != [] {
      ShownIsVisible(q, alerts[1..], receivedAt);
    }
  }

  /** The tenant boundary: nothing the rule hides is ever in the answer. */
  lemma HistoryIsVisible(q: Request, lines: seq<Bytes>, limit: nat)
    ensures forall e :: e in Take(Sort(SortTime(q), Events(q, lines)), limit) ==>
              && q.vis.Keep(e.project)
              && (q.vis.bound || q.vis.project != "" ==> e.project == "" || e.project == q.vis.project)
  {
    var sorted := Sort(SortTime(q), Events(q, lines));
    forall e | e in Take(sorted, limit) ensures q.vis.Keep(e.project) {
      var k :| 0 <= k < |sorted| && sorted[k] == e;
      SortedFrom(SortTime(q), Events(q, lines), k);
      var i := EventComesFromLine(q, lines, e);
      var line := q.codec.trim(lines[i]);
      var receivedAt := q.codec.delivery(line).value.receivedAt;
      ShownIsVisible(q, q.codec.delivery(line).value.alerts, receivedAt);
      ShownIsVisible(q, [q.codec.alert(line).value], receivedAt);
    }
  }
}

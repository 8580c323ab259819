/**
 * Reading the end of the alert log agrees with reading all of it.
 */
module AlertTail {
  import opened Wrappers
  import opened Lines
  import opened NewestFirst
  import opened AlertLog
  import opened AlertAnswers

  /** Without its first line, which may be cut; all of buf when it starts the file. */
  function DropPartialFirstLine(buf: Bytes, cut: bool): Bytes {
    if !cut then buf else AfterLine(buf)
  }

  /** Every event of a later line is strictly newer than every event of an earlier one. */
  ghost predicate EachLineNewer(q: Request, lines: seq<Bytes>) {
    forall i, j :: 0 <= i < j < |lines| ==> Before(SortTime(q), LineEvents(q, lines[i]), LineEvents(q, lines[j]))
  }

  ghost predicate NoLineOlder(q: Request, lines: seq<Bytes>) {
    forall i, j :: 0 <= i < j < |lines| ==> NotAfter(SortTime(q), LineEvents(q, lines[i]), LineEvents(q, lines[j]))
  }

  /** events comes from the last lines only, but enough of them to fill the limit. */
  ghost predicate FromTail(q: Request, lines: seq<Bytes>, k: nat, limit: nat, events: seq<Event>)
    requires k <= |lines|
  {
    && events == Take(Sort(SortTime(q), Events(q, lines[k..])), limit)
    && (k == 0 || |Events(q, lines[k..])| >= limit)
  }

  // ---- a byte window shows a suffix of the lines ----

  /** A window reaching one byte to the left, less its first line, is a suffix of the log's lines. */
  lemma WindowShowsLastLines(file: Bytes, start: nat) returns (k: nat)
    requires Scannable(file, LINE_CAP) && start <= |file|
    ensures k <= |Scan(file, LINE_CAP)|
    ensures Scan(DropPartialFirstLine(file[start..], true), LINE_CAP) == Scan(file, LINE_CAP)[k..]
  {
    hide Scan, Scannable;
    var buf := file[start..];
    var n := LineEnd(buf);
    if n == |buf| {
      k := |Scan(file, LINE_CAP)|;
      ScanNothing(LINE_CAP);
    } else {
      var p := start + n + 1;
      assert file[p - 1] == buf[n] == NEWLINE;
      assert AfterLine(buf) == file[p..];
      ScanSplits(file, p, LINE_CAP);
      k := |Scan(file[..p], LINE_CAP)|;
    }
  }

  // ---- a suffix of the lines is enough ----

  lemma SuffixIsBefore(q: Request, lines: seq<Bytes>, k: nat)
    requires k <= |lines| && EachLineNewer(q, lines)
    ensures Before(SortTime(q), Events(q, lines[..k]), Events(q, lines[k..]))
  {
    var older, newer := Events(q, lines[..k]), Events(q, lines[k..]);
    forall i, j | 0 <= i < |older| && 0 <= j < |newer| ensures SortTime(q)(older[i]) < SortTime(q)(newer[j]) {
      var a := EventComesFromLine(q, lines[..k], older[i]);
      var b := EventComesFromLine(q, lines[k..], newer[j]);
      assert Before(SortTime(q), LineEvents(q, lines[a]), LineEvents(q, lines[k + b]));
    }
  }

  lemma SuffixIsNotBefore(q: Request, lines: seq<Bytes>, k: nat)
    requires k <= |lines| && NoLineOlder(q, lines)
    ensures NotAfter(SortTime(q), Events(q, lines[..k]), Events(q, lines[k..]))
  {
    var older, newer := Events(q, lines[..k]), Events(q, lines[k..]);
    forall i, j | 0 <= i < |older| && 0 <= j < |newer| ensures SortTime(q)(older[i]) <= SortTime(q)(newer[j]) {
      var a := EventComesFromLine(q, lines[..k], older[i]);
      var b := EventComesFromLine(q, lines[k..], newer[j]);
      assert NotAfter(SortTime(q), LineEvents(q, lines[a]), LineEvents(q, lines[k + b]));
    }
  }

  lemma EventsSplit(q: Request, lines: seq<Bytes>, k: nat)
    requires k <= |lines|
    ensures Events(q, lines) == Events(q, lines[..k]) + Events(q, lines[k..])
    ensures k == 0 ==> Events(q, lines[..k]) == []
  {
    assert lines == lines[..k] + lines[k..];
    EventsDistribute(q, lines[..k], lines[k..]);
  }

  lemma SortKeepsLength<T>(time: T -> int, s: seq<T>)
    ensures |Sort(time, s)| == |s|
  {
    SortIsStable(time, s);
    assert |multiset(Sort(time, s))| == |multiset(s)|;
  }

  /** When lines come in strictly increasing time, the tail gives exactly the history. */
  lemma TailIsHistory(q: Request, lines: seq<Bytes>, k: nat, limit: nat, events: seq<Event>)
    requires k <= |lines| && FromTail(q, lines, k, limit, events) && EachLineNewer(q, lines)
    ensures events == Take(Sort(SortTime(q), Events(q, lines)), limit)
  {
    hide Sort, Events, Before, SortTime, EachLineNewer;
    var older, newer := Events(q, lines[..k]), Events(q, lines[k..]);
    EventsSplit(q, lines, k);
    SuffixIsBefore(q, lines, k);
    SortSplits(SortTime(q), older, newer);
    SortKeepsLength(SortTime(q), newer);
    SortKeepsLength(SortTime(q), older);
  }

  /** When lines may share an instant, the instants still agree. */
  lemma TailHasHistoryTimes(q: Request, lines: seq<Bytes>, k: nat, limit: nat, events: seq<Event>)
    requires k <= |lines| && FromTail(q, lines, k, limit, events) && NoLineOlder(q, lines)
    ensures SameTimes(SortTime(q), events, Take(Sort(SortTime(q), Events(q, lines)), limit))
  {
    hide Sort, Events, NotAfter, SortTime, NoLineOlder;
    var older, newer := Events(q, lines[..k]), Events(q, lines[k..]);
    EventsSplit(q, lines, k);
    SuffixIsNotBefore(q, lines, k);
    TimesSplit(SortTime(q), older, newer);
    SortKeepsLength(SortTime(q), newer);
    SortKeepsLength(SortTime(q), older);
  }

  /** In any order of times nothing is hidden: the answer is as long as the whole log's, and drawn from it. */
  lemma TailHidesNothing(q: Request, lines: seq<Bytes>, k: nat, limit: nat, events: seq<Event>)
    requires k <= |lines| && FromTail(q, lines, k, limit, events)
    ensures |events| == if |Events(q, lines)| < limit then |Events(q, lines)| else limit
    ensures forall e :: e in events ==> e in Events(q, lines) && q.vis.Keep(e.project)
    ensures q.vis.bound || q.vis.project != "" ==>
              forall e :: e in events ==> e.project == "" || e.project == q.vis.project
  {
    hide Sort, Events, SortTime;
    var newer := Events(q, lines[k..]);
    EventsSplit(q, lines, k);
    SortKeepsLength(SortTime(q), newer);
    HistoryIsVisible(q, lines[k..], limit);
    forall e | e in events ensures e in Events(q, lines) {
      var i :| 0 <= i < |events| && events[i] == e;
      SortedFrom(SortTime(q), newer, i);
    }
  }

  /** What a window shows that starts in the line at k. */
  lemma WindowInLine(file: Bytes, k: nat, start: nat)
    requires k <= |file| && k <= start <= k + LineEnd(file[k..]) < |file|
    ensures DropPartialFirstLine(file[start..], true) == file[k + LineEnd(file[k..]) + 1..]
  {
    hide LineEnd, AfterLine;
    var n := LineEnd(file[k..]);
    LineEndOfSuffix(file[k..], start - k);
    assert file[k..][start - k..] == file[start..];
    AfterFirstLine(file[start..]);
    assert file[start..][k + n - start + 1..] == file[k + n + 1..];
  }

  /**
   * A line of the scanner's cap or more, wherever it starts, hides everything
   * from there on from a whole read, but what follows it not from a window that
   * starts in that line.
   */
  lemma OverlongLineHidesTheRest(q: Request, file: Bytes, k: nat, start: nat, limit: nat)
    requires k <= |file| && LineStart(file, k) && LINE_CAP <= LineEnd(file[k..])
    ensures History(q, file, limit) == History(q, file[..k], limit)
    ensures k <= start <= k + LineEnd(file[k..]) < |file| ==>
              History(q, DropPartialFirstLine(file[start..], true), limit) ==
              History(q, file[k + LineEnd(file[k..]) + 1..], limit)
  {
    hide Sort, Events, LineEvents, Scan, LineEnd, DropPartialFirstLine, SortTime;
    ScanStopsAt(file, k, LINE_CAP);
    if k <= start <= k + LineEnd(file[k..]) < |file| {
      WindowInLine(file, k, start);
    }
  }

  // ---- the reader ----

  /** The most bytes parsed over all windows. */
  function ParseCost(size: nat, window: nat): nat
    requires window >= 1
    decreases size - window
  {
    if window >= size then size else window + ParseCost(size, 2 * window)
  }

  /** Parsing is repeated on every doubling, but stays within three sizes of the log. */
  lemma {:induction false} ParseCostIsLinear(size: nat, window: nat)
    requires window >= 1
    ensures ParseCost(size, window) + window <= if window >= size then size + window else 3 * size
    decreases size - window
  {
    if window < size {
      ParseCostIsLinear(size, 2 * window);
    }
  }

  /** Two sizes are not always enough. */
  lemma ParseCostExceedsTwoSizes()
    ensures ParseCost(5, 1) == 12
  {
    assert ParseCost(5, 4) == 4 + ParseCost(5, 8);
  }

  /**
   * Opens the log when it holds file; read counts the bytes read, parsed those given to the parser.
   * tail is always exactly the end of the file from have on, so no byte is read twice.
   */
  method ReadAlertsTailWindow(q: Request, file: Bytes, limit: nat, initial: int)
    returns (events: seq<Event>, read: nat, ghost parsed: nat)
    ensures Scannable(file, LINE_CAP) ==>
              && |events| == (if |Visible(q, file)| < limit then |Visible(q, file)| else limit)
              && forall e :: e in events ==> e in Visible(q, file) && q.vis.Keep(e.project)
    ensures q.vis.bound ==> forall e :: e in events ==> e.project == "" || e.project == q.vis.project
    ensures !q.vis.bound && q.vis.project != "" ==>
              forall e :: e in events ==> e.project == "" || e.project == q.vis.project
    ensures Scannable(file, LINE_CAP) ==> Answers(q, CarriedBy(q.codec, Scan(file, LINE_CAP)), limit, events)
    ensures Scannable(file, LINE_CAP) && LinesInOrder(q, Scan(file, LINE_CAP)) ==>
              AnswersNewest(q, CarriedBy(q.codec, Scan(file, LINE_CAP)), limit, events)
    ensures Scannable(file, LINE_CAP) && EachLineNewer(q, Scan(file, LINE_CAP)) ==> events == History(q, file, limit)
    ensures Scannable(file, LINE_CAP) && NoLineOlder(q, Scan(file, LINE_CAP)) ==>
              SameTimes(SortTime(q), events, History(q, file, limit))
    ensures read <= |file| && (|events| < limit ==> read == |file| && events == History(q, file, limit))
    ensures parsed <= 3 * |file|
  {
    hide Scan, Scannable, Sort, Events, EachLineNewer, NoLineOlder, AfterLine, SameTimes, SortTime, Answers,
      AnswersNewest, CarriedBy, LinesInOrder;
    var size := |file|;
    var window: nat := if initial < 1 then 1 else initial;
    read, parsed := 0, 0;
    var tail: Bytes, have := [], size;
    ParseCostIsLinear(size, window);
    ghost var first := window;
    while true
      invariant window >= 1 && 0 <= have <= size && (have + window >= size)
      invariant tail == file[have..] && read == size - have
      invariant parsed + ParseCost(size, window) <= ParseCost(size, first)
      decreases size - window
    {
      var whole := window >= size;
      if whole {
        window := size;
      }
      var off := size - window;
      var start := if off > 0 then off - 1 else off;
      if start < have {
        var chunk := file[start..have];
        read := read + |chunk|;
        tail := chunk + tail;
        have := start;
      }
      assert tail == file[start..];
      var data := DropPartialFirstLine(tail, off > 0);
      parsed := parsed + |data|;
      events := ParseAlertsLog(q, data, limit);
      if whole || |events| >= limit {
        assert whole ==> data == file;
        TailAnswers(q, file, start, off > 0, limit, events);
        TailAnswersFor(q, file, start, off > 0, limit, events);
        HistoryIsVisible(q, Scan(data, LINE_CAP), limit);
        return;
      }
      window := window * 2;
    }
  }

  /** What the window's answer means for the alerts of the whole log. */
  lemma TailAnswersFor(q: Request, file: Bytes, start: nat, cut: bool, limit: nat, events: seq<Event>)
    requires start <= |file| && (!cut ==> start == 0)
    requires events == History(q, DropPartialFirstLine(file[start..], cut), limit)
    requires cut ==> |events| >= limit
    ensures Scannable(file, LINE_CAP) ==> Answers(q, CarriedBy(q.codec, Scan(file, LINE_CAP)), limit, events)
    ensures Scannable(file, LINE_CAP) && LinesInOrder(q, Scan(file, LINE_CAP)) ==>
              AnswersNewest(q, CarriedBy(q.codec, Scan(file, LINE_CAP)), limit, events)
  {
    hide Scan, Scannable, Sort, Events, AfterLine, SortTime, AnswersFrom, LeavesOlder, CarriedBy, LinesInOrder,
      Permitted, Normalized;
    if Scannable(file, LINE_CAP) {
      var lines := Scan(file, LINE_CAP);
      var k := 0;
      if cut {
        k := WindowShowsLastLines(file, start);
      } else {
        assert file[0..] == file && lines[0..] == lines;
      }
      SortKeepsLength(SortTime(q), Events(q, lines[k..]));
      EventsArePermitted(q, lines[k..]);
      MapIs(Normalized(q), Permitted(q.vis, CarriedBy(q.codec, lines[k..])));
      AnswerIsOrigin(q, lines[k..], limit);
      TakenAnswers(q, lines, k, limit);
      if LinesInOrder(q, lines) {
        TakenLeavesOlder(q, lines, k, limit);
      }
      assert AnswersFrom(q, CarriedBy(q.codec, lines), limit, events, Origin(q, lines[k..], limit));
    }
  }

  /** What the window's answer means for the whole log. */
  lemma TailAnswers(q: Request, file: Bytes, start: nat, cut: bool, limit: nat, events: seq<Event>)
    requires start <= |file| && (!cut ==> start == 0)
    requires events == History(q, DropPartialFirstLine(file[start..], cut), limit)
    requires cut ==> |events| >= limit
    ensures Scannable(file, LINE_CAP) ==>
              && |events| == (if |Visible(q, file)| < limit then |Visible(q, file)| else limit)
              && forall e :: e in events ==> e in Visible(q, file) && q.vis.Keep(e.project)
    ensures Scannable(file, LINE_CAP) && EachLineNewer(q, Scan(file, LINE_CAP)) ==> events == History(q, file, limit)
    ensures Scannable(file, LINE_CAP) && NoLineOlder(q, Scan(file, LINE_CAP)) ==>
              SameTimes(SortTime(q), events, History(q, file, limit))
  {
    hide Scan, Scannable, Sort, Events, EachLineNewer, NoLineOlder, AfterLine, SameTimes, SortTime;
    if Scannable(file, LINE_CAP) {
      var lines := Scan(file, LINE_CAP);
      var k := 0;
      if cut {
        k := WindowShowsLastLines(file, start);
      } else {
        assert file[0..] == file && lines[0..] == lines;
      }
      SortKeepsLength(SortTime(q), Events(q, lines[k..]));
      assert FromTail(q, lines, k, limit, events);
      TailHidesNothing(q, lines, k, limit, events);
      if EachLineNewer(q, lines) {
        TailIsHistory(q, lines, k, limit, events);
      }
      if NoLineOlder(q, lines) {
        TailHasHistoryTimes(q, lines, k, limit, events);
      }
    }
  }
}

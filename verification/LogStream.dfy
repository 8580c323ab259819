/**
 * Streaming a server's log: the last lines of what exists, in chunks, and then
 * whatever is appended.
 */
module LogStream {
  import opened Wrappers
  import opened Lines

  const MAX_TAIL_LINES: nat := 10000

  /** The scanner's cap while tailing, 1 MiB. */
  const TAIL_LINE_CAP: nat := 1024 * 1024

  function Flat(chunks: seq<Bytes>): Bytes {
    if chunks == [] then [] else Flat(chunks[..|chunks| - 1]) + chunks[|chunks| - 1]
  }

  /** Lines as they are emitted, each with its newline. */
  function Render(lines: seq<Bytes>): Bytes {
    if lines == [] then [] else Render(lines[..|lines| - 1]) + lines[|lines| - 1] + [NEWLINE]
  }

  /** As many lines as asked for, if there are so many, and nothing comes behind them. */
  function Last(lines: seq<Bytes>, n: nat): (last: seq<Bytes>)
    ensures |last| == if |lines| < n then |lines| else n
    ensures lines == lines[..|lines| - |last|] + last
  {
    if |lines| <= n then lines else lines[|lines| - n..]
  }

  /** All lines of all sources, oldest source first. */
  function AllLines(sources: seq<Bytes>): seq<Bytes> {
    if sources == [] then [] else AllLines(sources[..|sources| - 1]) + Scan(sources[|sources| - 1], TAIL_LINE_CAP)
  }

  lemma RenderNext(lines: seq<Bytes>, line: Bytes)
    ensures Render(lines + [line]) == Render(lines) + line + [NEWLINE]
  {
    assert (lines + [line])[..|lines|] == lines;
  }

  lemma FlatNext(chunks: seq<Bytes>, c: Bytes)
    ensures Flat(chunks + [c]) == Flat(chunks) + c
  {
    assert (chunks + [c])[..|chunks|] == chunks;
  }

  // ---- what the chunks, the lines and the tail are ----

  /** Chunks lie one behind the other. */
  lemma {:induction false} FlatSplits(a: seq<Bytes>, b: seq<Bytes>, c: Bytes)
    ensures Flat(a + b) == Flat(a) + Flat(b)
    ensures Flat([c]) == c
  {
    FlatNext([], c);
    assert [] + [c] == [c];
    if b == [] {
      assert a + b == a;
    } else {
      var n := |b| - 1;
      FlatSplits(a, b[..n], c);
      assert a + b == (a + b[..n]) + [b[n]];
      FlatNext(a + b[..n], b[n]);
    }
  }

  /** Lines lie one behind the other, each followed by one newline byte. */
  lemma {:induction false} RenderSplits(a: seq<Bytes>, b: seq<Bytes>, line: Bytes)
    ensures Render(a + b) == Render(a) + Render(b)
    ensures Render([line]) == line + [10]
  {
    RenderNext([], line);
    assert [] + [line] == [line];
    if b == [] {
      assert a + b == a;
    } else {
      var n := |b| - 1;
      RenderSplits(a, b[..n], line);
      assert a + b == (a + b[..n]) + [b[n]];
      RenderNext(a + b[..n], b[n]);
    }
  }

  /** The lines of the sources, in the order of the sources, and within each in its own. */
  lemma {:induction false} AllLinesSplit(a: seq<Bytes>, b: seq<Bytes>, source: Bytes)
    ensures AllLines(a + b) == AllLines(a) + AllLines(b)
    ensures AllLines([source]) == Scan(source, 1024 * 1024)
  {
    hide Scan;
    AllLinesNext([source], 0);
    if b == [] {
      assert a + b == a;
    } else {
      var n := |b| - 1;
      AllLinesSplit(a, b[..n], source);
      assert a + b == (a + b[..n]) + [b[n]];
      assert (a + b)[..|a| + n] == a + b[..n];
    }
  }

  /** The lines of one source go through the ring; None reports a line that is too long. */
  method ReadLines(data: Bytes, ghost seen: seq<Bytes>, ring: seq<Bytes>, tailLines: nat)
    returns (r: Option<seq<Bytes>>)
    requires tailLines > 0 && ring == Last(seen, tailLines)
    ensures r.None? <==> TooLong(data, TAIL_LINE_CAP)
    ensures r.Some? ==> r.value == Last(seen + Scan(data, TAIL_LINE_CAP), tailLines)
  {
    hide Last, Scan, TooLong, DropCR, AfterLine, LineEnd;
    var rest, kept := data, ring;
    ghost var before := seen;
    while rest != []
      invariant TooLong(rest, TAIL_LINE_CAP) <==> TooLong(data, TAIL_LINE_CAP)
      invariant before + Scan(rest, TAIL_LINE_CAP) == seen + Scan(data, TAIL_LINE_CAP)
      invariant kept == Last(before, tailLines)
      decreases |rest|
    {
      var n := LineEnd(rest);
      ScanNext(rest);
      if n >= TAIL_LINE_CAP {
        return None;
      }
      var line := DropCR(rest[..n]);
      RingNext(before, line, tailLines);
      ghost var behind := Scan(AfterLine(rest), TAIL_LINE_CAP);
      assert (before + [line]) + behind == before + ([line] + behind);
      kept := if |kept| == tailLines then kept[1..] + [line] else kept + [line];
      before := before + [line];
      rest := AfterLine(rest);
    }
    NothingToScan();
    assert before + [] == before;
    r := Some(kept);
  }

  lemma NothingToScan()
    ensures Scan([], TAIL_LINE_CAP) == [] && !TooLong([], TAIL_LINE_CAP)
  {
  }

  lemma ScanNext(data: Bytes)
    requires data != []
    ensures LineEnd(data) >= TAIL_LINE_CAP ==> TooLong(data, TAIL_LINE_CAP)
    ensures LineEnd(data) < TAIL_LINE_CAP ==>
              && (TooLong(data, TAIL_LINE_CAP) <==> TooLong(AfterLine(data), TAIL_LINE_CAP))
              && Scan(data, TAIL_LINE_CAP) == [DropCR(data[..LineEnd(data)])] + Scan(AfterLine(data), TAIL_LINE_CAP)
  {
  }

  /** The ring drops its oldest line when it is full. */
  lemma RingNext(lines: seq<Bytes>, line: Bytes, n: nat)
    requires n > 0
    ensures Last(lines + [line], n)
         == if |Last(lines, n)| == n then Last(lines, n)[1..] + [line] else Last(lines, n) + [line]
  {
  }

  /**
   * The tail of all sources: the concatenated chunks are the last
   * min(tailLines, 10000, all) lines, whatever the size of a chunk.
   */
  method Tail(sources: seq<Bytes>, tailLines: nat, chunkSize: nat) returns (r: Option<seq<Bytes>>)
    requires tailLines > 0
    ensures r.None? <==> exists i :: 0 <= i < |sources| && TooLong(sources[i], 1024 * 1024)
    ensures r.Some? ==>
              var n := if tailLines > 10000 then 10000 else tailLines;
              Flat(r.value) == Render(Last(AllLines(sources), n))
    ensures r.Some? ==> forall i :: 0 <= i < |r.value| - 1 ==> |r.value[i]| >= chunkSize
  {
    hide TooLong, Scan;
    var n := if tailLines > MAX_TAIL_LINES then MAX_TAIL_LINES else tailLines;
    var ring: seq<Bytes> := [];
    for i := 0 to |sources|
      invariant ring == Last(AllLines(sources[..i]), n)
      invariant forall j :: 0 <= j < i ==> !TooLong(sources[j], TAIL_LINE_CAP)
    {
      AllLinesNext(sources, i);
      var read := ReadLines(sources[i], AllLines(sources[..i]), ring, n);
      if read.None? {
        return None;
      }
      ring := read.value;
    }
    assert sources[..|sources|] == sources;
    var chunks := EmitLines(ring, chunkSize);
    r := Some(chunks);
  }

  lemma AllLinesNext(sources: seq<Bytes>, i: nat)
    requires i < |sources|
    ensures AllLines(sources[..i + 1]) == AllLines(sources[..i]) + Scan(sources[i], TAIL_LINE_CAP)
  {
    assert sources[..i + 1][..i] == sources[..i];
  }

  /** A chunk goes out as soon as it has reached the size. */
  method EmitLines(ring: seq<Bytes>, chunkSize: nat) returns (chunks: seq<Bytes>)
    ensures Flat(chunks) == Render(ring)
    ensures forall i :: 0 <= i < |chunks| - 1 ==> |chunks[i]| >= chunkSize
  {
    hide Flat, Render;
    chunks := [];
    var buf: Bytes := [];
    EmptyIsEmpty();
    for i := 0 to |ring|
      invariant Flat(chunks) + buf == Render(ring[..i])
      invariant forall j :: 0 <= j < |chunks| ==> |chunks[j]| >= chunkSize
    {
      RenderNext(ring[..i], ring[i]);
      assert ring[..i + 1] == ring[..i] + [ring[i]];
      ghost var out := Flat(chunks);
      assert out + (buf + ring[i] + [NEWLINE]) == (out + buf) + ring[i] + [NEWLINE];
      buf := buf + ring[i] + [NEWLINE];
      if |buf| >= chunkSize {
        FlatNext(chunks, buf);
        chunks := chunks + [buf];
        buf := [];
        assert Flat(chunks) + [] == Flat(chunks);
      }
    }
    assert ring[..|ring|] == ring;
    if buf != [] {
      FlatNext(chunks, buf);
      chunks := chunks + [buf];
    } else {
      assert Flat(chunks) + [] == Flat(chunks);
    }
  }

  lemma EmptyIsEmpty()
    ensures Flat([]) == [] && Render([]) == []
    ensures Flat([]) + [] == Render([])
  {
  }

  /** A whole file in chunks; returns how far it got, which is where following starts. */
  method StreamFile(content: Bytes, chunkSize: nat) returns (chunks: seq<Bytes>, n: nat)
    requires chunkSize > 0
    ensures Flat(chunks) == content && n == |content|
  {
    hide Flat;
    chunks, n := [], 0;
    EmptyIsEmpty();
    while n < |content|
      invariant 0 <= n <= |content| && Flat(chunks) == content[..n]
    {
      var m := if |content| - n < chunkSize then |content| - n else chunkSize;
      FlatNext(chunks, content[n..n + m]);
      assert content[..n] + content[n..n + m] == content[..n + m];
      chunks := chunks + [content[n..n + m]];
      n := n + m;
    }
    assert content[..n] == content;
  }

  // ---- following ----

  /** One poll: what Stat sees, and what the file holds at each of the reads that follow. */
  datatype Poll = Poll(stat: Option<Bytes>, got: seq<Bytes>)

  /** What the polls see, in order. */
  function Seen(polls: seq<Poll>): seq<Bytes> {
    if polls == [] then []
    else
      var p := polls[|polls| - 1];
      Seen(polls[..|polls| - 1]) + (if p.stat.Some? then [p.stat.value] + p.got else [])
  }

  /** Bytes are only ever added at the end. */
  ghost predicate AppendOnly(seen: seq<Bytes>) {
    forall i, j :: 0 <= i < j < |seen| ==> seen[i] <= seen[j]
  }

  function Newest(seen: seq<Bytes>): Bytes {
    if seen == [] then [] else seen[|seen| - 1]
  }

  function Start(offset: int): int {
    if offset < 0 then 0 else offset
  }

  /** Reads from the offset until the end of the file, which may move meanwhile. */
  method ReadOn(got: seq<Bytes>, ghost seen: seq<Bytes>, ghost from: nat, start: nat, chunkSize: nat,
                emitted: seq<Bytes>)
    returns (chunks: seq<Bytes>, offset: nat)
    requires chunkSize > 0 && seen != [] && AppendOnly(seen + got) && from <= start <= |Newest(seen)|
    requires Flat(emitted) == Newest(seen)[from..start]
    ensures from <= offset <= |Newest(seen + got)|
    ensures Flat(chunks) == Newest(seen + got)[from..offset]
    ensures start <= offset && ReadFar(got, start, offset, chunkSize)
  {
    hide Flat;
    chunks, offset := emitted, start;
    ghost var now := seen;
    assert seen + got[..0] == seen;
    for i := 0 to |got|
      invariant now == seen + got[..i]
      invariant start <= offset && ReadFar(got[..i], start, offset, chunkSize)
      invariant from <= offset <= |Newest(now)|
      invariant Flat(chunks) == Newest(now)[from..offset]
    {
      ghost var content := got[i];
      assert Newest(now) <= content by {
        NewestIsPrefix(seen, got, i);
      }
      assert content[from..offset] == Newest(now)[from..offset];
      now := now + [got[i]];
      assert now == seen + got[..i + 1];
      if offset >= |got[i]| {
        EndsHere(seen, got, i, from, offset);
        assert ReachedEnd(got, i, offset);
        return;                                        // end of file: the next poll goes on
      }
      var m := if |got[i]| - offset < chunkSize then |got[i]| - offset else chunkSize;
      FlatNext(chunks, got[i][offset..offset + m]);
      assert got[i][from..offset] + got[i][offset..offset + m] == got[i][from..offset + m];
      chunks := chunks + [got[i][offset..offset + m]];
      ReadFarther(got, i, start, offset, m, chunkSize);
      offset := offset + m;
    }
    assert got[..|got|] == got;
  }

  /** The cursor stands where the file ended at read i, or behind that. */
  ghost predicate ReachedEnd(got: seq<Bytes>, i: nat, offset: nat) {
    i < |got| && |got[i]| <= offset
  }

  /** Some read came to the end of the file, or every one brought a full chunk. */
  ghost predicate ReadFar(got: seq<Bytes>, start: nat, offset: nat, chunkSize: nat) {
    (exists i :: ReachedEnd(got, i, offset)) || offset == start + |got| * chunkSize
  }

  lemma ReadFarther(got: seq<Bytes>, i: nat, start: nat, offset: nat, m: nat, chunkSize: nat)
    requires i < |got| && offset < |got[i]| && ReadFar(got[..i], start, offset, chunkSize)
    requires m == if |got[i]| - offset < chunkSize then |got[i]| - offset else chunkSize
    ensures ReadFar(got[..i + 1], start, offset + m, chunkSize)
  {
    if j: nat :| ReachedEnd(got[..i], j, offset) {
      assert got[..i][j] == got[..i + 1][j];
      assert ReachedEnd(got[..i + 1], j, offset + m);
    } else if m < chunkSize {
      assert got[..i + 1][i] == got[i];
      assert ReachedEnd(got[..i + 1], i, offset + m);
    } else {
      assert |got[..i + 1]| * chunkSize == i * chunkSize + chunkSize;
    }
  }

  /** The poll has reads enough to bring all that its Stat saw. */
  predicate ReadsThrough(p: Poll, chunkSize: nat) {
    p.stat.Some? && |p.stat.value| <= |p.got| * chunkSize
  }

  lemma ReadThrough(p: Poll, seen: seq<Bytes>, start: nat, offset: nat, chunkSize: nat)
    requires ReadsThrough(p, chunkSize) && AppendOnly((seen + [p.stat.value]) + p.got)
    requires start <= offset && ReadFar(p.got, start, offset, chunkSize)
    ensures |p.stat.value| <= offset
  {
    if i: nat :| ReachedEnd(p.got, i, offset) {
      var all := (seen + [p.stat.value]) + p.got;
      assert all[|seen|] == p.stat.value && all[|seen| + 1 + i] == p.got[i];
    }
  }

  lemma NewestIsPrefix(seen: seq<Bytes>, got: seq<Bytes>, i: nat)
    requires seen != [] && i < |got| && AppendOnly(seen + got)
    ensures Newest(seen + got[..i]) <= got[i] <= Newest(seen + got)
  {
    var all := seen + got;
    assert all[|seen| + i] == got[i];
    assert Newest(seen + got[..i]) == all[|seen| + i - 1];
    assert Newest(all) == all[|all| - 1];
  }

  lemma EndsHere(seen: seq<Bytes>, got: seq<Bytes>, i: nat, from: nat, offset: nat)
    requires seen != [] && i < |got| && AppendOnly(seen + got) && from <= offset <= |got[i]|
    ensures offset <= |Newest(seen + got)| && got[i][from..offset] == Newest(seen + got)[from..offset]
  {
    NewestIsPrefix(seen, got, i);
  }

  /** The cursor stands within what has been seen, and what was emitted is what lies before it. */
  ghost predicate CaughtUpTo(seen: seq<Bytes>, from: nat, offset: int, chunks: seq<Bytes>) {
    from <= Start(offset) <= |Newest(seen)| && Flat(chunks) == Newest(seen)[from..Start(offset)]
  }

  /** One poll that finds the file. */
  method PollOnce(p: Poll, ghost seen: seq<Bytes>, ghost all: seq<Bytes>, ghost from: nat, start: int,
                  chunkSize: nat, emitted: seq<Bytes>)
    returns (chunks: seq<Bytes>, offset: int)
    requires chunkSize > 0 && p.stat.Some?
    requires AppendOnly(seen + ([p.stat.value] + p.got)) && seen + ([p.stat.value] + p.got) <= all
    requires from <= |all[0]|
    requires if seen == [] then emitted == [] && from == Start(start) else CaughtUpTo(seen, from, start, emitted)
    ensures CaughtUpTo(seen + ([p.stat.value] + p.got), from, offset, chunks)
    ensures Start(start) <= offset && (ReadsThrough(p, chunkSize) ==> |p.stat.value| <= offset)
  {
    hide Flat, AppendOnly, Newest;
    chunks, offset := emitted, start;
    var content := p.stat.value;
    StatGrows(seen, p, all, from);
    EmptyIsEmpty();
    if offset < 0 || |content| < offset {
      offset := 0;
    }
    assert Flat(chunks) == content[from..offset];
    assert (seen + [content]) + p.got == seen + ([content] + p.got);
    if |content| == offset {
      EndsAtStat(seen, p, from, offset);
    } else {
      NewestAtStat(seen, content);
      ghost var at: nat := offset;
      chunks, offset := ReadOn(p.got, seen + [content], from, offset, chunkSize, chunks);
      if ReadsThrough(p, chunkSize) {
        ReadThrough(p, seen, at, offset, chunkSize);
      }
    }
  }

  lemma NewestAtStat(seen: seq<Bytes>, content: Bytes)
    ensures Newest(seen + [content]) == content
  {
  }

  /**
   * Polling an append-only file: everything from the starting offset on is
   * emitted once, in order, up to where the cursor stands; and that is behind all
   * that any poll with reads enough has seen.
   */
  method FollowFile(start: int, polls: seq<Poll>, chunkSize: nat) returns (chunks: seq<Bytes>, offset: int)
    requires chunkSize > 0 && AppendOnly(Seen(polls))
    requires Seen(polls) != [] ==> Start(start) <= |Seen(polls)[0]|
    ensures Seen(polls) == [] ==> chunks == [] && offset == start
    ensures Seen(polls) != [] ==>
              Start(start) <= Start(offset) <= |Newest(Seen(polls))|
              && Flat(chunks) == Newest(Seen(polls))[Start(start)..Start(offset)]
    ensures forall k :: 0 <= k < |polls| && ReadsThrough(polls[k], chunkSize) ==>
              |polls[k].stat.value| <= Start(offset)
  {
    hide Flat, AppendOnly, Newest, Seen, ReadsThrough;
    chunks, offset := [], start;
    SeenNothing();
    for k := 0 to |polls|
      invariant if Seen(polls[..k]) == [] then chunks == [] && offset == start
                else CaughtUpTo(Seen(polls[..k]), Start(start), offset, chunks)
      invariant forall j :: 0 <= j < k && ReadsThrough(polls[j], chunkSize) ==>
                  polls[j].stat.Some? && |polls[j].stat.value| <= Start(offset)
    {
      SeenNext(polls, k);
      if polls[k].stat.Some? {
        chunks, offset := PollOnce(polls[k], Seen(polls[..k]), Seen(polls), Start(start), offset, chunkSize, chunks);
      } else {
        assert Seen(polls[..k]) + [] == Seen(polls[..k]);
        NotRead(polls[k], chunkSize);
      }
    }
    assert polls[..|polls|] == polls;
  }

  lemma NotRead(p: Poll, chunkSize: nat)
    ensures ReadsThrough(p, chunkSize) ==> p.stat.Some?
  {
  }

  lemma SeenNothing()
    ensures Seen([]) == []
  {
  }

  lemma {:induction false} SeenNext(polls: seq<Poll>, k: nat)
    requires k < |polls| && AppendOnly(Seen(polls))
    ensures var p := polls[k];
            Seen(polls[..k + 1]) == Seen(polls[..k]) + (if p.stat.Some? then [p.stat.value] + p.got else [])
    ensures Seen(polls[..k + 1]) <= Seen(polls) && AppendOnly(Seen(polls[..k + 1]))
  {
    assert polls[..k + 1][..k] == polls[..k];
    SeenGrows(polls, k + 1);
  }

  lemma {:induction false} SeenGrows(polls: seq<Poll>, k: nat)
    requires k <= |polls|
    ensures Seen(polls[..k]) <= Seen(polls)
  {
    if k < |polls| {
      SeenGrows(polls[..|polls| - 1], k);
      assert polls[..|polls| - 1][..k] == polls[..k];
    } else {
      assert polls[..k] == polls;
    }
  }

  lemma StatGrows(seen: seq<Bytes>, p: Poll, all: seq<Bytes>, first: nat)
    requires p.stat.Some? && AppendOnly(seen + ([p.stat.value] + p.got)) && seen + ([p.stat.value] + p.got) <= all
    requires all != [] ==> first <= |all[0]|
    ensures AppendOnly((seen + [p.stat.value]) + p.got)
    ensures seen != [] ==> Newest(seen) <= p.stat.value
    ensures first <= |p.stat.value|
  {
    var here := seen + ([p.stat.value] + p.got);
    assert (seen + [p.stat.value]) + p.got == here;
    assert here[|seen|] == p.stat.value && here[0] == all[0];
    assert seen != [] ==> here[|seen| - 1] == Newest(seen);
    if seen != [] {
      assert here[0] <= here[|seen|];
    }
  }

  lemma EndsAtStat(seen: seq<Bytes>, p: Poll, first: nat, offset: nat)
    requires p.stat.Some? && AppendOnly((seen + [p.stat.value]) + p.got) && first <= offset == |p.stat.value|
    ensures var all := seen + ([p.stat.value] + p.got);
            offset <= |Newest(all)| && p.stat.value[first..offset] == Newest(all)[first..offset]
  {
    var all := (seen + [p.stat.value]) + p.got;
    assert all == seen + ([p.stat.value] + p.got);
    assert all[|seen|] == p.stat.value && Newest(all) == all[|all| - 1];
  }

  // ---- from the tail to following ----

  /** What following emits continues what the tail has read exactly when nothing was appended in between. */
  lemma NothingIsLostIff(read: Bytes, stat: Bytes, now: Bytes, offset: nat)
    requires read <= stat <= now && |stat| <= offset <= |now|
    ensures now[|read|..offset] == stat[|read|..] + now[|stat|..offset]
    ensures now[|stat|..offset] == now[|read|..offset] <==> read == stat
  {
    assert stat[|read|..] == now[|read|..|stat|];
    if now[|stat|..offset] == now[|read|..offset] {
      assert |now[|stat|..offset]| == offset - |stat| && |now[|read|..offset]| == offset - |read|;
    }
  }

  lemma AppendedSince(read: Bytes, stat: Bytes, seen: seq<Bytes>)
    requires AppendOnly([read, stat] + seen)
    ensures read <= stat && AppendOnly(seen)
    ensures seen != [] ==> stat <= seen[0] && stat <= Newest(seen)
  {
    var all := [read, stat] + seen;
    assert all[0] == read && all[1] == stat;
    assert forall i :: 0 <= i < |seen| ==> all[i + 2] == seen[i];
  }

  /**
   * The tail and then following from the size that Stat reports: bytes appended
   * after the tail has read the active log and before the Stat are emitted by
   * neither, and nothing is lost if and only if there are none.
   */
  method TailAndFollow(sources: seq<Bytes>, stat: Bytes, polls: seq<Poll>, tailLines: nat, chunkSize: nat)
    returns (tail: Option<seq<Bytes>>, followed: seq<Bytes>, offset: int)
    requires tailLines > 0 && chunkSize > 0 && sources != []
    requires AppendOnly([sources[|sources| - 1], stat] + Seen(polls))
    ensures tail.None? <==> exists i :: 0 <= i < |sources| && TooLong(sources[i], 1024 * 1024)
    ensures tail.None? ==> followed == []
    ensures tail.Some? ==>
              var n := if tailLines > 10000 then 10000 else tailLines;
              Flat(tail.value) == Render(Last(AllLines(sources), n))
    ensures tail.Some? && Seen(polls) != [] ==>
              var read, now := sources[|sources| - 1], Newest(Seen(polls));
              && read <= stat && |stat| <= Start(offset) <= |now|
              && now[|read|..Start(offset)] == stat[|read|..] + Flat(followed)
              && (Flat(followed) == now[|read|..Start(offset)] <==> read == stat)
    ensures tail.Some? ==> forall k :: 0 <= k < |polls| && ReadsThrough(polls[k], chunkSize) ==>
              |polls[k].stat.value| <= Start(offset)
  {
    hide AppendOnly, Flat, TooLong, AllLines, Render, Seen;
    followed, offset := [], -1;
    tail := Tail(sources, tailLines, chunkSize);
    if tail.None? {
      return;
    }
    AppendedSince(sources[|sources| - 1], stat, Seen(polls));
    followed, offset := FollowFile(|stat|, polls, chunkSize);
    if Seen(polls) != [] {
      NothingIsLostIff(sources[|sources| - 1], stat, Newest(Seen(polls)), Start(offset));
    }
  }
}

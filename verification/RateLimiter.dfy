/**
 * The per-key token bucket of the matchmaking endpoints, over real arithmetic,
 * with its occasional sweep of idle buckets. Times are in seconds.
 */
module RateLimiter {
  const MINUTE: real := 60.0

  datatype Bucket = Bucket(tokens: real, last: real)

  datatype Limiter = Limiter(rate: real, burst: real, buckets: map<string, Bucket>, sweepAt: real)

  datatype Call = Call(key: string, now: real)

  function Min(a: real, b: real): real {
    if a <= b then a else b
  }

  /** What flows into a bucket in a span of time. */
  function Inflow(rate: real, span: real): real {
    rate * span
  }

  function New(rate: real, burst: real, now: real): Limiter {
    Limiter(rate, burst, map[], now + MINUTE)
  }

  function Sweep(l: Limiter, now: real): Limiter {
    if now > l.sweepAt
    then l.(buckets := map k | k in l.buckets && now - l.buckets[k].last <= MINUTE :: l.buckets[k],
            sweepAt := now + MINUTE)
    else l
  }

  /** What the bucket of key holds at a time not before its last use. */
  function Level(l: Limiter, key: string, now: real): real {
    if key in l.buckets
    then Min(l.burst, l.buckets[key].tokens + Inflow(l.rate, now - l.buckets[key].last))
    else l.burst
  }

  function Consume(l: Limiter, c: Call): Limiter {
    var level := Level(l, c.key, c.now);
    l.(buckets := l.buckets[c.key := Bucket(if level < 1.0 then level else level - 1.0, c.now)])
  }

  /** The limiter after a call; without sweeping it never forgets a bucket. */
  function Next(l: Limiter, c: Call, sweeping: bool): Limiter {
    Consume(if sweeping then Sweep(l, c.now) else l, c)
  }

  predicate Allows(l: Limiter, c: Call, sweeping: bool) {
    Level(if sweeping then Sweep(l, c.now) else l, c.key, c.now) >= 1.0
  }

  function Decisions(l: Limiter, calls: seq<Call>, sweeping: bool): seq<bool>
    decreases |calls|
  {
    if calls == [] then []
    else [Allows(l, calls[0], sweeping)] + Decisions(Next(l, calls[0], sweeping), calls[1..], sweeping)
  }

  /** How many of the calls for key are allowed. */
  function Count(l: Limiter, calls: seq<Call>, key: string, sweeping: bool): nat
    decreases |calls|
  {
    if calls == [] then 0
    else (if calls[0].key == key && Allows(l, calls[0], sweeping) then 1 else 0)
         + Count(Next(l, calls[0], sweeping), calls[1..], key, sweeping)
  }

  function After(l: Limiter, calls: seq<Call>, sweeping: bool): Limiter
    decreases |calls|
  {
    if calls == [] then l else After(Next(l, calls[0], sweeping), calls[1..], sweeping)
  }

  /** Time does not go backwards. */
  predicate Timely(start: real, calls: seq<Call>)
    decreases |calls|
  {
    calls == [] || (start <= calls[0].now && Timely(calls[0].now, calls[1..]))
  }

  /** Tokens stay between nothing and the burst. */
  ghost predicate Valid(l: Limiter, now: real) {
    && 0.0 <= l.rate && 0.0 <= l.burst
    && forall k :: k in l.buckets ==> 0.0 <= l.buckets[k].tokens <= l.burst && l.buckets[k].last <= now
  }

  /** An idle minute refills any bucket. */
  predicate RefillsInAMinute(l: Limiter) {
    l.burst <= Inflow(l.rate, MINUTE)
  }

  // ---- levels ----

  lemma InflowGrows(rate: real, a: real, b: real)
    requires 0.0 <= rate && a <= b
    ensures Inflow(rate, a) <= Inflow(rate, b)
  {
  }

  lemma InflowAdds(rate: real, a: real, b: real)
    ensures Inflow(rate, a + b) == Inflow(rate, a) + Inflow(rate, b)
    ensures Inflow(rate, 0.0) == 0.0
  {
  }

  /** A later level depends on the earlier one only. */
  lemma LevelFlows(l: Limiter, key: string, t: real, now: real)
    requires Valid(l, t) && t <= now
    ensures Level(l, key, now) == Min(l.burst, Level(l, key, t) + Inflow(l.rate, now - t))
    ensures 0.0 <= Level(l, key, t) <= Level(l, key, now) <= l.burst
  {
    hide Inflow;
    InflowAdds(l.rate, 0.0, 0.0);
    InflowGrows(l.rate, 0.0, now - t);
    if key in l.buckets {
      var b := l.buckets[key];
      InflowGrows(l.rate, 0.0, t - b.last);
      InflowAdds(l.rate, t - b.last, now - t);
      assert (t - b.last) + (now - t) == now - b.last;
    }
  }

  /** A swept bucket had refilled anyway. */
  lemma SweepKeepsLevel(l: Limiter, key: string, t: real, now: real)
    requires Valid(l, t) && t <= now && RefillsInAMinute(l)
    ensures Valid(Sweep(l, now), now) && Level(Sweep(l, now), key, now) == Level(l, key, now)
  {
    hide Inflow;
    if key in l.buckets && now - l.buckets[key].last > MINUTE {
      InflowGrows(l.rate, MINUTE, now - l.buckets[key].last);
    }
  }

  lemma ConsumeKeeps(l: Limiter, c: Call)
    requires Valid(l, c.now)
    ensures Valid(Consume(l, c), c.now)
    ensures forall k :: Level(Consume(l, c), k, c.now)
                     == if k == c.key && Level(l, k, c.now) >= 1.0 then Level(l, k, c.now) - 1.0 else Level(l, k, c.now)
  {
    hide Inflow;
    InflowAdds(l.rate, 0.0, 0.0);
    LevelFlows(l, c.key, c.now, c.now);
  }

  lemma ValidLater(l: Limiter, t: real, now: real)
    requires Valid(l, t) && t <= now
    ensures Valid(l, now) && Valid(Sweep(l, now), now)
  {
  }

  /** In every run, whatever the parameters, tokens stay within bounds. */
  lemma {:induction false} TokensStayInBounds(l: Limiter, calls: seq<Call>, sweeping: bool, t: real)
    requires Valid(l, t) && Timely(t, calls)
    ensures Valid(After(l, calls, sweeping), if calls == [] then t else calls[|calls| - 1].now)
    decreases |calls|
  {
    hide Valid;
    if calls != [] {
      var c := calls[0];
      ValidLater(l, t, c.now);
      var s := if sweeping then Sweep(l, c.now) else l;
      ConsumeKeeps(s, c);
      TokensStayInBounds(Consume(s, c), calls[1..], sweeping, c.now);
    }
  }

  /** The calls allowed for a key are paid for by what the bucket held and what has flowed in since. */
  lemma {:induction false} AllowedIsPaidFor(l: Limiter, calls: seq<Call>, key: string, sweeping: bool,
                                             t: real, end: real)
    requires Valid(l, t) && Timely(t, calls) && t <= end && (sweeping ==> RefillsInAMinute(l))
    requires forall c :: c in calls ==> c.now <= end
    ensures Count(l, calls, key, sweeping) as real <= Level(l, key, t) + Inflow(l.rate, end - t)
    decreases |calls|
  {
    hide Inflow, Valid, Level;
    if calls == [] {
      CountOfNone(l, key, t, end);
    } else {
      var c := calls[0];
      ValidLater(l, t, c.now);
      var s := if sweeping then Sweep(l, c.now) else l;
      if sweeping { SweepKeepsLevel(l, key, t, c.now); }
      ConsumeKeeps(s, c);
      AllowedIsPaidFor(Consume(s, c), calls[1..], key, sweeping, c.now, end);
      LevelFlows(l, key, t, c.now);
      InflowAdds(l.rate, end - c.now, c.now - t);
      assert (end - c.now) + (c.now - t) == end - t;
    }
  }

  lemma CountOfNone(l: Limiter, key: string, t: real, end: real)
    requires Valid(l, t) && t <= end
    ensures 0.0 <= Level(l, key, t) + Inflow(l.rate, end - t)
  {
    LevelFlows(l, key, t, t);
    InflowGrows(l.rate, 0.0, end - t);
    InflowAdds(l.rate, 0.0, 0.0);
  }

  lemma {:induction false} AfterKeepsParameters(l: Limiter, calls: seq<Call>, sweeping: bool)
    ensures After(l, calls, sweeping).rate == l.rate && After(l, calls, sweeping).burst == l.burst
    decreases |calls|
  {
    if calls != [] {
      AfterKeepsParameters(Next(l, calls[0], sweeping), calls[1..], sweeping);
    }
  }

  lemma {:induction false} TimelySplits(start: real, a: seq<Call>, b: seq<Call>)
    requires Timely(start, a + b)
    ensures Timely(start, a) && Timely(if a == [] then start else a[|a| - 1].now, b)
    decreases |a|
  {
    if a == [] {
      assert a + b == b;
    } else {
      assert (a + b)[1..] == a[1..] + b;
      TimelySplits(a[0].now, a[1..], b);
    }
  }

  lemma {:induction false} LastIsLatest(start: real, calls: seq<Call>)
    requires calls != [] && Timely(start, calls)
    ensures start <= calls[|calls| - 1].now && forall c :: c in calls ==> c.now <= calls[|calls| - 1].now
    decreases |calls|
  {
    if |calls| > 1 {
      LastIsLatest(calls[0].now, calls[1..]);
      assert calls == [calls[0]] + calls[1..];
    }
  }

  /** Places of the run, in order, at which a call for key is allowed. */
  ghost predicate AllowedAt(l: Limiter, calls: seq<Call>, key: string, at: seq<nat>) {
    && |Decisions(l, calls, true)| == |calls|
    && (forall j, k :: 0 <= j < k < |at| ==> at[j] < at[k])
    && (forall k :: 0 <= k < |at| ==> at[k] < |calls| && calls[at[k]].key == key && Decisions(l, calls, true)[at[k]])
  }

  lemma {:induction false} CountsAll(l: Limiter, calls: seq<Call>, key: string, at: seq<nat>)
    requires AllowedAt(l, calls, key, at)
    ensures |at| <= Count(l, calls, key, true)
    decreases |calls|
  {
    hide Allows, Next;
    if at != [] {
      assert at[0] < |calls|;
      var next := Next(l, calls[0], true);
      var rest := if at[0] == 0 then at[1..] else at;
      var shifted: seq<nat> := seq(|rest|, k requires 0 <= k < |rest| => if rest[k] > 0 then rest[k] - 1 else 0);
      assert Decisions(l, calls, true) == [Allows(l, calls[0], true)] + Decisions(next, calls[1..], true);
      assert AllowedAt(next, calls[1..], key, shifted);
      CountsAll(next, calls[1..], key, shifted);
    }
  }

  lemma IsInflow(rate: real, span: real)
    ensures Inflow(rate, span) == rate * span
  {
  }

  /** In any stretch of a run, at most the burst plus the rate times its length is allowed per key. */
  lemma IntervalIsBounded(l: Limiter, before: seq<Call>, calls: seq<Call>, key: string, start: real, at: seq<nat>)
    requires Valid(l, start) && RefillsInAMinute(l) && Timely(start, before + calls) && calls != []
    requires AllowedAt(After(l, before, true), calls, key, at)
    ensures |at| as real <= l.burst + l.rate * (calls[|calls| - 1].now - calls[0].now)
  {
    hide Valid, Level, Count, After, Timely, AllowedAt;
    IsInflow(l.rate, calls[|calls| - 1].now - calls[0].now);
    hide Inflow;
    CountsAll(After(l, before, true), calls, key, at);
    TimelySplits(start, before, calls);
    TokensStayInBounds(l, before, true, start);
    AfterKeepsParameters(l, before, true);
    var m := After(l, before, true);
    var t := if before == [] then start else before[|before| - 1].now;
    var first, last := calls[0].now, calls[|calls| - 1].now;
    LastIsLatest(t, calls);
    ValidLater(m, t, first);
    TimelyFrom(t, calls);
    LastIsLatest(first, calls);
    AllowedIsPaidFor(m, calls, key, true, first, last);
    LevelFlows(m, key, first, first);
    assert |at| as real <= l.burst + Inflow(l.rate, last - first);
  }

  lemma TimelyFrom(start: real, calls: seq<Call>)
    requires calls != [] && Timely(start, calls)
    ensures start <= calls[0].now && Timely(calls[0].now, calls)
  {
  }

  // ---- the sweep goes unnoticed ----

  ghost predicate SameLevels(a: Limiter, b: Limiter, now: real) {
    a.rate == b.rate && a.burst == b.burst && forall k :: Level(a, k, now) == Level(b, k, now)
  }

  lemma SameLevelsLater(a: Limiter, b: Limiter, t: real, now: real)
    requires Valid(a, t) && Valid(b, t) && SameLevels(a, b, t) && t <= now
    ensures SameLevels(a, b, now)
  {
    hide Level, Inflow;
    forall k ensures Level(a, k, now) == Level(b, k, now) {
      assert Level(a, k, t) == Level(b, k, t);
      LevelFlows(a, k, t, now);
      LevelFlows(b, k, t, now);
    }
  }

  /** Every decision is that of the limiter that never sweeps. */
  lemma {:induction false} SweepGoesUnnoticed(a: Limiter, b: Limiter, calls: seq<Call>, t: real)
    requires Valid(a, t) && Valid(b, t) && SameLevels(a, b, t) && Timely(t, calls) && RefillsInAMinute(a)
    ensures Decisions(a, calls, true) == Decisions(b, calls, false)
    decreases |calls|
  {
    hide Level, Inflow, Valid;
    if calls != [] {
      var c := calls[0];
      var s := Sweep(a, c.now);
      ValidLater(a, t, c.now);
      ValidLater(b, t, c.now);
      SameLevelsLater(a, b, t, c.now);
      forall k ensures Level(s, k, c.now) == Level(b, k, c.now) {
        SweepKeepsLevel(a, k, t, c.now);
        assert Level(a, k, c.now) == Level(b, k, c.now);
      }
      ConsumeKeeps(s, c);
      ConsumeKeeps(b, c);
      SweepGoesUnnoticed(Consume(s, c), Consume(b, c), calls[1..], c.now);
    }
  }

  // ---- and exactly when ----

  function Repeat(key: string, now: real, n: nat): seq<Call> {
    seq(n, _ => Call(key, now))
  }

  lemma RepeatTail(key: string, now: real, n: nat)
    requires n > 0
    ensures Repeat(key, now, n)[0] == Call(key, now) && Repeat(key, now, n)[1..] == Repeat(key, now, n - 1)
  {
  }

  lemma {:induction false} DecisionsSplit(l: Limiter, a: seq<Call>, b: seq<Call>, sweeping: bool)
    ensures Decisions(l, a + b, sweeping) == Decisions(l, a, sweeping) + Decisions(After(l, a, sweeping), b, sweeping)
    ensures |Decisions(l, a, sweeping)| == |a|
    decreases |a|
  {
    if a == [] {
      assert a + b == b;
    } else {
      hide Allows, Next;
      assert (a + b)[0] == a[0] && (a + b)[1..] == a[1..] + b;
      var next, first := Next(l, a[0], sweeping), Allows(l, a[0], sweeping);
      DecisionsSplit(next, a[1..], b, sweeping);
      var here, there := Decisions(next, a[1..], sweeping), Decisions(After(l, a, sweeping), b, sweeping);
      assert [first] + (here + there) == ([first] + here) + there;
    }
  }

  /** While no sweep is due, n calls at once are allowed when the bucket holds n, and take it that far down. */
  lemma {:induction false} FullBucketAllows(l: Limiter, key: string, now: real, n: nat, sweeping: bool)
    requires Valid(l, now) && now <= l.sweepAt && Level(l, key, now) >= n as real
    ensures Decisions(l, Repeat(key, now, n), sweeping) == seq(n, _ => true)
    ensures var b := After(l, Repeat(key, now, n), sweeping);
            && Valid(b, now) && b.sweepAt == l.sweepAt && b.rate == l.rate && b.burst == l.burst
            && Level(b, key, now) == Level(l, key, now) - n as real
            && (n > 0 ==> key in b.buckets && b.buckets[key].last == now)
            && (n == 0 ==> b == l)
    decreases n
  {
    hide Level, Valid, Inflow;
    if n > 0 {
      RepeatTail(key, now, n);
      ConsumeKeeps(l, Call(key, now));
      var next := Consume(l, Call(key, now));
      FullBucketAllows(next, key, now, n - 1, sweeping);
      assert [true] + seq(n - 1, _ => true) == seq(n, _ => true);
    }
  }

  lemma NoNegativeLevel(l: Limiter, key: string, now: real)
    requires Valid(l, now)
    ensures Level(l, key, now) >= 0.0
  {
    LevelFlows(l, key, now, now);
  }

  lemma TimelyRepeat(key: string, start: real, now: real, n: nat)
    requires start <= now
    ensures Timely(start, Repeat(key, now, n))
    decreases n
  {
    if n > 0 {
      RepeatTail(key, now, n);
      TimelyRepeat(key, now, now, n - 1);
    }
  }

  lemma {:induction false} TimelyJoins(start: real, a: seq<Call>, b: seq<Call>)
    requires Timely(start, a) && Timely(if a == [] then start else a[|a| - 1].now, b)
    ensures Timely(start, a + b)
    decreases |a|
  {
    if a == [] {
      assert a + b == b;
    } else {
      assert (a + b)[1..] == a[1..] + b;
      TimelyJoins(a[0].now, a[1..], b);
    }
  }

  /** While no sweep is due, sweeping makes no difference. */
  lemma {:induction false} NoSweepYet(l: Limiter, calls: seq<Call>)
    requires forall c :: c in calls ==> c.now <= l.sweepAt
    ensures Decisions(l, calls, true) == Decisions(l, calls, false)
    ensures After(l, calls, true) == After(l, calls, false)
    decreases |calls|
  {
    if calls != [] {
      assert Sweep(l, calls[0].now) == l;
      NoSweepYet(Next(l, calls[0], false), calls[1..]);
    }
  }

  /** Two limiters alike, of which the second holds more for the key and has no sweep due for a minute. */
  ghost predicate HoldsLess(a: Limiter, b: Limiter, key: string, now: real) {
    && Valid(a, now) && Valid(b, now) && a.rate == b.rate && a.burst == b.burst && 1.0 <= a.burst
    && now + MINUTE <= b.sweepAt
    && Level(a, key, now) < Level(b, key, now)
  }

  /**
   * Calls that tell the two apart: while both hold a token take one from each, then come back when the fuller
   * one has a token again, which at a token a minute or more is before the next sweep.
   */
  lemma {:induction false} ToldApart(a: Limiter, b: Limiter, key: string, now: real) returns (calls: seq<Call>)
    requires HoldsLess(a, b, key, now)
    requires 1.0 <= Inflow(a.rate, MINUTE) || Level(a, key, now) < 1.0 <= Level(b, key, now)
    ensures calls != [] && Timely(now, calls) && Decisions(a, calls, false) != Decisions(b, calls, true)
    ensures Level(b, key, now) >= 1.0 ==> calls[0].now == now
    decreases Level(b, key, now)
  {
    hide Level, Valid, Inflow;
    var c := Call(key, now);
    NoNegativeLevel(a, key, now);
    if Level(b, key, now) < 1.0 {
      var later := NextToken(a, b, key, now);
      calls := [Call(key, later)];
      OneCall(a, b, Call(key, later));
    } else if Level(a, key, now) < 1.0 {
      calls := [c];
      OneCall(a, b, c);
    } else {
      ConsumeKeeps(a, c);
      ConsumeKeeps(b, c);
      var rest := ToldApart(Consume(a, c), Consume(b, c), key, now);
      calls := [c] + rest;
      OneMore(a, b, c, rest);
    }
  }

  lemma OneCall(a: Limiter, b: Limiter, c: Call)
    requires c.now <= b.sweepAt && Level(a, c.key, c.now) < 1.0 <= Level(b, c.key, c.now)
    ensures Decisions(a, [c], false) != Decisions(b, [c], true)
  {
    hide Level;
    assert Decisions(a, [c], false)[0] == false && Decisions(b, [c], true)[0] == true;
  }

  lemma OneMore(a: Limiter, b: Limiter, c: Call, rest: seq<Call>)
    requires c.now <= b.sweepAt
    requires Decisions(Consume(a, c), rest, false) != Decisions(Consume(b, c), rest, true)
    ensures Decisions(a, [c] + rest, false) != Decisions(b, [c] + rest, true)
  {
    hide Level, Consume;
    var calls := [c] + rest;
    assert calls[0] == c && calls[1..] == rest;
    var da, db := Decisions(a, calls, false), Decisions(b, calls, true);
    assert da[1..] == Decisions(Consume(a, c), rest, false) && db[1..] == Decisions(Consume(b, c), rest, true);
  }

  /** When the fuller bucket has a token again the other one has not. */
  lemma NextToken(a: Limiter, b: Limiter, key: string, now: real) returns (later: real)
    requires HoldsLess(a, b, key, now) && Level(b, key, now) < 1.0 <= Inflow(a.rate, MINUTE)
    ensures now <= later <= b.sweepAt && Level(a, key, later) < 1.0 <= Level(b, key, later)
  {
    hide Level, Valid;
    NoNegativeLevel(a, key, now);
    var need := 1.0 - Level(b, key, now);
    var span := TimeFor(a.rate, need);
    later := now + span;
    LevelFlows(a, key, now, later);
    LevelFlows(b, key, now, later);
    assert later - now == span;
  }

  lemma TimeFor(rate: real, need: real) returns (span: real)
    requires 0.0 <= need <= Inflow(rate, MINUTE) && 0.0 < Inflow(rate, MINUTE)
    ensures 0.0 <= span <= MINUTE && Inflow(rate, span) == need
  {
    assert rate > 0.0;
    span := need / rate;
    assert rate * span == need;
    assert rate * (MINUTE - span) >= 0.0;
  }

  /** What a limiter that has kept a low bucket decides differently after a minute, once the other has swept it. */
  lemma LowBucketIsNoticed(m: Limiter, key: string, last: real, later: real) returns (calls: seq<Call>)
    requires Valid(m, last) && 1.0 <= m.burst && key in m.buckets && m.buckets[key].last == last
    requires m.sweepAt <= last + MINUTE < later && m.buckets[key].tokens + Inflow(m.rate, later - last) < m.burst
    requires 1.0 <= Inflow(m.rate, MINUTE) || m.buckets[key].tokens + Inflow(m.rate, later - last) < 1.0
    ensures Timely(last, calls) && Decisions(m, calls, true) != Decisions(m, calls, false)
  {
    hide Inflow;
    ValidLater(m, last, later);
    var b := Sweep(m, later);
    assert key !in b.buckets;
    calls := ToldApart(m, b, key, later);
    assert Sweep(b, later) == b;
  }

  /** The bucket of a new limiter, with all its whole tokens taken. */
  lemma Emptied(rate: real, burst: real) returns (calls: seq<Call>, m: Limiter)
    requires 0.0 <= rate && 1.0 <= burst
    ensures forall c :: c in calls ==> c.now == 0.0
    ensures calls != [] && Timely(0.0, calls) && calls[|calls| - 1].now == 0.0
    ensures m == After(New(rate, burst, 0.0), calls, false) && Valid(m, 0.0)
    ensures m.rate == rate && m.burst == burst && m.sweepAt == MINUTE
    ensures "k" in m.buckets && m.buckets["k"].last == 0.0 && m.buckets["k"].tokens < 1.0
  {
    hide Inflow;
    var n: nat := burst.Floor;
    var l := New(rate, burst, 0.0);
    calls := Repeat("k", 0.0, n);
    FullBucketAllows(l, "k", 0.0, n, false);
    TimelyRepeat("k", 0.0, 0.0, n);
    m := After(l, calls, false);
    InflowAdds(rate, 0.0, 0.0);
  }

  /** The bucket of a new limiter, brought down to nothing while no sweep is due. */
  lemma Exhausted(rate: real, burst: real) returns (calls: seq<Call>, m: Limiter, last: real)
    requires 0.0 <= rate && 1.0 <= burst
    ensures calls != [] && Timely(0.0, calls) && calls[|calls| - 1].now == last <= MINUTE
    ensures forall c :: c in calls ==> c.now <= MINUTE
    ensures m == After(New(rate, burst, 0.0), calls, false) && Valid(m, last) && 0.0 <= last
    ensures m.rate == rate && m.burst == burst && m.sweepAt == MINUTE
    ensures "k" in m.buckets && m.buckets["k"].last == last
    ensures m.buckets["k"].tokens == 0.0 || m.buckets["k"].tokens + Inflow(rate, MINUTE) < 1.0
  {
    hide Inflow, Valid;
    calls, m := Emptied(rate, burst);
    last := 0.0;
    var left := m.buckets["k"].tokens;
    if left + Inflow(rate, MINUTE) >= 1.0 {
      InBounds(m, "k", 0.0);
      last := TimeFor(rate, 1.0 - left);
      var c := Call("k", last);
      TakesTheLast(m, c);
      AfterOneMore(New(rate, burst, 0.0), calls, c);
      TimelyJoins(0.0, calls, [c]);
      calls, m := calls + [c], Consume(m, c);
    }
  }

  lemma InBounds(m: Limiter, key: string, now: real)
    requires Valid(m, now) && key in m.buckets
    ensures 0.0 <= m.buckets[key].tokens <= m.burst
  {
  }

  lemma TakesTheLast(m: Limiter, c: Call)
    requires Valid(m, 0.0) && 0.0 <= c.now && 1.0 <= m.burst && c.key in m.buckets && m.buckets[c.key].last == 0.0
    requires m.buckets[c.key].tokens + Inflow(m.rate, c.now) == 1.0
    ensures var b := Consume(m, c);
            && Valid(b, c.now) && b.rate == m.rate && b.burst == m.burst && b.sweepAt == m.sweepAt
            && c.key in b.buckets && b.buckets[c.key] == Bucket(0.0, c.now)
  {
    hide Inflow;
    ValidLater(m, 0.0, c.now);
    ConsumeKeeps(m, c);
    assert c.now - 0.0 == c.now;
  }

  lemma {:induction false} AfterOneMore(l: Limiter, calls: seq<Call>, c: Call)
    ensures After(l, calls + [c], false) == Consume(After(l, calls, false), c)
    decreases |calls|
  {
    if calls == [] {
      assert calls + [c] == [c];
    } else {
      hide Consume;
      assert (calls + [c])[1..] == calls[1..] + [c];
      AfterOneMore(Next(l, calls[0], false), calls[1..], c);
    }
  }

  /** A burst that pays for a call and that a minute does not refill: some run notices the sweep. */
  lemma SweepIsNoticed(rate: real, burst: real) returns (calls: seq<Call>)
    requires 0.0 <= rate && 1.0 <= burst && MINUTE * rate < burst
    ensures Timely(0.0, calls)
    ensures Decisions(New(rate, burst, 0.0), calls, true) != Decisions(New(rate, burst, 0.0), calls, false)
  {
    assert Inflow(rate, MINUTE) == MINUTE * rate;
    hide Inflow, Valid;
    var l := New(rate, burst, 0.0);
    var before, m, last := Exhausted(rate, burst);
    var left := m.buckets["k"].tokens;
    InBounds(m, "k", last);
    var span := LateEnough(rate, if 1.0 <= Inflow(rate, MINUTE) then burst else 1.0 - left);
    assert (last + span) - last == span;
    var rest := LowBucketIsNoticed(m, "k", last, last + span);
    calls := before + rest;
    TimelyJoins(0.0, before, rest);
    NoSweepYet(l, before);
    DecisionsSplit(l, before, rest, true);
    DecisionsSplit(l, before, rest, false);
    SameStart(Decisions(l, before, true), Decisions(m, rest, true), Decisions(m, rest, false));
  }

  lemma SameStart(a: seq<bool>, b: seq<bool>, c: seq<bool>)
    requires b != c
    ensures a + b != a + c
  {
    assert (a + b)[|a|..] == b && (a + c)[|a|..] == c;
  }

  /** A burst below one call's price allows nothing, swept or not. */
  lemma {:induction false} SmallBurstDenies(l: Limiter, calls: seq<Call>, sweeping: bool)
    requires l.burst < 1.0
    ensures Decisions(l, calls, sweeping) == seq(|calls|, _ => false)
    decreases |calls|
  {
    hide Inflow;
    if calls != [] {
      assert !Allows(l, calls[0], sweeping);
      SmallBurstDenies(Next(l, calls[0], sweeping), calls[1..], sweeping);
      assert [false] + seq(|calls| - 1, _ => false) == seq(|calls|, _ => false);
    }
  }

  /** No run ever notices the sweep if and only if the burst pays for no call at all, or a minute refills the bucket. */
  lemma SweepIsTransparentIff(rate: real, burst: real)
    requires 0.0 <= rate
    ensures burst < 1.0 || burst <= MINUTE * rate
       <==> forall start, calls :: Timely(start, calls) ==>
              Decisions(New(rate, burst, start), calls, true) == Decisions(New(rate, burst, start), calls, false)
  {
    assert Inflow(rate, MINUTE) == MINUTE * rate;
    if burst < 1.0 || burst <= MINUTE * rate {
      forall start, calls | Timely(start, calls)
        ensures Decisions(New(rate, burst, start), calls, true) == Decisions(New(rate, burst, start), calls, false)
      {
        if burst < 1.0 {
          SmallBurstDenies(New(rate, burst, start), calls, true);
          SmallBurstDenies(New(rate, burst, start), calls, false);
        } else {
          SweepGoesUnnoticed(New(rate, burst, start), New(rate, burst, start), calls, start);
        }
      }
    } else {
      var calls := SweepIsNoticed(rate, burst);
      assert Timely(0.0, calls);
    }
  }

  lemma LateEnough(rate: real, amount: real) returns (later: real)
    requires 0.0 <= rate && amount > Inflow(rate, MINUTE)
    ensures MINUTE < later && Inflow(rate, later) < amount
  {
    if rate == 0.0 {
      later := MINUTE + 1.0;
    } else {
      var slack := (amount - MINUTE * rate) / (2.0 * rate);
      later := MINUTE + slack;
      assert slack * (2.0 * rate) == amount - MINUTE * rate;
      assert rate * slack == (amount - MINUTE * rate) / 2.0;
      assert rate * later == rate * MINUTE + rate * slack;
    }
  }

  // ---- the limiter as an object ----

  /** What one call does, in tokens and seconds. */
  lemma CallIsPlain(l: Limiter, key: string, now: real)
    ensures var due := l.sweepAt < now;
            var known := key in l.buckets && (due ==> now - l.buckets[key].last <= 60.0);
            var flowed := if known then l.buckets[key].tokens + l.rate * (now - l.buckets[key].last) else l.burst;
            var level := if flowed < l.burst then flowed else l.burst;
            var after := Next(l, Call(key, now), true);
            && (Allows(l, Call(key, now), true) <==> 1.0 <= level)
            && after.rate == l.rate && after.burst == l.burst
            && key in after.buckets && after.buckets[key] == Bucket(if 1.0 <= level then level - 1.0 else level, now)
            && after.sweepAt == (if due then now + 60.0 else l.sweepAt)
            && forall k :: k != key ==>
                 && (k in after.buckets <==> k in l.buckets && (due ==> now - l.buckets[k].last <= 60.0))
                 && (k in after.buckets ==> after.buckets[k] == l.buckets[k])
  {
  }

  class TokenBuckets {
    const rate: real
    const burst: real
    var buckets: map<string, Bucket>
    var sweepAt: real

    ghost function View(): Limiter
      reads this
    {
      Limiter(rate, burst, buckets, sweepAt)
    }

    constructor (rate: real, burst: real, now: real)
      ensures View() == New(rate, burst, now)
    {
      this.rate, this.burst, buckets, sweepAt := rate, burst, map[], now + MINUTE;
    }

    method Allow(key: string, now: real) returns (ok: bool)
      modifies this
      ensures ok == Allows(old(View()), Call(key, now), true)
      ensures View() == Next(old(View()), Call(key, now), true)
      ensures var due := old(sweepAt) < now;
              var known := key in old(buckets) && (due ==> now - old(buckets)[key].last <= 60.0);
              var flowed := if known then old(buckets)[key].tokens + rate * (now - old(buckets)[key].last) else burst;
              var level := if flowed < burst then flowed else burst;
              && (ok <==> 1.0 <= level)
              && key in buckets && buckets[key] == Bucket(if ok then level - 1.0 else level, now)
              && sweepAt == if due then now + 60.0 else old(sweepAt)
      ensures forall k :: k != key ==>
                && (k in buckets <==> k in old(buckets) && (old(sweepAt) < now ==> now - old(buckets)[k].last <= 60.0))
                && (k in buckets ==> buckets[k] == old(buckets)[k])
    {
      ghost var before := View();
      CallIsPlain(before, key, now);
      if now > sweepAt {
        var left := buckets.Keys;
        while left != {}
          invariant left <= before.buckets.Keys && buckets.Keys <= before.buckets.Keys
          invariant sweepAt == before.sweepAt
          invariant forall k :: k in before.buckets ==>
                      (k in buckets <==> k in left || now - before.buckets[k].last <= MINUTE)
          invariant forall k :: k in buckets ==> buckets[k] == before.buckets[k]
          decreases left
        {
          var k :| k in left;
          left := left - {k};
          if now - buckets[k].last > MINUTE {
            buckets := buckets - {k};
          }
        }
        sweepAt := now + MINUTE;
        assert buckets == Sweep(before, now).buckets;
      }
      assert View() == Sweep(before, now);
      var b: Bucket;
      if key !in buckets {
        b := Bucket(burst, now);
      } else {
        b := Bucket(Min(burst, buckets[key].tokens + rate * (now - buckets[key].last)), now);
      }
      ok := b.tokens >= 1.0;
      buckets := buckets[key := if ok then b.(tokens := b.tokens - 1.0) else b];
    }
  }
}

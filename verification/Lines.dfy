/**
 * Newline-delimited bytes as a line scanner sees them: tokens end at a newline
 * or at the end of the data, lose one trailing carriage return, and scanning
 * stops for good at the first line of cap bytes or more.
 */
module Lines {
  type Byte = b: int | 0 <= b < 256
  type Bytes = seq<Byte>

  const NEWLINE: Byte := 10
  const CARRIAGE_RETURN: Byte := 13

  /** Position of the first newline, |data| if there is none. */
  function LineEnd(data: Bytes): (n: nat)
    ensures n <= |data|
    ensures forall i :: 0 <= i < n ==> data[i] != NEWLINE
    ensures n < |data| ==> data[n] == NEWLINE
  {
    if data == [] || data[0] == NEWLINE then 0
    else
      var n := LineEnd(data[1..]);
      assert forall i :: 0 < i <= n ==> data[i] == data[1..][i - 1] || i == n;
      1 + n
  }

  function DropCR(line: Bytes): Bytes {
    if line != [] && line[|line| - 1] == CARRIAGE_RETURN then line[..|line| - 1] else line
  }

  function AfterLine(data: Bytes): (rest: Bytes)
    ensures data != [] ==> |rest| < |data|
  {
    var n := LineEnd(data);
    if n == |data| then [] else data[n + 1..]
  }

  /** The tokens the scanner yields before it ends or gives up. */
  function Scan(data: Bytes, cap: nat): seq<Bytes>
    decreases |data|
  {
    if data == [] || LineEnd(data) >= cap then []
    else [DropCR(data[..LineEnd(data)])] + Scan(AfterLine(data), cap)
  }

  predicate NoNewline(data: Bytes, i: nat, j: nat)
    requires i <= j <= |data|
  {
    forall p :: i <= p < j ==> data[p] != NEWLINE
  }

  /** No line reaches the scanner's cap. */
  ghost predicate Scannable(data: Bytes, cap: nat) {
    forall i: nat, j: nat :: i <= j <= |data| && NoNewline(data, i, j) ==> j - i < cap
  }

  /** k starts a line of data. */
  predicate LineStart(data: Bytes, k: nat)
    requires k <= |data|
  {
    k == 0 || data[k - 1] == NEWLINE
  }

  lemma SliceIsScannable(data: Bytes, lo: nat, hi: nat, cap: nat)
    requires Scannable(data, cap) && lo <= hi <= |data|
    ensures Scannable(data[lo..hi], cap)
  {
    var part := data[lo..hi];
    forall i: nat, j: nat | i <= j <= |part| && NoNewline(part, i, j) ensures j - i < cap {
      assert forall p :: lo + i <= p < lo + j ==> data[p] == part[p - lo];
      assert NoNewline(data, lo + i, lo + j);
    }
  }

  /** The first line ends at the same place as long as the data reaches past it. */
  lemma LineEndOfPrefix(data: Bytes, k: nat)
    requires 0 < k <= |data| && data[k - 1] == NEWLINE
    ensures LineEnd(data[..k]) == LineEnd(data) < k
  {
    var part := data[..k];
    assert part[k - 1] == NEWLINE;
    assert forall i :: 0 <= i < k ==> part[i] == data[i];
  }

  lemma AfterFirstLine(data: Bytes)
    requires LineEnd(data) < |data|
    ensures AfterLine(data) == data[LineEnd(data) + 1..]
  {
  }

  /** Cutting inside the first line does not move its end. */
  lemma LineEndOfSuffix(data: Bytes, start: nat)
    requires start <= LineEnd(data)
    ensures LineEnd(data[start..]) == LineEnd(data) - start
  {
    var n, part := LineEnd(data), data[start..];
    assert forall i :: 0 <= i < n - start ==> part[i] == data[start + i];
    assert n < |data| ==> part[n - start] == NEWLINE;
  }

  lemma FirstLineFits(data: Bytes, cap: nat)
    requires Scannable(data, cap)
    ensures LineEnd(data) < cap
  {
    assert NoNewline(data, 0, LineEnd(data));
  }

  lemma RestIsScannable(data: Bytes, k: nat, cap: nat)
    requires Scannable(data, cap) && k <= |data|
    ensures Scannable(data[k..], cap)
  {
    SliceIsScannable(data, k, |data|, cap);
    assert data[k..|data|] == data[k..];
  }

  /** What is left after the first line, of the data and of a prefix that ends with a newline. */
  lemma AfterLineOfPrefix(data: Bytes, k: nat)
    requires 0 < k <= |data| && data[k - 1] == NEWLINE
    ensures var n := LineEnd(data);
            && LineEnd(data[..k]) == n < k
            && data[..k][..n] == data[..n]
            && AfterLine(data) == data[n + 1..]
            && AfterLine(data[..k]) == data[n + 1..][..k - n - 1]
            && data[n + 1..][k - n - 1..] == data[k..]
  {
    hide LineEnd, AfterLine;
    LineEndOfPrefix(data, k);
    var n := LineEnd(data);
    AfterFirstLine(data);
    AfterFirstLine(data[..k]);
    assert data[..k][n + 1..] == data[n + 1..][..k - n - 1];
  }

  lemma ScanStep(data: Bytes, cap: nat)
    requires data != [] && LineEnd(data) < cap
    ensures Scan(data, cap) == [DropCR(data[..LineEnd(data)])] + Scan(AfterLine(data), cap)
  {
  }

  lemma ScanNothing(cap: nat)
    ensures Scan([], cap) == []
  {
  }

  /** The line without one carriage return at its end. */
  ghost predicate Trimmed(line: Bytes, token: Bytes) {
    token + [13] == line || (token == line && (line == [] || line[|line| - 1] != 13))
  }

  /** A line below the cap is one token, with or without the newline that ends it. */
  lemma {:induction false} ScanTakesLine(line: Bytes, rest: Bytes, cap: nat)
    requires |line| < cap && forall i :: 0 <= i < |line| ==> line[i] != 10
    ensures exists t :: Trimmed(line, t) && Scan(line + [10] + rest, cap) == [t] + Scan(rest, cap)
    ensures line != [] ==> exists t :: Trimmed(line, t) && Scan(line, cap) == [t]
  {
    var data := line + [10] + rest;
    assert data[|line|] == 10 && forall i :: 0 <= i < |line| ==> data[i] == line[i];
    assert LineEnd(data) == |line| && data[..|line|] == line && data[|line| + 1..] == rest;
    assert LineEnd(line) == |line| && line[..|line|] == line;
    assert Trimmed(line, DropCR(line));
    ScanStep(data, cap);
    ScanNothing(cap);
  }

  /** Cutting at a line start cuts the token sequence in two. */
  lemma {:induction false} ScanSplits(data: Bytes, k: nat, cap: nat)
    requires k <= |data| && LineStart(data, k) && Scannable(data, cap)
    ensures Scan(data, cap) == Scan(data[..k], cap) + Scan(data[k..], cap)
    decreases k
  {
    hide Scannable, NoNewline, LineEnd, AfterLine, DropCR, Scan;
    if k == 0 {
      assert data[0..] == data && data[..0] == [];
      ScanNothing(cap);
    } else {
      FirstLineFits(data, cap);
      AfterLineOfPrefix(data, k);
      var n := LineEnd(data);
      var rest := data[n + 1..];
      RestIsScannable(data, n + 1, cap);
      ScanSplits(rest, k - n - 1, cap);
      ScanStep(data, cap);
      ScanStep(data[..k], cap);
      var first := [DropCR(data[..n])];
      var here, there := Scan(rest[..k - n - 1], cap), Scan(data[k..], cap);
      assert first + (here + there) == (first + here) + there;
    }
  }

  // ---- data the scan does not get through ----

  /** The scan does not reach the end of the data. */
  predicate TooLong(data: Bytes, cap: nat)
    decreases |data|
  {
    data != [] && (LineEnd(data) >= cap || TooLong(AfterLine(data), cap))
  }

  /** The scan gives up exactly on data that holds a line of the cap or more. */
  lemma {:induction false} TooLongIffNotScannable(data: Bytes, cap: nat)
    requires cap > 0
    ensures TooLong(data, cap) <==> !Scannable(data, cap)
    decreases |data|
  {
    hide Scannable, NoNewline;
    if data == [] {
      ShortIsScannable(data, cap);
    } else if LineEnd(data) >= cap {
      LongLineIsNotScannable(data, cap);
    } else if LineEnd(data) == |data| {
      ShortIsScannable(data, cap);
    } else {
      TooLongIffNotScannable(data[LineEnd(data) + 1..], cap);
      if Scannable(data, cap) {
        RestIsScannable(data, LineEnd(data) + 1, cap);
      } else {
        NotScannableBehind(data, cap);
      }
    }
  }

  lemma ShortIsScannable(data: Bytes, cap: nat)
    requires |data| < cap
    ensures Scannable(data, cap)
  {
  }

  lemma LongLineIsNotScannable(data: Bytes, cap: nat)
    requires LineEnd(data) >= cap
    ensures !Scannable(data, cap)
  {
    assert NoNewline(data, 0, LineEnd(data));
  }

  lemma NotScannableBehind(data: Bytes, cap: nat)
    requires !Scannable(data, cap) && LineEnd(data) < |data| && LineEnd(data) < cap
    ensures !Scannable(data[LineEnd(data) + 1..], cap)
  {
    var i: nat, j: nat :| i <= j <= |data| && NoNewline(data, i, j) && j - i >= cap;
    LongStretchIsBehind(data, i, j, cap);
  }

  lemma LongStretchIsBehind(data: Bytes, i: nat, j: nat, cap: nat)
    requires i <= j <= |data| && NoNewline(data, i, j) && j - i >= cap && LineEnd(data) < |data| && LineEnd(data) < cap
    ensures !Scannable(data[LineEnd(data) + 1..], cap)
  {
    var n := LineEnd(data);
    assert i > n;
    var rest := data[n + 1..];
    assert forall p :: i - n - 1 <= p < j - n - 1 ==> rest[p] == data[p + n + 1];
    assert NoNewline(rest, i - n - 1, j - n - 1);
  }

  /** A line of the cap or more ends the scan where it starts, if the scan gets there: nothing behind it is seen. */
  lemma {:induction false} ScanStopsAt(data: Bytes, k: nat, cap: nat)
    requires k <= |data| && LineStart(data, k) && LineEnd(data[k..]) >= cap
    ensures Scan(data, cap) == Scan(data[..k], cap)
    decreases k
  {
    hide LineEnd, AfterLine, DropCR, Scan;
    if k == 0 {
      assert data[0..] == data && data[..0] == [];
      ScanNothing(cap);
      ScanGivesUp(data, cap);
    } else {
      AfterLineOfPrefix(data, k);
      var n := LineEnd(data);
      if n >= cap {
        ScanGivesUp(data, cap);
        ScanGivesUp(data[..k], cap);
      } else {
        ScanStopsAt(data[n + 1..], k - n - 1, cap);
        ScanStep(data, cap);
        ScanStep(data[..k], cap);
      }
    }
  }

  lemma ScanGivesUp(data: Bytes, cap: nat)
    requires LineEnd(data) >= cap
    ensures Scan(data, cap) == []
  {
  }
}

/** The states of one dedicated server, and the machine that moves through them. */
module Lifecycle {
  datatype LState = Pulling | Starting | Ready | Allocated | Draining | Stopped | Failed

  predicate Terminal(s: LState) {
    s == Stopped || s == Failed
  }

  /** The legal transitions. */
  function Next(s: LState): set<LState> {
    match s
    case Pulling => {Starting, Stopped, Failed}
    case Starting => {Ready, Stopped, Failed}
    case Ready => {Allocated, LState.Draining, Stopped, Failed}
    case Allocated => {LState.Draining, Stopped, Failed}
    case Draining => {Stopped, Failed}
    case Stopped => {}
    case Failed => {}
  }

  /** Depth of a state; every transition goes deeper, so there are at most five. */
  function Depth(s: LState): nat {
    match s
    case Pulling => 0
    case Starting => 1
    case Ready => 2
    case Allocated => 3
    case Draining => 4
    case Stopped => 5
    case Failed => 5
  }

  /** Terminal states are the dead ends, both reachable from every other state in one move. */
  lemma TerminalIsDeadEnd(s: LState)
    ensures Terminal(s) <==> Next(s) == {}
    ensures !Terminal(s) ==> {Stopped, Failed} <= Next(s)
    ensures forall to :: to in Next(s) ==> Depth(s) < Depth(to)
  {
  }

  /** The moves of a server's life, one by one; from any state that is not the end it may stop or fail. */
  lemma LegalMoves(s: LState, to: LState)
    ensures to in Next(s) <==>
            match to
            case Pulling => false
            case Starting => s == Pulling
            case Ready => s == Starting
            case Allocated => s == Ready
            case Draining => s == Ready || s == Allocated
            case Stopped => s != Stopped && s != Failed
            case Failed => s != Stopped && s != Failed
  {
  }

  class Machine {
    var cur: LState
    ghost var path: seq<LState>                        // states entered after the first one
    ghost const first: LState

    ghost predicate Valid()
      reads this
    {
      IsPath(first, path) && cur == Last(first, path)
    }

    constructor (at: LState)
      ensures Valid() && cur == first == at && path == []
    {
      cur, first, path := at, at, [];
    }

    /** An illegal move changes nothing. */
    method To(to: LState) returns (ok: bool)
      requires Valid()
      modifies this
      ensures Valid()
      ensures ok <==> to in Next(old(cur))
      ensures if ok then cur == to && path == old(path) + [to] else cur == old(cur) && path == old(path)
    {
      ok := to in Next(cur);
      if ok {
        cur, path := to, path + [to];
        assert path[..|path| - 1] == old(path);
      }
    }
  }

  function Last(first: LState, path: seq<LState>): LState {
    if path == [] then first else path[|path| - 1]
  }

  ghost predicate IsPath(first: LState, path: seq<LState>) {
    path == [] || (IsPath(first, path[..|path| - 1]) && Last(first, path) in Next(Last(first, path[..|path| - 1])))
  }

  /** Whatever is asked of a machine: few moves, no state twice, nothing after a terminal state. */
  lemma {:induction false} PathsAreShort(first: LState, path: seq<LState>)
    requires IsPath(first, path)
    ensures |path| + Depth(first) <= Depth(Last(first, path)) <= 5
    ensures forall i :: 0 <= i < |path| ==> Depth(first) < Depth(path[i])
    ensures forall i, j :: 0 <= i < j < |path| ==> Depth(path[i]) < Depth(path[j]) && !Terminal(path[i])
  {
    if path != [] {
      var n := |path| - 1;
      PathsAreShort(first, path[..n]);
      assert forall i :: 0 <= i < n ==> path[..n][i] == path[i];
      TerminalIsDeadEnd(Last(first, path[..n]));
      forall i | 0 <= i < n ensures Depth(path[i]) < Depth(path[n]) && !Terminal(path[i]) {
        assert i == n - 1 || Depth(path[..n][i]) < Depth(path[..n][n - 1]);
      }
    }
  }
}

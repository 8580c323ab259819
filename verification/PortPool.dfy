/** The host ports of a node: one per server, from a configured inclusive range. */
module PortPool {
  import opened Wrappers

  /** The lowest free port of the range, or none. */
  ghost predicate IsLowestFree(from: int, to: int, inUse: set<int>, port: int) {
    && from <= port <= to && port !in inUse
    && forall p :: from <= p < port ==> p in inUse
  }

  ghost predicate Exhausted(from: int, to: int, inUse: set<int>) {
    forall p :: from <= p <= to ==> p in inUse
  }

  class Pool {
    const from: int
    const to: int
    var inUse: set<int>

    ghost predicate Valid()
      reads this
    {
      0 < from <= to <= 65535 && forall p :: p in inUse ==> from <= p <= to
    }

    constructor (from: int, to: int)
      requires 0 < from <= to <= 65535
      ensures Valid() && this.from == from && this.to == to && inUse == {}
    {
      this.from, this.to, inUse := from, to, {};
    }

    method Acquire() returns (port: Option<int>)
      requires Valid()
      modifies this
      ensures Valid()
      ensures port.Some? ==> IsLowestFree(from, to, old(inUse), port.value) && inUse == old(inUse) + {port.value}
      ensures port.None? ==> Exhausted(from, to, old(inUse)) && inUse == old(inUse)
    {
      var p := from;
      while p <= to
        invariant from <= p <= to + 1
        invariant forall q :: from <= q < p ==> q in inUse
        invariant inUse == old(inUse)
      {
        if p !in inUse {
          inUse := inUse + {p};
          return Some(p);
        }
        p := p + 1;
      }
      port := None;
    }

    method AcquireSpecific(port: int) returns (ok: bool)
      requires Valid()
      modifies this
      ensures Valid()
      ensures ok <==> from <= port <= to && port !in old(inUse)
      ensures inUse == if ok then old(inUse) + {port} else old(inUse)
    {
      ok := from <= port <= to && port !in inUse;
      if ok {
        inUse := inUse + {port};
      }
    }

    method Release(port: int) returns (ok: bool)
      requires Valid()
      modifies this
      ensures Valid()
      ensures ok <==> from <= port <= to && port in old(inUse)
      ensures inUse == old(inUse) - {port}
    {
      ok := from <= port <= to && port in inUse;
      if ok {
        inUse := inUse - {port};
      }
    }
  }
}

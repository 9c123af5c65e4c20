/** The pool's entries as the objects the tasks share, each operation tied to the step it is in the pool model. */
module PoolObject {
  import opened Abi
  import opened Pool
  import opened PoolSafety

  class ConnEntry {
    var kind: Kind
    var idle: bool
    var dead: bool
    var cut: bool
    var active: nat
    var paused: nat

    function Value(): Conn
      reads this
    {
      Conn(kind, idle, dead, cut, active, paused)
    }

    constructor (kind: Kind)
      ensures Value() == Fresh(kind)
    {
      this.kind := kind;
      idle, dead, cut := kind.H1?, false, false;
      active, paused := 0, 0;
    }

    method Closed() returns (closed: bool)
      ensures closed == IsClosed(Value())
      ensures closed <==> dead || (cut && !(kind.H1? && !idle))
    {
      if dead {
        return true;
      }
      closed := match kind
        case H2 => cut
        case H1 => if idle then cut else false;
    }

    method Eligible(cap: nat) returns (ok: bool)
      ensures ok == IsEligible(Value(), cap)
      ensures ok <==> !dead && !cut && paused < cap && (kind.H2? || idle)
    {
      var closed := Closed();
      if closed || paused >= cap {
        return false;
      }
      ok := kind.H2? || idle;
    }

    /** Takes the exclusive sender out of its slot, or clones the shared one. */
    method TakeLease() returns (ok: bool)
      modifies this
      ensures ok == CanTake(old(Value()))
      ensures Value() == if ok then WithLease(old(Value())) else old(Value())
    {
      if kind.H1? && !idle {
        return false;
      }
      idle := false;
      active := active + 1;
      ok := true;
    }

    /** A lease that goes away: hand back first, then return the count. */
    method DropLease()
      requires active > 0
      requires kind.H2? ==> !idle
      modifies this
      ensures Value() == GiveBack(old(Value())).(active := old(active) - 1)
      ensures old(IsOpen(Value())) ==> CanTake(Value()) && IsOpen(Value())
      ensures IsClosed(Value()) <== !old(IsOpen(Value()))
    {
      if cut {
        dead := true;
      } else if kind.H1? {
        idle := true;
      }
      active := active - 1;
    }

    /** The drop of a pause guard. */
    method DropPause()
      requires paused > 0
      modifies this`paused
      ensures paused == old(paused) - 1
    {
      paused := paused - 1;
    }

    /** A pause guard replaced by a later one on the same connection leaves the budget as it was. */
    method ReplaceGuard(held: bool)
      requires held ==> paused > 0
      modifies this`paused
      ensures paused == old(paused) + (if held then 0 else 1)
    {
      paused := paused + 1;
      if held {
        DropPause();
      }
    }
  }

  ghost predicate Distinct(entries: seq<ConnEntry>) {
    forall i, j :: 0 <= i < j < |entries| ==> entries[i] != entries[j]
  }

  /** The peer is there, fewer streams than the cap are paused on it, and its sender is shared or in its slot. */
  predicate CanServe(c: Conn, cap: nat) {
    !c.dead && !c.cut && c.paused < cap && (c.kind == H1 ==> c.idle)
  }

  /** Scans the list in order and takes the first entry that can serve: everything before it cannot, everything
      but it is untouched. */
  method Reuse(entries: seq<ConnEntry>, cap: nat) returns (r: Option<nat>)
    requires Distinct(entries)
    modifies entries
    ensures r.None? ==> forall k :: 0 <= k < |entries| ==> !old(CanServe(entries[k].Value(), cap))
    ensures r.Some? ==> r.value < |entries| && old(CanServe(entries[r.value].Value(), cap))
    ensures r.Some? ==> forall k :: 0 <= k < r.value ==> !old(CanServe(entries[k].Value(), cap))
    ensures r.Some? ==> entries[r.value].Value() == WithLease(old(entries[r.value].Value()))
    ensures forall k: nat :: k < |entries| && r != Some(k) ==> entries[k].Value() == old(entries[k].Value())
  {
    for k := 0 to |entries|
      invariant forall j :: 0 <= j < k ==> !old(CanServe(entries[j].Value(), cap))
      invariant forall j :: 0 <= j < |entries| ==> entries[j].Value() == old(entries[j].Value())
    {
      var ok := entries[k].Eligible(cap);
      if ok {
        var taken := entries[k].TakeLease();
        if taken {
          return Some(k);
        }
      }
    }
    return None;
  }

  /** How many entries a dial counts against the cap. */
  method CountLive(entries: seq<ConnEntry>, ghost values: seq<Conn>) returns (live: nat)
    requires |values| == |entries| && forall k :: 0 <= k < |entries| ==> values[k] == entries[k].Value()
    ensures live == Number(values, true)
  {
    live := 0;
    for k := 0 to |entries|
      invariant live == Number(values[..k], true)
    {
      NumberPrefix(values, k, true);
      var closed := entries[k].Closed();
      if !closed {
        live := live + 1;
      }
    }
    assert values[..|entries|] == values;
  }
}

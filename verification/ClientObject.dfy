/** The client's counters as the objects the source has. */
module ClientObject {
  import opened Client

  /** Two ceilings, reserved together: add, check, and take back what did not fit. */
  class AdmissionLimits {
    const maxInflight: nat
    const maxBytes: nat
    var inflight: nat
    var bytes: nat

    function View(): Limits
      reads this
    {
      Limits(maxInflight, maxBytes, inflight, bytes)
    }

    constructor (inflightCeiling: nat, bytesCeiling: nat)
      ensures View() == NewLimits(inflightCeiling, bytesCeiling)
      ensures inflightCeiling == 0 ==> maxInflight == 1024
      ensures bytesCeiling == 0 ==> maxBytes == 64 * 1024 * 1024
    {
      maxInflight := if inflightCeiling == 0 then DEFAULT_MAX_INFLIGHT else inflightCeiling;
      maxBytes := if bytesCeiling == 0 then DEFAULT_MAX_BUFFERED_BYTES else bytesCeiling;
      inflight, bytes := 0, 0;
    }

    /**
     * A caller that is alone goes through the stages of the client model and ends with both counters
     * raised or with both as they were.
     */
    method TryReserve(call: Call) returns (ok: bool, ghost stages: seq<Stage>)
      requires call.stage.Trying?
      modifies this
      ensures ok <==> old(inflight) < maxInflight && old(bytes) + call.bytes <= maxBytes
      ensures View() == if ok then Limits(maxInflight, maxBytes, old(inflight) + 1, old(bytes) + call.bytes) else old(View())
      ensures Passes(call, old(View()), stages, View()) && stages != [] && stages[|stages| - 1] == if ok then Reserved else Refused
    {
      ghost var start := View();
      var n := inflight;
      inflight := inflight + 1;
      if n >= maxInflight {
        inflight := inflight - 1;
        stages := [OverInflight, Refused];
        return false, stages;
      }
      var b := bytes;
      bytes := bytes + call.bytes;
      if b + call.bytes > maxBytes {
        bytes := bytes - call.bytes;
        inflight := inflight - 1;
        stages := [Counted, OverBytes, BytesReturned, Refused];
        PassesLong(call, start);
        return false, stages;
      }
      stages := [Counted, Reserved];
      return true, stages;
    }

    /** Dropping the reservation. */
    method Release(amount: nat)
      requires amount <= bytes && inflight > 0
      modifies this
      ensures View() == old(View()).(inflight := old(inflight) - 1, bytes := old(bytes) - amount)
    {
      bytes := bytes - amount;
      inflight := inflight - 1;
    }

    /** What one reservation took, its release gives back. */
    method ReserveThenRelease(call: Call) returns (ok: bool)
      requires call.stage.Trying?
      modifies this
      ensures View() == old(View())
    {
      ghost var stages;
      ok, stages := TryReserve(call);
      if ok {
        Release(call.bytes);
      }
    }
  }

  /** The call goes through these stages, and the counters through these values. */
  ghost predicate Passes(call: Call, l: Limits, stages: seq<Stage>, after: Limits)
    decreases |stages|
  {
    if stages == [] then l == after
    else NextStage(call, l) == stages[0] && Passes(call.(stage := stages[0]), NextLimits(call, l), stages[1..], after)
  }

  lemma PassesLong(call: Call, l: Limits)
    requires call.stage.Trying? && l.inflight < l.maxInflight && l.bytes + call.bytes > l.maxBytes
    ensures Passes(call, l, [Counted, OverBytes, BytesReturned, Refused], l)
  {
    var c1 := call.(stage := Counted);
    var l1 := NextLimits(call, l);
    var c2 := call.(stage := OverBytes);
    var l2 := NextLimits(c1, l1);
    var c3 := call.(stage := BytesReturned);
    var l3 := NextLimits(c2, l2);
    assert Passes(c3, l3, [Refused], l);
    assert [BytesReturned, Refused][1..] == [Refused];
    assert Passes(c2, l2, [BytesReturned, Refused], l);
    assert [OverBytes, BytesReturned, Refused][1..] == [BytesReturned, Refused];
    assert Passes(c1, l1, [OverBytes, BytesReturned, Refused], l);
    assert [Counted, OverBytes, BytesReturned, Refused][1..] == [OverBytes, BytesReturned, Refused];
  }

  /** Counts bridges that can still invoke a callback. */
  class BridgeCounter {
    var n: nat

    constructor ()
      ensures n == 0
    {
      n := 0;
    }

    method Enter()
      modifies this
      ensures n == NextBridges(Reserved, old(n)) == old(n) + 1
    {
      n := n + 1;
    }

    /** Called after OnDone has returned; true when a waiter in wait_zero must be woken. */
    method Leave() returns (wake: bool)
      requires n > 0
      modifies this
      ensures n == NextBridges(Removed, old(n)) == old(n) - 1
      ensures wake <==> n == 0
    {
      n := n - 1;
      wake := n == 0;
    }
  }
}

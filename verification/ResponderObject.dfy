/**
 * The server's entry points as operations on the shared registry. Each is a run of the model's steps by one thread
 * that nobody interrupts, and its return code says whether a delivery was accepted.
 */
module ResponderObject {
  import opened Abi
  import opened Responder
  import opened ResponderSafety

  /** Both ends of the one-shot channel still exist. */
  predicate ChannelOpen(s: Server, r: nat) {
    Known(s, r) && ReqOf(s, r).tx.Registered? && ReqOf(s, r).alive
  }

  /** A delivery to r made on thread th now goes into the slot, or into the channel. */
  predicate Accepts(s: Server, th: nat, r: nat)
    requires th < |s.threads|
  {
    (Known(s, r) && s.threads[th].inCallback == r && s.threads[th].slot.None?) || ChannelOpen(s, r)
  }

  /** The delivery d made on thread th is where it belongs: in the slot of the request's own callback if that was free, and
      otherwise in the channel, where a second one from that callback is the stand-in. */
  predicate Stored(before: Server, after: Server, th: nat, r: nat, d: Delivery)
    requires th < |before.threads| && th < |after.threads|
  {
    && Known(before, r) && Known(after, r)
    && var t, q := before.threads[th], ReqOf(after, r);
       if t.inCallback == r && t.slot.None? then q.synced == Some(d) && after.threads[th].slot == Some(d) && q.channel == ReqOf(before, r).channel
       else q.channel == Some(if t.inCallback == r then Busy(r) else d) && q.synced == ReqOf(before, r).synced
  }

  predicate Free(s: Server, th: nat) {
    th < |s.threads| && s.threads[th].call.NoCall?
  }

  function Settle(s: Server, th: nat): Server
    requires th < |s.threads|
  {
    if ServerEnabled(s, Send(th)) then NextSend(s, th) else s
  }

  ghost predicate IsRun(s: Server, steps: seq<ServerStep>, t: Server) {
    ServerCanRun(s, steps) && ServerAfter(s, steps) == t
  }

  lemma SettleRuns(s: Server, th: nat) returns (steps: seq<ServerStep>)
    requires th < |s.threads|
    ensures IsRun(s, steps, Settle(s, th))
  {
    steps := [];
    if ServerEnabled(s, Send(th)) {
      steps := [Send(th)] + [];
    }
  }

  /** The steps of one uninterrupted call: its check or claim, the delivery, the send, and the undo of a failed claim. */
  lemma DeliveryRuns(s: Server, a: ServerStep, th: nat) returns (steps: seq<ServerStep>)
    requires ServerEnabled(s, a) && ServerEnabled(ServerNext(s, a), Deliver(th))
    ensures IsRun(s, steps, Settle(NextDeliver(ServerNext(s, a), th), th))
  {
    var s1 := ServerNext(s, a);
    var s2 := NextDeliver(s1, th);
    var rest := SettleRuns(s2, th);
    steps := [a] + ([Deliver(th)] + rest);
  }

  class Registry {
    var reqs: seq<Req>
    var threads: seq<Thread>
    var active: set<nat>

    function Value(): Server
      reads this
    {
      Server(reqs, threads, active)
    }

    constructor (n: nat)
      ensures Value() == NewServer(n) && ServerInv(Value())
    {
      reqs, threads, active := [], seq(n, _ => Thread(0, None, NoCall)), {};
    }

    /** Removes the sender from the registry and sends. */
    method DeliverThroughChannel(th: nat, r: nat, d: Delivery, begin: bool) returns (code: int)
      requires th < |threads| && !threads[th].call.Sending?
      modifies this`reqs, this`threads
      ensures code == if ChannelOpen(old(Value()), r) then SERVER_OK else NOT_DELIVERED
      ensures Value() == Settle(NextChannel(old(Value()), th, r, d, begin), th)
      ensures threads[th].call == if begin && code != SERVER_OK then Undoing(r) else NoCall
      ensures code == SERVER_OK ==> 0 < r <= |reqs| && |reqs| == |old(reqs)| && reqs[r - 1].channel == Some(d) && reqs[r - 1].synced == old(reqs)[r - 1].synced
    {
      code := NOT_DELIVERED;
      if 0 < r <= |reqs| && reqs[r - 1].tx.Registered? {
        var q := reqs[r - 1].(tx := Spent);
        if q.alive {
          q := q.(channel := Some(d), chanOk := q.chanOk + 1);
          code := SERVER_OK;
        }
        reqs := reqs[r - 1 := q];
      }
      threads := threads[th := threads[th].(call := if begin && code != SERVER_OK then Undoing(r) else NoCall)];
    }

    /** The slot for the request whose callback runs here, the channel for every other. */
    method DeliverResponse(th: nat) returns (code: int)
      requires ServerEnabled(Value(), Deliver(th)) && threads[th].call.r != 0 && ServerInv(Value())
      modifies this`reqs, this`threads
      ensures code == if Accepts(old(Value()), th, old(threads[th].call.r)) then SERVER_OK else NOT_DELIVERED
      ensures Value() == Settle(NextDeliver(old(Value()), th), th)
      ensures threads[th].call == if old(threads[th].call.Beginning?) && code != SERVER_OK then Undoing(old(threads[th].call.r)) else NoCall
      ensures code == SERVER_OK && old(threads[th].call.Beginning?) ==>
                Stored(old(Value()), Value(), th, old(threads[th].call.r), Stream(old(threads[th].call.r), old(threads[th].call.tag)))
      ensures code == SERVER_OK && old(threads[th].call.Responding?) ==>
                Stored(old(Value()), Value(), th, old(threads[th].call.r), Buffered(old(threads[th].call.r), old(threads[th].call.tag)))
    {
      var t := threads[th];
      var r, begin := t.call.r, t.call.Beginning?;
      var d := if begin then Stream(r, t.call.tag) else Buffered(r, t.call.tag);
      assert ThreadOk(t, th, reqs);
      if t.inCallback == r {
        if t.slot.None? {
          reqs := reqs[r - 1 := Synced(reqs[r - 1], d)];
          threads := threads[th := t.(slot := Some(d), call := NoCall)];
          return SERVER_OK;
        }
        d := Busy(r);
      }
      code := DeliverThroughChannel(th, r, d, begin);
    }

    /** A one-shot response: refused while a stream is active, otherwise accepted exactly when the slot or the channel
        takes it, and a refused delivery changes nothing but a sender that had lost its receiver. */
    method Respond(th: nat, r: nat, tag: nat) returns (code: int, ghost steps: seq<ServerStep>)
      requires Free(Value(), th) && ServerInv(Value())
      modifies this`reqs, this`threads
      ensures ServerInv(Value()) && Free(Value(), th) && IsRun(old(Value()), steps, Value())
      ensures code == if r == 0 then NOT_DELIVERED else if r in active then ERR_WRONG_STATE
                      else if Accepts(old(Value()), th, r) then SERVER_OK else NOT_DELIVERED
      ensures code == SERVER_OK ==> Stored(old(Value()), Value(), th, r, Buffered(r, tag))
      ensures Successes(Value(), r) == Successes(old(Value()), r) + (if code == SERVER_OK then 1 else 0)
    {
      if r == 0 || r in active {
        return if r == 0 then NOT_DELIVERED else ERR_WRONG_STATE, [];
      }
      ghost var s := Value();
      CallKeeps(s, th, Responding(r, tag));
      threads := threads[th := threads[th].(call := Responding(r, tag))];
      steps := DeliveryRuns(s, ServerStep.Respond(th, r, tag), th);
      DeliveryKeeps(Value(), th);
      DeliveryCounts(Value(), th);
      code := DeliverResponse(th);
    }

    method ReleaseClaim(th: nat)
      requires ServerEnabled(Value(), Undo(th)) && ServerInv(Value())
      modifies this`active, this`threads
      ensures Value() == ServerNext(old(Value()), Undo(th)) && ServerInv(Value()) && Free(Value(), th)
    {
      CallKeeps(Value(), th, NoCall);
      active := active - {threads[th].call.r};
      threads := threads[th := threads[th].(call := NoCall)];
    }

    method ClaimAndDeliver(th: nat, r: nat, tag: nat) returns (code: int, ghost steps: seq<ServerStep>)
      requires Free(Value(), th) && ServerInv(Value()) && r != 0 && r !in active
      modifies this
      ensures ServerInv(Value()) && th < |threads| && IsRun(old(Value()), steps, Value()) && active == old(active) + {r}
      ensures code == if Accepts(old(Value()), th, r) then SERVER_OK else NOT_DELIVERED
      ensures threads[th].call == if code == SERVER_OK then NoCall else Undoing(r)
      ensures code == SERVER_OK ==> Stored(old(Value()), Value(), th, r, Stream(r, tag))
      ensures Successes(Value(), r) == Successes(old(Value()), r) + (if code == SERVER_OK then 1 else 0)
    {
      ghost var s := Value();
      CallKeeps(s, th, Beginning(r, tag));
      active := active + {r};
      threads := threads[th := threads[th].(call := Beginning(r, tag))];
      steps := DeliveryRuns(s, ServerStep.Begin(th, r, tag), th);
      DeliveryKeeps(Value(), th);
      DeliveryCounts(Value(), th);
      code := DeliverResponse(th);
    }

    /** Starting a stream claims the streaming state first and gives it back when the delivery is refused: afterwards
        the responder is active exactly if it was before or this call succeeded. */
    method Begin(th: nat, r: nat, tag: nat) returns (code: int, ghost steps: seq<ServerStep>)
      requires Free(Value(), th) && ServerInv(Value())
      modifies this
      ensures ServerInv(Value()) && Free(Value(), th) && IsRun(old(Value()), steps, Value())
      ensures code == if r != 0 && r !in old(active) && Accepts(old(Value()), th, r) then SERVER_OK else ERR_WRONG_STATE
      ensures active == if code == SERVER_OK then old(active) + {r} else old(active)
      ensures code == SERVER_OK ==> Stored(old(Value()), Value(), th, r, Stream(r, tag))
      ensures Successes(Value(), r) == Successes(old(Value()), r) + (if code == SERVER_OK then 1 else 0)
    {
      if r == 0 || r in active {
        return ERR_WRONG_STATE, [];
      }
      ghost var s := Value();
      code, steps := ClaimAndDeliver(th, r, tag);
      if code != SERVER_OK {
        steps := UndoRuns(s, steps, Value(), th);
        ReleaseClaim(th);
        code := ERR_WRONG_STATE;
      }
    }

    /** Ending a stream twice is refused, not undefined. */
    method Finish(r: nat) returns (code: int)
      requires ServerInv(Value())
      modifies this`active
      ensures ServerInv(Value()) && Value() == ServerNext(old(Value()), ServerStep.Finish(r))
      ensures code == if r != 0 && r in old(active) then SERVER_OK else ERR_WRONG_STATE
      ensures r !in active
    {
      code := if r != 0 && r in active then SERVER_OK else ERR_WRONG_STATE;
      active := active - {r};
    }
  }

  lemma {:induction false} RunThen(s: Server, first: seq<ServerStep>, t: Server, rest: seq<ServerStep>, u: Server)
    requires IsRun(s, first, t) && IsRun(t, rest, u)
    ensures IsRun(s, first + rest, u)
    decreases |first|
  {
    if first == [] {
      assert first + rest == rest;
    } else {
      RunThen(ServerNext(s, first[0]), first[1..], t, rest, u);
      assert (first + rest)[1..] == first[1..] + rest;
    }
  }

  lemma UndoRuns(s: Server, first: seq<ServerStep>, t: Server, th: nat) returns (steps: seq<ServerStep>)
    requires IsRun(s, first, t) && ServerEnabled(t, Undo(th))
    ensures IsRun(s, steps, ServerNext(t, Undo(th)))
  {
    RunThen(s, first, t, [Undo(th)] + [], ServerNext(t, Undo(th)));
    steps := first + ([Undo(th)] + []);
  }

  lemma DeliveryKeeps(s: Server, th: nat)
    requires ServerInv(s) && ServerEnabled(s, Deliver(th))
    ensures ServerInv(Settle(NextDeliver(s, th), th))
  {
    DeliverKeeps(s, th);
    var s1 := NextDeliver(s, th);
    if ServerEnabled(s1, Send(th)) { SendKeeps(s1, th); }
  }

  /** A delivery adds one success exactly when it is accepted. */
  lemma DeliveryCounts(s: Server, th: nat)
    requires ServerInv(s) && ServerEnabled(s, Deliver(th)) && s.threads[th].call.r != 0
    ensures var r := s.threads[th].call.r;
            Successes(Settle(NextDeliver(s, th), th), r) == Successes(s, r) + (if Accepts(s, th, r) then 1 else 0)
  {
    assert ThreadOk(s.threads[th], th, s.reqs);
  }
}

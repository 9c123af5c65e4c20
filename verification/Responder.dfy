/**
 * The server's responder registry: a request is answered through the slot of the thread inside its own callback, or
 * through a one-shot channel from any thread, and a streaming response claims its state first. Threads interleave at
 * every access of the shared maps.
 */
module Responder {
  import opened Abi

  const SERVER_OK := 1
  const NOT_DELIVERED := 0
  const ERR_WRONG_STATE := -4

  /** A response carries the responder it was addressed to; tag stands for its status, headers and body. */
  datatype Delivery = Buffered(owner: nat, tag: nat) | Stream(owner: nat, tag: nat) | Busy(owner: nat)

  datatype Tx = Registered | Held | Spent

  datatype Phase =
    | InCallback(th: nat)
    | Awaiting
    | Took(answer: Delivery)
    | Leaving                             // the connection is gone, the registration not yet removed
    | Left(result: Option<Delivery>)

  /** One request: where its handler task is, and what became of its one-shot channel. synced and the two counts record
      which deliveries were reported as successful: through the slot, and through the channel. */
  datatype Req = Req(
    phase: Phase, alive: bool, tx: Tx, channel: Option<Delivery>,
    synced: Option<Delivery>, syncOk: nat, chanOk: nat)

  datatype Call =
    | NoCall
    | Responding(r: nat, tag: nat)        // past the streaming check
    | Beginning(r: nat, tag: nat)         // the streaming state is claimed
    | Sending(r: nat, d: Delivery, begin: bool)     // the sender is out of the registry
    | Undoing(r: nat)

  /** inCallback is the responder whose callback runs on this thread, 0 for none. */
  datatype Thread = Thread(inCallback: nat, slot: Option<Delivery>, call: Call)

  datatype Server = Server(reqs: seq<Req>, threads: seq<Thread>, active: set<nat>)

  datatype ServerStep =
    | Enter(th: nat) | Respond(th: nat, r: nat, tag: nat) | Begin(th: nat, r: nat, tag: nat)
    | Deliver(th: nat) | Send(th: nat) | Undo(th: nat) | Finish(r: nat)
    | Return(th: nat) | Receive(r: nat) | Lost(r: nat) | Leave(r: nat) | Gone(r: nat) | Unregister(r: nat)

  // ---- steps ----------------------------------------------------------------------------------

  /** Responders are numbered from 1 in the order of registration. */
  predicate Known(s: Server, r: nat) {
    0 < r <= |s.reqs|
  }

  function ReqOf(s: Server, r: nat): Req
    requires Known(s, r)
  {
    s.reqs[r - 1]
  }

  function WithReq(s: Server, r: nat, q: Req): Server
    requires Known(s, r)
  {
    s.(reqs := s.reqs[r - 1 := q])
  }

  function WithThread(s: Server, th: nat, t: Thread): Server
    requires th < |s.threads|
  {
    s.(threads := s.threads[th := t])
  }

  predicate ServerEnabled(s: Server, step: ServerStep) {
    match step
    case Enter(th) => th < |s.threads| && s.threads[th].inCallback == 0 && s.threads[th].call.NoCall?
    case Respond(th, r, _) => th < |s.threads| && s.threads[th].call.NoCall?
    case Begin(th, r, _) => th < |s.threads| && s.threads[th].call.NoCall?
    case Deliver(th) => th < |s.threads| && (s.threads[th].call.Responding? || s.threads[th].call.Beginning?)
    case Send(th) => th < |s.threads| && s.threads[th].call.Sending? && Known(s, s.threads[th].call.r)
    case Undo(th) => th < |s.threads| && s.threads[th].call.Undoing?
    case Finish(r) => true
    case Return(th) => th < |s.threads| && s.threads[th].call.NoCall? && Known(s, s.threads[th].inCallback)
    case Receive(r) => Known(s, r) && ReqOf(s, r).phase.Awaiting? && ReqOf(s, r).channel.Some?
    // The channel's sender was dropped unused.
    case Lost(r) => Known(s, r) && ReqOf(s, r).phase.Awaiting? && ReqOf(s, r).channel.None? && ReqOf(s, r).tx.Spent?
    case Leave(r) => Known(s, r) && ReqOf(s, r).phase.Took?
    case Gone(r) => Known(s, r) && ReqOf(s, r).phase.Awaiting?
    case Unregister(r) => Known(s, r) && ReqOf(s, r).phase.Leaving?
  }

  function NextEnter(s: Server, th: nat): Server
    requires th < |s.threads|
  {
    s.(reqs := s.reqs + [Req(InCallback(th), true, Registered, None, None, 0, 0)],
       threads := s.threads[th := s.threads[th].(inCallback := |s.reqs| + 1)])
  }

  /** Takes the sender out of the registry if it is still there; without it there is nothing to deliver to. */
  function NextChannel(s: Server, th: nat, r: nat, d: Delivery, begin: bool): Server
    requires th < |s.threads|
  {
    var t := s.threads[th];
    if Known(s, r) && ReqOf(s, r).tx.Registered? then
      WithThread(WithReq(s, r, ReqOf(s, r).(tx := Held)), th, t.(call := Sending(r, d, begin)))
    else
      WithThread(s, th, t.(call := if begin then Undoing(r) else NoCall))
  }

  function Synced(q: Req, d: Delivery): Req {
    q.(synced := Some(d), syncOk := q.syncOk + 1)
  }

  function NextDeliver(s: Server, th: nat): Server
    requires ServerEnabled(s, Deliver(th))
  {
    var t := s.threads[th];
    var r, begin := t.call.r, t.call.Beginning?;
    var d := if begin then Stream(r, t.call.tag) else Buffered(r, t.call.tag);
    if r != 0 && t.inCallback == r && Known(s, r) then
      if t.slot.None? then
        WithThread(WithReq(s, r, Synced(ReqOf(s, r), d)), th, t.(slot := Some(d), call := NoCall))
      else
        NextChannel(s, th, r, Busy(r), begin)
    else
      NextChannel(s, th, r, d, begin)
  }

  /** The send succeeds exactly when the receiver still exists. */
  function NextSend(s: Server, th: nat): Server
    requires ServerEnabled(s, Send(th))
  {
    var t := s.threads[th];
    var q := ReqOf(s, t.call.r);
    if q.alive then
      WithThread(WithReq(s, t.call.r, q.(tx := Spent, channel := Some(t.call.d), chanOk := q.chanOk + 1)), th, t.(call := NoCall))
    else
      WithThread(WithReq(s, t.call.r, q.(tx := Spent)), th, t.(call := if t.call.begin then Undoing(t.call.r) else NoCall))
  }

  function NextReturn(s: Server, th: nat): Server
    requires ServerEnabled(s, Return(th))
  {
    var t := s.threads[th];
    var q := ReqOf(s, t.inCallback);
    WithThread(WithReq(s, t.inCallback, q.(phase := if t.slot.Some? then Took(t.slot.value) else Awaiting)), th,
               t.(inCallback := 0, slot := None))
  }

  function ServerNext(s: Server, step: ServerStep): Server
    requires ServerEnabled(s, step)
  {
    match step
    case Enter(th) => NextEnter(s, th)
    case Respond(th, r, tag) =>
      if r == 0 || r in s.active then s else WithThread(s, th, s.threads[th].(call := Responding(r, tag)))
    case Begin(th, r, tag) =>
      if r == 0 || r in s.active then s
      else WithThread(s, th, s.threads[th].(call := Beginning(r, tag))).(active := s.active + {r})
    case Deliver(th) => NextDeliver(s, th)
    case Send(th) => NextSend(s, th)
    case Undo(th) => WithThread(s, th, s.threads[th].(call := NoCall)).(active := s.active - {s.threads[th].call.r})
    case Finish(r) => s.(active := s.active - {r})
    case Return(th) => NextReturn(s, th)
    case Receive(r) => WithReq(s, r, ReqOf(s, r).(phase := Took(ReqOf(s, r).channel.value)))
    case Lost(r) => WithReq(s, r, ReqOf(s, r).(phase := Left(None)))
    case Leave(r) => WithReq(s, r, Drop(ReqOf(s, r)).(phase := Left(Some(ReqOf(s, r).phase.answer))))
    case Gone(r) => WithReq(s, r, ReqOf(s, r).(phase := Leaving, alive := false))
    case Unregister(r) => WithReq(s, r, Drop(ReqOf(s, r)).(phase := Left(None)))
  }

  /** The guard's drop removes the registration, and with it a sender nobody took. */
  function Drop(q: Req): Req {
    q.(alive := false, tx := if q.tx.Registered? then Spent else q.tx)
  }

  ghost predicate ServerCanRun(s: Server, steps: seq<ServerStep>)
    decreases |steps|
  {
    steps != [] ==> ServerEnabled(s, steps[0]) && ServerCanRun(ServerNext(s, steps[0]), steps[1..])
  }

  ghost function ServerAfter(s: Server, steps: seq<ServerStep>): Server
    requires ServerCanRun(s, steps)
    decreases |steps|
  {
    if steps == [] then s else ServerAfter(ServerNext(s, steps[0]), steps[1..])
  }

  function NewServer(threads: nat): Server {
    Server([], seq(threads, _ => Thread(0, None, NoCall)), {})
  }

  function Successes(s: Server, r: nat): nat {
    if Known(s, r) then ReqOf(s, r).syncOk + ReqOf(s, r).chanOk else 0
  }

  // ---- the invariant --------------------------------------------------------------------------

  /** A thread's slot holds an answer to the request whose callback it is in, and only then. */
  predicate ThreadOk(t: Thread, th: nat, reqs: seq<Req>) {
    && t.inCallback <= |reqs|
    && (t.slot.Some? ==> t.inCallback != 0 && t.slot.value.owner == t.inCallback && !t.slot.value.Busy?)
    && (t.inCallback != 0 ==>
          && reqs[t.inCallback - 1].phase == InCallback(th)
          && reqs[t.inCallback - 1].synced == t.slot)
  }

  /** A send in progress is addressed to its own responder and owns that responder's only sender. */
  predicate SendOk(c: Call, reqs: seq<Req>) {
    c.Sending? ==>
      && 0 < c.r <= |reqs| && c.d.owner == c.r
      && reqs[c.r - 1].tx.Held?
      && (c.d.Busy? ==> reqs[c.r - 1].synced.Some?)
  }

  /** The slot beats the channel. */
  function Answer(q: Req): Option<Delivery> {
    if q.synced.Some? then q.synced else q.channel
  }

  predicate Addressed(o: Option<Delivery>, r: nat) {
    o.Some? ==> o.value.owner == r
  }

  predicate ReqOk(q: Req, r: nat, threads: seq<Thread>) {
    && q.syncOk == (if q.synced.Some? then 1 else 0)
    && q.chanOk == (if q.channel.Some? then 1 else 0)
    && Addressed(q.synced, r) && Addressed(q.channel, r)
    && (q.synced.Some? ==> !q.synced.value.Busy?)
    && (q.channel.Some? ==> q.tx.Spent? && (q.channel.value.Busy? ==> q.synced.Some?))
    && (q.phase.InCallback? ==> q.phase.th < |threads| && threads[q.phase.th].inCallback == r)
    && (q.phase.InCallback? || q.phase.Awaiting? ==> q.alive && (q.tx.Spent? ==> q.channel.Some?))
    && (q.phase.Awaiting? ==> q.synced.None?)
    && (q.phase.Took? ==> Some(q.phase.answer) == Answer(q))
    && (q.phase.Left? ==> !q.alive && !q.tx.Registered? && (q.phase.result.Some? ==> q.phase.result == Answer(q)))
  }

  predicate OneSender(threads: seq<Thread>) {
    forall i, j :: 0 <= i < j < |threads| && threads[i].call.Sending? && threads[j].call.Sending? ==> threads[i].call.r != threads[j].call.r
  }

  predicate ServerInv(s: Server) {
    && (forall th: nat :: th < |s.threads| ==> ThreadOk(s.threads[th], th, s.reqs))
    && (forall th: nat :: th < |s.threads| ==> SendOk(s.threads[th].call, s.reqs))
    && (forall k: nat :: k < |s.reqs| ==> ReqOk(s.reqs[k], k + 1, s.threads))
    && OneSender(s.threads)
  }
}

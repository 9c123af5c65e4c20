/** What the registry guarantees in every run, and where a reported success is not what the client gets. */
module ResponderTheorems {
  import opened Abi
  import opened Responder
  import opened ResponderSafety

  ghost predicate ServerReachable(s: Server) {
    exists n: nat, steps: seq<ServerStep> :: ServerCanRun(NewServer(n), steps) && s == ServerAfter(NewServer(n), steps)
  }

  lemma {:induction false} ServerRunKeeps(s: Server, steps: seq<ServerStep>)
    requires ServerInv(s) && ServerCanRun(s, steps)
    ensures ServerInv(ServerAfter(s, steps))
    decreases |steps|
  {
    if steps != [] {
      ServerStepKeeps(s, steps[0]);
      ServerRunKeeps(ServerNext(s, steps[0]), steps[1..]);
    }
  }

  lemma ReachableServer(s: Server)
    requires ServerReachable(s)
    ensures ServerInv(s)
  {
    var n: nat, steps: seq<ServerStep> :| ServerCanRun(NewServer(n), steps) && s == ServerAfter(NewServer(n), steps);
    ServerRunKeeps(NewServer(n), steps);
  }

  /** A request is only ever answered with a response addressed to it, whichever threads resumed where, and never with
      the stand-in of the busy slot. */
  lemma NoCrossDelivery(s: Server, r: nat)
    requires ServerReachable(s) && Known(s, r)
    ensures var p := ReqOf(s, r).phase;
            && (p.Took? ==> p.answer.owner == r && !p.answer.Busy?)
            && (p.Left? && p.result.Some? ==> p.result.value.owner == r && !p.result.value.Busy?)
  {
    ReachableServer(s);
    assert ReqOk(s.reqs[r - 1], r, s.threads);
  }

  /** At most one delivery succeeds through the slot and at most one through the channel. A request never answered
      from inside its own callback therefore has at most one success. */
  lemma AtMostOneSuccessPerRoute(s: Server, r: nat)
    requires ServerReachable(s) && Known(s, r)
    ensures var q := ReqOf(s, r); q.syncOk <= 1 && q.chanOk <= 1 && (q.synced.None? ==> q.syncOk + q.chanOk <= 1)
  {
    ReachableServer(s);
    assert ReqOk(s.reqs[r - 1], r, s.threads);
  }

  /** The slot is only ever filled for the request whose callback the delivering thread is in. */
  lemma SlotOnlyInOwnCallback(s: Server, step: ServerStep, r: nat)
    requires ServerEnabled(s, step) && Known(s, r)
    ensures Known(ServerNext(s, step), r)
    ensures ReqOf(ServerNext(s, step), r).syncOk != ReqOf(s, r).syncOk
       ==> step.Deliver? && s.threads[step.th].inCallback == r && s.threads[step.th].call.r == r
  {
  }

  /** Which of the successful deliveries the client gets: the slot's, and the channel's only if there is none. */
  lemma AnswerIsSlotElseChannel(s: Server, r: nat)
    requires ServerReachable(s) && Known(s, r) && ReqOf(s, r).phase.Left? && ReqOf(s, r).phase.result.Some?
    ensures ReqOf(s, r).phase.result == if ReqOf(s, r).syncOk > 0 then ReqOf(s, r).synced else ReqOf(s, r).channel
    ensures ReqOf(s, r).syncOk + ReqOf(s, r).chanOk > 0
  {
    ReachableServer(s);
    assert ReqOk(s.reqs[r - 1], r, s.threads);
  }

  /** A handler that waits always has a sender left that can still answer it, or an answer already there: the branch
      for a dropped sender is never taken. */
  lemma WaitingIsAnswerable(s: Server, r: nat)
    requires ServerReachable(s) && Known(s, r) && ReqOf(s, r).phase.Awaiting?
    ensures ReqOf(s, r).tx.Registered? || ReqOf(s, r).tx.Held? || ReqOf(s, r).channel.Some?
    ensures !ServerEnabled(s, Lost(r))
  {
    ReachableServer(s);
    NeverLost(s, r);
    assert ReqOk(s.reqs[r - 1], r, s.threads);
  }

  /** No registration outlives its request. */
  lemma RegistrationDoesNotLeak(s: Server, r: nat)
    requires ServerReachable(s) && Known(s, r) && ReqOf(s, r).phase.Left?
    ensures !ReqOf(s, r).tx.Registered?
  {
    ReachableServer(s);
    assert ReqOk(s.reqs[r - 1], r, s.threads);
  }

  lemma StaleDeliver(s: Server, th: nat, r: nat)
    requires ServerInv(s) && ServerEnabled(s, Deliver(th)) && Known(s, r) && ReqOf(s, r).phase.Left?
    ensures Known(NextDeliver(s, th), r) && ReqOf(NextDeliver(s, th), r) == ReqOf(s, r)
  {
    assert ReqOk(s.reqs[r - 1], r, s.threads) && ThreadOk(s.threads[th], th, s.reqs);
  }

  /** A responder whose request is over refuses every later delivery. */
  lemma StaleStep(s: Server, step: ServerStep, r: nat)
    requires ServerInv(s) && ServerEnabled(s, step) && Known(s, r) && ReqOf(s, r).phase.Left?
    ensures Known(ServerNext(s, step), r)
    ensures var q := ReqOf(ServerNext(s, step), r);
            q.phase == ReqOf(s, r).phase && q.syncOk == ReqOf(s, r).syncOk && q.chanOk == ReqOf(s, r).chanOk
  {
    assert ReqOk(s.reqs[r - 1], r, s.threads);
    match step
    case Deliver(th) => StaleDeliver(s, th, r);
    case Return(th) => assert ThreadOk(s.threads[th], th, s.reqs);
    case Enter(th) =>
    case Respond(th, x, tag) =>
    case Begin(th, x, tag) =>
    case Send(th) =>
    case Undo(th) =>
    case Finish(x) =>
    case Receive(x) =>
    case Lost(x) =>
    case Leave(x) =>
    case Gone(x) =>
    case Unregister(x) =>
  }

  lemma {:induction false} StaleResponderIsRefused(s: Server, steps: seq<ServerStep>, r: nat)
    requires ServerInv(s) && Known(s, r) && ReqOf(s, r).phase.Left? && ServerCanRun(s, steps)
    ensures Known(ServerAfter(s, steps), r)
    ensures var q := ReqOf(ServerAfter(s, steps), r); q.syncOk == ReqOf(s, r).syncOk && q.chanOk == ReqOf(s, r).chanOk
    decreases |steps|
  {
    if steps != [] {
      StaleStep(s, steps[0], r);
      ServerStepKeeps(s, steps[0]);
      StaleResponderIsRefused(ServerNext(s, steps[0]), steps[1..], r);
    }
  }

  // ---- what is given is what is delivered -----------------------------------------------------

  /** What a step of a caller gives for its request: a whole response, or the head of a stream. */
  function Gives(step: ServerStep): Option<Delivery> {
    match step
    case Respond(_, r, tag) => Some(Buffered(r, tag))
    case Begin(_, r, tag) => Some(Stream(r, tag))
    case _ => None
  }

  /** What a call under way was given. */
  function GivenBy(c: Call): Option<Delivery> {
    match c
    case Responding(r, tag) => Some(Buffered(r, tag))
    case Beginning(r, tag) => Some(Stream(r, tag))
    case _ => None
  }

  /** A call is under way with what it was given, unless it is refused at once: id 0, or a stream is active. */
  lemma CallIsGiven(s: Server, step: ServerStep)
    requires ServerEnabled(s, step) && Gives(step).Some?
    ensures var r := Gives(step).value.owner;
            if r == 0 || r in s.active then ServerNext(s, step) == s
            else GivenBy(ServerNext(s, step).threads[step.th].call) == Gives(step) && ServerNext(s, step).reqs == s.reqs
  {}

  /**
   * Where a delivery goes, and as what: inside the request's own callback into the slot, once; a second one there leaves
   * the slot alone and sends the stand-in; from anywhere else what was given is sent. A send that arrives stores it.
   */
  lemma DeliveryKeepsPayload(s: Server, th: nat, r: nat)
    requires ServerInv(s) && ServerEnabled(s, Deliver(th)) && Known(s, r) && s.threads[th].call.r == r
    ensures var t, u, given := s.threads[th], NextDeliver(s, th), GivenBy(s.threads[th].call);
            if t.inCallback == r && t.slot.None?
            then ReqOf(u, r).synced == given && u.threads[th].slot == given
            else ReqOf(u, r).synced == ReqOf(s, r).synced && u.threads[th].slot == t.slot
                 && (u.threads[th].call.Sending? ==> u.threads[th].call.d == if t.inCallback == r then Busy(r) else given.value)
  {}

  lemma SendKeepsPayload(s: Server, th: nat)
    requires ServerEnabled(s, Send(th))
    ensures var r := s.threads[th].call.r;
            ReqOf(NextSend(s, th), r).channel == if ReqOf(s, r).alive then Some(s.threads[th].call.d) else ReqOf(s, r).channel
  {}

  /** Somebody gave this delivery in the run so far. */
  predicate GivenIn(past: seq<ServerStep>, d: Delivery) {
    exists k :: 0 <= k < |past| && Gives(past[k]) == Some(d)
  }

  predicate Sourced(past: seq<ServerStep>, o: Option<Delivery>) {
    o.Some? && !o.value.Busy? ==> GivenIn(past, o.value)
  }

  predicate ThreadSourced(past: seq<ServerStep>, t: Thread) {
    && Sourced(past, t.slot) && Sourced(past, GivenBy(t.call))
    && (t.call.Sending? ==> Sourced(past, Some(t.call.d)))
  }

  predicate ReqSourced(past: seq<ServerStep>, q: Req) {
    && Sourced(past, q.synced) && Sourced(past, q.channel)
    && (q.phase.Took? ==> Sourced(past, Some(q.phase.answer)))
    && (q.phase.Left? ==> Sourced(past, q.phase.result))
  }

  /** Everything on its way to a client, and everything that arrived, was given by a call of the run. */
  ghost predicate AllSourced(past: seq<ServerStep>, s: Server) {
    && (forall th :: 0 <= th < |s.threads| ==> ThreadSourced(past, s.threads[th]))
    && (forall k :: 0 <= k < |s.reqs| ==> ReqSourced(past, s.reqs[k]))
  }

  lemma StillGiven(past: seq<ServerStep>, step: ServerStep, s: Server)
    requires AllSourced(past, s)
    ensures AllSourced(past + [step], s)
    ensures Gives(step).Some? ==> GivenIn(past + [step], Gives(step).value)
  {
    var now := past + [step];
    assert now[|past|] == step;
    forall d | GivenIn(past, d) ensures GivenIn(now, d) {
      var k :| 0 <= k < |past| && Gives(past[k]) == Some(d);
      assert now[k] == past[k];
    }
    forall th | 0 <= th < |s.threads| ensures ThreadSourced(now, s.threads[th]) { assert ThreadSourced(past, s.threads[th]); }
    forall k | 0 <= k < |s.reqs| ensures ReqSourced(now, s.reqs[k]) { assert ReqSourced(past, s.reqs[k]); }
  }

  lemma DeliverSourced(past: seq<ServerStep>, s: Server, th: nat)
    requires AllSourced(past, s) && ServerEnabled(s, Deliver(th))
    ensures AllSourced(past, NextDeliver(s, th))
  {
    assert ThreadSourced(past, s.threads[th]);
    var u, r := NextDeliver(s, th), s.threads[th].call.r;
    if Known(s, r) { assert ReqSourced(past, s.reqs[r - 1]) && ReqSourced(past, u.reqs[r - 1]); }
    assert ThreadSourced(past, u.threads[th]);
  }

  lemma SendSourced(past: seq<ServerStep>, s: Server, th: nat)
    requires AllSourced(past, s) && ServerEnabled(s, Send(th))
    ensures AllSourced(past, NextSend(s, th))
  {
    assert ThreadSourced(past, s.threads[th]) && ReqSourced(past, s.reqs[s.threads[th].call.r - 1]);
  }

  lemma ReturnSourced(past: seq<ServerStep>, s: Server, th: nat)
    requires AllSourced(past, s) && ServerEnabled(s, Return(th))
    ensures AllSourced(past, NextReturn(s, th))
  {
    assert ThreadSourced(past, s.threads[th]) && ReqSourced(past, s.reqs[s.threads[th].inCallback - 1]);
  }

  lemma CallSourced(past: seq<ServerStep>, s: Server, step: ServerStep)
    requires AllSourced(past, s) && ServerEnabled(s, step) && (Gives(step).Some? ==> GivenIn(past, Gives(step).value))
    requires step.Respond? || step.Begin?
    ensures AllSourced(past, ServerNext(s, step))
  {
    assert ThreadSourced(past, s.threads[step.th]);
  }

  lemma OtherSourced(past: seq<ServerStep>, s: Server, step: ServerStep)
    requires AllSourced(past, s) && ServerEnabled(s, step)
    requires !step.Respond? && !step.Begin? && !step.Deliver? && !step.Send? && !step.Return?
    ensures AllSourced(past, ServerNext(s, step))
  {
    match step
    case Enter(th) => assert ThreadSourced(past, s.threads[th]);
    case Undo(th) => assert ThreadSourced(past, s.threads[th]);
    case Finish(r) =>
    case Receive(r) => assert ReqSourced(past, s.reqs[r - 1]);
    case Lost(r) => assert ReqSourced(past, s.reqs[r - 1]);
    case Leave(r) => assert ReqSourced(past, s.reqs[r - 1]);
    case Gone(r) => assert ReqSourced(past, s.reqs[r - 1]);
    case Unregister(r) => assert ReqSourced(past, s.reqs[r - 1]);
  }

  lemma SourcedStep(past: seq<ServerStep>, s: Server, step: ServerStep)
    requires AllSourced(past, s) && ServerEnabled(s, step)
    ensures AllSourced(past + [step], ServerNext(s, step))
  {
    StillGiven(past, step, s);
    if step.Respond? || step.Begin? {
      CallSourced(past + [step], s, step);
    } else if step.Deliver? {
      DeliverSourced(past + [step], s, step.th);
    } else if step.Send? {
      SendSourced(past + [step], s, step.th);
    } else if step.Return? {
      ReturnSourced(past + [step], s, step.th);
    } else {
      OtherSourced(past + [step], s, step);
    }
  }

  lemma {:induction false} SourcedRun(past: seq<ServerStep>, s: Server, steps: seq<ServerStep>)
    requires AllSourced(past, s) && ServerCanRun(s, steps)
    ensures AllSourced(past + steps, ServerAfter(s, steps))
    decreases |steps|
  {
    if steps == [] {
      assert past + steps == past;
    } else {
      SourcedStep(past, s, steps[0]);
      SourcedRun(past + [steps[0]], ServerNext(s, steps[0]), steps[1..]);
      assert past + [steps[0]] + steps[1..] == past + steps;
    }
  }

  /**
   * In every run, what the client of a request gets is, to the last byte, what some call of the run gave for that very
   * request: the head of a stream from a begin, a whole response from a respond, never anything made up.
   */
  lemma ResultWasGiven(n: nat, steps: seq<ServerStep>, r: nat)
    requires ServerCanRun(NewServer(n), steps) && Known(ServerAfter(NewServer(n), steps), r)
    ensures var p := ReqOf(ServerAfter(NewServer(n), steps), r).phase;
            p.Left? && p.result.Some? ==> p.result.value.owner == r && GivenIn(steps, p.result.value)
  {
    var none: seq<ServerStep> := [];
    SourcedRun(none, NewServer(n), steps);
    assert none + steps == steps;
    var s := ServerAfter(NewServer(n), steps);
    assert ReqSourced(steps, s.reqs[r - 1]);
    NoCrossDelivery(s, r);
  }

  // ---- a second success -----------------------------------------------------------------------

  /**
   * The two steps: a send over the channel reaches its receiver after the slot was filled; the slot is filled from
   * inside the request's own callback after a send over the channel got through.
   */
  predicate SecondSuccess(s: Server, step: ServerStep, r: nat)
    requires ServerEnabled(s, step) && Known(s, r)
  {
    match step
    case Send(th) => s.threads[th].call.r == r && ReqOf(s, r).alive && ReqOf(s, r).syncOk == 1
    case Deliver(th) => s.threads[th].call.r == r && s.threads[th].inCallback == r && s.threads[th].slot.None? && ReqOf(s, r).chanOk == 1
    case _ => false
  }

  lemma DeliverCounts(s: Server, th: nat, r: nat)
    requires ServerInv(s) && ServerEnabled(s, Deliver(th)) && Known(s, r) && Successes(s, r) <= 1
    ensures Successes(NextDeliver(s, th), r) == 2 <==> SecondSuccess(s, Deliver(th), r)
    ensures Successes(NextDeliver(s, th), r) <= 2
  {
    assert ReqOk(s.reqs[r - 1], r, s.threads);
    assert ThreadOk(s.threads[th], th, s.reqs);
  }

  /** In every state, a step makes a second delivery to the same request succeed if and only if it is one of the two. */
  lemma SecondSuccessIff(s: Server, step: ServerStep, r: nat)
    requires ServerInv(s) && ServerEnabled(s, step) && Known(s, r) && Successes(s, r) <= 1
    ensures Successes(ServerNext(s, step), r) == 2 <==> SecondSuccess(s, step, r)
    ensures Successes(ServerNext(s, step), r) <= 2
  {
    match step
    case Deliver(th) => DeliverCounts(s, th, r);
    case Send(th) => assert ReqOk(s.reqs[r - 1], r, s.threads);
    case _ =>
  }

  ghost predicate NoSecondSuccess(s: Server, steps: seq<ServerStep>, r: nat)
    requires ServerCanRun(s, steps)
    decreases |steps|
  {
    steps != [] ==> (Known(s, r) ==> !SecondSuccess(s, steps[0], r)) && NoSecondSuccess(ServerNext(s, steps[0]), steps[1..], r)
  }

  /** So a request has at most one success in every run without such a step. */
  lemma {:induction false} OneSuccessWithout(s: Server, steps: seq<ServerStep>, r: nat)
    requires ServerInv(s) && ServerCanRun(s, steps) && NoSecondSuccess(s, steps, r) && Successes(s, r) <= 1
    ensures Successes(ServerAfter(s, steps), r) <= 1
    decreases |steps|
  {
    if steps != [] {
      if Known(s, r) { SecondSuccessIff(s, steps[0], r); } else { NewcomerIsUnanswered(s, steps[0], r); }
      ServerStepKeeps(s, steps[0]);
      OneSuccessWithout(ServerNext(s, steps[0]), steps[1..], r);
    }
  }

  lemma NewcomerIsUnanswered(s: Server, step: ServerStep, r: nat)
    requires ServerEnabled(s, step) && !Known(s, r)
    ensures Successes(ServerNext(s, step), r) == 0
  {}

  lemma {:induction false} ServerRunSnoc(s: Server, steps: seq<ServerStep>, step: ServerStep)
    requires ServerCanRun(s, steps) && ServerEnabled(ServerAfter(s, steps), step)
    ensures ServerCanRun(s, steps + [step])
    ensures ServerAfter(s, steps + [step]) == ServerNext(ServerAfter(s, steps), step)
    decreases |steps|
  {
    if steps == [] {
      assert [step][1..] == [];
    } else {
      ServerRunSnoc(ServerNext(s, steps[0]), steps[1..], step);
      assert (steps + [step])[1..] == steps[1..] + [step];
    }
  }

  lemma Then(s: Server, step: ServerStep, t: Server)
    requires ServerReachable(s) && ServerEnabled(s, step) && t == ServerNext(s, step)
    ensures ServerReachable(t)
  {
    var n: nat, steps: seq<ServerStep> :| ServerCanRun(NewServer(n), steps) && s == ServerAfter(NewServer(n), steps);
    ServerRunSnoc(NewServer(n), steps, step);
  }

  /** One request, in its callback on the first of two threads. */
  function Two(q: Req, t: Thread, u: Thread): Server {
    Server([q], [t, u], {})
  }

  const First := Buffered(1, 7)
  const Second := Buffered(1, 8)
  const Other := Thread(0, None, NoCall)
  const Fresh := Req(InCallback(0), true, Registered, None, None, 0, 0)

  lemma ReachFresh()
    ensures ServerReachable(Two(Fresh, Thread(1, None, NoCall), Other))
  {
    var s := NewServer(2);
    assert ServerCanRun(s, []) && ServerAfter(s, []) == s;
    assert s.threads == [Other, Other];
    Then(s, Enter(0), Two(Fresh, Thread(1, None, NoCall), Other));
  }

  /** The callback is over, and the request with it. */
  lemma Ends(q: Req, d: Delivery)
    requires q.phase == InCallback(0) && ServerReachable(Two(q, Thread(1, Some(d), NoCall), Other))
    ensures ServerReachable(Two(Drop(q).(phase := Left(Some(d))), Other, Other))
  {
    var took := q.(phase := Took(d));
    Then(Two(q, Thread(1, Some(d), NoCall), Other), Return(0), Two(took, Other, Other));
    Then(Two(took, Other, Other), Leave(1), Two(Drop(q).(phase := Left(Some(d))), Other, Other));
  }

  const Once := Fresh.(synced := Some(First), syncOk := 1)
  const SlotFirst := Once.(tx := Spent, channel := Some(Busy(1)), chanOk := 1)

  lemma ReachOnce()
    ensures ServerReachable(Two(Once, Thread(1, Some(First), NoCall), Other))
  {
    ReachFresh();
    Then(Two(Fresh, Thread(1, None, NoCall), Other), Respond(0, 1, 7), Two(Fresh, Thread(1, None, Responding(1, 7)), Other));
    Then(Two(Fresh, Thread(1, None, Responding(1, 7)), Other), Deliver(0), Two(Once, Thread(1, Some(First), NoCall), Other));
  }

  /** A handler that answers twice inside its callback is told twice that it succeeded. The client gets the first. */
  lemma SecondAnswerAlsoSucceeds()
    ensures ServerReachable(Two(SlotFirst.(alive := false, phase := Left(Some(First))), Other, Other))
    ensures SlotFirst.syncOk + SlotFirst.chanOk == 2
  {
    ReachOnce();
    var t := Thread(1, Some(First), NoCall);
    Then(Two(Once, t, Other), Respond(0, 1, 8), Two(Once, t.(call := Responding(1, 8)), Other));
    Then(Two(Once, t.(call := Responding(1, 8)), Other), Deliver(0), Two(Once.(tx := Held), t.(call := Sending(1, Busy(1), false)), Other));
    Then(Two(Once.(tx := Held), t.(call := Sending(1, Busy(1), false)), Other), Send(0), Two(SlotFirst, t, Other));
    Ends(SlotFirst, First);
  }

  const Answered := Fresh.(tx := Spent, channel := Some(First), chanOk := 1)
  const ChannelFirst := Answered.(synced := Some(Second), syncOk := 1)

  /** Another thread answers while the callback runs. */
  lemma ReachAnswered()
    ensures ServerReachable(Two(Answered, Thread(1, None, NoCall), Other))
  {
    ReachFresh();
    var t := Thread(1, None, NoCall);
    Then(Two(Fresh, t, Other), Respond(1, 1, 7), Two(Fresh, t, Other.(call := Responding(1, 7))));
    Then(Two(Fresh, t, Other.(call := Responding(1, 7))), Deliver(1), Two(Fresh.(tx := Held), t, Other.(call := Sending(1, First, false))));
    Then(Two(Fresh.(tx := Held), t, Other.(call := Sending(1, First, false))), Send(1), Two(Answered, t, Other));
  }

  /** Another thread's answer is reported as delivered, then the callback answers as well: the client gets the callback's
      and the one that was reported first is lost. */
  lemma ReportedAnswerIsLost()
    ensures ServerReachable(Two(Answered, Thread(1, None, NoCall), Other)) && Answered.chanOk == 1
    ensures ServerReachable(Two(ChannelFirst.(alive := false, phase := Left(Some(Second))), Other, Other))
    ensures ChannelFirst.syncOk + ChannelFirst.chanOk == 2
  {
    ReachAnswered();
    var t := Thread(1, None, NoCall);
    Then(Two(Answered, t, Other), Respond(0, 1, 8), Two(Answered, t.(call := Responding(1, 8)), Other));
    Then(Two(Answered, t.(call := Responding(1, 8)), Other), Deliver(0), Two(ChannelFirst, Thread(1, Some(Second), NoCall), Other));
    Ends(ChannelFirst, Second);
  }
}

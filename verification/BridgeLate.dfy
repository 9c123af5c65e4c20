/**
 * A request whose Done has returned and which has left the request map: only workers act on it now. Exactly when they
 * can still begin a callback is a matter of its queue, its owner, the copies in the ready queue and the pause.
 */
module BridgeLate {
  import opened Abi
  import opened Bridge
  import opened BridgeSafety
  import opened BridgeTheorems
  import opened BridgeWakeups

  /** The owner, or else a worker that has yet to come, gets to the head of the queue. */
  predicate GetsThere(owner: Phase, hold: Hold, c: Sched) {
    match owner
    case Working(left) => left > 0 || Coming(c)
    case Calling(_, left) => left > 0 || Coming(c)
    case Reacting(action, left) =>
      && (action == Pause ==> hold.permit)
      && ((left > 0 && action != Cancel) || Coming(c))
    case _ => Coming(c)
  }

  /** An event the caller sees is still queued, its delivery is not held, and a worker gets to it. */
  predicate StillCalls(s: Slot) {
    && s.life.gate.Drain? && s.flow.queue != [] && IsVisible(s.hasOnChunk, s.flow.queue[0])
    && !s.hold.paused && GetsThere(s.owner, s.hold, s.sched)
  }

  /** No API caller finds the request any more, and the task of a drained one is over. */
  predicate OutOfMap(s: Slot, step: Step) {
    step.Api? ==> step.a.SettlePublish? || (step.a.SettleClaim? && !s.life.gate.Drain?)
  }

  // ---- otherwise nothing begins ---------------------------------------------------------------

  lemma TakeStaysSilent(s: Slot)
    requires Inv(s) && s.life.finished && !StillCalls(s) && s.owner.Working?
    ensures !StillCalls(NextTake(s)) && NextTake(s).log == s.log
  {
    if s.life.gate.Discard? {
    } else if s.flow.queue != [] && !IsVisible(s.hasOnChunk, s.flow.queue[0]) {
      HeadHidesRest(s);
    }
  }

  lemma ReactStaysSilent(s: Slot)
    requires Inv(s) && s.life.finished && !StillCalls(s) && s.owner.Reacting?
    ensures !StillCalls(NextReact(s)) && NextReact(s).log == s.log
  {
    match s.owner.action
    case Cancel =>
    case Pause => if s.hold.permit {} else {}
    case Continue =>
  }

  lemma WorkStaysSilent(s: Slot, step: WorkStep)
    requires Inv(s) && s.life.finished && !StillCalls(s) && WorkEnabled(s, step)
    ensures !StillCalls(NextWork(s, step))
    ensures NextWork(s, step).log == s.log || NextWork(s, step).log == s.log + [Returned]
  {
    match step
    case Take => TakeStaysSilent(s);
    case React => ReactStaysSilent(s);
    case Start => if s.sched.running {} else {}
    case _ =>
  }

  /** Without such an event no step begins a callback, and none brings one about. */
  lemma StaysSilent(s: Slot, step: Step)
    requires Inv(s) && s.life.finished && !StillCalls(s) && Enabled(s, step) && OutOfMap(s, step)
    ensures !StillCalls(Next(s, step))
    ensures Next(s, step).log == s.log || Next(s, step).log == s.log + [Returned]
  {
    match step
    case Net(n) => NetFrame(s, n);
    case Api(a) => ApiFrame(s, a);
    case Work(k) => WorkStaysSilent(s, k);
  }

  // ---- with it, a callback begins -------------------------------------------------------------

  /** Run on by workers alone. */
  predicate ByWorkers(steps: seq<Step>) {
    forall k :: 0 <= k < |steps| ==> steps[k].Work? && !steps[k].k.DoneReturn?
  }

  predicate BeginsNow(s: Slot) {
    s.owner.Working? && s.owner.left > 0
  }

  /** Until it is there, the owner's next step brings it closer. */
  lemma ComesCloser(s: Slot)
    requires Inv(s) && s.life.finished && StillCalls(s) && !s.owner.Away? && !BeginsNow(s)
    ensures var k := OwnStep(s.owner, CHUNK_CONTINUE);
            WorkEnabled(s, k) && !k.DoneReturn? && StillCalls(NextWork(s, k)) && |NextWork(s, k).log| >= |s.log|
  {
    match s.owner
    case Reacting(action, _) =>
      match action {
        case Cancel =>
        case Pause =>
        case Continue =>
      }
    case _ =>
  }

  lemma CallsInTheEnd(s: Slot, n: int) returns (steps: seq<Step>)
    requires Inv(s) && s.life.finished && StillCalls(s) && n < |s.log|
    ensures FollowsDone(s, n, steps) && ByWorkers(steps)
    decreases Rank(s.owner)
  {
    if s.owner.Away? {
      steps := ArrivalCallsBack(s, n);
    } else if BeginsNow(s) {
      var t := Next(s, Work(Take));
      assert t.log[|s.log|].Begin? && CanRun(Any, t, []);
      RunFirst(s, Work(Take), []);
      steps := [Work(Take)] + [];
    } else {
      var k := OwnStep(s.owner, CHUNK_CONTINUE);
      ComesCloser(s);
      OwnStepRunsDown(s, CHUNK_CONTINUE);
      StepKeeps(s, Work(k));
      var rest := CallsInTheEnd(Next(s, Work(k)), n);
      RunFirst(s, Work(k), rest);
      steps := [Work(k)] + rest;
    }
  }
}

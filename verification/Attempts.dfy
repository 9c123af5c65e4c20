/**
 * The attempt loop as part of the request it works for: acquire, send, retry or settle, while callers cancel, time out,
 * resume and workers deliver. Its slot is the transition system of module Bridge; the response it finally gets is what
 * the network task of that slot feeds into the queue.
 */
module Attempts {
  import opened Abi
  import opened Bridge
  import opened BridgeSafety
  import opened Retry

  datatype Loop =
    | Acquiring              // waiting for a connection
    | Leased                 // has one, is about to test and use it
    | Sending                // waiting for the response
    | Settling(kind: int)    // decided to give up, has not claimed the gate
    | Handing                // hands the response over; from here on it is the network task of the slot
    | Ended

  datatype Policy = Policy(maxRetries: nat, verb: Verb)

  datatype Attempt = Attempt(
    policy: Policy, slot: Slot, loop: Loop, budget: nat,
    acquires: nat,     // history: how often a connection was asked for
    seen: nat)         // history: how often the peer saw the request, or may have when it was aborted while being sent

  datatype LoopStep =
    | AcquireOk | AcquireFail(kind: int)
    | FoundClosed | BuildFail | SendOff
    | SendFail(unsent: bool, peerSaw: bool) | Response(h: Event)
    | GiveUp

  datatype AttemptStep = Own(l: LoopStep) | Other(step: Step)

  function NewAttempt(policy: Policy, capacity: nat, hasOnChunk: bool): Attempt {
    Attempt(policy, Init(capacity, hasOnChunk), Acquiring, policy.maxRetries, 0, 0)
  }

  // ---- steps ----------------------------------------------------------------------------------

  /** The task has not been aborted and has not handed anything over. */
  predicate Alive(a: Attempt) {
    a.slot.flow.producer == Fetching(false)
  }

  predicate OwnEnabled(a: Attempt, l: LoopStep) {
    && Alive(a)
    && match l
       case AcquireOk => a.loop.Acquiring?
       case AcquireFail(kind) => a.loop.Acquiring? && kind != ERR_NONE && kind != ERR_OUTCOME_UNKNOWN && kind != ERR_TRUNCATED
       case FoundClosed => a.loop.Leased?
       case BuildFail => a.loop.Leased?
       case SendOff => a.loop.Leased?
       // The transport never calls a request unsent that the peer saw.
       case SendFail(unsent, peerSaw) => a.loop.Sending? && (unsent ==> !peerSaw)
       case Response(h) => a.loop.Sending? && h.Headers?
       case GiveUp => a.loop.Settling?
  }

  /** Who else settles, and as what: a cancel, a close or a deadline at any time, an idle limit or a truncation while a
      body is being read. */
  predicate ClaimFits(s: Slot, t: Terminal) {
    || t.kind == ERR_CANCELLED || t.kind == ERR_TIMEOUT
    || (s.flow.producer == Fetching(true) && (t.kind == ERR_IDLE_TIMEOUT || t.kind == ERR_TRUNCATED))
  }

  predicate OtherEnabled(a: Attempt, step: Step) {
    && Enabled(a.slot, step)
    && !(step.Net? && step.n.Respond?)
    && (step.Api? && step.a.SettleClaim? ==> ClaimFits(a.slot, step.a.t))
  }

  predicate AttemptEnabled(a: Attempt, step: AttemptStep) {
    match step
    case Own(l) => OwnEnabled(a, l)
    case Other(s) => OtherEnabled(a, s)
  }

  /** Another attempt if one is left. */
  function Again(a: Attempt): Attempt {
    a.(loop := Acquiring, budget := if a.budget == 0 then 0 else a.budget - 1)
  }

  function AfterFailure(a: Attempt, unsent: bool): Attempt {
    var committed := a.slot.flow.committed;
    if MayRetry(committed, unsent, IsIdempotent(a.policy.verb), a.budget) then Again(a)
    else a.(loop := Settling(if committed then ERR_TRUNCATED else ERR_OUTCOME_UNKNOWN))
  }

  function NextOwn(a: Attempt, l: LoopStep): Attempt
    requires OwnEnabled(a, l)
  {
    match l
    case AcquireOk => a.(loop := Leased, acquires := a.acquires + 1)
    case AcquireFail(kind) => a.(loop := Settling(kind), acquires := a.acquires + 1)
    case FoundClosed => if a.budget > 0 then Again(a) else a.(loop := Settling(ERR_CONNECT))
    case BuildFail => a.(loop := Settling(ERR_PROTOCOL))
    case SendOff => a.(loop := Sending)
    case SendFail(unsent, peerSaw) => AfterFailure(a.(seen := a.seen + if peerSaw then 1 else 0), unsent)
    case Response(h) => a.(loop := Handing, seen := a.seen + 1, slot := NextNet(a.slot, Respond(h)))
    case GiveUp => a.(loop := Ended, slot := Claim(a.slot, Terminal(a.loop.kind, 0), true))
  }

  /** A request that is aborted while it is being sent may have reached the peer. */
  function SeenAfter(a: Attempt, step: Step): nat {
    if step == Net(Abort) && a.loop.Sending? && Alive(a) then a.seen + 1 else a.seen
  }

  function AttemptNext(a: Attempt, step: AttemptStep): Attempt
    requires AttemptEnabled(a, step)
  {
    match step
    case Own(l) => NextOwn(a, l)
    case Other(s) => a.(slot := Next(a.slot, s), seen := SeenAfter(a, s))
  }

  predicate AttemptCanRun(a: Attempt, steps: seq<AttemptStep>)
    decreases |steps|
  {
    steps == [] || (AttemptEnabled(a, steps[0]) && AttemptCanRun(AttemptNext(a, steps[0]), steps[1..]))
  }

  function AttemptAfter(a: Attempt, steps: seq<AttemptStep>): Attempt
    requires AttemptCanRun(a, steps)
    decreases |steps|
  {
    if steps == [] then a else AttemptAfter(AttemptNext(a, steps[0]), steps[1..])
  }

  // ---- the invariant --------------------------------------------------------------------------

  /** What a caller has seen of a request that was handed nothing. */
  function DoneMarks(l: Life): seq<Mark> {
    if l.reported.None? then [] else [BeginDone(l.reported.value)] + if l.finished then [DoneReturned] else []
  }

  /** Nothing of a response has been offered, and the caller has seen at most Done. */
  predicate Untouched(s: Slot) {
    && (s.flow.producer == Fetching(false) || s.flow.producer.Stopped?)
    && s.flow.received == [] && s.flow.sent == [] && !s.flow.committed
    && !s.owner.Calling? && !s.owner.Reacting? && s.log == DoneMarks(s.life)
  }

  predicate Settles(l: Life, kind: int) {
    || (l.pending.Some? && l.pending.value.t.kind == kind)
    || (l.terminal.Some? && l.terminal.value.kind == kind)
    || (l.reported.Some? && l.reported.value.kind == kind)
  }

  predicate Budgeted(a: Attempt) {
    a.acquires + a.budget == a.policy.maxRetries + (if a.loop.Acquiring? then 0 else 1)
  }

  predicate SeenOnce(a: Attempt) {
    !IsIdempotent(a.policy.verb) ==> a.seen <= if a.loop.Acquiring? || a.loop.Leased? || (a.loop.Sending? && Alive(a)) then 0 else 1
  }

  predicate AttemptInv(a: Attempt) {
    && Inv(a.slot)
    && (if a.loop.Handing? then !Alive(a) else Untouched(a.slot))
    && (Settles(a.slot.life, ERR_OUTCOME_UNKNOWN) ==> a.loop.Ended?)
    && (Settles(a.slot.life, ERR_TRUNCATED) ==> a.loop.Handing? && a.slot.flow.committed)
    && (a.loop.Settling? ==> a.loop.kind != ERR_NONE && a.loop.kind != ERR_TRUNCATED)
    && Budgeted(a) && SeenOnce(a)
  }

  // ---- preservation ---------------------------------------------------------------------------

  lemma ClaimLeavesUntouched(s: Slot, t: Terminal)
    requires Inv(s) && Untouched(s) && t.kind != ERR_NONE
    ensures Inv(Claim(s, t, true)) && Untouched(Claim(s, t, true))
    ensures forall kind :: Settles(Claim(s, t, true).life, kind) ==> Settles(s.life, kind) || t.kind == kind
  {
    ApiKeeps(s, SettleClaim(t));
    if s.life.gate.Running? {} else {}
  }

  lemma OwnKeeps(a: Attempt, l: LoopStep)
    requires AttemptInv(a) && OwnEnabled(a, l)
    ensures AttemptInv(NextOwn(a, l))
  {
    match l
    case Response(h) => NetKeeps(a.slot, Respond(h));
    case GiveUp =>
      ClaimLeavesUntouched(a.slot, Terminal(a.loop.kind, 0));
    case SendFail(unsent, peerSaw) =>
    case AcquireOk =>
    case AcquireFail(kind) =>
    case FoundClosed =>
    case BuildFail =>
    case SendOff =>
  }

  lemma WorkLeavesUntouched(s: Slot, step: WorkStep)
    requires Inv(s) && Untouched(s) && WorkEnabled(s, step)
    ensures Untouched(NextWork(s, step))
  {
    assert s.flow.queue == [];
    if step.Take? { if s.hold.paused {} else {} }
  }

  lemma LeavesUntouched(s: Slot, step: Step)
    requires Inv(s) && Untouched(s) && Enabled(s, step) && !(step.Net? && step.n.Respond?)
    ensures Untouched(Next(s, step))
  {
    match step
    case Net(n) =>
    case Api(a) =>
    case Work(k) => WorkLeavesUntouched(s, k);
  }

  lemma StepSettles(s: Slot, step: Step, kind: int)
    requires Enabled(s, step) && Settles(Next(s, step).life, kind) && !Settles(s.life, kind)
    ensures || (step.Api? && step.a.SettleClaim? && step.a.t.kind == kind)
            || (step.Net? && step.n.EndOfBody? && kind == ERR_NONE)
            || (step == Work(React) && kind == ERR_CANCELLED)
  {
    match step
    case Net(n) =>
    case Api(a) => if a.SettleClaim? {}
    case Work(k) => if k.React? {} else if k.Take? {}
  }

  lemma StaysHanded(s: Slot, step: Step)
    requires Enabled(s, step) && s.flow.producer != Fetching(false)
    ensures Next(s, step).flow.producer != Fetching(false)
  {
    if step == Work(React) {} else if step == Work(Take) {}
  }

  lemma CommittedStays(s: Slot, step: Step)
    requires Enabled(s, step) && s.flow.committed
    ensures Next(s, step).flow.committed
  {
    if step == Work(React) {} else if step == Work(Take) {}
  }

  /** Before there is a response only an abort stops the task. */
  lemma AliveUnlessAborted(s: Slot, step: Step)
    requires Enabled(s, step) && !(step.Net? && step.n.Respond?) && s.flow.producer == Fetching(false) && step != Net(Abort)
    ensures Next(s, step).flow.producer == Fetching(false)
  {
    match step
    case Net(n) =>
    case Api(a) => ApiFrame(s, a);
    case Work(k) => if k.React? {} else if k.Take? {}
  }

  lemma OthersSettle(a: Attempt, step: Step)
    requires AttemptInv(a) && OtherEnabled(a, step)
    ensures Settles(Next(a.slot, step).life, ERR_OUTCOME_UNKNOWN) ==> Settles(a.slot.life, ERR_OUTCOME_UNKNOWN)
    ensures Settles(Next(a.slot, step).life, ERR_TRUNCATED) ==> a.loop.Handing? && a.slot.flow.committed
  {
    var next := Next(a.slot, step).life;
    if Settles(next, ERR_OUTCOME_UNKNOWN) && !Settles(a.slot.life, ERR_OUTCOME_UNKNOWN) { StepSettles(a.slot, step, ERR_OUTCOME_UNKNOWN); }
    if Settles(next, ERR_TRUNCATED) && !Settles(a.slot.life, ERR_TRUNCATED) { StepSettles(a.slot, step, ERR_TRUNCATED); }
  }

  lemma OtherKeeps(a: Attempt, step: Step)
    requires AttemptInv(a) && OtherEnabled(a, step)
    ensures AttemptInv(AttemptNext(a, Other(step)))
  {
    StepKeeps(a.slot, step);
    if !a.loop.Handing? { LeavesUntouched(a.slot, step); }
    if !Alive(a) { StaysHanded(a.slot, step); } else if step != Net(Abort) { AliveUnlessAborted(a.slot, step); }
    if a.slot.flow.committed { CommittedStays(a.slot, step); }
    OthersSettle(a, step);
  }

  lemma AttemptStepKeeps(a: Attempt, step: AttemptStep)
    requires AttemptInv(a) && AttemptEnabled(a, step)
    ensures AttemptInv(AttemptNext(a, step)) && AttemptNext(a, step).policy == a.policy
  {
    match step
    case Own(l) => OwnKeeps(a, l);
    case Other(s) => OtherKeeps(a, s);
  }

  // ---- what every run keeps -------------------------------------------------------------------

  lemma {:induction false} AttemptRunKeeps(a: Attempt, steps: seq<AttemptStep>)
    requires AttemptInv(a) && AttemptCanRun(a, steps)
    ensures AttemptInv(AttemptAfter(a, steps)) && AttemptAfter(a, steps).policy == a.policy
    decreases |steps|
  {
    if steps != [] {
      AttemptStepKeeps(a, steps[0]);
      AttemptRunKeeps(AttemptNext(a, steps[0]), steps[1..]);
    }
  }

  ghost predicate AttemptReachable(a: Attempt) {
    exists policy, capacity: nat, hasOnChunk, steps ::
      AttemptCanRun(NewAttempt(policy, capacity, hasOnChunk), steps) && a == AttemptAfter(NewAttempt(policy, capacity, hasOnChunk), steps)
  }

  lemma ReachableAttempt(a: Attempt)
    requires AttemptReachable(a)
    ensures AttemptInv(a)
  {
    var policy, capacity: nat, hasOnChunk, steps :|
      AttemptCanRun(NewAttempt(policy, capacity, hasOnChunk), steps) && a == AttemptAfter(NewAttempt(policy, capacity, hasOnChunk), steps);
    AttemptRunKeeps(NewAttempt(policy, capacity, hasOnChunk), steps);
  }

  /** The verbs whose repetition changes nothing (section 9.2.2 of RFC 9110), and those of which that is not known. */
  const SAFE_TO_REPEAT: set<Verb> := {GET, HEAD, PUT, DELETE, OPTIONS, TRACE}

  predicate UnsafeToRepeat(v: Verb) {
    v in {POST, PATCH, CONNECT} || v.Extension?
  }

  lemma EveryVerb(v: Verb)
    ensures IsIdempotent(v) <==> v in SAFE_TO_REPEAT
    ensures !IsIdempotent(v) <==> UnsafeToRepeat(v)
  {}

  /**
   * In every run the committed flag is false at every retry decision. So the arm that reports TRUNCATED there is never
   * taken, and the decision is exactly: try again if a retry is left and the request is provably unsent or its verb is safe
   * to repeat, and otherwise tell the caller that the outcome is unknown.
   */
  lemma RetryDecision(a: Attempt, unsent: bool, peerSaw: bool)
    requires AttemptReachable(a) && OwnEnabled(a, SendFail(unsent, peerSaw))
    ensures !a.slot.flow.committed
    ensures var b := NextOwn(a, SendFail(unsent, peerSaw));
            && (b.loop.Acquiring? <==> a.budget > 0 && (unsent || a.policy.verb in SAFE_TO_REPEAT))
            && (b.loop.Acquiring? <==> a.budget > 0 && (unsent || !UnsafeToRepeat(a.policy.verb)))
            && (b.loop.Acquiring? ==> b.budget == a.budget - 1)
            && (!b.loop.Acquiring? ==> GivesUpAs(b, ERR_OUTCOME_UNKNOWN))
  {
    ReachableAttempt(a);
    EveryVerb(a.policy.verb);
    if a.budget == 0 || !(unsent || a.policy.verb in SAFE_TO_REPEAT) { GivingUp(NextOwn(a, SendFail(unsent, peerSaw))); }
  }

  /** The loop's only next step settles the request: as this kind, unless somebody else has settled it before. */
  predicate GivesUpAs(a: Attempt, kind: int) {
    && OwnEnabled(a, GiveUp)
    && var b := NextOwn(a, GiveUp);
       && b.loop.Ended? && b.acquires == a.acquires && b.seen == a.seen
       && (a.slot.life.gate.Running? ==>
             b.slot.life.gate.Discard? && b.slot.life.pending == Some(Settlement(Terminal(kind, 0), true)))
       && (!a.slot.life.gate.Running? ==> b.slot.life == a.slot.life)
  }

  lemma GivingUp(a: Attempt)
    requires Alive(a) && a.loop.Settling?
    ensures GivesUpAs(a, a.loop.kind)
  {}

  /**
   * The other ends of an attempt. A connection that was already closed costs a retry and nothing else, and CONNECT is
   * reported when none is left; a request that cannot be built is reported as PROTOCOL; no connection, as what the pool said.
   */
  lemma OtherFailures(a: Attempt, kind: int)
    requires AttemptReachable(a)
    ensures OwnEnabled(a, FoundClosed) ==>
              var b := NextOwn(a, FoundClosed);
              && b.seen == a.seen && b.slot == a.slot
              && (if a.budget > 0 then b.loop.Acquiring? && b.budget == a.budget - 1 else GivesUpAs(b, ERR_CONNECT))
    ensures OwnEnabled(a, BuildFail) ==> GivesUpAs(NextOwn(a, BuildFail), ERR_PROTOCOL) && NextOwn(a, BuildFail).seen == a.seen
    ensures OwnEnabled(a, AcquireFail(kind)) ==>
              GivesUpAs(NextOwn(a, AcquireFail(kind)), kind) && NextOwn(a, AcquireFail(kind)).seen == a.seen
  {
    if OwnEnabled(a, FoundClosed) && a.budget == 0 { GivingUp(NextOwn(a, FoundClosed)); }
    if OwnEnabled(a, BuildFail) { GivingUp(NextOwn(a, BuildFail)); }
    if OwnEnabled(a, AcquireFail(kind)) { GivingUp(NextOwn(a, AcquireFail(kind))); }
  }

  // ---- what the peer sees, read off the steps of a run ----------------------------------------

  /**
   * How often the peer saw the request in a run: a send that failed although the peer saw it, a response, and an abort of
   * the task between a send and what comes of it, after which nobody knows. Steps of others do not matter otherwise.
   */
  function Sightings(steps: seq<AttemptStep>, sending: bool): nat {
    if steps == [] then 0
    else
      var rest := steps[1..];
      match steps[0]
      case Other(s) => if s == Net(Abort) then (if sending then 1 else 0) + Sightings(rest, false) else Sightings(rest, sending)
      case Own(l) =>
        match l
        case SendOff => Sightings(rest, true)
        case SendFail(_, peerSaw) => (if peerSaw then 1 else 0) + Sightings(rest, false)
        case Response(_) => 1 + Sightings(rest, false)
        case _ => Sightings(rest, sending)
  }

  /** How often a run asks for a connection. */
  function Acquires(steps: seq<AttemptStep>): nat {
    if steps == [] then 0
    else (if steps[0].Own? && (steps[0].l.AcquireOk? || steps[0].l.AcquireFail?) then 1 else 0) + Acquires(steps[1..])
  }

  predicate InFlight(a: Attempt) {
    a.loop.Sending? && Alive(a)
  }

  lemma OthersInFlight(a: Attempt, step: Step)
    requires OtherEnabled(a, step)
    ensures InFlight(AttemptNext(a, Other(step))) <==> InFlight(a) && step != Net(Abort)
  {
    if Alive(a) {
      if step != Net(Abort) { AliveUnlessAborted(a.slot, step); }
    } else {
      StaysHanded(a.slot, step);
    }
  }

  lemma {:induction false} HistoriesCount(a: Attempt, steps: seq<AttemptStep>)
    requires AttemptCanRun(a, steps)
    ensures AttemptAfter(a, steps).seen == a.seen + Sightings(steps, InFlight(a))
    ensures AttemptAfter(a, steps).acquires == a.acquires + Acquires(steps)
    decreases |steps|
  {
    if steps != [] {
      if steps[0].Other? { OthersInFlight(a, steps[0].step); }
      HistoriesCount(AttemptNext(a, steps[0]), steps[1..]);
    }
  }

  /** The request as its task starts it. */
  function Started(verb: Verb, maxRetries: nat, capacity: nat, hasOnChunk: bool): Attempt {
    NewAttempt(Policy(maxRetries, verb), capacity, hasOnChunk)
  }

  /** In every run a connection is asked for at most once more than there are retries. */
  lemma AcquiresAreBounded(verb: Verb, maxRetries: nat, capacity: nat, hasOnChunk: bool, steps: seq<AttemptStep>)
    requires AttemptCanRun(Started(verb, maxRetries, capacity, hasOnChunk), steps)
    ensures Acquires(steps) <= maxRetries + 1
  {
    AttemptRunKeeps(Started(verb, maxRetries, capacity, hasOnChunk), steps);
    HistoriesCount(Started(verb, maxRetries, capacity, hasOnChunk), steps);
  }

  /** In every run the peer sees a POST, a PATCH, a CONNECT and every verb the client does not know at most once. */
  lemma PeerSeesAtMostOnce(verb: Verb, maxRetries: nat, capacity: nat, hasOnChunk: bool, steps: seq<AttemptStep>)
    requires UnsafeToRepeat(verb) && AttemptCanRun(Started(verb, maxRetries, capacity, hasOnChunk), steps)
    ensures Sightings(steps, false) <= 1
  {
    EveryVerb(verb);
    AttemptRunKeeps(Started(verb, maxRetries, capacity, hasOnChunk), steps);
    HistoriesCount(Started(verb, maxRetries, capacity, hasOnChunk), steps);
  }

  /** A caller told that the outcome is unknown was told nothing else: no headers, no chunk, only Done. */
  lemma UnknownIsAllTheCallerSees(a: Attempt)
    requires AttemptReachable(a) && a.slot.life.reported.Some? && a.slot.life.reported.value.kind == ERR_OUTCOME_UNKNOWN
    ensures a.slot.log == [BeginDone(a.slot.life.reported.value)] + (if a.slot.life.finished then [DoneReturned] else [])
    ensures a.slot.flow.received == [] && a.slot.flow.sent == []
  {
    ReachableAttempt(a);
  }

  /** A caller told that the response was truncated could have seen part of it. */
  lemma TruncatedMeansStarted(a: Attempt)
    requires AttemptReachable(a) && a.slot.life.reported.Some? && a.slot.life.reported.value.kind == ERR_TRUNCATED
    ensures a.slot.flow.committed && a.slot.flow.sent != []
  {
    ReachableAttempt(a);
  }

  lemma {:induction false} HandedForever(a: Attempt, steps: seq<AttemptStep>)
    requires a.loop.Handing? && !Alive(a) && AttemptCanRun(a, steps)
    ensures var b := AttemptAfter(a, steps); b.loop.Handing? && b.acquires == a.acquires && b.seen == a.seen && b.budget == a.budget
    decreases |steps|
  {
    if steps != [] {
      assert steps[0].Other?;
      StaysHanded(a.slot, steps[0].step);
      HandedForever(AttemptNext(a, steps[0]), steps[1..]);
    }
  }

  /** Once anything was queued for the caller, no run makes another attempt: nothing is asked for or sent again. */
  lemma NoAttemptAfterVisibleResponse(a: Attempt, steps: seq<AttemptStep>)
    requires AttemptReachable(a) && a.slot.flow.committed && AttemptCanRun(a, steps)
    ensures AttemptAfter(a, steps).acquires == a.acquires && AttemptAfter(a, steps).seen == a.seen
    ensures Acquires(steps) == 0 && Sightings(steps, false) == 0
  {
    ReachableAttempt(a);
    HandedForever(a, steps);
    HistoriesCount(a, steps);
  }

  // ---- the slot under its loop ----------------------------------------------------------------

  /** The step of the slot's own system that a step of the request is, if any. */
  function LocalSteps(a: Attempt, step: AttemptStep): seq<Step> {
    match step
    case Other(s) => [s]
    case Own(l) =>
      match l
      case Response(h) => [Net(Respond(h))]
      case GiveUp => if a.loop.Settling? then [Api(SettleClaim(Terminal(a.loop.kind, 0)))] else []
      case _ => []
  }

  /** Every run of the request is, for its slot, a run of the slot: everything proved of slots holds under the loop. */
  lemma {:induction false} SlotRunsUnderLoop(a: Attempt, steps: seq<AttemptStep>) returns (run: seq<Step>)
    requires AttemptInv(a) && AttemptCanRun(a, steps)
    ensures CanRun(Any, a.slot, run) && After(Any, a.slot, run) == AttemptAfter(a, steps).slot
    decreases |steps|
  {
    if steps == [] {
      run := [];
    } else {
      AttemptStepKeeps(a, steps[0]);
      var rest := SlotRunsUnderLoop(AttemptNext(a, steps[0]), steps[1..]);
      run := LocalSteps(a, steps[0]) + rest;
      var local := LocalSteps(a, steps[0]);
      if local == [] {
        assert run == rest;
      } else {
        assert run[1..] == rest;
      }
    }
  }
}

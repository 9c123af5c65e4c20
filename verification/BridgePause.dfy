/** Pause and resume: no wakeup lost, no permit carried into a later pause, silence while parked. */
module BridgePause {
  import opened Abi
  import opened Bridge
  import opened BridgeSafety
  import opened BridgeTheorems

  /** The owner is in a callback or has not acted on its result yet. */
  predicate Engaged(p: Phase) {
    p.Calling? || p.Reacting?
  }

  /** A permit belongs to the callback that is open now or was the last to return. */
  predicate PermitInv(s: Slot) {
    s.hold.permit ==> Engaged(s.owner)
  }

  /** An early resume stores its permit after the callback it saw has been dealt with. */
  predicate LeaksPermit(s: Slot, step: Step) {
    step == Api(ResumeStore) && !Engaged(s.owner)
  }

  lemma ReactClearsPermit(s: Slot)
    requires s.owner.Reacting?
    ensures !NextReact(s).hold.permit
  {
    match s.owner.action
    case Cancel => if s.life.gate.Running? {} else {}
    case Pause =>
    case Continue =>
  }

  lemma WorkKeepsPermit(s: Slot, step: WorkStep)
    requires PermitInv(s) && WorkEnabled(s, step) && Owned(s.owner, s.hold, s.sched.running)
    ensures PermitInv(NextWork(s, step))
  {
    match step
    case React => ReactClearsPermit(s);
    case Take => if s.hold.paused {} else if s.owner.left == 0 || s.flow.queue == [] {} else {}
    case _ =>
  }

  lemma ApiPermitIff(s: Slot, step: ApiStep)
    requires PermitInv(s) && ApiEnabled(s, step) && Owned(s.owner, s.hold, s.sched.running)
    ensures PermitInv(NextApi(s, step)) <==> !LeaksPermit(s, Api(step))
  {
    ApiFrame(s, step);
    match step
    case SettleClaim(t) => if s.life.gate.Running? {} else {}
    case _ =>
  }

  /** Exactly one step can leave a permit that belongs to no callback: a late store. */
  lemma PermitLeaksIff(s: Slot, step: Step)
    requires Inv(s) && PermitInv(s) && Enabled(s, step)
    ensures PermitInv(Next(s, step)) <==> !LeaksPermit(s, step)
  {
    match step
    case Net(n) => NetFrame(s, n);
    case Api(a) => ApiPermitIff(s, a);
    case Work(k) => WorkKeepsPermit(s, k);
  }

  predicate NoLateStore(d: Discipline, s: Slot, steps: seq<Step>)
    requires CanRun(d, s, steps)
    decreases |steps|
  {
    steps == [] || (!LeaksPermit(s, steps[0]) && NoLateStore(d, Next(s, steps[0]), steps[1..]))
  }

  /** In every run without a late store a permit is set only while its callback is open or not yet acted on. */
  lemma {:induction false} PermitOnlyInCallback(d: Discipline, s: Slot, steps: seq<Step>)
    requires Inv(s) && PermitInv(s) && CanRun(d, s, steps) && NoLateStore(d, s, steps)
    ensures PermitInv(After(d, s, steps))
    decreases |steps|
  {
    if steps != [] {
      PermitLeaksIff(s, steps[0]);
      StepKeeps(s, steps[0]);
      PermitOnlyInCallback(d, Next(s, steps[0]), steps[1..]);
    }
  }

  // ---- what an OK means -----------------------------------------------------------------------

  /**
   * OK either ends the pause and leaves the slot scheduled, or is remembered by the open callback; any other status
   * leaves everything as it was. In particular a resume that comes after a callback has returned its pause and before
   * that pause is entered is refused, and the caller has to repeat it.
   */
  lemma ResumeOkUnparksOrIsRemembered(s: Slot)
    requires Inv(s)
    ensures ResumeStatus(s) == STATUS_OK <==> s.hold.paused || s.owner.Calling?
    ensures var t := Next(s, Api(Resume));
            && !t.hold.paused
            && (s.hold.paused ==> t.sched.scheduled && t.hold.permit == s.hold.permit)
            && (!s.hold.paused && s.owner.Calling? ==> t.hold.permit && t.owner == s.owner)
            && (ResumeStatus(s) != STATUS_OK ==> t == s)
    ensures !s.hold.paused && !s.owner.Calling? ==> ResumeStatus(s) == if s.life.gate.Running? then STATUS_NOT_PAUSED else STATUS_ALREADY_DONE
  {}

  /** Such a resume does not keep the request from parking. */
  lemma RefusedResumeStillParks(s: Slot)
    requires Inv(s) && s.owner.Reacting? && s.owner.action == Pause && !s.hold.permit
    ensures Next(Next(s, Api(Resume)), Work(React)).hold.paused
  {
    ResumeOkUnparksOrIsRemembered(s);
  }

  /** The callback of this call is open or not yet acted on, and remembers the resume. */
  predicate Remembers(s: Slot, left: nat) {
    s.hold.permit && s.sched.running && Engaged(s.owner) && s.owner.left == left
  }

  predicate NoReact(steps: seq<Step>) {
    forall i :: 0 <= i < |steps| ==> steps[i] != Work(React)
  }

  lemma {:induction false} RunRemembers(d: Discipline, s: Slot, left: nat, steps: seq<Step>)
    requires Remembers(s, left) && CanRun(d, s, steps) && NoReact(steps)
    ensures Remembers(After(d, s, steps), left)
    decreases |steps|
  {
    if steps != [] {
      RunRemembers(d, Next(s, steps[0]), left, steps[1..]);
    }
  }

  /**
   * A resume that finds a chunk callback open is consumed by the pause of that very callback, whatever every other
   * thread does in between: the slice goes on with the budget it had. Any other result discards it.
   */
  lemma EarlyResumeConsumesPause(d: Discipline, s: Slot, steps: seq<Step>)
    requires Inv(s) && s.owner.Calling?
    requires CanRun(d, Next(s, Api(Resume)), steps) && NoReact(steps)
    ensures var t := After(d, Next(s, Api(Resume)), steps);
            && Engaged(t.owner) && t.owner.left == s.owner.left && t.hold.permit
            && (t.owner.Reacting? ==>
                  var u := Next(t, Work(React));
                  !u.hold.permit && (t.owner.action == Pause ==> u.owner == Working(s.owner.left) && !u.hold.paused))
  {
    StepKeeps(s, Api(Resume));
    RunKeeps(d, Next(s, Api(Resume)), steps);
    ResumeOkUnparksOrIsRemembered(s);
    RunRemembers(d, Next(s, Api(Resume)), s.owner.left, steps);
    var t := After(d, Next(s, Api(Resume)), steps);
    if t.owner.Reacting? { ReactClearsPermit(t); }
  }

  // ---- silence while parked -------------------------------------------------------------------

  lemma ParkedStepIsSilent(s: Slot, step: Step)
    requires Inv(s) && s.hold.paused && Enabled(s, step)
    ensures Next(s, step).log == s.log && Next(s, step).flow.consumed == s.flow.consumed
  {
    match step
    case Net(n) => NetFrame(s, n);
    case Api(a) => ApiFrame(s, a);
    case Work(k) =>
  }

  predicate StaysParked(d: Discipline, s: Slot, steps: seq<Step>)
    requires CanRun(d, s, steps)
    decreases |steps|
  {
    s.hold.paused && (steps == [] || StaysParked(d, Next(s, steps[0]), steps[1..]))
  }

  /** While a request is parked no callback of it begins or returns, not even Done. */
  lemma {:induction false} ParkedIsSilent(d: Discipline, s: Slot, steps: seq<Step>)
    requires Inv(s) && CanRun(d, s, steps) && StaysParked(d, s, steps)
    ensures After(d, s, steps).log == s.log
    decreases |steps|
  {
    if steps != [] {
      ParkedStepIsSilent(s, steps[0]);
      StepKeeps(s, steps[0]);
      ParkedIsSilent(d, Next(s, steps[0]), steps[1..]);
    }
  }

  /** A drain waits for the consumer: settling a parked request successfully leaves it parked. */
  lemma DrainRespectsPause(s: Slot)
    requires Inv(s) && s.life.pending.Some?
    ensures Publish(s).hold.paused <==> s.hold.paused && s.life.gate.Drain?
  {}

  // ---- a discarded request that is parked -----------------------------------------------------

  /** The abort is published and cannot be delivered: the request waits for a consumer that was told nothing. */
  predicate ParkedDiscard(s: Slot) {
    s.hold.paused && s.life.gate.Discard? && s.life.doneReady
  }

  /** The reaction to a pause does not look at the gate. */
  predicate ParksDiscard(s: Slot, step: Step) {
    && step == Work(React) && s.owner.Reacting? && s.owner.action == Pause && !s.hold.permit
    && s.life.gate.Discard? && s.life.doneReady
  }

  lemma ApiDoesNotPark(s: Slot, step: ApiStep)
    requires Inv(s) && ApiEnabled(s, step)
    ensures NextApi(s, step).hold.paused ==> s.hold.paused && (step.SettlePublish? ==> s.life.gate.Drain?)
    ensures !step.SettlePublish? ==> NextApi(s, step).life.doneReady == s.life.doneReady
    ensures s.life.doneReady ==> NextApi(s, step).life.gate == s.life.gate
  {
    match step
    case SettleClaim(t) => if s.life.gate.Running? {} else {}
    case Resume => if s.hold.paused {} else {}
    case _ =>
  }

  /** What the owner's steps do to the pause: only the reaction to a callback enters one. */
  lemma WorkParksIff(s: Slot, step: WorkStep)
    requires Owned(s.owner, s.hold, s.sched.running) && WorkEnabled(s, step)
    ensures NextWork(s, step).hold.paused <==> s.hold.paused || (step.React? && s.owner.action == Pause && !s.hold.permit)
    ensures NextWork(s, step).life.doneReady == s.life.doneReady
    ensures s.life.doneReady && Gated(s.life, s.owner) ==> NextWork(s, step).life.gate == s.life.gate
  {
    match step
    case React =>
      match s.owner.action {
        case Cancel => if s.life.gate.Running? {} else {}
        case Pause => if s.hold.permit {} else {}
        case Continue =>
      }
    case Take => if s.hold.paused {} else if s.owner.left == 0 || s.flow.queue == [] {} else {}
    case _ =>
  }

  /**
   * Publishing an abort releases a pause that is there. One that comes later parks the aborted request: a step does
   * that if and only if it enters the pause of a callback that was open when the abort was published, with no permit.
   */
  lemma ParksDiscardIff(s: Slot, step: Step)
    requires Inv(s) && !ParkedDiscard(s) && Enabled(s, step)
    ensures ParkedDiscard(Next(s, step)) <==> ParksDiscard(s, step)
  {
    match step
    case Net(n) => NetFrame(s, n);
    case Api(a) => ApiDoesNotPark(s, a);
    case Work(k) => WorkParksIff(s, k);
  }

  /** Only a resume or a further abort gets it out. */
  lemma OnlyResumeOrAbortUnparks(s: Slot, step: Step)
    requires Inv(s) && ParkedDiscard(s) && Enabled(s, step)
    ensures !Next(s, step).hold.paused <==> step == Api(Resume) || (step.Api? && step.a.SettleClaim?)
  {
    match step
    case Net(n) => NetFrame(s, n);
    case Api(a) =>
    case Work(k) => assert s.owner.Away? || s.owner.Decided?;
  }

  // ---- a parked slot in the ready queue -------------------------------------------------------

  /** A paused slot is in the ready queue, or with a worker that took it from there. */
  predicate ParkedQueued(s: Slot) {
    s.hold.paused && Coming(s.sched)
  }

  /**
   * The three ways into it: a callback asks for a pause while a copy of the slot is already queued; the worker that
   * leaves a paused slot puts it back because something is queued; a successful settlement schedules it.
   */
  predicate QueuesParked(s: Slot, step: Step) {
    match step
    case Net(_) => false
    case Api(a) => a.SettlePublish? && s.life.pending.Some? && s.life.gate.Drain? && s.hold.paused && !s.sched.scheduled
    case Work(k) =>
      || (k.React? && s.owner.Reacting? && s.owner.action == Pause && !s.hold.permit && Coming(s.sched))
      || (k.Release? && s.owner.Decided? && s.hold.paused && !s.life.finished && (s.owner.more || s.flow.queue != []))
  }

  lemma ApiQueuesParked(s: Slot, step: ApiStep)
    requires Inv(s) && !ParkedQueued(s) && ApiEnabled(s, step)
    ensures ParkedQueued(NextApi(s, step)) <==> QueuesParked(s, Api(step))
  {
    ApiDoesNotPark(s, step);
    match step
    case SettleClaim(t) => if s.life.gate.Running? {} else {}
    case SettlePublish => if s.sched.scheduled {} else {}
    case _ =>
  }

  lemma WorkQueuesParked(s: Slot, step: WorkStep)
    requires Inv(s) && !ParkedQueued(s) && WorkEnabled(s, step)
    ensures ParkedQueued(NextWork(s, step)) <==> QueuesParked(s, Work(step))
  {
    WorkParksIff(s, step);
    match step
    case React =>
    case _ =>
  }

  /** In every interleaving, a step puts a paused slot into the ready queue if and only if it is one of the three. */
  lemma ParkedInQueueIff(s: Slot, step: Step)
    requires Inv(s) && !ParkedQueued(s) && Enabled(s, step)
    ensures ParkedQueued(Next(s, step)) <==> QueuesParked(s, step)
  {
    match step
    case Net(n) => NetFrame(s, n);
    case Api(a) => ApiQueuesParked(s, a);
    case Work(k) => WorkQueuesParked(s, k);
  }
}

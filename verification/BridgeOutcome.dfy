/**
 * What the caller is told and what its answers do: the first settlement is the one Done reports, an abort is the end of
 * deliveries, and a callback's result cancels, pauses or goes on.
 */
module BridgeOutcome {
  import opened Abi
  import opened Bridge
  import opened BridgeSafety
  import opened BridgeTrace
  import opened BridgeTheorems

  // ---- what a callback's result does ----------------------------------------------------------

  predicate AsksToCancel(s: Slot, value: int)
    requires s.owner.Calling?
  {
    (s.owner.ev.Headers? && value == HEADERS_CANCEL) || (s.owner.ev.Chunk? && s.hasOnChunk && value == CHUNK_CANCEL)
  }

  predicate AsksToPause(s: Slot, value: int)
    requires s.owner.Calling?
  {
    s.owner.ev.Chunk? && s.hasOnChunk && value == CHUNK_PAUSE
  }

  /**
   * If nobody comes in between: a callback that cancels ends the slice and, unless somebody settled before, settles the
   * request as cancelled and drops what is queued; one that pauses, with no resume during it, parks the request and ends
   * the slice; every other result, and a pause at the headers, lets the slice go on and settles nothing.
   */
  lemma CallbackResultDecides(s: Slot, value: int)
    requires Inv(s) && s.owner.Calling?
    ensures var t := Next(Next(s, Work(Return(value))), Work(React));
            && (t.owner == if AsksToCancel(s, value) || (AsksToPause(s, value) && !s.hold.permit) then Decided(false) else Working(s.owner.left))
            && (t.hold.paused <==> AsksToPause(s, value) && !s.hold.permit)
            && t.flow == s.flow
            && (t.life == if AsksToCancel(s, value) && s.life.gate.Running?
                          then s.life.(gate := Discard, pending := Some(Settlement(Terminal(ERR_CANCELLED, 0), true))) else s.life)
  {
    var r := Next(s, Work(Return(value)));
    match r.owner.action
    case Cancel => if s.life.gate.Running? {} else {}
    case Pause => if s.hold.permit {} else {}
    case Continue =>
  }

  // ---- the first settlement is the one that is reported ---------------------------------------

  /** What a step settles an open request as: a caller's or the task's terminal, the end of the body, a callback's cancel. */
  function SettlesAs(s: Slot, step: Step): Option<Terminal> {
    match step
    case Net(n) => if n.EndOfBody? then Some(Terminal(ERR_NONE, 0)) else None
    case Api(a) => if a.SettleClaim? then Some(a.t) else None
    case Work(k) => if k.React? && s.owner.Reacting? && s.owner.action == Cancel then Some(Terminal(ERR_CANCELLED, 0)) else None
  }

  /** The settlement on its way to Done is this one: claimed, published or reported. */
  predicate Holding(l: Life, t: Terminal) {
    && !l.gate.Running?
    && (l.pending.Some? ==> l.pending.value.t == t)
    && (l.terminal.Some? ==> l.terminal.value == t)
    && (l.reported.Some? ==> l.reported.value == t)
  }

  lemma Settled(s: Slot, step: Step)
    requires Inv(s) && s.life.gate.Running? && Enabled(s, step)
    ensures Next(s, step).life.gate.Running? <==> SettlesAs(s, step).None?
    ensures SettlesAs(s, step).Some? ==>
              && Holding(Next(s, step).life, SettlesAs(s, step).value)
              && (Next(s, step).life.gate.Drain? <==> step == Net(EndOfBody))
  {
    match step
    case Net(n) => if n.EndOfBody? {} else if n.Push? {} else {}
    case Api(a) =>
    case Work(k) => if k.React? {} else if k.Take? {}
  }

  lemma HoldingStep(s: Slot, step: Step, t: Terminal)
    requires Holding(s.life, t) && Enabled(s, step)
    ensures Holding(Next(s, step).life, t)
  {
    match step
    case Net(n) => NetFrame(s, n);
    case Api(a) =>
    case Work(k) => if k.React? {} else if k.Take? {}
  }

  lemma {:induction false} HoldingRun(d: Discipline, s: Slot, steps: seq<Step>, t: Terminal)
    requires Holding(s.life, t) && CanRun(d, s, steps)
    ensures Holding(After(d, s, steps).life, t)
    decreases |steps|
  {
    if steps != [] {
      HoldingStep(s, steps[0], t);
      HoldingRun(d, Next(s, steps[0]), steps[1..], t);
    }
  }

  /**
   * Whoever settles an open request first decides what its one Done reports, kind and protocol code, in every
   * continuation; the request is drained if that was the end of the body and discarded otherwise.
   */
  lemma FirstSettlementIsReported(d: Discipline, s: Slot, step: Step, more: seq<Step>)
    requires Reachable(d, s) && s.life.gate.Running? && Enabled(s, step) && Allowed(d, s, step) && SettlesAs(s, step).Some?
    requires CanRun(d, Next(s, step), more)
    ensures var t := After(d, Next(s, step), more);
            && (Dones(t.log) == [] || Dones(t.log) == [SettlesAs(s, step).value])
            && t.life.gate == if step == Net(EndOfBody) then Drain else Discard
  {
    ReachableInv(d, s);
    Settled(s, step);
    HoldingRun(d, Next(s, step), more, SettlesAs(s, step).value);
    StepKeeps(s, step);
    TraceStepKeeps(s, step);
    RunKeeps(d, Next(s, step), more);
    GateIsFinal(d, Next(s, step), more);
  }

  // ---- an abort is the end of deliveries ------------------------------------------------------

  lemma AbortedStep(s: Slot, step: Step)
    requires s.life.gate.Discard? && Enabled(s, step)
    ensures Next(s, step).life.gate.Discard? && Next(s, step).flow.consumed == s.flow.consumed
  {
    match step
    case Net(n) => NetFrame(s, n);
    case Api(a) => ApiFrame(s, a);
    case Work(k) => if k.React? {} else if k.Take? {}
  }

  lemma {:induction false} AbortedRun(d: Discipline, s: Slot, steps: seq<Step>)
    requires s.life.gate.Discard? && CanRun(d, s, steps)
    ensures After(d, s, steps).flow.consumed == s.flow.consumed
    decreases |steps|
  {
    if steps != [] {
      AbortedStep(s, steps[0]);
      AbortedRun(d, Next(s, steps[0]), steps[1..]);
    }
  }

  /** Once a request is aborted no callback but Done ever begins again, whatever is queued or still arrives. */
  lemma NothingBeginsAfterAbort(d: Discipline, s: Slot, steps: seq<Step>)
    requires Reachable(d, s) && s.life.gate.Discard? && CanRun(d, s, steps)
    ensures Begins(After(d, s, steps).log) == Begins(s.log)
  {
    ReachableInv(d, s);
    RunKeeps(d, s, steps);
    AbortedRun(d, s, steps);
    SameShape(d, s, steps);
  }

  lemma {:induction false} SameShape(d: Discipline, s: Slot, steps: seq<Step>)
    requires CanRun(d, s, steps)
    ensures After(d, s, steps).hasOnChunk == s.hasOnChunk
    decreases |steps|
  {
    if steps != [] { SameShape(d, Next(s, steps[0]), steps[1..]); }
  }
}

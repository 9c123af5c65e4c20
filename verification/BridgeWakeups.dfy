/**
 * No stranded work: a request with something to deliver is in the ready queue or with a worker that will deliver it,
 * until a step falls into one of three gaps the code leaves open. Which steps those are is stated exactly. A settled
 * request that is not stranded finishes within a number of slices that its queue determines; a stranded one never does.
 */
module BridgeWakeups {
  import opened Abi
  import opened Bridge
  import opened BridgeSafety
  import opened BridgeTheorems

  // ---- awake ----------------------------------------------------------------------------------

  predicate HasWork(s: Slot) {
    s.flow.queue != [] || s.life.terminal.Some?
  }

  predicate Deliverable(s: Slot) {
    HasWork(s) && !s.hold.paused && !s.life.finished
  }

  /** No worker is inside the slot, or one that has decided to leave and will find nothing to come back for. */
  predicate Spent(owner: Phase, queue: seq<Event>) {
    owner.Away? || (owner == Decided(false) && queue == [])
  }

  /** What can be delivered will be: a worker is on its way, or one is inside that has not decided to leave it. */
  predicate Awake(s: Slot) {
    Deliverable(s) ==> Coming(s.sched) || !Spent(s.owner, s.flow.queue)
  }

  // ---- the three gaps -------------------------------------------------------------------------

  /** The last copy of the slot is spent on an owner that read done_ready before Done was ready and is leaving. */
  predicate BounceGap(s: Slot, step: Step) {
    && step == Work(Start) && s.sched.running && s.sched.tickets == 0 && s.sched.popped == 1
    && s.owner == Decided(false) && s.flow.queue == [] && s.life.terminal.Some? && !s.hold.paused
  }

  /** Nobody is coming, but a bouncing worker has not reset the flag yet, so scheduling does nothing. */
  predicate Unschedulable(s: Slot) {
    s.sched.scheduled && !Coming(s.sched) && !s.life.finished
  }

  /** Something becomes deliverable while the slot cannot be scheduled and nobody inside will see it. */
  predicate FlagGap(s: Slot, step: Step) {
    && Unschedulable(s)
    && match step
       case Net(n) => n.Push? && s.flow.producer.Cleared? && s.owner.Away? && !s.hold.paused
       case Api(a) =>
         && Spent(s.owner, s.flow.queue)
         && (match a
             case SettlePublish => s.life.pending.Some? && (s.hold.paused ==> s.life.pending.value.discard)
             case Resume => s.hold.paused && HasWork(s)
             case SettleClaim(_) => !s.life.gate.Running? && s.hold.paused && HasWork(s)
             case _ => false)
       case Work(_) => false
  }

  /** A callback's CANCEL loses to an earlier settlement and leaves without delivering its Done. */
  predicate CancelGap(s: Slot, step: Step) {
    && step == Work(React) && s.owner.Reacting? && s.owner.action == Cancel
    && s.life.terminal.Some? && s.flow.queue == [] && !Coming(s.sched)
  }

  predicate Gap(s: Slot, step: Step) {
    BounceGap(s, step) || FlagGap(s, step) || CancelGap(s, step)
  }

  // ---- exactly the gaps lose a wakeup ---------------------------------------------------------

  lemma NetWakes(s: Slot, step: NetStep)
    requires Inv(s) && Awake(s) && NetEnabled(s.flow, step)
    ensures Awake(NextNet(s, step)) <==> !FlagGap(s, Net(step))
  {
    NetFrame(s, step);
    if step.Push? {} else {}
  }

  lemma ApiWakes(s: Slot, step: ApiStep)
    requires Inv(s) && Awake(s) && ApiEnabled(s, step)
    ensures Awake(NextApi(s, step)) <==> !FlagGap(s, Api(step))
  {
    match step
    case SettleClaim(t) => if s.life.gate.Running? {} else {}
    case SettlePublish => if s.sched.scheduled {} else {}
    case Resume => if s.hold.paused {} else {}
    case ResumeSee =>
    case ResumeStore =>
  }

  lemma OtherWorkWakes(s: Slot, step: WorkStep)
    requires Inv(s) && Awake(s) && WorkEnabled(s, step) && !step.Start? && !step.Take? && !step.React?
    ensures Awake(NextWork(s, step))
  {}

  lemma WorkWakes(s: Slot, step: WorkStep)
    requires Inv(s) && Awake(s) && WorkEnabled(s, step)
    ensures Awake(NextWork(s, step)) <==> !Gap(s, Work(step))
  {
    if step.Start? {
    } else if step.Take? {
    } else if step.React? {
    } else {
      OtherWorkWakes(s, step);
    }
  }

  /** In every interleaving, a step loses a wakeup if and only if it falls into one of the three gaps. */
  lemma WakeupLostIff(s: Slot, step: Step)
    requires Inv(s) && Awake(s) && Enabled(s, step)
    ensures Awake(Next(s, step)) <==> !Gap(s, step)
  {
    match step
    case Net(n) => NetWakes(s, n);
    case Api(a) => ApiWakes(s, a);
    case Work(k) => WorkWakes(s, k);
  }

  predicate GapFree(d: Discipline, s: Slot, steps: seq<Step>)
    requires CanRun(d, s, steps)
    decreases |steps|
  {
    steps == [] || (!Gap(s, steps[0]) && GapFree(d, Next(s, steps[0]), steps[1..]))
  }

  lemma {:induction false} GapFreeRunStaysAwake(d: Discipline, s: Slot, steps: seq<Step>)
    requires Inv(s) && Awake(s) && CanRun(d, s, steps) && GapFree(d, s, steps)
    ensures Awake(After(d, s, steps))
    decreases |steps|
  {
    if steps != [] {
      WakeupLostIff(s, steps[0]);
      StepKeeps(s, steps[0]);
      GapFreeRunStaysAwake(d, Next(s, steps[0]), steps[1..]);
    }
  }

  /**
   * After every run that falls into no gap, an unfinished, unpaused request with a queued event or a ready Done is in
   * the ready queue, with a worker about to enter it, or with one inside.
   */
  lemma NoStrandedWork(d: Discipline, capacity: nat, hasOnChunk: bool, steps: seq<Step>)
    requires CanRun(d, Init(capacity, hasOnChunk), steps) && GapFree(d, Init(capacity, hasOnChunk), steps)
    ensures var s := After(d, Init(capacity, hasOnChunk), steps);
            Deliverable(s) ==> s.sched.tickets > 0 || s.sched.popped > 0 || !s.owner.Away?
  {
    InitInv(capacity, hasOnChunk);
    GapFreeRunStaysAwake(d, Init(capacity, hasOnChunk), steps);
  }

  // ---- the scheduled flag ---------------------------------------------------------------------

  predicate FlagCovered(c: Sched) {
    c.scheduled ==> Coming(c) || c.bouncing > 0
  }

  lemma {:induction false} FlagStaysCoveredRun(d: Discipline, s: Slot, steps: seq<Step>)
    requires FlagCovered(s.sched) && CanRun(d, s, steps)
    ensures FlagCovered(After(d, s, steps).sched)
    decreases |steps|
  {
    if steps != [] {
      FlagStaysCoveredRun(d, Next(s, steps[0]), steps[1..]);
    }
  }

  /**
   * In every interleaving the flag means a copy is on its way or a losing worker is about to reset it. So the second
   * gap is open only inside a bounce. The converse does not hold, see PushBackLeavesFlagClear.
   */
  lemma ScheduledMeansQueued(d: Discipline, s: Slot)
    requires Reachable(d, s) && s.sched.scheduled
    ensures s.sched.tickets > 0 || s.sched.popped > 0 || s.sched.bouncing > 0
  {
    var capacity: nat, hasOnChunk, steps: seq<Step> :|
      CanRun(d, Init(capacity, hasOnChunk), steps) && After(d, Init(capacity, hasOnChunk), steps) == s;
    FlagStaysCoveredRun(d, Init(capacity, hasOnChunk), steps);
  }

  // ---- stranded for good ----------------------------------------------------------------------

  /** Done is ready, nobody will run the slot, and no event is left that could wake it. */
  predicate Stranded(s: Slot) {
    && s.life.terminal.Some? && !s.hold.paused && Spent(s.owner, s.flow.queue) && !Coming(s.sched)
    && !s.flow.producer.Cleared?
  }

  lemma StrandedWork(s: Slot, step: WorkStep)
    requires Inv(s) && Stranded(s) && WorkEnabled(s, step)
    ensures Stranded(NextWork(s, step)) && NextWork(s, step).log == s.log
  {
    assert step.Bounced? || step.Release?;
  }

  lemma StrandedStep(s: Slot, step: Step)
    requires Inv(s) && Stranded(s) && Enabled(s, step)
    ensures Stranded(Next(s, step)) && Next(s, step).log == s.log
  {
    match step
    case Net(n) =>
    case Api(a) =>
    case Work(k) => StrandedWork(s, k);
  }

  /** No interleaving ever delivers a stranded Done: `free` would wait for it forever. */
  lemma {:induction false} StrandedForever(s: Slot, steps: seq<Step>)
    requires Inv(s) && Stranded(s) && CanRun(Any, s, steps)
    ensures Stranded(After(Any, s, steps)) && After(Any, s, steps).log == s.log
    decreases |steps|
  {
    if steps != [] {
      StrandedStep(s, steps[0]);
      StepKeeps(s, steps[0]);
      StrandedForever(Next(s, steps[0]), steps[1..]);
    }
  }

  /**
   * For a settled request whose network task is not about to queue an event, a step strands Done for good if and only
   * if it falls into a gap.
   */
  lemma DoneStrandedIff(s: Slot, step: Step)
    requires Inv(s) && Awake(s) && Enabled(s, step)
    requires Next(s, step).life.terminal.Some? && !Next(s, step).flow.producer.Cleared?
    ensures Stranded(Next(s, step)) <==> Gap(s, step)
  {
    WakeupLostIff(s, step);
    StepKeeps(s, step);
  }

  // ---- progress -------------------------------------------------------------------------------

  /** How many steps the owner can still take before it releases the slot. */
  function Rank(p: Phase): nat {
    match p
    case Away => 0
    case Working(left) => 3 * left + 5
    case Calling(_, left) => 3 * left + 7
    case Reacting(_, left) => 3 * left + 6
    case Drained => 4
    case Checked => 3
    case Finishing(_) => 2
    case Decided(_) => 1
  }

  lemma WorkRank(s: Slot, step: WorkStep)
    requires Owned(s.owner, s.hold, s.sched.running) && WorkEnabled(s, step)
    ensures IsOwnerStep(step) ==> Rank(NextWork(s, step).owner) < Rank(s.owner)
    ensures !IsOwnerStep(step) ==>
              NextWork(s, step).owner == s.owner || (s.owner.Away? && Rank(NextWork(s, step).owner) <= 3 * SLICE + 5)
  {
    if step.React? {} else if step.Take? {}
  }

  /** The owner's next step is determined by where it stands. */
  function OwnStep(phase: Phase, value: int): WorkStep
    requires !phase.Away?
  {
    match phase
    case Working(_) => Take
    case Calling(_, _) => Return(value)
    case Reacting(_, _) => React
    case Drained => Look
    case Checked => ReadDone
    case Finishing(_) => DoneReturn
    case Decided(_) => Release
  }

  lemma OwnStepRunsDown(s: Slot, value: int)
    requires !s.owner.Away?
    ensures IsOwnerStep(OwnStep(s.owner, value)) && WorkEnabled(s, OwnStep(s.owner, value))
    ensures Rank(NextWork(s, OwnStep(s.owner, value)).owner) < Rank(s.owner)
  {
    if s.owner.Working? {} else if s.owner.Reacting? {}
  }

  /** A slice is bounded: the owner's own steps run down, and no other thread's step disturbs them. */
  lemma SliceIsBounded(s: Slot, step: Step)
    requires Inv(s) && Enabled(s, step)
    ensures step.Work? && IsOwnerStep(step.k) ==> Rank(Next(s, step).owner) < Rank(s.owner)
    ensures !(step.Work? && IsOwnerStep(step.k)) ==>
              Next(s, step).owner == s.owner || (s.owner.Away? && Rank(Next(s, step).owner) <= 3 * SLICE + 5)
  {
    match step
    case Net(n) => NetFrame(s, n);
    case Api(a) => ApiFrame(s, a);
    case Work(k) => WorkRank(s, k);
  }

  /** Settled, published, not held: only Done and what is queued before it remain. */
  predicate Settled(s: Slot) {
    s.life.doneReady && !s.hold.paused && !s.flow.producer.Cleared?
  }

  /** A step that neither parks the request nor cancels it from a callback. */
  predicate Quiet(s: Slot, step: Step) {
    step == Work(React) && s.owner.Reacting? ==> s.owner.action == Continue || (s.owner.action == Pause && s.hold.permit)
  }

  /** Where a settled request stands in a slice that began with n queued events. */
  predicate InSlice(s: Slot, n: nat) {
    && Settled(s)
    && match s.owner
       case Away => s.life.finished || (s.life.terminal.Some? && |s.flow.queue| == n)
       case Working(left) => s.life.finished || (left <= SLICE && |s.flow.queue| + SLICE == n + left && s.life.terminal.Some?)
       case Calling(_, left) => s.life.finished || (left <= SLICE && |s.flow.queue| + SLICE == n + left && s.life.terminal.Some?)
       case Reacting(_, left) => s.life.finished || (left <= SLICE && |s.flow.queue| + SLICE == n + left && s.life.terminal.Some?)
       case Drained => s.life.finished || (|s.flow.queue| == (if n <= SLICE then 0 else n - SLICE) && s.life.terminal.Some?)
       case Checked => s.life.finished || (s.flow.queue == [] && n <= SLICE && s.life.terminal.Some?)
       case Finishing(_) => n <= SLICE
       case Decided(more) => s.life.finished || (more && |s.flow.queue| + SLICE == n && n > SLICE && s.life.terminal.Some?)
  }

  lemma SliceTake(s: Slot, n: nat)
    requires InSlice(s, n) && s.owner.Working?
    ensures InSlice(NextTake(s), n)
  {
    if s.owner.left == 0 || s.flow.queue == [] {} else if s.life.gate.Discard? {} else {}
  }

  lemma SliceReact(s: Slot, n: nat)
    requires InSlice(s, n) && s.owner.Reacting? && Quiet(s, Work(React))
    ensures InSlice(NextReact(s), n)
  {
    assert NextReact(s) == AfterCall(s, false, Working(s.owner.left));
  }

  lemma SliceNet(s: Slot, n: nat, step: NetStep)
    requires Inv(s) && InSlice(s, n) && NetEnabled(s.flow, step)
    ensures InSlice(NextNet(s, step), n)
  {
    NetFrame(s, step);
    assert !s.life.gate.Running?;
  }

  lemma SliceApi(s: Slot, n: nat, step: ApiStep)
    requires Inv(s) && InSlice(s, n) && ApiEnabled(s, step)
    ensures InSlice(NextApi(s, step), n)
  {
    ApiFrame(s, step);
    match step
    case SettleClaim(t) => if s.hold.paused {} else {}
    case _ =>
  }

  lemma SliceWork(s: Slot, n: nat, step: WorkStep)
    requires Inv(s) && InSlice(s, n) && WorkEnabled(s, step) && !step.Take? && !step.React? && !step.Release?
    ensures InSlice(NextWork(s, step), n)
  {}

  lemma SliceStep(s: Slot, n: nat, step: Step)
    requires Inv(s) && InSlice(s, n) && Enabled(s, step) && Quiet(s, step) && step != Work(Release)
    ensures InSlice(Next(s, step), n)
  {
    match step
    case Net(m) => SliceNet(s, n, m);
    case Api(a) => SliceApi(s, n, a);
    case Work(k) =>
      if k.Take? {
        SliceTake(s, n);
      } else if k.React? {
        SliceReact(s, n);
      } else {
        SliceWork(s, n, k);
      }
  }

  function Releases(steps: seq<Step>): nat {
    if steps == [] then 0 else (if steps[0] == Work(Release) then 1 else 0) + Releases(steps[1..])
  }

  predicate QuietRun(d: Discipline, s: Slot, steps: seq<Step>)
    requires CanRun(d, s, steps)
    decreases |steps|
  {
    steps == [] || (Quiet(s, steps[0]) && QuietRun(d, Next(s, steps[0]), steps[1..]))
  }

  /** Slices in a row: each one that is released takes eight events or finishes the request. */
  lemma {:induction false} SlicesRunDown(d: Discipline, s: Slot, n: nat, steps: seq<Step>)
    requires Inv(s) && InSlice(s, n) && CanRun(d, s, steps) && QuietRun(d, s, steps)
    ensures SLICE * Releases(steps) > n || (n == 0 && Releases(steps) > 0) ==> After(d, s, steps).life.finished
    decreases |steps|
  {
    if steps != [] {
      var t := Next(s, steps[0]);
      StepKeeps(s, steps[0]);
      if s.life.finished {
        FinishedForever(d, s, steps);
      } else if steps[0] == Work(Release) {
        SlicesRunDown(d, t, if n > SLICE then n - SLICE else 0, steps[1..]);
      } else {
        SliceStep(s, n, steps[0]);
        SlicesRunDown(d, t, n, steps[1..]);
      }
    }
  }

  lemma {:induction false} FinishedForever(d: Discipline, s: Slot, steps: seq<Step>)
    requires s.life.finished && CanRun(d, s, steps)
    ensures After(d, s, steps).life.finished
    decreases |steps|
  {
    if steps != [] {
      FinishedForever(d, Next(s, steps[0]), steps[1..]);
    }
  }

  /**
   * A settled request with n queued events is finished after n / 8 + 1 slices, whatever other threads do meanwhile, as
   * long as no callback parks or cancels it.
   */
  lemma SettledFinishesWithin(d: Discipline, s: Slot, steps: seq<Step>)
    requires Inv(s) && Settled(s) && s.life.terminal.Some? && (s.owner.Away? || s.owner == Working(SLICE))
    requires CanRun(d, s, steps) && QuietRun(d, s, steps)
    requires Releases(steps) >= |s.flow.queue| / SLICE + 1
    ensures After(d, s, steps).life.finished
  {
    SlicesRunDown(d, s, |s.flow.queue|, steps);
  }
}

/**
 * `free` to its end: it waits for the bridge counter, drops the runtime, sets the executor's stop flag, notifies the
 * workers and joins every one of them. Workers are seats that move through their loop; whatever is done to a slot by a
 * worker is done from a seat. The lock of the ready queue and its condition variable are kept: a worker that found the
 * queue empty and the flag clear holds the lock until it sleeps, a push needs the lock and wakes one sleeper, and the stop
 * flag is set and all sleepers notified without it. The order in which the ready queue hands out slots is left to module
 * Executor.
 */
module Free {
  import opened Abi
  import opened Bridge
  import opened BridgeSafety
  import opened Client
  import opened ClientTheorems

  /** Where a worker stands in its loop. */
  datatype Seat =
    | Top                 // about to read the stop flag
    | Waiting             // has read it as clear or was woken, about to lock the ready queue
    | Poised              // holds the lock, has found the queue empty and the flag clear, about to sleep
    | Asleep              // on the condition variable, without the lock
    | Popped(i: nat)      // took slot i, has not tested `running`
    | Bouncing(i: nat)    // found it set
    | Inside(i: nat)      // owns slot i
    | Exited

  /** How far `free` has come; Stopping has set the flag and not yet notified. */
  datatype Progress = Open | Zero | NoRuntime | Stopping | Joining | Freed

  datatype Free = Free(c: Client, seats: seq<Seat>, progress: Progress)

  /** In steps that may push a slot, `wake` is the sleeper the push notifies. */
  datatype FreeStep =
    | Outside(step: ClientStep, wake: nat)      // callers, network tasks, timeouts
    | CheckStop(w: nat)
    | FindNone(w: nat)                          // the ready queue is empty and the flag is clear
    | Sleep(w: nat)
    | GiveUp(w: nat)                            // the ready queue is empty and the flag is set
    | Fetch(w: nat, i: nat)
    | Test(w: nat)
    | Bounce(w: nat)
    | Serve(w: nat, k: WorkStep, wake: nat)     // the owner's next step
    | Clean(w: nat)                             // after OnDone: reservation, map, counter
    | WaitZero | DropRuntime | SetStop | Notify | Join

  /** Only a worker calls back, and only a worker cleans up. */
  predicate IsWorkers(c: Client, step: ClientStep) {
    match step
    case Act(_, s) => s.Work?
    case Advance(i) => i < |c.calls| && CleansUp(c.calls[i].stage)
    case _ => false
  }

  predicate NoneReady(calls: seq<Call>) {
    forall i :: 0 <= i < |calls| ==> calls[i].slot.sched.tickets == 0
  }

  predicate StopSet(p: Progress) {
    p.Stopping? || p.Joining? || p.Freed?
  }

  predicate AllExited(seats: seq<Seat>) {
    forall w :: 0 <= w < |seats| ==> seats[w].Exited?
  }

  /** A worker that is about to sleep holds the lock of the ready queue; every other use of the lock is one step. */
  predicate LockFree(seats: seq<Seat>) {
    forall w :: 0 <= w < |seats| ==> !seats[w].Poised?
  }

  predicate NoneAsleep(seats: seq<Seat>) {
    forall w :: 0 <= w < |seats| ==> !seats[w].Asleep?
  }

  /** A step of the request's network task: dropping the runtime ends it. */
  predicate IsTasks(c: Client, step: ClientStep) {
    step.Act? && step.i < |c.calls| && (step.step.Net? || (step.step.Api? && step.step.a.SettleClaim? && !InMap(c.calls[step.i].stage)))
  }

  /** The step puts a slot into the ready queue. */
  predicate Pushes(c: Client, step: ClientStep)
    requires ClientEnabled(c, step)
  {
    step.Act? && Next(c.calls[step.i].slot, step.step).sched.tickets > c.calls[step.i].slot.sched.tickets
  }

  /** A push needs the lock, and wakes a sleeper if there is one. */
  predicate PushFits(c: Client, seats: seq<Seat>, step: ClientStep, wake: nat)
    requires ClientEnabled(c, step)
  {
    Pushes(c, step) ==> LockFree(seats) && (NoneAsleep(seats) || (wake < |seats| && seats[wake].Asleep?))
  }

  /** What a step does to the client, if it does anything to it. */
  function ClientPart(f: Free, step: FreeStep): Option<ClientStep> {
    match step
    case Outside(s, _) => Some(s)
    case Fetch(_, i) => Some(Act(i, Work(Pop)))
    case Test(w) => if w < |f.seats| && f.seats[w].Popped? then Some(Act(f.seats[w].i, Work(Start))) else None
    case Bounce(w) => if w < |f.seats| && f.seats[w].Bouncing? then Some(Act(f.seats[w].i, Work(Bounced))) else None
    case Serve(w, k, _) => if w < |f.seats| && f.seats[w].Inside? then Some(Act(f.seats[w].i, Work(k))) else None
    case Clean(w) => if w < |f.seats| && f.seats[w].Inside? then Some(Advance(f.seats[w].i)) else None
    case _ => None
  }

  predicate FreeEnabled(f: Free, step: FreeStep) {
    && (ClientPart(f, step).Some? ==> ClientEnabled(f.c, ClientPart(f, step).value))
    && match step
       case Outside(s, wake) =>
         && !IsWorkers(f.c, s) && (IsTasks(f.c, s) ==> f.progress.Open? || f.progress.Zero?)
         && PushFits(f.c, f.seats, s, wake)
       case CheckStop(w) => w < |f.seats| && f.seats[w].Top?
       case FindNone(w) => w < |f.seats| && f.seats[w].Waiting? && LockFree(f.seats) && !StopSet(f.progress) && NoneReady(f.c.calls)
       case Sleep(w) => w < |f.seats| && f.seats[w].Poised?
       case GiveUp(w) => w < |f.seats| && f.seats[w].Waiting? && LockFree(f.seats) && StopSet(f.progress) && NoneReady(f.c.calls)
       case Fetch(w, _) => w < |f.seats| && f.seats[w].Waiting? && LockFree(f.seats)
       case Test(w) => w < |f.seats| && f.seats[w].Popped?
       case Bounce(w) => w < |f.seats| && f.seats[w].Bouncing?
       case Serve(w, k, wake) =>
         && w < |f.seats| && f.seats[w].Inside? && IsOwnerStep(k)
         && PushFits(f.c, f.seats, Act(f.seats[w].i, Work(k)), wake)
       case Clean(w) => w < |f.seats| && f.seats[w].Inside? && IsWorkers(f.c, Advance(f.seats[w].i))
       case WaitZero => f.progress.Open? && f.c.closed && f.c.bridges == 0
       case DropRuntime => f.progress.Zero?
       case SetStop => f.progress.NoRuntime?
       case Notify => f.progress.Stopping?
       case Join => f.progress.Joining? && AllExited(f.seats)
  }

  /** Where the worker stands after its step. */
  function NextSeat(f: Free, step: FreeStep): Seat
    requires FreeEnabled(f, step) && SeatOf(step).Some?
  {
    match step
    case CheckStop(w) => if StopSet(f.progress) then Exited else Waiting
    case FindNone(w) => Poised
    case Sleep(w) => Asleep
    case GiveUp(w) => Exited
    case Fetch(w, i) => Popped(i)
    case Test(w) => if f.c.calls[f.seats[w].i].slot.sched.running then Bouncing(f.seats[w].i) else Inside(f.seats[w].i)
    case Bounce(w) => Top
    case Serve(w, k, _) => if k.Release? then Top else f.seats[w]
    case Clean(w) => f.seats[w]
  }

  function SeatOf(step: FreeStep): Option<nat> {
    match step
    case CheckStop(w) => Some(w)
    case FindNone(w) => Some(w)
    case Sleep(w) => Some(w)
    case GiveUp(w) => Some(w)
    case Fetch(w, _) => Some(w)
    case Test(w) => Some(w)
    case Bounce(w) => Some(w)
    case Serve(w, _, _) => Some(w)
    case Clean(w) => Some(w)
    case _ => None
  }

  function NextProgress(p: Progress, step: FreeStep): Progress {
    match step
    case WaitZero => Zero
    case DropRuntime => NoRuntime
    case SetStop => Stopping
    case Notify => Joining
    case Join => Freed
    case _ => p
  }

  /** The seats after the worker's own move. */
  function Moved(f: Free, step: FreeStep): seq<Seat>
    requires FreeEnabled(f, step)
  {
    if SeatOf(step).Some? then f.seats[SeatOf(step).value := NextSeat(f, step)] else f.seats
  }

  function WakeOne(seats: seq<Seat>, w: nat): seq<Seat> {
    if w < |seats| && seats[w].Asleep? then seats[w := Waiting] else seats
  }

  function WakeAll(seats: seq<Seat>): seq<Seat> {
    seq(|seats|, w requires 0 <= w < |seats| => if seats[w].Asleep? then Waiting else seats[w])
  }

  /** Whom the step wakes, if it pushes a slot. */
  function Wakes(f: Free, step: FreeStep): Option<nat>
    requires FreeEnabled(f, step)
  {
    if ClientPart(f, step).Some? && Pushes(f.c, ClientPart(f, step).value) then
      if step.Outside? || step.Serve? then Some(step.wake) else None
    else None
  }

  function NextSeats(f: Free, step: FreeStep): seq<Seat>
    requires FreeEnabled(f, step)
  {
    if step.Notify? then WakeAll(f.seats)
    else if Wakes(f, step).Some? then WakeOne(Moved(f, step), Wakes(f, step).value)
    else Moved(f, step)
  }

  function FreeNext(f: Free, step: FreeStep): Free
    requires FreeEnabled(f, step)
  {
    Free(if ClientPart(f, step).Some? then ClientNext(f.c, ClientPart(f, step).value) else f.c,
         NextSeats(f, step), NextProgress(f.progress, step))
  }

  predicate FreeCanRun(f: Free, steps: seq<FreeStep>)
    decreases |steps|
  {
    steps == [] || (FreeEnabled(f, steps[0]) && FreeCanRun(FreeNext(f, steps[0]), steps[1..]))
  }

  function FreeAfter(f: Free, steps: seq<FreeStep>): Free
    requires FreeCanRun(f, steps)
    decreases |steps|
  {
    if steps == [] then f else FreeAfter(FreeNext(f, steps[0]), steps[1..])
  }

  function NewFree(workers: nat, maxInflight: nat, maxBytes: nat): Free {
    Free(NewClient(maxInflight, maxBytes), seq(workers, _ => Top), Open)
  }

  // ---- the invariant --------------------------------------------------------------------------

  /** A slot that is owned is owned from one seat. */
  ghost predicate Seated(calls: seq<Call>, seats: seq<Seat>) {
    && (forall w :: 0 <= w < |seats| && seats[w].Inside? ==> seats[w].i < |calls| && !calls[seats[w].i].slot.owner.Away?)
    && (forall v, w :: 0 <= v < w < |seats| && seats[v].Inside? && seats[w].Inside? ==> seats[v].i != seats[w].i)
    && (forall i: nat :: i < |calls| && !calls[i].slot.owner.Away? ==> Inside(i) in seats)
  }

  ghost predicate FreeInv(f: Free) {
    && ClientInv(f.c) && Seated(f.c.calls, f.seats)
    && (!f.progress.Open? ==> f.c.closed)
    && (f.progress.Freed? ==> AllExited(f.seats))
  }

  /** Who is outside the workers never moves an owner and never adds to a log. */
  lemma OutsideFrame(c: Client, step: ClientStep)
    requires ClientEnabled(c, step) && !IsWorkers(c, step)
    ensures var d := ClientNext(c, step);
            && |c.calls| <= |d.calls| && (c.closed ==> d.closed && |d.calls| == |c.calls|)
            && (forall i :: 0 <= i < |c.calls| ==> d.calls[i].slot.owner == c.calls[i].slot.owner && d.calls[i].slot.log == c.calls[i].slot.log)
            && (forall i :: 0 <= i < |c.calls| && CleansUp(c.calls[i].stage) ==> d.calls[i].stage == c.calls[i].stage)
            && (forall i :: 0 <= i < |c.calls| && CleansUp(d.calls[i].stage) ==> d.calls[i].stage == c.calls[i].stage)
            && (forall i :: |c.calls| <= i < |d.calls| ==> d.calls[i].slot.owner.Away?)
  {
    if step.Act? {
      var s := c.calls[step.i].slot;
      match step.step
      case Net(n) => NetFrame(s, n);
      case Api(a) => ApiFrame(s, a);
    }
  }

  /** Every call but one is as it was. */
  predicate Elsewhere(before: seq<Call>, after: seq<Call>, i: nat) {
    |after| == |before| && forall j :: 0 <= j < |before| && j != i ==> after[j] == before[j]
  }

  /** A worker's step on slot i, seen from there. */
  lemma ActFrame(c: Client, i: nat, k: WorkStep)
    requires AllFit(c.calls) && ClientEnabled(c, Act(i, Work(k)))
    ensures var d := ClientNext(c, Act(i, Work(k))).calls;
            && Elsewhere(c.calls, d, i)
            && Moves(c.calls[i].slot.owner, d[i].slot.owner, k)
            && (c.calls[i].slot.sched.running <==> !c.calls[i].slot.owner.Away?)
            && (!k.DoneReturn? ==> d[i].stage == c.calls[i].stage)
  {
    assert SlotFits(c.calls[i]);
    OwnerMoves(c.calls[i].slot, k);
  }

  /** The owner's steps leave the slot with Release only, Start enters it if nobody is there, the others leave it be. */
  predicate Moves(before: Phase, after: Phase, k: WorkStep) {
    if IsOwnerStep(k) then !before.Away? && (after.Away? <==> k.Release?)
    else if k.Start? && before.Away? then !after.Away?
    else after == before
  }

  lemma OwnerMoves(s: Slot, k: WorkStep)
    requires Owned(s.owner, s.hold, s.sched.running) && WorkEnabled(s, k)
    ensures Moves(s.owner, NextWork(s, k).owner, k)
  {
    match k
    case Take => if s.hold.paused {} else if s.owner.left == 0 || s.flow.queue == [] {} else if s.life.gate.Discard? {} else {}
    case React =>
      match s.owner.action {
        case Cancel => if s.life.gate.Running? {} else {}
        case Pause => if s.hold.permit {} else {}
        case Continue =>
      }
    case _ =>
  }

  lemma SeatMoves(seats: seq<Seat>, w: nat, x: Seat, y: Seat)
    requires w < |seats| && y in seats && seats[w] != y
    ensures y in seats[w := x]
  {
    var k :| 0 <= k < |seats| && seats[k] == y;
    assert seats[w := x][k] == y;
  }

  /** A seat moves without entering or leaving a slot, and no owner moves in or out. */
  lemma StaysSeated(before: seq<Call>, after: seq<Call>, seats: seq<Seat>, w: nat, x: Seat)
    requires Seated(before, seats) && w < |seats| && (seats[w].Inside? || x.Inside? ==> x == seats[w])
    requires |after| == |before| && forall i :: 0 <= i < |before| ==> (after[i].slot.owner.Away? <==> before[i].slot.owner.Away?)
    ensures Seated(after, seats[w := x])
  {
    forall i: nat | i < |after| && !after[i].slot.owner.Away? ensures Inside(i) in seats[w := x] {
      if seats[w] == Inside(i) { assert seats[w := x][w] == Inside(i); } else { SeatMoves(seats, w, x, Inside(i)); }
    }
  }

  lemma EntersSeat(before: seq<Call>, after: seq<Call>, seats: seq<Seat>, w: nat, i: nat)
    requires Seated(before, seats) && w < |seats| && !seats[w].Inside? && i < |before| && Elsewhere(before, after, i)
    requires before[i].slot.owner.Away? && !after[i].slot.owner.Away?
    ensures Seated(after, seats[w := Inside(i)])
  {
    var next := seats[w := Inside(i)];
    assert next[w] == Inside(i);
    forall j: nat | j < |after| && !after[j].slot.owner.Away? ensures Inside(j) in next {
      if j != i { SeatMoves(seats, w, Inside(i), Inside(j)); }
    }
  }

  lemma LeavesSeat(before: seq<Call>, after: seq<Call>, seats: seq<Seat>, w: nat)
    requires Seated(before, seats) && w < |seats| && seats[w].Inside? && Elsewhere(before, after, seats[w].i)
    requires after[seats[w].i].slot.owner.Away?
    ensures Seated(after, seats[w := Top])
  {
    forall j: nat | j < |after| && !after[j].slot.owner.Away? ensures Inside(j) in seats[w := Top] {
      SeatMoves(seats, w, Top, Inside(j));
    }
  }

  /** The seat after a worker's step on slot i. */
  function SeatAfter(i: nat, before: Phase, k: WorkStep): Seat {
    match k
    case Pop => Popped(i)
    case Start => if before.Away? then Inside(i) else Bouncing(i)
    case Bounced => Top
    case Release => Top
    case _ => Inside(i)
  }

  /** The seat before it. */
  function SeatBefore(i: nat, k: WorkStep): Seat {
    match k
    case Pop => Waiting
    case Start => Popped(i)
    case Bounced => Bouncing(i)
    case _ => Inside(i)
  }

  /** A worker's step on slot i, made from seat w. */
  lemma SeatActs(before: seq<Call>, after: seq<Call>, seats: seq<Seat>, w: nat, i: nat, k: WorkStep)
    requires Seated(before, seats) && w < |seats| && i < |before| && Elsewhere(before, after, i)
    requires Moves(before[i].slot.owner, after[i].slot.owner, k)
    requires seats[w] == SeatBefore(i, k)
    ensures Seated(after, seats[w := SeatAfter(i, before[i].slot.owner, k)])
  {
    if k.Release? {
      LeavesSeat(before, after, seats, w);
    } else if k.Start? && before[i].slot.owner.Away? {
      EntersSeat(before, after, seats, w, i);
    } else {
      StaysSeated(before, after, seats, w, SeatAfter(i, before[i].slot.owner, k));
    }
  }

  function CleanLeft(stage: Stage): nat {
    match stage
    case Reported => 4
    case BytesFreed => 3
    case InflightFreed => 2
    case Removed => 1
    case _ => 0
  }

  /** One step of a clean-up. */
  lemma CleanFrame(c: Client, i: nat)
    requires ClientEnabled(c, Advance(i)) && CleansUp(c.calls[i].stage)
    ensures var d := ClientNext(c, Advance(i)).calls;
            && Elsewhere(c.calls, d, i) && d[i].slot == c.calls[i].slot
            && CleanLeft(d[i].stage) + 1 == CleanLeft(c.calls[i].stage)
  {}

  lemma CleanKeeps(c: Client, seats: seq<Seat>, w: nat)
    requires Seated(c.calls, seats) && w < |seats| && seats[w].Inside?
    requires ClientEnabled(c, Advance(seats[w].i)) && CleansUp(c.calls[seats[w].i].stage)
    ensures Seated(ClientNext(c, Advance(seats[w].i)).calls, seats[w := seats[w]])
  {
    CleanFrame(c, seats[w].i);
    StaysSeated(c.calls, ClientNext(c, Advance(seats[w].i)).calls, seats, w, seats[w]);
  }

  lemma OutsideKeeps(c: Client, seats: seq<Seat>, step: ClientStep)
    requires Seated(c.calls, seats) && ClientEnabled(c, step) && !IsWorkers(c, step)
    ensures Seated(ClientNext(c, step).calls, seats)
  {
    OutsideFrame(c, step);
  }

  /** The worker's own step on a slot, if this is one. */
  function WorkPart(step: FreeStep): Option<WorkStep> {
    match step
    case Fetch(_, _) => Some(Pop)
    case Test(_) => Some(Start)
    case Bounce(_) => Some(Bounced)
    case Serve(_, k, _) => Some(k)
    case _ => None
  }

  function SlotOf(f: Free, step: FreeStep): nat
    requires FreeEnabled(f, step) && WorkPart(step).Some?
  {
    if step.Fetch? then step.i else f.seats[step.w].i
  }

  /** Each worker's step on a slot is one act on the client, made from its seat. */
  lemma WorkerActs(f: Free, step: FreeStep)
    requires AllFit(f.c.calls) && FreeEnabled(f, step) && WorkPart(step).Some?
    ensures var i, k := SlotOf(f, step), WorkPart(step).value;
            && ClientEnabled(f.c, Act(i, Work(k))) && FreeNext(f, step).c == ClientNext(f.c, Act(i, Work(k)))
            && f.seats[step.w] == SeatBefore(i, k)
            && Moved(f, step) == f.seats[step.w := SeatAfter(i, f.c.calls[i].slot.owner, k)]
  {
    match step
    case Fetch(w, i) =>
    case Test(w) => ActFrame(f.c, f.seats[w].i, Start);
    case Bounce(w) =>
    case Serve(w, k, _) => ServesFromInside(f.seats[w].i, f.c.calls[f.seats[w].i].slot.owner, k);
  }

  lemma ServesFromInside(i: nat, owner: Phase, k: WorkStep)
    requires IsOwnerStep(k)
    ensures SeatBefore(i, k) == Inside(i) && SeatAfter(i, owner, k) == if k.Release? then Top else Inside(i)
  {}

  lemma MovedStaysSeated(f: Free, step: FreeStep)
    requires FreeInv(f) && FreeEnabled(f, step)
    ensures Seated(FreeNext(f, step).c.calls, Moved(f, step))
  {
    if WorkPart(step).Some? {
      WorkerActs(f, step);
      ActFrame(f.c, SlotOf(f, step), WorkPart(step).value);
      SeatActs(f.c.calls, FreeNext(f, step).c.calls, f.seats, step.w, SlotOf(f, step), WorkPart(step).value);
    } else {
      match step
      case Outside(s, _) => OutsideKeeps(f.c, f.seats, s);
      case CheckStop(w) => StaysSeated(f.c.calls, f.c.calls, f.seats, w, NextSeat(f, step));
      case FindNone(w) => StaysSeated(f.c.calls, f.c.calls, f.seats, w, Poised);
      case Sleep(w) => StaysSeated(f.c.calls, f.c.calls, f.seats, w, Asleep);
      case GiveUp(w) => StaysSeated(f.c.calls, f.c.calls, f.seats, w, Exited);
      case Clean(w) => CleanKeeps(f.c, f.seats, w);
      case _ =>
    }
  }

  lemma WokenStaysSeated(calls: seq<Call>, seats: seq<Seat>, w: nat)
    requires Seated(calls, seats)
    ensures Seated(calls, WakeOne(seats, w)) && Seated(calls, WakeAll(seats))
  {
    if w < |seats| && seats[w].Asleep? { StaysSeated(calls, calls, seats, w, Waiting); }
    forall i: nat | i < |calls| && !calls[i].slot.owner.Away? ensures Inside(i) in WakeAll(seats) {
      var k :| 0 <= k < |seats| && seats[k] == Inside(i);
      assert WakeAll(seats)[k] == Inside(i);
    }
  }

  lemma SeatedStep(f: Free, step: FreeStep)
    requires FreeInv(f) && FreeEnabled(f, step)
    ensures Seated(FreeNext(f, step).c.calls, FreeNext(f, step).seats)
  {
    MovedStaysSeated(f, step);
    WokenStaysSeated(FreeNext(f, step).c.calls, Moved(f, step), if Wakes(f, step).Some? then Wakes(f, step).value else 0);
  }

  lemma FreeStepKeeps(f: Free, step: FreeStep)
    requires FreeInv(f) && FreeEnabled(f, step)
    ensures FreeInv(FreeNext(f, step))
  {
    SeatedStep(f, step);
    if ClientPart(f, step).Some? { ClientStepKeeps(f.c, ClientPart(f, step).value); }
    ClosedStays(f, step);
  }

  lemma ClosedStays(f: Free, step: FreeStep)
    requires FreeEnabled(f, step)
    ensures f.c.closed ==> FreeNext(f, step).c.closed
    ensures FreeNext(f, step).progress != f.progress && f.progress.Open? ==> f.c.closed
    ensures f.progress.Freed? && AllExited(f.seats) ==> FreeNext(f, step).progress.Freed? && FreeNext(f, step).seats == f.seats
  {}

  lemma {:induction false} FreeRunKeeps(f: Free, steps: seq<FreeStep>)
    requires FreeInv(f) && FreeCanRun(f, steps)
    ensures FreeInv(FreeAfter(f, steps))
    decreases |steps|
  {
    if steps != [] {
      FreeStepKeeps(f, steps[0]);
      FreeRunKeeps(FreeNext(f, steps[0]), steps[1..]);
    }
  }

  // ---- the promise of free --------------------------------------------------------------------

  lemma FreedStep(f: Free, step: FreeStep)
    requires FreeInv(f) && f.progress.Freed? && FreeEnabled(f, step)
    ensures var g := FreeNext(f, step); g.progress.Freed? && SameLogs(g.c.calls, f.c.calls)
  {
    ClosedStays(f, step);
    if step.Outside? { OutsideFrame(f.c, step.step); }
  }

  lemma {:induction false} FreedIsSilent(f: Free, steps: seq<FreeStep>)
    requires FreeInv(f) && f.progress.Freed? && FreeCanRun(f, steps)
    ensures SameLogs(FreeAfter(f, steps).c.calls, f.c.calls)
    decreases |steps|
  {
    if steps != [] {
      FreedStep(f, steps[0]);
      FreeStepKeeps(f, steps[0]);
      FreedIsSilent(FreeNext(f, steps[0]), steps[1..]);
    }
  }

  /** No callback of any request is open. */
  predicate NoneOpen(calls: seq<Call>) {
    forall i :: 0 <= i < |calls| ==> calls[i].slot.owner.Away?
  }

  /**
   * The promise of free, in every run from a new client, with any number of workers and late Dones or not: when free
   * returns no callback is open, and in every continuation none begins or returns.
   */
  lemma NoCallbackAfterFree(workers: nat, maxInflight: nat, maxBytes: nat, steps: seq<FreeStep>, more: seq<FreeStep>)
    requires FreeCanRun(NewFree(workers, maxInflight, maxBytes), steps)
    requires var f := FreeAfter(NewFree(workers, maxInflight, maxBytes), steps); f.progress.Freed? && FreeCanRun(f, more)
    ensures var f := FreeAfter(NewFree(workers, maxInflight, maxBytes), steps);
            NoneOpen(f.c.calls) && SameLogs(FreeAfter(f, more).c.calls, f.c.calls)
  {
    FreeRunKeeps(NewFree(workers, maxInflight, maxBytes), steps);
    var f := FreeAfter(NewFree(workers, maxInflight, maxBytes), steps);
    FreedIsSilent(f, more);
  }

  /** What free does to the client is a run of the client, so what is proved of those holds when wait_zero returns. */
  lemma {:induction false} FreeRunsClient(f: Free, steps: seq<FreeStep>) returns (run: seq<ClientStep>)
    requires FreeCanRun(f, steps)
    ensures ClientCanRun(Any, f.c, run) && ClientAfter(Any, f.c, run) == FreeAfter(f, steps).c
    decreases |steps|
  {
    if steps == [] {
      run := [];
    } else {
      var rest := FreeRunsClient(FreeNext(f, steps[0]), steps[1..]);
      if ClientPart(f, steps[0]).Some? {
        run := [ClientPart(f, steps[0]).value] + rest;
        assert run[1..] == rest;
      } else {
        run := rest;
      }
    }
  }
}

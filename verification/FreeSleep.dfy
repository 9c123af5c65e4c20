/**
 * Sleeping workers. A push takes the lock under which a worker decides to sleep, so queued work is never left to sleepers.
 * The stop flag is set and notified without that lock: a worker that has read the flag as clear and does not sleep yet
 * misses the notification, and then `free` never returns. That this is the only way is stated exactly.
 */
module FreeSleep {
  import opened Abi
  import opened Bridge
  import opened BridgeSafety
  import opened Client
  import opened ClientTheorems
  import opened Free
  import opened FreeJoin

  ghost predicate FreeReachable(f: Free) {
    exists workers: nat, maxInflight: nat, maxBytes: nat, steps: seq<FreeStep> ::
      FreeCanRun(NewFree(workers, maxInflight, maxBytes), steps) && f == FreeAfter(NewFree(workers, maxInflight, maxBytes), steps)
  }

  lemma ReachableFree(f: Free)
    requires FreeReachable(f)
    ensures FreeInv(f) && Tallied(f.c.calls, f.seats)
  {
    var workers: nat, maxInflight: nat, maxBytes: nat, steps: seq<FreeStep> :|
      FreeCanRun(NewFree(workers, maxInflight, maxBytes), steps) && f == FreeAfter(NewFree(workers, maxInflight, maxBytes), steps);
    NewFreeInv(workers, maxInflight, maxBytes);
    TalliedRun(NewFree(workers, maxInflight, maxBytes), steps);
  }

  // ---- queued work is not left to sleepers ----------------------------------------------------

  /** The worker neither sleeps nor is about to. */
  predicate Up(seat: Seat) {
    !seat.Poised? && !seat.Asleep?
  }

  predicate SomeUp(seats: seq<Seat>) {
    exists w :: 0 <= w < |seats| && Up(seats[w])
  }

  predicate Minded(calls: seq<Call>, seats: seq<Seat>) {
    && (!LockFree(seats) ==> NoneReady(calls))
    && (!NoneReady(calls) ==> SomeUp(seats))
  }

  /** Without a push no ready queue fills. */
  lemma NoPushNoTicket(c: Client, step: ClientStep)
    requires ClientEnabled(c, step) && !Pushes(c, step) && NoneReady(c.calls)
    ensures NoneReady(ClientNext(c, step).calls)
  {}

  /** A push finds the lock free and leaves somebody up. */
  lemma PushWakes(seats: seq<Seat>, w: nat)
    requires seats != [] && LockFree(seats) && (NoneAsleep(seats) || (w < |seats| && seats[w].Asleep?))
    ensures LockFree(WakeOne(seats, w)) && SomeUp(WakeOne(seats, w))
  {
    if w < |seats| && seats[w].Asleep? { assert Up(WakeOne(seats, w)[w]); } else { assert Up(seats[0]); }
  }

  lemma UpStays(seats: seq<Seat>, w: nat, x: Seat)
    requires w < |seats| && SomeUp(seats) && (Up(x) || !Up(seats[w]))
    ensures SomeUp(seats[w := x])
  {
    var v :| 0 <= v < |seats| && Up(seats[v]);
    assert Up(seats[w := x][v]);
  }

  lemma AllWokenUp(seats: seq<Seat>)
    ensures NoneAsleep(WakeAll(seats)) && (LockFree(WakeAll(seats)) <==> LockFree(seats))
    ensures SomeUp(seats) ==> SomeUp(WakeAll(seats))
  {
    if SomeUp(seats) {
      var v :| 0 <= v < |seats| && Up(seats[v]);
      assert Up(WakeAll(seats)[v]);
    }
    forall v | 0 <= v < |seats| ensures WakeAll(seats)[v].Poised? <==> seats[v].Poised? {}
  }

  /** A worker's own move, when nothing is pushed. */
  lemma MoveMinds(f: Free, step: FreeStep)
    requires FreeEnabled(f, step) && Minded(f.c.calls, f.seats) && f.seats != [] && SeatOf(step).Some?
    ensures !NoneReady(f.c.calls) ==> SomeUp(Moved(f, step)) && (LockFree(f.seats) ==> LockFree(Moved(f, step)))
    ensures !LockFree(Moved(f, step)) ==> NoneReady(f.c.calls)
  {
    var w := SeatOf(step).value;
    if !NoneReady(f.c.calls) {
      UpStays(f.seats, w, NextSeat(f, step));
    }
  }

  lemma MindedPush(f: Free, step: FreeStep)
    requires FreeEnabled(f, step) && f.seats != [] && Wakes(f, step).Some?
    ensures Minded(FreeNext(f, step).c.calls, FreeNext(f, step).seats)
  {
    var seats := Moved(f, step);
    assert LockFree(seats) && (NoneAsleep(f.seats) ==> NoneAsleep(seats));
    assert !NoneAsleep(f.seats) ==> seats[step.wake].Asleep?;
    PushWakes(seats, step.wake);
  }

  /** Only callers and owners push. */
  lemma OnlyThesePush(f: Free, step: FreeStep)
    requires FreeEnabled(f, step) && ClientPart(f, step).Some? && Wakes(f, step).None?
    ensures !Pushes(f.c, ClientPart(f, step).value)
  {}

  lemma MindedQuiet(f: Free, step: FreeStep)
    requires FreeEnabled(f, step) && Minded(f.c.calls, f.seats) && f.seats != [] && Wakes(f, step).None?
    ensures Minded(FreeNext(f, step).c.calls, FreeNext(f, step).seats)
  {
    if ClientPart(f, step).Some? {
      OnlyThesePush(f, step);
      if NoneReady(f.c.calls) { NoPushNoTicket(f.c, ClientPart(f, step).value); }
    }
    if SeatOf(step).Some? { MoveMinds(f, step); }
    AllWokenUp(f.seats);
  }

  /** Before the stop flag is set nobody has left. */
  predicate Manned(f: Free) {
    !StopSet(f.progress) ==> forall w :: 0 <= w < |f.seats| ==> !f.seats[w].Exited?
  }

  lemma MannedStep(f: Free, step: FreeStep)
    requires FreeEnabled(f, step) && Manned(f)
    ensures Manned(FreeNext(f, step)) && |FreeNext(f, step).seats| == |f.seats|
  {}

  lemma {:induction false} MindedRun(f: Free, steps: seq<FreeStep>)
    requires FreeCanRun(f, steps) && Minded(f.c.calls, f.seats) && Manned(f) && f.seats != []
    ensures Minded(FreeAfter(f, steps).c.calls, FreeAfter(f, steps).seats) && Manned(FreeAfter(f, steps))
    decreases |steps|
  {
    if steps != [] {
      if Wakes(f, steps[0]).Some? { MindedPush(f, steps[0]); } else { MindedQuiet(f, steps[0]); }
      MannedStep(f, steps[0]);
      MindedRun(FreeNext(f, steps[0]), steps[1..]);
    }
  }

  /**
   * No notification of work is lost: in every run from a new client with at least one worker, until the stop flag is set,
   * whenever a slot is in the ready queue some worker is up and comes to the queue again.
   */
  lemma QueuedWorkIsMinded(workers: nat, maxInflight: nat, maxBytes: nat, steps: seq<FreeStep>)
    requires workers > 0 && FreeCanRun(NewFree(workers, maxInflight, maxBytes), steps)
    requires !StopSet(FreeAfter(NewFree(workers, maxInflight, maxBytes), steps).progress)
    ensures var f := FreeAfter(NewFree(workers, maxInflight, maxBytes), steps);
            !NoneReady(f.c.calls) ==> exists w :: 0 <= w < |f.seats| && Up(f.seats[w]) && !f.seats[w].Exited?
  {
    var f := NewFree(workers, maxInflight, maxBytes);
    MindedRun(f, steps);
  }

  // ---- the notification of the stop -----------------------------------------------------------

  lemma AwakeStep(f: Free, step: FreeStep)
    requires FreeEnabled(f, step) && f.progress.Joining? && LockFree(f.seats) && NoneAsleep(f.seats)
    ensures LockFree(FreeNext(f, step).seats) && NoneAsleep(FreeNext(f, step).seats)
    ensures FreeNext(f, step).progress.Joining? || FreeNext(f, step).progress.Freed?
  {}

  lemma FreedStays(f: Free, step: FreeStep)
    requires FreeInv(f) && f.progress.Freed? && FreeEnabled(f, step)
    ensures FreeNext(f, step).progress.Freed? && FreeNext(f, step).seats == f.seats
  {
    ClosedStays(f, step);
  }

  predicate AllUp(f: Free) {
    (f.progress.Joining? || f.progress.Freed?) && LockFree(f.seats) && NoneAsleep(f.seats)
  }

  ghost predicate Noticed(f: Free) {
    FreeInv(f) && Tallied(f.c.calls, f.seats) && AllUp(f)
  }

  lemma NoticedStep(f: Free, step: FreeStep)
    requires Noticed(f) && FreeEnabled(f, step)
    ensures Noticed(FreeNext(f, step))
  {
    if f.progress.Joining? { AwakeStep(f, step); } else { FreedStays(f, step); }
    FreeStepKeeps(f, step);
    TalliedStep(f, step);
  }

  /** Once notified with nobody about to sleep, nobody ever sleeps again. */
  lemma {:induction false} NoticedRun(f: Free, steps: seq<FreeStep>)
    requires Noticed(f) && FreeCanRun(f, steps)
    ensures Noticed(FreeAfter(f, steps))
    decreases |steps|
  {
    if steps != [] {
      NoticedStep(f, steps[0]);
      NoticedRun(FreeNext(f, steps[0]), steps[1..]);
    }
  }

  lemma NotifyWakes(f: Free)
    requires FreeInv(f) && Tallied(f.c.calls, f.seats) && f.progress.Stopping? && LockFree(f.seats)
    ensures Noticed(FreeNext(f, Notify))
  {
    FreeStepKeeps(f, Notify);
    TalliedStep(f, Notify);
    assert AllUp(FreeNext(f, Notify)) by { AllWokenUp(f.seats); }
  }

  lemma NoticedCanMove(f: Free)
    requires Noticed(f)
    ensures EachCanMove(f) && (AllExited(f.seats) && !f.progress.Freed? ==> FreeEnabled(f, Join))
  {
    EverySeatCanMove(f);
  }

  /** From a state that can be reached, the notification is sent while nobody is about to sleep, and the run goes on. */
  ghost predicate NotifiedAwake(f: Free, more: seq<FreeStep>) {
    FreeReachable(f) && f.progress.Stopping? && LockFree(f.seats) && FreeCanRun(FreeNext(f, Notify), more)
  }

  /**
   * If no worker is about to sleep when the stop is notified, the join is never stuck: in every continuation every worker
   * that has not left can move, or waits for the store of a resume, which can be made, and when all have left free can
   * return.
   */
  lemma JoinIsNeverStuck(f: Free, more: seq<FreeStep>)
    requires NotifiedAwake(f, more)
    ensures var g := FreeAfter(FreeNext(f, Notify), more);
            EachCanMove(g) && (AllExited(g.seats) && !g.progress.Freed? ==> FreeEnabled(g, Join))
  {
    ReachableFree(f);
    NotifyWakes(f);
    NoticedRun(FreeNext(f, Notify), more);
    NoticedCanMove(FreeAfter(FreeNext(f, Notify), more));
  }

  /** A worker sleeps in this continuation. */
  ghost predicate SomeSleeps(g: Free, more: seq<FreeStep>) {
    FreeCanRun(g, more) && !NoneAsleep(FreeAfter(g, more).seats)
  }

  /**
   * The exact condition: when the stop is about to be notified, some continuation of the notification leaves a worker
   * asleep if and only if a worker then holds the lock, having read the flag as clear, and does not sleep yet.
   */
  lemma SleepsThroughStopIff(f: Free)
    requires FreeReachable(f) && f.progress.Stopping?
    ensures !LockFree(f.seats) <==> exists more :: SomeSleeps(FreeNext(f, Notify), more)
  {
    ReachableFree(f);
    var g := FreeNext(f, Notify);
    if LockFree(f.seats) {
      NotifyWakes(f);
      forall more | FreeCanRun(g, more) ensures !SomeSleeps(g, more) { NoticedRun(g, more); }
    } else {
      var w: nat :| w < |f.seats| && f.seats[w].Poised?;
      assert g.seats[w].Poised?;
      var h := FreeNext(g, Sleep(w));
      assert h.seats[w].Asleep? && FreeCanRun(h, []);
      assert [Sleep(w)][1..] == [];
      assert SomeSleeps(g, [Sleep(w)]);
    }
  }

  // ---- a client whose requests are over -------------------------------------------------------

  lemma OverStays(f: Free, step: FreeStep)
    requires FreeInv(f) && f.c.closed && AllCallsOver(f.c.calls) && FreeEnabled(f, step)
    ensures FreeNext(f, step).c.closed && AllCallsOver(FreeNext(f, step).c.calls)
  {
    if ClientPart(f, step).Some? { OverClientStays(f.c, ClientPart(f, step).value); }
  }

  lemma OverClientStays(c: Client, step: ClientStep)
    requires AllFit(c.calls) && c.closed && AllCallsOver(c.calls) && ClientEnabled(c, step)
    ensures ClientNext(c, step).closed && AllCallsOver(ClientNext(c, step).calls)
  {
    if step.Act? {
      assert Over(c.calls[step.i]) && SlotFits(c.calls[step.i]);
      ActFits(c.calls[step.i], step.step);
      FinishedOnlyByReturn(c.calls[step.i].slot, step.step);
    }
  }

  lemma {:induction false} OverStaysRun(f: Free, steps: seq<FreeStep>)
    requires FreeInv(f) && f.c.closed && AllCallsOver(f.c.calls) && FreeCanRun(f, steps)
    ensures AllCallsOver(FreeAfter(f, steps).c.calls)
    decreases |steps|
  {
    if steps != [] {
      OverStays(f, steps[0]);
      FreeStepKeeps(f, steps[0]);
      OverStaysRun(FreeNext(f, steps[0]), steps[1..]);
    }
  }

  /** As free demands, nobody is inside send when wait_zero returns: from then on every request is over. */
  lemma OverFromZero(f: Free, more: seq<FreeStep>)
    requires FreeReachable(f) && FreeEnabled(f, WaitZero) && Quiescent(f.c) && FreeCanRun(FreeNext(f, WaitZero), more)
    ensures AllCallsOver(FreeAfter(FreeNext(f, WaitZero), more).c.calls)
  {
    ReachableFree(f);
    AllOver(f.c);
    FreeStepKeeps(f, WaitZero);
    OverStaysRun(FreeNext(f, WaitZero), more);
  }

  // ---- exactly when free returns --------------------------------------------------------------

  lemma FinishedNeverPushes(s: Slot, k: WorkStep)
    requires Inv(s) && s.life.finished && WorkEnabled(s, k)
    ensures NextWork(s, k).sched.tickets <= s.sched.tickets
  {
    match k
    case Take => if s.hold.paused {} else if s.owner.left == 0 || s.flow.queue == [] {} else {}
    case React =>
      match s.owner.action {
        case Cancel => if s.life.gate.Running? {} else {}
        case Pause => if s.hold.permit {} else {}
        case Continue =>
      }
    case _ =>
  }

  /** Of a request that is over only the network task can still settle, and only workers act on it otherwise. */
  lemma OverAdmits(call: Call, step: Step)
    requires SlotFits(call) && Over(call) && Exposed(call.stage) && Admits(call, step) && Enabled(call.slot, step)
    ensures step.Api? ==> step.a.SettleClaim? && !InMap(call.stage)
  {}

  lemma NobodyOutsideActs(c: Client, step: ClientStep)
    requires AllFit(c.calls) && AllCallsOver(c.calls) && ClientEnabled(c, step) && !IsWorkers(c, step) && !IsTasks(c, step)
    ensures !step.Act?
  {
    if step.Act? { OverAdmits(c.calls[step.i], step.step); }
  }

  lemma OwnerNeverPushes(c: Client, i: nat, k: WorkStep)
    requires AllFit(c.calls) && AllCallsOver(c.calls) && ClientEnabled(c, Act(i, Work(k)))
    ensures !Pushes(c, Act(i, Work(k)))
  {
    assert Over(c.calls[i]) && SlotFits(c.calls[i]);
    FinishedNeverPushes(c.calls[i].slot, k);
  }

  /** With the runtime gone and every request over nothing is pushed, so nobody is woken. */
  lemma NobodyIsWoken(f: Free, step: FreeStep)
    requires AllFit(f.c.calls) && f.progress.Joining? && AllCallsOver(f.c.calls) && FreeEnabled(f, step)
    ensures FreeNext(f, step).seats == Moved(f, step)
  {
    if step.Outside? {
      NobodyOutsideActs(f.c, step.step);
    } else if step.Serve? {
      OwnerNeverPushes(f.c, f.seats[step.w].i, step.k);
    }
  }

  /** Worker w has missed the notification. */
  predicate Missed(f: Free, w: nat) {
    f.progress.Joining? && w < |f.seats| && !Up(f.seats[w])
  }

  lemma MissedStays(f: Free, w: nat, step: FreeStep)
    requires AllFit(f.c.calls) && AllCallsOver(f.c.calls) && Missed(f, w) && FreeEnabled(f, step)
    ensures Missed(FreeNext(f, step), w)
  {
    NobodyIsWoken(f, step);
    StaysDown(f, w, step);
  }

  /** By itself a worker that is not up only falls asleep. */
  lemma StaysDown(f: Free, w: nat, step: FreeStep)
    requires FreeEnabled(f, step) && w < |f.seats| && !Up(f.seats[w])
    ensures |Moved(f, step)| == |f.seats| && !Up(Moved(f, step)[w]) && !step.Join?
  {
    if SeatOf(step) == Some(w) { assert step.Sleep?; }
  }

  lemma {:induction false} MissedForever(f: Free, w: nat, steps: seq<FreeStep>)
    requires FreeInv(f) && AllCallsOver(f.c.calls) && Missed(f, w) && FreeCanRun(f, steps)
    ensures Missed(FreeAfter(f, steps), w)
    decreases |steps|
  {
    if steps != [] {
      MissedStays(f, w, steps[0]);
      OverStays(f, steps[0]);
      FreeStepKeeps(f, steps[0]);
      MissedForever(FreeNext(f, steps[0]), w, steps[1..]);
    }
  }

  ghost predicate Returns(f: Free, more: seq<FreeStep>) {
    FreeCanRun(f, more) && FreeAfter(f, more).progress.Freed?
  }

  lemma MissedNeverReturns(f: Free, w: nat, more: seq<FreeStep>)
    requires FreeInv(f) && AllCallsOver(f.c.calls) && Missed(f, w)
    ensures !Returns(f, more)
  {
    if FreeCanRun(f, more) { MissedForever(f, w, more); }
  }

  /** The notification does not reach a worker that does not sleep yet. */
  lemma NotifyMisses(f: Free, w: nat)
    requires FreeInv(f) && f.progress.Stopping? && w < |f.seats| && f.seats[w].Poised?
    ensures FreeInv(FreeNext(f, Notify)) && Missed(FreeNext(f, Notify), w) && FreeNext(f, Notify).c == f.c
  {
    FreeStepKeeps(f, Notify);
    assert WakeAll(f.seats)[w].Poised?;
  }

  lemma ReturnsFirst(f: Free, step: FreeStep, rest: seq<FreeStep>)
    requires FreeEnabled(f, step) && Returns(FreeNext(f, step), rest)
    ensures Returns(f, [step] + rest)
  {
    assert ([step] + rest)[1..] == rest;
  }

  /** The workers run down and leave, and the join is over. */
  lemma RunsToTheEnd(f: Free) returns (more: seq<FreeStep>)
    requires Noticed(f) && AllCallsOver(f.c.calls) && f.progress.Joining?
    ensures Returns(f, more)
    decreases TotalLoad(f.c.calls, f.seats)
  {
    if AllExited(f.seats) {
      assert FreeCanRun(FreeNext(f, Join), []);
      ReturnsFirst(f, Join, []);
      more := [Join] + [];
    } else {
      var w: nat :| w < |f.seats| && !f.seats[w].Exited?;
      var step := SeatCanMove(f, w);
      more := GoOn(f, step);
    }
  }

  lemma GoOn(f: Free, step: FreeStep) returns (more: seq<FreeStep>)
    requires Noticed(f) && AllCallsOver(f.c.calls) && f.progress.Joining?
    requires FreeEnabled(f, step) && SeatOf(step).Some?
    ensures Returns(f, more)
    decreases TotalLoad(f.c.calls, f.seats), 0
  {
    WorkerUnloads(f, step);
    NoticedStep(f, step);
    OverStays(f, step);
    var rest := RunsToTheEnd(FreeNext(f, step));
    ReturnsFirst(f, step, rest);
    more := [step] + rest;
  }

  /**
   * The exact condition, for a client whose requests are over: once the stop is notified free can return if and only if no
   * worker was about to sleep at that moment. If one was, no continuation whatsoever lets free return.
   */
  lemma FreeReturnsIff(f: Free)
    requires FreeReachable(f) && f.progress.Stopping? && AllCallsOver(f.c.calls)
    ensures LockFree(f.seats) <==> exists more :: Returns(FreeNext(f, Notify), more)
  {
    ReachableFree(f);
    var g := FreeNext(f, Notify);
    if LockFree(f.seats) {
      NotifyWakes(f);
      var more := RunsToTheEnd(g);
    } else {
      var w: nat :| w < |f.seats| && f.seats[w].Poised?;
      NotifyMisses(f, w);
      forall more ensures !Returns(g, more) { MissedNeverReturns(g, w, more); }
    }
  }

  // ---- such a client is reachable -------------------------------------------------------------

  lemma {:induction false} FreeSnoc(f: Free, steps: seq<FreeStep>, step: FreeStep)
    requires FreeCanRun(f, steps) && FreeEnabled(FreeAfter(f, steps), step)
    ensures FreeCanRun(f, steps + [step]) && FreeAfter(f, steps + [step]) == FreeNext(FreeAfter(f, steps), step)
    decreases |steps|
  {
    var all := steps + [step];
    if steps == [] {
      assert all[1..] == [];
    } else {
      FreeSnoc(FreeNext(f, steps[0]), steps[1..], step);
      assert all[1..] == steps[1..] + [step];
    }
  }

  lemma By(f: Free, step: FreeStep, g: Free)
    requires FreeReachable(f) && FreeEnabled(f, step) && g == FreeNext(f, step)
    ensures FreeReachable(g)
  {
    var workers: nat, maxInflight: nat, maxBytes: nat, steps: seq<FreeStep> :|
      FreeCanRun(NewFree(workers, maxInflight, maxBytes), steps) && f == FreeAfter(NewFree(workers, maxInflight, maxBytes), steps);
    FreeSnoc(NewFree(workers, maxInflight, maxBytes), steps, step);
  }

  /** A client that never sent anything, with one worker. */
  function Idle(closed: bool, seat: Seat, progress: Progress): Free {
    Free(NewClient(0, 0).(closed := closed), [seat], progress)
  }

  lemma IdleMoves(closed: bool, seat: Seat, progress: Progress, step: FreeStep, next: Seat, later: Progress)
    requires FreeReachable(Idle(closed, seat, progress)) && FreeEnabled(Idle(closed, seat, progress), step)
    requires ClientPart(Idle(closed, seat, progress), step).None? && NextProgress(progress, step) == later
    requires NextSeats(Idle(closed, seat, progress), step) == [next]
    ensures FreeReachable(Idle(closed, next, later))
  {
    By(Idle(closed, seat, progress), step, Idle(closed, next, later));
  }

  lemma ReachClosed()
    ensures FreeReachable(Idle(true, Waiting, Open))
  {
    var f := NewFree(1, 0, 0);
    assert FreeCanRun(f, []) && FreeAfter(f, []) == f && f == Idle(false, Top, Open);
    IdleMoves(false, Top, Open, CheckStop(0), Waiting, Open);
    By(Idle(false, Waiting, Open), Outside(Close, 0), Idle(true, Waiting, Open));
  }

  lemma ReachNoRuntime()
    ensures FreeReachable(Idle(true, Waiting, NoRuntime))
  {
    ReachClosed();
    IdleMoves(true, Waiting, Open, WaitZero, Waiting, Zero);
    IdleMoves(true, Waiting, Zero, DropRuntime, Waiting, NoRuntime);
  }

  lemma ReachPoised()
    ensures FreeReachable(Idle(true, Poised, Stopping))
  {
    ReachNoRuntime();
    IdleMoves(true, Waiting, NoRuntime, FindNone(0), Poised, NoRuntime);
    IdleMoves(true, Poised, NoRuntime, SetStop, Poised, Stopping);
  }

  /** From a new client that never sent anything: the one worker reads the flag as clear, the stop is set and notified, the
      worker sleeps, and free never returns. */
  lemma FreeHangs()
    ensures FreeReachable(Idle(true, Asleep, Joining))
    ensures !exists more :: Returns(Idle(true, Asleep, Joining), more)
  {
    ReachPoised();
    IdleMoves(true, Poised, Stopping, Notify, Poised, Joining);
    IdleMoves(true, Poised, Joining, Sleep(0), Asleep, Joining);
    var f := Idle(true, Asleep, Joining);
    ReachableFree(f);
    assert Missed(f, 0);
    forall more ensures !Returns(f, more) { MissedNeverReturns(f, 0, more); }
  }
}

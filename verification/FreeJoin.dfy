/**
 * The join at the end of `free`: once the stop flag is set the workers take a bounded number of steps, whatever is queued
 * and whatever arrives; and a worker that neither sleeps nor is about to can always take a step. Whether one sleeps is the
 * matter of module FreeSleep.
 */
module FreeJoin {
  import opened Abi
  import opened Counting
  import opened Bridge
  import opened BridgeSafety
  import opened BridgeWakeups
  import opened Client
  import opened ClientTheorems
  import opened Free

  // ---- a bound on the workers' steps ----------------------------------------------------------

  const FRESH_SLICE: nat := 5 * (3 * SLICE + 5) + 7

  /** How many steps a worker can still take once the stop flag is set. */
  function Load(calls: seq<Call>, seat: Seat): nat {
    match seat
    case Exited => 0
    case Top => 1
    case Bouncing(_) => 2
    case Inside(i) => if i < |calls| then 2 + 5 * Rank(calls[i].slot.owner) + CleanLeft(calls[i].stage) else 2
    case Popped(_) => FRESH_SLICE
    case Waiting => FRESH_SLICE + 1
    case Asleep => FRESH_SLICE + 1
    case Poised => FRESH_SLICE + 2
  }

  function TotalLoad(calls: seq<Call>, seats: seq<Seat>): nat {
    Sum(seq(|seats|, w requires 0 <= w < |seats| => Load(calls, seats[w])))
  }

  /** The slots other seats are in weigh what they did. */
  predicate SameElsewhere(before: seq<Call>, after: seq<Call>, seats: seq<Seat>, w: int) {
    forall v :: 0 <= v < |seats| && v != w ==> Load(after, seats[v]) == Load(before, seats[v])
  }

  lemma LoadUpdate(before: seq<Call>, after: seq<Call>, seats: seq<Seat>, w: nat, x: Seat)
    requires w < |seats| && SameElsewhere(before, after, seats, w) && Load(after, x) < Load(before, seats[w])
    ensures TotalLoad(after, seats[w := x]) < TotalLoad(before, seats)
  {
    var xs := seq(|seats|, v requires 0 <= v < |seats| => Load(before, seats[v]));
    var next := seats[w := x];
    assert seq(|next|, v requires 0 <= v < |next| => Load(after, next[v])) == xs[w := Load(after, x)];
    SumUpdate(xs, w, Load(after, x));
  }

  /** Being woken costs a worker nothing. */
  lemma WakingKeepsLoad(calls: seq<Call>, seats: seq<Seat>, w: nat)
    ensures TotalLoad(calls, WakeOne(seats, w)) == TotalLoad(calls, seats) && TotalLoad(calls, WakeAll(seats)) == TotalLoad(calls, seats)
  {
    var xs := seq(|seats|, v requires 0 <= v < |seats| => Load(calls, seats[v]));
    var one, all := WakeOne(seats, w), WakeAll(seats);
    assert seq(|one|, v requires 0 <= v < |one| => Load(calls, one[v])) == xs;
    assert seq(|all|, v requires 0 <= v < |all| => Load(calls, all[v])) == xs;
  }

  lemma NextLoad(f: Free, step: FreeStep)
    requires FreeEnabled(f, step)
    ensures TotalLoad(FreeNext(f, step).c.calls, FreeNext(f, step).seats) == TotalLoad(FreeNext(f, step).c.calls, Moved(f, step))
  {
    WakingKeepsLoad(FreeNext(f, step).c.calls, Moved(f, step), if Wakes(f, step).Some? then Wakes(f, step).value else 0);
  }

  lemma OwnerUnloads(call: Call, k: WorkStep)
    requires SlotFits(call) && Exposed(call.stage) && WorkEnabled(call.slot, k) && (IsOwnerStep(k) || (k.Start? && call.slot.owner.Away?))
    ensures var stage := if k.DoneReturn? then Reported else call.stage;
            var next := 5 * Rank(NextWork(call.slot, k).owner) + CleanLeft(stage);
            if k.Start? then next + 2 < FRESH_SLICE
            else if k.Release? then 0 < Rank(call.slot.owner)
            else next < 5 * Rank(call.slot.owner) + CleanLeft(call.stage)
  {
    ActFits(call, Work(k));
    WorkRank(call.slot, k);
  }

  /** A worker's step on slot i changes the weight of no other seat. */
  lemma OthersWeighTheSame(before: seq<Call>, after: seq<Call>, seats: seq<Seat>, w: nat, i: nat, k: WorkStep)
    requires Seated(before, seats) && w < |seats| && i < |before| && Elsewhere(before, after, i)
    requires Moves(before[i].slot.owner, after[i].slot.owner, k) && (!k.DoneReturn? ==> after[i].stage == before[i].stage)
    requires seats[w] == SeatBefore(i, k)
    ensures SameElsewhere(before, after, seats, w)
  {}

  lemma ActingUnloads(c: Client, i: nat, k: WorkStep)
    requires AllFit(c.calls) && ClientEnabled(c, Act(i, Work(k)))
    ensures Load(ClientNext(c, Act(i, Work(k))).calls, SeatAfter(i, c.calls[i].slot.owner, k)) < Load(c.calls, SeatBefore(i, k))
  {
    assert SlotFits(c.calls[i]);
    if IsOwnerStep(k) || (k.Start? && c.calls[i].slot.owner.Away?) { OwnerUnloads(c.calls[i], k); }
  }

  lemma CleaningUnloads(c: Client, seats: seq<Seat>, w: nat)
    requires Seated(c.calls, seats) && w < |seats| && seats[w].Inside?
    requires ClientEnabled(c, Advance(seats[w].i)) && CleansUp(c.calls[seats[w].i].stage)
    ensures TotalLoad(ClientNext(c, Advance(seats[w].i)).calls, seats[w := seats[w]]) < TotalLoad(c.calls, seats)
  {
    CleanFrame(c, seats[w].i);
    LoadUpdate(c.calls, ClientNext(c, Advance(seats[w].i)).calls, seats, w, seats[w]);
  }

  /** Once the stop flag is set, every step of every worker leaves the workers fewer. */
  lemma WorkerUnloads(f: Free, step: FreeStep)
    requires FreeInv(f) && StopSet(f.progress) && FreeEnabled(f, step) && SeatOf(step).Some?
    ensures TotalLoad(FreeNext(f, step).c.calls, FreeNext(f, step).seats) < TotalLoad(f.c.calls, f.seats)
  {
    NextLoad(f, step);
    if WorkPart(step).Some? {
      var i, k := SlotOf(f, step), WorkPart(step).value;
      WorkerActs(f, step);
      ActFrame(f.c, i, k);
      ActingUnloads(f.c, i, k);
      OthersWeighTheSame(f.c.calls, FreeNext(f, step).c.calls, f.seats, step.w, i, k);
      LoadUpdate(f.c.calls, FreeNext(f, step).c.calls, f.seats, step.w, SeatAfter(i, f.c.calls[i].slot.owner, k));
    } else {
      match step
      case CheckStop(w) => LoadUpdate(f.c.calls, f.c.calls, f.seats, w, Exited);
      case Sleep(w) => LoadUpdate(f.c.calls, f.c.calls, f.seats, w, Asleep);
      case GiveUp(w) => LoadUpdate(f.c.calls, f.c.calls, f.seats, w, Exited);
      case Clean(w) => CleaningUnloads(f.c, f.seats, w);
    }
  }

  lemma OutsideKeepsLoad(c: Client, seats: seq<Seat>, step: ClientStep)
    requires Seated(c.calls, seats) && ClientEnabled(c, step) && !IsWorkers(c, step)
    ensures TotalLoad(ClientNext(c, step).calls, seats) == TotalLoad(c.calls, seats)
  {
    OutsideFrame(c, step);
    var after := ClientNext(c, step).calls;
    forall v | 0 <= v < |seats| ensures Load(after, seats[v]) == Load(c.calls, seats[v]) {
      if seats[v].Inside? { SameCleanUp(c.calls[seats[v].i].stage, after[seats[v].i].stage); }
    }
    assert seq(|seats|, v requires 0 <= v < |seats| => Load(after, seats[v]))
        == seq(|seats|, v requires 0 <= v < |seats| => Load(c.calls, seats[v]));
  }

  lemma SameCleanUp(before: Stage, after: Stage)
    requires CleansUp(before) || CleansUp(after) ==> after == before
    ensures CleanLeft(after) == CleanLeft(before)
  {}

  lemma OthersKeepLoad(f: Free, step: FreeStep)
    requires FreeInv(f) && FreeEnabled(f, step) && SeatOf(step).None?
    ensures TotalLoad(FreeNext(f, step).c.calls, FreeNext(f, step).seats) == TotalLoad(f.c.calls, f.seats)
  {
    NextLoad(f, step);
    if step.Outside? { OutsideKeepsLoad(f.c, f.seats, step.step); }
  }

  function WorkerSteps(steps: seq<FreeStep>): nat {
    if steps == [] then 0 else (if SeatOf(steps[0]).Some? then 1 else 0) + WorkerSteps(steps[1..])
  }

  /**
   * However much work is queued and however much arrives: from the moment the stop flag is set the workers take, in all,
   * no more steps than their loads are then, a fresh slice being the most a worker can still begin.
   */
  lemma {:induction false} JoinIsBounded(f: Free, steps: seq<FreeStep>)
    requires FreeInv(f) && StopSet(f.progress) && FreeCanRun(f, steps)
    ensures WorkerSteps(steps) + TotalLoad(FreeAfter(f, steps).c.calls, FreeAfter(f, steps).seats) <= TotalLoad(f.c.calls, f.seats)
    decreases |steps|
  {
    if steps != [] {
      if SeatOf(steps[0]).Some? { WorkerUnloads(f, steps[0]); } else { OthersKeepLoad(f, steps[0]); }
      FreeStepKeeps(f, steps[0]);
      JoinIsBounded(FreeNext(f, steps[0]), steps[1..]);
    }
  }

  // ---- a worker that does not sleep can move --------------------------------------------------

  predicate SeatTally(c: Sched, seats: seq<Seat>, i: nat) {
    c.popped == Count(seats, Popped(i)) && c.bouncing == Count(seats, Bouncing(i))
  }

  predicate Points(seat: Seat) {
    seat.Popped? || seat.Bouncing? || seat.Inside?
  }

  /** The slots' counters are the seats, and a worker only has slots of requests in the map or past it. */
  ghost predicate Tallied(calls: seq<Call>, seats: seq<Seat>) {
    && (forall i: nat :: i < |calls| ==> SeatTally(calls[i].slot.sched, seats, i))
    && (forall w :: 0 <= w < |seats| && Points(seats[w]) ==> seats[w].i < |calls| && Exposed(calls[seats[w].i].stage))
  }

  /** No counter of workers moves, and no request goes back. */
  predicate SameCounters(before: Call, after: Call) {
    && after.slot.sched.popped == before.slot.sched.popped && after.slot.sched.bouncing == before.slot.sched.bouncing
    && (Exposed(before.stage) ==> Exposed(after.stage))
  }

  predicate AllSameCounters(before: seq<Call>, after: seq<Call>) {
    |before| <= |after| && forall i :: 0 <= i < |before| ==> SameCounters(before[i], after[i])
  }

  lemma ScheduleFrame(s: Slot, step: Step)
    requires Enabled(s, step) && !step.Work?
    ensures Next(s, step).sched.popped == s.sched.popped && Next(s, step).sched.bouncing == s.sched.bouncing
  {
    match step
    case Net(n) => if n.EndOfBody? {} else if n.Push? {} else {}
    case Api(a) =>
      match a {
        case SettleClaim(t) => if s.life.gate.Running? {} else {}
        case Resume => if s.hold.paused {} else {}
        case _ =>
      }
  }

  lemma OutsideCounts(c: Client, step: ClientStep)
    requires ClientEnabled(c, step) && !(step.Act? && step.step.Work?)
    ensures AllSameCounters(c.calls, ClientNext(c, step).calls)
    ensures forall i :: |c.calls| <= i < |ClientNext(c, step).calls| ==>
              ClientNext(c, step).calls[i].slot.sched.popped == 0 && ClientNext(c, step).calls[i].slot.sched.bouncing == 0
  {
    if step.Act? { ScheduleFrame(c.calls[step.i].slot, step.step); }
  }

  lemma OutsideTallies(before: seq<Call>, after: seq<Call>, seats: seq<Seat>)
    requires Tallied(before, seats) && AllSameCounters(before, after)
    requires forall i :: |before| <= i < |after| ==> after[i].slot.sched.popped == 0 && after[i].slot.sched.bouncing == 0
    ensures Tallied(after, seats)
  {
    forall i: nat | i < |after| ensures SeatTally(after[i].slot.sched, seats, i) {
      if i < |before| {
        assert SameCounters(before[i], after[i]) && SeatTally(before[i].slot.sched, seats, i);
      } else {
        CountPositive(seats, Popped(i));
        CountPositive(seats, Bouncing(i));
      }
    }
  }

  /** A seat changes that neither took nor takes a slot it does not own. */
  lemma SeatTallies(calls: seq<Call>, seats: seq<Seat>, w: nat, x: Seat)
    requires Tallied(calls, seats) && w < |seats| && !seats[w].Popped? && !seats[w].Bouncing?
    requires x == seats[w] || !Points(x)
    ensures Tallied(calls, seats[w := x])
  {
    forall i: nat | i < |calls| ensures SeatTally(calls[i].slot.sched, seats[w := x], i) {
      CountUpdate(seats, w, x, Popped(i));
      CountUpdate(seats, w, x, Bouncing(i));
      assert SeatTally(calls[i].slot.sched, seats, i);
    }
  }

  /** What a worker's step does to the counters of its slot. */
  lemma WorkCounts(s: Slot, k: WorkStep)
    requires WorkEnabled(s, k) && Owned(s.owner, s.hold, s.sched.running)
    ensures var c, d := s.sched, NextWork(s, k).sched;
            && d.popped == (if k.Pop? then c.popped + 1 else if k.Start? then c.popped - 1 else c.popped)
            && d.bouncing == (if k.Start? && !s.owner.Away? then c.bouncing + 1 else if k.Bounced? then c.bouncing - 1 else c.bouncing)
  {
    match k
    case Take => if s.hold.paused {} else if s.owner.left == 0 || s.flow.queue == [] {} else {}
    case React =>
      match s.owner.action {
        case Cancel => if s.life.gate.Running? {} else {}
        case Pause => if s.hold.permit {} else {}
        case Continue =>
      }
    case _ =>
  }

  predicate CountsMove(before: Slot, after: Slot, k: WorkStep) {
    var c, d := before.sched, after.sched;
    && d.popped + (if k.Start? then 1 else 0) == c.popped + (if k.Pop? then 1 else 0)
    && d.bouncing + (if k.Bounced? then 1 else 0) == c.bouncing + (if k.Start? && !before.owner.Away? then 1 else 0)
  }

  /** A seat's step on slot i moves one unit of a counter exactly when the seat changes accordingly. */
  lemma ActTallies(before: seq<Call>, after: seq<Call>, seats: seq<Seat>, w: nat, i: nat, k: WorkStep)
    requires Tallied(before, seats) && w < |seats| && i < |before| && Elsewhere(before, after, i)
    requires seats[w] == SeatBefore(i, k) && CountsMove(before[i].slot, after[i].slot, k)
    requires Exposed(before[i].stage) && Exposed(after[i].stage)
    ensures Tallied(after, seats[w := SeatAfter(i, before[i].slot.owner, k)])
  {
    var x := SeatAfter(i, before[i].slot.owner, k);
    forall j: nat | j < |after| ensures SeatTally(after[j].slot.sched, seats[w := x], j) {
      CountUpdate(seats, w, x, Popped(j));
      CountUpdate(seats, w, x, Bouncing(j));
      assert SeatTally(before[j].slot.sched, seats, j);
    }
  }

  lemma WorkerTallies(f: Free, step: FreeStep)
    requires AllFit(f.c.calls) && Tallied(f.c.calls, f.seats) && FreeEnabled(f, step) && WorkPart(step).Some?
    ensures Tallied(FreeNext(f, step).c.calls, Moved(f, step))
  {
    var i, k := SlotOf(f, step), WorkPart(step).value;
    WorkerActs(f, step);
    ActFrame(f.c, i, k);
    assert SlotFits(f.c.calls[i]);
    WorkCounts(f.c.calls[i].slot, k);
    ActTallies(f.c.calls, FreeNext(f, step).c.calls, f.seats, step.w, i, k);
  }

  /** A step on the client that is no worker's step on a slot. */
  lemma OtherTallies(c: Client, seats: seq<Seat>, step: ClientStep)
    requires Tallied(c.calls, seats) && ClientEnabled(c, step) && !(step.Act? && step.step.Work?)
    ensures Tallied(ClientNext(c, step).calls, seats)
  {
    OutsideCounts(c, step);
    OutsideTallies(c.calls, ClientNext(c, step).calls, seats);
  }

  lemma CleanTallies(f: Free, w: nat)
    requires Tallied(f.c.calls, f.seats) && FreeEnabled(f, Clean(w))
    ensures Tallied(FreeNext(f, Clean(w)).c.calls, Moved(f, Clean(w)))
  {
    OtherTallies(f.c, f.seats, Advance(f.seats[w].i));
    assert f.seats[w := f.seats[w]] == f.seats;
  }

  /** Reading the stop flag, and what a worker does at an empty queue. */
  lemma IdlingTallies(f: Free, step: FreeStep)
    requires Tallied(f.c.calls, f.seats) && FreeEnabled(f, step)
    requires step.CheckStop? || step.FindNone? || step.Sleep? || step.GiveUp?
    ensures Tallied(FreeNext(f, step).c.calls, Moved(f, step))
  {
    SeatTallies(f.c.calls, f.seats, step.w, NextSeat(f, step));
  }

  lemma MovedTallies(f: Free, step: FreeStep)
    requires AllFit(f.c.calls) && Tallied(f.c.calls, f.seats) && FreeEnabled(f, step)
    ensures Tallied(FreeNext(f, step).c.calls, Moved(f, step))
  {
    if WorkPart(step).Some? {
      WorkerTallies(f, step);
    } else if step.Outside? {
      OtherTallies(f.c, f.seats, step.step);
    } else if step.Clean? {
      CleanTallies(f, step.w);
    } else if SeatOf(step).Some? {
      IdlingTallies(f, step);
    }
  }

  lemma {:induction false} SameCount(seats: seq<Seat>, more: seq<Seat>, x: Seat)
    requires |more| == |seats| && forall w :: 0 <= w < |seats| ==> (more[w] == x <==> seats[w] == x)
    ensures Count(more, x) == Count(seats, x)
    decreases |seats|
  {
    if seats != [] { SameCount(seats[..|seats| - 1], more[..|more| - 1], x); }
  }

  lemma WokenTallies(calls: seq<Call>, seats: seq<Seat>, w: nat)
    requires Tallied(calls, seats)
    ensures Tallied(calls, WakeOne(seats, w)) && Tallied(calls, WakeAll(seats))
  {
    if w < |seats| && seats[w].Asleep? { SeatTallies(calls, seats, w, Waiting); }
    forall i: nat | i < |calls| ensures SeatTally(calls[i].slot.sched, WakeAll(seats), i) {
      SameCount(seats, WakeAll(seats), Popped(i));
      SameCount(seats, WakeAll(seats), Bouncing(i));
      assert SeatTally(calls[i].slot.sched, seats, i);
    }
  }

  lemma TalliedStep(f: Free, step: FreeStep)
    requires AllFit(f.c.calls) && Tallied(f.c.calls, f.seats) && FreeEnabled(f, step)
    ensures Tallied(FreeNext(f, step).c.calls, FreeNext(f, step).seats)
  {
    MovedTallies(f, step);
    WokenTallies(FreeNext(f, step).c.calls, Moved(f, step), if Wakes(f, step).Some? then Wakes(f, step).value else 0);
  }

  lemma {:induction false} TalliedRun(f: Free, steps: seq<FreeStep>)
    requires FreeInv(f) && Tallied(f.c.calls, f.seats) && FreeCanRun(f, steps)
    ensures FreeInv(FreeAfter(f, steps)) && Tallied(FreeAfter(f, steps).c.calls, FreeAfter(f, steps).seats)
    decreases |steps|
  {
    if steps != [] {
      TalliedStep(f, steps[0]);
      FreeStepKeeps(f, steps[0]);
      TalliedRun(FreeNext(f, steps[0]), steps[1..]);
    }
  }

  /** A step of the worker in seat w, or the store of a resume it waits for. */
  predicate Frees(step: FreeStep, w: nat) {
    SeatOf(step) == Some(w) || (step.Outside? && step.step.Act? && step.step.step == Api(ResumeStore))
  }

  lemma ReadyCanMove(f: Free, w: nat) returns (step: FreeStep)
    requires AllFit(f.c.calls) && StopSet(f.progress) && w < |f.seats| && f.seats[w].Waiting? && LockFree(f.seats)
    ensures FreeEnabled(f, step) && Frees(step, w)
  {
    if NoneReady(f.c.calls) {
      step := GiveUp(w);
    } else {
      var i: nat :| i < |f.c.calls| && f.c.calls[i].slot.sched.tickets != 0;
      assert SlotFits(f.c.calls[i]);
      step := Fetch(w, i);
    }
  }

  lemma TesterCanMove(f: Free, w: nat)
    requires Tallied(f.c.calls, f.seats) && w < |f.seats|
    ensures f.seats[w].Popped? ==> FreeEnabled(f, Test(w))
    ensures f.seats[w].Bouncing? ==> FreeEnabled(f, Bounce(w))
  {
    if f.seats[w].Popped? || f.seats[w].Bouncing? {
      CountPositive(f.seats, f.seats[w]);
      assert SeatTally(f.c.calls[f.seats[w].i].slot.sched, f.seats, f.seats[w].i);
    }
  }

  lemma ServerCanMove(f: Free, w: nat)
    requires LockFree(f.seats) && NoneAsleep(f.seats) && w < |f.seats| && f.seats[w].Inside? && f.seats[w].i < |f.c.calls|
    requires var call := f.c.calls[f.seats[w].i]; !call.slot.owner.Away? && Exposed(call.stage) && !CleansUp(call.stage)
    ensures FreeEnabled(f, Serve(w, OwnStep(f.c.calls[f.seats[w].i].slot.owner, CHUNK_CONTINUE), 0))
  {
    OwnStepRunsDown(f.c.calls[f.seats[w].i].slot, CHUNK_CONTINUE);
  }

  lemma CleanerCanMove(f: Free, w: nat) returns (step: FreeStep)
    requires LockFree(f.seats) && NoneAsleep(f.seats) && w < |f.seats| && f.seats[w].Inside? && f.seats[w].i < |f.c.calls| && CleansUp(f.c.calls[f.seats[w].i].stage)
    ensures FreeEnabled(f, step) && Frees(step, w)
  {
    var i := f.seats[w].i;
    if f.c.calls[i].stage.InflightFreed? && f.c.calls[i].slot.hold.resuming > 0 {
      step := Outside(Act(i, Api(ResumeStore)), 0);
    } else {
      step := Clean(w);
    }
  }

  /** A worker can move, unless it cleans up and a resume still holds the request's entry of the map. */
  lemma SeatCanMove(f: Free, w: nat) returns (step: FreeStep)
    requires AllFit(f.c.calls) && Seated(f.c.calls, f.seats) && Tallied(f.c.calls, f.seats)
    requires StopSet(f.progress) && LockFree(f.seats) && NoneAsleep(f.seats) && w < |f.seats| && !f.seats[w].Exited?
    ensures FreeEnabled(f, step) && Frees(step, w) && (AllCallsOver(f.c.calls) ==> SeatOf(step) == Some(w))
  {
    match f.seats[w]
    case Top => step := CheckStop(w);
    case Waiting => step := ReadyCanMove(f, w);
    case Popped(i) =>
      TesterCanMove(f, w);
      step := Test(w);
    case Bouncing(i) =>
      TesterCanMove(f, w);
      step := Bounce(w);
    case Inside(i) =>
      assert AllCallsOver(f.c.calls) ==> Over(f.c.calls[i]);
      if CleansUp(f.c.calls[i].stage) {
        step := CleanerCanMove(f, w);
      } else {
        ServerCanMove(f, w);
        step := Serve(w, OwnStep(f.c.calls[i].slot.owner, CHUNK_CONTINUE), 0);
      }
  }

  lemma NewFreeInv(workers: nat, maxInflight: nat, maxBytes: nat)
    ensures var f := NewFree(workers, maxInflight, maxBytes); FreeInv(f) && Tallied(f.c.calls, f.seats)
  {}

  ghost predicate EachCanMove(f: Free) {
    forall w: nat :: w < |f.seats| && !f.seats[w].Exited? ==> exists step :: FreeEnabled(f, step) && Frees(step, w)
  }

  lemma EverySeatCanMove(f: Free)
    requires AllFit(f.c.calls) && Seated(f.c.calls, f.seats) && Tallied(f.c.calls, f.seats)
    requires StopSet(f.progress) && LockFree(f.seats) && NoneAsleep(f.seats)
    ensures EachCanMove(f)
  {
    forall w: nat | w < |f.seats| && !f.seats[w].Exited? ensures exists step :: FreeEnabled(f, step) && Frees(step, w) {
      var step := SeatCanMove(f, w);
    }
  }
}

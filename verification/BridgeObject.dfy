/**
 * The slot as the object the source has: state updated in place by settle, resume, send and the
 * budgeted delivery loop. Each method is proved against the transition system; `RunSlice`, with
 * whatever the network task, API callers and other workers do between any two of its steps, is
 * proved to be a run of it, so every theorem about runs applies to the loop.
 */
module BridgeObject {
  import opened Abi
  import opened Bridge
  import opened BridgeSafety
  import opened BridgeTrace
  import opened BridgeTheorems

  /** One round of the delivery loop: what others do before it, during the callback and after it, and its result. */
  datatype Turn = Turn(before: seq<Step>, during: seq<Step>, value: int, after: seq<Step>)

  /** What others do around the end of a slice: before the emptiness test, before the read of done_ready, during
      on_done, and before `running` is cleared. */
  datatype Ending = Ending(look: seq<Step>, read: seq<Step>, done: seq<Step>, release: seq<Step>)

  class RequestSlot {
    const capacity: nat
    const hasOnChunk: bool
    var life: Life      // state, terminal, done_ready, finished_flag
    var flow: Flow      // queue, space, committed, and the network task
    var hold: Hold      // paused, in_callback, permit
    var sched: Sched    // scheduled, running, and the copies in the ready queue
    var owner: Phase
    var log: seq<Mark>

    function View(): Slot
      reads this
    {
      Slot(capacity, hasOnChunk, life, flow, hold, sched, owner, log)
    }

    /** Wires up one request. */
    constructor (queueCapacity: nat, onChunk: bool)
      ensures View() == Init(queueCapacity, onChunk) && FreshInv(View())
    {
      capacity, hasOnChunk := queueCapacity, onChunk;
      life := Life(Running, None, None, false, None, false);
      flow := Flow([], queueCapacity, Fetching(false), false, [], [], [], []);
      hold := Hold(false, false, false, 0);
      sched := Sched(false, 0, 0, 0, false);
      owner, log := Away, [];
      new;
      InitInv(queueCapacity, onChunk);
    }

    method ScheduleSlot()
      modifies this`sched
      ensures sched == Schedule(old(sched))
    {
      if !sched.scheduled {
        sched := sched.(scheduled := true, tickets := sched.tickets + 1);
      }
    }

    method LeavePause()
      modifies this`hold
      ensures hold == Unpause(old(hold))
    {
      hold := hold.(paused := false);
    }

    /** Terminate once, in the frozen order; a loser releases a pause when it meant to abort. */
    method Settle(t: Terminal, discard: bool)
      modifies this`life, this`flow, this`hold, this`sched
      ensures old(life.gate).Running? ==> View() == Publish(Claim(old(View()), t, discard))
      ensures !old(life.gate).Running? ==> View() == Claim(old(View()), t, discard)
    {
      if !life.gate.Running? {
        if discard && hold.paused {
          LeavePause();
          ScheduleSlot();
        }
        return;
      }
      life := life.(gate := if discard then Discard else Drain, pending := None);
      life := life.(terminal := Some(t), doneReady := true);
      flow := flow.(permits := flow.permits + 1);
      if discard && hold.paused {
        LeavePause();
      }
      ScheduleSlot();
    }

    method Resume() returns (status: int)
      modifies this`hold, this`sched
      ensures status == ResumeStatus(old(View())) && View() == NextResume(old(View()))
    {
      if hold.paused {
        LeavePause();
        ScheduleSlot();
        return STATUS_OK;
      }
      if hold.inCallback {
        hold := hold.(permit := true);
        return STATUS_OK;
      }
      if !life.gate.Running? {
        return STATUS_ALREADY_DONE;
      }
      return STATUS_NOT_PAUSED;
    }

    /** Refuses a request that is already settled, else settles it as cancelled. */
    method Cancel() returns (status: int)
      modifies this`life, this`flow, this`hold, this`sched
      ensures status == if old(life.gate).Running? then STATUS_OK else STATUS_ALREADY_DONE
      ensures View() == if old(life.gate).Running? then Publish(Claim(old(View()), Terminal(ERR_CANCELLED, 0), true)) else old(View())
    {
      if !life.gate.Running? {
        return STATUS_ALREADY_DONE;
      }
      Settle(Terminal(ERR_CANCELLED, 0), true);
      return STATUS_OK;
    }

    /** The part of `send` after room was found: the second terminal check and the enqueue. */
    method Send() returns (queued: bool)
      requires flow.producer.Granted?
      modifies this`flow, this`sched
      ensures queued == life.gate.Running?
      ensures View() == if queued then NextNet(NextNet(old(View()), Recheck), Push) else NextNet(old(View()), Recheck)
    {
      if !life.gate.Running? {
        flow := flow.(permits := flow.permits + 1, producer := Stopped);
        return false;
      }
      var ev := flow.producer.ev;
      flow := flow.(committed := true, queue := flow.queue + [ev], sent := flow.sent + [ev], producer := Fetching(true));
      if !hold.paused {
        ScheduleSlot();
      }
      return true;
    }

    /** Other threads act on a slot that is owned: steps that cannot happen are skipped. */
    method Interfere(steps: seq<Step>) returns (ghost trace: seq<Step>)
      requires sched.running
      modifies this`life, this`flow, this`hold, this`sched
      ensures CanRun(Any, old(View()), trace) && After(Any, old(View()), trace) == View()
      ensures sched.running
    {
      trace := [];
      for k := 0 to |steps|
        invariant CanRun(Any, old(View()), trace) && After(Any, old(View()), trace) == View()
        invariant sched.running
      {
        var step := steps[k];
        if !IsOwners(step) && Enabled(View(), step) {
          OthersKeepOwner(View(), step);
          RunSnoc(Any, old(View()), trace, step);
          var s := Next(View(), step);
          life, flow, hold, sched := s.life, s.flow, s.hold, s.sched;
          trace := trace + [step];
        }
      }
    }

    /** Pop the head of the queue: drop it if the request is discarded, otherwise open its callback. */
    method TakeHead() returns (calling: bool)
      requires owner.Working? && owner.left > 0 && !hold.paused && flow.queue != []
      modifies this`flow, this`hold, this`owner, this`log
      ensures View() == NextTake(old(View()))
      ensures calling == owner.Calling? && owner == if calling then Calling(old(flow.queue[0]), old(owner.left) - 1) else Working(old(owner.left) - 1)
    {
      var left := owner.left - 1;
      var ev := flow.queue[0];
      flow := flow.(queue := flow.queue[1..], permits := flow.permits + 1, gone := flow.gone + [ev],
                    consumed := if life.gate.Discard? then flow.consumed else flow.consumed + [ev]);
      if life.gate.Discard? {
        owner := Working(left);
        return false;
      }
      hold := hold.(inCallback := true);
      log := Note(View(), ev, Begin(ev));
      owner := Calling(ev, left);
      return true;
    }

    /** The callback is over for everybody else. */
    method ReturnCallback(value: int)
      requires owner.Calling?
      modifies this`hold, this`owner, this`log
      ensures View() == NextReturn(old(View()), value)
    {
      var Calling(ev, left) := owner;
      log := Note(View(), ev, Returned);
      hold := hold.(inCallback := false);
      owner := Reacting(ActionOf(hasOnChunk, ev, value), left);
    }

    /** Cancel, pause, or go on. */
    method ReactToCallback() returns (goOn: bool)
      requires owner.Reacting?
      modifies this`life, this`hold, this`sched, this`owner
      ensures View() == NextReact(old(View()))
      ensures owner == if goOn then Working(old(owner.left)) else Decided(false)
      ensures sched.running == old(sched.running)
    {
      var Reacting(action, left) := owner;
      if action == Action.Cancel {
        hold := hold.(permit := false);
        owner := Decided(false);
        ClaimCancelled();
        return false;
      }
      if action == Pause && !hold.permit {
        hold := hold.(paused := true);
        owner := Decided(false);
        return false;
      }
      hold := hold.(permit := false);
      owner := Working(left);
      return true;
    }

    /** A callback's cancel wins or loses the gate like any other settlement. */
    method ClaimCancelled()
      modifies this`life, this`hold, this`sched
      ensures View() == Claim(old(View()), CallbackCancelled, true)
    {
      if life.gate.Running? {
        life := life.(gate := Discard, pending := Some(Settlement(CallbackCancelled, true)));
      } else if hold.paused {
        LeavePause();
        ScheduleSlot();
      }
    }

    /** The rest of settle_slot for the settlement that won. */
    method PublishPending()
      requires life.pending.Some?
      modifies this`life, this`flow, this`hold, this`sched
      ensures View() == Publish(old(View()))
    {
      var Settlement(t, discard) := life.pending.value;
      life := life.(pending := None, terminal := Some(t), doneReady := true);
      flow := flow.(permits := flow.permits + 1);
      if discard {
        LeavePause();
      }
      ScheduleSlot();
    }

    /** From the return of a callback to the end of its reaction, with a cancel's own publication. */
    method CloseHead(turn: Turn) returns (goOn: bool, ghost trace: seq<Step>)
      requires owner.Calling? && sched.running
      modifies this
      ensures CanRun(Any, old(View()), trace) && After(Any, old(View()), trace) == View() && sched.running
      ensures owner == if goOn then Working(old(owner.left)) else Decided(false)
    {
      ghost var start := View();
      RunSnoc(Any, start, [], Work(Return(turn.value)));
      trace := [Work(Return(turn.value))];
      ReturnCallback(turn.value);
      ghost var more := Interfere(turn.after);
      RunConcat(Any, start, trace, more);
      trace := trace + more;
      var wasOpen := life.gate.Running?;
      RunSnoc(Any, start, trace, Work(React));
      trace := trace + [Work(React)];
      goOn := ReactToCallback();
      if wasOpen && !life.gate.Running? && life.pending.Some? {
        RunSnoc(Any, start, trace, Api(SettlePublish));
        trace := trace + [Api(SettlePublish)];
        PublishPending();
      }
    }

    /** Pop the head and, unless it is dropped, run its callback to the end; false when the slice must stop. */
    method DeliverHead(turn: Turn) returns (goOn: bool, ghost trace: seq<Step>)
      requires owner.Working? && owner.left > 0 && !hold.paused && flow.queue != [] && sched.running
      modifies this
      ensures CanRun(Any, old(View()), trace) && After(Any, old(View()), trace) == View() && sched.running
      ensures owner == if goOn then Working(old(owner.left) - 1) else Decided(false)
    {
      ghost var start := View();
      RunSnoc(Any, start, [], Work(Take));
      trace := [Work(Take)];
      var calling := TakeHead();
      if !calling {
        return true, trace;
      }
      ghost var more := Interfere(turn.during);
      RunConcat(Any, start, trace, more);
      trace := trace + more;
      goOn, more := CloseHead(turn);
      RunConcat(Any, start, trace, more);
      trace := trace + more;
    }

    /** At most one slice of events, then Done if nothing is left. */
    method RunOwned(turns: seq<Turn>, ending: Ending) returns (ghost trace: seq<Step>)
      requires owner == Working(SLICE) && |turns| == SLICE && sched.running
      modifies this
      ensures CanRun(Any, old(View()), trace) && After(Any, old(View()), trace) == View() && sched.running
      ensures owner.Decided?
    {
      ghost var start := View();
      trace := [];
      var k := 0;
      while k < SLICE
        invariant 0 <= k <= SLICE && owner == Working(SLICE - k) && sched.running
        invariant CanRun(Any, start, trace) && After(Any, start, trace) == View()
      {
        ghost var more := Interfere(turns[k].before);
        RunConcat(Any, start, trace, more);
        trace := trace + more;
        if hold.paused {
          RunSnoc(Any, start, trace, Work(Take));
          trace := trace + [Work(Take)];
          owner := Decided(false);
          return;
        }
        if flow.queue == [] {
          break;
        }
        var goOn;
        goOn, more := DeliverHead(turns[k]);
        RunConcat(Any, start, trace, more);
        trace := trace + more;
        if !goOn {
          return;
        }
        k := k + 1;
      }
      ghost var tail := FinishSlice(ending);
      RunConcat(Any, start, trace, tail);
      trace := trace + tail;
    }

    /** After the loop: the emptiness test and, if it holds, the read of done_ready and on_done. */
    method FinishSlice(ending: Ending) returns (ghost trace: seq<Step>)
      requires owner.Working? && (owner.left == 0 || flow.queue == []) && sched.running
      modifies this
      ensures CanRun(Any, old(View()), trace) && After(Any, old(View()), trace) == View() && sched.running
      ensures owner.Decided?
    {
      ghost var start := View();
      RunSnoc(Any, start, [], Work(Take));
      trace := [Work(Take)];
      if hold.paused {
        owner := Decided(false);
        return;
      }
      owner := Drained;
      ghost var more := Interfere(ending.look);
      RunConcat(Any, start, trace, more);
      trace := trace + more;
      RunSnoc(Any, start, trace, Work(Look));
      trace := trace + [Work(Look)];
      if flow.queue != [] {
        owner := Decided(true);
        return;
      }
      owner := Checked;
      more := FinishEmpty(ending);
      RunConcat(Any, start, trace, more);
      trace := trace + more;
    }

    /** The queue was empty a moment ago: read done_ready, take the terminal, report it. */
    method FinishEmpty(ending: Ending) returns (ghost trace: seq<Step>)
      requires owner.Checked? && sched.running
      modifies this
      ensures CanRun(Any, old(View()), trace) && After(Any, old(View()), trace) == View() && sched.running
      ensures owner.Decided?
    {
      ghost var start := View();
      trace := Interfere(ending.read);
      RunSnoc(Any, start, trace, Work(ReadDone));
      trace := trace + [Work(ReadDone)];
      if !(life.doneReady && life.terminal.Some?) {
        owner := Decided(false);
        return;
      }
      var t := life.terminal.value;
      life := life.(terminal := None, reported := Some(t));
      log := log + [BeginDone(t)];
      owner := Finishing(t);
      ghost var more := Interfere(ending.done);
      RunConcat(Any, start, trace, more);
      trace := trace + more;
      RunSnoc(Any, start, trace, Work(DoneReturn));
      trace := trace + [Work(DoneReturn)];
      life := life.(finished := true);
      log := log + [DoneReturned];
      owner := Decided(false);
    }

    /** `running` is set: the loser clears `scheduled` and leaves. */
    method Bounce(meanwhile: seq<Step>) returns (ghost trace: seq<Step>)
      requires sched.popped > 0 && sched.running
      modifies this`life, this`flow, this`hold, this`sched
      ensures CanRun(Any, old(View()), trace) && After(Any, old(View()), trace) == View()
    {
      ghost var start := View();
      sched := sched.(popped := sched.popped - 1, bouncing := sched.bouncing + 1);
      assert View() == NextStart(start);
      trace := Interfere(meanwhile);
      RunFirst(start, Work(Start), trace);
      trace := [Work(Start)] + trace;
      if sched.bouncing > 0 {
        RunSnoc(Any, start, trace, Work(Bounced));
        trace := trace + [Work(Bounced)];
        ResetFlag();
      }
    }

    method ResetFlag()
      requires sched.bouncing > 0
      modifies this`sched
      ensures View() == NextWork(old(View()), Bounced)
    {
      sched := sched.(scheduled := false, bouncing := sched.bouncing - 1);
    }

    /** Clear `running`; a slot with more work goes to the back of the ready queue. */
    method Release() returns (again: bool)
      requires owner.Decided?
      modifies this`sched, this`owner
      ensures View() == NextRelease(old(View()))
      ensures again <==> !life.finished && (old(owner.more) || flow.queue != [])
      ensures again ==> sched.tickets > 0
    {
      again := !life.finished && (owner.more || flow.queue != []);
      sched := sched.(running := false);
      owner := Away;
      if again {
        sched := sched.(tickets := sched.tickets + 1);
      }
    }

    /** The owner's whole slice, from taking `running` to the moment before it clears it. */
    method OwnSlice(turns: seq<Turn>, ending: Ending) returns (ghost trace: seq<Step>)
      requires sched.popped > 0 && !sched.running && |turns| == SLICE
      modifies this
      ensures CanRun(Any, old(View()), trace) && After(Any, old(View()), trace) == View()
      ensures owner.Decided?
      ensures old(hold.paused) ==> log == old(log)
    {
      ghost var start := View();
      RunSnoc(Any, start, [], Work(Start));
      trace := [Work(Start)];
      sched := sched.(popped := sched.popped - 1, running := true, scheduled := false);
      ghost var more;
      if hold.paused {
        owner := Decided(false);
      } else {
        owner := Working(SLICE);
        more := RunOwned(turns, ending);
        RunConcat(Any, start, trace, more);
        trace := trace + more;
      }
      more := Interfere(ending.release);
      RunConcat(Any, start, trace, more);
      trace := trace + more;
    }

    /**
     * One turn of a worker that took the slot from the ready queue; true sends it to the back. Other threads act
     * between any two of its steps, and the whole is a run: callbacks stay paired and in order, and the trace well formed
     * unless a late Done is opened.
     */
    method RunSlice(turns: seq<Turn>, ending: Ending) returns (again: bool, ghost trace: seq<Step>)
      requires sched.popped > 0 && |turns| == SLICE
      modifies this
      ensures CanRun(Any, old(View()), trace) && After(Any, old(View()), trace) == View()
      ensures old(Inv(View())) ==> Inv(View())
      ensures old(Inv(View()) && TraceInv(View())) ==> TraceInv(View())
      ensures old(TidyInv(View()) && TraceInv(View())) && CanRun(Tidy, old(View()), trace) ==> WellFormedTrace(log)
      ensures again ==> sched.tickets > 0 && !life.finished
      ensures old(sched.running) ==> !again && log == old(log)
      ensures !old(sched.running) ==> !sched.running && owner.Away?
      ensures old(hold.paused) ==> log == old(log)
    {
      ghost var start := View();
      if sched.running {
        trace := Bounce(ending.release);
        again := false;
      } else {
        trace := OwnSlice(turns, ending);
        RunSnoc(Any, start, trace, Work(WorkStep.Release));
        trace := trace + [Work(WorkStep.Release)];
        again := Release();
      }
      SliceIsARun(start, trace, View());
    }
  }

  /** What follows for the slot from its slice being a run. */
  lemma SliceIsARun(s: Slot, trace: seq<Step>, t: Slot)
    requires CanRun(Any, s, trace) && After(Any, s, trace) == t
    ensures Inv(s) ==> Inv(t) && (TraceInv(s) ==> TraceInv(t))
    ensures TidyInv(s) && TraceInv(s) && CanRun(Tidy, s, trace) ==> WellFormedTrace(t.log)
  {
    if Inv(s) { RunKeeps(Any, s, trace); }
    if TidyInv(s) && TraceInv(s) && CanRun(Tidy, s, trace) {
      RunKeeps(Tidy, s, trace);
      SameRun(Tidy, s, trace);
      TraceOfInv(t);
    }
  }

  /** A discipline says which runs there are, not where they lead. */
  lemma {:induction false} SameRun(d: Discipline, s: Slot, steps: seq<Step>)
    requires CanRun(d, s, steps)
    ensures CanRun(Any, s, steps) && After(Any, s, steps) == After(d, s, steps)
    decreases |steps|
  {
    if steps != [] { SameRun(d, Next(s, steps[0]), steps[1..]); }
  }

  predicate IsOwners(step: Step) {
    step.Work? && IsOwnerStep(step.k)
  }

  /** While a worker owns the slot, nobody else moves its program counter or adds to the log. */
  lemma OthersKeepOwner(s: Slot, step: Step)
    requires s.sched.running && Enabled(s, step) && !IsOwners(step)
    ensures Next(s, step).owner == s.owner && Next(s, step).log == s.log && Next(s, step).sched.running
    ensures Next(s, step).capacity == s.capacity && Next(s, step).hasOnChunk == s.hasOnChunk
  {
    match step
    case Net(n) => NetFrame(s, n);
    case Api(a) => ApiFrame(s, a);
    case Work(k) =>
  }

  lemma {:induction false} RunConcat(d: Discipline, s: Slot, a: seq<Step>, b: seq<Step>)
    requires CanRun(d, s, a) && CanRun(d, After(d, s, a), b)
    ensures CanRun(d, s, a + b) && After(d, s, a + b) == After(d, After(d, s, a), b)
    decreases |b|
  {
    if b == [] {
      assert a + b == a;
    } else {
      RunSnoc(d, s, a, b[0]);
      assert (a + [b[0]]) + b[1..] == a + b;
      RunConcat(d, s, a + [b[0]], b[1..]);
    }
  }
}

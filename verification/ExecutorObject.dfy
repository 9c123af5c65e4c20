/**
 * The executor as the object its workers share. A worker's loop takes a slot from the head of the ready queue, runs one
 * slice of it and puts it back at the end if it has more; other workers, network tasks and API callers act between any
 * two of its steps. The whole is a run of module Executor.
 */
module ExecutorObject {
  import opened Abi
  import opened Bridge
  import opened BridgeSafety
  import opened BridgeWakeups
  import opened Executor

  /** What others do before a step of the worker, and what a callback returns if that step ends one. */
  datatype Moment = Moment(others: seq<ExecStep>, value: int)

  predicate IsStepOf(step: ExecStep, w: nat) {
    match step
    case Task(_, _) => false
    case Call(_, _) => false
    case Fetch(v) => v == w
    case Enter(v) => v == w
    case Leave(v) => v == w
    case Slice(v, _) => v == w
  }

  lemma OthersLeaveWorker(e: Exec, step: ExecStep, w: nat)
    requires ExecEnabled(e, step) && !IsStepOf(step, w) && w < |e.workers|
    ensures |ExecNext(e, step).workers| == |e.workers| && |ExecNext(e, step).slots| == |e.slots|
    ensures ExecNext(e, step).workers[w] == e.workers[w]
  {}

  lemma {:induction false} ExecSnoc(e: Exec, steps: seq<ExecStep>, step: ExecStep)
    requires ExecCanRun(Any, e, steps) && ExecEnabled(ExecAfter(Any, e, steps), step)
    ensures ExecCanRun(Any, e, steps + [step]) && ExecAfter(Any, e, steps + [step]) == ExecNext(ExecAfter(Any, e, steps), step)
    decreases |steps|
  {
    var all := steps + [step];
    if steps == [] {
      assert all[1..] == [];
    } else {
      ExecSnoc(ExecNext(e, steps[0]), steps[1..], step);
      assert all[1..] == steps[1..] + [step];
    }
  }

  ghost predicate Runs(e: Exec, trace: seq<ExecStep>, t: Exec) {
    ExecCanRun(Any, e, trace) && ExecAfter(Any, e, trace) == t
  }

  lemma RunsOn(e: Exec, trace: seq<ExecStep>, t: Exec, step: ExecStep)
    requires Runs(e, trace, t) && ExecEnabled(t, step)
    ensures Runs(e, trace + [step], ExecNext(t, step))
  {
    ExecSnoc(e, trace, step);
  }

  class BridgeExecutor {
    var slots: seq<Slot>
    var ready: seq<nat>
    var workers: seq<Worker>
    var stopped: bool

    function View(): Exec
      reads this
    {
      Exec(slots, ready, workers)
    }

    constructor (slots: seq<Slot>, threads: nat)
      ensures View() == Exec(slots, [], seq(threads, _ => Idle)) && !stopped
    {
      this.slots, ready, workers, stopped := slots, [], seq(threads, _ => Idle), false;
    }

    /** Everybody but worker w acts: steps that cannot happen are skipped. */
    method Others(w: nat, steps: seq<ExecStep>, ghost start: Exec, ghost before: seq<ExecStep>) returns (ghost trace: seq<ExecStep>)
      requires Runs(start, before, View()) && w < |workers|
      modifies this`slots, this`ready, this`workers
      ensures Runs(start, trace, View()) && before <= trace
      ensures |workers| == |old(workers)| && |slots| == |old(slots)| && workers[w] == old(workers[w])
    {
      trace := before;
      for k := 0 to |steps|
        invariant Runs(start, trace, View()) && before <= trace
        invariant |workers| == |old(workers)| && |slots| == |old(slots)| && workers[w] == old(workers[w])
      {
        var step := steps[k];
        if ExecEnabled(View(), step) && !IsStepOf(step, w) {
          OthersLeaveWorker(View(), step, w);
          RunsOn(start, trace, View(), step);
          trace := trace + [step];
          var e := ExecNext(View(), step);
          slots, ready, workers := e.slots, e.ready, e.workers;
        }
      }
    }

    /** The slice of a worker that owns its slot, to the end: a slot with more goes to the back of the ready queue. */
    method RunSlice(w: nat, moments: nat -> Moment, ghost start: Exec, ghost before: seq<ExecStep>) returns (ghost trace: seq<ExecStep>)
      requires Runs(start, before, View()) && w < |workers|
      requires workers[w].Inside? && workers[w].slot < |slots| && !workers[w].phase.Away?
      modifies this`slots, this`ready, this`workers
      ensures Runs(start, trace, View()) && before <= trace
      ensures |workers| == |old(workers)| && |slots| == |old(slots)| && workers[w].Idle?
    {
      trace := before;
      var k: nat := 0;
      var i := workers[w].slot;
      while workers[w].Inside?
        invariant Runs(start, trace, View()) && before <= trace
        invariant |workers| == |old(workers)| && |slots| == |old(slots)|
        invariant workers[w].Idle? || (workers[w].Inside? && workers[w].slot == i && !workers[w].phase.Away?)
        decreases if workers[w].Inside? then Rank(workers[w].phase) else 0
      {
        trace := Others(w, moments(k).others, start, trace);
        var s := slots[i].(owner := workers[w].phase);
        var step := OwnStep(s.owner, moments(k).value);
        OwnStepRunsDown(s, moments(k).value);
        RunsOn(start, trace, View(), Slice(w, step));
        trace := trace + [Slice(w, step)];
        var t := NextWork(s, step);
        ready := Requeue(ready, i, slots[i], t);
        slots := slots[i := t];
        workers := workers[w := if t.owner.Away? then Idle else Inside(i, t.owner)];
        k := k + 1;
      }
    }

    /** Takes the head of the ready queue, enters its slot and either runs a slice or leaves at once. */
    method ServeHead(w: nat, moments: nat -> Moment, ghost start: Exec, ghost before: seq<ExecStep>) returns (ghost trace: seq<ExecStep>)
      requires Runs(start, before, View()) && w < |workers| && workers[w].Idle? && ready != [] && ready[0] < |slots|
      modifies this`slots, this`ready, this`workers
      ensures Runs(start, trace, View()) && before + [Fetch(w)] <= trace
      ensures |workers| == |old(workers)| && |slots| == |old(slots)| && workers[w].Idle?
    {
      var i := ready[0];
      RunsOn(start, before, View(), Fetch(w));
      trace := before + [Fetch(w)];
      slots, ready, workers := slots[i := FetchSlot(slots[i])], ready[1..], workers[w := Popped(i)];
      trace := Others(w, moments(0).others, start, trace);
      trace := EnterAndRun(w, (k: nat) => moments(k + 1), start, trace);
    }

    /** One worker per slot: whoever finds `running` set leaves at once. */
    method EnterAndRun(w: nat, moments: nat -> Moment, ghost start: Exec, ghost before: seq<ExecStep>) returns (ghost trace: seq<ExecStep>)
      requires Runs(start, before, View()) && w < |workers| && workers[w].Popped? && workers[w].slot < |slots|
      modifies this`slots, this`ready, this`workers
      ensures Runs(start, trace, View()) && before <= trace
      ensures |workers| == |old(workers)| && |slots| == |old(slots)| && workers[w].Idle?
    {
      var i := workers[w].slot;
      RunsOn(start, before, View(), Enter(w));
      trace := before + [Enter(w)];
      if slots[i].sched.running {
        slots, workers := slots[i := EnterSlot(slots[i])], workers[w := Bouncing(i)];
        trace := Others(w, moments(0).others, start, trace);
        RunsOn(start, trace, View(), Leave(w));
        trace := trace + [Leave(w)];
        slots, workers := slots[i := LeaveSlot(slots[i])], workers[w := Idle];
      } else {
        var s := EnterSlot(slots[i]);
        slots, workers := slots[i := s], workers[w := Inside(i, s.owner)];
        trace := RunSlice(w, moments, start, trace);
      }
    }

    /**
     * Serves slot after slot until stopped, out of slots (where the source waits to be notified), or done with the
     * given rounds. The stop flag is read before every slot, not only when the queue is empty. It is a run of the
     * executor, so mutual exclusion, the order of the queue and everything proved of slots hold of it.
     */
    method WorkerLoop(w: nat, rounds: seq<nat -> Moment>) returns (ghost trace: seq<ExecStep>)
      requires ExecInv(View()) && w < |workers| && workers[w].Idle?
      modifies this`slots, this`ready, this`workers
      ensures Runs(old(View()), trace, View()) && ExecInv(View())
      ensures w < |workers| && workers[w].Idle?
      ensures stopped ==> trace == [] && View() == old(View())
      ensures !stopped && old(ready) != [] && rounds != [] ==> [Fetch(w)] <= trace
    {
      ghost var start := View();
      trace := [];
      for k := 0 to |rounds|
        invariant Runs(start, trace, View()) && ExecInv(View())
        invariant w < |workers| && workers[w].Idle?
        invariant stopped ==> trace == [] && View() == old(View())
        invariant k == 0 ==> trace == [] && View() == old(View())
        invariant k > 0 ==> [Fetch(w)] <= trace
      {
        if stopped || ready == [] {
          return;
        }
        trace := ServeHead(w, rounds[k], start, trace);
        ExecRunKeeps(Any, start, trace);
      }
    }
  }
}

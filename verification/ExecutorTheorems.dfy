/** What the executor promises every request: its own run, a turn, and a bound on who goes first. */
module ExecutorTheorems {
  import opened Abi
  import opened Counting
  import opened Bridge
  import opened BridgeSafety
  import opened BridgeTrace
  import opened BridgeTheorems
  import opened BridgeWakeups
  import opened Executor

  // ---- every slot runs on its own -------------------------------------------------------------

  /**
   * Whatever the other requests and workers do, each slot goes through a run of its own: everything
   * proved of one slot holds of every slot at once.
   */
  lemma {:induction false} EverySlotRuns(d: Discipline, e: Exec, steps: seq<ExecStep>)
    requires ExecInv(e) && ExecCanRun(d, e, steps)
    requires forall i :: 0 <= i < |e.slots| ==> Reachable(d, e.slots[i])
    ensures var t := ExecAfter(d, e, steps);
            |t.slots| == |e.slots| && forall i :: 0 <= i < |t.slots| ==> Reachable(d, t.slots[i])
    decreases |steps|
  {
    if steps != [] {
      var i := Target(e, steps[0]);
      Refines(e, steps[0]);
      ReachableStep(d, e.slots[i], Local(steps[0]));
      ExecStepKeeps(e, steps[0]);
      EverySlotRuns(d, ExecNext(e, steps[0]), steps[1..]);
    }
  }

  lemma ReachableInit(d: Discipline, s: Slot)
    requires s == Init(s.capacity, s.hasOnChunk)
    ensures Reachable(d, s)
  {
    assert CanRun(d, s, []) && After(d, s, []) == s;
  }

  /** What the peer of request i sent in a run of the executor, read off its steps alone. */
  function PeerSentTo(steps: seq<ExecStep>, i: nat): seq<Event> {
    if steps == [] then [] else SendsTo(steps[0], i) + PeerSentTo(steps[1..], i)
  }

  function SendsTo(step: ExecStep, i: nat): seq<Event> {
    if step.Task? && step.i == i then Sends(Net(step.n)) else []
  }

  lemma ExecStepReceives(e: Exec, step: ExecStep, i: nat)
    requires ExecEnabled(e, step) && i < |e.slots|
    ensures |ExecNext(e, step).slots| == |e.slots|
    ensures ExecNext(e, step).slots[i].flow.received == e.slots[i].flow.received + SendsTo(step, i)
  {
    match step
    case Task(j, n) => StepReceives(e.slots[j], Net(n));
    case Call(j, a) => StepReceives(e.slots[j], Api(a));
    case Slice(w, k) => StepReceives(e.slots[e.workers[w].slot].(owner := e.workers[w].phase), Work(k));
    case _ =>
  }

  lemma {:induction false} RequestReceives(d: Discipline, e: Exec, steps: seq<ExecStep>, i: nat)
    requires ExecCanRun(d, e, steps) && i < |e.slots|
    ensures i < |ExecAfter(d, e, steps).slots|
    ensures ExecAfter(d, e, steps).slots[i].flow.received == e.slots[i].flow.received + PeerSentTo(steps, i)
    decreases |steps|
  {
    if steps != [] {
      ExecStepReceives(e, steps[0], i);
      RequestReceives(d, ExecNext(e, steps[0]), steps[1..], i);
    }
  }

  /**
   * From the start, for every request and in every interleaving: its callbacks never overlap and are those of the events
   * handed over, in order; Done begins at most once; what was handed over is a prefix of what its peer sent; and a success
   * is the whole response exactly when the queue is empty. In tidy runs nothing follows Done, in fresh ones a success is
   * always whole.
   */
  lemma EveryRequestIsSound(d: Discipline, e: Exec, steps: seq<ExecStep>, i: nat)
    requires ExecInit(e) && ExecCanRun(d, e, steps) && i < |e.slots|
    ensures i < |ExecAfter(d, e, steps).slots|
    ensures var s := ExecAfter(d, e, steps).slots[i];
            && Paired(s.log) && Begins(s.log) == Visible(s.hasOnChunk, s.flow.consumed) && Shaped(Begins(s.log))
            && Dones(s.log) == (if s.life.reported.Some? then [s.life.reported.value] else [])
            && (!d.Any? ==> WellFormedTrace(s.log))
            && s.flow.consumed <= PeerSentTo(steps, i)
            && (s.life.reported.Some? && s.life.reported.value.kind == ERR_NONE ==>
                  (s.flow.consumed == PeerSentTo(steps, i) <==> s.flow.queue == []) && (d.Fresh? ==> s.flow.queue == []))
  {
    ExecInitInv(e);
    forall j | 0 <= j < |e.slots| ensures Reachable(d, e.slots[j]) { ReachableInit(d, e.slots[j]); }
    EverySlotRuns(d, e, steps);
    RequestReceives(d, e, steps, i);
    var s := ExecAfter(d, e, steps).slots[i];
    CallbackTrace(d, s);
    HandedOver(d, s);
  }

  // ---- somebody owns it -----------------------------------------------------------------------

  /** An owned slot has its worker. */
  ghost predicate Manned(slots: seq<Slot>, workers: seq<Worker>) {
    forall i: nat :: i < |slots| && !slots[i].owner.Away? ==> Inside(i, slots[i].owner) in workers
  }

  lemma MannedUpdate(workers: seq<Worker>, w: nat, x: Worker, y: Worker)
    requires w < |workers| && y in workers && workers[w] != y
    ensures y in workers[w := x]
  {
    var k :| 0 <= k < |workers| && workers[k] == y;
    assert workers[w := x][k] == y;
  }

  lemma StayManned(e: Exec, step: ExecStep)
    requires ExecInv(e) && Manned(e.slots, e.workers) && ExecEnabled(e, step)
    ensures Manned(ExecNext(e, step).slots, ExecNext(e, step).workers)
  {
    var t := ExecNext(e, step);
    if step.Task? {
      OwnerStays(e.slots[step.i], Net(step.n));
    } else if step.Call? {
      OwnerStays(e.slots[step.i], Api(step.a));
    } else {
      var w := step.w;
      forall i: nat | i < |t.slots| && !t.slots[i].owner.Away?
        ensures Inside(i, t.slots[i].owner) in t.workers
      {
        if t.workers[w] == Inside(i, t.slots[i].owner) {
          assert t.workers[w] in t.workers;
        } else {
          assert t.slots[i].owner == e.slots[i].owner;
          MannedUpdate(e.workers, w, t.workers[w], Inside(i, e.slots[i].owner));
        }
      }
    }
  }

  lemma {:induction false} StaysMannedRun(d: Discipline, e: Exec, steps: seq<ExecStep>)
    requires ExecInv(e) && Manned(e.slots, e.workers) && ExecCanRun(d, e, steps)
    ensures ExecInv(ExecAfter(d, e, steps)) && Manned(ExecAfter(d, e, steps).slots, ExecAfter(d, e, steps).workers)
    decreases |steps|
  {
    if steps != [] {
      StayManned(e, steps[0]);
      ExecStepKeeps(e, steps[0]);
      StaysMannedRun(d, ExecNext(e, steps[0]), steps[1..]);
    }
  }

  ghost predicate AllAwake(slots: seq<Slot>) {
    forall i :: 0 <= i < |slots| ==> Awake(slots[i])
  }

  /** No step of the run falls into a gap of the slot it acts on. */
  ghost predicate ExecGapFree(d: Discipline, e: Exec, steps: seq<ExecStep>)
    requires ExecCanRun(d, e, steps)
    decreases |steps|
  {
    steps == [] || (Target(e, steps[0]) < |e.slots| && !Gap(e.slots[Target(e, steps[0])], Local(steps[0]))
                    && ExecGapFree(d, ExecNext(e, steps[0]), steps[1..]))
  }

  /** In every interleaving of all requests and workers, a step loses a wakeup exactly in a gap of its own slot. */
  lemma ExecWakeupLostIff(e: Exec, step: ExecStep)
    requires ExecInv(e) && AllAwake(e.slots) && ExecEnabled(e, step)
    ensures AllAwake(ExecNext(e, step).slots) <==> !Gap(e.slots[Target(e, step)], Local(step))
  {
    var i := Target(e, step);
    Refines(e, step);
    WakeupLostIff(e.slots[i], Local(step));
    assert ExecNext(e, step).slots[i] == Next(e.slots[i], Local(step));
  }

  lemma {:induction false} AllStayAwake(d: Discipline, e: Exec, steps: seq<ExecStep>)
    requires ExecInv(e) && AllAwake(e.slots) && ExecCanRun(d, e, steps) && ExecGapFree(d, e, steps)
    ensures AllAwake(ExecAfter(d, e, steps).slots)
    decreases |steps|
  {
    if steps != [] {
      ExecWakeupLostIff(e, steps[0]);
      ExecStepKeeps(e, steps[0]);
      AllStayAwake(d, ExecNext(e, steps[0]), steps[1..]);
    }
  }

  /** After every run that falls into no gap, work that may be delivered is in the ready queue or with some worker. */
  lemma WorkIsQueuedOrOwned(d: Discipline, e: Exec, steps: seq<ExecStep>, i: nat)
    requires ExecInit(e) && ExecCanRun(d, e, steps) && ExecGapFree(d, e, steps)
    requires i < |ExecAfter(d, e, steps).slots|
    ensures var t := ExecAfter(d, e, steps);
            Deliverable(t.slots[i]) ==> i in t.ready || Popped(i) in t.workers || Inside(i, t.slots[i].owner) in t.workers
  {
    ExecInitInv(e);
    AllStayAwake(d, e, steps);
    StaysMannedRun(d, e, steps);
    var t := ExecAfter(d, e, steps);
    var s := t.slots[i];
    assert Awake(s);
    assert TalliesFit(s.sched, i, t.ready, t.workers);
    CountPositive(t.ready, i);
    CountPositive(t.workers, Popped(i));
  }

  // ---- first come, first served ---------------------------------------------------------------

  function Fetches(steps: seq<ExecStep>): nat {
    if steps == [] then 0 else (if steps[0].Fetch? then 1 else 0) + Fetches(steps[1..])
  }

  lemma ReadyGrows(e: Exec, step: ExecStep)
    requires ExecEnabled(e, step)
    ensures if step.Fetch? then ExecNext(e, step).ready == e.ready[1..] else e.ready <= ExecNext(e, step).ready
  {}

  /** The ready queue only ever loses its head to a fetch and grows at its end. */
  lemma {:induction false} ReadyIsFifo(d: Discipline, e: Exec, steps: seq<ExecStep>, p: nat)
    requires ExecCanRun(d, e, steps) && Fetches(steps) <= p < |e.ready|
    ensures p - Fetches(steps) < |ExecAfter(d, e, steps).ready|
    ensures ExecAfter(d, e, steps).ready[p - Fetches(steps)] == e.ready[p]
    decreases |steps|
  {
    if steps != [] {
      var t := ExecNext(e, steps[0]);
      var q := if steps[0].Fetch? then p - 1 else p;
      assert q < |t.ready| && t.ready[q] == e.ready[p] by { ReadyGrows(e, steps[0]); }
      ReadyIsFifo(d, t, steps[1..], q);
    }
  }

  function Started(slots: seq<Slot>): seq<nat> {
    seq(|slots|, i requires 0 <= i < |slots| => |slots[i].flow.consumed|)
  }

  /** The events a worker may still start in its current slice. */
  function CreditOf(w: Worker): nat {
    match w
    case Popped(_) => SLICE
    case Inside(_, Working(left)) => left
    case Inside(_, Calling(_, left)) => left
    case Inside(_, Reacting(_, left)) => left
    case _ => 0
  }

  function Credit(workers: seq<Worker>): seq<nat> {
    seq(|workers|, w requires 0 <= w < |workers| => CreditOf(workers[w]))
  }

  function Potential(e: Exec): nat {
    Sum(Started(e.slots)) + Sum(Credit(e.workers))
  }

  lemma StartedUpdate(slots: seq<Slot>, i: nat, s: Slot)
    requires i < |slots|
    ensures Sum(Started(slots[i := s])) + |slots[i].flow.consumed| == Sum(Started(slots)) + |s.flow.consumed|
  {
    assert Started(slots[i := s]) == Started(slots)[i := |s.flow.consumed|];
    SumUpdate(Started(slots), i, |s.flow.consumed|);
  }

  lemma CreditUpdate(workers: seq<Worker>, w: nat, x: Worker)
    requires w < |workers|
    ensures Sum(Credit(workers[w := x])) + CreditOf(workers[w]) == Sum(Credit(workers)) + CreditOf(x)
  {
    assert Credit(workers[w := x]) == Credit(workers)[w := CreditOf(x)];
    SumUpdate(Credit(workers), w, CreditOf(x));
  }

  /** An owner that starts an event pays for it out of its slice. */
  lemma OwnerPays(s: Slot, k: WorkStep, i: nat)
    requires WorkEnabled(s, k) && IsOwnerStep(k)
    ensures var t := NextWork(s, k);
            |t.flow.consumed| + CreditOf(if t.owner.Away? then Idle else Inside(i, t.owner)) <= |s.flow.consumed| + CreditOf(Inside(i, s.owner))
  {
    if k.React? {}
  }

  lemma FetchPaysForSlice(e: Exec, w: nat)
    requires ExecEnabled(e, Fetch(w))
    ensures Potential(ExecNext(e, Fetch(w))) == Potential(e) + SLICE
  {
    var i := e.ready[0];
    StartedUpdate(e.slots, i, FetchSlot(e.slots[i]));
    CreditUpdate(e.workers, w, Popped(i));
  }

  lemma MovePays(e: Exec, step: ExecStep)
    requires ExecEnabled(e, step) && (step.Enter? || step.Leave?)
    ensures Potential(ExecNext(e, step)) <= Potential(e)
  {
    var i := e.workers[step.w].slot;
    var t := ExecNext(e, step);
    StartedUpdate(e.slots, i, t.slots[i]);
    CreditUpdate(e.workers, step.w, t.workers[step.w]);
  }

  lemma SlicePays(e: Exec, w: nat, k: WorkStep)
    requires ExecEnabled(e, Slice(w, k))
    ensures Potential(ExecNext(e, Slice(w, k))) <= Potential(e)
  {
    var i := e.workers[w].slot;
    var s := e.slots[i].(owner := e.workers[w].phase);
    var t := NextWork(s, k);
    OwnerPays(s, k, i);
    StartedUpdate(e.slots, i, t);
    CreditUpdate(e.workers, w, if t.owner.Away? then Idle else Inside(i, t.owner));
  }

  lemma StepPays(e: Exec, step: ExecStep)
    requires ExecEnabled(e, step)
    ensures Potential(ExecNext(e, step)) <= Potential(e) + (if step.Fetch? then SLICE else 0)
  {
    match step
    case Task(i, n) =>
      StartedUpdate(e.slots, i, NextNet(e.slots[i], n));
    case Call(i, a) =>
      StartedUpdate(e.slots, i, NextApi(e.slots[i], a));
    case Fetch(w) => FetchPaysForSlice(e, w);
    case Enter(w) => MovePays(e, step);
    case Leave(w) => MovePays(e, step);
    case Slice(w, k) => SlicePays(e, w, k);
  }

  lemma {:induction false} RunPays(d: Discipline, e: Exec, steps: seq<ExecStep>)
    requires ExecCanRun(d, e, steps)
    ensures Potential(ExecAfter(d, e, steps)) <= Potential(e) + SLICE * Fetches(steps)
    decreases |steps|
  {
    if steps != [] {
      StepPays(e, steps[0]);
      RunPays(d, ExecNext(e, steps[0]), steps[1..]);
    }
  }

  /**
   * Round robin: the slot at position p is at the head after exactly p fetches, and by then at most
   * eight events per fetch were started anywhere, besides what slices already under way were owed.
   */
  lemma RoundRobinBound(d: Discipline, e: Exec, steps: seq<ExecStep>, p: nat)
    requires ExecCanRun(d, e, steps) && p < |e.ready| && Fetches(steps) == p
    ensures ExecAfter(d, e, steps).ready != [] && ExecAfter(d, e, steps).ready[0] == e.ready[p]
    ensures Sum(Started(ExecAfter(d, e, steps).slots)) <= Sum(Started(e.slots)) + Sum(Credit(e.workers)) + SLICE * p
  {
    ReadyIsFifo(d, e, steps, p);
    RunPays(d, e, steps);
  }
}

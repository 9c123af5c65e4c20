/**
 * The bridge executor: any number of slots, any number of workers with their own program counters,
 * and one first-in first-out ready queue. Every run of it, seen from one slot, is a run of that slot
 * alone; the `running` flag is what keeps two workers out of the same slot.
 */
module Executor {
  import opened Abi
  import opened Bridge
  import opened BridgeSafety
  import opened Counting

  datatype Worker =
    | Idle
    | Popped(slot: nat)
    | Bouncing(slot: nat)
    | Inside(slot: nat, phase: Phase)

  /**
   * The slots' `owner`, `tickets`, `popped` and `bouncing` fields are what ExecInv proves of the
   * workers and the ready queue; no step below reads them.
   */
  datatype Exec = Exec(slots: seq<Slot>, ready: seq<nat>, workers: seq<Worker>)

  datatype ExecStep =
    | Task(i: nat, n: NetStep)        // the network task of request i
    | Call(i: nat, a: ApiStep)        // an API caller
    | Fetch(w: nat)                   // a worker takes the head of the ready queue
    | Enter(w: nat)                   // it tests and sets `running`
    | Leave(w: nat)                   // the loser resets `scheduled`
    | Slice(w: nat, k: WorkStep)      // the owner's next step

  predicate ExecEnabled(e: Exec, step: ExecStep) {
    match step
    case Task(i, n) => i < |e.slots| && NetEnabled(e.slots[i].flow, n)
    case Call(i, a) => i < |e.slots| && ApiEnabled(e.slots[i], a)
    case Fetch(w) => w < |e.workers| && e.workers[w].Idle? && e.ready != [] && e.ready[0] < |e.slots|
    case Enter(w) => w < |e.workers| && e.workers[w].Popped? && e.workers[w].slot < |e.slots|
    case Leave(w) => w < |e.workers| && e.workers[w].Bouncing? && e.workers[w].slot < |e.slots|
    case Slice(w, k) =>
      && w < |e.workers| && e.workers[w].Inside? && e.workers[w].slot < |e.slots|
      && IsOwnerStep(k) && WorkEnabled(e.slots[e.workers[w].slot].(owner := e.workers[w].phase), k)
  }

  /** Scheduling a slot is an append to the ready queue. */
  function Requeue(ready: seq<nat>, i: nat, before: Slot, after: Slot): seq<nat> {
    if after.sched.tickets > before.sched.tickets then ready + [i] else ready
  }

  function Post(e: Exec, i: nat, s: Slot): Exec
    requires i < |e.slots|
  {
    e.(slots := e.slots[i := s], ready := Requeue(e.ready, i, e.slots[i], s))
  }

  function FetchSlot(s: Slot): Slot {
    s.(sched := s.sched.(tickets := if s.sched.tickets == 0 then 0 else s.sched.tickets - 1, popped := s.sched.popped + 1))
  }

  /** The test and set of `running`: what the worker does next depends on the flag and nothing else. */
  function EnterSlot(s: Slot): Slot {
    var c := s.sched.(popped := if s.sched.popped == 0 then 0 else s.sched.popped - 1);
    if c.running then s.(sched := c.(bouncing := c.bouncing + 1))
    else s.(sched := c.(running := true, scheduled := false),
            owner := if s.hold.paused then Decided(false) else Working(SLICE))
  }

  function LeaveSlot(s: Slot): Slot {
    s.(sched := s.sched.(scheduled := false, bouncing := if s.sched.bouncing == 0 then 0 else s.sched.bouncing - 1))
  }

  function ExecNext(e: Exec, step: ExecStep): Exec
    requires ExecEnabled(e, step)
  {
    match step
    case Task(i, n) => Post(e, i, NextNet(e.slots[i], n))
    case Call(i, a) => Post(e, i, NextApi(e.slots[i], a))
    case Fetch(w) =>
      var i := e.ready[0];
      Exec(e.slots[i := FetchSlot(e.slots[i])], e.ready[1..], e.workers[w := Popped(i)])
    case Enter(w) =>
      var i := e.workers[w].slot;
      var s := EnterSlot(e.slots[i]);
      Exec(e.slots[i := s], e.ready, e.workers[w := if e.slots[i].sched.running then Bouncing(i) else Inside(i, s.owner)])
    case Leave(w) =>
      var i := e.workers[w].slot;
      Exec(e.slots[i := LeaveSlot(e.slots[i])], e.ready, e.workers[w := Idle])
    case Slice(w, k) =>
      var i := e.workers[w].slot;
      var s := NextWork(e.slots[i].(owner := e.workers[w].phase), k);
      Post(e, i, s).(workers := e.workers[w := if s.owner.Away? then Idle else Inside(i, s.owner)])
  }

  // ---- the refinement -------------------------------------------------------------------------

  /** The slot a step acts on, and the slot-level step it is. */
  function Target(e: Exec, step: ExecStep): nat
    requires ExecEnabled(e, step)
  {
    match step
    case Task(i, _) => i
    case Call(i, _) => i
    case Fetch(_) => e.ready[0]
    case Enter(w) => e.workers[w].slot
    case Leave(w) => e.workers[w].slot
    case Slice(w, _) => e.workers[w].slot
  }

  function Local(step: ExecStep): Step {
    match step
    case Task(_, n) => Net(n)
    case Call(_, a) => Api(a)
    case Fetch(_) => Work(Pop)
    case Enter(_) => Work(Start)
    case Leave(_) => Work(Bounced)
    case Slice(_, k) => Work(k)
  }

  ghost predicate SlotsOk(slots: seq<Slot>) {
    forall i :: 0 <= i < |slots| ==> Inv(slots[i])
  }

  /** Each worker inside a slot is that slot's owner, so no two are inside the same one. */
  ghost predicate Exclusive(slots: seq<Slot>, workers: seq<Worker>) {
    && (forall w :: 0 <= w < |workers| && workers[w].Inside? ==>
          workers[w].slot < |slots| && !workers[w].phase.Away? && slots[workers[w].slot].owner == workers[w].phase)
    && (forall v, w :: 0 <= v < w < |workers| && workers[v].Inside? && workers[w].Inside? ==> workers[v].slot != workers[w].slot)
  }

  predicate TalliesFit(c: Sched, i: nat, ready: seq<nat>, workers: seq<Worker>) {
    c.tickets == Count(ready, i) && c.popped == Count(workers, Popped(i)) && c.bouncing == Count(workers, Bouncing(i))
  }

  /** The slots' counters are the ready queue and the workers. */
  ghost predicate Tallied(slots: seq<Slot>, ready: seq<nat>, workers: seq<Worker>) {
    && (forall i :: 0 <= i < |slots| ==> TalliesFit(slots[i].sched, i, ready, workers))
    && (forall k :: 0 <= k < |ready| ==> ready[k] < |slots|)
    && (forall w :: 0 <= w < |workers| && (workers[w].Popped? || workers[w].Bouncing?) ==> workers[w].slot < |slots|)
  }

  ghost predicate ExecInv(e: Exec) {
    SlotsOk(e.slots) && Exclusive(e.slots, e.workers) && Tallied(e.slots, e.ready, e.workers)
  }

  /** Every step of the executor is one enabled step of one slot, and leaves the others alone. */
  lemma Refines(e: Exec, step: ExecStep)
    requires ExecInv(e) && ExecEnabled(e, step)
    ensures var i := Target(e, step);
            && Enabled(e.slots[i], Local(step))
            && ExecNext(e, step).slots == e.slots[i := Next(e.slots[i], Local(step))]
  {
    match step
    case Task(_, _) =>
    case Call(_, _) =>
    case Fetch(w) => CountPositive(e.ready, e.ready[0]);
    case Enter(w) =>
      CountPositive(e.workers, Popped(e.workers[w].slot));
      assert e.workers[w] == Popped(e.workers[w].slot);
    case Leave(w) =>
      CountPositive(e.workers, Bouncing(e.workers[w].slot));
      assert e.workers[w] == Bouncing(e.workers[w].slot);
    case Slice(w, k) => assert e.slots[e.workers[w].slot].(owner := e.workers[w].phase) == e.slots[e.workers[w].slot];
  }

  lemma SlotsStayOk(e: Exec, step: ExecStep)
    requires ExecInv(e) && ExecEnabled(e, step)
    ensures SlotsOk(ExecNext(e, step).slots)
  {
    Refines(e, step);
    StepKeeps(e.slots[Target(e, step)], Local(step));
  }

  /** Only the owner's own steps, and entering, change a slot's owner. */
  lemma OwnerStays(s: Slot, step: Step)
    requires Enabled(s, step) && !step.Work?
    ensures Next(s, step).owner == s.owner
  {}

  predicate SameCrowd(before: seq<Worker>, after: seq<Worker>, i: nat) {
    Count(after, Popped(i)) == Count(before, Popped(i)) && Count(after, Bouncing(i)) == Count(before, Bouncing(i))
  }

  lemma FitsAfterPost(c: Sched, d: Sched, i: nat, j: nat, ready: seq<nat>, before: seq<Worker>, after: seq<Worker>, again: bool)
    requires TalliesFit(c, j, ready, before) && SameCrowd(before, after, j)
    requires d.popped == c.popped && d.bouncing == c.bouncing
    requires d.tickets == c.tickets + (if again && i == j then 1 else 0)
    ensures TalliesFit(d, j, if again then ready + [i] else ready, after)
  {
  }

  lemma PostTallies(e: Exec, i: nat, s: Slot, workers: seq<Worker>)
    requires Tallied(e.slots, e.ready, e.workers) && i < |e.slots|
    requires e.slots[i].sched.tickets <= s.sched.tickets <= e.slots[i].sched.tickets + 1
    requires s.sched.popped == e.slots[i].sched.popped && s.sched.bouncing == e.slots[i].sched.bouncing
    requires forall j :: 0 <= j < |e.slots| ==> SameCrowd(e.workers, workers, j)
    requires forall w :: 0 <= w < |workers| && (workers[w].Popped? || workers[w].Bouncing?) ==> workers[w].slot < |e.slots|
    ensures Tallied(Post(e, i, s).slots, Post(e, i, s).ready, workers)
  {
    var t := Post(e, i, s);
    var again := s.sched.tickets > e.slots[i].sched.tickets;
    forall j: nat | j < |t.slots|
      ensures TalliesFit(t.slots[j].sched, j, t.ready, workers)
    {
      FitsAfterPost(e.slots[j].sched, t.slots[j].sched, i, j, e.ready, e.workers, workers, again);
    }
  }

  lemma SliceTallies(e: Exec, w: nat, k: WorkStep)
    requires ExecInv(e) && ExecEnabled(e, Slice(w, k))
    ensures var t := ExecNext(e, Slice(w, k)); Tallied(t.slots, t.ready, t.workers)
  {
    Refines(e, Slice(w, k));
    var i := e.workers[w].slot;
    var t := ExecNext(e, Slice(w, k));
    forall j: nat | j < |e.slots|
      ensures SameCrowd(e.workers, t.workers, j)
    {
      CountUpdate(e.workers, w, t.workers[w], Popped(j));
      CountUpdate(e.workers, w, t.workers[w], Bouncing(j));
    }
    PostTallies(e, i, Next(e.slots[i], Work(k)), t.workers);
  }

  lemma FitsAfterMove(c: Sched, d: Sched, j: nat, ready: seq<nat>, workers: seq<Worker>, w: nat, x: Worker)
    requires TalliesFit(c, j, ready, workers) && w < |workers| && !workers[w].Inside?
    requires d.tickets == c.tickets
    requires d.popped == c.popped + (if x == Popped(j) then 1 else 0) - (if workers[w] == Popped(j) then 1 else 0)
    requires d.bouncing == c.bouncing + (if x == Bouncing(j) then 1 else 0) - (if workers[w] == Bouncing(j) then 1 else 0)
    ensures TalliesFit(d, j, ready, workers[w := x])
  {
    CountUpdate(workers, w, x, Popped(j));
    CountUpdate(workers, w, x, Bouncing(j));
  }

  lemma FetchTallies(e: Exec, w: nat)
    requires ExecInv(e) && ExecEnabled(e, Fetch(w))
    ensures var t := ExecNext(e, Fetch(w)); Tallied(t.slots, t.ready, t.workers)
  {
    Refines(e, Fetch(w));
    var t := ExecNext(e, Fetch(w));
    var i := e.ready[0];
    forall j: nat | j < |t.slots|
      ensures TalliesFit(t.slots[j].sched, j, t.ready, t.workers)
    {
      CountTail(e.ready, j);
      assert TalliesFit(e.slots[j].sched, j, e.ready, e.workers);
      var c := e.slots[j].sched.(tickets := Count(t.ready, j));
      FitsAfterMove(c, t.slots[j].sched, j, t.ready, e.workers, w, Popped(i));
    }
  }

  lemma MoveTallies(e: Exec, step: ExecStep)
    requires ExecInv(e) && ExecEnabled(e, step) && (step.Enter? || step.Leave?)
    ensures var t := ExecNext(e, step); Tallied(t.slots, t.ready, t.workers)
  {
    Refines(e, step);
    var t := ExecNext(e, step);
    var w := step.w;
    forall j: nat | j < |t.slots|
      ensures TalliesFit(t.slots[j].sched, j, t.ready, t.workers)
    {
      FitsAfterMove(e.slots[j].sched, t.slots[j].sched, j, e.ready, e.workers, w, t.workers[w]);
    }
  }

  lemma StayTallied(e: Exec, step: ExecStep)
    requires ExecInv(e) && ExecEnabled(e, step)
    ensures var t := ExecNext(e, step); Tallied(t.slots, t.ready, t.workers)
  {
    match step
    case Task(i, n) =>
      PostTallies(e, i, NextNet(e.slots[i], n), e.workers);
    case Call(i, a) =>
      PostTallies(e, i, NextApi(e.slots[i], a), e.workers);
    case Fetch(w) => FetchTallies(e, w);
    case Enter(w) => MoveTallies(e, step);
    case Leave(w) => MoveTallies(e, step);
    case Slice(w, k) => SliceTallies(e, w, k);
  }

  lemma ExclusiveUpdate(slots: seq<Slot>, workers: seq<Worker>, i: nat, s: Slot, w: nat, x: Worker)
    requires Exclusive(slots, workers) && i < |slots| && w < |workers|
    requires x.Inside? ==> x.slot == i && x.phase == s.owner && !s.owner.Away?
    requires workers[w] == Inside(i, slots[i].owner) || s.owner == slots[i].owner || slots[i].owner.Away?
    requires x.Inside? ==> workers[w] == Inside(i, slots[i].owner) || slots[i].owner.Away?
    ensures Exclusive(slots[i := s], workers[w := x])
  {}

  lemma StayExclusive(e: Exec, step: ExecStep)
    requires ExecInv(e) && ExecEnabled(e, step)
    ensures var t := ExecNext(e, step); Exclusive(t.slots, t.workers)
  {
    match step
    case Task(i, n) => OwnerStays(e.slots[i], Net(n));
    case Call(i, a) => OwnerStays(e.slots[i], Api(a));
    case Fetch(w) => ExclusiveUpdate(e.slots, e.workers, e.ready[0], FetchSlot(e.slots[e.ready[0]]), w, Popped(e.ready[0]));
    case Enter(w) =>
      var i, t := e.workers[w].slot, ExecNext(e, step);
      ExclusiveUpdate(e.slots, e.workers, i, t.slots[i], w, t.workers[w]);
    case Leave(w) => ExclusiveUpdate(e.slots, e.workers, e.workers[w].slot, LeaveSlot(e.slots[e.workers[w].slot]), w, Idle);
    case Slice(w, k) =>
      var i, t := e.workers[w].slot, ExecNext(e, step);
      ExclusiveUpdate(e.slots, e.workers, i, t.slots[i], w, t.workers[w]);
  }

  lemma ExecStepKeeps(e: Exec, step: ExecStep)
    requires ExecInv(e) && ExecEnabled(e, step)
    ensures ExecInv(ExecNext(e, step))
  {
    SlotsStayOk(e, step);
    StayTallied(e, step);
    StayExclusive(e, step);
  }

  // ---- runs -----------------------------------------------------------------------------------

  /** Runs that keep the slot-level discipline d at every step. */
  predicate ExecCanRun(d: Discipline, e: Exec, steps: seq<ExecStep>)
    decreases |steps|
  {
    steps == [] ||
    (ExecEnabled(e, steps[0]) && Allowed(d, e.slots[Target(e, steps[0])], Local(steps[0]))
     && ExecCanRun(d, ExecNext(e, steps[0]), steps[1..]))
  }

  function ExecAfter(d: Discipline, e: Exec, steps: seq<ExecStep>): Exec
    requires ExecCanRun(d, e, steps)
    decreases |steps|
  {
    if steps == [] then e else ExecAfter(d, ExecNext(e, steps[0]), steps[1..])
  }

  lemma {:induction false} ExecRunKeeps(d: Discipline, e: Exec, steps: seq<ExecStep>)
    requires ExecInv(e) && ExecCanRun(d, e, steps)
    ensures ExecInv(ExecAfter(d, e, steps))
    decreases |steps|
  {
    if steps != [] {
      ExecStepKeeps(e, steps[0]);
      ExecRunKeeps(d, ExecNext(e, steps[0]), steps[1..]);
    }
  }

  /** Two workers are never inside the same slot: callbacks of one request never overlap. */
  lemma MutualExclusion(d: Discipline, e: Exec, steps: seq<ExecStep>, v: nat, w: nat)
    requires ExecInv(e) && ExecCanRun(d, e, steps)
    requires v < |ExecAfter(d, e, steps).workers| && w < |ExecAfter(d, e, steps).workers| && v != w
    requires ExecAfter(d, e, steps).workers[v].Inside? && ExecAfter(d, e, steps).workers[w].Inside?
    ensures ExecAfter(d, e, steps).workers[v].slot != ExecAfter(d, e, steps).workers[w].slot
  {
    ExecRunKeeps(d, e, steps);
    var t := ExecAfter(d, e, steps);
    if v < w { assert t.workers[v].slot != t.workers[w].slot; } else { assert t.workers[w].slot != t.workers[v].slot; }
  }

  /** The executor as it starts: fresh slots, an empty ready queue, idle workers. */
  ghost predicate ExecInit(e: Exec) {
    && e.ready == []
    && (forall w :: 0 <= w < |e.workers| ==> e.workers[w] == Idle)
    && (forall i :: 0 <= i < |e.slots| ==> e.slots[i] == Init(e.slots[i].capacity, e.slots[i].hasOnChunk))
  }

  lemma {:induction false} NoneOf(workers: seq<Worker>, x: Worker)
    requires forall w :: 0 <= w < |workers| ==> workers[w] != x
    ensures Count(workers, x) == 0
  {
    CountPositive(workers, x);
  }

  lemma ExecInitInv(e: Exec)
    requires ExecInit(e)
    ensures ExecInv(e)
  {
    forall i | 0 <= i < |e.slots|
      ensures Inv(e.slots[i]) && TalliesFit(e.slots[i].sched, i, e.ready, e.workers)
    {
      NoneOf(e.workers, Popped(i));
      NoneOf(e.workers, Bouncing(i));
    }
  }
}

/**
 * What a late Done does to `free`. Its wait for the bridge counter ends although a callback can still begin: exactly when,
 * for one request and for the whole client, and a run from a new client. Module Free proves that the join of the workers,
 * which follows that wait, closes the window before `free` returns.
 */
module ClientGaps {
  import opened Abi
  import opened Counting
  import opened Bridge
  import opened BridgeSafety
  import opened BridgeTheorems
  import opened BridgeWakeups
  import opened BridgeLate
  import opened BridgeGaps
  import opened Client
  import opened ClientTheorems

  ghost predicate ClientReachable(c: Client) {
    exists maxInflight: nat, maxBytes: nat, steps: seq<ClientStep> ::
      ClientCanRun(Any, NewClient(maxInflight, maxBytes), steps) && c == ClientAfter(Any, NewClient(maxInflight, maxBytes), steps)
  }

  // ---- runs of the client and of one slot -----------------------------------------------------

  lemma ClientFirst(c: Client, step: ClientStep, rest: seq<ClientStep>)
    requires ClientEnabled(c, step) && ClientCanRun(Any, ClientNext(c, step), rest)
    ensures ClientCanRun(Any, c, [step] + rest) && ClientAfter(Any, c, [step] + rest) == ClientAfter(Any, ClientNext(c, step), rest)
  {
    assert ([step] + rest)[1..] == rest;
  }

  lemma {:induction false} ClientThen(c: Client, a: seq<ClientStep>, b: seq<ClientStep>)
    requires ClientCanRun(Any, c, a) && ClientCanRun(Any, ClientAfter(Any, c, a), b)
    ensures ClientCanRun(Any, c, a + b) && ClientAfter(Any, c, a + b) == ClientAfter(Any, ClientAfter(Any, c, a), b)
    decreases |a|
  {
    if a == [] {
      assert a + b == b;
    } else {
      ClientThen(ClientNext(c, a[0]), a[1..], b);
      assert (a + b)[1..] == a[1..] + b;
    }
  }

  function Acts(i: nat, steps: seq<Step>): seq<ClientStep> {
    if steps == [] then [] else [Act(i, steps[0])] + Acts(i, steps[1..])
  }

  function WithSlot(c: Client, i: nat, s: Slot): Client
    requires i < |c.calls|
  {
    c.(calls := c.calls[i := c.calls[i].(slot := s)])
  }

  /** Whatever a live slot can do short of OnDone's return, and whatever workers can do to one that is gone, they can do
      inside a client. */
  lemma {:induction false} LiftRun(c: Client, i: nat, steps: seq<Step>)
    requires i < |c.calls| && CanRun(Any, c.calls[i].slot, steps)
    requires if c.calls[i].stage.Live? then Work(DoneReturn) !in steps else c.calls[i].stage.Gone? && ByWorkers(steps)
    ensures ClientCanRun(Any, c, Acts(i, steps))
    ensures ClientAfter(Any, c, Acts(i, steps)) == WithSlot(c, i, After(Any, c.calls[i].slot, steps))
    decreases |steps|
  {
    if steps == [] {
      assert WithSlot(c, i, c.calls[i].slot).calls == c.calls;
    } else {
      var next := ClientNext(c, Act(i, steps[0]));
      assert next == WithSlot(c, i, Next(c.calls[i].slot, steps[0]));
      LiftRun(next, i, steps[1..]);
      ClientFirst(c, Act(i, steps[0]), Acts(i, steps[1..]));
      var last := After(Any, c.calls[i].slot, steps);
      assert WithSlot(next, i, last).calls == WithSlot(c, i, last).calls;
    }
  }

  /** And whatever the client does, each slot goes through a run of its own. */
  lemma {:induction false} SlotRuns(c: Client, i: nat, steps: seq<ClientStep>) returns (run: seq<Step>)
    requires i < |c.calls| && ClientCanRun(Any, c, steps)
    ensures i < |ClientAfter(Any, c, steps).calls|
    ensures CanRun(Any, c.calls[i].slot, run) && After(Any, c.calls[i].slot, run) == ClientAfter(Any, c, steps).calls[i].slot
    decreases |steps|
  {
    if steps == [] {
      run := [];
    } else {
      var rest := SlotRuns(ClientNext(c, steps[0]), i, steps[1..]);
      if steps[0].Act? && steps[0].i == i {
        RunFirst(c.calls[i].slot, steps[0].step, rest);
        run := [steps[0].step] + rest;
      } else {
        run := rest;
      }
    }
  }

  // ---- one request ----------------------------------------------------------------------------

  /** A drained request is about to read done_ready. */
  predicate AboutToFinish(c: Client, i: nat) {
    && i < |c.calls| && c.calls[i].stage.Live?
    && var s := c.calls[i].slot; s.owner.Checked? && s.life.gate.Drain? && s.life.terminal.Some?
  }

  /** A callback of request i begins in this continuation. */
  ghost predicate CallsBack(c: Client, i: nat, more: seq<ClientStep>) {
    && ClientCanRun(Any, c, more) && i < |c.calls| && i < |ClientAfter(Any, c, more).calls|
    && CallsBackAfter(ClientAfter(Any, c, more).calls[i].slot.log, |c.calls[i].slot.log| - 1)
  }

  /** Request i is cleaned up and no longer counted, and then a callback of it begins. */
  ghost predicate Outlives(c: Client, i: nat, first: seq<ClientStep>, more: seq<ClientStep>) {
    && ClientCanRun(Any, c, first)
    && var d := ClientAfter(Any, c, first);
       i < |d.calls| && d.calls[i].stage.Gone? && CallsBack(d, i, more)
  }

  function CleanUp(i: nat): seq<ClientStep> {
    [Advance(i), Advance(i), Advance(i), Advance(i)]
  }

  lemma CleanUpRuns(c: Client, i: nat)
    requires i < |c.calls| && c.calls[i].stage.Reported? && c.calls[i].slot.hold.resuming == 0
    ensures ClientCanRun(Any, c, CleanUp(i))
    ensures var d := ClientAfter(Any, c, CleanUp(i));
            |d.calls| == |c.calls| && d.calls[i] == c.calls[i].(stage := Gone) && d.bridges == Minus(c.bridges, 1)
  {
    var a := ClientNext(c, Advance(i));
    var b := ClientNext(a, Advance(i));
    var d := ClientNext(b, Advance(i));
    var e := ClientNext(d, Advance(i));
    assert e.bridges == Minus(c.bridges, 1) && e.calls[i] == c.calls[i].(stage := Gone);
    assert ClientCanRun(Any, e, []);
    ClientFirst(d, Advance(i), []);
    ClientFirst(b, Advance(i), [Advance(i)] + []);
    ClientFirst(a, Advance(i), [Advance(i)] + ([Advance(i)] + []));
    ClientFirst(c, Advance(i), [Advance(i)] + ([Advance(i)] + ([Advance(i)] + [])));
    assert CleanUp(i) == [Advance(i)] + ([Advance(i)] + ([Advance(i)] + ([Advance(i)] + [])));
  }

  /** Resumes that hold the request's entry of the map store their permits; then the entry can be removed. */
  lemma StoresAndCleanUp(c: Client, i: nat) returns (steps: seq<ClientStep>)
    requires i < |c.calls| && c.calls[i].stage.Reported?
    ensures ClientCanRun(Any, c, steps)
    ensures var d := ClientAfter(Any, c, steps);
            && |d.calls| == |c.calls| && d.calls[i].stage.Gone? && d.bridges == Minus(c.bridges, 1)
            && d.calls[i].slot == c.calls[i].slot.(hold := d.calls[i].slot.hold)
            && d.calls[i].slot.hold.paused == c.calls[i].slot.hold.paused
    decreases c.calls[i].slot.hold.resuming
  {
    if c.calls[i].slot.hold.resuming == 0 {
      CleanUpRuns(c, i);
      steps := CleanUp(i);
    } else {
      var rest := StoresAndCleanUp(ClientNext(c, Act(i, Api(ResumeStore))), i);
      ClientFirst(c, Act(i, Api(ResumeStore)), rest);
      steps := [Act(i, Api(ResumeStore))] + rest;
    }
  }

  /** OnDone returns and the request is cleaned up. */
  lemma DoneAndCleanUp(c: Client, i: nat) returns (steps: seq<ClientStep>)
    requires i < |c.calls| && c.calls[i].stage.Live? && c.calls[i].slot.owner.Finishing?
    ensures ClientCanRun(Any, c, steps)
    ensures var d, s := ClientAfter(Any, c, steps), Next(c.calls[i].slot, Work(DoneReturn));
            && |d.calls| == |c.calls| && d.calls[i].stage.Gone? && d.bridges == Minus(c.bridges, 1)
            && d.calls[i].slot == s.(hold := d.calls[i].slot.hold) && d.calls[i].slot.hold.paused == s.hold.paused
  {
    var next := ClientNext(c, Act(i, Work(DoneReturn)));
    var rest := StoresAndCleanUp(next, i);
    ClientFirst(c, Act(i, Work(DoneReturn)), rest);
    steps := [Act(i, Work(DoneReturn))] + rest;
  }

  /** A request that is gone and still reached by a worker calls back. */
  lemma GoneStillCalls(d: Client, i: nat) returns (more: seq<ClientStep>)
    requires i < |d.calls| && d.calls[i].stage.Gone? && SlotFits(d.calls[i]) && StillCalls(d.calls[i].slot)
    ensures CallsBack(d, i, more)
  {
    var s := d.calls[i].slot;
    var run := CallsInTheEnd(s, |s.log| - 1);
    LiftRun(d, i, run);
    more := Acts(i, run);
  }

  /** After a late Done the event is still there, and so is the worker on its way to it. */
  lemma LateDoneStillCalls(s: Slot, t: Slot)
    requires Inv(s) && s.owner.Checked? && LateDone(s, Work(ReadDone))
    requires t == Next(Next(s, Work(ReadDone)), Work(DoneReturn)).(hold := t.hold) && t.hold.paused == s.hold.paused
    ensures StillCalls(t)
  {}

  lemma OpenDoneOutlives(c: Client, i: nat, s: Slot) returns (first: seq<ClientStep>, more: seq<ClientStep>)
    requires ClientInv(c) && i < |c.calls| && c.calls[i].stage.Live?
    requires Inv(s) && s.owner.Checked? && LateDone(s, Work(ReadDone)) && c.calls[i].slot == Next(s, Work(ReadDone))
    ensures Outlives(c, i, first, more) && ClientAfter(Any, c, first).bridges == Minus(c.bridges, 1)
  {
    first := DoneAndCleanUp(c, i);
    var d := ClientAfter(Any, c, first);
    assert SlotFits(d.calls[i]) by { ClientRunKeeps(Any, c, first); }
    assert StillCalls(d.calls[i].slot) by { LateDoneStillCalls(s, d.calls[i].slot); }
    more := GoneStillCalls(d, i);
  }

  lemma LateDoneOutlives(c: Client, i: nat) returns (first: seq<ClientStep>, more: seq<ClientStep>)
    requires ClientInv(c) && AboutToFinish(c, i) && LateDone(c.calls[i].slot, Work(ReadDone))
    ensures Outlives(ClientNext(c, Act(i, Work(ReadDone))), i, first, more)
    ensures ClientAfter(Any, ClientNext(c, Act(i, Work(ReadDone))), first).bridges == Minus(c.bridges, 1)
  {
    assert SlotFits(c.calls[i]);
    ClientStepKeeps(c, Act(i, Work(ReadDone)));
    first, more := OpenDoneOutlives(ClientNext(c, Act(i, Work(ReadDone))), i, c.calls[i].slot);
  }

  /** A sealed slot stays sealed inside a client. */
  lemma SealedInClient(c: Client, i: nat, base: seq<Mark>, steps: seq<ClientStep>)
    requires i < |c.calls| && Sealed(c.calls[i].slot, base) && ClientCanRun(Any, c, steps)
    ensures i < |ClientAfter(Any, c, steps).calls| && Sealed(ClientAfter(Any, c, steps).calls[i].slot, base)
  {
    var run := SlotRuns(c, i, steps);
    SealedForever(c.calls[i].slot, base, run);
  }

  lemma SealedIsSafe(c: Client, i: nat, base: seq<Mark>, first: seq<ClientStep>, more: seq<ClientStep>)
    requires i < |c.calls| && Sealed(c.calls[i].slot, base)
    ensures !Outlives(c, i, first, more)
  {
    if ClientCanRun(Any, c, first) {
      var d := ClientAfter(Any, c, first);
      SealedInClient(c, i, base, first);
      if ClientCanRun(Any, d, more) { SealedInClient(d, i, base, more); }
    }
  }

  /**
   * The exact condition, for each request of any client: when a drained request reads done_ready, some continuation
   * cleans it up and takes it off the counter, and begins a callback of it after that, if and only if the Done is late.
   */
  lemma CallbackAfterCleanUpIff(c: Client, i: nat)
    requires ClientReachable(c) && AboutToFinish(c, i)
    ensures LateDone(c.calls[i].slot, Work(ReadDone)) <==>
            exists first, more :: Outlives(ClientNext(c, Act(i, Work(ReadDone))), i, first, more)
  {
    ReachableClient(c);
    assert SlotFits(c.calls[i]);
    var s, c1 := c.calls[i].slot, ClientNext(c, Act(i, Work(ReadDone)));
    if LateDone(s, Work(ReadDone)) {
      var first, more := LateDoneOutlives(c, i);
    } else {
      ReadDoneSeals(s);
      forall first, more ensures !Outlives(c1, i, first, more) {
        SealedIsSafe(c1, i, s.log, first, more);
      }
    }
  }

  // ---- when wait_zero returns -----------------------------------------------------------------

  /** Nothing of this client can call back any more. */
  predicate AllSilent(calls: seq<Call>) {
    forall i :: 0 <= i < |calls| && calls[i].stage.Gone? ==> !StillCalls(calls[i].slot)
  }

  /** What is left of a closed client whose counter is zero. */
  ghost predicate AtZero(c: Client) {
    c.closed && AllFit(c.calls) && AllCallsOver(c.calls)
  }

  lemma ActStaysSilent(call: Call, step: Step)
    requires SlotFits(call) && Over(call) && Exposed(call.stage) && Admits(call, step) && Enabled(call.slot, step)
    requires !StillCalls(call.slot)
    ensures step != Work(DoneReturn) && SlotFits(call.(slot := Next(call.slot, step))) && Over(call.(slot := Next(call.slot, step)))
    ensures !StillCalls(Next(call.slot, step))
    ensures Next(call.slot, step).log == call.slot.log || Next(call.slot, step).log == call.slot.log + [Returned]
  {
    StaysSilent(call.slot, step);
    FinishedOnlyByReturn(call.slot, step);
    StepKeeps(call.slot, step);
  }

  /** The log of a request after a step of a silent client. */
  predicate NothingBegan(before: seq<Call>, after: seq<Call>) {
    |after| == |before| && forall i :: 0 <= i < |before| ==>
      after[i].slot.log == before[i].slot.log || after[i].slot.log == before[i].slot.log + [Returned]
  }

  lemma SilentStep(c: Client, step: ClientStep)
    requires AtZero(c) && AllSilent(c.calls) && ClientEnabled(c, step)
    ensures AtZero(ClientNext(c, step)) && AllSilent(ClientNext(c, step).calls)
    ensures NothingBegan(c.calls, ClientNext(c, step).calls)
  {
    if step.Act? { ActStaysSilent(c.calls[step.i], step.step); }
  }

  lemma {:induction false} SilentRun(c: Client, steps: seq<ClientStep>, i: nat, n: int)
    requires AtZero(c) && AllSilent(c.calls) && ClientCanRun(Any, c, steps) && i < |c.calls|
    requires !CallsBackAfter(c.calls[i].slot.log, n)
    ensures i < |ClientAfter(Any, c, steps).calls| && !CallsBackAfter(ClientAfter(Any, c, steps).calls[i].slot.log, n)
    decreases |steps|
  {
    if steps != [] {
      SilentStep(c, steps[0]);
      SilentRun(ClientNext(c, steps[0]), steps[1..], i, n);
    }
  }

  /**
   * The exact condition, for a whole client: when wait_zero returns, some request can still call back if and only if
   * some drained request has an event queued that the caller sees, delivery is not paused, and a worker gets to it.
   */
  lemma CallbackAfterZeroIff(c: Client)
    requires ClientReachable(c) && c.closed && Quiescent(c) && c.bridges == 0
    ensures (exists i: nat, more :: CallsBack(c, i, more)) <==>
            (exists i: nat :: i < |c.calls| && c.calls[i].stage.Gone? && StillCalls(c.calls[i].slot))
  {
    ReachableClient(c);
    AllOver(c);
    if i: nat :| i < |c.calls| && c.calls[i].stage.Gone? && StillCalls(c.calls[i].slot) {
      assert SlotFits(c.calls[i]);
      var more := GoneStillCalls(c, i);
    } else {
      forall i: nat, more ensures !CallsBack(c, i, more) {
        if i < |c.calls| && ClientCanRun(Any, c, more) { SilentRun(c, more, i, |c.calls[i].slot.log| - 1); }
      }
    }
  }

  lemma ReachableClient(c: Client)
    requires ClientReachable(c)
    ensures ClientInv(c)
  {
    var maxInflight: nat, maxBytes: nat, steps: seq<ClientStep> :|
      ClientCanRun(Any, NewClient(maxInflight, maxBytes), steps) && c == ClientAfter(Any, NewClient(maxInflight, maxBytes), steps);
    ClientRunKeeps(Any, NewClient(maxInflight, maxBytes), steps);
  }

  // ---- such a client is reachable -------------------------------------------------------------

  lemma ShapeStep(s: Slot, step: Step)
    requires Enabled(s, step)
    ensures Next(s, step).capacity == s.capacity && Next(s, step).hasOnChunk == s.hasOnChunk
    ensures step == Work(DoneReturn) ==> Next(s, step).life.finished
  {
    match step
    case Net(n) => NetFrame(s, n);
    case Api(a) => ApiFrame(s, a);
    case Work(k) => if k.React? {} else if k.Take? {}
  }

  lemma {:induction false} ShapeStays(s: Slot, steps: seq<Step>)
    requires CanRun(Any, s, steps)
    ensures After(Any, s, steps).capacity == s.capacity && After(Any, s, steps).hasOnChunk == s.hasOnChunk
    ensures !After(Any, s, steps).life.finished ==> Work(DoneReturn) !in steps
    decreases |steps|
  {
    if steps != [] {
      ShapeStep(s, steps[0]);
      ShapeStays(Next(s, steps[0]), steps[1..]);
      if steps[0] == Work(DoneReturn) { FinishedForever(Any, Next(s, steps[0]), steps[1..]); }
      assert steps == [steps[0]] + steps[1..];
    }
  }

  function LiveClient(s: Slot, closed: bool): Client {
    Client([Call(QUEUE_BUDGET, Live, s)], NewLimits(0, 0).(inflight := 1, bytes := QUEUE_BUDGET), 1, {0}, closed)
  }

  /** One request is admitted and live. */
  lemma ReachLive()
    ensures ClientReachable(LiveClient(Init(QUEUE_CAPACITY, true), false))
  {
    var c0 := NewClient(0, 0);
    var c1 := ClientNext(c0, ClientStep.Begin(0, true));
    assert c1.calls == [NewCall(0, true)];
    var c2 := ClientNext(c1, Advance(0));
    var c3 := ClientNext(c2, Advance(0));
    var c4 := ClientNext(c3, Advance(0));
    var c5 := ClientNext(c4, Advance(0));
    assert c5.calls == [Call(QUEUE_BUDGET, Live, Init(QUEUE_CAPACITY, true))];
    assert c5 == LiveClient(Init(QUEUE_CAPACITY, true), false);
    assert ClientCanRun(Any, c5, []);
    ClientFirst(c4, Advance(0), []);
    ClientFirst(c3, Advance(0), [Advance(0)] + []);
    ClientFirst(c2, Advance(0), [Advance(0)] + ([Advance(0)] + []));
    ClientFirst(c1, Advance(0), [Advance(0)] + ([Advance(0)] + ([Advance(0)] + [])));
    ClientFirst(c0, ClientStep.Begin(0, true), [Advance(0)] + ([Advance(0)] + ([Advance(0)] + ([Advance(0)] + []))));
  }

  lemma Continue(c: Client, steps: seq<ClientStep>)
    requires ClientReachable(c) && ClientCanRun(Any, c, steps)
    ensures ClientReachable(ClientAfter(Any, c, steps))
  {
    var maxInflight: nat, maxBytes: nat, before: seq<ClientStep> :|
      ClientCanRun(Any, NewClient(maxInflight, maxBytes), before) && c == ClientAfter(Any, NewClient(maxInflight, maxBytes), before);
    ClientThen(NewClient(maxInflight, maxBytes), before, steps);
  }

  lemma ReachLateClient()
    ensures ClientReachable(LiveClient(LateDrain, false))
  {
    ReachLive();
    ReachLateDrain();
    var capacity: nat, hasOnChunk, steps: seq<Step> :|
      CanRun(Any, Init(capacity, hasOnChunk), steps) && After(Any, Init(capacity, hasOnChunk), steps) == LateDrain;
    ShapeStays(Init(capacity, hasOnChunk), steps);
    var c := LiveClient(Init(QUEUE_CAPACITY, true), false);
    LiftRun(c, 0, steps);
    Continue(c, Acts(0, steps));
  }

  lemma ReachStep(c: Client, step: ClientStep)
    requires ClientReachable(c) && ClientEnabled(c, step)
    ensures ClientReachable(ClientNext(c, step))
  {
    ClientFirst(c, step, []);
    Continue(c, [step] + []);
  }

  /** One drained request, about to open a late Done, in a closed client. */
  lemma ReachLastCall()
    ensures ClientReachable(LiveClient(LateDrain, true)) && ClientInv(LiveClient(LateDrain, true))
    ensures AboutToFinish(LiveClient(LateDrain, true), 0) && LateDone(LateDrain, Work(ReadDone))
  {
    ReachLateClient();
    ReachLateDrain();
    ReachStep(LiveClient(LateDrain, false), Close);
    assert LiveClient(LateDrain, true) == ClientNext(LiveClient(LateDrain, false), Close);
    ReachableClient(LiveClient(LateDrain, true));
  }

  lemma {:induction false} StaysQuiescent(c: Client, steps: seq<ClientStep>)
    requires c.closed && Quiescent(c) && ClientCanRun(Any, c, steps)
    ensures ClientAfter(Any, c, steps).closed && Quiescent(ClientAfter(Any, c, steps))
    decreases |steps|
  {
    if steps != [] { StaysQuiescent(ClientNext(c, steps[0]), steps[1..]); }
  }

  /** From a new client: wait_zero returns, and then, before the workers are joined, a callback begins. */
  lemma CallbackAfterZero()
    ensures exists c: Client, more :: ClientReachable(c) && c.closed && Quiescent(c) && c.bridges == 0 && CallsBack(c, 0, more)
  {
    var c := LiveClient(LateDrain, true);
    ReachLastCall();
    var c1 := ClientNext(c, Act(0, Work(ReadDone)));
    ReachStep(c, Act(0, Work(ReadDone)));
    var first, more := LateDoneOutlives(c, 0);
    Continue(c1, first);
    StaysQuiescent(c1, first);
  }
}

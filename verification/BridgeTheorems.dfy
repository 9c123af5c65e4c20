/** What holds of a request over whole runs of its slot, and where the code's comments promise more. */
module BridgeTheorems {
  import opened Abi
  import opened Bridge
  import opened BridgeSafety
  import opened BridgeTrace

  // ---- runs ---------------------------------------------------------------------------------------

  lemma {:induction false} RunKeeps(d: Discipline, s: Slot, steps: seq<Step>)
    requires Inv(s) && CanRun(d, s, steps)
    ensures Inv(After(d, s, steps)) && (TraceInv(s) ==> TraceInv(After(d, s, steps)))
    ensures !d.Any? && TidyInv(s) ==> TidyInv(After(d, s, steps))
    ensures d.Fresh? && FreshInv(s) ==> FreshInv(After(d, s, steps))
    decreases |steps|
  {
    if steps != [] {
      StepKeeps(s, steps[0]);
      if TraceInv(s) { TraceStepKeeps(s, steps[0]); }
      if !d.Any? && TidyInv(s) { TidyStepKeeps(s, steps[0]); }
      if d.Fresh? && FreshInv(s) { FreshStepKeeps(s, steps[0]); }
      RunKeeps(d, Next(s, steps[0]), steps[1..]);
    }
  }

  lemma InitInv(capacity: nat, hasOnChunk: bool)
    ensures FreshInv(Init(capacity, hasOnChunk)) && TraceInv(Init(capacity, hasOnChunk))
  {}

  lemma ReachableInv(d: Discipline, s: Slot)
    requires Reachable(d, s)
    ensures Inv(s) && TraceInv(s) && (!d.Any? ==> TidyInv(s)) && (d.Fresh? ==> FreshInv(s))
  {
    var capacity: nat, hasOnChunk, steps: seq<Step> :|
      CanRun(d, Init(capacity, hasOnChunk), steps) && After(d, Init(capacity, hasOnChunk), steps) == s;
    InitInv(capacity, hasOnChunk);
    RunKeeps(d, Init(capacity, hasOnChunk), steps);
  }

  lemma {:induction false} RunSnoc(d: Discipline, s: Slot, steps: seq<Step>, step: Step)
    requires CanRun(d, s, steps)
    requires Enabled(After(d, s, steps), step) && Allowed(d, After(d, s, steps), step)
    ensures CanRun(d, s, steps + [step])
    ensures After(d, s, steps + [step]) == Next(After(d, s, steps), step)
    decreases |steps|
  {
    var all := steps + [step];
    if steps == [] {
      assert all[1..] == [];
    } else {
      assert all[0] == steps[0] && all[1..] == steps[1..] + [step];
      RunSnoc(d, Next(s, steps[0]), steps[1..], step);
    }
  }

  lemma ReachableStep(d: Discipline, s: Slot, step: Step)
    requires Reachable(d, s) && Enabled(s, step) && Allowed(d, s, step)
    ensures Reachable(d, Next(s, step))
  {
    var capacity: nat, hasOnChunk, steps: seq<Step> :|
      CanRun(d, Init(capacity, hasOnChunk), steps) && After(d, Init(capacity, hasOnChunk), steps) == s;
    RunSnoc(d, Init(capacity, hasOnChunk), steps, step);
  }

  // ---- the callback trace ---------------------------------------------------------------------

  /**
   * In every interleaving callbacks of one request never overlap, begin once for each event that was handed over and the
   * caller sees, headers first and then chunks, in the order in which the peer sent them, and Done begins at most once
   * and with the settlement that won. In every run that opens no late Done nothing follows Done. LateCallbackIff shows
   * that no more can be had: each late Done can be followed.
   */
  lemma CallbackTrace(d: Discipline, s: Slot)
    requires Reachable(d, s)
    ensures Paired(s.log)
    ensures Begins(s.log) == Visible(s.hasOnChunk, s.flow.consumed) && Shaped(Begins(s.log))
    ensures Dones(s.log) == if s.life.reported.Some? then [s.life.reported.value] else []
    ensures !d.Any? ==> WellFormedTrace(s.log)
  {
    ReachableInv(d, s);
    ConsumedIsShaped(s.flow);
    if !d.Any? { TraceOfInv(s); }
  }

  // ---- body integrity -------------------------------------------------------------------------

  /** The bytes of a response body, in order. */
  function Body(evs: seq<Event>): seq<Byte> {
    if evs == [] then []
    else Body(evs[..|evs| - 1]) + (if evs[|evs| - 1].Chunk? then evs[|evs| - 1].data else [])
  }

  /** The bytes handed to on_chunk. */
  function Delivered(log: seq<Mark>): seq<Byte> {
    if log == [] then []
    else
      var m := log[|log| - 1];
      Delivered(log[..|log| - 1]) + (if m.Begin? && m.ev.Chunk? then m.ev.data else [])
  }

  lemma {:induction false} DeliveredIsBegun(log: seq<Mark>)
    ensures Delivered(log) == Body(Begins(log))
    decreases |log|
  {
    if log != [] {
      var n := |log| - 1;
      DeliveredIsBegun(log[..n]);
      var before := Begins(log[..n]);
      if log[n].Begin? { assert (before + [log[n].ev])[..|before|] == before; } else { assert before + [] == before; }
    }
  }

  /** What the peer sends in a step: the head of the response, and every body frame that has data. */
  function Sends(step: Step): seq<Event> {
    match step
    case Net(n) =>
      (match n
       case Respond(h) => [h]
       case Frame(data) => if data.Some? && data.value != [] then [Chunk(data.value)] else []
       case _ => [])
    case _ => []
  }

  /** What the peer sent in a run, read off its steps alone. */
  function PeerSent(steps: seq<Step>): seq<Event> {
    if steps == [] then [] else Sends(steps[0]) + PeerSent(steps[1..])
  }

  lemma StepReceives(s: Slot, step: Step)
    requires Enabled(s, step)
    ensures Next(s, step).flow.received == s.flow.received + Sends(step)
  {
    match step
    case Net(n) => if n.EndOfBody? {} else if n.Push? {} else {}
    case Api(a) => ApiFrame(s, a);
    case Work(k) => if k.React? {} else if k.Take? {}
  }

  lemma {:induction false} RunReceives(d: Discipline, s: Slot, steps: seq<Step>)
    requires CanRun(d, s, steps)
    ensures After(d, s, steps).flow.received == s.flow.received + PeerSent(steps)
    decreases |steps|
  {
    if steps != [] {
      StepReceives(s, steps[0]);
      RunReceives(d, Next(s, steps[0]), steps[1..]);
    }
  }

  /** The run from a new slot that led here. */
  lemma FromInit(d: Discipline, capacity: nat, hasOnChunk: bool, steps: seq<Step>)
    requires CanRun(d, Init(capacity, hasOnChunk), steps)
    ensures var s := After(d, Init(capacity, hasOnChunk), steps); Reachable(d, s) && s.flow.received == PeerSent(steps)
  {
    RunReceives(d, Init(capacity, hasOnChunk), steps);
  }

  lemma HandedOver(d: Discipline, s: Slot)
    requires Reachable(d, s)
    ensures s.flow.consumed <= s.flow.received
    ensures s.hasOnChunk ==> Delivered(s.log) == Body(s.flow.consumed)
    ensures s.life.reported.Some? && s.life.reported.value.kind == ERR_NONE ==>
              (s.flow.consumed == s.flow.received <==> s.flow.queue == []) && (d.Fresh? ==> s.flow.queue == [])
  {
    ReachableInv(d, s);
    SentIsReceived(s);
    DeliveredIsBegun(s.log);
    if s.life.gate.Drain? { QueueIsRest(s.flow, s.life.gate); }
  }

  /**
   * In every run what was handed over is a prefix of what the peer sent in it, and byte for byte what on_chunk was given.
   * A success reported by Done is the whole response, and on_chunk was given the whole body, if and only if nothing is
   * left in the queue. That is so in every run in which no Done is opened with an event still queued.
   */
  lemma BodyIntegrity(d: Discipline, capacity: nat, hasOnChunk: bool, steps: seq<Step>)
    requires CanRun(d, Init(capacity, hasOnChunk), steps)
    ensures var s := After(d, Init(capacity, hasOnChunk), steps);
            && s.flow.consumed <= PeerSent(steps)
            && (s.hasOnChunk ==> Delivered(s.log) == Body(s.flow.consumed))
            && (s.life.reported.Some? && s.life.reported.value.kind == ERR_NONE ==>
                  && (s.flow.consumed == PeerSent(steps) <==> s.flow.queue == [])
                  && (s.flow.queue == [] && s.hasOnChunk ==> Delivered(s.log) == Body(PeerSent(steps)))
                  && (d.Fresh? ==> s.flow.queue == []))
  {
    FromInit(d, capacity, hasOnChunk, steps);
    HandedOver(d, After(d, Init(capacity, hasOnChunk), steps));
  }

  lemma QueueIsRest(f: Flow, gate: Gate)
    requires Queued(f, gate) && gate.Drain?
    ensures f.consumed == f.received <==> f.queue == []
  {
    assert f.received == f.consumed + f.queue;
    if f.queue == [] { assert f.consumed + f.queue == f.consumed; } else { assert |f.received| > |f.consumed|; }
  }

  lemma SentIsReceived(s: Slot)
    requires Inv(s)
    ensures s.flow.consumed <= s.flow.sent <= s.flow.received
  {}

  /** At every moment of every interleaving, a drained request has handed over or still holds what the peer sent. */
  lemma DrainLosesNothing(capacity: nat, hasOnChunk: bool, steps: seq<Step>)
    requires CanRun(Any, Init(capacity, hasOnChunk), steps)
    ensures var s := After(Any, Init(capacity, hasOnChunk), steps);
            s.life.gate.Drain? ==> s.flow.consumed + s.flow.queue == PeerSent(steps)
  {
    FromInit(Any, capacity, hasOnChunk, steps);
    ReachableInv(Any, After(Any, Init(capacity, hasOnChunk), steps));
  }

  /**
   * The exact condition: when a drained request reads done_ready, the Done it opens reports success, and that covers all
   * the peer sent if and only if the queue is still empty at that moment.
   */
  lemma SuccessIsWholeIff(capacity: nat, hasOnChunk: bool, steps: seq<Step>)
    requires CanRun(Any, Init(capacity, hasOnChunk), steps)
    requires var s := After(Any, Init(capacity, hasOnChunk), steps); s.owner.Checked? && s.life.gate.Drain? && s.life.terminal.Some?
    ensures var s := After(Any, Init(capacity, hasOnChunk), steps);
            && Next(s, Work(ReadDone)).life.reported == s.life.terminal && s.life.terminal.value.kind == ERR_NONE
            && (Next(s, Work(ReadDone)).flow.consumed == PeerSent(steps) <==> !StaleEmptiness(s, Work(ReadDone)))
  {
    var s := After(Any, Init(capacity, hasOnChunk), steps);
    FromInit(Any, capacity, hasOnChunk, steps);
    ReachableInv(Any, s);
    QueueIsRest(s.flow, s.life.gate);
  }

  /** A claim to drain is final, and so is a claim to discard. */
  lemma {:induction false} GateIsFinal(d: Discipline, s: Slot, steps: seq<Step>)
    requires !s.life.gate.Running? && CanRun(d, s, steps)
    ensures After(d, s, steps).life.gate == s.life.gate
    decreases |steps|
  {
    if steps != [] {
      GateIsFinal(d, Next(s, steps[0]), steps[1..]);
    }
  }

  /** Every permit is accounted for, and the queue never outgrows its capacity, settled or not. */
  lemma QueueConservation(d: Discipline, s: Slot)
    requires Reachable(d, s)
    ensures |s.flow.queue| + s.flow.permits + Held(s.flow.producer) == s.capacity + (if s.life.doneReady then 1 else 0)
    ensures |s.flow.queue| <= s.capacity
  {
    ReachableInv(d, s);
  }

  /** Until the network task queues the headers nothing was queued or handed over: a retry is invisible. */
  lemma UncommittedUntilHeaders(d: Discipline, s: Slot)
    requires Reachable(d, s) && s.flow.producer == Fetching(false)
    ensures !s.flow.committed && s.flow.sent == [] && s.flow.consumed == []
  {
    ReachableInv(d, s);
  }

  // ---- exactly when a callback can follow Done --------------------------------------------------

  /** A callback begins after mark n of the log. */
  predicate CallsBackAfter(log: seq<Mark>, n: int) {
    exists j :: 0 <= j < |log| && n < j && log[j].Begin?
  }

  /** Done was opened with this log before it, and no callback has begun or will begin since. */
  predicate Sealed(s: Slot, base: seq<Mark>) {
    && Inv(s) && s.life.gate.Drain? && s.life.reported.Some? && Tailed(s)
    && (!s.life.finished ==> s.owner.Finishing?)
    && s.log == base + [BeginDone(s.life.reported.value)] + if s.life.finished then [DoneReturned] else []
  }

  lemma SealedWork(s: Slot, base: seq<Mark>, step: WorkStep)
    requires Sealed(s, base) && WorkEnabled(s, step) && Inv(NextWork(s, step))
    ensures Sealed(NextWork(s, step), base)
  {
    match step
    case Take =>
      if s.flow.queue != [] && Hidden(s.hasOnChunk, s.flow.queue) { assert !IsVisible(s.hasOnChunk, s.flow.queue[0]); }
    case React => assert s.owner.action == Continue;
    case _ =>
  }

  lemma SealedStep(s: Slot, base: seq<Mark>, step: Step)
    requires Sealed(s, base) && Enabled(s, step)
    ensures Sealed(Next(s, step), base)
  {
    StepKeeps(s, step);
    match step
    case Net(n) => NetFrame(s, n);
    case Api(a) => ApiFrame(s, a);
    case Work(k) => SealedWork(s, base, k);
  }

  lemma {:induction false} SealedForever(s: Slot, base: seq<Mark>, steps: seq<Step>)
    requires Sealed(s, base) && CanRun(Any, s, steps)
    ensures Sealed(After(Any, s, steps), base)
    decreases |steps|
  {
    if steps != [] {
      SealedStep(s, base, steps[0]);
      SealedForever(Next(s, steps[0]), base, steps[1..]);
    }
  }

  lemma ReadDoneSeals(s: Slot)
    requires Inv(s) && s.owner.Checked? && s.life.gate.Drain? && s.life.terminal.Some? && !LateDone(s, Work(ReadDone))
    ensures Sealed(Next(s, Work(ReadDone)), s.log)
  {
    StepKeeps(s, Work(ReadDone));
    if s.flow.queue != [] && !IsVisible(s.hasOnChunk, s.flow.queue[0]) { HeadHidesRest(s); }
  }

  lemma RunFirst(s: Slot, step: Step, rest: seq<Step>)
    requires Enabled(s, step) && CanRun(Any, Next(s, step), rest)
    ensures CanRun(Any, s, [step] + rest) && After(Any, s, [step] + rest) == After(Any, Next(s, step), rest)
  {
    assert ([step] + rest)[1..] == rest;
  }

  /** A callback begins after mark n in this continuation. */
  ghost predicate FollowsDone(s: Slot, n: int, steps: seq<Step>) {
    CanRun(Any, s, steps) && CallsBackAfter(After(Any, s, steps).log, n)
  }

  /** Nothing on the way to a callback looks at the finished flag. */
  lemma ArrivalCallsBack(s: Slot, n: int) returns (steps: seq<Step>)
    requires s.owner.Away? && !s.sched.running && Coming(s.sched) && !s.hold.paused && n < |s.log|
    requires !s.life.gate.Discard? && s.flow.queue != [] && IsVisible(s.hasOnChunk, s.flow.queue[0])
    ensures FollowsDone(s, n, steps) && forall k :: 0 <= k < |steps| ==> steps[k].Work? && !steps[k].k.DoneReturn?
    decreases if s.sched.popped > 0 then 0 else 1
  {
    if s.sched.popped == 0 {
      var rest := ArrivalCallsBack(Next(s, Work(Pop)), n);
      RunFirst(s, Work(Pop), rest);
      steps := [Work(Pop)] + rest;
    } else {
      var t := Next(s, Work(Start));
      var u := Next(t, Work(Take));
      assert u.log == s.log + [Begin(s.flow.queue[0])] && u.log[|s.log|].Begin?;
      assert CanRun(Any, u, []);
      RunFirst(t, Work(Take), []);
      RunFirst(s, Work(Start), [Work(Take)] + []);
      steps := [Work(Start)] + ([Work(Take)] + []);
    }
  }

  /** The late run: Done returns, the owner leaves, the worker on its way takes the event. */
  lemma LateDoneIsFollowed(s: Slot) returns (steps: seq<Step>)
    requires Inv(s) && s.owner.Checked? && LateDone(s, Work(ReadDone))
    ensures FollowsDone(Next(s, Work(ReadDone)), |s.log|, steps)
  {
    var t := Next(s, Work(ReadDone));
    var u := Next(t, Work(DoneReturn));
    var v := Next(u, Work(Release));
    assert v.sched == s.sched.(running := false) && v.flow == s.flow && v.hold == s.hold;
    var rest := ArrivalCallsBack(v, |s.log|);
    RunFirst(u, Work(Release), rest);
    RunFirst(t, Work(DoneReturn), [Work(Release)] + rest);
    steps := [Work(DoneReturn)] + ([Work(Release)] + rest);
  }

  /**
   * The exact condition: when a drained request reads done_ready, some continuation lets a callback begin after the
   * Done it opens if and only if an event the caller sees is queued by then and a worker is on its way to it.
   */
  lemma LateCallbackIff(s: Slot)
    requires Reachable(Any, s) && s.owner.Checked? && s.life.gate.Drain? && s.life.terminal.Some?
    ensures LateDone(s, Work(ReadDone)) <==> exists steps :: FollowsDone(Next(s, Work(ReadDone)), |s.log|, steps)
  {
    ReachableInv(Any, s);
    var t := Next(s, Work(ReadDone));
    if LateDone(s, Work(ReadDone)) {
      var steps := LateDoneIsFollowed(s);
    } else {
      ReadDoneSeals(s);
      forall steps | CanRun(Any, t, steps) ensures !FollowsDone(t, |s.log|, steps) {
        SealedForever(t, s.log, steps);
      }
    }
  }
}

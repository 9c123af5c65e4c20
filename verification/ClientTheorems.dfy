/** Admission never overshoots, and when the wait of `free` ends every request is over. */
module ClientTheorems {
  import opened Abi
  import opened Counting
  import opened Bridge
  import opened BridgeSafety
  import opened BridgeTheorems
  import opened Client

  predicate ClientCanRun(d: Discipline, c: Client, steps: seq<ClientStep>)
    decreases |steps|
  {
    steps == [] ||
    (ClientEnabled(c, steps[0]) && ClientAllowed(d, c, steps[0]) && ClientCanRun(d, ClientNext(c, steps[0]), steps[1..]))
  }

  function ClientAfter(d: Discipline, c: Client, steps: seq<ClientStep>): Client
    requires ClientCanRun(d, c, steps)
    decreases |steps|
  {
    if steps == [] then c else ClientAfter(d, ClientNext(c, steps[0]), steps[1..])
  }

  lemma {:induction false} ClientRunKeeps(d: Discipline, c: Client, steps: seq<ClientStep>)
    requires ClientInv(c) && ClientCanRun(d, c, steps)
    ensures ClientInv(ClientAfter(d, c, steps))
    ensures ClientAfter(d, c, steps).limits.maxInflight == c.limits.maxInflight
    ensures ClientAfter(d, c, steps).limits.maxBytes == c.limits.maxBytes
    decreases |steps|
  {
    if steps != [] {
      ClientStepKeeps(c, steps[0]);
      CeilingsStay(c, steps[0]);
      ClientRunKeeps(d, ClientNext(c, steps[0]), steps[1..]);
    }
  }

  lemma CeilingsStay(c: Client, step: ClientStep)
    requires ClientEnabled(c, step)
    ensures ClientNext(c, step).limits.maxInflight == c.limits.maxInflight
    ensures ClientNext(c, step).limits.maxBytes == c.limits.maxBytes
  {}

  // ---- admission ------------------------------------------------------------------------------

  function InTransitOf(c: Call): nat {
    if c.stage.OverInflight? then 1 else 0
  }

  function BytesInTransitOf(c: Call): nat {
    if c.stage.OverBytes? then c.bytes else 0
  }

  lemma {:induction false} TallySplits(calls: seq<Call>, f: Call -> nat, g: Call -> nat, h: Call -> nat)
    requires forall i :: 0 <= i < |calls| ==> f(calls[i]) == g(calls[i]) + h(calls[i])
    ensures Tally(calls, f) == Tally(calls, g) + Tally(calls, h)
    decreases |calls|
  {
    if calls != [] {
      var n := |calls| - 1;
      TallySplits(calls[..n], f, g, h);
      assert calls == calls[..n] + [calls[n]];
      TallyAppend(calls[..n], calls[n], f);
      TallyAppend(calls[..n], calls[n], g);
      TallyAppend(calls[..n], calls[n], h);
    }
  }

  /**
   * With any number of callers between the two additions and their roll-backs: what was admitted
   * never passes either ceiling, and each counter is what was admitted plus what is in transit.
   */
  lemma AdmissionIsBounded(d: Discipline, maxInflight: nat, maxBytes: nat, steps: seq<ClientStep>)
    requires ClientCanRun(d, NewClient(maxInflight, maxBytes), steps)
    ensures var c := ClientAfter(d, NewClient(maxInflight, maxBytes), steps);
            && Tally(c.calls, AdmittedOf) <= c.limits.maxInflight
            && Tally(c.calls, HeldOf) <= c.limits.maxBytes
            && c.limits.inflight == Tally(c.calls, AdmittedOf) + Tally(c.calls, InTransitOf)
            && c.limits.bytes == Tally(c.calls, HeldOf) + Tally(c.calls, BytesInTransitOf)
  {
    ClientRunKeeps(d, NewClient(maxInflight, maxBytes), steps);
    var c := ClientAfter(d, NewClient(maxInflight, maxBytes), steps);
    TransitSplits(c.calls);
  }

  lemma TransitSplits(calls: seq<Call>)
    ensures Tally(calls, InflightOf) == Tally(calls, AdmittedOf) + Tally(calls, InTransitOf)
    ensures Tally(calls, BytesOf) == Tally(calls, HeldOf) + Tally(calls, BytesInTransitOf)
  {
    TallySplits(calls, InflightOf, AdmittedOf, InTransitOf);
    TallySplits(calls, BytesOf, HeldOf, BytesInTransitOf);
  }

  /** What a step makes a new call ask for: its own body and a full queue of eight chunks of 64 KiB. */
  function AsksFor(step: ClientStep): seq<nat> {
    if step.Begin? then [step.body + 8 * 65536] else []
  }

  /** What the calls of a run ask for, in order, read off its steps alone. */
  function AskedFor(steps: seq<ClientStep>): seq<nat> {
    if steps == [] then [] else AsksFor(steps[0]) + AskedFor(steps[1..])
  }

  function Sizes(calls: seq<Call>): (r: seq<nat>)
    ensures |r| == |calls| && forall i :: 0 <= i < |calls| ==> r[i] == calls[i].bytes
  {
    seq(|calls|, i requires 0 <= i < |calls| => calls[i].bytes)
  }

  lemma StepAsks(c: Client, step: ClientStep)
    requires ClientEnabled(c, step)
    ensures Sizes(ClientNext(c, step).calls) == Sizes(c.calls) + AsksFor(step)
  {}

  lemma {:induction false} RunAsks(d: Discipline, c: Client, steps: seq<ClientStep>)
    requires ClientCanRun(d, c, steps)
    ensures Sizes(ClientAfter(d, c, steps).calls) == Sizes(c.calls) + AskedFor(steps)
    decreases |steps|
  {
    if steps != [] {
      StepAsks(c, steps[0]);
      RunAsks(d, ClientNext(c, steps[0]), steps[1..]);
    }
  }

  /** Each call reserves its own body and a full queue, and no reservation that is held passes the byte ceiling. */
  lemma ReservationCoversBody(d: Discipline, maxInflight: nat, maxBytes: nat, steps: seq<ClientStep>)
    requires ClientCanRun(d, NewClient(maxInflight, maxBytes), steps)
    ensures var c := ClientAfter(d, NewClient(maxInflight, maxBytes), steps);
            && |c.calls| == |AskedFor(steps)|
            && (forall i :: 0 <= i < |c.calls| ==> c.calls[i].bytes == AskedFor(steps)[i])
            && (forall i :: 0 <= i < |c.calls| && HoldsReservation(c.calls[i].stage) ==> AskedFor(steps)[i] <= c.limits.maxBytes)
  {
    var c := ClientAfter(d, NewClient(maxInflight, maxBytes), steps);
    RunAsks(d, NewClient(maxInflight, maxBytes), steps);
    ClientRunKeeps(d, NewClient(maxInflight, maxBytes), steps);
    assert Sizes(c.calls) == AskedFor(steps);
    forall i | 0 <= i < |c.calls| && HoldsReservation(c.calls[i].stage) ensures c.calls[i].bytes <= c.limits.maxBytes {
      TallyAtLeast(c.calls, i, HeldOf);
    }
  }

  /** A refusal is never spurious while nobody is in transit: it means the ceiling is really reached. */
  lemma RefusalMeansFull(calls: seq<Call>, l: Limits, bridges: nat, i: nat)
    requires Balanced(calls, l, bridges) && i < |calls|
    ensures calls[i].stage.Trying? && Tally(calls, InTransitOf) == 0 ==>
              (NextStage(calls[i], l).OverInflight? <==> Tally(calls, AdmittedOf) == l.maxInflight)
    ensures calls[i].stage.Counted? && Tally(calls, BytesInTransitOf) == 0 ==>
              (NextStage(calls[i], l).OverBytes? <==> Tally(calls, HeldOf) + calls[i].bytes > l.maxBytes)
  {
    TransitSplits(calls);
  }

  lemma {:induction false} HoldersCost(calls: seq<Call>)
    requires forall i :: 0 <= i < |calls| ==> calls[i].bytes >= QUEUE_BUDGET
    ensures Tally(calls, HoldersOf) * QUEUE_BUDGET <= Tally(calls, HeldOf)
    decreases |calls|
  {
    if calls != [] {
      var n := |calls| - 1;
      HoldersCost(calls[..n]);
      assert calls == calls[..n] + [calls[n]];
      TallyAppend(calls[..n], calls[n], HoldersOf);
      TallyAppend(calls[..n], calls[n], HeldOf);
    }
  }

  /** The byte ceiling bites first: by default no more than 128 requests ever hold a reservation. */
  lemma DefaultsAdmitAtMost128(d: Discipline, steps: seq<ClientStep>)
    requires ClientCanRun(d, NewClient(0, 0), steps)
    ensures Tally(ClientAfter(d, NewClient(0, 0), steps).calls, HoldersOf) <= 128
  {
    ClientRunKeeps(d, NewClient(0, 0), steps);
    AtMost128(ClientAfter(d, NewClient(0, 0), steps));
  }

  lemma AtMost128(c: Client)
    requires ClientInv(c) && c.limits.maxBytes == DEFAULT_MAX_BUFFERED_BYTES
    ensures Tally(c.calls, HoldersOf) <= 128
  {
    forall i | 0 <= i < |c.calls| ensures c.calls[i].bytes >= QUEUE_BUDGET { assert SlotFits(c.calls[i]); }
    HoldersCost(c.calls);
  }

  // ---- free -----------------------------------------------------------------------------------

  lemma {:induction false} TallyZero(calls: seq<Call>, f: Call -> nat)
    requires forall i :: 0 <= i < |calls| ==> f(calls[i]) == 0
    ensures Tally(calls, f) == 0
    decreases |calls|
  {
    if calls != [] {
      var n := |calls| - 1;
      TallyZero(calls[..n], f);
      assert calls == calls[..n] + [calls[n]];
      TallyAppend(calls[..n], calls[n], f);
    }
  }

  /** A request counts from before it can call back until after its OnDone has returned and it was cleaned up. */
  lemma CounterCoversCallbacks(d: Discipline, maxInflight: nat, maxBytes: nat, steps: seq<ClientStep>, i: nat)
    requires ClientCanRun(d, NewClient(maxInflight, maxBytes), steps)
    requires i < |ClientAfter(d, NewClient(maxInflight, maxBytes), steps).calls|
    ensures var c := ClientAfter(d, NewClient(maxInflight, maxBytes), steps);
            && c.bridges == Tally(c.calls, BridgeOf)
            && (c.calls[i].slot.log != [] && !c.calls[i].slot.life.finished ==> BridgeOf(c.calls[i]) == 1 && c.bridges > 0)
  {
    ClientRunKeeps(d, NewClient(maxInflight, maxBytes), steps);
    var c := ClientAfter(d, NewClient(maxInflight, maxBytes), steps);
    assert SlotFits(c.calls[i]);
    TallyAtLeast(c.calls, i, BridgeOf);
  }

  /** No caller is inside send; `free` requires exclusive ownership. */
  ghost predicate Quiescent(c: Client) {
    forall i :: 0 <= i < |c.calls| ==> !SendsMore(c.calls[i].stage)
  }

  predicate Over(call: Call) {
    call.stage.Refused? || (call.stage.Gone? && call.slot.life.finished)
  }

  /** When wait_zero returns, every request is refused or over and every counter is back at zero. */
  lemma FreeFindsNothing(d: Discipline, maxInflight: nat, maxBytes: nat, steps: seq<ClientStep>)
    requires ClientCanRun(d, NewClient(maxInflight, maxBytes), steps)
    requires Quiescent(ClientAfter(d, NewClient(maxInflight, maxBytes), steps))
    requires ClientAfter(d, NewClient(maxInflight, maxBytes), steps).bridges == 0
    ensures var c := ClientAfter(d, NewClient(maxInflight, maxBytes), steps);
            && c.requests == {} && c.limits.inflight == 0 && c.limits.bytes == 0
            && AllCallsOver(c.calls)
  {
    ClientRunKeeps(d, NewClient(maxInflight, maxBytes), steps);
    var c := ClientAfter(d, NewClient(maxInflight, maxBytes), steps);
    AllOver(c);
  }

  lemma AllOver(c: Client)
    requires ClientInv(c) && Quiescent(c) && c.bridges == 0
    ensures c.requests == {} && c.limits.inflight == 0 && c.limits.bytes == 0
    ensures AllCallsOver(c.calls)
  {
    forall i | 0 <= i < |c.calls|
      ensures Over(c.calls[i]) && InflightOf(c.calls[i]) == 0 && BytesOf(c.calls[i]) == 0 && !InMap(c.calls[i].stage)
    {
      TallyAtLeast(c.calls, i, BridgeOf);
      assert SlotFits(c.calls[i]);
    }
    TallyZero(c.calls, InflightOf);
    TallyZero(c.calls, BytesOf);
  }

  /** After Done, in a tidy slot, nothing the caller sees begins or returns. */
  lemma FinishedWorkIsSilent(s: Slot, step: WorkStep)
    requires TidyInv(s) && s.life.finished && WorkEnabled(s, step)
    ensures NextWork(s, step).log == s.log
  {
    if step.Take? {} else if step.React? {}
  }

  lemma FinishedIsSilent(s: Slot, step: Step)
    requires TidyInv(s) && s.life.finished && Enabled(s, step)
    ensures Next(s, step).log == s.log && !LateDone(s, step)
  {
    match step
    case Net(n) =>
    case Api(a) =>
    case Work(k) => FinishedWorkIsSilent(s, k);
  }

  predicate AllTidy(calls: seq<Call>) {
    forall i :: 0 <= i < |calls| ==> TidyInv(calls[i].slot)
  }

  lemma {:induction false} TidyRunStaysTidy(d: Discipline, c: Client, steps: seq<ClientStep>)
    requires !d.Any? && AllTidy(c.calls) && ClientCanRun(d, c, steps)
    ensures AllTidy(ClientAfter(d, c, steps).calls)
    decreases |steps|
  {
    if steps != [] {
      TidyStays(d, c, steps[0]);
      TidyRunStaysTidy(d, ClientNext(c, steps[0]), steps[1..]);
    }
  }

  lemma TidyStays(d: Discipline, c: Client, step: ClientStep)
    requires !d.Any? && AllTidy(c.calls) && ClientEnabled(c, step) && ClientAllowed(d, c, step)
    ensures AllTidy(ClientNext(c, step).calls)
  {
    if step.Act? {
      TidyStepKeeps(c.calls[step.i].slot, step.step);
    } else if step.Begin? {
      InitInv(QUEUE_CAPACITY, step.hasOnChunk);
    }
  }

  predicate AllCallsOver(calls: seq<Call>) {
    forall i :: 0 <= i < |calls| ==> Over(calls[i])
  }

  predicate SameLogs(a: seq<Call>, b: seq<Call>) {
    |a| == |b| && forall i :: 0 <= i < |a| ==> a[i].slot.log == b[i].slot.log
  }

  /** Once a closed client has nothing left, only workers and tasks can still act, and none of them calls back. */
  lemma {:induction false} OverIsSilent(c: Client, steps: seq<ClientStep>)
    requires c.closed && ClientInv(c) && AllTidy(c.calls) && AllCallsOver(c.calls)
    requires ClientCanRun(Any, c, steps)
    ensures SameLogs(ClientAfter(Any, c, steps).calls, c.calls)
    decreases |steps|
  {
    if steps != [] {
      var next := ClientNext(c, steps[0]);
      ClientStepKeeps(c, steps[0]);
      OverStep(c, steps[0]);
      OverIsSilent(next, steps[1..]);
    }
  }

  lemma OverStep(c: Client, step: ClientStep)
    requires AllFit(c.calls) && AllTidy(c.calls) && AllCallsOver(c.calls)
    requires c.closed && ClientEnabled(c, step)
    ensures ClientNext(c, step).closed
    ensures AllTidy(ClientNext(c, step).calls) && AllCallsOver(ClientNext(c, step).calls) && SameLogs(ClientNext(c, step).calls, c.calls)
  {
    if step.Act? { OverActs(c.calls[step.i], step.step); }
  }

  lemma OverActs(call: Call, step: Step)
    requires SlotFits(call) && TidyInv(call.slot) && Over(call) && Exposed(call.stage) && Enabled(call.slot, step)
    ensures TidyInv(Next(call.slot, step))
    ensures Next(call.slot, step).log == call.slot.log
    ensures step != Work(DoneReturn) && Next(call.slot, step).life.finished
  {
    FinishedIsSilent(call.slot, step);
    TidyStepKeeps(call.slot, step);
    FinishedOnlyByReturn(call.slot, step);
  }

  /**
   * What wait_zero is for: after every run that opened no late Done, from the moment it returns on a closed client, in
   * every continuation, no callback of any of its requests begins or returns again. After a late Done one can, exactly as
   * ClientGaps.CallbackAfterZeroIff says, until the workers are joined.
   */
  lemma NoCallbackAfterZero(d: Discipline, maxInflight: nat, maxBytes: nat, steps: seq<ClientStep>, more: seq<ClientStep>)
    requires !d.Any? && ClientCanRun(d, NewClient(maxInflight, maxBytes), steps)
    requires var c := ClientAfter(d, NewClient(maxInflight, maxBytes), steps);
             c.closed && Quiescent(c) && c.bridges == 0 && ClientCanRun(Any, c, more)
    ensures var c := ClientAfter(d, NewClient(maxInflight, maxBytes), steps);
            SameLogs(ClientAfter(Any, c, more).calls, c.calls)
  {
    var c := ClientAfter(d, NewClient(maxInflight, maxBytes), steps);
    ClientRunKeeps(d, NewClient(maxInflight, maxBytes), steps);
    TidyRunStaysTidy(d, NewClient(maxInflight, maxBytes), steps);
    AllOver(c);
    OverIsSilent(c, more);
  }
}

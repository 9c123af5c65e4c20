/**
 * The client around its requests: admission by add, check and roll back; the bridge counter; the
 * request map; and `free`. Any number of callers stand between any two of these steps at once. A call
 * that was admitted carries its slot, so "no callback can still run" is about the slots themselves.
 */
module Client {
  import opened Abi
  import opened Counting
  import opened Bridge
  import opened BridgeSafety

  const DEFAULT_MAX_INFLIGHT: nat := 1024
  const DEFAULT_MAX_BUFFERED_BYTES: nat := 64 * 1024 * 1024
  const QUEUE_CAPACITY: nat := 8
  const QUEUE_BUDGET: nat := 8 * 64 * 1024

  /** How far one call of `send` has come, and then its request. */
  datatype Stage =
    | Trying          // past the closed check, with an id
    | OverInflight    // counted itself, found the ceiling reached, has to take it back
    | Counted         // counted itself under the ceiling
    | OverBytes       // added its bytes, found the ceiling passed, has to take both back
    | BytesReturned   // took the bytes back
    | Refused         // RESOURCE_EXHAUSTED
    | Reserved        // holds its reservation
    | Entered         // entered the bridge counter
    | Live            // in the request map
    | Reported        // OnDone has returned, clean-up begins
    | BytesFreed | InflightFreed | Removed
    | Gone            // left the bridge counter

  datatype Call = Call(bytes: nat, stage: Stage, slot: Slot)

  datatype Limits = Limits(maxInflight: nat, maxBytes: nat, inflight: nat, bytes: nat)

  datatype Client = Client(calls: seq<Call>, limits: Limits, bridges: nat, requests: set<nat>, closed: bool)

  /** A ceiling of zero asks for the built-in default. */
  function NewLimits(maxInflight: nat, maxBytes: nat): (l: Limits)
    ensures l.maxInflight > 0 && l.maxBytes > 0 && l.inflight == 0 && l.bytes == 0
    ensures l.maxInflight == if maxInflight != 0 then maxInflight else 1024
    ensures l.maxBytes == if maxBytes != 0 then maxBytes else 67108864
  {
    Limits(if maxInflight == 0 then DEFAULT_MAX_INFLIGHT else maxInflight,
           if maxBytes == 0 then DEFAULT_MAX_BUFFERED_BYTES else maxBytes, 0, 0)
  }

  function NewClient(maxInflight: nat, maxBytes: nat): Client {
    Client([], NewLimits(maxInflight, maxBytes), 0, {}, false)
  }

  datatype ClientStep =
    | Begin(body: nat, hasOnChunk: bool)   // a caller of send gets past the closed check
    | Advance(i: nat)                      // call i takes its next step
    | Act(i: nat, step: Step)              // something happens to the slot of request i
    | Close

  predicate SendsMore(stage: Stage) {
    stage.Trying? || stage.OverInflight? || stage.Counted? || stage.OverBytes? || stage.BytesReturned?
    || stage.Reserved? || stage.Entered?
  }

  predicate CleansUp(stage: Stage) {
    stage.Reported? || stage.BytesFreed? || stage.InflightFreed? || stage.Removed?
  }

  /** The request's callbacks may have been, or are, or were possible. */
  predicate Exposed(stage: Stage) {
    stage.Live? || CleansUp(stage) || stage.Gone?
  }

  predicate InMap(s: Stage) {
    s.Live? || s.Reported? || s.BytesFreed? || s.InflightFreed?
  }

  /**
   * Who can still act on a request's slot: API callers find it through the map; the network task settles it at most
   * once and is over when it drains it; whoever won a settlement publishes it; and the worker that returned from OnDone
   * cleans up before it leaves the slot.
   */
  predicate Admits(call: Call, step: Step) {
    match step
    case Net(_) => true
    case Api(a) => InMap(call.stage) || a.SettlePublish? || (a.SettleClaim? && !call.slot.life.gate.Drain?)
    case Work(k) => k.Release? ==> !CleansUp(call.stage)
  }

  predicate ClientEnabled(c: Client, step: ClientStep) {
    match step
    case Begin(_, _) => !c.closed
    case Advance(i) =>
      && i < |c.calls| && (SendsMore(c.calls[i].stage) || CleansUp(c.calls[i].stage))
      // A resume holds its entry of the map until it has stored its permit.
      && (c.calls[i].stage.InflightFreed? ==> c.calls[i].slot.hold.resuming == 0)
    case Act(i, s) => i < |c.calls| && Exposed(c.calls[i].stage) && Admits(c.calls[i], s) && Enabled(c.calls[i].slot, s)
    case Close => true
  }

  /** The stage a step of the call leads to: the two checks decide, everything else is in line. */
  function NextStage(call: Call, l: Limits): Stage {
    match call.stage
    case Trying => if l.inflight >= l.maxInflight then OverInflight else Counted
    case OverInflight => Refused
    case Counted => if l.bytes + call.bytes > l.maxBytes then OverBytes else Reserved
    case OverBytes => BytesReturned
    case BytesReturned => Refused
    case Reserved => Entered
    case Entered => Live
    case Reported => BytesFreed
    case BytesFreed => InflightFreed
    case InflightFreed => Removed
    case Removed => Gone
    case other => other
  }

  /** fetch_add and fetch_sub of the two counters. */
  function NextLimits(call: Call, l: Limits): Limits {
    match call.stage
    case Trying => l.(inflight := l.inflight + 1)
    case OverInflight => l.(inflight := Minus(l.inflight, 1))
    case Counted => l.(bytes := l.bytes + call.bytes)
    case OverBytes => l.(bytes := Minus(l.bytes, call.bytes))
    case BytesReturned => l.(inflight := Minus(l.inflight, 1))
    case Reported => l.(bytes := Minus(l.bytes, call.bytes))
    case BytesFreed => l.(inflight := Minus(l.inflight, 1))
    case _ => l
  }

  function Minus(a: nat, b: nat): nat {
    if b <= a then a - b else 0
  }

  function NextBridges(stage: Stage, n: nat): nat {
    if stage.Reserved? then n + 1 else if stage.Removed? then Minus(n, 1) else n
  }

  function NextRequests(i: nat, stage: Stage, requests: set<nat>): set<nat> {
    if stage.Entered? then requests + {i} else if stage.InflightFreed? then requests - {i} else requests
  }

  /** The reservation covers the request body and a full queue of 64 KiB chunks. */
  function NewCall(body: nat, hasOnChunk: bool): Call {
    Call(body + QUEUE_BUDGET, Trying, Init(QUEUE_CAPACITY, hasOnChunk))
  }

  function ClientNext(c: Client, step: ClientStep): Client
    requires ClientEnabled(c, step)
  {
    match step
    case Begin(body, hasOnChunk) =>
      c.(calls := c.calls + [NewCall(body, hasOnChunk)])
    case Advance(i) =>
      var call := c.calls[i];
      Client(c.calls[i := call.(stage := NextStage(call, c.limits))], NextLimits(call, c.limits),
             NextBridges(call.stage, c.bridges), NextRequests(i, call.stage, c.requests), c.closed)
    case Act(i, s) =>
      var call := c.calls[i];
      c.(calls := c.calls[i := call.(slot := Next(call.slot, s), stage := if s == Work(DoneReturn) then Reported else call.stage)])
    case Close => c.(closed := true)
  }

  // ---- what the counters count ----------------------------------------------------------------

  function InflightOf(c: Call): nat {
    match c.stage
    case OverInflight => 1
    case Counted => 1
    case OverBytes => 1
    case BytesReturned => 1
    case Reserved => 1
    case Entered => 1
    case Live => 1
    case Reported => 1
    case BytesFreed => 1
    case _ => 0
  }

  /** Counted under the ceiling and not yet given back. */
  function AdmittedOf(c: Call): nat {
    if c.stage.OverInflight? then 0 else InflightOf(c)
  }

  predicate HoldsReservation(s: Stage) {
    s.Reserved? || s.Entered? || s.Live? || s.Reported?
  }

  function HeldOf(c: Call): nat {
    if HoldsReservation(c.stage) then c.bytes else 0
  }

  function BytesOf(c: Call): nat {
    if c.stage.OverBytes? then c.bytes else HeldOf(c)
  }

  function HoldersOf(c: Call): nat {
    if HoldsReservation(c.stage) then 1 else 0
  }

  function BridgeOf(c: Call): nat {
    if c.stage.Entered? || c.stage.Live? || CleansUp(c.stage) then 1 else 0
  }

  function Tally(calls: seq<Call>, f: Call -> nat): nat {
    Sum(seq(|calls|, i requires 0 <= i < |calls| => f(calls[i])))
  }

  lemma TallyUpdate(calls: seq<Call>, i: nat, c: Call, f: Call -> nat)
    requires i < |calls|
    ensures Tally(calls[i := c], f) + f(calls[i]) == Tally(calls, f) + f(c)
  {
    var xs := seq(|calls|, k requires 0 <= k < |calls| => f(calls[k]));
    var t := calls[i := c];
    assert seq(|t|, k requires 0 <= k < |t| => f(t[k])) == xs[i := f(c)];
    SumUpdate(xs, i, f(c));
  }

  lemma TallyAppend(calls: seq<Call>, c: Call, f: Call -> nat)
    ensures Tally(calls + [c], f) == Tally(calls, f) + f(c)
  {
    var xs := seq(|calls|, k requires 0 <= k < |calls| => f(calls[k]));
    var t := calls + [c];
    assert seq(|t|, k requires 0 <= k < |t| => f(t[k])) == xs + [f(c)];
  }

  lemma TallyAtLeast(calls: seq<Call>, i: nat, f: Call -> nat)
    requires i < |calls|
    ensures f(calls[i]) <= Tally(calls, f)
  {
    var xs := seq(|calls|, k requires 0 <= k < |calls| => f(calls[k]));
    SumAtLeast(xs, i);
  }

  lemma {:induction false} SumMonotone(xs: seq<nat>, ys: seq<nat>)
    requires |xs| == |ys| && forall i :: 0 <= i < |xs| ==> xs[i] <= ys[i]
    ensures Sum(xs) <= Sum(ys)
    decreases |xs|
  {
    if xs != [] { SumMonotone(xs[..|xs| - 1], ys[..|ys| - 1]); }
  }

  lemma TallyMonotone(calls: seq<Call>, f: Call -> nat, g: Call -> nat)
    requires forall i :: 0 <= i < |calls| ==> f(calls[i]) <= g(calls[i])
    ensures Tally(calls, f) <= Tally(calls, g)
  {
    SumMonotone(seq(|calls|, i requires 0 <= i < |calls| => f(calls[i])), seq(|calls|, i requires 0 <= i < |calls| => g(calls[i])));
  }

  // ---- the invariant --------------------------------------------------------------------------

  /** Each counter is exactly what admitted requests hold plus what calls in transit have added. */
  ghost predicate Balanced(calls: seq<Call>, l: Limits, bridges: nat) {
    && l.inflight == Tally(calls, InflightOf)
    && l.bytes == Tally(calls, BytesOf)
    && bridges == Tally(calls, BridgeOf)
    && Tally(calls, AdmittedOf) <= l.maxInflight
    && Tally(calls, HeldOf) <= l.maxBytes
  }

  ghost predicate Mapped(calls: seq<Call>, requests: set<nat>) {
    forall i: nat :: i in requests <==> i < |calls| && InMap(calls[i].stage)
  }

  /** Clean-up starts only after OnDone has returned, and OnDone returns only once. */
  predicate SlotFits(c: Call) {
    && Inv(c.slot)
    && c.bytes >= QUEUE_BUDGET
    && (c.stage.Live? ==> !c.slot.life.finished)
    && (CleansUp(c.stage) || c.stage.Gone? ==> c.slot.life.finished)
    && (!Exposed(c.stage) ==> c.slot.log == [] && !c.slot.life.finished && !Coming(c.slot.sched))
  }

  predicate AllFit(calls: seq<Call>) {
    forall i :: 0 <= i < |calls| ==> SlotFits(calls[i])
  }

  ghost predicate ClientInv(c: Client) {
    Balanced(c.calls, c.limits, c.bridges) && Mapped(c.calls, c.requests) && AllFit(c.calls)
  }

  lemma CountersUpdate(calls: seq<Call>, i: nat, c: Call)
    requires i < |calls|
    ensures Tally(calls[i := c], InflightOf) + InflightOf(calls[i]) == Tally(calls, InflightOf) + InflightOf(c)
    ensures Tally(calls[i := c], BytesOf) + BytesOf(calls[i]) == Tally(calls, BytesOf) + BytesOf(c)
    ensures Tally(calls[i := c], BridgeOf) + BridgeOf(calls[i]) == Tally(calls, BridgeOf) + BridgeOf(c)
    ensures Tally(calls[i := c], AdmittedOf) + AdmittedOf(calls[i]) == Tally(calls, AdmittedOf) + AdmittedOf(c)
    ensures Tally(calls[i := c], HeldOf) + HeldOf(calls[i]) == Tally(calls, HeldOf) + HeldOf(c)
    ensures InflightOf(calls[i]) <= Tally(calls, InflightOf)
    ensures BytesOf(calls[i]) <= Tally(calls, BytesOf)
    ensures BridgeOf(calls[i]) <= Tally(calls, BridgeOf)
  {
    TallyUpdate(calls, i, c, InflightOf);
    TallyUpdate(calls, i, c, BytesOf);
    TallyUpdate(calls, i, c, BridgeOf);
    TallyUpdate(calls, i, c, AdmittedOf);
    TallyUpdate(calls, i, c, HeldOf);
    TallyAtLeast(calls, i, InflightOf);
    TallyAtLeast(calls, i, BytesOf);
    TallyAtLeast(calls, i, BridgeOf);
  }

  lemma AdvanceBalances(calls: seq<Call>, l: Limits, bridges: nat, i: nat)
    requires Balanced(calls, l, bridges) && i < |calls|
    ensures var call := calls[i];
            Balanced(calls[i := call.(stage := NextStage(call, l))], NextLimits(call, l), NextBridges(call.stage, bridges))
  {
    var call := calls[i];
    CountersUpdate(calls, i, call.(stage := NextStage(call, l)));
    TallyMonotone(calls, AdmittedOf, InflightOf);
    TallyMonotone(calls, HeldOf, BytesOf);
  }

  lemma ActBalances(calls: seq<Call>, l: Limits, bridges: nat, i: nat, c: Call)
    requires Balanced(calls, l, bridges) && i < |calls| && c.bytes == calls[i].bytes
    requires c.stage == calls[i].stage || (calls[i].stage.Live? && c.stage.Reported?)
    ensures Balanced(calls[i := c], l, bridges)
  {
    CountersUpdate(calls, i, c);
  }

  lemma BeginBalances(calls: seq<Call>, l: Limits, bridges: nat, c: Call)
    requires Balanced(calls, l, bridges) && c.stage.Trying?
    ensures Balanced(calls + [c], l, bridges)
  {
    TallyAppend(calls, c, InflightOf);
    TallyAppend(calls, c, BytesOf);
    TallyAppend(calls, c, BridgeOf);
    TallyAppend(calls, c, AdmittedOf);
    TallyAppend(calls, c, HeldOf);
  }

  lemma FinishedOnlyByReturn(s: Slot, step: Step)
    requires Inv(s) && Enabled(s, step)
    ensures step == Work(DoneReturn) ==> !s.life.finished && Next(s, step).life.finished
    ensures step != Work(DoneReturn) ==> Next(s, step).life.finished == s.life.finished
  {
    match step
    case Net(n) =>
    case Api(a) =>
    case Work(k) => WorkFinishes(s, k);
  }

  lemma WorkFinishes(s: Slot, step: WorkStep)
    requires Owned(s.owner, s.hold, s.sched.running) && Gated(s.life, s.owner) && WorkEnabled(s, step)
    ensures step.DoneReturn? ==> !s.life.finished && NextWork(s, step).life.finished
    ensures !step.DoneReturn? ==> NextWork(s, step).life.finished == s.life.finished
  {
    if step.React? {} else if step.Take? {}
  }

  predicate ClientAllowed(d: Discipline, c: Client, step: ClientStep)
    requires ClientEnabled(c, step)
  {
    step.Act? ==> Allowed(d, c.calls[step.i].slot, step.step)
  }

  lemma ActFits(call: Call, step: Step)
    requires SlotFits(call) && Exposed(call.stage) && Enabled(call.slot, step)
    ensures SlotFits(call.(slot := Next(call.slot, step), stage := if step == Work(DoneReturn) then Reported else call.stage))
    ensures step == Work(DoneReturn) ==> call.stage.Live?
  {
    StepKeeps(call.slot, step);
    FinishedOnlyByReturn(call.slot, step);
  }

  lemma MappedUpdate(calls: seq<Call>, requests: set<nat>, i: nat, c: Call, after: set<nat>)
    requires Mapped(calls, requests) && i < |calls|
    requires after == if InMap(c.stage) then requests + {i} else requests - {i}
    ensures Mapped(calls[i := c], after)
  {}

  lemma ActMaps(calls: seq<Call>, requests: set<nat>, i: nat, c: Call)
    requires Mapped(calls, requests) && i < |calls| && (InMap(c.stage) <==> InMap(calls[i].stage))
    ensures Mapped(calls[i := c], requests)
  {}

  lemma FitsUpdate(calls: seq<Call>, i: nat, c: Call)
    requires AllFit(calls) && i < |calls| && SlotFits(c)
    ensures AllFit(calls[i := c])
  {}

  lemma ActKeeps(c: Client, i: nat, step: Step)
    requires ClientInv(c) && ClientEnabled(c, Act(i, step))
    ensures ClientInv(ClientNext(c, Act(i, step)))
  {
    var call := c.calls[i];
    ActFits(call, step);
    var after := call.(slot := Next(call.slot, step), stage := if step == Work(DoneReturn) then Reported else call.stage);
    FitsUpdate(c.calls, i, after);
    ActMaps(c.calls, c.requests, i, after);
    ActBalances(c.calls, c.limits, c.bridges, i, after);
  }

  lemma AdvanceFits(call: Call, l: Limits)
    requires SlotFits(call) && (SendsMore(call.stage) || CleansUp(call.stage))
    ensures SlotFits(call.(stage := NextStage(call, l)))
  {}

  lemma AdvanceMaps(calls: seq<Call>, requests: set<nat>, l: Limits, i: nat)
    requires Mapped(calls, requests) && i < |calls|
    ensures Mapped(calls[i := calls[i].(stage := NextStage(calls[i], l))], NextRequests(i, calls[i].stage, requests))
  {
    var after := calls[i].(stage := NextStage(calls[i], l));
    MappedUpdate(calls, requests, i, after, if InMap(after.stage) then requests + {i} else requests - {i});
    assert NextRequests(i, calls[i].stage, requests) == if InMap(after.stage) then requests + {i} else requests - {i};
  }

  lemma AdvanceKeeps(c: Client, i: nat)
    requires ClientInv(c) && ClientEnabled(c, Advance(i))
    ensures ClientInv(ClientNext(c, Advance(i)))
  {
    var call := c.calls[i];
    var after := call.(stage := NextStage(call, c.limits));
    AdvanceFits(call, c.limits);
    FitsUpdate(c.calls, i, after);
    AdvanceMaps(c.calls, c.requests, c.limits, i);
    AdvanceBalances(c.calls, c.limits, c.bridges, i);
  }

  lemma BeginKeeps(c: Client, call: Call)
    requires ClientInv(c) && call.stage.Trying? && SlotFits(call)
    ensures ClientInv(c.(calls := c.calls + [call]))
  {
    BeginBalances(c.calls, c.limits, c.bridges, call);
    assert Mapped(c.calls + [call], c.requests);
    assert AllFit(c.calls + [call]);
  }

  lemma FreshCallFits(body: nat, hasOnChunk: bool)
    ensures SlotFits(NewCall(body, hasOnChunk)) && NewCall(body, hasOnChunk).stage.Trying?
  {}

  lemma ClientStepKeeps(c: Client, step: ClientStep)
    requires ClientInv(c) && ClientEnabled(c, step)
    ensures ClientInv(ClientNext(c, step))
  {
    match step
    case Begin(body, hasOnChunk) => FreshCallFits(body, hasOnChunk); BeginKeeps(c, NewCall(body, hasOnChunk));
    case Advance(i) => AdvanceKeeps(c, i);
    case Act(i, s) => ActKeeps(c, i, s);
    case Close =>
  }
}

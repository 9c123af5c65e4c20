/**
 * One request's delivery slot as a transition system: the network task that feeds it, the executor
 * workers that drain it, and API callers (resume, cancel, close, timeouts) that act on it from any
 * thread. At most one worker is past the `running` flag; that this is so for any number of workers
 * with their own program counters is proved in module Executor, which refines this system.
 *
 * A step is one or several accesses of shared state. These gaps between two accesses are kept, so that
 * other threads can act inside them:
 *   - the emptiness test of the queue and the read of `done_ready`  (Look, then ReadDone);
 *   - the end of a callback and the reaction to its result          (Return, then React);
 *   - the decision to end a slice and the release of `running`      (any Decided phase, then Release);
 *   - a losing worker's test of `running` and its reset of `scheduled` (Start, then Bounced);
 *   - an early resume's test of `in_callback` and its store of `permit` (ResumeSee, then ResumeStore);
 *   - a settlement's claim of the gate and its publication          (SettleClaim, then SettlePublish).
 */
module Bridge {
  import opened Abi

  /** Events one slot may deliver before yielding its worker. */
  const SLICE: nat := 8

  datatype Event =
    | Headers(status: nat, version: nat, fields: seq<(seq<Byte>, seq<Byte>)>)
    | Chunk(data: seq<Byte>)

  /** What on_done reports. The log message is left out: the interface says never to branch on it. */
  datatype Terminal = Terminal(kind: int, protocolCode: nat)

  /** RUNNING, TERMINAL_DRAIN and TERMINAL_DISCARD. */
  datatype Gate = Running | Drain | Discard

  datatype Settlement = Settlement(t: Terminal, discard: bool)

  /** What a callback's return value asks for, after headers and chunks are mapped together. */
  datatype Action = Continue | Pause | Cancel

  /** The network task: what it is doing with respect to `EventSink::send`. */
  datatype Producer =
    | Fetching(started: bool)   // outside send; started once the headers were queued
    | Offered(ev: Event)        // in send, past the first terminal check, waiting for room
    | Granted(ev: Event)        // holds one permit of the semaphore
    | Cleared(ev: Event)        // past the second terminal check, about to queue
    | Stopped                   // returned, or aborted

  /** Where the worker that owns the slot stands inside run_slice. */
  datatype Phase =
    | Away
    | Working(left: nat)               // at the head of the delivery loop
    | Calling(ev: Event, left: nat)    // inside on_headers or on_chunk
    | Reacting(action: Action, left: nat)   // the callback has returned, its result is not acted on yet
    | Drained                          // the loop is over: budget spent, or a pop found nothing
    | Checked                          // found the queue empty, has not read done_ready
    | Finishing(t: Terminal)           // inside on_done
    | Decided(more: bool)              // run_owned has returned, `running` still set

  /** Callback invocations as the caller of the library observes them. */
  datatype Mark = Begin(ev: Event) | Returned | BeginDone(t: Terminal) | DoneReturned

  /** The terminal gate: the claim, its publication, and what on_done was told. */
  datatype Life = Life(
    gate: Gate,
    pending: Option<Settlement>,       // claimed, not yet published
    terminal: Option<Terminal>, doneReady: bool,
    reported: Option<Terminal>,        // history: what on_done was told
    finished: bool)

  /** The queue, its semaphore, and the histories of what passed through. */
  datatype Flow = Flow(
    queue: seq<Event>, permits: nat, producer: Producer, committed: bool,
    received: seq<Event>,              // history: everything the peer sent
    sent: seq<Event>,                  // history: everything that was queued
    gone: seq<Event>,                  // history: everything that left the queue
    consumed: seq<Event>)              // history: everything handed to a callback

  datatype Hold = Hold(
    paused: bool, inCallback: bool, permit: bool,
    resuming: nat)                     // resumes that saw in_callback and have not stored the permit

  datatype Sched = Sched(
    scheduled: bool,
    tickets: nat,                      // copies of the slot in the ready queue
    popped: nat,                       // workers that took a ticket and have not tested `running`
    bouncing: nat,                     // workers that saw `running` set and have not left
    running: bool)

  datatype Slot = Slot(capacity: nat, hasOnChunk: bool, life: Life, flow: Flow, hold: Hold, sched: Sched,
                       owner: Phase, log: seq<Mark>)

  /** Steps of the network task. */
  datatype NetStep = Respond(h: Event) | Frame(data: Option<seq<Byte>>) | Acquire | Recheck | Push | EndOfBody | Abort

  /** Steps of API callers, of timeouts, and of whoever won a settlement. */
  datatype ApiStep = SettleClaim(t: Terminal) | SettlePublish | Resume | ResumeSee | ResumeStore

  /** Steps of executor workers; the environment chooses what a callback returns. */
  datatype WorkStep = Pop | Start | Bounced | Take | Return(value: int) | React | Look | ReadDone | DoneReturn | Release

  datatype Step = Net(n: NetStep) | Api(a: ApiStep) | Work(k: WorkStep)

  function Init(capacity: nat, hasOnChunk: bool): Slot {
    Slot(capacity, hasOnChunk,
         Life(Running, None, None, false, None, false),
         Flow([], capacity, Fetching(false), false, [], [], [], []),
         Hold(false, false, false, 0),
         Sched(false, 0, 0, 0, false),
         Away, [])
  }

  // ---- building blocks ------------------------------------------------------------------------

  predicate IsVisible(hasOnChunk: bool, ev: Event) {
    ev.Headers? || hasOnChunk
  }

  /** A pause has no meaning at the headers stage; without on_chunk a chunk has no callback at all. */
  function ActionOf(hasOnChunk: bool, ev: Event, value: int): Action {
    if ev.Headers? then (if value == HEADERS_CANCEL then Cancel else Continue)
    else if !hasOnChunk then Continue
    else if value == CHUNK_CANCEL then Cancel
    else if value == CHUNK_PAUSE then Pause
    else Continue
  }

  const CallbackCancelled := Terminal(ERR_CANCELLED, 0)
  const Completed := Terminal(ERR_NONE, 0)

  function Schedule(c: Sched): Sched {
    if c.scheduled then c else c.(scheduled := true, tickets := c.tickets + 1)
  }

  function Unpause(h: Hold): Hold {
    h.(paused := false)
  }

  function ClaimLife(l: Life, t: Terminal, discard: bool): Life {
    if l.gate.Running? then l.(gate := if discard then Discard else Drain, pending := Some(Settlement(t, discard))) else l
  }

  /**
   * The compare-and-swap of the gate; the winner still owes a Publish. A loser that meant to abort
   * releases a pause and changes nothing else: a drain is never downgraded.
   */
  function Claim(s: Slot, t: Terminal, discard: bool): Slot {
    if s.life.gate.Running? then s.(life := ClaimLife(s.life, t, discard))
    else if discard && s.hold.paused then s.(hold := Unpause(s.hold), sched := Schedule(s.sched))
    else s
  }

  function PublishLife(l: Life): Life
    requires l.pending.Some?
  {
    l.(pending := None, terminal := Some(l.pending.value.t), doneReady := true)
  }

  function AddPermit(f: Flow): Flow {
    f.(permits := f.permits + 1)
  }

  /** Hand over the terminal, unblock a waiting producer, and release a pause only for an abort. */
  function Publish(s: Slot): Slot
    requires s.life.pending.Some?
  {
    s.(life := PublishLife(s.life), flow := AddPermit(s.flow),
       hold := if s.life.pending.value.discard then Unpause(s.hold) else s.hold,
       sched := Schedule(s.sched))
  }

  // ---- the network task -----------------------------------------------------------------------

  predicate NetEnabled(f: Flow, step: NetStep) {
    match step
    case Respond(h) => f.producer == Fetching(false) && h.Headers?
    case Frame(_) => f.producer == Fetching(true)
    case Acquire => f.producer.Offered? && f.permits > 0
    case Recheck => f.producer.Granted?
    case Push => f.producer.Cleared?
    case EndOfBody => f.producer == Fetching(true)
    case Abort => f.producer.Fetching? || f.producer.Offered? || f.producer.Granted?
  }

  function Offer(f: Flow, gate: Gate, ev: Event): Flow {
    f.(received := f.received + [ev], producer := if gate.Running? then Offered(ev) else Stopped)
  }

  function Enqueue(f: Flow): Flow
    requires f.producer.Cleared?
  {
    f.(queue := f.queue + [f.producer.ev], sent := f.sent + [f.producer.ev], committed := true, producer := Fetching(true))
  }

  /** A task that stops while it holds a permit gives it back. */
  function Stop(f: Flow): Flow {
    f.(producer := Stopped, permits := if f.producer.Granted? then f.permits + 1 else f.permits)
  }

  /** What a step of the network task does to the queue; empty and non-data frames are skipped. */
  function NextFlow(f: Flow, gate: Gate, step: NetStep): Flow
    requires NetEnabled(f, step)
  {
    match step
    case Respond(h) => Offer(f, gate, h)
    case Frame(data) => if data.None? || data.value == [] then f else Offer(f, gate, Chunk(data.value))
    case Acquire => f.(permits := f.permits - 1, producer := Granted(f.producer.ev))
    case Recheck => if gate.Running? then f.(producer := Cleared(f.producer.ev)) else Stop(f)
    case Push => Enqueue(f)
    case EndOfBody => Stop(f)
    case Abort => Stop(f)
  }

  function NextNet(s: Slot, step: NetStep): Slot
    requires NetEnabled(s.flow, step)
  {
    var f := NextFlow(s.flow, s.life.gate, step);
    if step.EndOfBody? then s.(flow := f, life := ClaimLife(s.life, Completed, false))
    else if step.Push? && !s.hold.paused then s.(flow := f, sched := Schedule(s.sched))
    else s.(flow := f)
  }

  // ---- API callers ----------------------------------------------------------------------------

  predicate ApiEnabled(s: Slot, step: ApiStep) {
    match step
    case SettleClaim(t) => t.kind != ERR_NONE
    case SettlePublish => s.life.pending.Some?
    case Resume => true
    case ResumeSee => !s.hold.paused && s.hold.inCallback
    case ResumeStore => s.hold.resuming > 0
  }

  function NextResume(s: Slot): Slot {
    if s.hold.paused then s.(hold := Unpause(s.hold), sched := Schedule(s.sched))
    else if s.hold.inCallback then s.(hold := s.hold.(permit := true))
    else s
  }

  function ResumeStatus(s: Slot): int {
    if s.hold.paused || s.hold.inCallback then STATUS_OK
    else if !s.life.gate.Running? then STATUS_ALREADY_DONE
    else STATUS_NOT_PAUSED
  }

  function NextApi(s: Slot, step: ApiStep): Slot
    requires ApiEnabled(s, step)
  {
    match step
    case SettleClaim(t) => Claim(s, t, true)
    case SettlePublish => Publish(s)
    case Resume => NextResume(s)
    case ResumeSee => s.(hold := s.hold.(resuming := s.hold.resuming + 1))
    case ResumeStore => s.(hold := s.hold.(resuming := s.hold.resuming - 1, permit := true))
  }

  // ---- executor workers -----------------------------------------------------------------------

  predicate WorkEnabled(s: Slot, step: WorkStep) {
    match step
    case Pop => s.sched.tickets > 0
    case Start => s.sched.popped > 0
    case Bounced => s.sched.bouncing > 0
    case Take => s.owner.Working?
    case Return(_) => s.owner.Calling?
    case React => s.owner.Reacting?
    case Look => s.owner.Drained?
    case ReadDone => s.owner.Checked?
    case DoneReturn => s.owner.Finishing?
    case Release => s.owner.Decided?
  }

  predicate IsOwnerStep(k: WorkStep) {
    k.Take? || k.Return? || k.React? || k.Look? || k.ReadDone? || k.DoneReturn? || k.Release?
  }

  function NextStart(s: Slot): Slot
    requires s.sched.popped > 0
  {
    var c := s.sched.(popped := s.sched.popped - 1);
    if c.running then s.(sched := c.(bouncing := c.bouncing + 1))
    else s.(sched := c.(running := true, scheduled := false),
            owner := if s.hold.paused then Decided(false) else Working(SLICE))
  }

  function Note(s: Slot, ev: Event, m: Mark): seq<Mark> {
    if IsVisible(s.hasOnChunk, ev) then s.log + [m] else s.log
  }

  /** The head of the queue leaves it and its permit is free at once; a discarded event is only dropped. */
  function Dequeue(f: Flow, deliver: bool): Flow
    requires f.queue != []
  {
    f.(queue := f.queue[1..], permits := f.permits + 1, gone := f.gone + [f.queue[0]],
       consumed := if deliver then f.consumed + [f.queue[0]] else f.consumed)
  }

  /** One head of the delivery loop: pause check, budget, pop, terminal gate, callback. */
  function NextTake(s: Slot): Slot
    requires s.owner.Working?
  {
    if s.hold.paused then s.(owner := Decided(false))
    else if s.owner.left == 0 || s.flow.queue == [] then s.(owner := Drained)
    else if s.life.gate.Discard? then s.(flow := Dequeue(s.flow, false), owner := Working(s.owner.left - 1))
    else s.(flow := Dequeue(s.flow, true), owner := Calling(s.flow.queue[0], s.owner.left - 1),
            hold := s.hold.(inCallback := true), log := Note(s, s.flow.queue[0], Begin(s.flow.queue[0])))
  }

  /** The callback is over for everybody else before its result is looked at. */
  function NextReturn(s: Slot, value: int): Slot
    requires s.owner.Calling?
  {
    s.(hold := s.hold.(inCallback := false), log := Note(s, s.owner.ev, Returned),
       owner := Reacting(ActionOf(s.hasOnChunk, s.owner.ev, value), s.owner.left))
  }

  function AfterCall(s: Slot, paused: bool, phase: Phase): Slot {
    s.(hold := s.hold.(permit := false, paused := s.hold.paused || paused), owner := phase)
  }

  /** A permit consumes the pause; anything but a pause discards the permit. */
  function NextReact(s: Slot): Slot
    requires s.owner.Reacting?
  {
    match s.owner.action
    case Cancel => Claim(AfterCall(s, false, Decided(false)), CallbackCancelled, true)
    case Pause =>
      if s.hold.permit then AfterCall(s, false, Working(s.owner.left)) else AfterCall(s, true, Decided(false))
    case Continue => AfterCall(s, false, Working(s.owner.left))
  }

  function NextReadDone(s: Slot): Slot {
    if s.life.doneReady && s.life.terminal.Some?
    then s.(life := s.life.(terminal := None, reported := s.life.terminal),
            log := s.log + [BeginDone(s.life.terminal.value)], owner := Finishing(s.life.terminal.value))
    else s.(owner := Decided(false))
  }

  /** The executor puts the slot back without setting `scheduled`. */
  function NextRelease(s: Slot): Slot
    requires s.owner.Decided?
  {
    var again := !s.life.finished && (s.owner.more || s.flow.queue != []);
    s.(sched := s.sched.(running := false, tickets := if again then s.sched.tickets + 1 else s.sched.tickets), owner := Away)
  }

  function NextWork(s: Slot, step: WorkStep): Slot
    requires WorkEnabled(s, step)
  {
    match step
    case Pop => s.(sched := s.sched.(tickets := s.sched.tickets - 1, popped := s.sched.popped + 1))
    case Start => NextStart(s)
    case Bounced => s.(sched := s.sched.(scheduled := false, bouncing := s.sched.bouncing - 1))
    case Take => NextTake(s)
    case Return(value) => NextReturn(s, value)
    case React => NextReact(s)
    case Look => s.(owner := if s.flow.queue == [] then Checked else Decided(true))
    case ReadDone => NextReadDone(s)
    case DoneReturn => s.(life := s.life.(finished := true), log := s.log + [DoneReturned], owner := Decided(false))
    case Release => NextRelease(s)
  }

  // ---- runs -----------------------------------------------------------------------------------

  predicate Enabled(s: Slot, step: Step) {
    match step
    case Net(n) => NetEnabled(s.flow, n)
    case Api(a) => ApiEnabled(s, a)
    case Work(k) => WorkEnabled(s, k)
  }

  function Next(s: Slot, step: Step): Slot
    requires Enabled(s, step)
  {
    match step
    case Net(n) => NextNet(s, n)
    case Api(a) => NextApi(s, a)
    case Work(k) => NextWork(s, k)
  }

  /** A copy of the slot is in the ready queue, or with a worker that has not tested `running`. */
  predicate Coming(c: Sched) {
    c.tickets > 0 || c.popped > 0
  }

  /** A drained request reads done_ready although an event was queued since it found the queue empty. */
  predicate StaleEmptiness(s: Slot, step: Step) {
    step == Work(ReadDone) && s.life.gate.Drain? && s.life.terminal.Some? && s.flow.queue != []
  }

  /** And, besides, the caller will see that event, because a worker is on its way to deliver it. */
  predicate LateDone(s: Slot, step: Step) {
    StaleEmptiness(s, step) && IsVisible(s.hasOnChunk, s.flow.queue[0]) && Coming(s.sched)
  }

  /** Which interleavings a run may use. */
  datatype Discipline =
    | Any            // every interleaving of the steps above
    | Tidy           // no Done is opened with a visible event still to come
    | Fresh          // no Done of a drained request is opened with an event still queued

  predicate Allowed(d: Discipline, s: Slot, step: Step) {
    && (d.Tidy? ==> !LateDone(s, step))
    && (d.Fresh? ==> !StaleEmptiness(s, step))
  }

  predicate CanRun(d: Discipline, s: Slot, steps: seq<Step>)
    decreases |steps|
  {
    steps == [] ||
    (Enabled(s, steps[0]) && Allowed(d, s, steps[0]) && CanRun(d, Next(s, steps[0]), steps[1..]))
  }

  function After(d: Discipline, s: Slot, steps: seq<Step>): Slot
    requires CanRun(d, s, steps)
    decreases |steps|
  {
    if steps == [] then s else After(d, Next(s, steps[0]), steps[1..])
  }

  ghost predicate Reachable(d: Discipline, s: Slot) {
    exists capacity: nat, hasOnChunk: bool, steps: seq<Step> ::
      CanRun(d, Init(capacity, hasOnChunk), steps) && After(d, Init(capacity, hasOnChunk), steps) == s
  }
}

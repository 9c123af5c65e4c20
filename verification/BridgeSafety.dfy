/**
 * What every step of a slot keeps: flags agree with the owner's phase, the queue is conserved and in
 * order, one settlement wins, and, unless a late Done is opened, Done is the last callback.
 */
module BridgeSafety {
  import opened Abi
  import opened Bridge

  // ---- vocabulary -----------------------------------------------------------------------------

  /** What a caller sees of a response: everything, or the headers alone when it gave no on_chunk. */
  function Visible(hasOnChunk: bool, evs: seq<Event>): seq<Event> {
    if hasOnChunk || evs == [] then evs else [evs[0]]
  }

  /** Headers first, then non-empty chunks only. */
  predicate Shaped(evs: seq<Event>) {
    && (evs != [] ==> evs[0].Headers?)
    && (forall k :: 1 <= k < |evs| ==> evs[k].Chunk? && evs[k].data != [])
  }

  predicate Follows(evs: seq<Event>, ev: Event) {
    if evs == [] then ev.Headers? else ev.Chunk? && ev.data != []
  }

  function Held(p: Producer): nat {
    if p.Granted? || p.Cleared? then 1 else 0
  }

  predicate KindFits(gate: Gate, t: Terminal) {
    match gate
    case Running => false
    case Drain => t.kind == ERR_NONE
    case Discard => t.kind != ERR_NONE
  }

  // ---- the invariant --------------------------------------------------------------------------

  /** The owner's phase agrees with the flags other threads read. */
  predicate Owned(owner: Phase, hold: Hold, running: bool) {
    && (running <==> !owner.Away?)
    && (hold.inCallback <==> owner.Calling?)
    && (hold.paused ==> owner.Away? || owner.Decided?)
  }

  /** The network task queues headers, then chunks, and loses nothing the peer sent. */
  predicate Producing(f: Flow) {
    && Shaped(f.sent)
    && (f.committed <==> f.sent != [])
    && match f.producer
       case Fetching(started) => f.received == f.sent && (started <==> f.sent != [])
       case Stopped => f.sent <= f.received
       case _ => f.received == f.sent + [f.producer.ev] && Follows(f.sent, f.producer.ev)
  }

  /** First in, first out, nothing repeated; only a discarded request drops what it dequeues. */
  predicate Queued(f: Flow, gate: Gate) {
    && f.gone + f.queue == f.sent
    && f.consumed <= f.gone
    && (!gate.Discard? ==> f.consumed == f.gone)
    && (gate.Drain? ==> f.producer.Stopped? && f.sent == f.received && f.sent != [])
  }

  /** Every permit is free, held by the network task, or stands for a queued event. */
  predicate Conserved(f: Flow, capacity: nat, doneReady: bool) {
    && |f.queue| + f.permits + Held(f.producer) == capacity + (if doneReady then 1 else 0)
    && |f.queue| <= capacity
    && (f.producer.Cleared? ==> |f.queue| < capacity)
  }

  /** One settlement wins, is published once and opens one Done, of the kind its gate promises. */
  predicate Gated(l: Life, owner: Phase) {
    && (l.gate.Running? ==> l.pending.None? && !l.doneReady)
    && (!l.gate.Running? ==> l.pending.Some? != l.doneReady)
    && (l.pending.Some? ==> KindFits(l.gate, l.pending.value.t) && (l.pending.value.discard <==> l.gate.Discard?))
    && (l.terminal.Some? ==> l.doneReady && KindFits(l.gate, l.terminal.value))
    && (l.reported.Some? <==> l.doneReady && l.terminal.None?)
    && (l.reported.Some? ==> KindFits(l.gate, l.reported.value) && (l.finished || owner.Finishing?))
    && (l.finished ==> l.reported.Some?)
    && (owner.Finishing? ==> l.reported == Some(owner.t) && !l.finished)
  }

  predicate Flowing(f: Flow, capacity: nat, gate: Gate, doneReady: bool) {
    Producing(f) && Queued(f, gate) && Conserved(f, capacity, doneReady) && (gate.Running? ==> !doneReady)
  }

  /** Kept by every step of every interleaving. */
  predicate Inv(s: Slot) {
    && Owned(s.owner, s.hold, s.sched.running)
    && Gated(s.life, s.owner)
    && Flowing(s.flow, s.capacity, s.life.gate, s.life.doneReady)
  }

  /** A callback the caller sees is open. */
  predicate Showing(hasOnChunk: bool, owner: Phase) {
    owner.Calling? && IsVisible(hasOnChunk, owner.ev)
  }

  predicate Hidden(hasOnChunk: bool, evs: seq<Event>) {
    forall k :: 0 <= k < |evs| ==> !IsVisible(hasOnChunk, evs[k])
  }

  /** Nobody is left to run a slot whose Done is open or delivered. */
  predicate Deserted(owner: Phase, finished: bool, c: Sched) {
    !Coming(c) && (owner.Finishing? || (finished && (owner.Away? || owner.Decided?)))
  }

  /** After a success was reported the caller sees nothing more: what is queued is invisible or nobody comes for it. */
  predicate Tailed(s: Slot) {
    && (Hidden(s.hasOnChunk, s.flow.queue) || Deserted(s.owner, s.life.finished, s.sched))
    && !s.hold.paused && !Showing(s.hasOnChunk, s.owner)
    && (s.owner.Reacting? ==> s.owner.action == Continue)
  }

  /** Done is the last callback. */
  predicate DoneLast(hasOnChunk: bool, owner: Phase, l: Life, log: seq<Mark>) {
    l.reported.Some? ==>
      !Showing(hasOnChunk, owner) && log != [] && log[|log| - 1] == if l.finished then DoneReturned else BeginDone(l.reported.value)
  }

  /** Kept, besides, by every step that opens no late Done. */
  predicate LogInv(s: Slot) {
    && DoneLast(s.hasOnChunk, s.owner, s.life, s.log)
    && (s.life.gate.Drain? && s.life.reported.Some? ==> Tailed(s))
  }

  predicate TidyInv(s: Slot) {
    Inv(s) && LogInv(s)
  }

  /** A success is the whole body. Kept by every step that reads done_ready while the queue is still empty. */
  predicate Whole(s: Slot) {
    s.life.gate.Drain? && s.life.reported.Some? ==> s.flow.queue == []
  }

  predicate FreshInv(s: Slot) {
    TidyInv(s) && Whole(s)
  }

  // ---- preservation: the queue ----------------------------------------------------------------

  lemma EnqueueKeepsFlow(f: Flow, capacity: nat, gate: Gate, doneReady: bool)
    requires Flowing(f, capacity, gate, doneReady) && f.producer.Cleared?
    ensures Flowing(Enqueue(f), capacity, gate, doneReady)
  {
    assert f.gone + (f.queue + [f.producer.ev]) == (f.gone + f.queue) + [f.producer.ev];
  }

  lemma OfferKeepsFlow(f: Flow, capacity: nat, gate: Gate, doneReady: bool, ev: Event)
    requires Flowing(f, capacity, gate, doneReady) && f.producer.Fetching? && Follows(f.sent, ev)
    ensures Flowing(Offer(f, gate, ev), capacity, gate, doneReady)
  {}

  lemma StopKeepsFlow(f: Flow, capacity: nat, gate: Gate, doneReady: bool)
    requires Flowing(f, capacity, gate, doneReady) && (f.producer.Fetching? || f.producer.Offered? || f.producer.Granted?)
    ensures Flowing(Stop(f), capacity, gate, doneReady)
  {}

  lemma NetKeepsFlow(f: Flow, capacity: nat, gate: Gate, doneReady: bool, step: NetStep)
    requires Flowing(f, capacity, gate, doneReady) && NetEnabled(f, step)
    ensures Flowing(NextFlow(f, gate, step), capacity, gate, doneReady)
  {
    match step
    case Respond(h) => OfferKeepsFlow(f, capacity, gate, doneReady, h);
    case Frame(data) => if data.Some? && data.value != [] { OfferKeepsFlow(f, capacity, gate, doneReady, Chunk(data.value)); }
    case Acquire =>
    case Recheck => if !gate.Running? { StopKeepsFlow(f, capacity, gate, doneReady); }
    case Push => EnqueueKeepsFlow(f, capacity, gate, doneReady);
    case EndOfBody => StopKeepsFlow(f, capacity, gate, doneReady);
    case Abort => StopKeepsFlow(f, capacity, gate, doneReady);
  }

  lemma DequeueKeepsFlow(f: Flow, capacity: nat, gate: Gate, doneReady: bool)
    requires Flowing(f, capacity, gate, doneReady) && f.queue != []
    ensures Flowing(Dequeue(f, !gate.Discard?), capacity, gate, doneReady)
  {
    assert f.gone + [f.queue[0]] + f.queue[1..] == f.gone + f.queue;
  }

  lemma ClosingKeepsFlow(f: Flow, capacity: nat, gate: Gate)
    requires Flowing(f, capacity, gate, false) && f.producer == Fetching(true)
    ensures Flowing(Stop(f), capacity, if gate.Running? then Drain else gate, false)
  {}

  // ---- what a step leaves alone ---------------------------------------------------------------

  /** The network task touches the queue, its own place, and the claim of the gate. */
  lemma NetFrame(s: Slot, step: NetStep)
    requires NetEnabled(s.flow, step)
    ensures var t := NextNet(s, step);
            && t.owner == s.owner && t.hold == s.hold && t.log == s.log && t.hasOnChunk == s.hasOnChunk && t.capacity == s.capacity
            && t.flow.consumed == s.flow.consumed && t.flow.gone == s.flow.gone
            && (step.Push? || t.flow.queue == s.flow.queue)
            && t.life.reported == s.life.reported && t.life.terminal == s.life.terminal && t.life.finished == s.life.finished
  {
    if step.EndOfBody? {} else if step.Push? {} else {}
  }

  /** An API caller touches flags, permits and the gate, never the owner, the log or what was delivered. */
  lemma ApiFrame(s: Slot, step: ApiStep)
    requires ApiEnabled(s, step)
    ensures var t := NextApi(s, step);
            && t.owner == s.owner && t.log == s.log && t.hasOnChunk == s.hasOnChunk && t.capacity == s.capacity
            && t.flow == s.flow.(permits := t.flow.permits)
            && t.life.reported == s.life.reported && t.life.finished == s.life.finished
  {
    match step
    case SettleClaim(t) => if s.life.gate.Running? {} else {}
    case Resume => if s.hold.paused {} else {}
    case _ =>
  }

  // ---- preservation: the whole slot -----------------------------------------------------------

  lemma NetKeeps(s: Slot, step: NetStep)
    requires Inv(s) && NetEnabled(s.flow, step)
    ensures Inv(NextNet(s, step))
  {
    if step.EndOfBody? && s.life.gate.Running? {
      ClosingKeepsFlow(s.flow, s.capacity, s.life.gate);
    } else {
      NetKeepsFlow(s.flow, s.capacity, s.life.gate, s.life.doneReady, step);
    }
  }

  lemma ApiKeeps(s: Slot, step: ApiStep)
    requires Inv(s) && ApiEnabled(s, step)
    ensures Inv(NextApi(s, step))
  {
    match step
    case SettleClaim(t) =>
    case SettlePublish =>
    case _ =>
  }

  lemma TakeKeeps(s: Slot)
    requires Inv(s) && s.owner.Working?
    ensures Inv(NextTake(s))
  {
    if s.hold.paused {
    } else if s.owner.left == 0 || s.flow.queue == [] {
    } else {
      DequeueKeepsFlow(s.flow, s.capacity, s.life.gate, s.life.doneReady);
    }
  }

  lemma ReactKeeps(s: Slot)
    requires Inv(s) && s.owner.Reacting?
    ensures Inv(NextReact(s))
  {
    match s.owner.action
    case Cancel =>
    case Pause => if s.hold.permit {} else {}
    case Continue =>
  }

  lemma WorkKeeps(s: Slot, step: WorkStep)
    requires Inv(s) && WorkEnabled(s, step)
    ensures Inv(NextWork(s, step))
  {
    match step
    case Take => TakeKeeps(s);
    case React => ReactKeeps(s);
    case _ =>
  }

  /** Every step of every interleaving keeps the invariant. */
  lemma StepKeeps(s: Slot, step: Step)
    requires Inv(s) && Enabled(s, step)
    ensures Inv(Next(s, step))
  {
    match step
    case Net(n) => NetKeeps(s, n);
    case Api(a) => ApiKeeps(s, a);
    case Work(k) => WorkKeeps(s, k);
  }

  // ---- preservation: Done is last -------------------------------------------------------------

  lemma ConsumedIsShaped(f: Flow)
    requires Producing(f) && f.gone + f.queue == f.sent && f.consumed <= f.gone
    ensures Shaped(f.consumed)
  {
    assert f.consumed <= f.sent;
  }

  /** The next event fits the ones handed over, and after the headers only the first could have been visible. */
  lemma HeadFollows(f: Flow, gate: Gate)
    requires Producing(f) && Queued(f, gate) && f.queue != [] && !gate.Discard?
    ensures Follows(f.consumed, f.queue[0])
    ensures forall k :: 1 <= k < |f.queue| ==> f.queue[k].Chunk?
  {
    assert f.sent[|f.consumed|] == f.queue[0];
    forall k | 1 <= k < |f.queue| ensures f.queue[k].Chunk? {
      assert f.sent[|f.gone| + k] == f.queue[k];
    }
  }

  lemma HeadHidesRest(s: Slot)
    requires Inv(s) && !s.life.gate.Discard? && s.flow.queue != [] && !IsVisible(s.hasOnChunk, s.flow.queue[0])
    ensures Hidden(s.hasOnChunk, s.flow.queue)
  {
    HeadFollows(s.flow, s.life.gate);
  }

  lemma TakeLogs(s: Slot)
    requires TidyInv(s) && s.owner.Working?
    ensures LogInv(NextTake(s))
  {
    if s.hold.paused {
    } else if s.owner.left == 0 || s.flow.queue == [] {
    } else if s.life.gate.Discard? {
    } else {
      HeadFollows(s.flow, s.life.gate);
    }
  }

  lemma ClaimLogs(s: Slot, t: Terminal, discard: bool)
    requires LogInv(s) && (s.life.gate.Running? ==> s.life.reported.None?)
    ensures LogInv(Claim(s, t, discard))
  {
    if s.life.gate.Running? {} else {}
  }

  lemma ReactLogs(s: Slot)
    requires TidyInv(s) && s.owner.Reacting?
    ensures LogInv(NextReact(s))
  {
    match s.owner.action
    case Cancel => ClaimLogs(AfterCall(s, false, Decided(false)), CallbackCancelled, true);
    case Pause => if s.hold.permit {} else {}
    case Continue =>
  }

  lemma ReadDoneLogs(s: Slot)
    requires TidyInv(s) && s.owner.Checked? && !LateDone(s, Work(ReadDone))
    ensures LogInv(NextReadDone(s))
  {
    if s.life.doneReady && s.life.terminal.Some? {
      if s.life.gate.Drain? && s.flow.queue != [] && !IsVisible(s.hasOnChunk, s.flow.queue[0]) { HeadHidesRest(s); }
    }
  }

  lemma WorkLogs(s: Slot, step: WorkStep)
    requires TidyInv(s) && WorkEnabled(s, step) && !LateDone(s, Work(step))
    ensures LogInv(NextWork(s, step))
  {
    match step
    case Take => TakeLogs(s);
    case Return(value) =>
    case React => ReactLogs(s);
    case ReadDone => ReadDoneLogs(s);
    case DoneReturn =>
    case Start =>
    case Pop =>
    case Bounced =>
    case Look =>
    case Release =>
  }

  lemma NetLogs(s: Slot, step: NetStep)
    requires TidyInv(s) && NetEnabled(s.flow, step)
    ensures LogInv(NextNet(s, step))
  {
    NetFrame(s, step);
    if step.EndOfBody? { if s.life.gate.Running? {} else {} } else if step.Push? {} else {}
  }

  lemma ApiLogs(s: Slot, step: ApiStep)
    requires TidyInv(s) && ApiEnabled(s, step)
    ensures LogInv(NextApi(s, step))
  {
    match step
    case SettleClaim(t) => ClaimLogs(s, t, true);
    case SettlePublish =>
    case Resume => if s.hold.paused {} else if s.hold.inCallback {} else {}
    case ResumeSee =>
    case ResumeStore =>
  }

  /** Every step that opens no late Done keeps Done the last callback. */
  lemma TidyStepKeeps(s: Slot, step: Step)
    requires TidyInv(s) && Enabled(s, step) && !LateDone(s, step)
    ensures TidyInv(Next(s, step))
  {
    StepKeeps(s, step);
    match step
    case Net(n) => NetLogs(s, n);
    case Api(a) => ApiLogs(s, a);
    case Work(k) => WorkLogs(s, k);
  }

  lemma NetStaysWhole(s: Slot, step: NetStep)
    requires Inv(s) && Whole(s) && NetEnabled(s.flow, step)
    ensures Whole(NextNet(s, step))
  {
    NetFrame(s, step);
    assert NextNet(s, step).life.gate.Drain? && s.life.reported.Some? ==> s.life.gate.Drain?;
  }

  lemma ApiStaysWhole(s: Slot, step: ApiStep)
    requires Inv(s) && Whole(s) && ApiEnabled(s, step)
    ensures Whole(NextApi(s, step))
  {
    assert NextApi(s, step).life.gate.Drain? ==> s.life.gate.Drain?;
  }

  lemma WorkStaysWhole(s: Slot, step: WorkStep)
    requires Whole(s) && WorkEnabled(s, step) && !StaleEmptiness(s, Work(step))
    ensures Whole(NextWork(s, step))
  {
    if step.React? {} else if step.Take? {}
  }

  lemma StaysWhole(s: Slot, step: Step)
    requires Inv(s) && Whole(s) && Enabled(s, step) && !StaleEmptiness(s, step)
    ensures Whole(Next(s, step))
  {
    match step
    case Net(n) => NetStaysWhole(s, n);
    case Api(a) => ApiStaysWhole(s, a);
    case Work(k) => WorkStaysWhole(s, k);
  }

  lemma FreshStepKeeps(s: Slot, step: Step)
    requires FreshInv(s) && Enabled(s, step) && !StaleEmptiness(s, step)
    ensures FreshInv(Next(s, step))
  {
    TidyStepKeeps(s, step);
    StaysWhole(s, step);
  }
}

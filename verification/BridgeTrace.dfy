/**
 * The callback log in every interleaving: callbacks never overlap, begin once for each event handed over and in that
 * order, and Done begins at most once. Only that nothing follows Done needs more.
 */
module BridgeTrace {
  import opened Abi
  import opened Bridge
  import opened BridgeSafety

  predicate Opens(m: Mark) {
    m.Begin? || m.BeginDone?
  }

  /** Every callback returns before the next one begins, and by its own kind of mark. */
  predicate Paired(log: seq<Mark>) {
    && (forall k :: 0 <= k < |log| ==> (Opens(log[k]) <==> k % 2 == 0))
    && (forall k :: 0 < k < |log| ==> (log[k].DoneReturned? <==> log[k - 1].BeginDone?))
  }

  /** The events whose callbacks began, in order. */
  function Begins(log: seq<Mark>): seq<Event> {
    if log == [] then []
    else
      var m := log[|log| - 1];
      Begins(log[..|log| - 1]) + (if m.Begin? then [m.ev] else [])
  }

  /** What on_done was told, each time. */
  function Dones(log: seq<Mark>): seq<Terminal> {
    if log == [] then []
    else
      var m := log[|log| - 1];
      Dones(log[..|log| - 1]) + (if m.BeginDone? then [m.t] else [])
  }

  /** The mark that is still to be closed. */
  predicate LastOpens(hasOnChunk: bool, owner: Phase, log: seq<Mark>) {
    && (|log| % 2 == 1 <==> Showing(hasOnChunk, owner) || owner.Finishing?)
    && (Showing(hasOnChunk, owner) ==> log[|log| - 1].Begin?)
    && (owner.Finishing? ==> log[|log| - 1].BeginDone?)
  }

  predicate Traced(hasOnChunk: bool, consumed: seq<Event>, owner: Phase, reported: Option<Terminal>, log: seq<Mark>) {
    && Paired(log) && LastOpens(hasOnChunk, owner, log)
    && Begins(log) == Visible(hasOnChunk, consumed)
    && Dones(log) == if reported.Some? then [reported.value] else []
  }

  /** Kept by every step of every interleaving. */
  predicate TraceInv(s: Slot) {
    Traced(s.hasOnChunk, s.flow.consumed, s.owner, s.life.reported, s.log)
  }

  // ---- preservation ---------------------------------------------------------------------------

  lemma PairsOn(log: seq<Mark>, m: Mark)
    requires Paired(log) && (Opens(m) <==> |log| % 2 == 0)
    requires |log| % 2 == 1 ==> (m.DoneReturned? <==> log[|log| - 1].BeginDone?)
    ensures Paired(log + [m])
  {
    var all := log + [m];
    forall k | 0 < k < |all| ensures all[k].DoneReturned? <==> all[k - 1].BeginDone? {
      var last := all[k - 1];
      assert last == log[k - 1] && (k < |log| ==> all[k] == log[k]);
    }
  }

  lemma AddMark(log: seq<Mark>, m: Mark)
    requires Paired(log) && (Opens(m) <==> |log| % 2 == 0)
    requires |log| % 2 == 1 ==> (m.DoneReturned? <==> log[|log| - 1].BeginDone?)
    ensures Paired(log + [m])
    ensures Begins(log + [m]) == Begins(log) + (if m.Begin? then [m.ev] else [])
    ensures Dones(log + [m]) == Dones(log) + (if m.BeginDone? then [m.t] else [])
  {
    PairsOn(log, m);
    assert (log + [m])[..|log|] == log;
  }

  lemma OpenTraces(hasOnChunk: bool, consumed: seq<Event>, owner: Phase, reported: Option<Terminal>, log: seq<Mark>, ev: Event, left: nat)
    requires Traced(hasOnChunk, consumed, owner, reported, log) && owner.Working? && Follows(consumed, ev)
    ensures Traced(hasOnChunk, consumed + [ev], Calling(ev, left), reported, if IsVisible(hasOnChunk, ev) then log + [Begin(ev)] else log)
  {
    if IsVisible(hasOnChunk, ev) {
      AddMark(log, Begin(ev));
      assert Visible(hasOnChunk, consumed + [ev]) == Visible(hasOnChunk, consumed) + [ev];
    }
  }

  lemma TakeTraces(s: Slot)
    requires Inv(s) && TraceInv(s) && s.owner.Working?
    ensures TraceInv(NextTake(s))
  {
    if s.hold.paused {
    } else if s.owner.left == 0 || s.flow.queue == [] {
    } else if s.life.gate.Discard? {
    } else {
      HeadFollows(s.flow, s.life.gate);
      OpenTraces(s.hasOnChunk, s.flow.consumed, s.owner, s.life.reported, s.log, s.flow.queue[0], s.owner.left - 1);
    }
  }

  lemma ReturnTraces(s: Slot, value: int)
    requires TraceInv(s) && s.owner.Calling?
    ensures TraceInv(NextReturn(s, value))
  {
    if Showing(s.hasOnChunk, s.owner) { AddMark(s.log, Returned); }
  }

  lemma ReadDoneTraces(s: Slot)
    requires Inv(s) && TraceInv(s) && s.owner.Checked?
    ensures TraceInv(NextReadDone(s))
  {
    if s.life.doneReady && s.life.terminal.Some? { AddMark(s.log, BeginDone(s.life.terminal.value)); }
  }

  lemma DoneReturnTraces(s: Slot)
    requires TraceInv(s) && s.owner.Finishing?
    ensures TraceInv(NextWork(s, DoneReturn))
  {
    AddMark(s.log, DoneReturned);
  }

  lemma ReactTraces(s: Slot)
    requires TraceInv(s) && s.owner.Reacting?
    ensures TraceInv(NextReact(s))
  {
    match s.owner.action
    case Cancel => if s.life.gate.Running? {} else {}
    case Pause => if s.hold.permit {} else {}
    case Continue =>
  }

  lemma WorkTraces(s: Slot, step: WorkStep)
    requires Inv(s) && TraceInv(s) && WorkEnabled(s, step)
    ensures TraceInv(NextWork(s, step))
  {
    match step
    case Take => TakeTraces(s);
    case Return(value) => ReturnTraces(s, value);
    case React => ReactTraces(s);
    case ReadDone => ReadDoneTraces(s);
    case DoneReturn => DoneReturnTraces(s);
    case _ =>
  }

  /** Every step of every interleaving keeps the log. */
  lemma TraceStepKeeps(s: Slot, step: Step)
    requires Inv(s) && TraceInv(s) && Enabled(s, step)
    ensures TraceInv(Next(s, step))
  {
    match step
    case Net(n) => NetFrame(s, n);
    case Api(a) => ApiFrame(s, a);
    case Work(k) => WorkTraces(s, k);
  }

  // ---- reading the log ------------------------------------------------------------------------

  lemma {:induction false} BeginsPrefix(log: seq<Mark>, n: nat)
    requires n <= |log|
    ensures Begins(log[..n]) <= Begins(log) && |Dones(log[..n])| <= |Dones(log)|
    decreases |log|
  {
    if n == |log| {
      assert log[..n] == log;
    } else {
      var rest := log[..|log| - 1];
      BeginsPrefix(rest, n);
      assert rest[..n] == log[..n];
    }
  }

  /** The event of the callback at mark k, among those that began. */
  lemma BeginAt(log: seq<Mark>, k: nat)
    requires k < |log| && log[k].Begin?
    ensures var n := |Begins(log[..k])|; n < |Begins(log)| && Begins(log)[n] == log[k].ev
  {
    var upto := log[..k + 1];
    assert upto[..k] == log[..k] && upto[k] == log[k];
    BeginsPrefix(log, k + 1);
  }

  lemma DoneAt(log: seq<Mark>, k: nat)
    requires k < |log| && log[k].BeginDone?
    ensures |Dones(log[..k])| + 1 <= |Dones(log)|
  {
    var upto := log[..k + 1];
    assert upto[..k] == log[..k];
    BeginsPrefix(log, k + 1);
  }

  /** Done begins at most once. */
  lemma DoneOnce(log: seq<Mark>, j: nat, k: nat)
    requires |Dones(log)| <= 1 && j < k < |log|
    ensures !(log[j].BeginDone? && log[k].BeginDone?)
  {
    if log[j].BeginDone? && log[k].BeginDone? {
      DoneAt(log, k);
      DoneAt(log[..k], j);
    }
  }

  /** A prefix of Headers, Chunk*, Done in which every callback returns before the next one begins. */
  predicate WellFormedTrace(log: seq<Mark>) {
    && Paired(log)
    && (forall k :: 0 <= k < |log| && log[k].Begin? ==> (log[k].ev.Headers? <==> k == 0))
    && (forall k :: 0 <= k < |log| && log[k].BeginDone? ==> |log| <= k + 2)
  }

  lemma DoneEnds(log: seq<Mark>, k: nat)
    requires Paired(log) && |Dones(log)| <= 1 && k < |log| && log[k].BeginDone?
    requires log[|log| - 1].DoneReturned? || log[|log| - 1].BeginDone?
    ensures |log| <= k + 2
  {
    var n := |log| - 1;
    if log[n].BeginDone? {
      if k < n { DoneOnce(log, k, n); }
    } else {
      assert n % 2 == 1 && log[n - 1].BeginDone?;
      if k < n - 1 { DoneOnce(log, k, n - 1); }
    }
  }

  lemma HeadersFirst(log: seq<Mark>, k: nat)
    requires Paired(log) && Shaped(Begins(log)) && k < |log| && log[k].Begin?
    requires log[0].BeginDone? ==> |log| <= 2
    ensures log[k].ev.Headers? <==> k == 0
  {
    BeginAt(log, k);
    if k > 0 { BeginAt(log[..k], 0); }
  }

  lemma DoneIsLast(log: seq<Mark>)
    requires Paired(log) && Shaped(Begins(log)) && |Dones(log)| <= 1
    requires |Dones(log)| == 1 ==> log != [] && (log[|log| - 1].DoneReturned? || log[|log| - 1].BeginDone?)
    ensures WellFormedTrace(log)
  {
    forall k | 0 <= k < |log| && log[k].BeginDone? ensures |log| <= k + 2 {
      DoneAt(log, k);
      DoneEnds(log, k);
    }
    forall k | 0 <= k < |log| && log[k].Begin? ensures log[k].ev.Headers? <==> k == 0 {
      HeadersFirst(log, k);
    }
  }

  lemma TraceOfInv(s: Slot)
    requires TidyInv(s) && TraceInv(s)
    ensures WellFormedTrace(s.log)
  {
    ConsumedIsShaped(s.flow);
    DoneIsLast(s.log);
  }
}

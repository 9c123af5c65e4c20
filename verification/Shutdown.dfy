/**
 * Single-flight pool shutdown: the first caller sweeps the map, aborts and joins every driver it took, sets the
 * completion flag and wakes the others; every other caller waits on a notification that remembers nothing.
 * Requests that passed the pool's closed check earlier may still push a connection at any moment.
 */
module Shutdown {
  import opened Abi

  datatype Entry = Entry(
    driver: bool,     // the join handle is still in its slot
    dead: bool,
    joins: nat)       // how often the driver has been aborted and awaited

  /** Where the winner of the swap is. */
  datatype Work =
    | NotStarted | Closing | Sweeping(base: nat) | Clearing | Joining(j: nat) | Flagging | Notifying | Finished

  datatype Caller =
    | Idle | Winner
    | Check                   // about to read the completion flag
    | Arm                     // read it as false, about to create the waiter
    | Recheck(epoch: nat)     // the waiter exists, about to read the flag again
    | Sleep(epoch: nat)       // awaiting the waiter
    | Returned

  /** epoch counts the notifications sent: a waiter created at one epoch is woken by the next. */
  datatype Shut = Shut(
    started: bool, closed: bool, complete: bool, epoch: nat,
    work: Work, handles: seq<nat>, entries: seq<Entry>, callers: seq<Caller>, inFlight: nat)

  datatype SweepStep = CloseFlag | SweepOne(e: nat) | SweepEnd | Clear | JoinOne | JoinEnd | SetFlag | Notify

  datatype ShutStep =
    | Call(i: nat) | Own(w: SweepStep) | Wait(i: nat)
    | Enter | Push | GiveUp

  // ---- steps ----------------------------------------------------------------------------------

  predicate OwnEnabled(s: Shut, w: SweepStep) {
    match w
    case CloseFlag => s.work.Closing?
    case SweepOne(e) => s.work.Sweeping? && e < |s.entries| && s.entries[e].driver
    // Everything in the map when the walk began has been visited; what was pushed meanwhile may have been missed.
    case SweepEnd => s.work.Sweeping? && forall e: nat :: e < s.work.base && e < |s.entries| ==> !s.entries[e].driver
    case Clear => s.work.Clearing?
    case JoinOne => s.work.Joining? && s.work.j < |s.handles| && s.handles[s.work.j] < |s.entries|
    case JoinEnd => s.work.Joining? && s.work.j >= |s.handles|
    case SetFlag => s.work.Flagging?
    case Notify => s.work.Notifying?
  }

  predicate WaitEnabled(s: Shut, c: Caller) {
    c.Check? || c.Arm? || c.Recheck? || (c.Sleep? && c.epoch < s.epoch)
  }

  predicate ShutEnabled(s: Shut, step: ShutStep) {
    match step
    case Call(i) => i < |s.callers| && s.callers[i].Idle?
    case Own(w) => OwnEnabled(s, w)
    case Wait(i) => i < |s.callers| && WaitEnabled(s, s.callers[i])
    case Enter => !s.closed
    case Push => s.inFlight > 0
    case GiveUp => s.inFlight > 0
  }

  function Waited(s: Shut, c: Caller): Caller
    requires WaitEnabled(s, c)
  {
    match c
    case Check => if s.complete then Returned else Arm
    case Arm => Recheck(s.epoch)
    case Recheck(epoch) => if s.complete then Returned else Sleep(epoch)
    case Sleep(_) => Check
  }

  function NextOwn(s: Shut, w: SweepStep): Shut
    requires OwnEnabled(s, w)
  {
    match w
    case CloseFlag => s.(closed := true, work := Sweeping(|s.entries|))
    case SweepOne(e) => s.(entries := s.entries[e := s.entries[e].(driver := false, dead := true)], handles := s.handles + [e])
    case SweepEnd => s.(work := Clearing)
    case Clear => s.(work := Joining(0))
    case JoinOne =>
      var e := s.handles[s.work.j];
      s.(entries := s.entries[e := s.entries[e].(joins := s.entries[e].joins + 1)], work := Joining(s.work.j + 1))
    case JoinEnd => s.(work := Flagging)
    case SetFlag => s.(complete := true, work := Notifying)
    case Notify => s.(epoch := s.epoch + 1, work := Finished)
  }

  function ShutNext(s: Shut, step: ShutStep): Shut
    requires ShutEnabled(s, step)
  {
    match step
    case Call(i) =>
      if s.started then s.(callers := s.callers[i := Check])
      else s.(started := true, work := Closing, callers := s.callers[i := Winner])
    case Own(w) => NextOwn(s, w)
    case Wait(i) => s.(callers := s.callers[i := Waited(s, s.callers[i])])
    case Enter => s.(inFlight := s.inFlight + 1)
    case Push => s.(entries := s.entries + [Entry(true, false, 0)], inFlight := s.inFlight - 1)
    case GiveUp => s.(inFlight := s.inFlight - 1)
  }

  ghost predicate ShutCanRun(s: Shut, steps: seq<ShutStep>)
    decreases |steps|
  {
    steps != [] ==> ShutEnabled(s, steps[0]) && ShutCanRun(ShutNext(s, steps[0]), steps[1..])
  }

  ghost function ShutAfter(s: Shut, steps: seq<ShutStep>): Shut
    requires ShutCanRun(s, steps)
    decreases |steps|
  {
    if steps == [] then s else ShutAfter(ShutNext(s, steps[0]), steps[1..])
  }

  function NewShut(n: nat, callers: nat): Shut {
    Shut(false, false, false, 0, NotStarted, [], seq(n, _ => Entry(true, false, 0)), seq(callers, _ => Idle), 0)
  }

  // ---- the invariant --------------------------------------------------------------------------

  predicate Swept(w: Work) {
    w.Clearing? || w.Joining? || w.Flagging? || w.Notifying? || w.Finished?
  }

  /** How many of the taken handles have been awaited. */
  function Joined(w: Work, n: nat): nat {
    if w.Joining? then w.j else if w.Flagging? || w.Notifying? || w.Finished? then n else 0
  }

  /** The handles taken are exactly the drivers missing from their slots, each once, in the order taken. */
  predicate HandlesInv(entries: seq<Entry>, handles: seq<nat>) {
    && (forall a :: 0 <= a < |handles| ==> handles[a] < |entries| && !entries[handles[a]].driver)
    && (forall a, b :: 0 <= a < b < |handles| ==> handles[a] != handles[b])
    && (forall e: nat :: e < |entries| && !entries[e].driver ==> e in handles && entries[e].dead)
  }

  /** Exactly the first j handles have been awaited, once each. */
  predicate JoinsInv(entries: seq<Entry>, handles: seq<nat>, j: nat) {
    && j <= |handles|
    && (forall e: nat :: e < |entries| ==> entries[e].joins == if e in handles[..j] then 1 else 0)
  }

  predicate FlagsInv(s: Shut) {
    && (s.started <==> !s.work.NotStarted?)
    && (s.closed <==> !s.work.NotStarted? && !s.work.Closing?)
    && (s.complete <==> s.work.Notifying? || s.work.Finished?)
    && s.epoch == (if s.work.Finished? then 1 else 0)
  }

  /** A waiter that will sleep was created before the notification is sent. */
  predicate CallerInv(c: Caller, work: Work, complete: bool) {
    && (c.Winner? ==> !work.NotStarted?)
    && (c.Returned? ==> complete)
    && (c.Recheck? && !complete ==> c.epoch == 0)
    && (c.Sleep? ==> c.epoch == 0)
  }

  predicate WinnerInv(work: Work, callers: seq<Caller>) {
    && (forall i, j :: 0 <= i < j < |callers| ==> !(callers[i].Winner? && callers[j].Winner?))
    && (work.NotStarted? ==> forall i :: 0 <= i < |callers| ==> callers[i].Idle?)
    && (!work.NotStarted? ==> exists i :: 0 <= i < |callers| && callers[i].Winner?)
  }

  predicate BaseInv(s: Shut) {
    s.work.Sweeping? ==> s.work.base <= |s.entries|
  }

  predicate ShutInv(s: Shut) {
    && FlagsInv(s) && BaseInv(s)
    && HandlesInv(s.entries, s.handles)
    && JoinsInv(s.entries, s.handles, Joined(s.work, |s.handles|))
    && (forall i :: 0 <= i < |s.callers| ==> CallerInv(s.callers[i], s.work, s.complete))
    && WinnerInv(s.work, s.callers)
    && (s.work.NotStarted? || s.work.Closing? ==> s.handles == [])
  }

  lemma TakeKeepsHandles(entries: seq<Entry>, handles: seq<nat>, e: nat)
    requires HandlesInv(entries, handles) && JoinsInv(entries, handles, 0) && e < |entries| && entries[e].driver
    ensures var entries' := entries[e := entries[e].(driver := false, dead := true)];
            HandlesInv(entries', handles + [e]) && JoinsInv(entries', handles + [e], 0)
  {
    var entries' := entries[e := entries[e].(driver := false, dead := true)];
    assert (handles + [e])[|handles|] == e;
    forall d: nat | d < |entries'| && !entries'[d].driver ensures d in handles + [e] && entries'[d].dead {
      if d != e { assert d in handles; }
    }
    assert handles[..0] == (handles + [e])[..0];
  }

  lemma JoinKeepsJoins(entries: seq<Entry>, handles: seq<nat>, j: nat)
    requires HandlesInv(entries, handles) && JoinsInv(entries, handles, j) && j < |handles|
    ensures var e := handles[j]; var entries' := entries[e := entries[e].(joins := entries[e].joins + 1)];
            HandlesInv(entries', handles) && JoinsInv(entries', handles, j + 1)
  {
    var e := handles[j];
    var entries' := entries[e := entries[e].(joins := entries[e].joins + 1)];
    assert handles[..j + 1] == handles[..j] + [e];
    assert e !in handles[..j];
    forall d: nat | d < |entries'| && !entries'[d].driver ensures d in handles && entries'[d].dead {
      assert !entries[d].driver;
    }
  }

  lemma OwnKeepsEntries(s: Shut, w: SweepStep)
    requires OwnEnabled(s, w) && ShutInv(s)
    ensures var t := NextOwn(s, w); HandlesInv(t.entries, t.handles) && JoinsInv(t.entries, t.handles, Joined(t.work, |t.handles|))
  {
    match w
    case SweepOne(e) => TakeKeepsHandles(s.entries, s.handles, e);
    case JoinOne => JoinKeepsJoins(s.entries, s.handles, s.work.j);
    case JoinEnd =>
    case CloseFlag =>
    case SweepEnd =>
    case Clear =>
    case SetFlag =>
    case Notify =>
  }

  lemma OwnKeeps(s: Shut, w: SweepStep)
    requires OwnEnabled(s, w) && ShutInv(s)
    ensures ShutInv(NextOwn(s, w))
  {
    OwnKeepsEntries(s, w);
    var t := NextOwn(s, w);
    assert t.callers == s.callers && !s.work.NotStarted? && !t.work.NotStarted?;
    forall i | 0 <= i < |t.callers| ensures CallerInv(t.callers[i], t.work, t.complete) {
      assert CallerInv(s.callers[i], s.work, s.complete);
    }
  }

  lemma CallKeeps(s: Shut, i: nat)
    requires ShutEnabled(s, Call(i)) && ShutInv(s)
    ensures ShutInv(ShutNext(s, Call(i)))
  {
    var t := ShutNext(s, Call(i));
    if s.started {
      var w :| 0 <= w < |s.callers| && s.callers[w].Winner?;
      assert t.callers[w].Winner?;
    } else {
      assert t.callers[i].Winner?;
    }
  }

  lemma WaitKeeps(s: Shut, i: nat)
    requires ShutEnabled(s, Wait(i)) && ShutInv(s)
    ensures ShutInv(ShutNext(s, Wait(i)))
  {
    var t := ShutNext(s, Wait(i));
    assert CallerInv(s.callers[i], s.work, s.complete);
    assert !s.work.NotStarted?;
    var w :| 0 <= w < |s.callers| && s.callers[w].Winner?;
    assert t.callers[w].Winner?;
  }

  lemma ShutStepKeeps(s: Shut, step: ShutStep)
    requires ShutEnabled(s, step) && ShutInv(s)
    ensures ShutInv(ShutNext(s, step))
  {
    match step
    case Call(i) => CallKeeps(s, i);
    case Own(w) => OwnKeeps(s, w);
    case Wait(i) => WaitKeeps(s, i);
    case Enter =>
    case Push =>
    case GiveUp =>
  }
}

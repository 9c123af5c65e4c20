/** What every step of the pool keeps: the connection cap, the dial lock, and who owns which sender. */
module PoolSafety {
  import opened Abi
  import opened Counting
  import opened Pool

  // ---- the invariant --------------------------------------------------------------------------

  predicate TaskIn(t: Task, n: nat) {
    match t
    case Peeked(e, _) => e < n
    case Pushed(e) => e < n
    case Leased(e) => e < n
    case Dropping(e) => e < n
    case _ => true
  }

  predicate RefsInv(n: nat, tasks: seq<Task>, bounds: seq<Option<nat>>, guards: seq<Option<nat>>) {
    && |bounds| == |tasks| && |guards| == |tasks|
    && (forall i :: 0 <= i < |tasks| ==> TaskIn(tasks[i], n))
    && (forall i :: 0 <= i < |bounds| ==> In(bounds[i], n))
    && (forall i :: 0 <= i < |guards| ==> In(guards[i], n))
  }

  predicate LockInv(lock: Option<nat>, tasks: seq<Task>) {
    && In(lock, |tasks|)
    && (forall i: nat :: i < |tasks| ==> (HoldsLock(tasks[i]) <==> lock == Some(i)))
  }

  function Holder(lock: Option<nat>, tasks: seq<Task>): Option<Task>
    requires In(lock, |tasks|)
  {
    if lock.None? then None else Some(tasks[lock.value])
  }

  /** A dial in flight has its place reserved; a count in progress never misses an entry that still counts. */
  predicate CapInv(conns: seq<Conn>, holder: Option<Task>, max: nat, seen: bool) {
    && Number(conns, seen) + (if holder == Some(Dialing) then 1 else 0) <= max
    && (holder.Some? && holder.value.Tally? ==>
          holder.value.k <= |conns| && Number(conns[..holder.value.k], seen) <= holder.value.live)
  }

  /** One connection against the tasks that hold it. */
  predicate Owned(c: Conn, leased: nat, dropping: nat, pauses: nat) {
    && c.active == leased + dropping
    && c.paused == pauses
    && (c.kind.H2? ==> !c.idle)
    && (c.kind.H1? ==> leased + (if c.idle then 1 else 0) <= 1)
    && (c.kind.H1? && !c.dead ==> leased + (if c.idle then 1 else 0) == 1)
  }

  predicate OwnedAt(conns: seq<Conn>, tasks: seq<Task>, guards: seq<Option<nat>>, e: nat)
    requires e < |conns|
  {
    Owned(conns[e], Count(tasks, Leased(e)), Count(tasks, Dropping(e)), Count(guards, Some(e)))
  }

  predicate OwnInv(conns: seq<Conn>, tasks: seq<Task>, guards: seq<Option<nat>>) {
    forall e: nat :: e < |conns| ==> OwnedAt(conns, tasks, guards, e)
  }

  predicate PoolInv(p: Pool) {
    && RefsInv(|p.conns|, p.tasks, p.bounds, p.guards)
    && LockInv(p.lock, p.tasks)
    && OwnInv(p.conns, p.tasks, p.guards)
  }

  predicate CapKept(p: Pool, seen: bool) {
    && In(p.lock, |p.tasks|)
    && CapInv(p.conns, Holder(p.lock, p.tasks), p.maxConns, seen)
  }

  /** Taking the sender of an entry whose peer closed after it was found eligible. */
  predicate StaleTake(p: Pool, step: PoolStep)
    requires PoolEnabled(p, step)
  {
    && step.Go? && (step.act.Take? || step.act.TakeOwn?)
    && var c := p.conns[p.tasks[step.i].e]; c.kind.H1? && c.idle && c.cut && !c.dead
  }

  // ---- counting connections -------------------------------------------------------------------

  lemma {:induction false} NumberUpdate(conns: seq<Conn>, e: nat, c: Conn, seen: bool)
    requires e < |conns|
    ensures Number(conns[e := c], seen) + (if Counts(conns[e], seen) then 1 else 0)
         == Number(conns, seen) + (if Counts(c, seen) then 1 else 0)
    decreases |conns|
  {
    var n := |conns| - 1;
    if e < n {
      NumberUpdate(conns[..n], e, c, seen);
      assert conns[e := c][..n] == conns[..n][e := c];
    } else {
      assert conns[e := c][..n] == conns[..n];
    }
  }

  lemma NumberAppend(conns: seq<Conn>, c: Conn, seen: bool)
    ensures Number(conns + [c], seen) == Number(conns, seen) + (if Counts(c, seen) then 1 else 0)
  {
    assert (conns + [c])[..|conns|] == conns;
  }

  lemma NumberPrefix(conns: seq<Conn>, k: nat, seen: bool)
    requires k < |conns|
    ensures Number(conns[..k + 1], seen) == Number(conns[..k], seen) + (if Counts(conns[k], seen) then 1 else 0)
  {
    assert conns[..k + 1] == conns[..k] + [conns[k]];
    NumberAppend(conns[..k], conns[k], seen);
  }

  /** Changing one entry so that it does not start to count lowers no reserved place. */
  lemma ShrinkKeepsCap(conns: seq<Conn>, e: nat, c: Conn, holder: Option<Task>, max: nat, seen: bool)
    requires e < |conns| && CapInv(conns, holder, max, seen)
    requires Counts(c, seen) ==> Counts(conns[e], seen)
    ensures CapInv(conns[e := c], holder, max, seen)
  {
    NumberUpdate(conns, e, c, seen);
    if holder.Some? && holder.value.Tally? {
      var k := holder.value.k;
      if e < k {
        NumberUpdate(conns[..k], e, c, seen);
        assert conns[e := c][..k] == conns[..k][e := c];
      } else {
        assert conns[e := c][..k] == conns[..k];
      }
    }
  }

  // ---- the cap --------------------------------------------------------------------------------

  /** A task that neither held nor takes the lock, and takes nothing stale. */
  lemma BystanderKeepsCap(p: Pool, i: nat, act: TaskStep, seen: bool)
    requires i < |p.tasks| && TaskEnabled(p, p.tasks[i], act)
    requires LockInv(p.lock, p.tasks) && CapKept(p, seen)
    requires !HoldsLock(p.tasks[i]) && !HoldsLock(Moved(p, p.tasks[i], act))
    requires seen ==> !StaleTake(p, Go(i, act))
    ensures CapKept(NextGo(p, i, act), seen)
  {
    var t, h := p.tasks[i], Holder(p.lock, p.tasks);
    var q := NextGo(p, i, act);
    assert Holder(q.lock, q.tasks) == h;
    if act.Take? && CanTake(p.conns[t.e]) {
      ShrinkKeepsCap(p.conns, t.e, WithLease(p.conns[t.e]), h, p.maxConns, seen);
    } else if act.DropSender? {
      ShrinkKeepsCap(p.conns, t.e, GiveBack(p.conns[t.e]), h, p.maxConns, seen);
    } else if act.DropDone? {
      ShrinkKeepsCap(p.conns, t.e, p.conns[t.e].(active := Dec(p.conns[t.e].active)), h, p.maxConns, seen);
    }
  }

  /** The holder's count is complete before it dials. */
  lemma CountKeepsCap(conns: seq<Conn>, t: Task, max: nat, seen: bool)
    requires t.Tally? && CapInv(conns, Some(t), max, seen)
    ensures t.k < |conns| ==> CapInv(conns, Some(Tally(t.k + 1, t.live + if IsClosed(conns[t.k]) then 0 else 1)), max, seen)
    ensures t.k >= |conns| && t.live < max ==> CapInv(conns, Some(Dialing), max, seen)
  {
    if t.k < |conns| {
      NumberPrefix(conns, t.k, seen);
    } else {
      assert conns[..t.k] == conns;
    }
  }

  /** What the lock holder leaves behind: a dial fills the place it reserved. */
  lemma HolderCap(p: Pool, t: Task, act: TaskStep, seen: bool)
    requires TaskEnabled(p, t, act) && HoldsLock(t) && CapInv(p.conns, Some(t), p.maxConns, seen)
    requires seen && (act.Take? || act.TakeOwn?) ==> var c := p.conns[t.e]; !(c.kind.H1? && c.idle && c.cut && !c.dead)
    ensures var t' := Moved(p, t, act);
            CapInv(MovedConns(p, t, act), if HoldsLock(t') then Some(t') else None, p.maxConns, seen)
  {
    if act.CountOne? {
      CountKeepsCap(p.conns, t, p.maxConns, seen);
    } else if act.Connected? {
      NumberAppend(p.conns, Fresh(act.kind), seen);
    } else if act.Take? || act.TakeOwn? {
      if CanTake(p.conns[t.e]) {
        ShrinkKeepsCap(p.conns, t.e, WithLease(p.conns[t.e]), None, p.maxConns, seen);
      }
    } else if act.Look? {
      assert p.conns[..0] == [];
    }
  }

  lemma HolderKeepsCap(p: Pool, i: nat, act: TaskStep, seen: bool)
    requires i < |p.tasks| && TaskEnabled(p, p.tasks[i], act)
    requires LockInv(p.lock, p.tasks) && CapKept(p, seen)
    requires HoldsLock(p.tasks[i]) || HoldsLock(Moved(p, p.tasks[i], act))
    requires seen ==> !StaleTake(p, Go(i, act))
    ensures CapKept(NextGo(p, i, act), seen)
  {
    var t := p.tasks[i];
    var t', q := Moved(p, t, act), NextGo(p, i, act);
    assert Holder(q.lock, q.tasks) == if HoldsLock(t') then Some(t') else None;
    if HoldsLock(t) {
      assert Holder(p.lock, p.tasks) == Some(t);
      HolderCap(p, t, act, seen);
    }
  }

  lemma GuardKeepsCap(conns: seq<Conn>, g: Option<nat>, add: bool, holder: Option<Task>, max: nat, seen: bool)
    requires In(g, |conns|) && CapInv(conns, holder, max, seen)
    ensures CapInv(if add then AddGuard(conns, g) else DropGuard(conns, g), holder, max, seen)
  {
    if g.Some? {
      var c := conns[g.value];
      ShrinkKeepsCap(conns, g.value, c.(paused := if add then c.paused + 1 else Dec(c.paused)), holder, max, seen);
    }
  }

  /** Every step keeps the number of open connections within the cap; every step but a stale take keeps the
      number the pool counts. */
  lemma CapStepKeeps(p: Pool, step: PoolStep, seen: bool)
    requires PoolEnabled(p, step) && LockInv(p.lock, p.tasks) && CapKept(p, seen)
    requires seen ==> !StaleTake(p, step)
    ensures CapKept(PoolNext(p, step), seen)
  {
    var h := Holder(p.lock, p.tasks);
    match step
    case Go(i, act) =>
      if HoldsLock(p.tasks[i]) || HoldsLock(Moved(p, p.tasks[i], act)) {
        HolderKeepsCap(p, i, act, seen);
      } else {
        BystanderKeepsCap(p, i, act, seen);
      }
    case Bind(i) =>
    case PauseOn(i) =>
      GuardKeepsCap(p.conns, p.bounds[i], true, h, p.maxConns, seen);
      GuardKeepsCap(AddGuard(p.conns, p.bounds[i]), p.guards[i], false, h, p.maxConns, seen);
    case PauseOff(i) => GuardKeepsCap(p.conns, p.guards[i], false, h, p.maxConns, seen);
    case Cut(e) => ShrinkKeepsCap(p.conns, e, p.conns[e].(cut := true), h, p.maxConns, seen);
    case Kill(e) => ShrinkKeepsCap(p.conns, e, p.conns[e].(dead := true), h, p.maxConns, seen);
    case Shut =>
  }

  /** Exactly what makes the count the pool works with grow. */
  lemma LiveGrowsIff(p: Pool, step: PoolStep)
    requires PoolEnabled(p, step)
    ensures Number(PoolNext(p, step).conns, true) > Number(p.conns, true)
       <==> (step.Go? && step.act.Connected?) || StaleTake(p, step)
  {
    match step
    case Go(i, act) =>
      var t := p.tasks[i];
      if act.Connected? {
        NumberAppend(p.conns, Fresh(act.kind), true);
      } else if (act.Take? || act.TakeOwn?) && CanTake(p.conns[t.e]) {
        NumberUpdate(p.conns, t.e, WithLease(p.conns[t.e]), true);
      } else if act.DropSender? {
        NumberUpdate(p.conns, t.e, GiveBack(p.conns[t.e]), true);
      } else if act.DropDone? {
        NumberUpdate(p.conns, t.e, p.conns[t.e].(active := Dec(p.conns[t.e].active)), true);
      }
    case Bind(i) =>
    case PauseOn(i) =>
      GuardKeepsNumber(p.conns, p.bounds[i], true);
      GuardKeepsNumber(AddGuard(p.conns, p.bounds[i]), p.guards[i], false);
    case PauseOff(i) => GuardKeepsNumber(p.conns, p.guards[i], false);
    case Cut(e) => NumberUpdate(p.conns, e, p.conns[e].(cut := true), true);
    case Kill(e) => NumberUpdate(p.conns, e, p.conns[e].(dead := true), true);
    case Shut =>
  }

  lemma GuardKeepsNumber(conns: seq<Conn>, g: Option<nat>, add: bool)
    requires In(g, |conns|)
    ensures Number(if add then AddGuard(conns, g) else DropGuard(conns, g), true) == Number(conns, true)
  {
    if g.Some? {
      var c := conns[g.value];
      NumberUpdate(conns, g.value, c.(paused := if add then c.paused + 1 else Dec(c.paused)), true);
    }
  }

  // ---- who owns which sender ------------------------------------------------------------------

  /** How one task's move changes the counts of one entry. */
  lemma CountsMove(tasks: seq<Task>, i: nat, t: Task, e: nat)
    requires i < |tasks|
    ensures Count(tasks[i := t], Leased(e)) + (if tasks[i] == Leased(e) then 1 else 0)
         == Count(tasks, Leased(e)) + (if t == Leased(e) then 1 else 0)
    ensures Count(tasks[i := t], Dropping(e)) + (if tasks[i] == Dropping(e) then 1 else 0)
         == Count(tasks, Dropping(e)) + (if t == Dropping(e) then 1 else 0)
  {
    CountUpdate(tasks, i, t, Leased(e));
    CountUpdate(tasks, i, t, Dropping(e));
  }

  lemma GoOwnsAt(p: Pool, i: nat, act: TaskStep, e: nat)
    requires i < |p.tasks| && TaskEnabled(p, p.tasks[i], act) && e < |p.conns|
    requires OwnedAt(p.conns, p.tasks, p.guards, e)
    ensures OwnedAt(NextGo(p, i, act).conns, NextGo(p, i, act).tasks, p.guards, e)
  {
    CountsMove(p.tasks, i, Moved(p, p.tasks[i], act), e);
  }

  lemma NothingRefers(n: nat, tasks: seq<Task>, bounds: seq<Option<nat>>, guards: seq<Option<nat>>)
    requires RefsInv(n, tasks, bounds, guards)
    ensures Count(tasks, Leased(n)) == 0 && Count(tasks, Dropping(n)) == 0 && Count(guards, Some(n)) == 0
  {
    CountPositive(tasks, Leased(n));
    CountPositive(tasks, Dropping(n));
    CountPositive(guards, Some(n));
  }

  lemma GoOwns(p: Pool, i: nat, act: TaskStep)
    requires i < |p.tasks| && TaskEnabled(p, p.tasks[i], act)
    requires RefsInv(|p.conns|, p.tasks, p.bounds, p.guards) && OwnInv(p.conns, p.tasks, p.guards)
    ensures OwnInv(NextGo(p, i, act).conns, NextGo(p, i, act).tasks, p.guards)
  {
    var q := NextGo(p, i, act);
    forall e: nat | e < |q.conns| ensures OwnedAt(q.conns, q.tasks, p.guards, e) {
      if e < |p.conns| {
        GoOwnsAt(p, i, act, e);
      } else {
        NothingRefers(e, p.tasks, p.bounds, p.guards);
        CountsMove(p.tasks, i, q.tasks[i], e);
      }
    }
  }

  lemma GuardsOwn(conns: seq<Conn>, tasks: seq<Task>, guards: seq<Option<nat>>, i: nat, g: Option<nat>)
    requires i < |guards| && In(g, |conns|) && In(guards[i], |conns|)
    requires OwnInv(conns, tasks, guards)
    ensures OwnInv(DropGuard(AddGuard(conns, g), guards[i]), tasks, guards[i := g])
  {
    var conns', guards' := DropGuard(AddGuard(conns, g), guards[i]), guards[i := g];
    forall e: nat | e < |conns'| ensures OwnedAt(conns', tasks, guards', e) {
      assert OwnedAt(conns, tasks, guards, e);
      CountUpdate(guards, i, g, Some(e));
    }
  }

  lemma FlagOwns(conns: seq<Conn>, tasks: seq<Task>, guards: seq<Option<nat>>, e: nat, c: Conn)
    requires e < |conns| && OwnInv(conns, tasks, guards)
    requires c == conns[e].(cut := true) || c == conns[e].(dead := true)
    ensures OwnInv(conns[e := c], tasks, guards)
  {
    var conns' := conns[e := c];
    forall d: nat | d < |conns'| ensures OwnedAt(conns', tasks, guards, d) {
      assert OwnedAt(conns, tasks, guards, d);
    }
  }

  lemma OwnStepKeeps(p: Pool, step: PoolStep)
    requires PoolEnabled(p, step) && RefsInv(|p.conns|, p.tasks, p.bounds, p.guards) && OwnInv(p.conns, p.tasks, p.guards)
    ensures var q := PoolNext(p, step); OwnInv(q.conns, q.tasks, q.guards)
  {
    match step
    case Go(i, act) => GoOwns(p, i, act);
    case Bind(i) =>
    case PauseOn(i) => GuardsOwn(p.conns, p.tasks, p.guards, i, p.bounds[i]);
    case PauseOff(i) => GuardsOwn(p.conns, p.tasks, p.guards, i, None);
    case Cut(e) => FlagOwns(p.conns, p.tasks, p.guards, e, p.conns[e].(cut := true));
    case Kill(e) => FlagOwns(p.conns, p.tasks, p.guards, e, p.conns[e].(dead := true));
    case Shut =>
  }

  lemma PoolStepKeeps(p: Pool, step: PoolStep)
    requires PoolEnabled(p, step) && PoolInv(p)
    ensures PoolInv(PoolNext(p, step))
  {
    OwnStepKeeps(p, step);
  }
}

/** What holds of the pool after every run, and the two places where it does less than it seems to. */
module PoolTheorems {
  import opened Abi
  import opened Counting
  import opened Pool
  import opened PoolSafety

  ghost predicate PoolReachable(p: Pool) {
    exists n: nat, max: nat, cap: nat, steps: seq<PoolStep> ::
      PoolCanRun(NewPool(n, max, cap), steps) && p == PoolAfter(NewPool(n, max, cap), steps)
  }

  /** No step of the run takes a sender that closed after it was found eligible. */
  ghost predicate NoStaleTake(p: Pool, steps: seq<PoolStep>)
    requires PoolCanRun(p, steps)
    decreases |steps|
  {
    steps != [] ==> !StaleTake(p, steps[0]) && NoStaleTake(PoolNext(p, steps[0]), steps[1..])
  }

  lemma {:induction false} PoolRunKeeps(p: Pool, steps: seq<PoolStep>)
    requires PoolInv(p) && CapKept(p, false) && PoolCanRun(p, steps)
    ensures PoolInv(PoolAfter(p, steps)) && CapKept(PoolAfter(p, steps), false)
    ensures PoolAfter(p, steps).maxConns == p.maxConns
    decreases |steps|
  {
    if steps != [] {
      PoolStepKeeps(p, steps[0]);
      CapStepKeeps(p, steps[0], false);
      PoolRunKeeps(PoolNext(p, steps[0]), steps[1..]);
    }
  }

  lemma {:induction false} CountedRunKeeps(p: Pool, steps: seq<PoolStep>)
    requires PoolInv(p) && CapKept(p, true) && PoolCanRun(p, steps) && NoStaleTake(p, steps)
    ensures CapKept(PoolAfter(p, steps), true) && PoolAfter(p, steps).maxConns == p.maxConns
    decreases |steps|
  {
    if steps != [] {
      PoolStepKeeps(p, steps[0]);
      CapStepKeeps(p, steps[0], true);
      CountedRunKeeps(PoolNext(p, steps[0]), steps[1..]);
    }
  }

  lemma ReachablePool(p: Pool)
    requires PoolReachable(p)
    ensures PoolInv(p) && CapKept(p, false)
  {
    var n: nat, max: nat, cap: nat, steps: seq<PoolStep> :|
      PoolCanRun(NewPool(n, max, cap), steps) && p == PoolAfter(NewPool(n, max, cap), steps);
    PoolRunKeeps(NewPool(n, max, cap), steps);
  }

  /** In every run, with tasks interleaved between any two entries they examine, the open connections of a key and the
      one being dialled stay within the cap. */
  lemma OpenConnectionsStayCapped(n: nat, max: nat, cap: nat, steps: seq<PoolStep>)
    requires PoolCanRun(NewPool(n, max, cap), steps)
    ensures var p := PoolAfter(NewPool(n, max, cap), steps);
            Number(p.conns, false) + (if exists i :: 0 <= i < |p.tasks| && p.tasks[i].Dialing? then 1 else 0) <= max
  {
    var p0 := NewPool(n, max, cap);
    PoolRunKeeps(p0, steps);
    var p := PoolAfter(p0, steps);
    if i :| 0 <= i < |p.tasks| && p.tasks[i].Dialing? {
      assert HoldsLock(p.tasks[i]) && p.lock == Some(i);
    }
  }

  /** The number the pool itself counts stays within the cap in every run without a stale take. */
  lemma CountedConnectionsStayCapped(n: nat, max: nat, cap: nat, steps: seq<PoolStep>)
    requires PoolCanRun(NewPool(n, max, cap), steps) && NoStaleTake(NewPool(n, max, cap), steps)
    ensures Number(PoolAfter(NewPool(n, max, cap), steps).conns, true) <= max
  {
    CountedRunKeeps(NewPool(n, max, cap), steps);
  }

  /** At most one task is between taking the dial lock and leaving it, so at most one dials. */
  lemma OneDialer(p: Pool, i: nat, j: nat)
    requires PoolReachable(p) && i < |p.tasks| && j < |p.tasks|
    requires HoldsLock(p.tasks[i]) && HoldsLock(p.tasks[j])
    ensures i == j
  {
    ReachablePool(p);
  }

  lemma {:induction false} TwoOccur<T>(xs: seq<T>, i: nat, j: nat, x: T)
    requires i < j < |xs| && xs[i] == x && xs[j] == x
    ensures Count(xs, x) >= 2
    decreases |xs|
  {
    var n := |xs| - 1;
    if j < n {
      TwoOccur(xs[..n], i, j, x);
    } else {
      assert x in xs[..n] by { assert xs[..n][i] == x; }
      CountPositive(xs[..n], x);
    }
  }

  /** An h1 sender is in one place: its slot, or one lease. Two requests never share it. */
  lemma H1SenderIsExclusive(p: Pool, i: nat, j: nat, e: nat)
    requires PoolReachable(p) && e < |p.conns| && p.conns[e].kind.H1?
    requires i < |p.tasks| && j < |p.tasks| && p.tasks[i] == Leased(e)
    ensures !p.conns[e].idle
    ensures p.tasks[j] == Leased(e) ==> i == j
  {
    ReachablePool(p);
    assert OwnedAt(p.conns, p.tasks, p.guards, e);
    assert Leased(e) in p.tasks;
    CountPositive(p.tasks, Leased(e));
    if p.tasks[j] == Leased(e) && i != j {
      TwoOccur(p.tasks, if i < j then i else j, if i < j then j else i, Leased(e));
    }
  }

  /** No path leaks capacity: once no task holds or is returning a lease, every count is back to zero and every
      h1 sender that is not dead is back in its slot. */
  lemma NoLeaseLeaks(p: Pool, e: nat)
    requires PoolReachable(p) && e < |p.conns|
    requires forall i :: 0 <= i < |p.tasks| ==> p.tasks[i] != Leased(e) && p.tasks[i] != Dropping(e)
    ensures p.conns[e].active == 0
    ensures p.conns[e].kind.H1? && !p.conns[e].dead ==> p.conns[e].idle
  {
    ReachablePool(p);
    assert OwnedAt(p.conns, p.tasks, p.guards, e);
    CountPositive(p.tasks, Leased(e));
    CountPositive(p.tasks, Dropping(e));
  }

  /** The paused budget of a connection is exactly the number of requests holding a guard on it. */
  lemma PausedBudgetIsHeld(p: Pool, e: nat)
    requires PoolReachable(p) && e < |p.conns|
    ensures p.conns[e].paused == Count(p.guards, Some(e))
    ensures p.conns[e].active == Count(p.tasks, Leased(e)) + Count(p.tasks, Dropping(e))
  {
    ReachablePool(p);
    assert OwnedAt(p.conns, p.tasks, p.guards, e);
  }

  // ---- what the pool makes of a connection ----------------------------------------------------

  /** The connection is really open, fewer requests than the cap hold a pause on it, and its sender can be had: shared, or
      in its slot because nobody leases it. */
  ghost predicate Serves(p: Pool, e: nat)
    requires e < |p.conns|
  {
    && !p.conns[e].dead && !p.conns[e].cut
    && Count(p.guards, Some(e)) < p.pausedCap
    && (p.conns[e].kind.H1? ==> Leased(e) !in p.tasks)
  }

  /** A connection is found eligible for reuse if and only if it really can serve another request. */
  lemma EligibleIff(p: Pool, e: nat)
    requires PoolReachable(p) && e < |p.conns|
    ensures IsEligible(p.conns[e], p.pausedCap) <==> Serves(p, e)
  {
    ReachablePool(p);
    assert OwnedAt(p.conns, p.tasks, p.guards, e);
    CountPositive(p.tasks, Leased(e));
  }

  /** A connection counts against the cap of connections if and only if it is really open, or is an h1 connection that was
      closed under a lease: nobody can ask its sender until it comes back. */
  lemma CountedIff(p: Pool, e: nat)
    requires PoolReachable(p) && e < |p.conns|
    ensures Counts(p.conns[e], true) <==> !p.conns[e].dead && (!p.conns[e].cut || (p.conns[e].kind.H1? && Leased(e) in p.tasks))
    ensures Counts(p.conns[e], false) <==> !p.conns[e].dead && !p.conns[e].cut
  {
    ReachablePool(p);
    assert OwnedAt(p.conns, p.tasks, p.guards, e);
    CountPositive(p.tasks, Leased(e));
  }

  /** A pause spends the budget of the connection the request is leased on. */
  lemma PauseSpendsOwnConnection(p: Pool, i: nat, e: nat)
    requires PoolReachable(p) && i < |p.tasks| && p.tasks[i] == Leased(e)
    ensures PoolEnabled(p, Bind(i)) && PoolEnabled(PoolNext(p, Bind(i)), PauseOn(i))
    ensures PoolNext(PoolNext(p, Bind(i)), PauseOn(i)).guards[i] == Some(e)
  {
    ReachablePool(p);
    assert TaskIn(p.tasks[i], |p.conns|);
  }

  // ---- two things the pool does not promise, exactly ------------------------------------------

  /** The request that dialled fails to get its own connection if and only if that is an h1 connection whose sender is
      gone from its slot; and unless the entry is dead, another request holds it. */
  lemma DialerFailsIff(p: Pool, i: nat)
    requires PoolReachable(p) && i < |p.tasks| && p.tasks[i].Pushed?
    ensures PoolEnabled(p, Go(i, TakeOwn))
    ensures var e := p.tasks[i].e;
            && (PoolNext(p, Go(i, TakeOwn)).tasks[i] == Out <==> p.conns[e].kind.H1? && !p.conns[e].idle)
            && (p.conns[e].kind.H1? && !p.conns[e].idle && !p.conns[e].dead ==>
                  exists j :: 0 <= j < |p.tasks| && j != i && p.tasks[j] == Leased(e))
  {
    ReachablePool(p);
    var e := p.tasks[i].e;
    assert TaskIn(p.tasks[i], |p.conns|);
    assert OwnedAt(p.conns, p.tasks, p.guards, e);
    if p.conns[e].kind.H1? && !p.conns[e].idle && !p.conns[e].dead {
      CountPositive(p.tasks, Leased(e));
      var j :| 0 <= j < |p.tasks| && p.tasks[j] == Leased(e);
      assert j != i;
    }
  }

  /** A step takes the streams paused on a connection past the cap if and only if it pauses a request that is tied to
      it, has no guard on it yet, and finds the cap reached. */
  lemma PausedPassesCapIff(p: Pool, step: PoolStep, e: nat)
    requires PoolReachable(p) && PoolEnabled(p, step) && e < |p.conns| && p.conns[e].paused <= p.pausedCap
    ensures e < |PoolNext(p, step).conns|
    ensures PoolNext(p, step).conns[e].paused > p.pausedCap <==>
            step.PauseOn? && p.bounds[step.i] == Some(e) && p.guards[step.i] != Some(e) && p.conns[e].paused == p.pausedCap
  {
    match step
    case Go(i, act) =>
    case Bind(i) =>
    case PauseOn(i) =>
    case PauseOff(i) =>
    case Cut(d) =>
    case Kill(d) =>
    case Shut =>
  }

  // ---- what an acquire decides under the lock -------------------------------------------------

  predicate NoneEligible(conns: seq<Conn>, k: nat, cap: nat)
    requires k <= |conns|
  {
    forall e :: 0 <= e < k ==> !IsEligible(conns[e], cap)
  }

  /** Where a lock holder that nobody interrupts stands, over the connections it found when it took the lock. */
  predicate Deciding(p: Pool, conns: seq<Conn>, t: Task) {
    match t
    case Scan(k, locked) => p.conns == conns && locked && k <= |conns| && NoneEligible(conns, k, p.pausedCap)
    case Peeked(e, locked) =>
      p.conns == conns && locked && e < |conns| && NoneEligible(conns, e, p.pausedCap) && IsEligible(conns[e], p.pausedCap)
    case Tally(k, live) =>
      p.conns == conns && k <= |conns| && NoneEligible(conns, |conns|, p.pausedCap) && live == Number(conns[..k], true)
    case Dialing => p.conns == conns && NoneEligible(conns, |conns|, p.pausedCap) && Number(conns, true) < p.maxConns
    case Out => p.conns == conns && NoneEligible(conns, |conns|, p.pausedCap) && Number(conns, true) >= p.maxConns
    case Leased(e) => e < |conns| && NoneEligible(conns, e, p.pausedCap) && IsEligible(conns[e], p.pausedCap)
    case _ => false
  }

  predicate Examines(step: PoolStep, i: nat) {
    step.Go? && step.i == i && (step.act.Look? || step.act.Take? || step.act.CountOne?)
  }

  lemma DecidingStep(p: Pool, conns: seq<Conn>, i: nat, step: PoolStep)
    requires PoolEnabled(p, step) && Examines(step, i) && Deciding(p, conns, p.tasks[i])
    ensures Deciding(PoolNext(p, step), conns, PoolNext(p, step).tasks[i])
  {
    var t := p.tasks[i];
    if step.act.CountOne? {
      if t.k < |conns| {
        NumberPrefix(conns, t.k, true);
      } else {
        assert conns[..t.k] == conns;
      }
    } else if step.act.Look? {
      assert conns[..0] == [];
    }
  }

  lemma {:induction false} DecidingRun(p: Pool, conns: seq<Conn>, i: nat, steps: seq<PoolStep>)
    requires i < |p.tasks| && PoolCanRun(p, steps) && Deciding(p, conns, p.tasks[i])
    requires forall k :: 0 <= k < |steps| ==> Examines(steps[k], i)
    ensures i < |PoolAfter(p, steps).tasks| && Deciding(PoolAfter(p, steps), conns, PoolAfter(p, steps).tasks[i])
    ensures PoolAfter(p, steps).maxConns == p.maxConns && PoolAfter(p, steps).pausedCap == p.pausedCap
    decreases |steps|
  {
    if steps != [] {
      DecidingStep(p, conns, i, steps[0]);
      DecidingRun(PoolNext(p, steps[0]), conns, i, steps[1..]);
    }
  }

  /** None of the first k connections can serve. */
  ghost predicate NoneServes(p: Pool, k: nat)
    requires k <= |p.conns|
  {
    forall e: nat :: e < k ==> !Serves(p, e)
  }

  lemma NoneEligibleIff(p: Pool, k: nat)
    requires PoolReachable(p) && k <= |p.conns|
    ensures NoneEligible(p.conns, k, p.pausedCap) <==> NoneServes(p, k)
  {
    forall e: nat | e < k ensures IsEligible(p.conns[e], p.pausedCap) <==> Serves(p, e) { EligibleIff(p, e); }
  }

  /** Taken as one piece, the part of acquire under the lock leases the first connection that can serve if there is one,
      dials exactly when none can and those that count are below the cap, and is refused exactly when none can and they
      are not. */
  lemma AcquireUnderLockDecides(p: Pool, i: nat, steps: seq<PoolStep>)
    requires PoolReachable(p) && i < |p.tasks| && p.tasks[i] == Scan(0, true) && PoolCanRun(p, steps)
    requires forall k :: 0 <= k < |steps| ==> Examines(steps[k], i)
    ensures i < |PoolAfter(p, steps).tasks|
    ensures var t := PoolAfter(p, steps).tasks[i];
            && (t.Leased? ==> t.e < |p.conns| && Serves(p, t.e) && NoneServes(p, t.e))
            && (t.Dialing? ==> NoneServes(p, |p.conns|) && Number(p.conns, true) < p.maxConns)
            && (t.Out? ==> NoneServes(p, |p.conns|) && Number(p.conns, true) >= p.maxConns)
  {
    DecidingRun(p, p.conns, i, steps);
    var t := PoolAfter(p, steps).tasks[i];
    if t.Leased? {
      EligibleIff(p, t.e);
      NoneEligibleIff(p, t.e);
    }
    NoneEligibleIff(p, |p.conns|);
  }

  // ---- a burst over HTTP/2 --------------------------------------------------------------------

  /** A server that speaks h2 and stays healthy: no close, no shutdown, no pause, no h1 connection. */
  predicate HealthyStep(step: PoolStep) {
    match step
    case Go(_, act) => act.Connected? ==> act.kind.H2?
    case Bind(_) => true
    case PauseOff(_) => true
    case _ => false
  }

  predicate BurstConn(c: Conn) {
    c.kind.H2? && !c.dead && !c.cut && c.paused == 0
  }

  predicate BurstHolder(t: Task, n: nat) {
    && ((t.Tally? || t.Dialing?) ==> n == 0)
    && (t.Scan? && t.locked ==> t.k == 0)
  }

  predicate BurstInv(p: Pool) {
    && |p.conns| <= 1 && p.pausedCap > 0
    && (forall e :: 0 <= e < |p.conns| ==> BurstConn(p.conns[e]))
    && (forall i :: 0 <= i < |p.tasks| ==> BurstHolder(p.tasks[i], |p.conns|))
  }

  lemma BurstStepKeeps(p: Pool, step: PoolStep)
    requires PoolEnabled(p, step) && HealthyStep(step) && PoolInv(p) && BurstInv(p)
    ensures BurstInv(PoolNext(p, step))
  {
    match step
    case Go(i, act) =>
    case Bind(i) =>
    case PauseOn(i) =>
    case PauseOff(i) =>
    case Cut(e) =>
    case Kill(e) =>
    case Shut =>
  }

  lemma {:induction false} BurstRunKeeps(p: Pool, steps: seq<PoolStep>)
    requires PoolInv(p) && BurstInv(p) && PoolCanRun(p, steps)
    requires forall k :: 0 <= k < |steps| ==> HealthyStep(steps[k])
    ensures BurstInv(PoolAfter(p, steps))
    decreases |steps|
  {
    if steps != [] {
      PoolStepKeeps(p, steps[0]);
      BurstStepKeeps(p, steps[0]);
      BurstRunKeeps(PoolNext(p, steps[0]), steps[1..]);
    }
  }

  /** However many requests arrive at once and however they interleave, a healthy h2 server is dialled once. */
  lemma H2BurstOpensOneConnection(n: nat, max: nat, cap: nat, steps: seq<PoolStep>)
    requires cap > 0 && PoolCanRun(NewPool(n, max, cap), steps)
    requires forall k :: 0 <= k < |steps| ==> HealthyStep(steps[k])
    ensures |PoolAfter(NewPool(n, max, cap), steps).conns| <= 1
  {
    BurstRunKeeps(NewPool(n, max, cap), steps);
  }
}

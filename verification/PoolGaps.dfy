/** Runs of the pool that show what its checks, made one read at a time, cannot rule out. */
module PoolGaps {
  import opened Abi
  import opened Pool
  import opened PoolSafety
  import opened PoolTheorems

  lemma {:induction false} PoolRunSnoc(p: Pool, steps: seq<PoolStep>, step: PoolStep)
    requires PoolCanRun(p, steps) && PoolEnabled(PoolAfter(p, steps), step)
    ensures PoolCanRun(p, steps + [step])
    ensures PoolAfter(p, steps + [step]) == PoolNext(PoolAfter(p, steps), step)
    decreases |steps|
  {
    if steps == [] {
      assert [step][1..] == [];
    } else {
      PoolRunSnoc(PoolNext(p, steps[0]), steps[1..], step);
      assert (steps + [step])[1..] == steps[1..] + [step];
    }
  }

  lemma Then(p: Pool, step: PoolStep)
    requires PoolReachable(p) && PoolEnabled(p, step)
    ensures PoolReachable(PoolNext(p, step))
  {
    var n: nat, max: nat, cap: nat, steps: seq<PoolStep> :|
      PoolCanRun(NewPool(n, max, cap), steps) && p == PoolAfter(NewPool(n, max, cap), steps);
    PoolRunSnoc(NewPool(n, max, cap), steps, step);
  }

  /** Three requests on a key with one connection allowed. */
  function Three(conns: seq<Conn>, a: Task, b: Task, c: Task, lock: Option<nat>): Pool {
    Pool(conns, [a, b, c], [None, None, None], [None, None, None], lock, false, 1, 4)
  }

  /** One task's move, seen from its own state. */
  lemma By(conns: seq<Conn>, a: Task, b: Task, c: Task, lock: Option<nat>, i: nat, act: TaskStep,
           conns': seq<Conn>, t: Task, lock': Option<nat>)
    requires PoolReachable(Three(conns, a, b, c, lock)) && i < 3
    requires var p := Three(conns, a, b, c, lock);
             TaskEnabled(p, p.tasks[i], act) && Moved(p, p.tasks[i], act) == t
             && MovedConns(p, p.tasks[i], act) == conns' && Relocked(lock, i, p.tasks[i], t) == lock'
    ensures PoolReachable(Three(conns', if i == 0 then t else a, if i == 1 then t else b, if i == 2 then t else c, lock'))
  {
    var p := Three(conns, a, b, c, lock);
    Then(p, Go(i, act));
    assert p.tasks[i := t] == [if i == 0 then t else a, if i == 1 then t else b, if i == 2 then t else c];
  }

  const IdleH1 := Conn(H1, true, false, false, 0, 0)
  const HeldH1 := Conn(H1, false, false, false, 1, 0)
  const CutH1 := Conn(H1, true, false, true, 0, 0)

  lemma ReachNew()
    ensures PoolReachable(Three([], Out, Out, Out, None))
  {
    var p := NewPool(3, 1, 4);
    assert PoolCanRun(p, []) && PoolAfter(p, []) == p;
    assert p == Three([], Out, Out, Out, None);
  }

  lemma ReachLocked()
    ensures PoolReachable(Three([], Scan(0, true), Out, Out, Some(0)))
  {
    ReachNew();
    By([], Out, Out, Out, None, 0, Begin, [], Scan(0, false), None);
    By([], Scan(0, false), Out, Out, None, 0, Look, [], Waiting, None);
    By([], Waiting, Out, Out, None, 0, Lock, [], Scan(0, true), Some(0));
  }

  lemma ReachFirstDial()
    ensures PoolReachable(Three([], Dialing, Out, Out, Some(0)))
  {
    ReachLocked();
    By([], Scan(0, true), Out, Out, Some(0), 0, Look, [], Tally(0, 0), Some(0));
    By([], Tally(0, 0), Out, Out, Some(0), 0, CountOne, [], Dialing, Some(0));
  }

  /** The first request dials and its h1 connection is in the list. */
  lemma ReachPushed()
    ensures PoolReachable(Three([IdleH1], Pushed(0), Out, Out, Some(0)))
  {
    ReachFirstDial();
    By([], Dialing, Out, Out, Some(0), 0, Connected(H1), [IdleH1], Pushed(0), Some(0));
  }

  /** A request that needs no lock takes the connection between the dialler's push and its own take: the request
      that dialled fails, although its connection is up. */
  lemma DialedConnectionIsStolen()
    ensures PoolReachable(Three([HeldH1], Out, Leased(0), Out, None))
    ensures PoolReachable(Three([HeldH1], Pushed(0), Leased(0), Out, Some(0)))
    ensures !CanTake(HeldH1) && IsOpen(HeldH1)
  {
    ReachPushed();
    By([IdleH1], Pushed(0), Out, Out, Some(0), 1, Begin, [IdleH1], Scan(0, false), Some(0));
    By([IdleH1], Pushed(0), Scan(0, false), Out, Some(0), 1, Look, [IdleH1], Peeked(0, false), Some(0));
    By([IdleH1], Pushed(0), Peeked(0, false), Out, Some(0), 1, Take, [HeldH1], Leased(0), Some(0));
    By([HeldH1], Pushed(0), Leased(0), Out, Some(0), 0, TakeOwn, [HeldH1], Out, None);
  }

  lemma ReachReturned()
    ensures PoolReachable(Three([IdleH1], Out, Out, Out, None))
  {
    ReachPushed();
    By([IdleH1], Pushed(0), Out, Out, Some(0), 0, TakeOwn, [HeldH1], Leased(0), None);
    By([HeldH1], Leased(0), Out, Out, None, 0, DropSender, [HeldH1.(idle := true)], Dropping(0), None);
    By([HeldH1.(idle := true)], Dropping(0), Out, Out, None, 0, DropDone, [IdleH1], Out, None);
  }

  /** One request has found the idle connection eligible when its peer closes it. */
  lemma ReachPeeked()
    ensures PoolReachable(Three([CutH1], Out, Peeked(0, false), Out, None))
  {
    ReachReturned();
    By([IdleH1], Out, Out, Out, None, 1, Begin, [IdleH1], Scan(0, false), None);
    By([IdleH1], Out, Scan(0, false), Out, None, 1, Look, [IdleH1], Peeked(0, false), None);
    Then(Three([IdleH1], Out, Peeked(0, false), Out, None), Cut(0));
    assert PoolNext(Three([IdleH1], Out, Peeked(0, false), Out, None), Cut(0)) == Three([CutH1], Out, Peeked(0, false), Out, None);
  }

  lemma ReachRelocked()
    ensures PoolReachable(Three([CutH1], Out, Peeked(0, false), Scan(0, true), Some(2)))
  {
    ReachPeeked();
    By([CutH1], Out, Peeked(0, false), Out, None, 2, Begin, [CutH1], Scan(0, false), None);
    By([CutH1], Out, Peeked(0, false), Scan(0, false), None, 2, Look, [CutH1], Scan(1, false), None);
    By([CutH1], Out, Peeked(0, false), Scan(1, false), None, 2, Look, [CutH1], Waiting, None);
    By([CutH1], Out, Peeked(0, false), Waiting, None, 2, Lock, [CutH1], Scan(0, true), Some(2));
  }

  /** Meanwhile another request counts no live connection and dials. */
  lemma ReachRedialing()
    ensures PoolReachable(Three([CutH1], Out, Peeked(0, false), Dialing, Some(2)))
  {
    ReachRelocked();
    By([CutH1], Out, Peeked(0, false), Scan(0, true), Some(2), 2, Look, [CutH1], Scan(1, true), Some(2));
    By([CutH1], Out, Peeked(0, false), Scan(1, true), Some(2), 2, Look, [CutH1], Tally(0, 0), Some(2));
    By([CutH1], Out, Peeked(0, false), Tally(0, 0), Some(2), 2, CountOne, [CutH1], Tally(1, 0), Some(2));
    By([CutH1], Out, Peeked(0, false), Tally(1, 0), Some(2), 2, CountOne, [CutH1], Dialing, Some(2));
  }

  /** The stale take hides the closed peer again, and once the dial succeeds the pool counts two live connections where
      one is allowed. */
  lemma StaleTakeOvercounts()
    ensures var p := Three([WithLease(CutH1), IdleH1], Out, Leased(0), Pushed(1), Some(2));
            PoolReachable(p) && p.maxConns == 1 && Number(p.conns, true) == 2
  {
    ReachRedialing();
    By([CutH1], Out, Peeked(0, false), Dialing, Some(2), 1, Take, [WithLease(CutH1)], Leased(0), Some(2));
    By([WithLease(CutH1)], Out, Leased(0), Dialing, Some(2), 2, Connected(H1), [WithLease(CutH1), IdleH1], Pushed(1), Some(2));
    NumberAppend([], WithLease(CutH1), true);
    assert [] + [WithLease(CutH1)] == [WithLease(CutH1)];
    NumberAppend([WithLease(CutH1)], IdleH1, true);
    assert [WithLease(CutH1)] + [IdleH1] == [WithLease(CutH1), IdleH1];
  }

  /** Two requests on a key with one paused stream allowed per connection. */
  function Two(conns: seq<Conn>, a: Task, b: Task, lock: Option<nat>): Pool {
    Pool(conns, [a, b], [None, None], [None, None], lock, false, 8, 1)
  }

  lemma ByTwo(conns: seq<Conn>, a: Task, b: Task, lock: Option<nat>, i: nat, act: TaskStep,
              conns': seq<Conn>, t: Task, lock': Option<nat>)
    requires PoolReachable(Two(conns, a, b, lock)) && i < 2
    requires var p := Two(conns, a, b, lock);
             TaskEnabled(p, p.tasks[i], act) && Moved(p, p.tasks[i], act) == t
             && MovedConns(p, p.tasks[i], act) == conns' && Relocked(lock, i, p.tasks[i], t) == lock'
    ensures PoolReachable(Two(conns', if i == 0 then t else a, if i == 1 then t else b, lock'))
  {
    var p := Two(conns, a, b, lock);
    Then(p, Go(i, act));
    assert p.tasks[i := t] == [if i == 0 then t else a, if i == 1 then t else b];
  }

  const SharedH2 := Conn(H2, false, false, false, 0, 0)

  lemma ReachScanning()
    ensures PoolReachable(Two([], Scan(0, true), Out, Some(0)))
  {
    var p := NewPool(2, 8, 1);
    assert PoolCanRun(p, []) && PoolAfter(p, []) == p;
    assert p == Two([], Out, Out, None);
    ByTwo([], Out, Out, None, 0, Begin, [], Scan(0, false), None);
    ByTwo([], Scan(0, false), Out, None, 0, Look, [], Waiting, None);
    ByTwo([], Waiting, Out, None, 0, Lock, [], Scan(0, true), Some(0));
  }

  lemma ReachDialing()
    ensures PoolReachable(Two([], Dialing, Out, Some(0)))
  {
    ReachScanning();
    ByTwo([], Scan(0, true), Out, Some(0), 0, Look, [], Tally(0, 0), Some(0));
    ByTwo([], Tally(0, 0), Out, Some(0), 0, CountOne, [], Dialing, Some(0));
  }

  lemma ReachShared()
    ensures PoolReachable(Two([SharedH2.(active := 1)], Leased(0), Out, None))
  {
    ReachDialing();
    ByTwo([], Dialing, Out, Some(0), 0, Connected(H2), [SharedH2], Pushed(0), Some(0));
    ByTwo([SharedH2], Pushed(0), Out, Some(0), 0, TakeOwn, [SharedH2.(active := 1)], Leased(0), None);
  }

  lemma ReachTwoLeases()
    ensures PoolReachable(Two([SharedH2.(active := 2)], Leased(0), Leased(0), None))
  {
    ReachShared();
    var conns := [SharedH2.(active := 1)];
    ByTwo(conns, Leased(0), Out, None, 1, Begin, conns, Scan(0, false), None);
    ByTwo(conns, Leased(0), Scan(0, false), None, 1, Look, conns, Peeked(0, false), None);
    ByTwo(conns, Leased(0), Peeked(0, false), None, 1, Take, [SharedH2.(active := 2)], Leased(0), None);
  }

  function Paused(guards: seq<Option<nat>>, paused: nat): Pool {
    Pool([SharedH2.(active := 2, paused := paused)], [Leased(0), Leased(0)], [Some(0), Some(0)], guards, None, false, 8, 1)
  }

  lemma ReachBound()
    ensures PoolReachable(Paused([None, None], 0))
  {
    ReachTwoLeases();
    var p := Two([SharedH2.(active := 2)], Leased(0), Leased(0), None);
    Then(p, Bind(0));
    var q := PoolNext(p, Bind(0));
    assert q.bounds == [Some(0), None];
    Then(q, Bind(1));
    assert PoolNext(q, Bind(1)) == Paused([None, None], 0);
  }

  /** The paused cap turns new requests away from a connection. It does not bound the streams paused on it: two
      requests that share an h2 connection both pause under a cap of one. */
  lemma PausedCapIsNoBound()
    ensures PoolReachable(Paused([Some(0), None], 1)) && !IsEligible(Paused([Some(0), None], 1).conns[0], 1)
    ensures PoolReachable(Paused([Some(0), Some(0)], 2))
  {
    ReachBound();
    var p := Paused([None, None], 0);
    Then(p, PauseOn(0));
    var q := Paused([Some(0), None], 1);
    assert PoolNext(p, PauseOn(0)) == q;
    Then(q, PauseOn(1));
    assert PoolNext(q, PauseOn(1)) == Paused([Some(0), Some(0)], 2);
  }
}

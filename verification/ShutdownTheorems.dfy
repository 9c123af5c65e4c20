/** What every run of the shutdown guarantees, and exactly when it is exhaustive. */
module ShutdownTheorems {
  import opened Abi
  import opened Shutdown

  ghost predicate ShutReachable(s: Shut) {
    exists n: nat, callers: nat, steps: seq<ShutStep> ::
      ShutCanRun(NewShut(n, callers), steps) && s == ShutAfter(NewShut(n, callers), steps)
  }

  lemma {:induction false} ShutRunKeeps(s: Shut, steps: seq<ShutStep>)
    requires ShutInv(s) && ShutCanRun(s, steps)
    ensures ShutInv(ShutAfter(s, steps))
    decreases |steps|
  {
    if steps != [] {
      ShutStepKeeps(s, steps[0]);
      ShutRunKeeps(ShutNext(s, steps[0]), steps[1..]);
    }
  }

  lemma ReachableShut(s: Shut)
    requires ShutReachable(s)
    ensures ShutInv(s)
  {
    var n: nat, callers: nat, steps: seq<ShutStep> :|
      ShutCanRun(NewShut(n, callers), steps) && s == ShutAfter(NewShut(n, callers), steps);
    assert NewShut(n, callers).handles[..0] == [];
    ShutRunKeeps(NewShut(n, callers), steps);
  }

  /** However many callers race, one of them walks the map: somebody does once shutdown has started, and nobody
      else. */
  lemma OneSweeper(s: Shut, i: nat, j: nat)
    requires ShutReachable(s) && i < |s.callers| && j < |s.callers|
    ensures s.started <==> exists k :: 0 <= k < |s.callers| && s.callers[k].Winner?
    ensures s.callers[i].Winner? && s.callers[j].Winner? ==> i == j
  {
    ReachableShut(s);
  }

  /** No caller returns before every driver taken from the map has been awaited, and none is awaited twice. */
  lemma ReturnMeansJoined(s: Shut, i: nat, e: nat)
    requires ShutReachable(s) && i < |s.callers| && s.callers[i].Returned? && e < |s.entries|
    ensures s.closed && s.complete
    ensures s.entries[e].joins == if s.entries[e].driver then 0 else 1
    ensures !s.entries[e].driver ==> s.entries[e].dead
  {
    ReachableShut(s);
    assert CallerInv(s.callers[i], s.work, s.complete);
    assert s.handles[..|s.handles|] == s.handles;
  }

  // ---- nobody sleeps forever ------------------------------------------------------------------

  /** Own steps a waiting caller still needs once the flag is set and the notification sent. */
  function StepsLeft(c: Caller): nat {
    match c
    case Sleep(_) => 2
    case Arm => 2
    case Check => 1
    case Recheck(_) => 1
    case _ => 0
  }

  /** After the winner is finished every caller that lost can move, each move brings it nearer to returning, and
      nothing anyone else does takes it further away: no wakeup is lost, whichever of the two checks raced. */
  lemma NoLoserSleepsForever(s: Shut, i: nat, step: ShutStep)
    requires ShutReachable(s) && s.work.Finished? && i < |s.callers|
    requires !s.callers[i].Idle? && !s.callers[i].Winner? && !s.callers[i].Returned?
    requires ShutEnabled(s, step)
    ensures ShutEnabled(s, Wait(i))
    ensures var c := ShutNext(s, Wait(i)).callers[i]; c.Returned? || StepsLeft(c) < StepsLeft(s.callers[i])
    ensures step != Wait(i) ==> ShutNext(s, step).callers[i] == s.callers[i] && ShutNext(s, step).work.Finished?
  {
    ReachableShut(s);
    assert CallerInv(s.callers[i], s.work, s.complete);
  }

  // ---- exhaustive, and exactly when -----------------------------------------------------------

  predicate AllJoined(entries: seq<Entry>) {
    forall e :: 0 <= e < |entries| ==> entries[e].joins == 1
  }

  /** Nothing can be pushed any more, so the walk misses nothing. */
  predicate Quiet(s: Shut) {
    && s.inFlight == 0 && (s.closed || s.work.Closing?)
    && (s.work.Sweeping? ==> s.work.base == |s.entries|)
    && (Swept(s.work) ==> forall e: nat :: e < |s.entries| ==> !s.entries[e].driver)
  }

  lemma {:induction false} QuietRun(s: Shut, steps: seq<ShutStep>)
    requires ShutInv(s) && Quiet(s) && s.closed && ShutCanRun(s, steps)
    ensures Quiet(ShutAfter(s, steps))
    decreases |steps|
  {
    if steps != [] {
      ShutStepKeeps(s, steps[0]);
      QuietRun(ShutNext(s, steps[0]), steps[1..]);
    }
  }

  lemma QuietShutdownJoinsAll(s: Shut, steps: seq<ShutStep>)
    requires ShutInv(s) && s.work.Sweeping? && s.inFlight == 0 && s.work.base == |s.entries|
    requires ShutCanRun(s, steps) && ShutAfter(s, steps).complete
    ensures AllJoined(ShutAfter(s, steps).entries)
  {
    QuietRun(s, steps);
    ShutRunKeeps(s, steps);
    var t := ShutAfter(s, steps);
    assert t.handles[..|t.handles|] == t.handles;
  }

  /** The walk can always be finished. */
  lemma {:induction false} SweepFrom(s: Shut, k: nat) returns (steps: seq<ShutStep>)
    requires ShutInv(s) && s.work.Sweeping? && k <= s.work.base
    requires forall e: nat :: e < k ==> !s.entries[e].driver
    ensures ShutCanRun(s, steps) && ShutAfter(s, steps).work.Clearing? && ShutAfter(s, steps).inFlight == s.inFlight
    decreases s.work.base - k
  {
    if k == s.work.base {
      steps := [Own(SweepEnd)];
    } else if s.entries[k].driver {
      OwnKeeps(s, SweepOne(k));
      var rest := SweepFrom(ShutNext(s, Own(SweepOne(k))), k + 1);
      steps := [Own(SweepOne(k))] + rest;
    } else {
      steps := SweepFrom(s, k + 1);
    }
  }

  /** So can the joins, after which the flag goes up; a driver that was not taken stays unjoined. */
  lemma {:induction false} JoinFrom(s: Shut, e: nat) returns (steps: seq<ShutStep>)
    requires ShutInv(s) && s.work.Joining? && e < |s.entries| && s.entries[e].driver
    ensures ShutCanRun(s, steps) && ShutAfter(s, steps).complete
    ensures e < |ShutAfter(s, steps).entries| && ShutAfter(s, steps).entries[e].joins == 0
    decreases |s.handles| - s.work.j
  {
    if s.work.j < |s.handles| {
      OwnKeeps(s, JoinOne);
      var rest := JoinFrom(ShutNext(s, Own(JoinOne)), e);
      steps := [Own(JoinOne)] + rest;
    } else {
      assert e !in s.handles;
      var s1 := ShutNext(s, Own(JoinEnd));
      assert ShutCanRun(s1, [Own(SetFlag)]) && ShutAfter(s1, [Own(SetFlag)]) == ShutNext(s1, Own(SetFlag));
      steps := [Own(JoinEnd)] + [Own(SetFlag)];
    }
  }

  lemma {:induction false} RunThen(s: Shut, first: seq<ShutStep>, rest: seq<ShutStep>)
    requires ShutCanRun(s, first) && ShutCanRun(ShutAfter(s, first), rest)
    ensures ShutCanRun(s, first + rest) && ShutAfter(s, first + rest) == ShutAfter(ShutAfter(s, first), rest)
    decreases |first|
  {
    if first == [] {
      assert first + rest == rest;
    } else {
      RunThen(ShutNext(s, first[0]), first[1..], rest);
      assert (first + rest)[1..] == first[1..] + rest;
    }
  }

  /** A run that completes the shutdown and leaves a driver behind. */
  ghost predicate Escapes(s: Shut, steps: seq<ShutStep>) {
    ShutCanRun(s, steps) && ShutAfter(s, steps).complete && !AllJoined(ShutAfter(s, steps).entries)
  }

  /** A request past the closed check pushes after the walk: its driver survives the whole shutdown. */
  lemma LatePushEscapes(s: Shut) returns (steps: seq<ShutStep>)
    requires ShutInv(s) && s.work.Sweeping? && s.inFlight > 0
    ensures Escapes(s, steps)
  {
    var sweep := SweepFrom(s, 0);
    ShutRunKeeps(s, sweep);
    var s2 := ShutAfter(s, sweep);
    ShutStepKeeps(s2, Push);
    var s3 := ShutNext(s2, Push);
    OwnKeeps(s3, Clear);
    var join := JoinFrom(ShutNext(s3, Own(Clear)), |s2.entries|);
    RunThen(s, sweep, [Push] + ([Own(Clear)] + join));
    steps := sweep + ([Push] + ([Own(Clear)] + join));
  }

  /** Every driver is joined by the time shutdown completes, in every run, if and only if no request was past the
      closed check when the flag went up. */
  lemma ShutdownIsExhaustiveIff(s: Shut)
    requires ShutReachable(s) && s.work.Closing?
    ensures s.inFlight == 0 <==> !exists steps :: Escapes(ShutNext(s, Own(CloseFlag)), steps)
  {
    ReachableShut(s);
    OwnKeeps(s, CloseFlag);
    var t := ShutNext(s, Own(CloseFlag));
    if s.inFlight == 0 {
      forall steps | ShutCanRun(t, steps) && ShutAfter(t, steps).complete ensures !Escapes(t, steps) {
        QuietShutdownJoinsAll(t, steps);
      }
    } else {
      var steps := LatePushEscapes(t);
    }
  }
}

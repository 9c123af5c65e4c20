/**
 * Concrete runs into each of the gaps the code leaves open, from a new request.
 */
module BridgeGaps {
  import opened Abi
  import opened Bridge
  import opened BridgeSafety
  import opened BridgeTheorems
  import opened BridgePause
  import opened BridgeWakeups

  lemma ByNet(s: Slot, step: NetStep)
    requires Reachable(Any, s) && NetEnabled(s.flow, step)
    ensures Reachable(Any, NextNet(s, step))
  {
    ReachableStep(Any, s, Net(step));
  }

  lemma ByApi(s: Slot, step: ApiStep)
    requires Reachable(Any, s) && ApiEnabled(s, step)
    ensures Reachable(Any, NextApi(s, step))
  {
    ReachableStep(Any, s, Api(step));
  }

  lemma ByWork(s: Slot, step: WorkStep)
    requires Reachable(Any, s) && WorkEnabled(s, step)
    ensures Reachable(Any, NextWork(s, step))
  {
    ReachableStep(Any, s, Work(step));
  }

  /** A callback returns without a wish and the slice goes on. */
  lemma GoOn(s: Slot)
    requires Reachable(Any, s) && s.owner.Calling?
    ensures Reachable(Any, NextReact(NextReturn(s, CHUNK_CONTINUE)))
    ensures NextReact(NextReturn(s, CHUNK_CONTINUE)) ==
              s.(hold := s.hold.(inCallback := false, permit := false), log := Note(s, s.owner.ev, Returned), owner := Working(s.owner.left))
  {
    ByWork(s, Return(CHUNK_CONTINUE));
    ByWork(NextReturn(s, CHUNK_CONTINUE), React);
  }

  const H := Headers(200, 1, [])
  const C := Chunk([1])
  const Aborted := Terminal(ERR_CANCELLED, 0)

  const Fetched := Flow([], 8, Fetching(true), true, [H], [H], [H], [H])
  const Open := Life(Running, None, None, false, None, false)
  const Idle := Hold(false, false, false, 0)

  lemma ReachQueued()
    ensures Reachable(Any, Init(8, true).(flow := Flow([H], 7, Fetching(true), true, [H], [H], [], []), sched := Sched(true, 1, 0, 0, false)))
  {
    var s := Init(8, true);
    assert CanRun(Any, s, []) && After(Any, s, []) == s;
    ByNet(s, Respond(H));
    s := NextNet(s, Respond(H));
    ByNet(s, Acquire);
    s := NextNet(s, Acquire);
    ByNet(s, Recheck);
    s := NextNet(s, Recheck);
    ByNet(s, Push);
    assert NextNet(s, Push) == Init(8, true).(flow := Flow([H], 7, Fetching(true), true, [H], [H], [], []), sched := Sched(true, 1, 0, 0, false));
  }

  /** A worker is inside on_headers. */
  const InHeaders := Slot(8, true, Open, Fetched, Hold(false, true, false, 0), Sched(false, 0, 0, 0, true), Calling(H, 7), [Begin(H)])

  lemma ReachInHeaders()
    ensures Reachable(Any, InHeaders)
  {
    ReachQueued();
    var s := Init(8, true).(flow := Flow([H], 7, Fetching(true), true, [H], [H], [], []), sched := Sched(true, 1, 0, 0, false));
    ByWork(s, Pop);
    s := NextWork(s, Pop);
    ByWork(s, Start);
    s := NextWork(s, Start);
    ByWork(s, Take);
    assert NextWork(s, Take) == InHeaders;
  }

  /** The worker found the queue empty after the headers and has not yet read done_ready. */
  const AtChecked := Slot(8, true, Open, Fetched, Idle, Sched(false, 0, 0, 0, true), Checked, [Begin(H), Returned])

  lemma ReachAtChecked()
    ensures Reachable(Any, AtChecked)
  {
    ReachInHeaders();
    var s := InHeaders;
    GoOn(s);
    s := NextReact(NextReturn(s, CHUNK_CONTINUE));
    ByWork(s, Take);
    s := NextWork(s, Take);
    ByWork(s, Look);
    assert NextWork(s, Look) == AtChecked;
  }

  const TwoSent := Flow([C], 7, Fetching(true), true, [H, C], [H, C], [H], [H])

  function WithChunk(f: Flow): Flow
    requires f.permits > 0
  {
    f.(queue := f.queue + [C], permits := f.permits - 1, received := f.received + [C], sent := f.sent + [C], committed := true)
  }

  /** One more chunk arrives and is queued. */
  lemma ChunkArrives(s: Slot)
    requires Reachable(Any, s) && s.flow.producer == Fetching(true) && s.flow.permits > 0 && s.life == Open && !s.hold.paused
    ensures Reachable(Any, s.(flow := WithChunk(s.flow), sched := Schedule(s.sched)))
  {
    var s1 := NextNet(s, Frame(Some([1])));
    ByNet(s, Frame(Some([1])));
    var s2 := NextNet(s1, Acquire);
    ByNet(s1, Acquire);
    var s3 := NextNet(s2, Recheck);
    ByNet(s2, Recheck);
    ByNet(s3, Push);
    assert NextNet(s3, Push).flow == WithChunk(s.flow);
  }

  lemma QueueChunk(s: Slot)
    requires Reachable(Any, s) && s.flow == Fetched && s.life == Open && !s.hold.paused && s.sched == Sched(false, 0, 0, 0, true)
    ensures Reachable(Any, s.(flow := TwoSent, sched := Sched(true, 1, 0, 0, true)))
  {
    ChunkArrives(s);
    assert WithChunk(Fetched) == TwoSent;
  }

  lemma EndBody(s: Slot)
    requires Reachable(Any, s) && s.flow.producer == Fetching(true) && s.life == Open
    ensures Reachable(Any, s.(flow := s.flow.(producer := Stopped, permits := s.flow.permits + 1),
                              life := Life(Drain, None, Some(Completed), true, None, false), sched := Schedule(s.sched)))
  {
    var s1 := NextNet(s, EndOfBody);
    ByNet(s, EndOfBody);
    ByApi(s1, SettlePublish);
    assert NextApi(s1, SettlePublish).life == Life(Drain, None, Some(Completed), true, None, false);
  }

  // ---- gap 1: the emptiness test and the read of done_ready -----------------------------------

  const LateDrain := Slot(8, true, Life(Drain, None, Some(Completed), true, None, false),
    Flow([C], 8, Stopped, true, [H, C], [H, C], [H], [H]), Idle, Sched(true, 1, 0, 0, true), Checked, [Begin(H), Returned])

  lemma ReachLateDrain()
    ensures Reachable(Any, LateDrain) && LateDone(LateDrain, Work(ReadDone))
  {
    ReachAtChecked();
    QueueChunk(AtChecked);
    EndBody(AtChecked.(flow := TwoSent, sched := Sched(true, 1, 0, 0, true)));
  }

  /**
   * If the last chunk and the end of the body arrive between the two reads, Done reports success
   * without that chunk, and the chunk is then delivered after Done.
   */
  lemma EventAfterDone()
    ensures exists s :: Reachable(Any, s) && s.log == [Begin(H), Returned, BeginDone(Completed), DoneReturned, Begin(C)]
  {
    ReachLateDrain();
    var s := LateDrain;
    ByWork(s, ReadDone);
    s := NextWork(s, ReadDone);
    ByWork(s, DoneReturn);
    s := NextWork(s, DoneReturn);
    ByWork(s, Release);
    s := NextWork(s, Release);
    DeliverAgain(s);
    var t :| Reachable(Any, t) && t.log == s.log + [Begin(C)];
    assert t.log == [Begin(H), Returned, BeginDone(Completed), DoneReturned, Begin(C)];
  }

  /** Nothing in a slice looks at the finished flag before it delivers. */
  lemma DeliverAgain(s: Slot)
    requires Reachable(Any, s) && s.owner.Away? && !s.sched.running && s.sched.tickets > 0 && !s.hold.paused
    requires s.flow.queue == [C] && s.hasOnChunk && !s.life.gate.Discard?
    ensures exists t :: Reachable(Any, t) && t.log == s.log + [Begin(C)]
  {
    var s1 := NextWork(s, Pop);
    ByWork(s, Pop);
    var s2 := NextWork(s1, Start);
    ByWork(s1, Start);
    var s3 := NextWork(s2, Take);
    ByWork(s2, Take);
    assert s3.log == s.log + [Begin(C)];
  }

  // ---- gap 2: a worker bounces off an owner that has decided to leave --------------------------

  /** The settlement's own wakeup is spent on an owner that has just read done_ready as false. */
  lemma DecidedOwnerLosesDone()
    ensures exists s :: Reachable(Any, s) && BounceGap(s, Work(Start)) && Stranded(Next(s, Work(Start)))
  {
    ReachAtChecked();
    var s := NextWork(AtChecked, ReadDone);
    ByWork(AtChecked, ReadDone);
    EndBody(s);
    s := s.(flow := s.flow.(producer := Stopped, permits := 9),
            life := Life(Drain, None, Some(Completed), true, None, false), sched := Sched(true, 1, 0, 0, true));
    ByWork(s, Pop);
    s := NextWork(s, Pop);
    assert BounceGap(s, Work(Start)) && Stranded(NextStart(s));
  }

  // ---- gap 3: CANCEL after another settlement has won ------------------------------------------

  /** A ticket is spent on a slot that is owned. */
  lemma BounceAway(s: Slot)
    requires Reachable(Any, s) && s.sched == Sched(true, 1, 0, 0, true)
    ensures Reachable(Any, s.(sched := Sched(false, 0, 0, 0, true)))
  {
    var s1 := NextWork(s, Pop);
    ByWork(s, Pop);
    var s2 := NextWork(s1, Start);
    ByWork(s1, Start);
    ByWork(s2, Bounced);
    assert NextWork(s2, Bounced).sched == Sched(false, 0, 0, 0, true);
  }

  const AbortedInHeaders := InHeaders.(life := Life(Discard, None, Some(Aborted), true, None, false),
                                       flow := Fetched.(permits := 9))

  lemma ReachAbortedInHeaders()
    ensures Reachable(Any, AbortedInHeaders)
  {
    ReachInHeaders();
    var s := NextApi(InHeaders, SettleClaim(Aborted));
    ByApi(InHeaders, SettleClaim(Aborted));
    ByApi(s, SettlePublish);
    assert NextApi(s, SettlePublish) == AbortedInHeaders.(sched := Sched(true, 1, 0, 0, true));
    BounceAway(AbortedInHeaders.(sched := Sched(true, 1, 0, 0, true)));
  }

  lemma LateCancelLosesDone()
    ensures exists s :: Reachable(Any, s) && CancelGap(s, Work(React)) && Stranded(Next(s, Work(React)))
  {
    ReachAbortedInHeaders();
    ByWork(AbortedInHeaders, Return(HEADERS_CANCEL));
    var s := NextReturn(AbortedInHeaders, HEADERS_CANCEL);
    assert CancelGap(s, Work(React)) && Stranded(NextReact(s));
  }

  // ---- gap 4: a bounce that clears `scheduled` late --------------------------------------------

  lemma LateBounceLosesDone()
    ensures exists s :: Reachable(Any, s) && FlagGap(s, Api(SettlePublish)) && Stranded(Next(s, Api(SettlePublish)))
  {
    ReachInHeaders();
    QueueChunk(InHeaders);
    var s := InHeaders.(flow := TwoSent, sched := Sched(true, 1, 0, 0, true));
    ByWork(s, Pop);
    s := NextWork(s, Pop);
    ByWork(s, Start);
    s := NextWork(s, Start);
    assert s == InHeaders.(flow := TwoSent, sched := Sched(true, 0, 0, 1, true));
    FinishSlice(s);
    LeaveWithoutTicket(s.(owner := Checked, hold := Idle, flow := TwoSent.(queue := [], permits := 8, gone := [H, C], consumed := [H, C]),
                          log := [Begin(H), Returned, Begin(C), Returned]));
  }

  lemma FinishSlice(s: Slot)
    requires Reachable(Any, s) && s == InHeaders.(flow := TwoSent, sched := Sched(true, 0, 0, 1, true))
    ensures Reachable(Any, s.(owner := Checked, hold := Idle, flow := TwoSent.(queue := [], permits := 8, gone := [H, C], consumed := [H, C]),
                              log := [Begin(H), Returned, Begin(C), Returned]))
  {
    var s1 := NextReact(NextReturn(s, CHUNK_CONTINUE));
    GoOn(s);
    var s2 := NextWork(s1, Take);
    ByWork(s1, Take);
    assert s2.owner == Calling(C, 6);
    var s3 := NextReact(NextReturn(s2, CHUNK_CONTINUE));
    GoOn(s2);
    assert s3.owner == Working(6) && s3.flow.queue == [];
    var s4 := NextWork(s3, Take);
    ByWork(s3, Take);
    ByWork(s4, Look);
    assert NextWork(s4, Look).flow == TwoSent.(queue := [], permits := 8, gone := [H, C], consumed := [H, C]);
  }

  lemma LeaveWithoutTicket(s: Slot)
    requires Reachable(Any, s) && s.owner.Checked? && s.life == Open && s.hold == Idle && s.sched == Sched(true, 0, 0, 1, true)
    requires s.flow.queue == [] && s.flow.producer == Fetching(true)
    ensures exists t :: Reachable(Any, t) && FlagGap(t, Api(SettlePublish)) && Stranded(Next(t, Api(SettlePublish)))
  {
    var s1 := NextWork(s, ReadDone);
    ByWork(s, ReadDone);
    var s2 := NextWork(s1, Release);
    ByWork(s1, Release);
    var s3 := NextNet(s2, EndOfBody);
    ByNet(s2, EndOfBody);
    assert FlagGap(s3, Api(SettlePublish)) && Stranded(Publish(s3));
  }

  // ---- gap 5: an early resume that stores its permit late --------------------------------------

  const AtChunk := Slot(8, true, Open, TwoSent.(queue := [], permits := 8, gone := [H, C], consumed := [H, C]),
    Hold(false, true, false, 0), Sched(true, 1, 0, 0, true), Calling(C, 6), [Begin(H), Returned, Begin(C)])

  lemma ReachAtChunk()
    ensures Reachable(Any, AtChunk)
  {
    ReachInHeaders();
    QueueChunk(InHeaders);
    var s := InHeaders.(flow := TwoSent, sched := Sched(true, 1, 0, 0, true));
    GoOn(s);
    s := NextReact(NextReturn(s, CHUNK_CONTINUE));
    ByWork(s, Take);
    assert NextWork(s, Take) == AtChunk;
  }

  /** A chunk callback asks for a pause and gets it. */
  lemma Parks(s: Slot)
    requires Reachable(Any, s) && s.owner.Calling? && s.owner.ev.Chunk? && s.hasOnChunk && !s.hold.permit
    ensures Reachable(Any, NextReturn(s, CHUNK_PAUSE))
    ensures Reachable(Any, s.(hold := s.hold.(inCallback := false, paused := true), owner := Decided(false), log := s.log + [Returned]))
  {
    ByWork(s, Return(CHUNK_PAUSE));
    ByWork(NextReturn(s, CHUNK_PAUSE), React);
    assert NextReact(NextReturn(s, CHUNK_PAUSE)) ==
           s.(hold := s.hold.(inCallback := false, paused := true), owner := Decided(false), log := s.log + [Returned]);
  }

  const LateStore := AtChunk.(hold := Hold(true, false, false, 1), owner := Decided(false), log := AtChunk.log + [Returned])

  lemma LateStoreLeaksPermit()
    ensures Reachable(Any, LateStore) && LeaksPermit(LateStore, Api(ResumeStore)) && Enabled(LateStore, Api(ResumeStore))
    ensures LateStore.hold.paused && Next(LateStore, Api(ResumeStore)).hold.permit
  {
    ReachAtChunk();
    ByApi(AtChunk, ResumeSee);
    Parks(NextApi(AtChunk, ResumeSee));
  }

  /** A callback is about to be opened and a permit is left over that no resume of this callback stored. */
  predicate HoldsOldPermit(s: Slot) {
    && s.owner.Working? && s.owner.left > 0 && !s.hold.paused && s.hold.permit && s.hasOnChunk
    && s.flow.queue != [] && s.flow.queue[0].Chunk? && !s.life.gate.Discard?
  }

  /** Nobody but the worker acts, and yet the pause its callback asks for is not entered. */
  predicate SwallowsPause(s: Slot) {
    && s.owner.Working? && var t := Next(s, Work(Take));
       t.owner.Calling? && !Next(Next(t, Work(Return(CHUNK_PAUSE))), Work(React)).hold.paused
  }

  lemma OldPermitSwallowsPause(s: Slot)
    requires HoldsOldPermit(s)
    ensures SwallowsPause(s)
  {}

  /** From the late store on: a resume releases the pause, the next chunk arrives, and its pause is swallowed. */
  lemma LeakedPermitSwallowsPause()
    ensures exists s :: Reachable(Any, s) && HoldsOldPermit(s) && s.hold.resuming == 0 && SwallowsPause(s)
  {
    LateStoreLeaksPermit();
    ByApi(LateStore, ResumeStore);
    var s := LateStore.(hold := Hold(true, false, true, 0));
    ByWork(s, Release);
    s := s.(owner := Away, sched := Sched(true, 1, 0, 0, false));
    ByApi(s, Resume);
    s := s.(hold := Hold(false, false, true, 0));
    ChunkArrives(s);
    StartsWithPermit(s.(flow := WithChunk(s.flow)));
  }

  lemma StartsWithPermit(s: Slot)
    requires Reachable(Any, s) && s.owner.Away? && s.sched == Sched(true, 1, 0, 0, false) && s.hold == Hold(false, false, true, 0)
    requires s.flow.queue == [C] && s.hasOnChunk && !s.life.gate.Discard?
    ensures exists t :: Reachable(Any, t) && HoldsOldPermit(t) && t.hold.resuming == 0 && SwallowsPause(t)
  {
    ByWork(s, Pop);
    ByWork(NextWork(s, Pop), Start);
    var t := NextWork(NextWork(s, Pop), Start);
    OldPermitSwallowsPause(t);
  }

  // ---- an abort that is parked ------------------------------------------------------------------

  /** The abort wins while a chunk callback is open, and that callback then asks for a pause. */
  lemma AbortedRequestParks()
    ensures exists s :: Reachable(Any, s) && ParksDiscard(s, Work(React)) && ParkedDiscard(Next(s, Work(React)))
  {
    ReachAtChunk();
    var s := NextApi(AtChunk, SettleClaim(Aborted));
    ByApi(AtChunk, SettleClaim(Aborted));
    ByApi(s, SettlePublish);
    s := NextApi(s, SettlePublish);
    ByWork(s, Return(CHUNK_PAUSE));
    s := NextWork(s, Return(CHUNK_PAUSE));
    assert ParksDiscard(s, Work(React)) && ParkedDiscard(NextReact(s));
  }

  // ---- a parked slot in the ready queue ----------------------------------------------------------

  const ThreeSent := TwoSent.(received := [H, C, C], sent := [H, C, C], gone := [H, C], consumed := [H, C])

  /** A worker is about to leave a paused slot with an event queued. */
  const LeavingParked := Slot(8, true, Open, ThreeSent, Hold(true, false, false, 0), Sched(false, 0, 0, 0, true), Decided(false),
    [Begin(H), Returned, Begin(C), Returned])

  lemma ReachLeavingParked()
    ensures Reachable(Any, LeavingParked)
  {
    ReachAtChunk();
    ChunkArrives(AtChunk);
    assert WithChunk(AtChunk.flow) == ThreeSent;
    BounceAway(AtChunk.(flow := ThreeSent));
    Parks(AtChunk.(flow := ThreeSent, sched := Sched(false, 0, 0, 0, true)));
  }

  /** It goes back to the ready queue, without its flag. */
  lemma PushBackLeavesFlagClear()
    ensures exists s :: Reachable(Any, s) && !ParkedQueued(s) && QueuesParked(s, Work(Release))
                        && ParkedQueued(Next(s, Work(Release))) && !Next(s, Work(Release)).sched.scheduled
  {
    ReachLeavingParked();
    assert QueuesParked(LeavingParked, Work(Release)) && ParkedQueued(NextRelease(LeavingParked));
  }

  /** A pause is entered while a copy of the slot is queued already. */
  lemma PauseFindsTicket()
    ensures exists s :: Reachable(Any, s) && !ParkedQueued(s) && QueuesParked(s, Work(React)) && ParkedQueued(Next(s, Work(React)))
  {
    ReachAtChunk();
    Parks(AtChunk);
    var s := NextReturn(AtChunk, CHUNK_PAUSE);
    assert QueuesParked(s, Work(React)) && ParkedQueued(NextReact(s));
  }

  /** A successful settlement schedules a slot that is paused. */
  lemma DrainSchedulesParked()
    ensures exists s :: Reachable(Any, s) && !ParkedQueued(s) && QueuesParked(s, Api(SettlePublish)) && ParkedQueued(Next(s, Api(SettlePublish)))
  {
    ReachAtChunk();
    BounceAway(AtChunk);
    var s := AtChunk.(sched := Sched(false, 0, 0, 0, true));
    Parks(s);
    s := s.(hold := Hold(true, false, false, 0), owner := Decided(false), log := s.log + [Returned]);
    ByNet(s, EndOfBody);
    s := NextNet(s, EndOfBody);
    assert QueuesParked(s, Api(SettlePublish)) && ParkedQueued(Publish(s));
  }

  /** Paused, out of every worker's hands, and in the ready queue with an event it may not deliver. */
  const Spinning := LeavingParked.(owner := Away, sched := Sched(false, 1, 0, 0, false))

  lemma ReachSpinning()
    ensures Reachable(Any, Spinning) && ParkedQueued(Spinning)
  {
    ReachLeavingParked();
    ByWork(LeavingParked, Release);
    assert NextRelease(LeavingParked) == Spinning;
  }

  function Turns(n: nat): seq<Step> {
    if n == 0 then [] else [Work(Pop)] + ([Work(Start)] + ([Work(Release)] + Turns(n - 1)))
  }

  /** However many turns workers give it, such a slot is back in the ready queue as it was and nothing is delivered. */
  lemma {:induction false} ParkedSlotSpins(n: nat)
    ensures Reachable(Any, Spinning) && ParkedQueued(Spinning)
    ensures CanRun(Any, Spinning, Turns(n)) && After(Any, Spinning, Turns(n)) == Spinning
  {
    ReachSpinning();
    if n == 0 {
      assert CanRun(Any, Spinning, []);
    } else {
      ParkedSlotSpins(n - 1);
      var s1 := NextWork(Spinning, Pop);
      var s2 := NextWork(s1, Start);
      assert NextWork(s2, Release) == Spinning;
      RunFirst(s2, Work(Release), Turns(n - 1));
      RunFirst(s1, Work(Start), [Work(Release)] + Turns(n - 1));
      RunFirst(Spinning, Work(Pop), [Work(Start)] + ([Work(Release)] + Turns(n - 1)));
    }
  }
}

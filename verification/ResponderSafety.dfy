/** Every step of the server keeps the registry's invariant. */
module ResponderSafety {
  import opened Abi
  import opened Responder

  /** What a change of one request must leave as it was for the threads that refer to it. */
  predicate ReqChange(q: Req, q': Req, own: bool, sending: bool) {
    && (own || (q'.phase == q.phase && q'.synced == q.synced))
    && (q.synced.Some? ==> q'.synced == q.synced)
    && (sending || !q.tx.Held? || q'.tx == q.tx)
  }

  /** Changing what one thread is doing, with no request. */
  lemma CallKeeps(s: Server, th: nat, c: Call)
    requires ServerInv(s) && th < |s.threads| && !c.Sending?
    ensures ServerInv(WithThread(s, th, s.threads[th].(call := c)))
  {
    var t := WithThread(s, th, s.threads[th].(call := c));
    forall i: nat | i < |t.threads| ensures ThreadOk(t.threads[i], i, t.reqs) && SendOk(t.threads[i].call, t.reqs) {
      assert ThreadOk(s.threads[i], i, s.reqs) && SendOk(s.threads[i].call, s.reqs);
    }
    forall k: nat | k < |t.reqs| ensures ReqOk(t.reqs[k], k + 1, t.threads) {
      assert ReqOk(s.reqs[k], k + 1, s.threads);
    }
  }

  /** Changing one thread and one request together. */
  lemma PairKeepsThreads(s: Server, th: nat, t': Thread, r: nat, q': Req)
    requires ServerInv(s) && th < |s.threads| && Known(s, r)
    requires ReqChange(ReqOf(s, r), q', s.threads[th].inCallback == r, s.threads[th].call.Sending? && s.threads[th].call.r == r)
    requires ThreadOk(t', th, s.reqs[r - 1 := q']) && SendOk(t'.call, s.reqs[r - 1 := q'])
    ensures var u := WithThread(WithReq(s, r, q'), th, t');
            forall i: nat :: i < |u.threads| ==> ThreadOk(u.threads[i], i, u.reqs) && SendOk(u.threads[i].call, u.reqs)
  {
    var u := WithThread(WithReq(s, r, q'), th, t');
    forall i: nat | i < |u.threads| ensures ThreadOk(u.threads[i], i, u.reqs) && SendOk(u.threads[i].call, u.reqs) {
      assert ThreadOk(s.threads[i], i, s.reqs) && SendOk(s.threads[i].call, s.reqs);
      assert ThreadOk(s.threads[th], th, s.reqs);
    }
  }

  lemma PairKeepsReqs(s: Server, th: nat, t': Thread, r: nat, q': Req)
    requires ServerInv(s) && th < |s.threads| && Known(s, r)
    requires t'.inCallback == s.threads[th].inCallback || s.threads[th].inCallback == r
    requires ReqOk(q', r, s.threads[th := t'])
    ensures var u := WithThread(WithReq(s, r, q'), th, t');
            forall k: nat :: k < |u.reqs| ==> ReqOk(u.reqs[k], k + 1, u.threads)
  {
    var u := WithThread(WithReq(s, r, q'), th, t');
    forall k: nat | k < |u.reqs| ensures ReqOk(u.reqs[k], k + 1, u.threads) {
      assert ReqOk(s.reqs[k], k + 1, s.threads);
    }
  }

  lemma PairKeeps(s: Server, th: nat, t': Thread, r: nat, q': Req)
    requires ServerInv(s) && th < |s.threads| && Known(s, r)
    requires ReqChange(ReqOf(s, r), q', s.threads[th].inCallback == r, s.threads[th].call.Sending? && s.threads[th].call.r == r)
    requires ThreadOk(t', th, s.reqs[r - 1 := q']) && SendOk(t'.call, s.reqs[r - 1 := q'])
    requires t'.inCallback == s.threads[th].inCallback || s.threads[th].inCallback == r
    requires ReqOk(q', r, s.threads[th := t'])
    requires t'.call.Sending? ==> t'.call.r == r && ReqOf(s, r).tx.Registered?
    ensures ServerInv(WithThread(WithReq(s, r, q'), th, t'))
  {
    PairKeepsThreads(s, th, t', r, q');
    PairKeepsReqs(s, th, t', r, q');
    var u := WithThread(WithReq(s, r, q'), th, t');
    forall i, j | 0 <= i < j < |u.threads| && u.threads[i].call.Sending? && u.threads[j].call.Sending?
      ensures u.threads[i].call.r != u.threads[j].call.r
    {
      assert SendOk(s.threads[i].call, s.reqs) && SendOk(s.threads[j].call, s.reqs);
    }
  }

  lemma EnterKeeps(s: Server, th: nat)
    requires ServerInv(s) && ServerEnabled(s, Enter(th))
    ensures ServerInv(NextEnter(s, th))
  {
    var u := NextEnter(s, th);
    assert ThreadOk(s.threads[th], th, s.reqs);
    forall i: nat | i < |u.threads| ensures ThreadOk(u.threads[i], i, u.reqs) && SendOk(u.threads[i].call, u.reqs) {
      assert ThreadOk(s.threads[i], i, s.reqs) && SendOk(s.threads[i].call, s.reqs);
    }
    forall k: nat | k < |u.reqs| ensures ReqOk(u.reqs[k], k + 1, u.threads) {
      if k < |s.reqs| { assert ReqOk(s.reqs[k], k + 1, s.threads); }
    }
  }

  lemma ChannelKeeps(s: Server, th: nat, r: nat, d: Delivery, begin: bool)
    requires ServerInv(s) && th < |s.threads| && d.owner == r
    requires d.Busy? ==> Known(s, r) && ReqOf(s, r).synced.Some?
    requires !s.threads[th].call.Sending?
    ensures ServerInv(NextChannel(s, th, r, d, begin))
  {
    if Known(s, r) && ReqOf(s, r).tx.Registered? {
      assert ReqOk(s.reqs[r - 1], r, s.threads) && ThreadOk(s.threads[th], th, s.reqs);
      PairKeeps(s, th, s.threads[th].(call := Sending(r, d, begin)), r, ReqOf(s, r).(tx := Held));
    } else {
      CallKeeps(s, th, if begin then Undoing(r) else NoCall);
    }
  }

  lemma DeliverKeeps(s: Server, th: nat)
    requires ServerInv(s) && ServerEnabled(s, Deliver(th))
    ensures ServerInv(NextDeliver(s, th))
  {
    var t := s.threads[th];
    var r, begin := t.call.r, t.call.Beginning?;
    var d := if begin then Stream(r, t.call.tag) else Buffered(r, t.call.tag);
    assert ThreadOk(t, th, s.reqs);
    if r != 0 && t.inCallback == r && Known(s, r) {
      assert ReqOk(s.reqs[r - 1], r, s.threads);
      if t.slot.None? {
        PairKeeps(s, th, t.(slot := Some(d), call := NoCall), r, Synced(ReqOf(s, r), d));
      } else {
        ChannelKeeps(s, th, r, Busy(r), begin);
      }
    } else {
      ChannelKeeps(s, th, r, d, begin);
    }
  }

  /** The receiver is there: it has its answer. */
  lemma SendArrives(s: Server, th: nat)
    requires ServerInv(s) && ServerEnabled(s, Send(th)) && ReqOf(s, s.threads[th].call.r).alive
    ensures ServerInv(NextSend(s, th))
  {
    var t := s.threads[th];
    var q := ReqOf(s, t.call.r);
    assert ThreadOk(t, th, s.reqs) && SendOk(t.call, s.reqs);
    assert ReqOk(s.reqs[t.call.r - 1], t.call.r, s.threads);
    PairKeeps(s, th, t.(call := NoCall), t.call.r, q.(tx := Spent, channel := Some(t.call.d), chanOk := q.chanOk + 1));
  }

  lemma SendKeeps(s: Server, th: nat)
    requires ServerInv(s) && ServerEnabled(s, Send(th))
    ensures ServerInv(NextSend(s, th))
  {
    var t := s.threads[th];
    var q := ReqOf(s, t.call.r);
    if q.alive {
      SendArrives(s, th);
    } else {
      assert ThreadOk(t, th, s.reqs) && SendOk(t.call, s.reqs);
      assert ReqOk(s.reqs[t.call.r - 1], t.call.r, s.threads);
      PairKeeps(s, th, t.(call := if t.call.begin then Undoing(t.call.r) else NoCall), t.call.r, q.(tx := Spent));
    }
  }

  lemma ReturnKeeps(s: Server, th: nat)
    requires ServerInv(s) && ServerEnabled(s, Return(th))
    ensures ServerInv(NextReturn(s, th))
  {
    var t := s.threads[th];
    var q := ReqOf(s, t.inCallback);
    assert ThreadOk(t, th, s.reqs) && ReqOk(s.reqs[t.inCallback - 1], t.inCallback, s.threads);
    PairKeeps(s, th, t.(inCallback := 0, slot := None), t.inCallback,
              q.(phase := if t.slot.Some? then Took(t.slot.value) else Awaiting));
  }

  /** The handler task on its own: it receives, fails, leaves or is dropped. */
  lemma HandlerKeeps(s: Server, r: nat, q': Req)
    requires ServerInv(s) && Known(s, r) && !ReqOf(s, r).phase.InCallback? && !q'.phase.InCallback? && !q'.phase.Awaiting?
    requires var q := ReqOf(s, r);
             && q' == q.(phase := q'.phase, alive := q'.alive, tx := q'.tx)
             && (q'.tx == q.tx || (q.tx.Registered? && q'.tx.Spent?))
             && (q'.phase.Took? ==> Some(q'.phase.answer) == Answer(q))
             && (q'.phase.Left? ==> !q'.alive && !q'.tx.Registered? && (q'.phase.result.Some? ==> q'.phase.result == Answer(q)))
    ensures ServerInv(WithReq(s, r, q'))
  {
    assert ReqOk(s.reqs[r - 1], r, s.threads);
  }

  lemma ServerStepKeeps(s: Server, step: ServerStep)
    requires ServerInv(s) && ServerEnabled(s, step)
    ensures ServerInv(ServerNext(s, step))
  {
    match step
    case Enter(th) => EnterKeeps(s, th);
    case Respond(th, r, tag) => CallKeeps(s, th, Responding(r, tag));
    case Begin(th, r, tag) => CallKeeps(s, th, Beginning(r, tag));
    case Deliver(th) => DeliverKeeps(s, th);
    case Send(th) => SendKeeps(s, th);
    case Undo(th) => CallKeeps(s, th, NoCall);
    case Finish(r) =>
    case Return(th) => ReturnKeeps(s, th);
    case Receive(r) => TaskKeeps(s, step, r);
    case Lost(r) => TaskKeeps(s, step, r);
    case Leave(r) => TaskKeeps(s, step, r);
    case Gone(r) => TaskKeeps(s, step, r);
    case Unregister(r) => TaskKeeps(s, step, r);
  }

  /** A one-shot sender is never dropped unused, so the failure branch of the wait cannot be taken. */
  lemma NeverLost(s: Server, r: nat)
    requires ServerInv(s)
    ensures !ServerEnabled(s, Lost(r))
  {
    if Known(s, r) { assert ReqOk(s.reqs[r - 1], r, s.threads); }
  }

  lemma TaskKeeps(s: Server, step: ServerStep, r: nat)
    requires ServerInv(s) && ServerEnabled(s, step) && Known(s, r)
    requires step == Receive(r) || step == Lost(r) || step == Leave(r) || step == Gone(r) || step == Unregister(r)
    ensures ServerInv(ServerNext(s, step))
  {
    var q := ReqOf(s, r);
    assert ReqOk(s.reqs[r - 1], r, s.threads);
    NeverLost(s, r);
    if step == Receive(r) {
      HandlerKeeps(s, r, q.(phase := Took(q.channel.value)));
    } else if step == Leave(r) {
      HandlerKeeps(s, r, Drop(q).(phase := Left(Some(q.phase.answer))));
    } else if step == Gone(r) {
      HandlerKeeps(s, r, q.(phase := Leaving, alive := false));
    } else if step == Unregister(r) {
      HandlerKeeps(s, r, Drop(q).(phase := Left(None)));
    }
  }
}

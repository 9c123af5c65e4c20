/**
 * The attempt loop as the task runs it: a budget counted down, a connection asked for and the request sent again until
 * something stops it. Callers and workers act on the request while it waits. The whole is a run of module Attempts.
 */
module AttemptObject {
  import opened Abi
  import opened Bridge
  import opened BridgeSafety
  import opened Retry
  import opened Attempts

  /** What one attempt meets; `peerSaw` is whether the peer saw the request, which the client cannot know. */
  datatype Outcome =
    | AcquireFailed(kind: int)
    | SenderClosed
    | BuildFailed
    | SendFailed(unsent: bool, peerSaw: bool)
    | Responded(h: Event)

  /** One round of the loop, and what others do while it waits for a connection and for the response. */
  datatype Round = Round(acquiring: seq<Step>, outcome: Outcome, sending: seq<Step>)

  predicate Possible(o: Outcome) {
    match o
    case AcquireFailed(kind) => kind != ERR_NONE && kind != ERR_OUTCOME_UNKNOWN && kind != ERR_TRUNCATED
    case SendFailed(unsent, peerSaw) => unsent ==> !peerSaw
    case Responded(h) => h.Headers?
    case _ => true
  }

  lemma {:induction false} AttemptSnoc(a: Attempt, steps: seq<AttemptStep>, step: AttemptStep)
    requires AttemptCanRun(a, steps) && AttemptEnabled(AttemptAfter(a, steps), step)
    ensures AttemptCanRun(a, steps + [step]) && AttemptAfter(a, steps + [step]) == AttemptNext(AttemptAfter(a, steps), step)
    decreases |steps|
  {
    var all := steps + [step];
    if steps == [] {
      assert all[1..] == [];
    } else {
      AttemptSnoc(AttemptNext(a, steps[0]), steps[1..], step);
      assert all[1..] == steps[1..] + [step];
    }
  }

  ghost predicate Runs(a: Attempt, trace: seq<AttemptStep>, b: Attempt) {
    AttemptCanRun(a, trace) && AttemptAfter(a, trace) == b
  }

  lemma RunsOn(a: Attempt, trace: seq<AttemptStep>, b: Attempt, step: AttemptStep)
    requires Runs(a, trace, b) && AttemptEnabled(b, step)
    ensures Runs(a, trace + [step], AttemptNext(b, step))
  {
    AttemptSnoc(a, trace, step);
  }

  class AttemptTask {
    const policy: Policy
    var slot: Slot
    var loop: Loop
    var budget: nat
    var acquires: nat
    var seen: nat

    function View(): Attempt
      reads this
    {
      Attempt(policy, slot, loop, budget, acquires, seen)
    }

    constructor (m: Verb, maxRetries: nat, capacity: nat, hasOnChunk: bool)
      ensures View() == NewAttempt(Policy(maxRetries, m), capacity, hasOnChunk) && AttemptInv(View())
      ensures policy.verb == m && budget == maxRetries && acquires == 0 && seen == 0 && slot.log == []
    {
      policy := Policy(maxRetries, m);
      slot, loop := Init(capacity, hasOnChunk), Acquiring;
      budget, acquires, seen := maxRetries, 0, 0;
    }

    /** Others act on the slot while the task waits: steps that cannot happen are skipped. */
    method Wait(steps: seq<Step>, ghost start: Attempt, ghost before: seq<AttemptStep>) returns (ghost trace: seq<AttemptStep>)
      requires Runs(start, before, View())
      modifies this`slot, this`seen
      ensures Runs(start, trace, View())
    {
      trace := before;
      for k := 0 to |steps|
        invariant Runs(start, trace, View())
      {
        if OtherEnabled(View(), steps[k]) {
          RunsOn(start, trace, View(), Other(steps[k]));
          trace := trace + [Other(steps[k])];
          slot, seen := Next(slot, steps[k]), SeenAfter(View(), steps[k]);
        }
      }
    }

    /** Settles the request, unless somebody else has, and returns. */
    method Settle(kind: int, ghost start: Attempt, ghost before: seq<AttemptStep>) returns (ghost trace: seq<AttemptStep>)
      requires Runs(start, before, View().(loop := Settling(kind))) && Alive(View())
      modifies this`slot, this`loop
      ensures Runs(start, trace, View()) && loop.Ended?
    {
      RunsOn(start, before, View().(loop := Settling(kind)), Own(GiveUp));
      trace := before + [Own(GiveUp)];
      slot := Claim(slot, Terminal(kind, 0), true);
      loop := Ended;
    }

    /** The send failed: try again if the rules allow it, otherwise settle. */
    method AfterSendFailed(unsent: bool, peerSaw: bool, ghost start: Attempt, ghost before: seq<AttemptStep>)
      returns (again: bool, ghost trace: seq<AttemptStep>)
      requires Runs(start, before, View()) && loop.Sending? && Alive(View()) && (unsent ==> !peerSaw)
      modifies this
      ensures Runs(start, trace, View())
      ensures if again then loop.Acquiring? && Alive(View()) && budget < old(budget) else loop.Ended?
      ensures again <==> !old(slot.flow.committed) && old(budget) > 0 && (unsent || policy.verb in SAFE_TO_REPEAT)
    {
      EveryVerb(policy.verb);
      RunsOn(start, before, View(), Own(SendFail(unsent, peerSaw)));
      trace := before + [Own(SendFail(unsent, peerSaw))];
      seen := seen + if peerSaw then 1 else 0;
      var committed := slot.flow.committed;
      if MayRetry(committed, unsent, IsIdempotent(policy.verb), budget) {
        budget := budget - 1;
        loop := Acquiring;
        return true, trace;
      }
      trace := Settle(if committed then ERR_TRUNCATED else ERR_OUTCOME_UNKNOWN, start, trace);
      again := false;
    }

    /** With a connection in hand: test it, build the request, send it, wait. */
    method UseLease(round: Round, ghost start: Attempt, ghost before: seq<AttemptStep>)
      returns (again: bool, ghost trace: seq<AttemptStep>)
      requires Runs(start, before, View()) && loop.Leased? && Alive(View()) && Possible(round.outcome)
      requires !round.outcome.AcquireFailed?
      modifies this
      ensures Runs(start, trace, View())
      ensures if again then loop.Acquiring? && Alive(View()) && budget < old(budget)
              else loop.Ended? || loop.Handing? || !Alive(View())
    {
      if round.outcome.SenderClosed? {
        RunsOn(start, before, View(), Own(FoundClosed));
        trace := before + [Own(FoundClosed)];
        if budget > 0 {
          budget := budget - 1;
          loop := Acquiring;
          return true, trace;
        }
        trace := Settle(ERR_CONNECT, start, trace);
        return false, trace;
      }
      if round.outcome.BuildFailed? {
        RunsOn(start, before, View(), Own(BuildFail));
        trace := Settle(ERR_PROTOCOL, start, before + [Own(BuildFail)]);
        return false, trace;
      }
      RunsOn(start, before, View(), Own(SendOff));
      loop := Sending;
      trace := Wait(round.sending, start, before + [Own(SendOff)]);
      if slot.flow.producer != Fetching(false) {
        return false, trace;
      }
      if round.outcome.SendFailed? {
        again, trace := AfterSendFailed(round.outcome.unsent, round.outcome.peerSaw, start, trace);
        return;
      }
      RunsOn(start, trace, View(), Own(Response(round.outcome.h)));
      trace := trace + [Own(Response(round.outcome.h))];
      slot := NextNet(slot, Respond(round.outcome.h));
      seen, loop := seen + 1, Handing;
      again := false;
    }

    /**
     * Attempts until one gets a response, gives up or is aborted. It is a run of the request, so the bounds on acquires
     * and on what the peer sees, and what the caller is told, hold of it.
     */
    method AttemptLoop(rounds: nat -> Round) returns (ghost trace: seq<AttemptStep>)
      requires AttemptInv(View()) && loop.Acquiring? && forall k: nat :: Possible(rounds(k).outcome)
      modifies this
      ensures Runs(old(View()), trace, View()) && AttemptInv(View())
      ensures loop.Ended? || loop.Handing? || !Alive(View())
      ensures acquires <= policy.maxRetries + 1
    {
      ghost var start := View();
      trace := [];
      var k: nat, again := 0, true;
      while again
        invariant Runs(start, trace, View())
        invariant if again then loop.Acquiring? else loop.Ended? || loop.Handing? || !Alive(View())
        decreases again, budget
      {
        var round := rounds(k);
        trace := Wait(round.acquiring, start, trace);
        if slot.flow.producer != Fetching(false) {
          break;
        }
        acquires := acquires + 1;
        if round.outcome.AcquireFailed? {
          RunsOn(start, trace, View().(acquires := acquires - 1), Own(AcquireFail(round.outcome.kind)));
          trace := Settle(round.outcome.kind, start, trace + [Own(AcquireFail(round.outcome.kind))]);
          break;
        }
        RunsOn(start, trace, View().(acquires := acquires - 1), Own(AcquireOk));
        trace := trace + [Own(AcquireOk)];
        loop := Leased;
        again, trace := UseLease(round, start, trace);
        k := k + 1;
      }
      AttemptRunKeeps(start, trace);
    }
  }
}

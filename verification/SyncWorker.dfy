/**
  One sync cycle of a worker: recover stale leases, drain the queue operation by
  operation, then pull. Every environment's answers are inputs, and the cycle's
  calls are recorded.
 */
module SyncWorker {
  import opened Common
  import opened SyncTrace

  datatype PushReply = Pushed | PushFails(canceled: bool)

  /** When the caller's context is canceled, within one turn of the loop. */
  datatype Cancellation = Never | BeforeClaim | DuringClaim | DuringMark | DuringPush | DuringSettle

  /** The answers one turn of the loop meets. */
  datatype Turn = Turn(cancel: Cancellation, claim: ClaimReply, markOK: bool, push: PushReply, settleOK: bool)

  datatype WorkerState = Running | Stopped | Failed | Synced

  datatype Status = Status(state: WorkerState, attempts: nat, operations: nat)

  datatype SyncError = Canceled | Infrastructure | ProviderMismatch | ProviderFailure

  /** Whether the loop goes on after a turn. */
  datatype Verdict = GoOn | QueueDrained | Stop(error: SyncError)

  /** A turn after which the loop goes on: an own operation, marked, pushed and completed. */
  predicate Succeeds(providerID: string, turn: Turn) {
    && turn.claim.Delivered? && !turn.claim.Nothing() && turn.claim.op.providerID == providerID
    && turn.cancel != BeforeClaim && turn.cancel != DuringClaim && turn.markOK && turn.push == Pushed && turn.settleOK
  }

  /** The turns lead to an empty queue without a failure or a cancellation. */
  predicate Drains(providerID: string, turns: seq<Turn>) {
    if turns == [] then true
    else if turns[0].cancel == BeforeClaim then false
    else
      || turns[0].claim.Nothing()
      || (Succeeds(providerID, turns[0]) && turns[0].cancel == Never && Drains(providerID, turns[1..]))
  }

  // ----- the calls that carry a turn's answers -----

  function ReleaseOf(op: Operation, turn: Turn): Call {
    Call.Release(op.providerID, op.id, op.leaseOwner, turn.settleOK)
  }

  /** Success is completed, a cancellation gives the operation back, any other failure is recorded. */
  function SettlementOf(op: Operation, turn: Turn): Call {
    if turn.push == Pushed then Complete(op.providerID, op.id, op.leaseOwner, turn.settleOK)
    else if turn.push.canceled || turn.cancel == DuringMark || turn.cancel == DuringPush then ReleaseOf(op, turn)
    else Fail(op.providerID, op.id, op.leaseOwner, turn.settleOK)
  }

  function AttemptCalls(op: Operation, turn: Turn): seq<Call> {
    [MarkAttempt(op.id, turn.markOK)]
    + if !turn.markOK then [ReleaseOf(op, turn)]
      else [Push(op.(attempts := op.attempts + 1), turn.push == Pushed), SettlementOf(op, turn)]
  }

  function TurnCalls(providerID: string, turn: Turn): seq<Call> {
    if turn.cancel == BeforeClaim then []
    else
      [Claim(turn.claim)]
      + if turn.claim.Nothing() || turn.claim.ClaimFails? then []
        else if turn.claim.op.providerID != providerID || turn.cancel == DuringClaim then
          [ReleaseOf(turn.claim.op, turn)]
        else AttemptCalls(turn.claim.op, turn)
  }

  /** Turn after turn, as long as they succeed; after the last one the queue is empty. */
  function DrainCalls(providerID: string, turns: seq<Turn>, canceled: bool): seq<Call> {
    if canceled then []
    else if turns == [] then [Claim(Empty)]
    else
      TurnCalls(providerID, turns[0])
      + if Succeeds(providerID, turns[0]) then DrainCalls(providerID, turns[1..], turns[0].cancel != Never) else []
  }

  /** The turn the loop takes next: an empty queue after the last one, nothing more once canceled. */
  function TurnAt(turns: seq<Turn>, i: nat, canceled: bool): Turn {
    var turn := if i < |turns| then turns[i] else Turn(Never, Empty, true, Pushed, true);
    if canceled then turn.(cancel := BeforeClaim) else turn
  }

  lemma DrainStep(providerID: string, turns: seq<Turn>, i: nat, canceled: bool)
    requires i <= |turns|
    ensures var turn := TurnAt(turns, i, canceled);
            if Succeeds(providerID, turn) then
              && i < |turns|
              && DrainCalls(providerID, turns[i..], canceled) ==
                 TurnCalls(providerID, turn) + DrainCalls(providerID, turns[i + 1..], turn.cancel != Never)
              && (Drains(providerID, turns[i..]) <==> turn.cancel == Never && Drains(providerID, turns[i + 1..]))
            else
              && DrainCalls(providerID, turns[i..], canceled) == TurnCalls(providerID, turn)
              && (!canceled && Drains(providerID, turns[i..]) <==> turn.cancel != BeforeClaim && turn.claim.Nothing())
  {
    if i < |turns| {
      assert turns[i..][1..] == turns[i + 1..] && turns[i..][0] == turns[i];
    }
  }

  /**
    What the last call of a stopped cycle says about its state and error: a recorded failure is the
    provider's, a claim given back is a cancellation unless it was foreign or could not be marked.
    Cancel is that of the turn the call belongs to.
   */
  ghost predicate EndsAs(me: string, calls: seq<Call>, cancel: Cancellation, state: WorkerState, error: SyncError) {
    |calls| >= 2 ==>
      var before, last := calls[|calls| - 2], calls[|calls| - 1];
      && (last.Fail? && last.ok ==> error == ProviderFailure && state == Failed)
      && (last.Fail? && !last.ok ==> error == (if cancel == DuringSettle then Canceled else Infrastructure))
      && (last.Release? && before.Push? ==> error == Canceled && state == Stopped)
      && (last.Release? && before.MarkAttempt? ==> error == if cancel == DuringMark then Canceled else Infrastructure)
      && (last.Release? && before.Delivers() ==>
            if before.reply.op.providerID == me then error == Canceled && state == Stopped
            else error == ProviderMismatch && state == Failed)
      && (last.Complete? && last.ok ==> error == Canceled && state == Stopped)
      && (last.Complete? && !last.ok ==>
            error == if cancel in {DuringMark, DuringPush, DuringSettle} then Canceled else Infrastructure)
      && (last.Claim? ==> error == if cancel == DuringClaim then Canceled else Infrastructure)
      && (error == Infrastructure ==> state == Failed)
  }

  /** The turn that made the last of the calls from start on explains the end. */
  ghost predicate Stops(me: string, calls: seq<Call>, start: nat, turns: seq<Turn>, state: WorkerState,
                        error: SyncError) {
    forall k :: 0 <= k < |turns| && 4 * k < |calls| - start <= 4 * k + 4 ==>
                  EndsAs(me, calls, turns[k].cancel, state, error)
  }

  /** A cycle that goes on has just recovered or completed an operation. */
  lemma ReadyAfter(me: string, calls: seq<Call>)
    requires After(me, calls) == Some(Ready)
    ensures calls != []
    ensures var last := calls[|calls| - 1]; last == Recover(true) || (last.Complete? && last.ok)
  {
  }

  lemma DrainedAfter(me: string, calls: seq<Call>)
    requires After(me, calls) == Some(Drained)
    ensures calls != [] && calls[|calls| - 1].Claim? && calls[|calls| - 1].reply.Nothing()
  {
  }

  /** A turn makes at most four calls, and exactly four when it succeeds. */
  lemma TurnLength(me: string, turn: Turn)
    ensures |TurnCalls(me, turn)| <= 4
    ensures Succeeds(me, turn) ==> |TurnCalls(me, turn)| == 4
    ensures turn.cancel != BeforeClaim && turn.claim.Nothing() ==> |TurnCalls(me, turn)| == 1
    ensures turn.cancel == BeforeClaim <==> TurnCalls(me, turn) == []
    ensures TurnCalls(me, turn) != [] ==> !TurnCalls(me, turn)[|TurnCalls(me, turn)| - 1].Pull?
  {
  }

  /**
    How the calls from i on carry a turn: an own claimed operation is marked unless the caller canceled
    meanwhile; a pushed one is completed; after a failed push, which ends the cycle, the failure is
    recorded, unless the provider or the caller canceled, when the claim is given back.
   */
  ghost predicate Carries(me: string, calls: seq<Call>, i: nat, turn: Turn)
    requires i < |calls|
  {
    var settled := i + 3 < |calls| && calls[i + 2].Push?;
    && calls[i] == Claim(turn.claim) && turn.cancel != BeforeClaim
    && (i + 1 < |calls| && calls[i].Delivers() ==>
          (calls[i + 1].MarkAttempt? <==> turn.claim.op.providerID == me && turn.cancel != DuringClaim))
    && (i + 1 < |calls| && calls[i + 1].MarkAttempt? ==> calls[i + 1].ok == turn.markOK)
    && (i + 2 < |calls| && calls[i + 2].Push? ==>
          && i + 3 < |calls| && (calls[i + 2].ok <==> turn.push == Pushed)
          && (!calls[i + 2].ok ==> |calls| == i + 4))
    && (settled ==>
          && (calls[i + 3].Complete? <==> turn.push == Pushed)
          && (calls[i + 3].Fail? <==>
                turn.push.PushFails? && !turn.push.canceled && turn.cancel != DuringMark && turn.cancel != DuringPush)
          && (calls[i + 3].Complete? || calls[i + 3].Fail? || calls[i + 3].Release?)
          && calls[i + 3].ok == turn.settleOK)
  }

  lemma TurnCarries(me: string, turn: Turn, rest: seq<Call>)
    requires turn.cancel != BeforeClaim && (Succeeds(me, turn) || rest == [])
    ensures Carries(me, TurnCalls(me, turn) + rest, 0, turn)
  {
  }

  lemma {:induction false} DrainCarries(me: string, turns: seq<Turn>, canceled: bool, k: nat)
    requires k < |turns| && 4 * k < |DrainCalls(me, turns, canceled)|
    ensures Carries(me, DrainCalls(me, turns, canceled), 4 * k, turns[k])
  {
    hide Succeeds, TurnCalls, Carries;
    var first := TurnCalls(me, turns[0]);
    TurnLength(me, turns[0]);
    if k > 0 {
      var rest := DrainCalls(me, turns[1..], turns[0].cancel != Never);
      DrainCarries(me, turns[1..], turns[0].cancel != Never, k - 1);
      LaterCarries(me, first, rest, 4 * (k - 1), turns[k]);
    } else {
      TurnCarries(me, turns[0], DrainCalls(me, turns, canceled)[|first|..]);
    }
  }

  lemma LaterCarries(me: string, before: seq<Call>, calls: seq<Call>, i: nat, turn: Turn)
    requires i < |calls| && Carries(me, calls, i, turn)
    ensures Carries(me, before + calls, |before| + i, turn)
  {
    var all := before + calls;
    assert all[|before| + i..] == calls[i..];
    assert forall j {:trigger calls[j]} :: i <= j < |calls| ==> all[|before| + j] == calls[j];
  }

  ghost predicate CarriesAll(me: string, calls: seq<Call>, turns: seq<Turn>) {
    forall k :: 0 <= k < |turns| && 4 * k + 1 < |calls| ==> Carries(me, calls, 4 * k + 1, turns[k])
  }

  /** Before the first turn there is nothing to explain. */
  lemma CarriesNothing(me: string, turns: seq<Turn>)
    ensures CarriesAll(me, [], turns) && CarriesAll(me, [Recover(false)], turns)
  {
  }

  lemma StopsEarly(me: string, turns: seq<Turn>, state: WorkerState, error: SyncError)
    ensures Stops(me, [Recover(false)], 1, turns, state, error)
  {
  }

  lemma RecoveredCarries(me: string, turns: seq<Turn>, calls: seq<Call>)
    requires calls == [Recover(true)] + DrainCalls(me, turns, false)
    ensures CarriesAll(me, calls, turns)
  {
    hide Succeeds, TurnCalls, DrainCalls, Carries;
    forall k | 0 <= k < |turns| && 4 * k + 1 < |calls|
      ensures Carries(me, calls, 4 * k + 1, turns[k])
    {
      DrainCarries(me, turns, false, k);
      LaterCarries(me, [Recover(true)], DrainCalls(me, turns, false), 4 * k, turns[k]);
    }
  }

  lemma PullCarries(me: string, turns: seq<Turn>, calls: seq<Call>, pullOK: bool)
    requires |calls| % 4 == 2 && calls[|calls| - 1].Claim? && calls[|calls| - 1].reply.Nothing()
    requires CarriesAll(me, calls, turns)
    ensures CarriesAll(me, calls + [Pull(pullOK)], turns)
  {
    var all := calls + [Pull(pullOK)];
    forall k | 0 <= k < |turns| && 4 * k + 1 < |all|
      ensures Carries(me, all, 4 * k + 1, turns[k])
    {
      assert Carries(me, calls, 4 * k + 1, turns[k]);
    }
  }

  class Worker {
    const providerID: string
    const pulls: bool
    var status: Status
    ghost var calls: seq<Call>
    ghost var earlier: Status

    constructor (providerID: string, pulls: bool)
      ensures this.providerID == providerID && this.pulls == pulls && calls == [] && status == Status(Running, 0, 0)
    {
      this.providerID, this.pulls := providerID, pulls;
      status, calls, earlier := Status(Running, 0, 0), [], Status(Running, 0, 0);
    }

    /** The calls so far are in order and lead to the given phase. */
    ghost predicate At(phase: Phase)
      reads this
    {
      After(providerID, calls) == Some(phase)
    }

    /** The counters grew by the cycle's marks and completions. */
    ghost predicate Tallied()
      reads this
    {
      && status.attempts == earlier.attempts + Marks(calls)
      && status.operations == earlier.operations + Completions(calls)
    }

    ghost method Note(call: Call)
      requires After(providerID, calls).Some? && Next(providerID, After(providerID, calls).value, call).Some?
      modifies `calls
      ensures calls == old(calls) + [call]
      ensures After(providerID, calls) == Next(providerID, After(providerID, old(calls)).value, call)
      ensures Marks(calls) == Marks(old(calls)) + if call.MarkAttempt? && call.ok then 1 else 0
      ensures Completions(calls) == Completions(old(calls)) + if call.Complete? && call.ok then 1 else 0
    {
      calls := calls + [call];
      assert calls[..|calls| - 1] == old(calls);
    }

    method Release(op: Operation, ok: bool, ghost phase: Phase)
      requires At(phase) && Next(providerID, phase, Call.Release(op.providerID, op.id, op.leaseOwner, ok)) ==
                 Some(Ended)
      modifies `calls
      ensures At(Ended) && (old(Tallied()) ==> Tallied())
      ensures calls == old(calls) + [Call.Release(op.providerID, op.id, op.leaseOwner, ok)]
    {
      Note(Call.Release(op.providerID, op.id, op.leaseOwner, ok));
    }

    /** Gives the claim back and stops. */
    method CancelClaim(op: Operation, releaseOK: bool, ghost phase: Phase) returns (verdict: Verdict)
      requires At(phase)
      requires Next(providerID, phase, Call.Release(op.providerID, op.id, op.leaseOwner, releaseOK)) == Some(Ended)
      modifies `calls, `status
      ensures At(Ended) && verdict == Stop(Canceled) && (old(Tallied()) ==> Tallied())
      ensures calls == old(calls) + [Call.Release(op.providerID, op.id, op.leaseOwner, releaseOK)]
      ensures status == old(status).(state := Stopped)
    {
      Release(op, releaseOK, phase);
      status := status.(state := Stopped);
      verdict := Stop(Canceled);
    }

    method InfrastructureFailure(canceled: bool) returns (verdict: Verdict)
      modifies `status
      ensures verdict == Stop(if canceled then Canceled else Infrastructure)
      ensures status == if canceled then old(status) else old(status).(state := Failed)
    {
      if canceled {
        return Stop(Canceled);
      }
      status := status.(state := Failed);
      verdict := Stop(Infrastructure);
    }

    method PersistFailure(op: Operation, failOK: bool, canceled: bool) returns (verdict: Verdict)
      requires At(Answered(op, false))
      modifies `calls, `status
      ensures At(Ended) && verdict.Stop? && (old(Tallied()) ==> Tallied())
      ensures calls == old(calls) + [Fail(op.providerID, op.id, op.leaseOwner, failOK)]
      ensures failOK ==> verdict == Stop(ProviderFailure) && status.state == Failed
      ensures !failOK && canceled ==> verdict == Stop(Canceled)
      ensures !failOK && !canceled ==> verdict == Stop(Infrastructure) && status.state == Failed
    {
      Note(Fail(op.providerID, op.id, op.leaseOwner, failOK));
      if !failOK {
        verdict := InfrastructureFailure(canceled);
        return;
      }
      status := status.(state := Failed);
      verdict := Stop(ProviderFailure);
    }

    /** After a failed push: released when canceled, else failed with the provider's error. */
    method SettleRefused(op: Operation, turn: Turn) returns (verdict: Verdict)
      requires At(Answered(op, false)) && Tallied() && turn.push.PushFails?
      modifies `calls, `status
      ensures At(Ended) && Tallied() && verdict.Stop?
      ensures calls == old(calls) + [SettlementOf(op, turn)]
      ensures var last := calls[|calls| - 1];
              && (last.Fail? <==> !turn.push.canceled && turn.cancel != DuringMark && turn.cancel != DuringPush)
              && (last.Fail? || last.Release?) && last.ok == turn.settleOK
      ensures |old(calls)| > 0 && old(calls)[|old(calls)| - 1].Push? ==>
                EndsAs(providerID, calls, turn.cancel, status.state, verdict.error)
    {
      if turn.cancel == DuringMark || turn.cancel == DuringPush {
        verdict := CancelClaim(op, turn.settleOK, Answered(op, false));
        return;
      }
      if turn.push.canceled {
        verdict := CancelClaim(op, turn.settleOK, Answered(op, false));
        return;
      }
      verdict := PersistFailure(op, turn.settleOK, turn.cancel == DuringSettle);
    }

    /** After a successful push: completed, and counted when that was recorded. */
    method SettlePushed(op: Operation, turn: Turn) returns (verdict: Verdict)
      requires At(Answered(op, true)) && Tallied() && turn.push == Pushed
      modifies `calls, `status
      ensures At(if verdict == GoOn then Ready else Ended) && Tallied() && verdict != QueueDrained
      ensures verdict == GoOn <==> turn.settleOK
      ensures calls == old(calls) + [SettlementOf(op, turn)]
      ensures verdict.Stop? ==> EndsAs(providerID, calls, turn.cancel, status.state, verdict.error)
    {
      hide After, Marks, Completions;
      Note(Complete(op.providerID, op.id, op.leaseOwner, turn.settleOK));
      if !turn.settleOK {
        verdict := InfrastructureFailure(turn.cancel in {DuringMark, DuringPush, DuringSettle});
        return;
      }
      status := status.(operations := status.operations + 1);
      verdict := GoOn;
    }

    /** The attempt of a claimed operation: mark, push, settle. */
    method Attempt(op: Operation, turn: Turn) returns (verdict: Verdict)
      requires At(Holding(op)) && op.providerID == providerID && Tallied()
      modifies `calls, `status
      ensures At(if verdict == GoOn then Ready else Ended) && Tallied() && verdict != QueueDrained
      ensures verdict == GoOn <==> turn.markOK && turn.push == Pushed && turn.settleOK
      ensures calls == old(calls) + AttemptCalls(op, turn)
      ensures turn.markOK && turn.push.PushFails? ==>
                var last := calls[|calls| - 1];
                && (last.Fail? <==> !turn.push.canceled && turn.cancel != DuringMark && turn.cancel != DuringPush)
                && (last.Fail? || last.Release?) && last.ok == turn.settleOK
      ensures verdict.Stop? ==> EndsAs(providerID, calls, turn.cancel, status.state, verdict.error)
    {
      hide SettlementOf, After, Marks, Completions;
      Note(MarkAttempt(op.id, turn.markOK));
      if !turn.markOK {
        Release(op, turn.settleOK, Unmarked(op));
        verdict := InfrastructureFailure(turn.cancel == DuringMark);
        return;
      }
      status := status.(attempts := status.attempts + 1);
      Note(Push(op.(attempts := op.attempts + 1), turn.push == Pushed));
      if turn.push != Pushed {
        verdict := SettleRefused(op, turn);
      } else {
        verdict := SettlePushed(op, turn);
      }
    }

    /** One turn of the loop. */
    method TakeTurn(turn: Turn) returns (verdict: Verdict)
      requires At(Ready) && Tallied()
      modifies `calls, `status
      ensures Tallied()
      ensures verdict == GoOn ==> At(Ready)
      ensures verdict == GoOn <==> Succeeds(providerID, turn)
      ensures verdict == QueueDrained <==> turn.cancel != BeforeClaim && turn.claim.Nothing()
      ensures verdict == QueueDrained ==> At(Drained)
      ensures calls == old(calls) + TurnCalls(providerID, turn)
      ensures verdict.Stop? ==> At(Ended) || At(Ready)
      ensures turn.cancel == BeforeClaim ==> verdict == Stop(Canceled) && status.state == Stopped
      ensures verdict.Stop? ==> EndsAs(providerID, calls, turn.cancel, status.state, verdict.error)
    {
      hide AttemptCalls, After, Marks, Completions;
      if turn.cancel == BeforeClaim {
        ReadyAfter(providerID, calls);
        status := status.(state := Stopped);
        return Stop(Canceled);
      }
      Note(Claim(turn.claim));
      if turn.claim.Nothing() {
        return QueueDrained;
      }
      if turn.claim.ClaimFails? {
        verdict := InfrastructureFailure(turn.cancel == DuringClaim);
        return;
      }
      var op := turn.claim.op;
      if op.providerID != providerID {
        Release(op, turn.settleOK, Holding(op));
        status := status.(state := Failed);
        return Stop(ProviderMismatch);
      }
      if turn.cancel == DuringClaim {
        verdict := CancelClaim(op, turn.settleOK, Holding(op));
        return;
      }
      verdict := Attempt(op, turn);
    }

    /** Turns until the queue is drained or the cycle stops; a queue without a further turn is empty. */
    method Drain(turns: seq<Turn>) returns (verdict: Verdict)
      requires At(Ready) && Tallied()
      modifies `calls, `status
      ensures Tallied() && verdict != GoOn
      ensures verdict == QueueDrained <==> Drains(providerID, turns)
      ensures verdict == QueueDrained ==> At(Drained)
      ensures verdict.Stop? ==> At(Ended) || At(Ready)
      ensures calls == old(calls) + DrainCalls(providerID, turns, false)
      ensures calls != [] && !calls[|calls| - 1].Pull?
      ensures verdict == QueueDrained ==> (|calls| - |old(calls)|) % 4 == 1
      ensures verdict.Stop? ==> Stops(providerID, calls, |old(calls)|, turns, status.state, verdict.error)
      ensures verdict.Stop? && calls == old(calls) ==> verdict.error == Canceled && status.state == Stopped
    {
      hide TurnCalls, Succeeds, DrainCalls, Drains, Tallied, After;
      var canceled, i := false, 0;
      assert turns[0..] == turns;
      while true
        invariant 0 <= i <= |turns| && At(Ready) && Tallied()
        invariant Drains(providerID, turns) <==> !canceled && Drains(providerID, turns[i..])
        invariant old(calls) + DrainCalls(providerID, turns, false) ==
                  calls + DrainCalls(providerID, turns[i..], canceled)
        invariant |calls| == |old(calls)| + 4 * i
        decreases |turns| - i
      {
        var turn := TurnAt(turns, i, canceled);
        DrainStep(providerID, turns, i, canceled);
        TurnLength(providerID, turn);
        ReadyAfter(providerID, calls);
        verdict := TakeTurn(turn);
        if verdict != GoOn {
          return;
        }
        canceled := turn.cancel != Never;
        i := i + 1;
      }
    }

    function CycleCalls(canceled: bool, recoverOK: bool, turns: seq<Turn>, pullOK: bool): seq<Call> {
      if canceled then []
      else if !recoverOK then [Recover(false)]
      else
        [Recover(true)] + DrainCalls(providerID, turns, false)
        + if pulls && Drains(providerID, turns) then [Pull(pullOK)] else []
    }

    /** The pull that ends a cycle with an empty queue. */
    method Finish(pullOK: bool, pullCanceled: bool) returns (error: Option<SyncError>)
      requires At(Drained) && Tallied()
      modifies `calls, `status
      ensures Lawful(providerID, calls) && Tallied()
      ensures calls == old(calls) + if pulls then [Pull(pullOK)] else []
      ensures error == if !pulls || pullOK then None
                       else if pullCanceled then Some(Canceled) else Some(ProviderFailure)
      ensures error == Some(ProviderFailure) ==> status.state == Failed
      ensures error.None? ==> status.state == Synced
    {
      if pulls {
        Note(Pull(pullOK));
        if !pullOK {
          if pullCanceled {
            return Some(Canceled);
          }
          status := status.(state := Failed);
          return Some(ProviderFailure);
        }
      }
      status := status.(state := Synced);
      error := None;
    }

    /** A whole cycle against any answers of queue and provider. */
    method SyncOnce(canceled: bool, recoverOK: bool, recoverCanceled: bool, turns: seq<Turn>, pullOK: bool,
                    pullCanceled: bool)
        returns (error: Option<SyncError>)
      modifies this
      ensures Lawful(providerID, calls)
      ensures earlier == old(status) && Tallied()
      ensures error.None? <==> !canceled && recoverOK && Drains(providerID, turns) && (pulls ==> pullOK)
      ensures error.None? ==> status.state == Synced
      ensures calls == CycleCalls(canceled, recoverOK, turns, pullOK)
      ensures canceled ==> error == Some(Canceled) && status.state == Stopped
      ensures error.Some? && calls == [Recover(true)] ==>
                error == Some(Canceled) && status.state == Stopped
      ensures !canceled && !recoverOK ==> error == Some(if recoverCanceled then Canceled else Infrastructure)
      ensures calls != [] && calls[|calls| - 1] == Pull(false) ==>
                error == Some(if pullCanceled then Canceled else ProviderFailure)
      ensures CarriesAll(providerID, calls, turns)
      ensures error.Some? && calls != [] && !calls[|calls| - 1].Pull? ==>
                Stops(providerID, calls, 1, turns, status.state, error.value)
    {
      hide DrainCalls, Drains, CarriesAll, EndsAs, Stops;
      CarriesNothing(providerID, turns);
      calls, earlier := [], status;
      assert After(providerID, []) == Some(Fresh) && Marks([]) == 0 && Completions([]) == 0;
      hide After, Marks, Completions;
      if canceled {
        status := status.(state := Stopped);
        return Some(Canceled);
      }
      status := status.(state := Running);
      Note(Recover(recoverOK));
      if !recoverOK {
        var verdict := InfrastructureFailure(recoverCanceled);
        StopsEarly(providerID, turns, status.state, verdict.error);
        return Some(verdict.error);
      }
      var verdict := Drain(turns);
      RecoveredCarries(providerID, turns, calls);
      if verdict.Stop? {
        return Some(verdict.error);
      }
      DrainedAfter(providerID, calls);
      ghost var drained := calls;
      PullCarries(providerID, turns, calls, pullOK);
      error := Finish(pullOK, pullCanceled);
      assert calls == drained + [Pull(pullOK)] || calls == drained;
    }
  }
}

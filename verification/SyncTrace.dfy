/**
  The order of calls a sync worker may make: recover, then for every claim one
  attempt mark before at most one push and one settlement, then the pull.
 */
module SyncTrace {
  import opened Common

  datatype Operation = Operation(id: string, providerID: string, leaseOwner: string, attempts: nat)

  datatype ClaimReply = Empty | Delivered(op: Operation) | ClaimFails
  {
    /** The queue says empty in an error or with a nameless operation. */
    predicate Nothing() { Empty? || (Delivered? && op.id == "") }
  }

  datatype Call =
    | Recover(ok: bool)
    | Claim(reply: ClaimReply)
    | MarkAttempt(id: string, ok: bool)
    | Push(op: Operation, ok: bool)
    | Complete(providerID: string, id: string, leaseOwner: string, ok: bool)
    | Fail(providerID: string, id: string, leaseOwner: string, ok: bool)
    | Release(providerID: string, id: string, leaseOwner: string, ok: bool)
    | Pull(ok: bool)
  {
    predicate Settles() { Complete? || Fail? || Release? }

    predicate Delivers() { Claim? && reply.Delivered? && reply.op.id != "" }

    predicate SettlesFor(op: Operation)
      requires Settles()
    {
      providerID == op.providerID && id == op.id && leaseOwner == op.leaseOwner
    }
  }

  datatype Phase = Fresh | Ready | Drained | Holding(op: Operation) | Marked(op: Operation) | Unmarked(op: Operation)
                 | Answered(op: Operation, ok: bool) | Ended
  {
    predicate Holds() { Holding? || Marked? || Unmarked? || Answered? }
  }

  /** The phase after a call, for a worker of provider me; None is a call out of order. */
  function Next(me: string, phase: Phase, call: Call): Option<Phase> {
    match phase
    case Fresh => if call.Recover? then Some(if call.ok then Ready else Ended) else None
    case Ready =>
      if !call.Claim? then None
      else if call.reply.ClaimFails? then Some(Ended)
      else if call.reply.Nothing() then Some(Drained)
      else Some(Holding(call.reply.op))
    case Holding(op) =>
      if call.MarkAttempt? && call.id == op.id && op.providerID == me then
        Some(if call.ok then Marked(op) else Unmarked(op))
      else if call.Release? && call.SettlesFor(op) then Some(Ended)
      else None
    case Marked(op) =>
      if call.Push? && call.op == op.(attempts := op.attempts + 1) then Some(Answered(op, call.ok)) else None
    case Unmarked(op) =>
      if call.Release? && call.SettlesFor(op) then Some(Ended) else None
    case Answered(op, pushed) =>
      if pushed && call.Complete? && call.SettlesFor(op) then Some(if call.ok then Ready else Ended)
      else if !pushed && (call.Fail? || call.Release?) && call.SettlesFor(op) then Some(Ended)
      else None
    case Drained => if call.Pull? then Some(Ended) else None
    case Ended => None
  }

  function After(me: string, trace: seq<Call>): Option<Phase> {
    if trace == [] then Some(Fresh)
    else
      var before := After(me, trace[..|trace| - 1]);
      if before.None? then None else Next(me, before.value, trace[|trace| - 1])
  }

  /** Calls in order, with no claim left over. */
  ghost predicate Lawful(me: string, trace: seq<Call>) {
    After(me, trace).Some? && !After(me, trace).value.Holds()
  }

  lemma {:induction false} PrefixAllowed(me: string, trace: seq<Call>, n: nat)
    requires n <= |trace| && After(me, trace).Some?
    ensures After(me, trace[..n]).Some?
    decreases |trace|
  {
    if n < |trace| {
      PrefixAllowed(me, trace[..|trace| - 1], n);
      assert trace[..|trace| - 1][..n] == trace[..n];
    } else {
      assert trace[..n] == trace;
    }
  }

  /** The phase before and after the call at i. */
  lemma CallAt(me: string, trace: seq<Call>, i: nat)
    requires i < |trace| && After(me, trace).Some?
    ensures After(me, trace[..i]).Some? && After(me, trace[..i + 1]).Some?
    ensures Next(me, After(me, trace[..i]).value, trace[i]) == After(me, trace[..i + 1])
  {
    PrefixAllowed(me, trace, i + 1);
    assert trace[..i + 1][..i] == trace[..i];
  }

  // ----- what the order means -----

  /** Every push directly follows the successful attempt mark of the operation just claimed. */
  lemma PushFollowsMark(me: string, trace: seq<Call>, i: nat)
    requires i < |trace| && After(me, trace).Some? && trace[i].Push?
    ensures i >= 2 && trace[i - 1] == MarkAttempt(trace[i].op.id, true)
    ensures trace[i - 2].Delivers()
              && trace[i].op == trace[i - 2].reply.op.(attempts := trace[i - 2].reply.op.attempts + 1)
    ensures trace[i].op.providerID == me
  {
    CallAt(me, trace, i);
    assert After(me, trace[..i]).value.Marked?;
    assert i > 0;
    CallAt(me, trace, i - 1);
    assert After(me, trace[..i - 1]).value.Holding?;
    assert i > 1;
    CallAt(me, trace, i - 2);
  }

  /** An operation is completed only right after its successful push, and failed only right after a failed one. */
  lemma SettledAfterPush(me: string, trace: seq<Call>, i: nat)
    requires i < |trace| && After(me, trace).Some? && (trace[i].Complete? || trace[i].Fail?)
    ensures i >= 3 && trace[i - 1].Push? && trace[i - 1].ok == trace[i].Complete?
    ensures trace[i].SettlesFor(trace[i - 1].op) && trace[i].providerID == me
    ensures trace[i - 3].Delivers() && trace[i].SettlesFor(trace[i - 3].reply.op)
  {
    CallAt(me, trace, i);
    assert After(me, trace[..i]).value.Answered?;
    assert i > 0;
    CallAt(me, trace, i - 1);
    assert After(me, trace[..i - 1]).value.Marked?;
    PushFollowsMark(me, trace, i - 1);
  }

  /** Nothing follows the end of a cycle. */
  lemma EndIsLast(me: string, trace: seq<Call>, i: nat)
    requires i < |trace| && After(me, trace).Some? && After(me, trace[..i + 1]) == Some(Ended)
    ensures i + 1 == |trace|
  {
    if i + 1 < |trace| {
      CallAt(me, trace, i + 1);
      assert false;
    }
  }

  lemma AfterDelivery(me: string, trace: seq<Call>, i: nat)
    requires i + 1 < |trace| && After(me, trace).Some? && trace[i].Claim? && !trace[i + 1].Pull?
    ensures trace[i].Delivers() && After(me, trace[..i + 1]) == Some(Holding(trace[i].reply.op))
    ensures !trace[i + 1].Claim?
  {
    CallAt(me, trace, i);
    CallAt(me, trace, i + 1);
  }

  lemma AfterHolding(me: string, trace: seq<Call>, i: nat, op: Operation)
    requires i + 1 < |trace| && After(me, trace).Some? && After(me, trace[..i]) == Some(Holding(op))
               && !trace[i + 1].Release?
    ensures trace[i] == MarkAttempt(op.id, true) && After(me, trace[..i + 1]) == Some(Marked(op))
    ensures !trace[i + 1].Claim?
  {
    CallAt(me, trace, i);
    CallAt(me, trace, i + 1);
  }

  lemma AfterMarked(me: string, trace: seq<Call>, i: nat, op: Operation)
    requires i + 1 < |trace| && After(me, trace).Some? && After(me, trace[..i]) == Some(Marked(op))
    ensures trace[i].Push? && trace[i] == Push(op.(attempts := op.attempts + 1), trace[i].ok)
    ensures After(me, trace[..i + 1]) == Some(Answered(op, trace[i].ok))
    ensures !trace[i + 1].Claim?
  {
    CallAt(me, trace, i);
    CallAt(me, trace, i + 1);
  }

  lemma AfterAnswered(me: string, trace: seq<Call>, i: nat, op: Operation, ok: bool)
    requires i + 1 < |trace| && After(me, trace).Some? && After(me, trace[..i]) == Some(Answered(op, ok))
    ensures ok && trace[i] == Complete(op.providerID, op.id, op.leaseOwner, true) && trace[i + 1].Claim?
  {
    CallAt(me, trace, i);
    if After(me, trace[..i + 1]) == Some(Ended) {
      EndIsLast(me, trace, i);
    }
    CallAt(me, trace, i + 1);
  }

  lemma LastRelease(me: string, trace: seq<Call>, i: nat)
    requires i < |trace| && After(me, trace).Some? && trace[i].Release?
    ensures i + 1 == |trace|
  {
    CallAt(me, trace, i);
    EndIsLast(me, trace, i);
  }

  /** Between a claim and the next one lie exactly its mark, its successful push and its completion. */
  lemma BetweenClaims(me: string, trace: seq<Call>, i: nat, j: nat)
    requires i < j < |trace| && After(me, trace).Some? && trace[i].Claim? && trace[j].Claim?
    ensures trace[i].Delivers() && i + 4 <= j && trace[i + 4].Claim?
    ensures var op := trace[i].reply.op;
            && trace[i + 1] == MarkAttempt(op.id, true)
            && trace[i + 2] == Push(op.(attempts := op.attempts + 1), true)
            && trace[i + 3] == Complete(op.providerID, op.id, op.leaseOwner, true)
  {
    if trace[i + 1].Pull? {
      PullAfterEmpty(me, trace, i + 1);
      assert false;
    }
    AfterDelivery(me, trace, i);
    var op := trace[i].reply.op;
    if trace[i + 2].Release? {
      LastRelease(me, trace, i + 2);
      assert false;
    }
    AfterHolding(me, trace, i + 1, op);
    AfterMarked(me, trace, i + 2, op);
    AfterAnswered(me, trace, i + 3, op, trace[i + 2].ok);
  }

  /** A release ends the cycle and gives back the operation claimed last. */
  lemma {:induction false} ReleaseAfterClaim(me: string, trace: seq<Call>, i: nat)
    requires i < |trace| && After(me, trace).Some? && trace[i].Release?
    ensures i + 1 == |trace|
    ensures exists j :: LastClaim(trace, j, i) && trace[i].SettlesFor(trace[j].reply.op)
  {
    LastRelease(me, trace, i);
    CallAt(me, trace, i);
    HeldSince(me, trace[..i]);
    var j :| LastClaim(trace[..i], j, i) && trace[..i][j].reply.op == After(me, trace[..i]).value.op;
    assert LastClaim(trace, j, i);
  }

  ghost predicate LastClaim(trace: seq<Call>, j: int, i: nat)
    requires i <= |trace|
  {
    0 <= j < i && trace[j].Delivers() && forall k :: j < k < i ==> !trace[k].Claim? && !trace[k].Settles()
  }

  /** A held operation was delivered by the last claim and is not settled since. */
  lemma {:induction false} HeldSince(me: string, trace: seq<Call>)
    requires After(me, trace).Some? && After(me, trace).value.Holds()
    ensures exists j :: LastClaim(trace, j, |trace|) && trace[j].reply.op == After(me, trace).value.op
  {
    var init := trace[..|trace| - 1];
    if trace[|trace| - 1].Claim? {
      assert LastClaim(trace, |trace| - 1, |trace|);
    } else {
      HeldSince(me, init);
      var j :| LastClaim(init, j, |init|) && init[j].reply.op == After(me, init).value.op;
      assert LastClaim(trace, j, |trace|);
    }
  }

  /** Remote changes are pulled last, and only after the queue reported that it is empty. */
  lemma PullAfterEmpty(me: string, trace: seq<Call>, i: nat)
    requires i < |trace| && After(me, trace).Some? && trace[i].Pull?
    ensures i + 1 == |trace| && i > 0 && trace[i - 1].Claim? && trace[i - 1].reply.Nothing()
  {
    CallAt(me, trace, i);
    if i + 1 < |trace| {
      CallAt(me, trace, i + 1);
      assert false;
    }
    assert i > 0;
    CallAt(me, trace, i - 1);
  }

  function Deliveries(trace: seq<Call>): nat {
    if trace == [] then 0 else Deliveries(trace[..|trace| - 1]) + if trace[|trace| - 1].Delivers() then 1 else 0
  }

  function Settlements(trace: seq<Call>): nat {
    if trace == [] then 0 else Settlements(trace[..|trace| - 1]) + if trace[|trace| - 1].Settles() then 1 else 0
  }

  function Completions(trace: seq<Call>): nat {
    if trace == [] then 0
    else Completions(trace[..|trace| - 1]) + if trace[|trace| - 1].Complete? && trace[|trace| - 1].ok then 1 else 0
  }

  function Marks(trace: seq<Call>): nat {
    if trace == [] then 0
    else Marks(trace[..|trace| - 1]) + if trace[|trace| - 1].MarkAttempt? && trace[|trace| - 1].ok then 1 else 0
  }

  lemma {:induction false} Balance(me: string, trace: seq<Call>)
    requires After(me, trace).Some?
    ensures Deliveries(trace) == Settlements(trace) + if After(me, trace).value.Holds() then 1 else 0
  {
    if trace != [] {
      Balance(me, trace[..|trace| - 1]);
    }
  }

  /** Every delivered operation is settled by exactly one call. */
  lemma AllSettled(me: string, trace: seq<Call>)
    requires Lawful(me, trace)
    ensures Deliveries(trace) == Settlements(trace)
  {
    Balance(me, trace);
  }
}

/**
  Whole runs of the queue: users enqueue at any time, one worker per provider
  claims, applies and settles, records may fail to be written, the process may
  crash at any point, and a restart recovers interrupted rows.
 */
module QueueRuns {
  import Common
  import opened OperationQueue

  /** Between two steps a worker may hold a claimed operation. */
  datatype Worker = Idle | Applying(op: Row) | Succeeded(op: Row) | Unapplied(op: Row, interrupted: bool)
  {
    predicate Holds() { !Idle? }
  }

  /** The rows, the workers, and what happened so far: claims counted and successful applications. */
  datatype State = State(rows: Rows, workers: map<string, Worker>, claims: map<string, nat>, applied: set<string>,
                         born: Rows)
  {
    function Claims(id: string): nat { if id in claims then claims[id] else 0 }
  }

  datatype Action =
    | Enqueue(row: Row)
    | Claim(provider: string, id: string, now: int, retry: bool)
    | Apply(provider: string, outcome: Outcome)
    | Settle(provider: string, recorded: bool, message: string)
    | Crash
    | Start(providers: set<string>)
    | RecoverAgain

  function SettledStatus(w: Worker): Status
    requires w.Succeeded? || w.Unapplied?
  {
    if w.Succeeded? then Completed else if w.interrupted then Pending else Failed
  }

  ghost predicate Step(s: State, a: Action, t: State) {
    match a
    case Enqueue(row) =>
      && Acceptable(row) && row.id != "" && row.id !in s.rows
      && t == s.(rows := s.rows[row.id := row], born := s.born[row.id := row])
    case Claim(p, id, now, retry) =>
      && p in s.workers && s.workers[p] == Idle && Next(s.rows, id, p, now, retry)
      && var claimed := Claimed(s.rows[id], now);
         t == s.(rows := s.rows[id := claimed], workers := s.workers[p := Applying(claimed)],
                 claims := s.claims[id := s.Claims(id) + 1])
    case Apply(p, outcome) =>
      && p in s.workers && s.workers[p].Applying?
      && var op := s.workers[p].op;
      t == s.(workers := s.workers[p := if outcome == Applied then Succeeded(op)
                                        else Unapplied(op, outcome == Interrupted)],
              applied := if outcome == Applied then s.applied + {op.id} else s.applied)
    case Settle(p, recorded, message) =>
      && p in s.workers && (s.workers[p].Succeeded? || s.workers[p].Unapplied?)
      && var id := s.workers[p].op.id;
      t == s.(rows := if recorded && id in s.rows && s.rows[id].providerID == p
                      then s.rows[id := s.rows[id].(status := SettledStatus(s.workers[p]), error := message)]
                      else s.rows,
              workers := s.workers[p := Idle])
    case Crash =>
      t == s.(workers := map[])
    case Start(providers) =>
      s.workers == map[] && t == s.(rows := Recovered(s.rows), workers := map p | p in providers :: Idle)
    case RecoverAgain =>
      t == s.(rows := Recovered(s.rows))
  }

  ghost predicate Initial(s: State) {
    Keyed(s.rows) && s.born == s.rows && s.workers == map[] && s.claims == map[] && s.applied == {}
  }

  // ----- what every step keeps -----

  ghost predicate RowInv(s: State, id: string)
    requires id in s.rows && id in s.born
  {
    var row, first := s.rows[id], s.born[id];
    && row.Identity() == first.Identity()
    && row.attempts == first.attempts + s.Claims(id)
    && (row.status == Completed ==> id in s.applied || (first.status == Completed && s.Claims(id) == 0))
    && (first.status == Completed ==> row.status == Completed)
  }

  ghost predicate WorkerInv(s: State, p: string)
    requires p in s.workers
  {
    s.workers[p].Holds() ==>
      var id := s.workers[p].op.id;
      && id in s.rows && s.rows[id].providerID == p
      && (s.rows[id].status == Syncing || s.rows[id].status == Pending)
      && (s.workers[p].Succeeded? ==> id in s.applied)
  }

  ghost predicate Inv(s: State) {
    && Keyed(s.rows) && s.born.Keys == s.rows.Keys && s.claims.Keys <= s.rows.Keys
    && (forall id :: id in s.rows ==> RowInv(s, id))
    && forall p :: p in s.workers ==> WorkerInv(s, p)
  }

  /** Rows stay, keep their identity, and once completed never change again. */
  ghost predicate RowKept(s: State, t: State, id: string)
    requires id in s.rows
  {
    && id in t.rows && t.rows[id].Identity() == s.rows[id].Identity()
    && s.Claims(id) <= t.Claims(id)
    && (s.rows[id].status == Completed ==> t.rows[id] == s.rows[id] && t.Claims(id) == s.Claims(id))
  }

  ghost predicate Kept(s: State, t: State) {
    forall id :: id in s.rows ==> RowKept(s, t, id)
  }

  lemma StartsWell(s: State)
    requires Initial(s)
    ensures Inv(s)
  {
    forall id | id in s.rows
      ensures RowInv(s, id)
    {
    }
  }

  lemma StepKeepsRow(s: State, a: Action, t: State, id: string)
    requires Step(s, a, t) && id in s.rows && id in s.born && RowInv(s, id)
    requires a.Settle? ==> WorkerInv(s, a.provider)
    ensures id in t.rows && id in t.born && RowInv(t, id)
  {
  }

  lemma StepChangesRow(s: State, a: Action, t: State, id: string)
    requires Step(s, a, t) && id in s.rows
    requires a.Settle? ==> WorkerInv(s, a.provider)
    ensures RowKept(s, t, id)
  {
  }

  lemma StepKeepsWorker(s: State, a: Action, t: State, p: string)
    requires Keyed(s.rows) && Step(s, a, t) && p in t.workers
    requires p in s.workers ==> WorkerInv(s, p)
    requires a.Settle? ==> WorkerInv(s, a.provider)
    ensures WorkerInv(t, p)
  {
  }

  lemma StepKeepsKeys(s: State, a: Action, t: State)
    requires Step(s, a, t) && Keyed(s.rows) && s.born.Keys == s.rows.Keys && s.claims.Keys <= s.rows.Keys
    requires a.Settle? ==> WorkerInv(s, a.provider)
    ensures Keyed(t.rows) && t.born.Keys == t.rows.Keys && t.claims.Keys <= t.rows.Keys
  {
  }

  lemma StepAddsRow(s: State, a: Action, t: State, id: string)
    requires Step(s, a, t) && id in t.rows && id !in s.rows && s.claims.Keys <= s.rows.Keys
    ensures id in t.born && RowInv(t, id)
  {
  }

  lemma StepKeeps(s: State, a: Action, t: State)
    requires Inv(s) && Step(s, a, t)
    ensures Inv(t) && Kept(s, t)
  {
    if a.Settle? {
      assert WorkerInv(s, a.provider);
    }
    StepKeepsKeys(s, a, t);
    forall id | id in t.rows
      ensures RowInv(t, id)
    {
      if id in s.rows {
        assert RowInv(s, id);
        StepKeepsRow(s, a, t, id);
      } else {
        StepAddsRow(s, a, t, id);
      }
    }
    forall id | id in s.rows
      ensures RowKept(s, t, id)
    {
      StepChangesRow(s, a, t, id);
    }
    forall p | p in t.workers
      ensures WorkerInv(t, p)
    {
      StepKeepsWorker(s, a, t, p);
    }
  }

  // ----- whole runs -----

  datatype Run = Run(states: seq<State>, actions: seq<Action>)

  /** Steps from state to state. */
  ghost predicate Path(states: seq<State>, actions: seq<Action>) {
    && |states| == |actions| + 1
    && forall i :: 0 <= i < |actions| ==> Step(states[i], actions[i], states[i + 1])
  }

  ghost predicate IsRun(run: Run) {
    Path(run.states, run.actions) && Initial(run.states[0])
  }

  lemma {:induction false} PathKeeps(states: seq<State>, actions: seq<Action>)
    requires Path(states, actions) && Inv(states[0])
    ensures Inv(states[|actions|])
    decreases |actions|
  {
    if actions != [] {
      var n := |actions| - 1;
      PathKeeps(states[..n + 1], actions[..n]);
      assert Step(states[n], actions[n], states[n + 1]);
      StepKeeps(states[n], actions[n], states[n + 1]);
    }
  }

  lemma {:induction false} RunInvariant(run: Run, n: nat)
    requires IsRun(run) && n < |run.states|
    ensures Inv(run.states[n])
  {
    if n == 0 {
      StartsWell(run.states[0]);
    } else {
      RunInvariant(run, n - 1);
      assert Step(run.states[n - 1], run.actions[n - 1], run.states[n - 1 + 1]);
      StepKeeps(run.states[n - 1], run.actions[n - 1], run.states[n]);
    }
  }

  lemma KeptTransitive(a: State, b: State, c: State)
    requires Kept(a, b) && Kept(b, c)
    ensures Kept(a, c)
  {
    forall id | id in a.rows
      ensures RowKept(a, c, id)
    {
      assert RowKept(a, b, id) && RowKept(b, c, id);
    }
  }

  /** No row disappears, changes its payload, or changes at all once it is completed. */
  lemma {:induction false} RunKeepsRows(run: Run, i: nat, j: nat)
    requires IsRun(run) && i <= j < |run.states|
    ensures Kept(run.states[i], run.states[j])
    decreases j
  {
    if i < j {
      RunKeepsRows(run, i, j - 1);
      RunInvariant(run, j - 1);
      assert Step(run.states[j - 1], run.actions[j - 1], run.states[j - 1 + 1]);
      StepKeeps(run.states[j - 1], run.actions[j - 1], run.states[j]);
      KeptTransitive(run.states[i], run.states[j - 1], run.states[j]);
    } else {
      RunInvariant(run, i);
    }
  }

  /** The attempts of a row are those it was enqueued with plus its claims. */
  lemma AttemptsCountClaims(run: Run, n: nat, id: string)
    requires IsRun(run) && n < |run.states| && id in run.states[n].rows
    ensures id in run.states[n].born
    ensures run.states[n].rows[id].attempts == run.states[n].born[id].attempts + run.states[n].Claims(id)
  {
    RunInvariant(run, n);
    assert RowInv(run.states[n], id);
  }

  /** A row that was not enqueued as completed is completed only after the provider applied it. */
  lemma CompletedWasApplied(run: Run, n: nat, id: string) returns (i: nat)
    requires IsRun(run) && n < |run.states|
    requires id in run.states[n].rows && run.states[n].rows[id].status == Completed
    requires id in run.states[n].born && run.states[n].born[id].status != Completed
    ensures i < n && run.actions[i].Apply? && run.actions[i].outcome == Applied
    ensures run.actions[i].provider in run.states[i].workers
    ensures run.states[i].workers[run.actions[i].provider].Applying?
    ensures run.states[i].workers[run.actions[i].provider].op.id == id
  {
    RunInvariant(run, n);
    assert RowInv(run.states[n], id);
    i := WasApplied(run, n, id);
  }

  lemma {:induction false} WasApplied(run: Run, n: nat, id: string) returns (i: nat)
    requires IsRun(run) && n < |run.states| && id in run.states[n].applied
    ensures i < n && run.actions[i].Apply? && run.actions[i].outcome == Applied
    ensures run.actions[i].provider in run.states[i].workers
    ensures run.states[i].workers[run.actions[i].provider].Applying?
    ensures run.states[i].workers[run.actions[i].provider].op.id == id
  {
    assert n > 0;
    assert Step(run.states[n - 1], run.actions[n - 1], run.states[n - 1 + 1]);
    if id in run.states[n - 1].applied {
      i := WasApplied(run, n - 1, id);
    } else {
      i := n - 1;
    }
  }

  /** Completed rows are never claimed again. */
  lemma NeverClaimedAgain(run: Run, i: nat, j: nat, id: string)
    requires IsRun(run) && i <= j < |run.actions|
    requires id in run.states[i].rows && run.states[i].rows[id].status == Completed
    ensures !(run.actions[j].Claim? && run.actions[j].id == id)
  {
    RunKeepsRows(run, i, j);
    assert RowKept(run.states[i], run.states[j], id);
    assert Step(run.states[j], run.actions[j], run.states[j + 1]);
  }

  /** The action claims the row. */
  ghost predicate ClaimsRow(a: Action, id: string) { a.Claim? && a.id == id }

  /** Only claiming a row changes its attempts and the time of the last one. */
  lemma OnlyClaimsAttempt(s: State, a: Action, t: State, id: string)
    requires Step(s, a, t) && id in s.rows && !ClaimsRow(a, id)
    requires a.Settle? ==> WorkerInv(s, a.provider)
    ensures id in t.rows && t.rows[id].attempts == s.rows[id].attempts
    ensures t.rows[id].lastAttemptAt == s.rows[id].lastAttemptAt
  {
  }

  lemma {:induction false} AttemptSince(run: Run, i: nat, j: nat, id: string)
    requires IsRun(run) && i < j < |run.states| && ClaimsRow(run.actions[i], id)
    requires forall k :: i < k < j ==> !ClaimsRow(run.actions[k], id)
    ensures id in run.states[j].rows && run.states[j].rows[id].lastAttemptAt == Common.Some(run.actions[i].now)
    ensures id in run.states[i].rows && run.states[j].rows[id].attempts == run.states[i].rows[id].attempts + 1
    decreases j
  {
    assert Step(run.states[j - 1], run.actions[j - 1], run.states[j - 1 + 1]);
    if i < j - 1 {
      AttemptSince(run, i, j - 1, id);
      RunInvariant(run, j - 1);
      var a := run.actions[j - 1];
      assert a.Settle? ==> WorkerInv(run.states[j - 1], a.provider);
      OnlyClaimsAttempt(run.states[j - 1], a, run.states[j], id);
    }
  }

  /**
    Between a claim and the next claim of a row that failed lies at least the delay of its attempts, and none
    happens where failures are not retried.
   */
  lemma FailedWaits(run: Run, i: nat, j: nat, id: string)
    requires IsRun(run) && i < j < |run.actions| && ClaimsRow(run.actions[i], id) && ClaimsRow(run.actions[j], id)
    requires forall k :: i < k < j ==> !ClaimsRow(run.actions[k], id)
    requires id in run.states[j].rows && run.states[j].rows[id].status == Failed
    ensures run.actions[j].retry
    ensures id in run.states[i].rows
    ensures run.actions[j].now - run.actions[i].now >= RetryDelay(run.states[i].rows[id].attempts + 1)
  {
    AttemptSince(run, i, j, id);
    assert Step(run.states[j], run.actions[j], run.states[j + 1]);
  }

  /** A restart leaves no row in flight. */
  lemma StartRecovers(s: State, a: Action, t: State, id: string)
    requires a.Start? && Step(s, a, t) && id in s.rows
    ensures id in t.rows && t.rows[id].status != Syncing
    ensures s.rows[id].status == Syncing ==> t.rows[id].status == Pending
    ensures s.rows[id].status != Syncing ==> t.rows[id] == s.rows[id]
  {
  }

  // ----- the queue's methods take these steps -----

  lemma RecoversExactly(before: Rows, after: Rows)
    requires after.Keys == before.Keys && forall id :: id in after ==> RecoveredRow(before[id], after[id])
    ensures after == Recovered(before)
  {
    forall id | id in after
      ensures after[id] == Recovered(before)[id]
    {
      assert RecoveredRow(before[id], after[id]) && after[id].Identity() == before[id].Identity();
      assert before[id].status == Syncing ==> Eligible(after[id], before[id].providerID, 0, false);
    }
  }

  /** The state after a worker went through a claim, an answer and its record. */
  ghost function AfterTurn(s: State, p: string, after: Rows, id: string, outcome: Outcome): State {
    s.(rows := after, claims := s.claims[id := s.Claims(id) + 1],
       applied := if outcome == Applied then s.applied + {id} else s.applied)
  }

  function TurnActions(p: string, answers: Answers, id: string, turn: nat, retry: bool): seq<Action> {
    [Claim(p, id, answers.clock(turn), retry), Apply(p, answers.outcome(turn)),
     Settle(p, !answers.settleFault(turn), MessageOf(answers.outcome(turn)))]
  }

  /** A claim, an application and a settlement for every turn, in order, with the turn's answers. */
  function PushActions(p: string, answers: Answers, ids: seq<string>, retry: bool): seq<Action> {
    if ids == [] then []
    else
      var n := |ids| - 1;
      PushActions(p, answers, ids[..n], retry) + TurnActions(p, answers, ids[n], n, retry)
  }

  /** One turn of the push loop is a claim, an application and a settlement of the system. */
  lemma TurnIsSteps(s: State, p: string, after: Rows, answers: Answers, id: string, turn: nat, retry: bool)
      returns (states: seq<State>, actions: seq<Action>)
    requires Inv(s) && p in s.workers && s.workers[p] == Idle && TurnOf(s.rows, after, p, answers, id, turn, retry)
    ensures Path(states, actions) && states[0] == s
    ensures states[|actions|] == AfterTurn(s, p, after, id, answers.outcome(turn))
    ensures actions == TurnActions(p, answers, id, turn, retry)
  {
    var now, outcome, recorded := answers.clock(turn), answers.outcome(turn), !answers.settleFault(turn);
    var holding := HoldingState(s, p, id, now);
    var answered := AnsweredState(holding, p, outcome);
    var last := AfterTurn(s, p, after, id, outcome);
    SettleSteps(s, p, after, answers, id, turn, retry);
    hide *;
    states := [s, holding, answered, last];
    actions := [Claim(p, id, now, retry), Apply(p, outcome), Settle(p, recorded, MessageOf(outcome))];
    PathOfThree(states, actions);
  }

  ghost function HoldingState(s: State, p: string, id: string, now: int): State
    requires id in s.rows
  {
    var claimed := Claimed(s.rows[id], now);
    s.(rows := s.rows[id := claimed], workers := s.workers[p := Applying(claimed)],
       claims := s.claims[id := s.Claims(id) + 1])
  }

  ghost function AnsweredState(s: State, p: string, outcome: Outcome): State
    requires p in s.workers && s.workers[p].Applying?
  {
    var op := s.workers[p].op;
    s.(workers := s.workers[p := if outcome == Applied then Succeeded(op) else Unapplied(op, outcome == Interrupted)],
       applied := if outcome == Applied then s.applied + {op.id} else s.applied)
  }

  lemma ClaimStep(s: State, p: string, id: string, now: int, retry: bool)
    requires p in s.workers && s.workers[p] == Idle && Next(s.rows, id, p, now, retry)
    ensures Step(s, Claim(p, id, now, retry), HoldingState(s, p, id, now))
    ensures HoldingState(s, p, id, now).workers[p] == Applying(Claimed(s.rows[id], now))
  {
  }

  lemma ApplyStep(s: State, p: string, outcome: Outcome)
    requires p in s.workers && s.workers[p].Applying?
    ensures Step(s, Apply(p, outcome), AnsweredState(s, p, outcome))
  {
  }

  /** The record of an answer leaves what it leaves in the push loop. */
  lemma SettleStep(s: State, p: string, claim: Row, outcome: Outcome, fault: bool, t: State)
    requires p in s.workers && s.workers[p] == Applying(claim) && claim.providerID == p
    requires claim.id in s.rows && s.rows[claim.id] == claim
    requires var answered := AnsweredState(s, p, outcome);
             t == answered.(rows := s.rows[claim.id := SettledRow(claim, outcome, fault)],
                            workers := answered.workers[p := Idle])
    ensures Step(AnsweredState(s, p, outcome), Settle(p, !fault, MessageOf(outcome)), t)
  {
    if fault {
      assert t.rows == s.rows;
    }
  }

  lemma WorkersBack(s: State, p: string, id: string, now: int, outcome: Outcome)
    requires p in s.workers && s.workers[p] == Idle && id in s.rows
    ensures AnsweredState(HoldingState(s, p, id, now), p, outcome).workers[p := Idle] == s.workers
  {
  }

  lemma SettleSteps(s: State, p: string, after: Rows, answers: Answers, id: string, turn: nat, retry: bool)
    requires Inv(s) && p in s.workers && s.workers[p] == Idle && TurnOf(s.rows, after, p, answers, id, turn, retry)
    ensures var now, outcome, recorded := answers.clock(turn), answers.outcome(turn), !answers.settleFault(turn);
            var holding := HoldingState(s, p, id, now);
            && Step(s, Claim(p, id, now, retry), holding)
            && holding.workers[p].Applying? && Step(holding, Apply(p, outcome), AnsweredState(holding, p, outcome))
            && Step(AnsweredState(holding, p, outcome), Settle(p, recorded, MessageOf(outcome)),
                    AfterTurn(s, p, after, id, outcome))
  {
    var now, outcome := answers.clock(turn), answers.outcome(turn);
    ClaimStep(s, p, id, now, retry);
    NextIsOurs(s.rows, id, p, now, retry);
    assert s.rows[id].id == id;
    hide Step, Next, Inv, SettledRow, MessageOf;
    var holding := HoldingState(s, p, id, now);
    ApplyStep(holding, p, outcome);
    WorkersBack(s, p, id, now, outcome);
    assert after == holding.rows[id := SettledRow(Claimed(s.rows[id], now), outcome, answers.settleFault(turn))];
    SettleStep(holding, p, Claimed(s.rows[id], now), outcome, answers.settleFault(turn),
               AfterTurn(s, p, after, id, outcome));
  }

  lemma NextIsOurs(rows: Rows, id: string, p: string, now: int, retry: bool)
    requires Next(rows, id, p, now, retry)
    ensures id in rows && rows[id].providerID == p
  {
  }

  lemma PathOfThree(states: seq<State>, actions: seq<Action>)
    requires |states| == 4 && |actions| == 3
    requires Step(states[0], actions[0], states[1]) && Step(states[1], actions[1], states[2])
    requires Step(states[2], actions[2], states[3])
    ensures Path(states, actions)
  {
    forall i | 0 <= i < 3
      ensures Step(states[i], actions[i], states[i + 1])
    {
      if i == 0 {
      } else if i == 1 {
      } else {
        assert i == 2;
      }
    }
  }

  function MessageOf(outcome: Outcome): string { if outcome.Refused? then outcome.message else "" }

  lemma PathJoins(a: seq<State>, x: seq<Action>, b: seq<State>, y: seq<Action>)
    requires Path(a, x) && Path(b, y) && a[|x|] == b[0]
    ensures Path(a + b[1..], x + y)
    ensures (a + b[1..])[0] == a[0] && (a + b[1..])[|x + y|] == b[|y|]
  {
    var states, actions := a + b[1..], x + y;
    forall i | 0 <= i < |actions|
      ensures Step(states[i], actions[i], states[i + 1])
    {
      if i < |x| {
        assert Step(a[i], x[i], a[i + 1]);
      } else {
        assert Step(b[i - |x|], y[i - |x|], b[i - |x| + 1]);
      }
    }
  }

  /** A whole push cycle is a run of the system, from the rows it starts with to those it leaves. */
  lemma {:induction false} PushIsRun(s: State, p: string, answers: Answers, retry: bool, trail: seq<Rows>,
                                     ids: seq<string>)
      returns (states: seq<State>, actions: seq<Action>)
    requires Inv(s) && p in s.workers && s.workers[p] == Idle
    requires Trail(trail, p, answers, ids, retry) && trail[0] == s.rows
    ensures Path(states, actions) && states[0] == s && states[|actions|].rows == trail[|ids|]
    ensures states[|actions|].workers == s.workers && Inv(states[|actions|])
    ensures actions == PushActions(p, answers, ids, retry)
    decreases |ids|
  {
    if ids == [] {
      states, actions := [s], [];
    } else {
      var n := |ids| - 1;
      TrailInit(trail, p, answers, ids, retry);
      states, actions := PushIsRun(s, p, answers, retry, trail[..|ids|], ids[..n]);
      assert TurnOf(trail[n], trail[n + 1], p, answers, ids[n], n, retry);
      var turn, steps := TurnIsSteps(states[|actions|], p, trail[n + 1], answers, ids[n], n, retry);
      PathKeeps(turn, steps);
      PathJoins(states, actions, turn, steps);
      states, actions := states + turn[1..], actions + steps;
    }
  }

  lemma TrailInit(trail: seq<Rows>, p: string, answers: Answers, ids: seq<string>, retry: bool)
    requires Trail(trail, p, answers, ids, retry) && ids != []
    ensures Trail(trail[..|ids|], p, answers, ids[..|ids| - 1], retry)
  {
    forall i: nat | i < |ids| - 1
      ensures TurnOf(trail[..|ids|][i], trail[..|ids|][i + 1], p, answers, ids[..|ids| - 1][i], i, retry)
    {
      assert TurnOf(trail[i], trail[i + 1], p, answers, ids[i], i, retry);
    }
  }

  /** A repository with the system state it is part of. */
  class System {
    const repo: Repository
    ghost var state: State

    ghost predicate Valid()
      reads this, repo
    {
      repo.Valid() && state.rows == repo.rows && Inv(state)
    }

    constructor (repo: Repository)
      requires repo.Valid()
      ensures this.repo == repo && Valid() && Initial(state)
    {
      this.repo := repo;
      state := State(repo.rows, map[], map[], {}, repo.rows);
      new;
      StartsWell(state);
    }

    method EnqueueRow(operation: Row, newID: string, fault: bool) returns (error: Common.Option<QueueError>)
      requires Valid() && newID != ""
      modifies this, repo
      ensures Valid()
      ensures var row := if operation.id == "" then operation.(id := newID) else operation;
              if error.None? then Step(old(state), Enqueue(row), state) else state == old(state)
    {
      ghost var before := state;
      ghost var row := if operation.id == "" then operation.(id := newID) else operation;
      error := repo.Enqueue(operation, newID, fault);
      if error.None? {
        state := state.(rows := repo.rows, born := state.born[row.id := row]);
        StepKeeps(before, Enqueue(row), state);
      }
    }

    method ClaimFor(provider: string, now: int, retry: bool, fault: bool) returns (r: Common.Result<Row, QueueError>)
      requires Valid() && provider in state.workers && state.workers[provider] == Idle
      modifies this, repo
      ensures Valid()
      ensures if r.Ok? then Step(old(state), Claim(provider, r.value.id, now, retry), state) else state == old(state)
    {
      hide Taking, FirstOf, NothingToDo, Drained, Next, Claimed, Inv, Kept, Keyed;
      ghost var before := state;
      r := repo.ClaimNext(provider, now, retry, fault);
      if r.Ok? {
        state := state.(rows := repo.rows, workers := state.workers[provider := Applying(r.value)],
                        claims := state.claims[r.value.id := state.Claims(r.value.id) + 1]);
        StepKeeps(before, Claim(provider, r.value.id, now, retry), state);
      }
    }

    /** The worker's record of its outcome: complete, fail or release. */
    method Record(provider: string, ghost worker: Worker, id: string, status: Status, message: string, fault: bool)
        returns (error: Common.Option<QueueError>)
      requires Valid() && provider in state.workers && state.workers[provider] == worker
      requires (worker.Succeeded? || worker.Unapplied?) && id == worker.op.id && status == SettledStatus(worker)
      modifies this, repo
      ensures Valid()
      ensures error.None? <==> !fault
      ensures Step(old(state), Settle(provider, !fault, message), state)
    {
      ghost var before := state;
      assert WorkerInv(state, provider);
      error := repo.UpdateOperationStatus(id, provider, status, message, fault);
      state := state.(rows := repo.rows, workers := state.workers[provider := Idle]);
      StepKeeps(before, Settle(provider, !fault, message), state);
    }

    /** Recovery before the workers of a new process. */
    method Restart(ghost providers: set<string>, fault: bool) returns (error: Common.Option<QueueError>)
      requires Valid() && state.workers == map[]
      modifies this, repo
      ensures Valid()
      ensures if error.None? then Step(old(state), Start(providers), state) else state == old(state)
    {
      ghost var before := state;
      error := repo.RecoverInFlight(fault);
      if error.None? {
        RecoversExactly(before.rows, repo.rows);
        state := state.(rows := repo.rows, workers := map p | p in providers :: Idle);
        StepKeeps(before, Start(providers), state);
      } else {
        assert repo.rows == before.rows;
      }
    }
  }
}

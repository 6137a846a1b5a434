/**
  The durable queue of outgoing operations: rows are claimed in stored order,
  applied by the provider's worker, and settled; a restart makes interrupted
  rows eligible again.
 */
module OperationQueue {
  import opened Common
  import opened Text

  datatype Status = Pending | Syncing | Failed | Completed

  datatype EntityType = SpaceEntity | ListEntity | TaskEntity | UnknownEntity

  datatype Operation = Create | Update | Delete | UnknownOperation

  datatype Row = Row(
    id: string, providerID: string, entityType: EntityType, entityID: string, operation: Operation, payload: string,
    attempts: nat, status: Status, error: string, createdAt: string, lastAttemptAt: Option<int>)
  {
    /** What never changes about a row. */
    function Identity(): (string, string, EntityType, string, Operation, string, string) {
      (id, providerID, entityType, entityID, operation, payload, createdAt)
    }
  }

  type Rows = map<string, Row>

  datatype QueueError = Closed | Invalid | Duplicate | QueueEmpty | NotFound | StoreFailed

  const SECOND := 1_000_000_000

  const DELAYS := [SECOND, 5 * SECOND, 15 * SECOND, 30 * SECOND, 60 * SECOND, 300 * SECOND]

  function RetryDelay(attempts: int): (delay: int)
    ensures SECOND <= delay <= 300 * SECOND
    ensures attempts <= 1 ==> delay == SECOND
    ensures attempts >= 6 ==> delay == 300 * SECOND
  {
    if attempts <= 1 then SECOND
    else if attempts > |DELAYS| then DELAYS[|DELAYS| - 1]
    else DELAYS[attempts - 1]
  }

  /** Delays grow with the attempts, strictly up to the longest. */
  lemma DelaysGrow(a: int, b: int)
    requires 1 <= a < b
    ensures RetryDelay(a) <= RetryDelay(b)
    ensures b <= 6 ==> RetryDelay(a) < RetryDelay(b)
  {
    var i, j := if a > 6 then 5 else a - 1, if b > 6 then 5 else b - 1;
    assert RetryDelay(a) == DELAYS[i] && RetryDelay(b) == DELAYS[j];
  }

  // ----- the order of the queue -----

  predicate Earlier(a: Row, b: Row) {
    Less(a.createdAt, b.createdAt) || (a.createdAt == b.createdAt && Less(a.id, b.id))
  }

  lemma EarlierTransitive(a: Row, b: Row, c: Row)
    requires Earlier(a, b) && Earlier(b, c)
    ensures Earlier(a, c)
  {
    if Less(a.createdAt, b.createdAt) && Less(b.createdAt, c.createdAt) {
      LessTransitive(a.createdAt, b.createdAt, c.createdAt);
    }
    if Less(a.id, b.id) && Less(b.id, c.id) {
      LessTransitive(a.id, b.id, c.id);
    }
  }

  lemma EarlierTotal(a: Row, b: Row)
    ensures a.id == b.id || Earlier(a, b) || Earlier(b, a)
  {
    LessTotal(a.createdAt, b.createdAt);
    LessTotal(a.id, b.id);
  }

  ghost predicate Keyed(rows: Rows) {
    forall id :: id in rows ==> rows[id].id == id && id != ""
  }

  /** Pending rows are eligible, failed ones after their delay and only when failures are retried. */
  predicate Eligible(row: Row, providerID: string, now: int, retry: bool) {
    Waiting(row, providerID) && (row.status == Failed ==> Due(row, now, retry))
  }

  /** The rows of a provider that a claim could take, now or later. */
  predicate Waiting(row: Row, providerID: string) {
    row.providerID == providerID && (row.status == Pending || row.status == Failed)
  }

  predicate Due(row: Row, now: int, retry: bool) {
    retry && (row.lastAttemptAt.Some? ==> now - row.lastAttemptAt.value >= RetryDelay(row.attempts))
  }

  function Claimed(row: Row, now: int): Row {
    row.(status := Syncing, attempts := row.attempts + 1, lastAttemptAt := Some(now), error := "")
  }

  /** The row is in flight under one more attempt, made now, and is otherwise the same. */
  ghost predicate Taking(before: Row, after: Row, providerID: string, now: int) {
    && before.providerID == providerID && (before.status == Pending || before.status == Failed)
    && after.Identity() == before.Identity() && after.status == Syncing && after.error == ""
    && after.attempts == before.attempts + 1 && after.lastAttemptAt == Some(now)
  }

  /** No other row that could be taken was created before the claimed one, or at the same time under a lesser ID. */
  ghost predicate FirstOf(rows: Rows, claimed: Row, providerID: string, now: int, retry: bool) {
    forall id :: id in rows && id != claimed.id && rows[id].providerID == providerID
                 && !NothingToDo(rows[id], now, retry) ==>
                   Less(claimed.createdAt, rows[id].createdAt)
                   || (claimed.createdAt == rows[id].createdAt && Less(claimed.id, rows[id].id))
  }

  /** The row is in flight or done, or it failed and is not tried again, or not yet. */
  ghost predicate NothingToDo(row: Row, now: int, retry: bool) {
    || row.status == Syncing || row.status == Completed
    || (row.status == Failed
        && (!retry || (row.lastAttemptAt.Some? && now - row.lastAttemptAt.value < RetryDelay(row.attempts))))
  }

  /** The eligible row before all other eligible ones. */
  ghost predicate Next(rows: Rows, id: string, providerID: string, now: int, retry: bool) {
    && id in rows && Eligible(rows[id], providerID, now, retry)
    && forall other :: other in rows && other != id && Eligible(rows[other], providerID, now, retry) ==>
         Earlier(rows[id], rows[other])
  }

  const INTERRUPTED := "interrupted by previous shutdown"

  function Recovered(rows: Rows): Rows {
    map id | id in rows :: if rows[id].status == Syncing then rows[id].(status := Pending, error := INTERRUPTED)
                           else rows[id]
  }

  /** Nothing is in flight; interrupted rows keep payload and attempts and can be claimed at once. */
  ghost predicate RecoveredRow(before: Row, after: Row) {
    && after.status != Syncing
    && after.Identity() == before.Identity()
    && after.attempts == before.attempts && after.lastAttemptAt == before.lastAttemptAt
    && (before.status == Syncing ==>
          after.error == INTERRUPTED && forall now, retry :: Eligible(after, before.providerID, now, retry))
    && (before.status != Syncing ==> after == before)
  }

  predicate Acceptable(row: Row) {
    && Trim(row.providerID) != "" && Trim(row.entityID) != "" && row.payload != ""
    && row.entityType != UnknownEntity && row.operation != UnknownOperation
  }

  // ----- the repository -----

  /** Rows in strictly increasing queue order. */
  ghost predicate Ordered(s: seq<Row>) {
    forall i, j :: 0 <= i < j < |s| ==> Earlier(s[i], s[j])
  }

  method InsertOrdered(sorted: seq<Row>, row: Row) returns (after: seq<Row>)
    requires Ordered(sorted) && forall r :: r in sorted ==> r.id != row.id
    ensures Ordered(after) && Elements(after) == Elements(sorted) + {row}
  {
    hide Earlier;
    var i := 0;
    while i < |sorted| && Earlier(sorted[i], row)
      invariant i <= |sorted| && forall k :: 0 <= k < i ==> Earlier(sorted[k], row)
    {
      i := i + 1;
    }
    after := sorted[..i] + [row] + sorted[i..];
    assert sorted == sorted[..i] + sorted[i..];
    forall k | i <= k < |sorted|
      ensures Earlier(row, sorted[k])
    {
      EarlierTotal(row, sorted[i]);
      if i < k {
        EarlierTransitive(row, sorted[i], sorted[k]);
      }
    }
  }

  class Repository {
    var rows: Rows

    ghost predicate Valid()
      reads this
    {
      Keyed(rows)
    }

    constructor ()
      ensures Valid() && rows == map[]
    {
      rows := map[];
    }

    /** New rows need an unused ID; IDs and statuses may come from the caller. */
    method Enqueue(operation: Row, newID: string, fault: bool) returns (error: Option<QueueError>)
      requires Valid() && newID != ""
      modifies this
      ensures Valid()
      ensures var row := if operation.id == "" then operation.(id := newID) else operation;
              if error.None? then !fault && Acceptable(row) && row.id !in old(rows) && rows == old(rows)[row.id := row]
              else rows == old(rows) && (fault || !Acceptable(row) || row.id in old(rows))
      ensures Trim(operation.providerID) == "" || Trim(operation.entityID) == "" || operation.payload == ""
              || operation.entityType.UnknownEntity? || operation.operation.UnknownOperation? ==>
                error == Some(Invalid) && rows == old(rows)
    {
      var row := operation;
      if row.id == "" {
        row := row.(id := newID);
      }
      if !Acceptable(row) {
        return Some(Invalid);
      }
      if row.id in rows {
        return Some(Duplicate);
      }
      if fault {
        return Some(StoreFailed);
      }
      rows := rows[row.id := row];
      error := None;
    }

    /** The pending and failed rows of a provider, by creation time and ID. */
    method Candidates(providerID: string) returns (found: seq<Row>)
      requires Valid()
      ensures Ordered(found)
      ensures forall r :: r in found <==>
                r.id in rows && rows[r.id] == r && Waiting(r, providerID)
    {
      found := [];
      var ids := rows.Keys;
      while ids != {}
        invariant ids <= rows.Keys && Ordered(found)
        invariant forall r :: r in found <==>
                    r.id in rows && r.id !in ids && rows[r.id] == r && Waiting(r, providerID)
        decreases ids
      {
        var id :| id in ids;
        var row := rows[id];
        if row.providerID == providerID && (row.status == Pending || row.status == Failed) {
          var after := InsertOrdered(found, row);
          forall r
            ensures r in after <==> r in found || r == row
          {
            assert r in after <==> r in Elements(after);
          }
          found := after;
        }
        ids := ids - {id};
      }
    }

    method ClaimNext(providerID: string, now: int, retry: bool, fault: bool) returns (r: Result<Row, QueueError>)
      requires Valid()
      modifies this
      ensures Valid()
      ensures r.Ok? ==>
                && Next(old(rows), r.value.id, providerID, now, retry)
                && r.value == Claimed(old(rows)[r.value.id], now)
                && rows == old(rows)[r.value.id := r.value]
                && Taking(old(rows)[r.value.id], r.value, providerID, now)
                && FirstOf(old(rows), r.value, providerID, now, retry)
      ensures r.Err? ==> rows == old(rows) && r.error == if fault then StoreFailed else QueueEmpty
      ensures fault ==> r.Err?
      ensures r == Err(QueueEmpty) ==> Drained(rows, providerID, now, retry)
      ensures r == Err(QueueEmpty) ==> forall id :: id in rows && rows[id].providerID == providerID ==>
                                         NothingToDo(rows[id], now, retry)
    {
      if fault {
        return Err(StoreFailed);
      }
      var found := Candidates(providerID);
      var selected: Option<Row> := None;
      for i := 0 to |found|
        invariant selected.None?
        invariant forall k :: 0 <= k < i ==> !Eligible(found[k], providerID, now, retry)
      {
        var candidate := found[i];
        if candidate.status == Failed {
          if !retry {
            continue;
          }
          if candidate.lastAttemptAt.Some? && now - candidate.lastAttemptAt.value < RetryDelay(candidate.attempts) {
            continue;
          }
        }
        selected := Some(candidate);
        FirstIsNext(rows, found, i, providerID, now, retry);
        break;
      }
      if selected.None? {
        assert forall id :: id in rows && Eligible(rows[id], providerID, now, retry) ==> rows[id] in found;
        return Err(QueueEmpty);
      }
      var claimed := Claimed(selected.value, now);
      rows := rows[claimed.id := claimed];
      r := Ok(claimed);
    }

    method UpdateOperationStatus(id: string, providerID: string, status: Status, message: string, fault: bool)
        returns (error: Option<QueueError>)
      requires Valid()
      modifies this
      ensures Valid()
      ensures error.None? <==> !fault && id in old(rows) && old(rows)[id].providerID == providerID
      ensures rows == if error.None? then old(rows)[id := old(rows)[id].(status := status, error := message)]
                      else old(rows)
    {
      if fault {
        return Some(StoreFailed);
      }
      if id !in rows || rows[id].providerID != providerID {
        return Some(NotFound);
      }
      rows := rows[id := rows[id].(status := status, error := message)];
      error := None;
    }

    method RecoverInFlight(fault: bool) returns (error: Option<QueueError>)
      requires Valid()
      modifies this
      ensures Valid()
      ensures error.None? <==> !fault
      ensures rows.Keys == old(rows).Keys
      ensures forall id :: id in rows ==>
                if error.None? then RecoveredRow(old(rows)[id], rows[id]) else rows[id] == old(rows)[id]
    {
      if fault {
        return Some(StoreFailed);
      }
      rows := Recovered(rows);
      error := None;
    }
  }

  lemma FirstIsNext(rows: Rows, found: seq<Row>, i: nat, providerID: string, now: int, retry: bool)
    requires Keyed(rows) && Ordered(found) && i < |found|
    requires forall r :: r in found <==>
               r.id in rows && rows[r.id] == r && Waiting(r, providerID)
    requires Eligible(found[i], providerID, now, retry)
    requires forall k :: 0 <= k < i ==> !Eligible(found[k], providerID, now, retry)
    ensures Next(rows, found[i].id, providerID, now, retry)
  {
    assert found[i] in found;
    forall other | other in rows && other != found[i].id && Eligible(rows[other], providerID, now, retry)
      ensures Earlier(found[i], rows[other])
    {
      assert rows[other] in found;
      var k :| 0 <= k < |found| && found[k] == rows[other];
    }
  }

  // ----- one push cycle -----

  /** What the provider makes of an operation. */
  datatype Outcome = Applied | Refused(message: string) | Interrupted

  datatype PushError = NotClaimed | NotSettled | PushInterrupted

  /** What the record of an outcome makes of a claimed row; without a record the row stays in flight. */
  function SettledRow(claim: Row, outcome: Outcome, fault: bool): Row {
    if fault then claim
    else match outcome
      case Applied => claim.(status := Completed, error := "")
      case Refused(message) => claim.(status := Failed, error := message)
      case Interrupted => claim.(status := Pending, error := "")
  }

  function SettleError(outcome: Outcome, fault: bool): Option<PushError> {
    if fault then Some(NotSettled) else if outcome.Interrupted? then Some(PushInterrupted) else None
  }

  ghost function Open(rows: Rows, providerID: string): set<string> {
    set id | id in rows && Waiting(rows[id], providerID)
  }

  /** No row of the provider is eligible any more. */
  ghost predicate Drained(rows: Rows, providerID: string, now: int, retry: bool) {
    forall id :: id in rows ==> !Eligible(rows[id], providerID, now, retry)
  }

  /** The answers one push cycle meets, turn by turn. */
  datatype Answers = Answers(clock: nat -> int, outcome: nat -> Outcome, claimFault: nat -> bool,
                             settleFault: nat -> bool)
  {
    ghost predicate Completes(turn: nat) {
      !claimFault(turn) && outcome(turn) == Applied && !settleFault(turn)
    }

    /** No claim and no record fails. */
    ghost predicate Recorded() {
      forall turn: nat :: !claimFault(turn) && !settleFault(turn)
    }

    /** The row a turn leaves of the one it claims. */
    function Left(row: Row, turn: nat): Row {
      SettledRow(Claimed(row, clock(turn)), outcome(turn), settleFault(turn))
    }
  }

  /** The turns of a cycle claimed the rows of ids, one each, and left all other rows alone. */
  ghost predicate Cycle(before: Rows, after: Rows, providerID: string, answers: Answers, ids: seq<string>) {
    && after.Keys == before.Keys
    && Distinct(ids)
    && (forall i :: 0 <= i < |ids| ==> Taken(before, after, providerID, answers, ids[i], i))
    && forall id :: id in before && id !in ids ==> after[id] == before[id]
  }

  ghost predicate Taken(before: Rows, after: Rows, providerID: string, answers: Answers, id: string, turn: nat) {
    && id in before && id in after
    && Waiting(before[id], providerID) && after[id] == answers.Left(before[id], turn)
  }

  ghost predicate InOrder(rows: Rows, ids: seq<string>) {
    && (forall i :: 0 <= i < |ids| ==> ids[i] in rows)
    && forall i, j :: 0 <= i < j < |ids| ==> Earlier(rows[ids[i]], rows[ids[j]])
  }

  /** Completed operations come before everything that is still waiting. */
  ghost predicate Served(before: Rows, rows: Rows, providerID: string, done: seq<string>) {
    && InOrder(before, done)
    && forall i, id :: 0 <= i < |done| && id in rows && id in before && Eligible(rows[id], providerID, 0, false) ==>
         Earlier(before[done[i]], before[id])
  }

  /** One turn claims the row that is next, and leaves of it what the provider's answer and its record make. */
  ghost predicate TurnOf(before: Rows, after: Rows, providerID: string, answers: Answers, id: string, turn: nat,
                         retry: bool) {
    && Next(before, id, providerID, answers.clock(turn), retry)
    && after == before[id := answers.Left(before[id], turn)]
  }

  /** The rows before and after every turn of a cycle. */
  ghost predicate Trail(trail: seq<Rows>, providerID: string, answers: Answers, ids: seq<string>, retry: bool) {
    && |trail| == |ids| + 1
    && forall i: nat :: i < |ids| ==> TurnOf(trail[i], trail[i + 1], providerID, answers, ids[i], i, retry)
  }

  lemma TrailSnoc(trail: seq<Rows>, after: Rows, providerID: string, answers: Answers, ids: seq<string>, id: string,
                  retry: bool)
    requires Trail(trail, providerID, answers, ids, retry)
    requires TurnOf(trail[|ids|], after, providerID, answers, id, |ids|, retry)
    ensures Trail(trail + [after], providerID, answers, ids + [id], retry)
  {
    var longer, more := trail + [after], ids + [id];
    forall i: nat | i < |more|
      ensures TurnOf(longer[i], longer[i + 1], providerID, answers, more[i], i, retry)
    {
      if i < |ids| {
        assert longer[i] == trail[i] && longer[i + 1] == trail[i + 1] && more[i] == ids[i];
      }
    }
  }

  /** So far every turn completed its operation. */
  ghost predicate Going(start: Rows, rows: Rows, providerID: string, answers: Answers, done: seq<string>, retry: bool) {
    && Cycle(start, rows, providerID, answers, done)
    && (forall i: nat :: i < |done| ==> answers.Completes(i))
    && (!retry ==> Served(start, rows, providerID, done))
  }

  lemma WaitingUntouched(start: Rows, before: Rows, providerID: string, answers: Answers, done: seq<string>, id: string,
                         retry: bool)
    requires Going(start, before, providerID, answers, done, retry) && id in before && Waiting(before[id], providerID)
    ensures id in start && id !in done && before[id] == start[id]
  {
    forall i: nat | i < |done|
      ensures done[i] != id
    {
      assert Taken(start, before, providerID, answers, done[i], i) && answers.Completes(i);
    }
  }

  lemma CycleTakes(start: Rows, before: Rows, after: Rows, providerID: string, answers: Answers, done: seq<string>,
                   id: string, retry: bool)
    requires Going(start, before, providerID, answers, done, retry)
    requires id in before && Waiting(before[id], providerID)
    requires after == before[id := answers.Left(before[id], |done|)]
    ensures Cycle(start, after, providerID, answers, done + [id])
  {
    WaitingUntouched(start, before, providerID, answers, done, id, retry);
    ElementsSnoc(done, id);
    var ids := done + [id];
    forall i | 0 <= i < |ids|
      ensures Taken(start, after, providerID, answers, ids[i], i)
    {
      if i < |done| {
        assert Taken(start, before, providerID, answers, done[i], i);
      }
    }
    assert forall other :: other !in ids ==> other !in done && other != ids[|done|];
  }

  /** Without retries the claimed operation comes after all completed ones. */
  lemma ClaimInOrder(start: Rows, before: Rows, providerID: string, answers: Answers, done: seq<string>, id: string,
                     now: int)
    requires Going(start, before, providerID, answers, done, false) && Next(before, id, providerID, now, false)
    ensures InOrder(start, done + [id])
  {
    WaitingUntouched(start, before, providerID, answers, done, id, false);
    assert Eligible(before[id], providerID, 0, false);
  }

  lemma ServedNext(start: Rows, before: Rows, after: Rows, providerID: string, answers: Answers, done: seq<string>,
                   id: string, now: int)
    requires Going(start, before, providerID, answers, done, false)
    requires Keyed(before) && Next(before, id, providerID, now, false)
    requires id in after && after == before[id := after[id]] && after[id].status == Completed
    ensures Served(start, after, providerID, done + [id])
  {
    ClaimInOrder(start, before, providerID, answers, done, id, now);
    var longer := done + [id];
    forall i, other | 0 <= i < |longer| && other in after && other in start
      && Eligible(after[other], providerID, 0, false)
      ensures Earlier(start[longer[i]], start[other])
    {
      assert other != id && after[other] == before[other];
      WaitingUntouched(start, before, providerID, answers, done, other, false);
      WaitingUntouched(start, before, providerID, answers, done, id, false);
      if i == |done| {
        assert Eligible(before[other], providerID, now, false);
      }
    }
  }

  lemma OneLessOpen(before: Rows, after: Rows, providerID: string, id: string)
    requires id in before && Waiting(before[id], providerID)
    requires id in after && after == before[id := after[id]] && after[id].status == Completed
    ensures Open(after, providerID) < Open(before, providerID)
  {
    assert Open(after, providerID) == Open(before, providerID) - {id};
  }

  /** A turn that claimed a row: the cycle has one more, and goes on when the row was completed. */
  lemma TurnTaken(start: Rows, before: Rows, after: Rows, providerID: string, answers: Answers, done: seq<string>,
                  id: string, retry: bool)
    requires Keyed(before) && Going(start, before, providerID, answers, done, retry)
    requires Next(before, id, providerID, answers.clock(|done|), retry) && !answers.claimFault(|done|)
    requires after == before[id := answers.Left(before[id], |done|)]
    ensures Cycle(start, after, providerID, answers, done + [id])
    ensures !retry ==> InOrder(start, done + [id])
    ensures answers.Completes(|done|) ==>
              && Going(start, after, providerID, answers, done + [id], retry)
              && Open(after, providerID) < Open(before, providerID)
  {
    hide Served, InOrder, Earlier, Cycle;
    CycleTakes(start, before, after, providerID, answers, done, id, retry);
    if !retry {
      ClaimInOrder(start, before, providerID, answers, done, id, answers.clock(|done|));
    }
    if answers.Completes(|done|) {
      OneLessOpen(before, after, providerID, id);
      if !retry {
        ServedNext(start, before, after, providerID, answers, done, id, answers.clock(|done|));
      }
    }
  }

  class Engine {
    const repo: Repository
    const retry: bool

    constructor (repo: Repository, retry: bool)
      ensures this.repo == repo && this.retry == retry
    {
      this.repo, this.retry := repo, retry;
    }

    /** Records what became of a claimed operation: completed, failed with the provider's message, or released. */
    method Settle(claim: Row, providerID: string, outcome: Outcome, fault: bool) returns (error: Option<PushError>)
      requires repo.Valid() && claim.id in repo.rows && repo.rows[claim.id] == claim && claim.providerID == providerID
      modifies repo
      ensures repo.Valid()
      ensures repo.rows == old(repo.rows)[claim.id := SettledRow(claim, outcome, fault)]
      ensures error == SettleError(outcome, fault)
    {
      var settled;
      match outcome {
        case Interrupted =>
          settled := repo.UpdateOperationStatus(claim.id, providerID, Pending, "", fault);
        case Refused(message) =>
          settled := repo.UpdateOperationStatus(claim.id, providerID, Failed, message, fault);
        case Applied =>
          settled := repo.UpdateOperationStatus(claim.id, providerID, Completed, "", fault);
      }
      error := if settled.Some? then Some(NotSettled) else if outcome.Interrupted? then Some(PushInterrupted) else None;
    }

    /** One turn: a claim, the provider's answer, and its record. */
    method PushOne(ghost start: Rows, providerID: string, answers: Answers, turn: nat, ghost done: seq<string>,
                   ghost trail: seq<Rows>)
        returns (error: Option<PushError>, claimed: Option<string>)
      requires repo.Valid() && Going(start, repo.rows, providerID, answers, done, retry) && turn == |done|
      requires Trail(trail, providerID, answers, done, retry) && trail[turn] == repo.rows
      modifies repo
      ensures repo.Valid()
      ensures claimed.None? ==> repo.rows == old(repo.rows)
      ensures claimed.None? ==> Unclaimed(repo.rows, providerID, answers, turn, retry, error)
      ensures claimed.Some? ==> Trail(trail + [repo.rows], providerID, answers, done + [claimed.value], retry)
      ensures claimed.Some? ==>
                && !answers.claimFault(turn) && error == SettleError(answers.outcome(turn), answers.settleFault(turn))
                && Cycle(start, repo.rows, providerID, answers, done + [claimed.value])
                && (!retry ==> InOrder(start, done + [claimed.value]))
      ensures claimed.Some? && answers.Completes(turn) ==>
                && Going(start, repo.rows, providerID, answers, done + [claimed.value], retry)
                && Open(repo.rows, providerID) < Open(old(repo.rows), providerID)
    {
      ghost var before := repo.rows;
      var claim := repo.ClaimNext(providerID, answers.clock(turn), retry, answers.claimFault(turn));
      if claim.Err? {
        return if claim.error == QueueEmpty then None else Some(NotClaimed), None;
      }
      var id := claim.value.id;
      error := Settle(claim.value, providerID, answers.outcome(turn), answers.settleFault(turn));
      claimed := Some(id);
      TurnTaken(start, before, repo.rows, providerID, answers, done, id, retry);
      TrailSnoc(trail, repo.rows, providerID, answers, done, id, retry);
    }

    /**
      Claims and applies operations, in done, until no row is eligible or a claim fails, or until the one operation
      of last is not completed.
     */
    method Push(providerID: string, answers: Answers)
        returns (error: Option<PushError>, ghost done: seq<string>, ghost last: Option<string>, ghost trail: seq<Rows>)
      requires repo.Valid()
      modifies repo
      ensures repo.Valid()
      ensures Cycle(old(repo.rows), repo.rows, providerID, answers, done + Tail(last))
      ensures Trail(trail, providerID, answers, done + Tail(last), retry)
      ensures trail[0] == old(repo.rows) && trail[|trail| - 1] == repo.rows
      ensures !retry ==> InOrder(old(repo.rows), done + Tail(last))
      ensures forall turn: nat :: turn < |done| ==> answers.Completes(turn)
      ensures last.None? ==> Unclaimed(repo.rows, providerID, answers, |done|, retry, error)
      ensures last.Some? ==>
                && !answers.claimFault(|done|) && !answers.Completes(|done|)
                && error == SettleError(answers.outcome(|done|), answers.settleFault(|done|))
                && (error == Some(NotSettled) <==> answers.settleFault(|done|))
                && (error == Some(PushInterrupted) <==>
                      !answers.settleFault(|done|) && answers.outcome(|done|).Interrupted?)
                && (error.None? <==> !answers.settleFault(|done|) && answers.outcome(|done|).Refused?)
      ensures answers.Recorded() ==>
                if last.Some? then answers.outcome(|done|) != Applied
                else error == None && Drained(repo.rows, providerID, answers.clock(|done|), retry)
    {
      ghost var start := repo.rows;
      done, trail := [], [start];
      TrailStarts(start, providerID, answers, retry);
      assert Going(start, start, providerID, answers, done, retry);
      assert |trail| == 1;
      hide Cycle, TurnOf, Next, Trail, InOrder, Eligible, Open;
      var turn: nat := 0;
      while true
        invariant repo.Valid() && turn == |done| == |trail| - 1
        invariant Going(start, repo.rows, providerID, answers, done, retry)
        invariant Trail(trail, providerID, answers, done, retry) && trail[0] == start && trail[turn] == repo.rows
        decreases Open(repo.rows, providerID)
      {
        var claimed;
        error, claimed := PushOne(start, providerID, answers, turn, done, trail);
        if claimed.Some? {
          trail := trail + [repo.rows];
        }
        if claimed.None? || answers.outcome(turn) != Applied || error.Some? {
          last := claimed;
          assert done + [] == done;
          return;
        }
        done, turn := done + [claimed.value], turn + 1;
      }
    }
  }

  lemma TrailStarts(rows: Rows, providerID: string, answers: Answers, retry: bool)
    ensures Trail([rows], providerID, answers, [], retry)
  {
  }

  ghost function Tail(last: Option<string>): seq<string> {
    if last.Some? then [last.value] else []
  }

  /** A turn without a claim: the claim failed, or no row was eligible. */
  ghost predicate Unclaimed(rows: Rows, providerID: string, answers: Answers, turn: nat, retry: bool,
                            error: Option<PushError>) {
    if answers.claimFault(turn) then error == Some(NotClaimed)
    else error == None && Drained(rows, providerID, answers.clock(turn), retry)
  }

  /** The row of an operation that was claimed and not completed: failed, pending, or still in flight unrecorded. */
  lemma LastRow(before: Rows, after: Rows, providerID: string, answers: Answers, done: seq<string>, last: string)
    requires Cycle(before, after, providerID, answers, done + [last]) && !answers.Completes(|done|)
    requires !answers.claimFault(|done|)
    ensures last in before && last in after && after[last].attempts == before[last].attempts + 1
    ensures after[last].status == if answers.settleFault(|done|) then Syncing
                                  else if answers.outcome(|done|).Interrupted? then Pending else Failed
    ensures after[last].status == Failed ==> after[last].error == answers.outcome(|done|).message
  {
    assert (done + [last])[|done|] == last;
    assert Taken(before, after, providerID, answers, (done + [last])[|done|], |done|);
  }
}

/**
  Tracking time on tasks of local providers. Stopping a session adds its
  duration to the task's total and writes a history entry, in one transaction.
  Clocks run in nanoseconds, the store keeps milliseconds.
 */
module TimeTracking {
  import opened Common
  import Text

  const MILLISECOND := 1_000_000

  datatype Ref = Ref(providerID: string, taskID: string)

  datatype TrackedTask = TrackedTask(title: string, deleted: bool, trackedMs: Option<nat>) {
    /** No recorded time counts as zero. */
    function Total(): nat { if trackedMs.Some? then trackedMs.value else 0 }
  }

  /** baseTracked is the task's total, in nanoseconds, when the session started. */
  datatype Session = Session(ref: Ref, title: string, startedAt: int, baseTracked: nat)

  datatype HistoryEntry = HistoryEntry(ref: Ref, title: string, startedAt: int, endedAt: int, durationMs: nat)

  datatype ProviderKind = LocalProvider | OtherProvider

  datatype TrackError =
    Cancelled | TaskUnknown | TaskDeleted | ProviderUnknown | Unsupported | NotTracking | NotPersisted

  /** Which store calls fail; late failures come after the commit. */
  datatype Faults = Faults(cancelled: bool, stop: bool, stopLate: bool, save: bool)

  ghost function HistoryMs(history: seq<HistoryEntry>, ref: Ref): nat {
    if history == [] then 0
    else
      var last := history[|history| - 1];
      HistoryMs(history[..|history| - 1], ref) + if last.ref == ref then last.durationMs else 0
  }

  function Max(a: int, b: int): int { if a < b then b else a }

  /** Durations as they are stored. */
  function Millis(duration: nat): nat { duration / MILLISECOND }

  /** Whole milliseconds stay whole, so cutting a total cuts exactly what cutting the added part cuts. */
  lemma CutSum(ms: nat, duration: nat)
    ensures Millis(ms * MILLISECOND + duration) == ms + Millis(duration)
  {
  }

  /** The larger of base and current total, plus the session. */
  function StoppedTotal(baseTracked: nat, current: nat, duration: nat): nat {
    Millis(Max(baseTracked, current * MILLISECOND) + duration)
  }

  /** While nothing else changed the task, a session adds its own milliseconds. */
  lemma StoppedTotalAdds(current: nat, duration: nat)
    ensures StoppedTotal(current * MILLISECOND, current, duration) == current + Millis(duration)
  {
    CutSum(current, duration);
  }

  /** A clock that went backwards counts as no time. */
  function Elapsed(s: Session, now: int): nat { Max(0, now - s.startedAt) }

  /** The history entry of a session that ended. */
  function EntryForSession(s: Session, task: TrackedTask, endedAt: int, duration: nat): HistoryEntry {
    var title := if task.title != "" then task.title else s.title;
    HistoryEntry(s.ref, title, s.startedAt, Max(endedAt, s.startedAt), Millis(duration))
  }

  /** A session that starts before the entry of the stopped one has ended. */
  predicate Overlaps(entry: HistoryEntry, startedAt: int) { startedAt < entry.endedAt }

  /**
    A switch reads the clock for the new session before it stops the old one. The intervals are apart exactly when
    the second reading is no later than the first, and the old session started no later either.
   */
  lemma SwitchOverlaps(s: Session, task: TrackedTask, now: int, stopNow: int)
    ensures Overlaps(EntryForSession(s, task, stopNow, Elapsed(s, stopNow)), now) <==>
              !(stopNow <= now && s.startedAt <= now)
  {
  }

  /** One tick between the readings is an overlap. */
  lemma OneTickOverlaps()
    ensures var s, task := Session(Ref("local", "a"), "a", 0, 0), TrackedTask("a", false, None);
            Overlaps(EntryForSession(s, task, 2, Elapsed(s, 2)), 1)
  {
    SwitchOverlaps(Session(Ref("local", "a"), "a", 0, 0), TrackedTask("a", false, None), 1, 2);
  }

  /** Each total is what the task started with plus its recorded history. */
  ghost predicate Conserved(initial: map<Ref, TrackedTask>, tasks: map<Ref, TrackedTask>, history: seq<HistoryEntry>) {
    && tasks.Keys == initial.Keys
    && forall ref :: ref in tasks ==> tasks[ref].Total() == initial[ref].Total() + HistoryMs(history, ref)
  }

  /** The time of an interval is the time between its ends. */
  ghost predicate Timed(history: seq<HistoryEntry>) {
    forall i :: 0 <= i < |history| ==>
      && history[i].startedAt <= history[i].endedAt
      && history[i].durationMs == Millis(history[i].endedAt - history[i].startedAt)
  }

  lemma ConservedOneMore(initial: map<Ref, TrackedTask>, tasks: map<Ref, TrackedTask>, history: seq<HistoryEntry>,
                         entry: HistoryEntry, after: map<Ref, TrackedTask>)
    requires Conserved(initial, tasks, history) && entry.ref in tasks
    requires after.Keys == tasks.Keys
    requires after[entry.ref].Total() == tasks[entry.ref].Total() + entry.durationMs
    requires forall ref :: ref in tasks && ref != entry.ref ==> after[ref] == tasks[ref]
    ensures Conserved(initial, after, history + [entry])
  {
    assert (history + [entry])[..|history|] == history;
  }

  class Tracking {
    const providers: map<string, ProviderKind>
    const initial: map<Ref, TrackedTask>
    var tasks: map<Ref, TrackedTask>
    var session: Option<Session>
    var history: seq<HistoryEntry>

    /** At most one session is active, and its base is the total its task has now. */
    ghost predicate Valid()
      reads this
    {
      && Conserved(initial, tasks, history)
      && Timed(history)
      && (session.Some? && session.value.ref in tasks ==>
            session.value.baseTracked == tasks[session.value.ref].Total() * MILLISECOND)
    }

    constructor (tasks: map<Ref, TrackedTask>, providers: map<string, ProviderKind>)
      ensures Valid() && session == None && history == [] && this.tasks == initial == tasks
    {
      this.tasks, this.initial, this.providers := tasks, tasks, providers;
      session, history := None, [];
    }

    /** There is a session on a known task of a local provider, and its history entry will have a title. */
    ghost predicate CanStop()
      reads this
    {
      && session.Some? && session.value.ref in tasks
      && session.value.ref.providerID in providers && providers[session.value.ref.providerID] == LocalProvider
      && Text.Trim(EntryForSession(session.value, tasks[session.value.ref], 0, 0).title) != ""
    }

    /** One transaction: the task, the history and the session. */
    method UpdateTaskAndEndSession(ghost s: Session, task: TrackedTask, entry: HistoryEntry)
      requires Valid() && session == Some(s) && s.ref in tasks && entry.ref == s.ref
      requires task.Total() == tasks[s.ref].Total() + entry.durationMs
      requires entry.startedAt <= entry.endedAt && entry.durationMs == Millis(entry.endedAt - entry.startedAt)
      modifies `tasks, `session, `history
      ensures Valid()
      ensures session == None && history == old(history) + [entry] && tasks == old(tasks)[s.ref := task]
    {
      ghost var before := tasks;
      tasks := tasks[entry.ref := task];
      ConservedOneMore(initial, before, history, entry, tasks);
      history, session := history + [entry], None;
    }

    /** What the task's total becomes. */
    method TrackedTotal(s: Session, task: TrackedTask, duration: nat) returns (total: nat)
      ensures total == StoppedTotal(s.baseTracked, task.Total(), duration)
    {
      var tracked := s.baseTracked;
      if task.trackedMs.Some? && task.trackedMs.value * MILLISECOND > tracked {
        tracked := task.trackedMs.value * MILLISECOND;
      }
      tracked := tracked + duration;
      total := Millis(tracked);
    }

    method FinishSession(s: Session, now: int, duration: nat, fault: bool) returns (ok: bool)
      requires Valid() && session == Some(s) && s.ref in tasks && duration == Elapsed(s, now)
      modifies `tasks, `session, `history
      ensures Valid()
      ensures !ok ==> session == old(session) && tasks == old(tasks) && history == old(history)
      ensures ok <==> !fault && Text.Trim(EntryForSession(s, old(tasks)[s.ref], 0, 0).title) != ""
      ensures ok ==> Stopped(old(session), old(tasks), old(history), now)
    {
      var task := tasks[s.ref];
      var total := TrackedTotal(s, task, duration);
      StoppedTotalAdds(task.Total(), duration);
      var entry := EntryForSession(s, task, now, duration);
      if fault || Text.Trim(entry.title) == "" {
        return false;
      }
      UpdateTaskAndEndSession(s, task.(trackedMs := Some(total)), entry);
      ok := true;
    }

    method StopTaskTracking(now: int, faults: Faults) returns (error: Option<TrackError>)
      requires Valid()
      modifies `tasks, `session, `history
      ensures Valid()
      ensures error.None? ==> Stopped(old(session), old(tasks), old(history), now)
      ensures error.None? ==>
                var s, entry := old(session).value, history[|history| - 1];
                && entry.ref == s.ref && entry.startedAt == s.startedAt
                && entry.title == (if old(tasks)[s.ref].title != "" then old(tasks)[s.ref].title else s.title)
                && entry.endedAt == (if now < s.startedAt then s.startedAt else now)
      ensures error.None? <==> old(CanStop()) && !faults.cancelled && !faults.stop && !faults.stopLate
      ensures error.Some? ==>
                || (session == old(session) && tasks == old(tasks) && history == old(history))
                || (faults.stopLate && Stopped(old(session), old(tasks), old(history), now))
    {
      if faults.cancelled {
        return Some(Cancelled);
      }
      if session.None? {
        return Some(NotTracking);
      }
      var s := session.value;
      var duration := now - s.startedAt;
      if duration < 0 {
        duration := 0;
      }
      if s.ref.providerID !in providers {
        return Some(ProviderUnknown);
      }
      if providers[s.ref.providerID] != LocalProvider {
        return Some(Unsupported);
      }
      if s.ref !in tasks {
        return Some(TaskUnknown);
      }
      var ok := FinishSession(s, now, duration, faults.stop);
      error := if !ok || faults.stopLate then Some(NotPersisted) else None;
    }

    /** The session is over, and its task and the history gained exactly its time. */
    ghost predicate Stopped(s: Option<Session>, before: map<Ref, TrackedTask>, past: seq<HistoryEntry>, now: int)
      reads this
    {
      session == None && Booked(s, before, past, now)
    }

    ghost predicate Booked(s: Option<Session>, before: map<Ref, TrackedTask>, past: seq<HistoryEntry>, now: int)
      reads this
    {
      && s.Some? && s.value.ref in before
      && var entry := EntryForSession(s.value, before[s.value.ref], now, Elapsed(s.value, now));
      && history == past + [entry]
      && tasks == before[s.value.ref :=
                    before[s.value.ref].(trackedMs := Some(before[s.value.ref].Total() + entry.durationMs))]
    }

    /** A toggle needs a session that can be stopped; a start also a task of a local provider and a stored session. */
    ghost predicate CanStart(ref: Ref, faults: Faults)
      reads this
    {
      var stops := CanStop() && !faults.stop && !faults.stopLate;
      if session.Some? && session.value.ref == ref then stops
      else
        && ref in tasks && !tasks[ref].deleted
        && ref.providerID in providers && providers[ref.providerID] == LocalProvider
        && (session.Some? ==> stops) && !faults.save
    }

    /** Starts tracking; the tracked task itself is a toggle, another one a switch. */
    method StartTaskTracking(ref: Ref, now: int, stopNow: int, faults: Faults) returns (error: Option<TrackError>)
      requires Valid()
      modifies `tasks, `session, `history
      ensures Valid()
      ensures error.None? && old(session).Some? && old(session).value.ref == ref ==>
                Stopped(old(session), old(tasks), old(history), stopNow)
      ensures error.None? && (old(session).None? || old(session).value.ref != ref) ==>
                && ref in old(tasks) && !old(tasks)[ref].deleted
                && session == Some(Session(ref, old(tasks)[ref].title, now, old(tasks)[ref].Total() * MILLISECOND))
      ensures error.None? && old(session).None? ==> tasks == old(tasks) && history == old(history)
      ensures error.None? && old(session).Some? && old(session).value.ref != ref ==>
                && Booked(old(session), old(tasks), old(history), stopNow)
                && (Overlaps(history[|history| - 1], session.value.startedAt) <==>
                    !(stopNow <= now && old(session).value.startedAt <= now))
      ensures error.Some? ==>
                || (session == old(session) && tasks == old(tasks) && history == old(history))
                || ((faults.stopLate || faults.save) && Stopped(old(session), old(tasks), old(history), stopNow))
      ensures error.None? <==> !faults.cancelled && old(CanStart(ref, faults))
    {
      if faults.cancelled {
        return Some(Cancelled);
      }
      if session.Some? && session.value.ref == ref {
        error := StopTaskTracking(stopNow, faults);
        return;
      }
      if ref !in tasks {
        return Some(TaskUnknown);
      }
      var task := tasks[ref];
      if task.deleted {
        return Some(TaskDeleted);
      }
      if ref.providerID !in providers {
        return Some(ProviderUnknown);
      }
      var active := Session(ref, task.title, now, 0);
      if task.trackedMs.Some? {
        active := active.(baseTracked := task.trackedMs.value * MILLISECOND);
      }
      if providers[ref.providerID] != LocalProvider {
        return Some(Unsupported);
      }
      if session.Some? {
        var stopError := StopTaskTracking(stopNow, faults);
        if stopError.Some? {
          return stopError;
        }
      }
      if faults.save {
        return Some(NotPersisted);
      }
      session := Some(active);
      error := None;
    }
  }
}

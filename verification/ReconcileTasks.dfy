/**
  Pulling a batch of tasks whose parents may come later in the batch. A task
  waits until its parent is stored, then points at the parent's stored ID.
 */
module ReconcileTasks {
  import opened Common
  import opened ParentGraph
  import opened Reconcile

  const PARENT := "parent_task_id"

  /** A task of the batch; ours says that provider and list are the pulled ones. */
  datatype Snapshot = Snapshot(task: Entity, ours: bool)

  function ParentOf(e: Entity): Option<string> {
    if PARENT in e.fields && e.fields[PARENT].Text? then Some(e.fields[PARENT].text) else None
  }

  /** The remote ID behind every ID of the batch; the last task with an ID wins. */
  function RemoteByMappedID(batch: seq<Snapshot>): map<string, string> {
    if batch == [] then map[]
    else
      var init, last := RemoteByMappedID(batch[..|batch| - 1]), batch[|batch| - 1].task;
      if last.remoteID.Some? then init[last.id := last.remoteID.value] else init
  }

  /** The remote ID of the parent, when the parent is in the batch. */
  function ParentRemote(parents: map<string, string>, task: Entity): string {
    if ParentOf(task).Some? && ParentOf(task).value in parents then parents[ParentOf(task).value] else ""
  }

  ghost predicate ParentReady(c: Cache, parents: map<string, string>, task: Entity) {
    ParentRemote(parents, task) != "" ==> c.Find(ParentRemote(parents, task)).Some?
  }

  /** The task pointing at the stored parent. */
  function Linked(c: Cache, parents: map<string, string>, task: Entity): Entity {
    var parent := ParentRemote(parents, task);
    if parent != "" && c.Find(parent).Some? then task.(fields := task.fields[PARENT := Text(c.Find(parent).value.id)])
    else task
  }

  datatype StepFaults = StepFaults(parent: bool, local: bool, metadata: bool, pull: Faults)
  {
    predicate Harmless() { !parent && !local && !metadata && pull.Harmless() }
  }

  datatype BatchError = Misplaced | ParentUnreadable | TaskPanicked(error: PullError) | MetadataNotStored | Unresolved

  datatype Step = Deferred | Skipped | Stored | Stopped(error: BatchError)

  method BuildParents(batch: seq<Snapshot>) returns (parents: map<string, string>)
    ensures parents == RemoteByMappedID(batch)
  {
    parents := map[];
    for i := 0 to |batch|
      invariant parents == RemoteByMappedID(batch[..i])
    {
      assert batch[..i + 1][..i] == batch[..i];
      if batch[i].task.remoteID.Some? {
        parents := parents[batch[i].task.id := batch[i].task.remoteID.value];
      }
    }
    assert batch[..|batch|] == batch;
  }

  ghost predicate StepOutcome(before: Cache, after: Cache, canon: Normalizer, parents: map<string, string>,
                              s: Snapshot, r: Step) {
    match r
    case Deferred => after == before && !ParentReady(before, parents, s.task)
    case Skipped => after == before && ParentReady(before, parents, s.task) && HasEdits(before, s.task)
    case Stored => ParentReady(before, parents, s.task) && PulledTask(before, after, canon, parents, s)
    case Stopped(Misplaced) => after == before
    case Stopped(ParentUnreadable) => after == before
    case Stopped(TaskPanicked(why)) => Pulled(before, after, canon, Linked(before, parents, s.task), Err(why))
    case Stopped(MetadataNotStored) => PulledTask(before, after, canon, parents, s)
    case Stopped(Unresolved) => false
  }

  ghost predicate PulledTask(before: Cache, after: Cache, canon: Normalizer, parents: map<string, string>,
                             s: Snapshot) {
    exists value, conflict :: Pulled(before, after, canon, Linked(before, parents, s.task), Ok((value, conflict)))
  }

  /** What stops a step, given the state it meets. */
  ghost predicate StepExcused(before: Cache, canon: Normalizer, providerID: string, parents: map<string, string>,
                              s: Snapshot, faults: StepFaults, error: BatchError) {
    match error
    case Misplaced => !s.ours
    case ParentUnreadable => s.ours && faults.parent && ParentRemote(parents, s.task) != ""
    case TaskPanicked(why) =>
      && AtPull(before, parents, s, faults)
      && Failure(before, canon, providerID, Linked(before, parents, s.task), faults.pull) == Some(why)
    case MetadataNotStored =>
      && AtPull(before, parents, s, faults) && faults.metadata
      && Failure(before, canon, providerID, Linked(before, parents, s.task), faults.pull) == None
    case Unresolved => false
  }

  /** The step comes to the pull: the parent is stored, and no local edits are seen. */
  ghost predicate AtPull(before: Cache, parents: map<string, string>, s: Snapshot, faults: StepFaults) {
    && s.ours && ParentReady(before, parents, s.task)
    && (ParentRemote(parents, s.task) != "" ==> !faults.parent)
    && (HasEdits(before, s.task) ==> faults.local)
  }

  ghost predicate HasEdits(c: Cache, task: Entity) {
    task.remoteID.Some? && c.Find(task.remoteID.value).Some? && HasLocalChanges(c.Find(task.remoteID.value).value.state)
  }

  /** A base is lost only where saving one fails. */
  lemma BasesAfterPull(c: Cache, canon: Normalizer, providerID: string, remote: Entity, faults: Faults)
    requires Indexed(c)
    ensures BasesMatch(c) && LosesBase(c, canon, providerID, remote, faults) ==>
              faults.saveBase && Failure(c, canon, providerID, remote, faults).Some?
  {
    if BasesMatch(c) {
      LosesBaseFails(c, canon, providerID, remote, faults);
    }
  }

  method ProcessTask(p: CachedProvider, parents: map<string, string>, s: Snapshot, faults: StepFaults) returns (r: Step)
    requires p.Valid()
    modifies p`entities, p`byRemote, p`bases, p`conflicts
    ensures p.Valid()
    ensures StepOutcome(old(p.State()), p.State(), p.canon, parents, s, r)
    ensures r.Stopped? ==> StepExcused(old(p.State()), p.canon, p.providerID, parents, s, faults, r.error)
    ensures s.ours && !faults.parent && !ParentReady(old(p.State()), parents, s.task) ==> r == Deferred
    ensures s.ours && !faults.parent && !faults.local && ParentReady(old(p.State()), parents, s.task) ==>
              (HasEdits(old(p.State()), s.task) ==> r == Skipped)
    ensures !s.ours ==> r == Stopped(Misplaced)
    ensures BasesMatch(old(p.State())) && (!r.Stopped? || !faults.pull.saveBase) ==> BasesMatch(p.State())
  {
    hide Pulled, Failure, LosesBase, BasesMatch, Indexed, Normal;
    ghost var before := p.State();
    if !s.ours {
      return Stopped(Misplaced);
    }
    var task := s.task;
    if ParentOf(task).Some? {
      var parentRemote := if ParentOf(task).value in parents then parents[ParentOf(task).value] else "";
      if parentRemote != "" {
        if faults.parent {
          return Stopped(ParentUnreadable);
        }
        var parent := p.State().Find(parentRemote);
        if parent.None? {
          return Deferred;
        }
        task := task.(fields := task.fields[PARENT := Text(parent.value.id)]);
      }
    }
    if task.remoteID.Some? && !faults.local {
      var existing := p.State().Find(task.remoteID.value);
      if existing.Some? && HasLocalChanges(existing.value.state) {
        return Skipped;
      }
    }
    assert task == Linked(p.State(), parents, s.task);
    var outcome := p.ReconcileTask(task, faults.pull);
    BasesAfterPull(before, p.canon, p.providerID, task, faults.pull);
    if outcome.Panicked? {
      return Stopped(TaskPanicked(outcome.error));
    }
    if !outcome.conflict && faults.metadata {
      return Stopped(MetadataNotStored);
    }
    r := Stored;
    assert outcome.Reconciled() == Ok((outcome.value, outcome.conflict));
  }

  // ----- one batch over a whole pull -----

  predicate Named(s: Snapshot) { !Blank(s.task.remoteID) }

  function RemoteOf(s: Snapshot): string {
    if s.task.remoteID.Some? then s.task.remoteID.value else ""
  }

  /** Remote IDs and IDs are distinct, and no new task takes the ID of a stored one. */
  ghost predicate Sound(c: Cache, batch: seq<Snapshot>) {
    && (forall k :: 0 <= k < |batch| ==> Named(batch[k]))
    && (forall k, l :: 0 <= k < l < |batch| ==>
          RemoteOf(batch[k]) != RemoteOf(batch[l]) && batch[k].task.id != batch[l].task.id)
    && (forall k :: 0 <= k < |batch| ==> RemoteOf(batch[k]) in c.byRemote || batch[k].task.id !in c.entities)
  }

  /** The parent link of every task of the batch that is not stored yet. */
  ghost function Links(batch: seq<Snapshot>, parents: map<string, string>, stored: set<string>): map<string, string> {
    if batch == [] then map[]
    else
      var init, last := Links(batch[..|batch| - 1], parents, stored), batch[|batch| - 1];
      if Named(last) && RemoteOf(last) !in stored && ParentRemote(parents, last.task) != ""
      then init[RemoteOf(last) := ParentRemote(parents, last.task)] else init
  }

  lemma {:induction false} LinksAt(batch: seq<Snapshot>, parents: map<string, string>, stored: set<string>, k: nat)
    requires k < |batch| && Named(batch[k])
    requires forall i, j :: 0 <= i < j < |batch| && Named(batch[i]) && Named(batch[j]) ==>
               RemoteOf(batch[i]) != RemoteOf(batch[j])
    ensures var links := Links(batch, parents, stored);
            && (RemoteOf(batch[k]) in links <==>
                  RemoteOf(batch[k]) !in stored && ParentRemote(parents, batch[k].task) != "")
            && (RemoteOf(batch[k]) in links ==> links[RemoteOf(batch[k])] == ParentRemote(parents, batch[k].task))
  {
    var init := batch[..|batch| - 1];
    if k < |init| {
      LinksAt(init, parents, stored, k);
    } else {
      if RemoteOf(batch[k]) in Links(init, parents, stored) {
        LinksKeys(init, parents, stored, RemoteOf(batch[k]));
        assert false;
      }
    }
  }

  lemma {:induction false} LinksKeys(batch: seq<Snapshot>, parents: map<string, string>, stored: set<string>, r: string)
    requires r in Links(batch, parents, stored)
    ensures exists k :: 0 <= k < |batch| && Named(batch[k]) && RemoteOf(batch[k]) == r
  {
    var last := batch[|batch| - 1];
    if Named(last) && RemoteOf(last) == r {
    } else {
      LinksKeys(batch[..|batch| - 1], parents, stored, r);
      var k :| 0 <= k < |batch| - 1 && Named(batch[..|batch| - 1][k]) && RemoteOf(batch[..|batch| - 1][k]) == r;
      assert batch[k] == batch[..|batch| - 1][k];
    }
  }

  /** Only tasks of the batch are entered as parents. */
  lemma {:induction false} ParentsInBatch(batch: seq<Snapshot>, id: string)
    requires id in RemoteByMappedID(batch)
    ensures exists k :: 0 <= k < |batch| && IsParent(batch[k], id, RemoteByMappedID(batch)[id])
  {
    var init := batch[..|batch| - 1];
    var last := batch[|batch| - 1].task;
    if last.remoteID.Some? && last.id == id {
    } else {
      ParentsInBatch(init, id);
      var k :| 0 <= k < |init| && IsParent(init[k], id, RemoteByMappedID(init)[id]);
      assert batch[k] == init[k];
    }
  }

  ghost predicate IsParent(t: Snapshot, id: string, remoteID: string) {
    t.task.id == id && t.task.remoteID == Some(remoteID)
  }

  /** Every task of the batch is entered. */
  lemma {:induction false} BatchInParents(batch: seq<Snapshot>, k: nat)
    requires k < |batch| && batch[k].task.remoteID.Some?
    requires forall i, j :: 0 <= i < j < |batch| ==> batch[i].task.id != batch[j].task.id
    ensures batch[k].task.id in RemoteByMappedID(batch)
    ensures RemoteByMappedID(batch)[batch[k].task.id] == batch[k].task.remoteID.value
  {
    var init := batch[..|batch| - 1];
    if k < |init| {
      BatchInParents(init, k);
      assert init[k] == batch[k];
    }
  }

  /** No set that the parent links keep to itself was entered. */
  ghost predicate Untrapped(links: map<string, string>, stored: set<string>) {
    forall trap: set<string> :: Trap(links, trap) ==> trap !! stored
  }

  lemma StoreOneMore(links: map<string, string>, stored: set<string>, r: string)
    requires Untrapped(links, stored)
    requires r in links ==> links[r] in stored
    ensures Untrapped(links, stored + {r})
  {
  }

  /** Storing after the parent never enters a cycle. */
  lemma UntrappedIsAcyclic(links: map<string, string>, stored: set<string>)
    requires Untrapped(links, stored) && links.Keys <= stored
    ensures Acyclic(links)
  {
    forall path: seq<string>
      ensures !Cycle(links, path)
    {
      if Cycle(links, path) {
        assert path[0] in Elements(path) && path[0] in stored;
        CycleIsTrap(links, path);
        assert false;
      }
    }
  }

  // ----- what one stored task changes -----

  lemma PullKeepsIndex(before: Cache, after: Cache, canon: Normalizer, remote: Entity, value: Entity, conflict: bool,
                       r: string)
    requires Indexed(before) && Indexed(after) && remote.remoteID.Some? && r != remote.remoteID.value
    requires Pulled(before, after, canon, remote, Ok((value, conflict)))
    requires before.Find(remote.remoteID.value).Some? || remote.id !in before.entities
    ensures r in after.byRemote <==> r in before.byRemote
    ensures r in after.byRemote ==> after.byRemote[r] == before.byRemote[r]
  {
    if r in after.byRemote {
      PullTarget(before, after, canon, remote, value, conflict);
      PullTouchesTarget(before, after, canon, remote, Ok((value, conflict)), after.byRemote[r]);
    }
    if r in before.byRemote {
      PullTouchesTarget(before, after, canon, remote, Ok((value, conflict)), before.byRemote[r]);
    }
  }

  lemma PullTarget(before: Cache, after: Cache, canon: Normalizer, remote: Entity, value: Entity, conflict: bool)
    requires Indexed(before) && remote.remoteID.Some?
    requires Pulled(before, after, canon, remote, Ok((value, conflict)))
    ensures Target(before, remote) in after.entities
              && after.entities[Target(before, remote)].remoteID == remote.remoteID
  {
  }

  /** A successful pull of a task adds its remote ID to the index and nothing else. */
  lemma PullIndexes(before: Cache, after: Cache, canon: Normalizer, remote: Entity, value: Entity, conflict: bool)
    requires Indexed(before) && Indexed(after) && remote.remoteID.Some?
    requires Pulled(before, after, canon, remote, Ok((value, conflict)))
    requires before.Find(remote.remoteID.value).Some? || remote.id !in before.entities
    ensures after.byRemote == before.byRemote[remote.remoteID.value := Target(before, remote)]
  {
    var target, own := Target(before, remote), remote.remoteID.value;
    PullTarget(before, after, canon, remote, value, conflict);
    forall r
      ensures r in after.byRemote <==> r in before.byRemote || r == own
      ensures r in after.byRemote && r != own ==> after.byRemote[r] == before.byRemote[r]
    {
      if r != own {
        PullKeepsIndex(before, after, canon, remote, value, conflict, r);
      }
    }
  }

  /** Normal forms keep the parent link. */
  ghost predicate KeepsParent(canon: Normalizer) {
    forall list: string, fields: Fields :: canon(list, fields).Some? && PARENT in fields ==>
      PARENT in canon(list, fields).value && canon(list, fields).value[PARENT] == fields[PARENT]
  }

  /** A task the remote side decides about: new, or synchronized and not deleted. */
  ghost predicate Follows(c: Cache, remoteID: string) {
    c.Find(remoteID).Some? ==> c.Find(remoteID).value.state == Synced && !c.Find(remoteID).value.deleted
  }

  /** The row behind an ID and its merge base are as they were. */
  ghost predicate Still(before: Cache, after: Cache, id: string) {
    && SameRow(before, after, id)
    && (id in after.bases <==> id in before.bases)
    && (id in before.bases ==> after.bases[id] == before.bases[id])
  }

  /** The row of a pulled task: deleted as it was,
    else as the store keeps it, and as its base where both sides agree. */
  ghost predicate RowPulled(start: Cache, c: Cache, canon: Normalizer, linked: Entity)
    requires linked.remoteID.Some?
  {
    var id, existing := Target(start, linked), start.Find(linked.remoteID.value);
    if existing.Some? && existing.value.deleted then Still(start, c, id)
    else
      var e := ToSave(start, linked);
      && canon(e.listID, e.fields).Some?
      && id in c.entities && c.entities[id] == e.(fields := canon(e.listID, e.fields).value)
      && BasePulled(start, c, id, existing, linked)
  }

  ghost predicate BasePulled(start: Cache, c: Cache, id: string, existing: Option<Entity>, linked: Entity)
    requires id in c.entities
  {
    if existing.None? || (existing.value.state == Synced && !Disputed(existing.value, start.Base(id), linked))
    then id in c.bases && c.bases[id] == c.entities[id].fields
    else (id in c.bases <==> id in start.bases) && (id in start.bases ==> c.bases[id] == start.bases[id])
  }

  /** The task is stored below its stored parent: as it was with local edits, else as the snapshot says. */
  ghost predicate Placed(start: Cache, c: Cache, canon: Normalizer, parents: map<string, string>, s: Snapshot) {
    && RemoteOf(s) in c.byRemote
    && ParentReady(c, parents, s.task)
    && Landed(start, c, canon, parents, s)
    && (BasesMatch(start) && KeepsParent(canon) && Follows(start, RemoteOf(s))
        && ParentRemote(parents, s.task) != "" ==>
          PointsToParent(c, parents, s))
  }

  ghost predicate Landed(start: Cache, c: Cache, canon: Normalizer, parents: map<string, string>, s: Snapshot) {
    || (HasEdits(start, s.task) && Still(start, c, Target(start, s.task)))
    || (s.task.remoteID.Some? && RowPulled(start, c, canon, Linked(c, parents, s.task)))
  }

  ghost predicate PointsToParent(c: Cache, parents: map<string, string>, s: Snapshot)
    requires ParentRemote(parents, s.task) != "" && ParentReady(c, parents, s.task)
  {
    && c.Find(RemoteOf(s)).Some?
    && ParentOf(c.Find(RemoteOf(s)).value) == Some(c.Find(ParentRemote(parents, s.task)).value.id)
  }

  /** A task not reached yet is stored as it was, if at all, and its ID is free otherwise. */
  ghost predicate Untouched(start: Cache, c: Cache, s: Snapshot) {
    && c.Find(RemoteOf(s)) == start.Find(RemoteOf(s))
    && (RemoteOf(s) in c.byRemote || s.task.id !in c.entities)
    && Still(start, c, Target(start, s.task))
  }

  ghost predicate Extends(start: Cache, c: Cache) {
    forall r :: r in start.byRemote ==> r in c.byRemote && c.byRemote[r] == start.byRemote[r]
  }

  lemma PulledRow(before: Cache, after: Cache, canon: Normalizer, linked: Entity, value: Entity, conflict: bool)
    requires Indexed(before) && linked.remoteID.Some?
    requires Pulled(before, after, canon, linked, Ok((value, conflict)))
    ensures RowPulled(before, after, canon, linked)
  {
  }

  /** The row depends on the state before only through the row and the base that were there. */
  lemma RowPulledFrom(start: Cache, before: Cache, after: Cache, canon: Normalizer, s: Snapshot, linked: Entity)
    requires Indexed(start) && Indexed(before) && Named(s) && Untouched(start, before, s)
    requires linked.remoteID == s.task.remoteID && linked.id == s.task.id
    requires RowPulled(before, after, canon, linked)
    ensures RowPulled(start, after, canon, linked)
  {
    var id := Target(start, linked);
    assert Target(before, linked) == id && Still(start, before, id);
    assert before.Base(id) == start.Base(id);
  }

  lemma LinkedStays(before: Cache, after: Cache, parents: map<string, string>, task: Entity)
    requires Indexed(before) && Indexed(after) && Extends(before, after) && ParentReady(before, parents, task)
    ensures ParentReady(after, parents, task) && Linked(after, parents, task) == Linked(before, parents, task)
  {
  }

  lemma PlacedTask(start: Cache, before: Cache, after: Cache, canon: Normalizer, parents: map<string, string>,
                   s: Snapshot, value: Entity, conflict: bool)
    requires Indexed(start) && Indexed(before) && Indexed(after) && (BasesMatch(start) ==> BasesMatch(before))
    requires Named(s) && Untouched(start, before, s) && ParentReady(before, parents, s.task)
    requires Pulled(before, after, canon, Linked(before, parents, s.task), Ok((value, conflict)))
    requires Extends(before, after)
    ensures Placed(start, after, canon, parents, s)
  {
    hide RowPulled, Pulled, BasesMatch, KeepsParent;
    var linked := Linked(before, parents, s.task);
    PullTarget(before, after, canon, linked, value, conflict);
    LinkedStays(before, after, parents, s.task);
    PulledRow(before, after, canon, linked, value, conflict);
    RowPulledFrom(start, before, after, canon, s, linked);
    if BasesMatch(start) && KeepsParent(canon) && Follows(start, RemoteOf(s)) && ParentRemote(parents, s.task) != "" {
      PlacedBelow(start, before, after, canon, parents, s, value, conflict);
    }
  }

  lemma PlacedBelow(start: Cache, before: Cache, after: Cache, canon: Normalizer, parents: map<string, string>,
                    s: Snapshot, value: Entity, conflict: bool)
    requires Indexed(before) && Indexed(after) && (BasesMatch(start) ==> BasesMatch(before)) && Extends(before, after)
    requires Named(s) && Untouched(start, before, s) && ParentReady(before, parents, s.task)
    requires Pulled(before, after, canon, Linked(before, parents, s.task), Ok((value, conflict)))
    requires BasesMatch(start) && KeepsParent(canon) && Follows(start, RemoteOf(s))
    requires ParentRemote(parents, s.task) != ""
    ensures ParentReady(after, parents, s.task) && PointsToParent(after, parents, s)
  {
    var linked, parent := Linked(before, parents, s.task), ParentRemote(parents, s.task);
    PullTarget(before, after, canon, linked, value, conflict);
    assert linked.fields[PARENT] == Text(before.Find(parent).value.id);
    if before.Find(RemoteOf(s)).Some? {
      SyncedFollowsRemote(before, after, canon, linked, value, conflict);
    }
  }

  /** The state of a pull: what is left of the batch, what became of the rest, and that nothing else changed. */
  ghost predicate Run(start: Cache, c: Cache, canon: Normalizer, batch: seq<Snapshot>, parents: map<string, string>,
                      left: seq<Snapshot>) {
    && Indexed(start) && Indexed(c) && Normal(c, canon)
    && (BasesMatch(start) ==> BasesMatch(c))
    && Extends(start, c)
    && EditsKept(start, c) && OthersKept(start, c, batch)
    && Elements(left) <= Elements(batch)
    && Distinct(left)
    && (forall s :: s in left ==> Untouched(start, c, s))
    && (forall s :: s in batch && s !in left ==> Placed(start, c, canon, parents, s))
    && Untrapped(Links(batch, parents, start.byRemote.Keys), c.byRemote.Keys)
  }

  /** The entities that no task of the batch stands for. */
  ghost predicate OthersKept(start: Cache, c: Cache, batch: seq<Snapshot>) {
    forall id :: Foreign(start, batch, id) ==> Still(start, c, id)
  }

  ghost predicate Foreign(start: Cache, batch: seq<Snapshot>, id: string) {
    forall s :: s in batch ==> Target(start, s.task) != id
  }

  lemma WithoutOne(a: seq<Snapshot>, s: Snapshot, b: seq<Snapshot>)
    requires Distinct(a + [s] + b)
    ensures Distinct(a + b) && s !in a + b && Elements(a + b) <= Elements(a + [s] + b)
    ensures forall x :: x in a + [s] + b && x != s ==> x in a + b
  {
    var all, rest := a + [s] + b, a + b;
    forall i | 0 <= i < |rest|
      ensures rest[i] == all[if i < |a| then i else i + 1]
    {
    }
    assert all[|a|] == s;
  }

  lemma InBatch(c: Cache, batch: seq<Snapshot>, s: Snapshot, t: Snapshot)
    requires Sound(c, batch) && s in batch && t in batch && s != t
    ensures Named(s) && Named(t) && RemoteOf(s) != RemoteOf(t) && s.task.id != t.task.id
    ensures RemoteOf(s) in c.byRemote || s.task.id !in c.entities
    ensures RemoteOf(t) in c.byRemote || t.task.id !in c.entities
  {
    var i :| 0 <= i < |batch| && batch[i] == s;
    var j :| 0 <= j < |batch| && batch[j] == t;
  }

  /** Different tasks of a batch stand for different entities. */
  lemma TargetsApart(start: Cache, batch: seq<Snapshot>, s: Snapshot, t: Snapshot)
    requires Indexed(start) && Sound(start, batch) && s in batch && t in batch && s != t
    ensures Target(start, s.task) != Target(start, t.task)
  {
    InBatch(start, batch, s, t);
  }

  lemma LinkOf(c: Cache, batch: seq<Snapshot>, parents: map<string, string>, s: Snapshot)
    requires Sound(c, batch) && s in batch
    ensures var links := Links(batch, parents, c.byRemote.Keys);
            && (RemoteOf(s) in links <==> RemoteOf(s) !in c.byRemote && ParentRemote(parents, s.task) != "")
            && (RemoteOf(s) in links ==> links[RemoteOf(s)] == ParentRemote(parents, s.task))
  {
    var k :| 0 <= k < |batch| && batch[k] == s;
    LinksAt(batch, parents, c.byRemote.Keys, k);
  }

  /** Of the rows, only the one behind s changed. */
  ghost predicate Touched(before: Cache, after: Cache, s: Snapshot) {
    && Extends(before, after)
    && after.byRemote.Keys == before.byRemote.Keys + {RemoteOf(s)}
    && OnlyChanged(before, after, Target(before, s.task))
  }

  ghost predicate OnlyChanged(before: Cache, after: Cache, target: string) {
    forall id :: id != target ==> Still(before, after, id)
  }

  lemma PullAddsKey(before: Cache, after: Cache, canon: Normalizer, s: Snapshot, linked: Entity, value: Entity,
                    conflict: bool)
    requires Indexed(before) && Indexed(after) && Named(s) && linked.remoteID == s.task.remoteID
    requires RemoteOf(s) in before.byRemote || linked.id !in before.entities
    requires Pulled(before, after, canon, linked, Ok((value, conflict)))
    ensures Extends(before, after) && after.byRemote.Keys == before.byRemote.Keys + {RemoteOf(s)}
  {
    PullIndexes(before, after, canon, linked, value, conflict);
  }

  lemma PullChanges(before: Cache, after: Cache, canon: Normalizer, linked: Entity,
                    r: Result<(Entity, bool), PullError>)
    requires Indexed(before) && Pulled(before, after, canon, linked, r)
    ensures OnlyChanged(before, after, Target(before, linked))
  {
    forall id | id != Target(before, linked)
      ensures Still(before, after, id)
    {
      PullTouchesTarget(before, after, canon, linked, r, id);
    }
  }

  /** Pulling one task leaves the rows of all others alone. */
  lemma OtherRow(before: Cache, after: Cache, s: Snapshot, r: string)
    requires Indexed(before) && Indexed(after) && Named(s) && Touched(before, after, s)
    requires RemoteOf(s) in before.byRemote || s.task.id !in before.entities
    requires r != RemoteOf(s)
    ensures after.Find(r) == before.Find(r)
    ensures r in after.byRemote <==> r in before.byRemote
  {
    if r in before.byRemote {
      assert Still(before, after, before.byRemote[r]);
    }
  }

  lemma UntouchedStays(start: Cache, batch: seq<Snapshot>, before: Cache, after: Cache, s: Snapshot, t: Snapshot)
    requires Indexed(start) && Indexed(before) && Indexed(after)
    requires Sound(start, batch) && s in batch && t in batch && s != t
    requires Untouched(start, before, s) && Touched(before, after, s) && Untouched(start, before, t)
    ensures Untouched(start, after, t)
  {
    InBatch(start, batch, s, t);
    TargetsApart(start, batch, s, t);
    OtherRow(before, after, s, RemoteOf(t));
    assert Still(before, after, Target(start, t.task));
    if RemoteOf(t) !in after.byRemote {
      assert Still(before, after, t.task.id);
    }
  }

  lemma RowPulledStays(start: Cache, before: Cache, after: Cache, canon: Normalizer, linked: Entity)
    requires linked.remoteID.Some? && RowPulled(start, before, canon, linked)
    requires Still(before, after, Target(start, linked))
    ensures RowPulled(start, after, canon, linked)
  {
  }

  lemma PlacedSurvives(start: Cache, batch: seq<Snapshot>, before: Cache, after: Cache, canon: Normalizer,
                       parents: map<string, string>, s: Snapshot, t: Snapshot)
    requires Indexed(start) && Indexed(before) && Indexed(after)
    requires Sound(start, batch) && s in batch && t in batch && s != t
    requires Untouched(start, before, s) && Touched(before, after, s) && Placed(start, before, canon, parents, t)
    ensures Placed(start, after, canon, parents, t)
  {
    hide Landed;
    InBatch(start, batch, s, t);
    TargetsApart(start, batch, s, t);
    OtherRow(before, after, s, RemoteOf(t));
    LinkedStays(before, after, parents, t.task);
    LandedStays(start, before, after, canon, parents, t);
  }

  lemma LandedStays(start: Cache, before: Cache, after: Cache, canon: Normalizer, parents: map<string, string>,
                    t: Snapshot)
    requires Indexed(before) && Indexed(after) && Extends(before, after) && ParentReady(before, parents, t.task)
    requires Still(before, after, Target(start, t.task)) && Landed(start, before, canon, parents, t)
    ensures Landed(start, after, canon, parents, t)
  {
    hide RowPulled;
    LinkedStays(before, after, parents, t.task);
    var linked := Linked(before, parents, t.task);
    if t.task.remoteID.Some? && RowPulled(start, before, canon, linked) {
      RowPulledStays(start, before, after, canon, linked);
    }
  }

  /** What pulling a task of the batch keeps, however it ends. */
  lemma PullFrame(start: Cache, before: Cache, after: Cache, canon: Normalizer, batch: seq<Snapshot>, s: Snapshot,
                  linked: Entity, r: Result<(Entity, bool), PullError>)
    requires Indexed(before) && Normal(before, canon) && EditsKept(start, before) && OthersKept(start, before, batch)
    requires s in batch && Named(s) && Untouched(start, before, s)
    requires linked.remoteID == s.task.remoteID && linked.id == s.task.id && Pulled(before, after, canon, linked, r)
    ensures EditsKept(start, after) && OthersKept(start, after, batch)
    ensures OnlyChanged(before, after, Target(start, s.task))
  {
    PullKeepsEdits(before, after, canon, linked, r);
    EditsKeptTransitive(start, before, after);
    PullChanges(before, after, canon, linked, r);
    assert Target(before, linked) == Target(start, s.task);
    forall id | Foreign(start, batch, id)
      ensures Still(start, after, id)
    {
      assert Still(start, before, id) && Still(before, after, id);
    }
  }

  lemma RunAdvances(start: Cache, before: Cache, after: Cache, canon: Normalizer, batch: seq<Snapshot>,
                    parents: map<string, string>, left: seq<Snapshot>, s: Snapshot, rest: seq<Snapshot>)
    requires Sound(start, batch) && Run(start, before, canon, batch, parents, left)
    requires s in left && Distinct(rest) && s !in rest && Elements(rest) <= Elements(left)
    requires forall x :: x in left && x != s ==> x in rest
    requires Indexed(after) && Normal(after, canon) && (BasesMatch(start) ==> BasesMatch(after))
    requires EditsKept(start, after) && OthersKept(start, after, batch)
    requires Touched(before, after, s) && ParentReady(before, parents, s.task)
               && Placed(start, after, canon, parents, s)
    ensures Run(start, after, canon, batch, parents, rest)
  {
    hide Placed, Untouched, Touched, EditsKept, OthersKept, Indexed, Normal, BasesMatch, Untrapped;
    assert s in Elements(left);
    forall t | t in rest
      ensures Untouched(start, after, t)
    {
      assert t in Elements(rest) && t in Elements(left);
      UntouchedStays(start, batch, before, after, s, t);
    }
    forall t | t in batch && t !in rest
      ensures Placed(start, after, canon, parents, t)
    {
      if t != s {
        PlacedSurvives(start, batch, before, after, canon, parents, s, t);
      }
    }
    KeysAdvance(start, before, after, batch, parents, s);
  }

  lemma KeysAdvance(start: Cache, before: Cache, after: Cache, batch: seq<Snapshot>, parents: map<string, string>,
                    s: Snapshot)
    requires Sound(start, batch) && s in batch && Extends(start, before) && Touched(before, after, s)
    requires Untrapped(Links(batch, parents, start.byRemote.Keys), before.byRemote.Keys)
    requires ParentReady(before, parents, s.task)
    ensures Extends(start, after) && Untrapped(Links(batch, parents, start.byRemote.Keys), after.byRemote.Keys)
  {
    LinkOf(start, batch, parents, s);
    StoreOneMore(Links(batch, parents, start.byRemote.Keys), before.byRemote.Keys, RemoteOf(s));
  }

  lemma RunStored(start: Cache, before: Cache, after: Cache, canon: Normalizer, batch: seq<Snapshot>,
                  parents: map<string, string>, a: seq<Snapshot>, s: Snapshot, b: seq<Snapshot>)
    requires Sound(start, batch) && Run(start, before, canon, batch, parents, a + [s] + b)
    requires Indexed(after) && Normal(after, canon) && StepOutcome(before, after, canon, parents, s, Stored)
    ensures Run(start, after, canon, batch, parents, a + b)
  {
    var left, linked := a + [s] + b, Linked(before, parents, s.task);
    assert left[|a|] == s && s in Elements(left);
    assert Untouched(start, before, s);
    WithoutOne(a, s, b);
    NamedInBatch(start, batch, s);
    var value, conflict :| Pulled(before, after, canon, linked, Ok((value, conflict)));
    var r := Ok((value, conflict));
    hide Pulled, Placed, Untrapped, EditsKept, OthersKept, Normal, BasesMatch;
    if BasesMatch(start) {
      PullMatchesBases(before, after, canon, linked, r);
    }
    PullFrame(start, before, after, canon, batch, s, linked, r);
    PullAddsKey(before, after, canon, s, linked, value, conflict);
    PlacedTask(start, before, after, canon, parents, s, value, conflict);
    RunAdvances(start, before, after, canon, batch, parents, left, s, a + b);
  }

  lemma NamedInBatch(c: Cache, batch: seq<Snapshot>, s: Snapshot)
    requires Sound(c, batch) && s in batch
    ensures Named(s)
  {
    var k :| 0 <= k < |batch| && batch[k] == s;
  }

  lemma RunSkipped(start: Cache, c: Cache, canon: Normalizer, batch: seq<Snapshot>, parents: map<string, string>,
                   a: seq<Snapshot>, s: Snapshot, b: seq<Snapshot>)
    requires Run(start, c, canon, batch, parents, a + [s] + b)
    requires ParentReady(c, parents, s.task) && HasEdits(c, s.task)
    ensures Run(start, c, canon, batch, parents, a + b)
  {
    WithoutOne(a, s, b);
    assert s in a + [s] + b;
    assert Placed(start, c, canon, parents, s) by {
      SkippedIsPlaced(start, c, canon, parents, s);
    }
    forall t | t in batch && t !in a + b
      ensures Placed(start, c, canon, parents, t)
    {
    }
  }

  lemma SkippedIsPlaced(start: Cache, c: Cache, canon: Normalizer, parents: map<string, string>, s: Snapshot)
    requires Untouched(start, c, s) && ParentReady(c, parents, s.task) && HasEdits(c, s.task)
    ensures Placed(start, c, canon, parents, s)
  {
  }

  /** A step that stops the pull changes at most the row of its task. */
  lemma RunStopped(start: Cache, before: Cache, after: Cache, canon: Normalizer, batch: seq<Snapshot>,
                   parents: map<string, string>, left: seq<Snapshot>, s: Snapshot, error: BatchError)
    requires Sound(start, batch) && Run(start, before, canon, batch, parents, left) && s in left
    requires StepOutcome(before, after, canon, parents, s, Stopped(error))
    ensures EditsKept(start, after) && OthersKept(start, after, batch)
    ensures OnlyChanged(before, after, Target(start, s.task))
  {
    assert s in Elements(left);
    NamedInBatch(start, batch, s);
    var linked := Linked(before, parents, s.task);
    if error.TaskPanicked? {
      PullFrame(start, before, after, canon, batch, s, linked, Err(error.error));
    } else if error.MetadataNotStored? {
      var value, conflict :| Pulled(before, after, canon, linked, Ok((value, conflict)));
      PullFrame(start, before, after, canon, batch, s, linked, Ok((value, conflict)));
    }
  }

  ghost predicate AllWait(c: Cache, parents: map<string, string>, left: seq<Snapshot>) {
    forall s :: s in left ==> !ParentReady(c, parents, s.task)
  }

  /** A waiting task waits for another one that is left. */
  lemma WaitsForLeft(start: Cache, c: Cache, canon: Normalizer, batch: seq<Snapshot>, left: seq<Snapshot>, s: Snapshot)
      returns (t: Snapshot)
    requires Run(start, c, canon, batch, RemoteByMappedID(batch), left)
    requires s in left && !ParentReady(c, RemoteByMappedID(batch), s.task)
    ensures t in left && RemoteOf(t) == ParentRemote(RemoteByMappedID(batch), s.task) && RemoteOf(t) !in c.byRemote
  {
    var parents := RemoteByMappedID(batch);
    ParentsInBatch(batch, ParentOf(s.task).value);
    var k :| 0 <= k < |batch| && IsParent(batch[k], ParentOf(s.task).value, parents[ParentOf(s.task).value]);
    t := batch[k];
    assert c.Find(RemoteOf(t)).None?;
    assert t in batch;
    if t !in left {
      assert false;
    }
  }

  lemma WaitingLink(start: Cache, c: Cache, canon: Normalizer, batch: seq<Snapshot>, left: seq<Snapshot>, s: Snapshot)
    requires Sound(start, batch) && Run(start, c, canon, batch, RemoteByMappedID(batch), left)
    requires s in left && AllWait(c, RemoteByMappedID(batch), left)
    ensures var links := Links(batch, RemoteByMappedID(batch), start.byRemote.Keys);
            var parent := ParentRemote(RemoteByMappedID(batch), s.task);
            && parent in links && parent !in c.byRemote
            && (RemoteOf(s) in links ==> links[RemoteOf(s)] == parent)
  {
    var t := WaitsForLeft(start, c, canon, batch, left, s);
    assert s in Elements(left) && t in Elements(left);
    LinkOf(start, batch, RemoteByMappedID(batch), s);
    LinkOf(start, batch, RemoteByMappedID(batch), t);
  }

  /** Tasks that all wait for parents not stored contain a parent cycle. */
  lemma AllWaiting(start: Cache, c: Cache, canon: Normalizer, batch: seq<Snapshot>, left: seq<Snapshot>)
    requires Sound(start, batch) && left != []
    requires Run(start, c, canon, batch, RemoteByMappedID(batch), left)
    requires AllWait(c, RemoteByMappedID(batch), left)
    ensures !Acyclic(Links(batch, RemoteByMappedID(batch), start.byRemote.Keys))
  {
    var links := Links(batch, RemoteByMappedID(batch), start.byRemote.Keys);
    var trap := links.Keys - c.byRemote.Keys;
    forall r | r in trap
      ensures links[r] in trap
    {
      LinksKeys(batch, RemoteByMappedID(batch), start.byRemote.Keys, r);
      var k :| 0 <= k < |batch| && Named(batch[k]) && RemoteOf(batch[k]) == r;
      assert batch[k] in batch && batch[k] in left;
      WaitingLink(start, c, canon, batch, left, batch[k]);
    }
    WaitingLink(start, c, canon, batch, left, left[0]);
    var path := TrapHasCycle(links, trap);
  }

  /** A batch pulled whole has no parent cycle among its new tasks, and everyone is below its parent. */
  lemma RunDone(start: Cache, c: Cache, canon: Normalizer, batch: seq<Snapshot>)
    requires Sound(start, batch) && Run(start, c, canon, batch, RemoteByMappedID(batch), [])
    ensures Acyclic(Links(batch, RemoteByMappedID(batch), start.byRemote.Keys))
    ensures forall s :: s in batch ==> Placed(start, c, canon, RemoteByMappedID(batch), s)
  {
    var links := Links(batch, RemoteByMappedID(batch), start.byRemote.Keys);
    forall r | r in links
      ensures r in c.byRemote
    {
      LinksKeys(batch, RemoteByMappedID(batch), start.byRemote.Keys, r);
      var k :| 0 <= k < |batch| && Named(batch[k]) && RemoteOf(batch[k]) == r;
      assert batch[k] in batch && Placed(start, c, canon, RemoteByMappedID(batch), batch[k]);
    }
    UntrappedIsAcyclic(links, c.byRemote.Keys);
  }

  lemma RunStarts(start: Cache, canon: Normalizer, batch: seq<Snapshot>)
    requires Indexed(start) && Normal(start, canon) && Sound(start, batch)
    ensures Run(start, start, canon, batch, RemoteByMappedID(batch), batch)
  {
    var links := Links(batch, RemoteByMappedID(batch), start.byRemote.Keys);
    forall trap: set<string> | Trap(links, trap)
      ensures trap !! start.byRemote.Keys
    {
      forall r | r in trap
        ensures r !in start.byRemote
      {
        LinksKeys(batch, RemoteByMappedID(batch), start.byRemote.Keys, r);
        var k :| 0 <= k < |batch| && Named(batch[k]) && RemoteOf(batch[k]) == r;
        LinkOf(start, batch, RemoteByMappedID(batch), batch[k]);
      }
    }
    forall s | s in batch
      ensures Untouched(start, start, s)
    {
      var k :| 0 <= k < |batch| && batch[k] == s;
    }
  }

  // ----- what stops a pull -----

  /** What is left stands in the order of the batch. */
  ghost predicate Remains(left: seq<Snapshot>, batch: seq<Snapshot>) {
    exists order: seq<nat> :: StrictlyIncreasing(order) && Within(order, |batch|) && left == Pick(batch, order)
  }

  lemma AllRemains(batch: seq<Snapshot>)
    ensures Remains(batch, batch)
  {
    var order := seq(|batch|, i requires 0 <= i < |batch| => i as nat);
    assert Pick(batch, order) == batch;
  }

  lemma RemainsWithout(a: seq<Snapshot>, s: Snapshot, b: seq<Snapshot>, batch: seq<Snapshot>)
    requires Remains(a + [s] + b, batch)
    ensures Remains(a + b, batch)
  {
    var order: seq<nat> :| StrictlyIncreasing(order) && Within(order, |batch|) && a + [s] + b == Pick(batch, order);
    var rest := order[..|a|] + order[|a| + 1..];
    forall i | 0 <= i < |rest|
      ensures Pick(batch, rest)[i] == (a + b)[i]
    {
      assert Pick(batch, order)[if i < |a| then i else i + 1] == (a + [s] + b)[if i < |a| then i else i + 1];
    }
    assert Pick(batch, rest) == a + b;
  }

  lemma RemainsMembers(left: seq<Snapshot>, batch: seq<Snapshot>, k: nat)
    requires Remains(left, batch) && k < |left|
    ensures left[k] in batch
  {
    var order: seq<nat> :| StrictlyIncreasing(order) && Within(order, |batch|) && left == Pick(batch, order);
    assert left[k] == batch[order[k]];
  }

  function Sum(lengths: seq<nat>): nat {
    if lengths == [] then 0 else Sum(lengths[..|lengths| - 1]) + lengths[|lengths| - 1]
  }

  /** The lengths of the slice in the passes so far, the last one running: each pass starts with less. */
  ghost predicate Passes(lengths: seq<nat>, size: nat) {
    && lengths != [] && lengths[0] == size
    && forall i, j :: 0 <= i < j < |lengths| ==> lengths[j] < lengths[i]
  }

  /** The pass over a slice of length n calls once per task; the one with b tasks behind it makes this call. */
  ghost predicate CallIs(call: nat, lengths: seq<nat>, b: nat) {
    lengths != [] && call + b + 1 == Sum(lengths)
  }

  /**
    The pull met task s in state c, with the tasks of a kept waiting before it and those of b to come, and s stopped
    it there.
   */
  ghost predicate StoppedIn(start: Cache, c: Cache, after: Cache, canon: Normalizer, providerID: string,
                            batch: seq<Snapshot>, a: seq<Snapshot>, s: Snapshot, b: seq<Snapshot>,
                            faults: StepFaults, error: BatchError) {
    var parents := RemoteByMappedID(batch);
    && Remains(a + [s] + b, batch)
    && OnTrack(start, c, canon, batch, a, [s] + b)
    && StepExcused(c, canon, providerID, parents, s, faults, error)
    && StepOutcome(c, after, canon, parents, s, Stopped(error))
  }

  /** Some task stopped the pull where it came to it, in the call it made for it. */
  ghost predicate Explained(start: Cache, after: Cache, canon: Normalizer, providerID: string, batch: seq<Snapshot>,
                            faults: nat -> StepFaults, error: BatchError) {
    exists c, a, s, b, lengths, call: nat ::
      && Passes(lengths, |batch|) && |a + [s] + b| <= lengths[|lengths| - 1] && CallIs(call, lengths, |b|)
      && StoppedIn(start, c, after, canon, providerID, batch, a, s, b, faults(call), error)
  }

  /** The pull so far, when the batch is sound: a waited since the start, b is still to come in this pass. */
  ghost predicate OnTrack(start: Cache, c: Cache, canon: Normalizer, batch: seq<Snapshot>, a: seq<Snapshot>,
                          b: seq<Snapshot>) {
    && Indexed(c) && (BasesMatch(start) ==> BasesMatch(c))
    && (Sound(start, batch) ==>
          && Run(start, c, canon, batch, RemoteByMappedID(batch), a + b)
          && AllWait(start, RemoteByMappedID(batch), a))
  }

  lemma WaitedSinceStart(start: Cache, c: Cache, parents: map<string, string>, task: Entity)
    requires Indexed(start) && Indexed(c) && Extends(start, c) && !ParentReady(c, parents, task)
    ensures !ParentReady(start, parents, task)
  {
  }

  lemma TrackWaits(start: Cache, c: Cache, canon: Normalizer, batch: seq<Snapshot>, a: seq<Snapshot>, s: Snapshot,
                   b: seq<Snapshot>)
    requires OnTrack(start, c, canon, batch, a, [s] + b) && !ParentReady(c, RemoteByMappedID(batch), s.task)
    ensures OnTrack(start, c, canon, batch, a + [s], b)
  {
    assert a + ([s] + b) == a + [s] + b;
    if Sound(start, batch) {
      WaitedSinceStart(start, c, RemoteByMappedID(batch), s.task);
    }
  }

  lemma TrackMoves(start: Cache, here: Cache, after: Cache, canon: Normalizer, batch: seq<Snapshot>,
                   a: seq<Snapshot>, s: Snapshot, b: seq<Snapshot>, r: Step)
    requires OnTrack(start, here, canon, batch, a, [s] + b) && (BasesMatch(here) ==> BasesMatch(after))
    requires Indexed(after) && Normal(after, canon) && (r.Skipped? || r.Stored?)
    requires StepOutcome(here, after, canon, RemoteByMappedID(batch), s, r)
    ensures OnTrack(start, after, canon, batch, a, b)
  {
    hide Run, AllWait, BasesMatch;
    assert a + ([s] + b) == a + [s] + b;
    if Sound(start, batch) {
      if r.Skipped? {
        RunSkipped(start, here, canon, batch, RemoteByMappedID(batch), a, s, b);
      } else {
        RunStored(start, here, after, canon, batch, RemoteByMappedID(batch), a, s, b);
      }
    }
  }

  /** Every task that is not left is ours, and marked so that it is not taken for missing. */
  ghost predicate Marked(batch: seq<Snapshot>, left: seq<Snapshot>, seen: set<string>) {
    && Remains(left, batch)
    && forall s :: s in batch && s !in left ==> s.ours && (s.task.remoteID.Some? ==> s.task.remoteID.value in seen)
  }

  /** What was marked before, and some tasks of the batch. */
  ghost predicate MarksBatch(batch: seq<Snapshot>, seen: set<string>, marked: set<string>) {
    && seen <= marked
    && forall r :: r in marked - seen ==> exists s :: s in batch && s.task.remoteID == Some(r)
  }

  lemma MarksMore(batch: seq<Snapshot>, seen: set<string>, marked: set<string>, more: set<string>)
    requires MarksBatch(batch, seen, marked) && MarksBatch(batch, marked, more)
    ensures MarksBatch(batch, seen, more)
  {
    forall r | r in more - seen
      ensures exists s :: s in batch && s.task.remoteID == Some(r)
    {
      assert r in marked - seen || r in more - marked;
    }
  }

  lemma MarkedStep(batch: seq<Snapshot>, a: seq<Snapshot>, s: Snapshot, b: seq<Snapshot>, seen: set<string>,
                   marked: set<string>)
    requires Marked(batch, a + [s] + b, seen) && s.ours
    requires marked == if s.task.remoteID.Some? then seen + {s.task.remoteID.value} else seen
    ensures Marked(batch, a + b, marked) && MarksBatch(batch, seen, marked)
  {
    assert (a + [s] + b)[|a|] == s;
    RemainsMembers(a + [s] + b, batch, |a|);
    RemainsWithout(a, s, b, batch);
    forall x | x in batch && x !in a + b && x != s
      ensures x !in a + [s] + b
    {
    }
  }

  method Visit(p: CachedProvider, ghost start: Cache, ghost batch: seq<Snapshot>, parents: map<string, string>,
               ghost a: seq<Snapshot>, s: Snapshot, ghost b: seq<Snapshot>, seen: set<string>, faults: StepFaults)
      returns (step: Step, marked: set<string>)
    requires p.Valid() && parents == RemoteByMappedID(batch)
    requires Marked(batch, a + [s] + b, seen) && OnTrack(start, p.State(), p.canon, batch, a, [s] + b)
    modifies p`entities, p`byRemote, p`bases, p`conflicts
    ensures p.Valid() && MarksBatch(batch, seen, marked)
    ensures step.Deferred? ==>
              && p.State() == old(p.State()) && !ParentReady(p.State(), parents, s.task) && marked == seen
              && OnTrack(start, p.State(), p.canon, batch, a + [s], b)
    ensures step.Skipped? || step.Stored? ==>
              Marked(batch, a + b, marked) && OnTrack(start, p.State(), p.canon, batch, a, b)
    ensures step.Stopped? ==> StoppedIn(start, old(p.State()), p.State(), p.canon, p.providerID, batch, a, s, b, faults,
                                        step.error)
  {
    ghost var here := p.State();
    step := ProcessTask(p, parents, s, faults);
    hide OnTrack, Remains, ParentReady, StepExcused, BasesMatch;
    marked := seen;
    if step.Deferred? {
      TrackWaits(start, here, p.canon, batch, a, s, b);
    }
    if step.Skipped? || step.Stored? {
      TrackMoves(start, here, p.State(), p.canon, batch, a, s, b, step);
      if s.task.remoteID.Some? {
        marked := marked + {s.task.remoteID.value};
      }
      MarkedStep(batch, a, s, b, seen, marked);
    }
  }

  /** Appends to the front part of the slice that is being filtered in place. */
  method Keep(pending: array<Snapshot>, kept: nat, i: nat, n: nat, s: Snapshot)
    requires kept <= i < n <= pending.Length
    modifies pending
    ensures pending[..kept + 1] == old(pending[..kept]) + [s]
    ensures pending[i + 1..n] == old(pending[i + 1..n])
  {
    pending[kept] := s;
  }

  /** Without progress every task so far was kept waiting. */
  ghost predicate Stalled(c: Cache, parents: map<string, string>, progress: bool, kept: nat, i: nat, a: seq<Snapshot>) {
    if progress then kept < i else kept == i && AllWait(c, parents, a)
  }

  lemma StalledNext(c: Cache, parents: map<string, string>, progress: bool, kept: nat, i: nat, a: seq<Snapshot>,
                    s: Snapshot)
    requires Stalled(c, parents, progress, kept, i, a) && !ParentReady(c, parents, s.task)
    ensures Stalled(c, parents, progress, kept + 1, i + 1, a + [s])
  {
  }

  /** One task of a pass: kept in the front part of the slice when it waits, else gone. */
  method PassOne(p: CachedProvider, ghost start: Cache, ghost batch: seq<Snapshot>, parents: map<string, string>,
                 pending: array<Snapshot>, kept: nat, i: nat, n: nat, progress: bool, seen: set<string>,
                 faults: StepFaults)
      returns (now: nat, moved: bool, marked: set<string>, error: Option<BatchError>)
    requires p.Valid() && parents == RemoteByMappedID(batch) && kept <= i < n <= pending.Length
    requires Stalled(p.State(), parents, progress, kept, i, pending[..kept])
    requires Marked(batch, pending[..kept] + pending[i..n], seen)
    requires OnTrack(start, p.State(), p.canon, batch, pending[..kept], pending[i..n])
    modifies pending, p`entities, p`byRemote, p`bases, p`conflicts
    ensures p.Valid() && MarksBatch(batch, seen, marked)
    ensures error.Some? ==>
              StoppedIn(start, old(p.State()), p.State(), p.canon, p.providerID, batch, old(pending[..kept]),
                        old(pending[i]), old(pending[i + 1..n]), faults, error.value)
    ensures error.None? ==>
              && now <= i + 1 && Stalled(p.State(), parents, moved, now, i + 1, pending[..now])
              && Marked(batch, pending[..now] + pending[i + 1..n], marked)
              && OnTrack(start, p.State(), p.canon, batch, pending[..now], pending[i + 1..n])
  {
    hide Marked, OnTrack, StoppedIn, Stalled, ParentReady, MarksBatch;
    var task := pending[i];
    ghost var a, rest := pending[..kept], pending[i + 1..n];
    assert pending[i..n] == [task] + rest;
    assert a + pending[i..n] == a + [task] + rest;
    var step;
    step, marked := Visit(p, start, batch, parents, a, task, rest, seen, faults);
    now, moved, error := kept, true, None;
    if step.Stopped? {
      error := Some(step.error);
    } else if step.Deferred? {
      StalledNext(p.State(), parents, progress, kept, i, a, task);
      Keep(pending, kept, i, n, task);
      now, moved := kept + 1, progress;
    } else {
      MovedOn(p.State(), parents, kept, i, a);
    }
  }

  lemma MovedOn(c: Cache, parents: map<string, string>, kept: nat, i: nat, a: seq<Snapshot>)
    requires kept <= i
    ensures Stalled(c, parents, true, kept, i + 1, a)
  {
  }

  method Pass(p: CachedProvider, ghost start: Cache, ghost batch: seq<Snapshot>, parents: map<string, string>,
              pending: array<Snapshot>, n: nat, seen: set<string>, faults: nat -> StepFaults, calls: nat,
              ghost lengths: seq<nat>)
      returns (kept: nat, progress: bool, marked: set<string>, error: Option<BatchError>, made: nat)
    requires p.Valid() && n <= pending.Length && parents == RemoteByMappedID(batch)
    requires Marked(batch, pending[..n], seen) && OnTrack(start, p.State(), p.canon, batch, [], pending[..n])
    requires calls == Sum(lengths) && Passes(lengths + [n], |batch|)
    modifies pending, p`entities, p`byRemote, p`bases, p`conflicts
    ensures p.Valid() && MarksBatch(batch, seen, marked)
    ensures error.Some? ==> Explained(start, p.State(), p.canon, p.providerID, batch, faults, error.value)
    ensures error.None? ==>
              && kept <= n && Stalled(p.State(), parents, progress, kept, n, pending[..kept])
              && Marked(batch, pending[..kept], marked) && made == Sum(lengths + [n])
              && OnTrack(start, p.State(), p.canon, batch, pending[..kept], [])
  {
    hide Marked, OnTrack, StoppedIn, Explained, Passes;
    kept, progress, marked, error, made := 0, false, seen, None, calls;
    assert pending[..0] == [] && pending[0..n] == pending[..n] && pending[..0] + pending[0..n] == pending[..n];
    for i := 0 to n
      invariant p.Valid() && error.None? && kept <= i && Stalled(p.State(), parents, progress, kept, i, pending[..kept])
      invariant Marked(batch, pending[..kept] + pending[i..n], marked) && made == calls + i
      invariant MarksBatch(batch, seen, marked)
      invariant OnTrack(start, p.State(), p.canon, batch, pending[..kept], pending[i..n])
    {
      ghost var c, a, task, rest, before := p.State(), pending[..kept], pending[i], pending[i + 1..n], marked;
      kept, progress, marked, error :=
        PassOne(p, start, batch, parents, pending, kept, i, n, progress, marked, faults(made));
      MarksMore(batch, seen, before, marked);
      if error.Some? {
        StopsHere(start, c, p.State(), p.canon, p.providerID, batch, a, task, rest, faults, made, lengths, n,
                  error.value);
        return;
      }
      made := made + 1;
    }
    assert pending[n..n] == [] && pending[..kept] + pending[n..n] == pending[..kept];
    assert (lengths + [n])[..|lengths|] == lengths;
  }

  lemma StopsHere(start: Cache, c: Cache, after: Cache, canon: Normalizer, providerID: string, batch: seq<Snapshot>,
                  a: seq<Snapshot>, s: Snapshot, b: seq<Snapshot>, faults: nat -> StepFaults, call: nat,
                  lengths: seq<nat>, n: nat, error: BatchError)
    requires StoppedIn(start, c, after, canon, providerID, batch, a, s, b, faults(call), error)
    requires Passes(lengths + [n], |batch|) && |a| + 1 + |b| <= n && call == Sum(lengths) + n - |b| - 1
    ensures Explained(start, after, canon, providerID, batch, faults, error)
  {
    hide StoppedIn, Passes;
    assert (lengths + [n])[..|lengths|] == lengths;
    assert |a + [s] + b| <= n && CallIs(call, lengths + [n], |b|);
  }

  // ----- the whole pull -----

  /** The new tasks of a batch form a parent cycle. */
  ghost predicate Entangled(start: Cache, batch: seq<Snapshot>) {
    !Acyclic(Links(batch, RemoteByMappedID(batch), start.byRemote.Keys))
  }

  ghost predicate AllPlaced(start: Cache, c: Cache, canon: Normalizer, batch: seq<Snapshot>) {
    forall s :: s in batch ==> Placed(start, c, canon, RemoteByMappedID(batch), s)
  }

  /** Some tasks are left, all others are placed, and no task that is left has its parent stored. */
  ghost predicate Stuck(start: Cache, c: Cache, canon: Normalizer, batch: seq<Snapshot>) {
    exists left :: left != [] && Remains(left, batch) && AllWait(c, RemoteByMappedID(batch), left)
                   && Run(start, c, canon, batch, RemoteByMappedID(batch), left)
  }

  lemma StallsOnCycle(start: Cache, c: Cache, canon: Normalizer, batch: seq<Snapshot>, left: seq<Snapshot>)
    requires OnTrack(start, c, canon, batch, left, []) && Remains(left, batch) && left != []
    requires AllWait(c, RemoteByMappedID(batch), left)
    ensures Sound(start, batch) ==> Entangled(start, batch) && Stuck(start, c, canon, batch)
  {
    if Sound(start, batch) {
      assert left + [] == left;
      AllWaiting(start, c, canon, batch, left);
    }
  }

  /** How a pull ends. */
  ghost predicate Ended(start: Cache, c: Cache, canon: Normalizer, providerID: string, batch: seq<Snapshot>,
                        faults: nat -> StepFaults, error: Option<BatchError>) {
    match error
    case None =>
      && OnTrack(start, c, canon, batch, [], [])
      && (Sound(start, batch) ==> !Entangled(start, batch) && AllPlaced(start, c, canon, batch))
    case Some(Unresolved) =>
      && (BasesMatch(start) ==> BasesMatch(c))
      && (Sound(start, batch) ==> Entangled(start, batch) && Stuck(start, c, canon, batch))
    case Some(why) => Explained(start, c, canon, providerID, batch, faults, why)
  }

  /** One more pass: it leaves less to do, or everything left waits. */
  method NextPass(p: CachedProvider, ghost start: Cache, ghost batch: seq<Snapshot>, parents: map<string, string>,
                  pending: array<Snapshot>, n: nat, seen: set<string>, faults: nat -> StepFaults, calls: nat,
                  ghost lengths: seq<nat>)
      returns (kept: nat, marked: set<string>, error: Option<BatchError>, made: nat)
    requires p.Valid() && 0 < n <= pending.Length && parents == RemoteByMappedID(batch)
    requires Marked(batch, pending[..n], seen) && OnTrack(start, p.State(), p.canon, batch, [], pending[..n])
    requires calls == Sum(lengths) && Passes(lengths + [n], |batch|)
    modifies pending, p`entities, p`byRemote, p`bases, p`conflicts
    ensures p.Valid() && MarksBatch(batch, seen, marked)
    ensures error.None? ==>
              && kept < n && Marked(batch, pending[..kept], marked) && made == Sum(lengths + [n])
              && OnTrack(start, p.State(), p.canon, batch, [], pending[..kept])
    ensures error.Some? ==> Ended(start, p.State(), p.canon, p.providerID, batch, faults, error)
  {
    var progress;
    kept, progress, marked, error, made := Pass(p, start, batch, parents, pending, n, seen, faults, calls, lengths);
    if error.Some? {
      ExplainedEnds(start, p.State(), p.canon, p.providerID, batch, faults, error.value);
    } else if !progress {
      assert Remains(pending[..kept], batch);
      StallsOnCycle(start, p.State(), p.canon, batch, pending[..kept]);
      error := Some(Unresolved);
    } else {
      TrackTurns(start, p.State(), p.canon, batch, pending[..kept]);
    }
  }

  lemma TrackTurns(start: Cache, c: Cache, canon: Normalizer, batch: seq<Snapshot>, left: seq<Snapshot>)
    requires OnTrack(start, c, canon, batch, left, [])
    ensures OnTrack(start, c, canon, batch, [], left)
  {
    assert left + [] == left == [] + left;
  }

  lemma ExplainedEnds(start: Cache, c: Cache, canon: Normalizer, providerID: string, batch: seq<Snapshot>,
                      faults: nat -> StepFaults, error: BatchError)
    requires Explained(start, c, canon, providerID, batch, faults, error)
    ensures Ended(start, c, canon, providerID, batch, faults, Some(error))
  {
  }

  /** Passes over the waiting tasks, until none is left or none moves. */
  method RunPasses(p: CachedProvider, ghost start: Cache, ghost batch: seq<Snapshot>, parents: map<string, string>,
                   pending: array<Snapshot>, seen: set<string>, faults: nat -> StepFaults)
      returns (marked: set<string>, error: Option<BatchError>)
    requires p.Valid() && parents == RemoteByMappedID(batch) && pending[..] == batch
    requires OnTrack(start, p.State(), p.canon, batch, [], batch)
    modifies pending, p`entities, p`byRemote, p`bases, p`conflicts
    ensures p.Valid() && MarksBatch(batch, seen, marked)
    ensures error.None? ==> Marked(batch, [], marked)
    ensures Ended(start, p.State(), p.canon, p.providerID, batch, faults, error)
  {
    marked, error := seen, None;
    var n: nat, calls: nat := pending.Length, 0;
    ghost var lengths: seq<nat> := [];
    assert pending[..n] == batch;
    AllRemains(batch);
    while n > 0
      invariant n <= pending.Length && p.Valid() && error.None?
      invariant Marked(batch, pending[..n], marked) && OnTrack(start, p.State(), p.canon, batch, [], pending[..n])
      invariant calls == Sum(lengths) && Passes(lengths + [n], |batch|) && MarksBatch(batch, seen, marked)
      decreases n
    {
      ghost var before, earlier := n, marked;
      n, marked, error, calls := NextPass(p, start, batch, parents, pending, n, marked, faults, calls, lengths);
      MarksMore(batch, seen, earlier, marked);
      if error.Some? {
        return;
      }
      PassesOn(lengths, before, n, |batch|);
      lengths := lengths + [before];
    }
    assert pending[..n] == [];
    AllDone(start, p.State(), p.canon, p.providerID, batch, faults);
  }

  lemma PassesOn(lengths: seq<nat>, n: nat, next: nat, size: nat)
    requires Passes(lengths + [n], size) && next < n
    ensures Passes(lengths + [n] + [next], size)
  {
    var before, now := lengths + [n], lengths + [n] + [next];
    forall i, j | 0 <= i < j < |now|
      ensures now[j] < now[i]
    {
      assert now[i] == before[i] && before[|lengths|] == n;
    }
  }

  lemma AllDone(start: Cache, c: Cache, canon: Normalizer, providerID: string, batch: seq<Snapshot>,
                faults: nat -> StepFaults)
    requires OnTrack(start, c, canon, batch, [], [])
    ensures Ended(start, c, canon, providerID, batch, faults, None)
  {
    var none: seq<Snapshot> := [];
    assert none + none == none;
    if Sound(start, batch) {
      RunDone(start, c, canon, batch);
    }
  }

  // ----- the direct parents of a batch -----

  /** Task s names task t of the batch as its parent. */
  ghost predicate Below(batch: seq<Snapshot>, s: Snapshot, t: Snapshot) {
    s in batch && t in batch && ParentOf(s.task) == Some(t.task.id)
  }

  lemma DirectParent(c: Cache, batch: seq<Snapshot>, s: Snapshot, t: Snapshot)
    requires Sound(c, batch) && Below(batch, s, t)
    ensures RemoteOf(t) != "" && ParentRemote(RemoteByMappedID(batch), s.task) == RemoteOf(t)
  {
    var k :| 0 <= k < |batch| && batch[k] == t;
    BatchInParents(batch, k);
  }

  lemma ParentInBatch(c: Cache, batch: seq<Snapshot>, s: Snapshot) returns (t: Snapshot)
    requires Sound(c, batch) && s in batch && ParentRemote(RemoteByMappedID(batch), s.task) != ""
    ensures Below(batch, s, t) && RemoteOf(t) == ParentRemote(RemoteByMappedID(batch), s.task)
  {
    var id := ParentOf(s.task).value;
    ParentsInBatch(batch, id);
    var k :| 0 <= k < |batch| && IsParent(batch[k], id, RemoteByMappedID(batch)[id]);
    t := batch[k];
  }

  /** Tasks of the batch that are not stored, each named as parent by the one before it, the first by the last. */
  ghost predicate ParentCycle(c: Cache, batch: seq<Snapshot>, path: seq<Snapshot>) {
    && path != []
    && (forall i :: 0 <= i < |path| ==> path[i] in batch && RemoteOf(path[i]) !in c.byRemote)
    && (forall i :: 0 <= i < |path| - 1 ==> Below(batch, path[i], path[i + 1]))
    && Below(batch, path[|path| - 1], path[0])
  }

  lemma CycleEntangles(start: Cache, batch: seq<Snapshot>, path: seq<Snapshot>)
    requires Sound(start, batch) && ParentCycle(start, batch, path)
    ensures Entangled(start, batch)
  {
    var links := Links(batch, RemoteByMappedID(batch), start.byRemote.Keys);
    var remotes := Map(RemoteOf, path);
    hide Sound, Below, Links, ParentRemote, RemoteByMappedID;
    forall i | 0 <= i < |path|
      ensures remotes[i] in links && links[remotes[i]] == remotes[if i < |path| - 1 then i + 1 else 0]
    {
      var next := path[if i < |path| - 1 then i + 1 else 0];
      assert Below(batch, path[i], next);
      DirectParent(start, batch, path[i], next);
      assert path[i] in batch;
      LinkOf(start, batch, RemoteByMappedID(batch), path[i]);
    }
    assert Cycle(links, remotes);
  }

  /** The task of the batch behind a link. */
  lemma LinkedTask(start: Cache, batch: seq<Snapshot>, r: string) returns (s: Snapshot, t: Snapshot)
    requires Sound(start, batch)
    requires r in Links(batch, RemoteByMappedID(batch), start.byRemote.Keys)
    ensures s in batch && RemoteOf(s) == r && r !in start.byRemote && Below(batch, s, t)
    ensures RemoteOf(t) == Links(batch, RemoteByMappedID(batch), start.byRemote.Keys)[r]
  {
    LinksKeys(batch, RemoteByMappedID(batch), start.byRemote.Keys, r);
    var k :| 0 <= k < |batch| && Named(batch[k]) && RemoteOf(batch[k]) == r;
    s := batch[k];
    LinkOf(start, batch, RemoteByMappedID(batch), s);
    t := ParentInBatch(start, batch, s);
  }

  ghost predicate IsTask(batch: seq<Snapshot>, r: string, s: Snapshot) { s in batch && RemoteOf(s) == r }

  lemma EntangledCycle(start: Cache, batch: seq<Snapshot>) returns (path: seq<Snapshot>)
    requires Sound(start, batch) && Entangled(start, batch)
    ensures ParentCycle(start, batch, path)
  {
    var links := Links(batch, RemoteByMappedID(batch), start.byRemote.Keys);
    var remotes: seq<string> :| Cycle(links, remotes);
    forall i | 0 <= i < |remotes|
      ensures exists s :: IsTask(batch, remotes[i], s)
    {
      var s, t := LinkedTask(start, batch, remotes[i]);
      assert IsTask(batch, remotes[i], s);
    }
    path := seq(|remotes|, i requires 0 <= i < |remotes| => var s :| IsTask(batch, remotes[i], s); s);
    forall i | 0 <= i < |path|
      ensures RemoteOf(path[i]) !in start.byRemote
      ensures Below(batch, path[i], path[if i < |path| - 1 then i + 1 else 0])
    {
      var next := path[if i < |path| - 1 then i + 1 else 0];
      assert IsTask(batch, remotes[i], path[i]) && IsTask(batch, links[remotes[i]], next);
      var s, t := LinkedTask(start, batch, remotes[i]);
      OneTask(start, batch, s, path[i]);
      OneTask(start, batch, t, next);
    }
  }

  lemma OneTask(c: Cache, batch: seq<Snapshot>, s: Snapshot, t: Snapshot)
    requires Sound(c, batch) && s in batch && t in batch && RemoteOf(s) == RemoteOf(t)
    ensures s == t
  {
    if s != t {
      InBatch(c, batch, s, t);
    }
  }

  /** The links hold exactly the direct parents: they form a cycle when some tasks not stored yet do. */
  lemma EntangledExactly(start: Cache, batch: seq<Snapshot>)
    requires Sound(start, batch)
    ensures Entangled(start, batch) <==> exists path :: ParentCycle(start, batch, path)
  {
    if Entangled(start, batch) {
      var path := EntangledCycle(start, batch);
    } else {
      forall path | ParentCycle(start, batch, path)
        ensures false
      {
        CycleEntangles(start, batch, path);
      }
    }
  }

  /** Both tasks are stored, and a new or synchronized task points at its stored parent. */
  ghost predicate StoredBelow(start: Cache, c: Cache, canon: Normalizer, s: Snapshot, t: Snapshot) {
    && c.Find(RemoteOf(s)).Some? && c.Find(RemoteOf(t)).Some?
    && (BasesMatch(start) && KeepsParent(canon) && Follows(start, RemoteOf(s)) ==>
          ParentOf(c.Find(RemoteOf(s)).value) == Some(c.Find(RemoteOf(t)).value.id))
  }

  /** A new or synchronized task keeps a parent outside the batch. */
  ghost predicate KeepsNamed(start: Cache, c: Cache, canon: Normalizer, s: Snapshot) {
    BasesMatch(start) && KeepsParent(canon) && Follows(start, RemoteOf(s)) && ParentOf(s.task).Some? ==>
      c.Find(RemoteOf(s)).Some? && ParentOf(c.Find(RemoteOf(s)).value) == ParentOf(s.task)
  }

  ghost predicate ParentElsewhere(batch: seq<Snapshot>, s: Snapshot) {
    s in batch && forall t :: !Below(batch, s, t)
  }

  lemma EndsApart(start: Cache, c: Cache, canon: Normalizer, providerID: string, batch: seq<Snapshot>,
                  faults: nat -> StepFaults, s: Snapshot)
    requires Indexed(start) && Sound(start, batch) && Ended(start, c, canon, providerID, batch, faults, None)
    requires ParentElsewhere(batch, s)
    ensures KeepsNamed(start, c, canon, s)
  {
    if ParentRemote(RemoteByMappedID(batch), s.task) != "" {
      var t := ParentInBatch(start, batch, s);
      assert false;
    }
    assert Placed(start, c, canon, RemoteByMappedID(batch), s);
    NamedInBatch(start, batch, s);
    if BasesMatch(start) && Follows(start, RemoteOf(s)) {
      PlacedAsSaid(start, c, canon, RemoteByMappedID(batch), s);
    }
  }

  lemma PlacedAsSaid(start: Cache, c: Cache, canon: Normalizer, parents: map<string, string>, s: Snapshot)
    requires Indexed(start) && Indexed(c) && BasesMatch(start) && Named(s) && Follows(start, RemoteOf(s))
    requires Placed(start, c, canon, parents, s) && Linked(c, parents, s.task) == s.task
    ensures c.Find(RemoteOf(s)).Some?
    ensures Some(c.Find(RemoteOf(s)).value.fields) == canon(s.task.listID, s.task.fields)
  {
    var existing := start.Find(RemoteOf(s));
    if existing.Some? {
      assert BaseMatches(start, existing.value.id);
      SyncedFollows(existing.value, s.task);
    }
    assert RowPulled(start, c, canon, s.task);
    assert c.entities[Target(start, s.task)].remoteID == Some(RemoteOf(s));
  }

  lemma EndsBelow(start: Cache, c: Cache, canon: Normalizer, providerID: string, batch: seq<Snapshot>,
                  faults: nat -> StepFaults, s: Snapshot, t: Snapshot)
    requires Sound(start, batch) && Ended(start, c, canon, providerID, batch, faults, None) && Below(batch, s, t)
    ensures StoredBelow(start, c, canon, s, t)
  {
    DirectParent(start, batch, s, t);
    assert Placed(start, c, canon, RemoteByMappedID(batch), s);
    assert Indexed(c);
  }

  // ----- what a pull keeps however it ends -----

  lemma StoppedBases(c: Cache, after: Cache, canon: Normalizer, providerID: string, parents: map<string, string>,
                     s: Snapshot, faults: StepFaults, error: BatchError)
    requires Indexed(c) && BasesMatch(c) && !faults.pull.saveBase
    requires StepExcused(c, canon, providerID, parents, s, faults, error)
    requires StepOutcome(c, after, canon, parents, s, Stopped(error))
    ensures BasesMatch(after)
  {
    var linked := Linked(c, parents, s.task);
    if error.TaskPanicked? {
      PullMatchesBases(c, after, canon, linked, Err(error.error));
    } else if error.MetadataNotStored? {
      var value, conflict :| Pulled(c, after, canon, linked, Ok((value, conflict)));
      PullMatchesBases(c, after, canon, linked, Ok((value, conflict)));
    }
  }

  /** Matching bases stay matching when no save of a base fails. */
  lemma EndedKeepsBases(start: Cache, c: Cache, canon: Normalizer, providerID: string, batch: seq<Snapshot>,
                        faults: nat -> StepFaults, error: Option<BatchError>)
    requires Ended(start, c, canon, providerID, batch, faults, error)
    requires BasesMatch(start) && forall call: nat :: !faults(call).pull.saveBase
    ensures BasesMatch(c)
  {
    if error.Some? && error != Some(Unresolved) {
      var here, a, s, b, lengths, call: nat :|
        && Passes(lengths, |batch|) && |a + [s] + b| <= lengths[|lengths| - 1] && CallIs(call, lengths, |b|)
        && StoppedIn(start, here, c, canon, providerID, batch, a, s, b, faults(call), error.value);
      StoppedBases(here, c, canon, providerID, RemoteByMappedID(batch), s, faults(call), error.value);
    }
  }

  /** Local edits survive, and entities no task of the batch stands for stay as they are. */
  lemma EndedKeepsRest(start: Cache, c: Cache, canon: Normalizer, providerID: string, batch: seq<Snapshot>,
                       faults: nat -> StepFaults, error: Option<BatchError>)
    requires Ended(start, c, canon, providerID, batch, faults, error) && Sound(start, batch)
    ensures EditsKept(start, c) && OthersKept(start, c, batch)
  {
    hide Run, EditsKept, OthersKept, StepOutcome;
    match error
    case None =>
      var none: seq<Snapshot> := [];
      assert none + none == none;
      RunKeepsRest(start, c, canon, batch, none);
    case Some(Unresolved) =>
      var left :| Remains(left, batch) && Run(start, c, canon, batch, RemoteByMappedID(batch), left);
      RunKeepsRest(start, c, canon, batch, left);
    case Some(why) =>
      var here, a, s, b, lengths, call: nat :|
        && Passes(lengths, |batch|) && |a + [s] + b| <= lengths[|lengths| - 1] && CallIs(call, lengths, |b|)
        && StoppedIn(start, here, c, canon, providerID, batch, a, s, b, faults(call), why);
      assert (a + ([s] + b))[|a|] == s;
      RunStopped(start, here, c, canon, batch, RemoteByMappedID(batch), a + ([s] + b), s, why);
  }

  lemma RunKeepsRest(start: Cache, c: Cache, canon: Normalizer, batch: seq<Snapshot>, left: seq<Snapshot>)
    requires Run(start, c, canon, batch, RemoteByMappedID(batch), left)
    ensures EditsKept(start, c) && OthersKept(start, c, batch)
  {
  }

  // ----- a pull in which nothing fails -----

  function LinkedTo(task: Entity, parentID: string): Entity { task.(fields := task.fields[PARENT := Text(parentID)]) }

  ghost predicate Accepted(c: Cache, canon: Normalizer, task: Entity) {
    task.remoteID.Some? && canon(ToSave(c, task).listID, ToSave(c, task).fields).Some?
  }

  /** The store takes what the pull makes of a task, whatever ID its stored parent has; edited tasks are skipped. */
  ghost predicate Accepts(c: Cache, canon: Normalizer, parents: map<string, string>, s: Snapshot) {
    || HasEdits(c, s.task)
    || (c.Find(RemoteOf(s)).Some? && c.Find(RemoteOf(s)).value.deleted)
    || if ParentRemote(parents, s.task) == "" then Accepted(c, canon, s.task)
       else forall parentID :: Accepted(c, canon, LinkedTo(s.task, parentID))
  }

  /** No snapshot is foreign, no call fails, and the store takes every task of the batch. */
  ghost predicate Calm(start: Cache, canon: Normalizer, providerID: string, batch: seq<Snapshot>,
                       faults: nat -> StepFaults) {
    && providerID != ""
    && (forall s :: s in batch ==> s.ours && Accepts(start, canon, RemoteByMappedID(batch), s))
    && forall call: nat :: faults(call).Harmless()
  }

  /** Over matching bases, the store takes a new or synchronized task when it takes the snapshot itself. */
  lemma SnapshotAccepted(c: Cache, canon: Normalizer, parents: map<string, string>, s: Snapshot)
    requires Indexed(c) && BasesMatch(c) && Named(s) && Follows(c, RemoteOf(s))
    requires canon(s.task.listID, s.task.fields).Some?
    requires forall parentID :: canon(s.task.listID, LinkedTo(s.task, parentID).fields).Some?
    ensures Accepts(c, canon, parents, s)
  {
    forall task: Entity | task.remoteID == s.task.remoteID && task.listID == s.task.listID
      ensures ToSave(c, task).listID == task.listID && ToSave(c, task).fields == task.fields
    {
      if c.Find(RemoteOf(s)).Some? {
        var e := c.Find(RemoteOf(s)).value;
        assert BaseMatches(c, e.id);
        SyncedFollows(e, task);
      }
    }
    forall parentID
      ensures Accepted(c, canon, LinkedTo(s.task, parentID))
    {
      var linked := LinkedTo(s.task, parentID);
      assert ToSave(c, linked).fields == linked.fields;
    }
  }

  /** What is asked of the store has not changed since the start. */
  lemma AsksTheSame(start: Cache, c: Cache, s: Snapshot, task: Entity)
    requires Indexed(start) && Named(s) && Untouched(start, c, s) && task.remoteID == s.task.remoteID
    ensures ToSave(c, task) == ToSave(start, task)
  {
  }

  lemma CalmPulls(start: Cache, c: Cache, canon: Normalizer, providerID: string, parents: map<string, string>,
                  s: Snapshot, faults: StepFaults)
    requires Indexed(start) && Indexed(c) && Named(s) && Untouched(start, c, s) && AtPull(c, parents, s, faults)
    requires providerID != "" && faults.Harmless() && Accepts(start, canon, parents, s)
    ensures Failure(c, canon, providerID, Linked(c, parents, s.task), faults.pull) == None
  {
    var linked := Linked(c, parents, s.task);
    AsksTheSame(start, c, s, linked);
    if ParentRemote(parents, s.task) != "" {
      assert linked == LinkedTo(s.task, c.Find(ParentRemote(parents, s.task)).value.id);
    }
  }

  lemma CalmRunsOn(start: Cache, c: Cache, after: Cache, canon: Normalizer, providerID: string, batch: seq<Snapshot>,
                   a: seq<Snapshot>, s: Snapshot, b: seq<Snapshot>, faults: StepFaults, error: BatchError)
    requires Sound(start, batch) && providerID != "" && faults.Harmless()
    requires s.ours && Accepts(start, canon, RemoteByMappedID(batch), s)
    ensures !StoppedIn(start, c, after, canon, providerID, batch, a, s, b, faults, error)
  {
    hide Accepts, Sound;
    if StoppedIn(start, c, after, canon, providerID, batch, a, s, b, faults, error) {
      assert (a + ([s] + b))[|a|] == s;
      assert s in Elements(a + ([s] + b));
      NamedInBatch(start, batch, s);
      if AtPull(c, RemoteByMappedID(batch), s, faults) {
        CalmPulls(start, c, canon, providerID, RemoteByMappedID(batch), s, faults);
      }
      assert false;
    }
  }

  lemma CalmEnds(start: Cache, c: Cache, canon: Normalizer, providerID: string, batch: seq<Snapshot>,
                 faults: nat -> StepFaults, error: Option<BatchError>)
    requires Ended(start, c, canon, providerID, batch, faults, error) && Sound(start, batch)
    requires Calm(start, canon, providerID, batch, faults)
    ensures error.None? || error == Some(Unresolved)
    ensures error == Some(Unresolved) <==> Entangled(start, batch)
  {
    hide StoppedIn, Accepts, Sound, Entangled, OnTrack, Stuck, AllPlaced;
    if error.Some? && error != Some(Unresolved) {
      var here, a, s, b, lengths, call: nat :|
        && Passes(lengths, |batch|) && |a + [s] + b| <= lengths[|lengths| - 1] && CallIs(call, lengths, |b|)
        && StoppedIn(start, here, c, canon, providerID, batch, a, s, b, faults(call), error.value);
      StoppedMember(start, here, c, canon, providerID, batch, a, s, b, faults(call), error.value);
      assert faults(call).Harmless();
      CalmRunsOn(start, here, c, canon, providerID, batch, a, s, b, faults(call), error.value);
      assert false;
    }
  }

  lemma StoppedMember(start: Cache, c: Cache, after: Cache, canon: Normalizer, providerID: string,
                      batch: seq<Snapshot>, a: seq<Snapshot>, s: Snapshot, b: seq<Snapshot>, faults: StepFaults,
                      error: BatchError)
    requires StoppedIn(start, c, after, canon, providerID, batch, a, s, b, faults, error)
    ensures s in batch
  {
    assert (a + [s] + b)[|a|] == s;
    RemainsMembers(a + [s] + b, batch, |a|);
  }

  /**
    Pulls a whole batch. It ends with every task placed, stuck on a parent cycle, or stopped by one task for its
    reason; local edits, matching bases and all other entities stay. When nothing fails, it reports an unresolved
    parent exactly when tasks not stored yet form a parent cycle.
   */
  method ReconcileTasks(p: CachedProvider, batch: seq<Snapshot>, seen: set<string>, faults: nat -> StepFaults)
      returns (marked: set<string>, error: Option<BatchError>)
    requires p.Valid()
    modifies p`entities, p`byRemote, p`bases, p`conflicts
    ensures p.Valid()
    ensures error.None? ==> Marked(batch, [], marked)
    ensures MarksBatch(batch, seen, marked)
    ensures Ended(old(p.State()), p.State(), p.canon, p.providerID, batch, faults, error)
    ensures Sound(old(p.State()), batch) ==>
              EditsKept(old(p.State()), p.State()) && OthersKept(old(p.State()), p.State(), batch)
    ensures BasesMatch(old(p.State())) && (forall call: nat :: !faults(call).pull.saveBase) ==> BasesMatch(p.State())
    ensures Sound(old(p.State()), batch) && Calm(old(p.State()), p.canon, p.providerID, batch, faults) ==>
              && (error.None? || error == Some(Unresolved))
              && (error == Some(Unresolved) <==> exists path :: ParentCycle(old(p.State()), batch, path))
    ensures Sound(old(p.State()), batch) && error.None? ==>
              && (forall s, t :: Below(batch, s, t) ==> StoredBelow(old(p.State()), p.State(), p.canon, s, t))
              && (forall s :: ParentElsewhere(batch, s) ==> KeepsNamed(old(p.State()), p.State(), p.canon, s))
  {
    ghost var start := p.State();
    var parents := BuildParents(batch);
    var pending := new Snapshot[|batch|](i requires 0 <= i < |batch| => batch[i]);
    assert pending[..] == batch;
    TrackStarts(start, p.canon, batch);
    marked, error := RunPasses(p, start, batch, parents, pending, seen, faults);
    hide Ended, BasesMatch, Calm, Sound, Entangled, EditsKept, OthersKept, Marked, MarksBatch, Below,
         StoredBelow, ParentCycle, ParentElsewhere, KeepsNamed;
    if Sound(start, batch) {
      EntangledExactly(start, batch);
      if error.None? {
        forall s, t | Below(batch, s, t)
          ensures StoredBelow(start, p.State(), p.canon, s, t)
        {
          EndsBelow(start, p.State(), p.canon, p.providerID, batch, faults, s, t);
        }
        forall s | ParentElsewhere(batch, s)
          ensures KeepsNamed(start, p.State(), p.canon, s)
        {
          EndsApart(start, p.State(), p.canon, p.providerID, batch, faults, s);
        }
      }
      EndedKeepsRest(start, p.State(), p.canon, p.providerID, batch, faults, error);
      if Calm(start, p.canon, p.providerID, batch, faults) {
        CalmEnds(start, p.State(), p.canon, p.providerID, batch, faults, error);
      }
    }
    if BasesMatch(start) && forall call: nat :: !faults(call).pull.saveBase {
      EndedKeepsBases(start, p.State(), p.canon, p.providerID, batch, faults, error);
    }
  }

  lemma TrackStarts(start: Cache, canon: Normalizer, batch: seq<Snapshot>)
    requires Indexed(start) && Normal(start, canon)
    ensures OnTrack(start, start, canon, batch, [], batch)
  {
    assert [] + batch == batch;
    if Sound(start, batch) {
      RunStarts(start, canon, batch);
    }
  }
}

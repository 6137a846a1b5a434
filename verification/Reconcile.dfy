/**
  Pulling one remote snapshot into the local cache. The cache remembers, for
  every entity it has synchronized, the fields both sides last agreed on; local
  edits stay authoritative until they were pushed.
 */
module Reconcile {
  import opened Common
  import opened FieldMerge
  import Text

  /** A decoded JSON value, the currency of the field maps. */
  datatype Json = Null | Bool(b: bool) | Number(digits: string) | Text(text: string)
                | Array(items: seq<Json>) | Object(members: map<string, Json>)

  type Fields = map<string, Json>

  datatype SyncState = Synced | Pending | Syncing | Failed | Conflicted | Local

  predicate HasLocalChanges(state: SyncState) {
    state == Pending || state == Syncing || state == Failed || state == Conflicted
  }

  datatype Entity = Entity(
    id: string, remoteID: Option<string>, listID: string, state: SyncState, deleted: bool, fields: Fields)

  /** What storing an entity makes of its fields; None is a rejected entity. */
  type Normalizer = (string, Fields) -> Option<Fields>

  ghost predicate Idempotent(canon: Normalizer) {
    forall list: string, fields: Fields :: canon(list, fields).Some? ==>
      canon(list, canon(list, fields).value) == canon(list, fields)
  }

  /** The rows of the store: entities, the unique index on remote IDs, and the merge bases. */
  datatype Cache = Cache(entities: map<string, Entity>, byRemote: map<string, string>, bases: map<string, Fields>)
  {
    function Find(remoteID: string): Option<Entity> {
      if remoteID in byRemote && byRemote[remoteID] in entities then Some(entities[byRemote[remoteID]]) else None
    }

    function Base(id: string): Fields { if id in bases then bases[id] else map[] }
  }

  ghost predicate Indexed(c: Cache) {
    && (forall id :: id in c.entities ==> c.entities[id].id == id)
    && (forall r :: r in c.byRemote ==> c.byRemote[r] in c.entities && c.entities[c.byRemote[r]].remoteID == Some(r))
    && (forall id :: id in c.entities && c.entities[id].remoteID.Some? ==>
          c.entities[id].remoteID.value in c.byRemote && c.byRemote[c.entities[id].remoteID.value] == id)
  }

  ghost predicate Normal(c: Cache, canon: Normalizer) {
    forall id :: id in c.entities ==> canon(c.entities[id].listID, c.entities[id].fields) == Some(c.entities[id].fields)
  }

  /** Synchronized entities agree with their merge base. */
  ghost predicate BasesMatch(c: Cache) {
    forall id :: id in c.entities && c.entities[id].state == Synced && !c.entities[id].deleted ==> BaseMatches(c, id)
  }

  ghost predicate BaseMatches(c: Cache, id: string)
    requires id in c.entities
  {
    id in c.bases && c.bases[id] == c.entities[id].fields
  }

  /** Entities with local edits keep identity, list, fields and base, and are not deleted. */
  ghost predicate EditsKept(before: Cache, after: Cache) {
    forall id :: id in before.entities && HasLocalChanges(before.entities[id].state) ==> EditKept(before, after, id)
  }

  ghost predicate EditKept(before: Cache, after: Cache, id: string)
    requires id in before.entities
  {
    && id in after.entities
    && HasLocalChanges(after.entities[id].state)
    && after.entities[id].(state := Synced) == before.entities[id].(state := Synced)
    && (id in after.bases <==> id in before.bases)
    && (id in before.bases ==> after.bases[id] == before.bases[id])
  }

  /** Entities that are pending, syncing, failed or in conflict carry local edits, and no others. */
  lemma EditedStates(before: Cache, after: Cache)
    ensures EditsKept(before, after) <==>
              forall id :: id in before.entities
                           && before.entities[id].state in {Pending, Syncing, Failed, Conflicted} ==>
                && id in after.entities && after.entities[id].state in {Pending, Syncing, Failed, Conflicted}
                && after.entities[id].(state := Synced) == before.entities[id].(state := Synced)
                && (id in after.bases <==> id in before.bases)
                && (id in before.bases ==> after.bases[id] == before.bases[id])
  {
    forall id | id in before.entities
      ensures HasLocalChanges(before.entities[id].state) <==>
                before.entities[id].state in {Pending, Syncing, Failed, Conflicted}
    {
    }
  }

  lemma EditsKeptTransitive(a: Cache, b: Cache, c: Cache)
    requires EditsKept(a, b) && EditsKept(b, c)
    ensures EditsKept(a, c)
  {
    forall id | id in a.entities && HasLocalChanges(a.entities[id].state)
      ensures EditKept(a, c, id)
    {
      assert EditKept(a, b, id) && EditKept(b, c, id);
    }
  }

  // ----- one snapshot -----

  datatype PullError =
    NoRemoteID | LookupFailed | BaseUnreadable | MergeFailed | NotSaved | BaseNotSaved | ConflictNotSaved

  /** Which calls into the store fail; of the conflicts to record, the one with the given number. */
  datatype Faults = Faults(
    lookup: bool, loadBase: bool, upsert: bool, saveBase: bool, saveConflict: Option<nat>, tombstone: bool)
  {
    predicate Harmless() {
      !lookup && !loadBase && !upsert && !saveBase && saveConflict.None? && !tombstone
    }
  }

  predicate Blank(remoteID: Option<string>) {
    remoteID.None? || Text.Trim(remoteID.value) == ""
  }

  ghost predicate Disputed(existing: Entity, base: Fields, remote: Entity) {
    ConflictFields(base, existing.fields, remote.fields) != {}
  }

  /** The entity a snapshot leaves behind, before the store normalizes it. */
  ghost function Merge(existing: Entity, base: Fields, remote: Entity): Entity {
    var edited := HasLocalChanges(existing.state);
    existing.(
      state := if Disputed(existing, base, remote) then Conflicted else existing.state,
      listID := if edited then existing.listID else remote.listID,
      fields := if edited then existing.fields else MergedFields(base, existing.fields, remote.fields))
  }

  function Adopt(remote: Entity): Entity {
    remote.(state := Synced, deleted := false)
  }

  /** Storing e succeeds as e's normal form. */
  ghost predicate Saved(before: Cache, after: Cache, canon: Normalizer, e: Entity) {
    && canon(e.listID, e.fields).Some?
    && after.entities == before.entities[e.id := e.(fields := canon(e.listID, e.fields).value)]
  }

  /** Failures before the entity was stored. */
  ghost predicate Early(r: Result<(Entity, bool), PullError>) {
    r.Err? && !r.error.BaseNotSaved? && !r.error.ConflictNotSaved?
  }

  /** Storing the merge of a known entity, with its base when both sides agree again. */
  ghost predicate MergeStored(before: Cache, after: Cache, canon: Normalizer, e: Entity, remote: Entity,
                              r: Result<(Entity, bool), PullError>) {
    var disputed := Disputed(e, before.Base(e.id), remote);
    && Saved(before, after, canon, Merge(e, before.Base(e.id), remote))
    && (r.Ok? ==> r.value == (after.entities[e.id], disputed))
    && (r == Err(ConflictNotSaved) ==> disputed)
    && (r == Err(BaseNotSaved) ==> !disputed && e.state == Synced)
    && after.bases == if r.Ok? && !disputed && e.state == Synced then before.bases[e.id := after.entities[e.id].fields]
                      else before.bases
  }

  /** What calling the reconciliation comes to: a value, or a panic in place of the error. */
  datatype CallOutcome = Returned(value: Entity, conflict: bool) | Panicked(error: PullError)
  {
    ghost function Reconciled(): Result<(Entity, bool), PullError> {
      if Returned? then Ok((value, conflict)) else Err(error)
    }
  }

  /** What pulling a snapshot may do to the cache, outcome by outcome. */
  ghost predicate Pulled(before: Cache, after: Cache, canon: Normalizer, remote: Entity,
                         r: Result<(Entity, bool), PullError>) {
    if Blank(remote.remoteID) then r == Err(NoRemoteID) && after == before
    else
      var existing := before.Find(remote.remoteID.value);
      if Early(r) then after == before
      else if existing.None? then
        && r != Err(ConflictNotSaved)
        && Saved(before, after, canon, Adopt(remote))
        && (r.Ok? ==> r.value == (after.entities[remote.id], false))
        && after.bases == if r.Ok? then before.bases[remote.id := after.entities[remote.id].fields] else before.bases
      else if existing.value.deleted then
        r == Ok((existing.value, false)) && after == before
      else
        MergeStored(before, after, canon, existing.value, remote, r)
  }

  /** The entity a snapshot asks the store to keep. */
  ghost function ToSave(c: Cache, remote: Entity): Entity
    requires remote.remoteID.Some?
  {
    var existing := c.Find(remote.remoteID.value);
    if existing.None? then Adopt(remote) else Merge(existing.value, c.Base(existing.value.id), remote)
  }

  ghost predicate Storable(canon: Normalizer, e: Entity, faults: Faults) {
    !faults.upsert && canon(e.listID, e.fields).Some?
  }

  /** How a pull fails, if it does: decided by the cache, the snapshot and the failing calls. */
  ghost function Failure(c: Cache, canon: Normalizer, providerID: string, remote: Entity, faults: Faults)
      : Option<PullError> {
    if Blank(remote.remoteID) then Some(NoRemoteID)
    else if faults.lookup then Some(LookupFailed)
    else
      var existing := c.Find(remote.remoteID.value);
      if existing.None? then
        if !Storable(canon, Adopt(remote), faults) then Some(NotSaved)
        else if faults.saveBase then Some(BaseNotSaved)
        else None
      else if faults.loadBase then Some(BaseUnreadable)
      else if existing.value.deleted then None
      else MergeFailure(c, canon, providerID, existing.value, remote, faults)
  }

  ghost function MergeFailure(c: Cache, canon: Normalizer, providerID: string, e: Entity, remote: Entity,
                              faults: Faults)
      : Option<PullError> {
    if providerID == "" then Some(MergeFailed)
    else if !Storable(canon, Merge(e, c.Base(e.id), remote), faults) then Some(NotSaved)
    else FinishFailure(c, e, remote, faults)
  }

  /** One record is written for each disputed field, and a base only without any. */
  ghost function FinishFailure(c: Cache, e: Entity, remote: Entity, faults: Faults): Option<PullError> {
    if Disputed(e, c.Base(e.id), remote) then
      var records := |ConflictFields(c.Base(e.id), e.fields, remote.fields)|;
      if faults.saveConflict.Some? && faults.saveConflict.value < records then Some(ConflictNotSaved)
      else None
    else if e.state == Synced && faults.saveBase then Some(BaseNotSaved)
    else None
  }

  ghost function ErrorOf(r: Result<(Entity, bool), PullError>): Option<PullError> {
    if r.Err? then Some(r.error) else None
  }

  /** A synchronized entity merges to exactly what the remote side says. */
  lemma SyncedFollows(e: Entity, remote: Entity)
    requires e.state == Synced
    ensures !Disputed(e, e.fields, remote)
    ensures Merge(e, e.fields, remote) == e.(listID := remote.listID, fields := remote.fields)
  {
    UnchangedLocal(e.fields, remote.fields);
  }

  /** With matching bases, a pull leaves a synchronized entity with the remote fields and no conflict. */
  lemma SyncedFollowsRemote(before: Cache, after: Cache, canon: Normalizer, remote: Entity, value: Entity,
                            conflict: bool)
    requires Indexed(before) && BasesMatch(before)
    requires Pulled(before, after, canon, remote, Ok((value, conflict)))
    requires before.Find(remote.remoteID.value).Some?
    requires before.Find(remote.remoteID.value).value.state == Synced
               && !before.Find(remote.remoteID.value).value.deleted
    ensures Some(value.fields) == canon(remote.listID, remote.fields)
    ensures value.state == Synced && value.listID == remote.listID && !conflict
    ensures value.id == before.Find(remote.remoteID.value).value.id
    ensures after.bases[value.id] == value.fields
  {
    var e := before.Find(remote.remoteID.value).value;
    assert BaseMatches(before, e.id);
    SyncedFollows(e, remote);
  }

  /** A snapshot nobody has stored yet is stored as a synchronized entity, and its base with it. */
  lemma NewAdopted(before: Cache, after: Cache, canon: Normalizer, remote: Entity, value: Entity, conflict: bool)
    requires Pulled(before, after, canon, remote, Ok((value, conflict)))
    requires before.Find(remote.remoteID.value).None?
    ensures !conflict && value.id == remote.id && value.remoteID == remote.remoteID && value.listID == remote.listID
    ensures value.state == Synced && !value.deleted && Some(value.fields) == canon(remote.listID, remote.fields)
    ensures remote.id in after.entities && after.entities[remote.id] == value
    ensures remote.id in after.bases && after.bases[remote.id] == value.fields
  {
  }

  /** Both sides changed the field, each in its own way. */
  ghost predicate Clash(base: Fields, local: Fields, remote: Fields, field: string) {
    && Get(local, field) != Get(base, field) && Get(remote, field) != Get(base, field)
    && Get(local, field) != Get(remote, field)
  }

  /**
    A stored entity that is not deleted is in conflict exactly when some field clashes, and keeps its state
    otherwise. With local edits it keeps its fields and list; else it is merged field by field.
   */
  lemma KnownMerged(before: Cache, after: Cache, canon: Normalizer, remote: Entity, value: Entity, conflict: bool)
    requires Normal(before, canon) && Indexed(before) && Pulled(before, after, canon, remote, Ok((value, conflict)))
    requires before.Find(remote.remoteID.value).Some? && !before.Find(remote.remoteID.value).value.deleted
    ensures var e := before.Find(remote.remoteID.value).value;
            && (conflict <==> exists field :: Clash(before.Base(e.id), e.fields, remote.fields, field))
            && value.state == (if conflict then Conflicted else e.state)
            && value.id == e.id && value.remoteID == e.remoteID && !value.deleted
            && (if e.state in {Pending, Syncing, Failed, Conflicted} then
                  value.listID == e.listID && value.fields == e.fields
                else
                  && value.listID == remote.listID
                  && Some(value.fields) ==
                     canon(remote.listID, MergedFields(before.Base(e.id), e.fields, remote.fields)))
  {
    var e := before.Find(remote.remoteID.value).value;
    var base := before.Base(e.id);
    forall field
      ensures field in ConflictFields(base, e.fields, remote.fields) <==> Clash(base, e.fields, remote.fields, field)
    {
      FieldByField(base, e.fields, remote.fields, field);
    }
    assert Disputed(e, base, remote) <==> exists field :: field in ConflictFields(base, e.fields, remote.fields);
  }

  /** Where a snapshot is stored. */
  function Target(c: Cache, remote: Entity): string {
    if remote.remoteID.Some? && c.Find(remote.remoteID.value).Some? then c.Find(remote.remoteID.value).value.id
    else remote.id
  }

  /** A pull touches one entity and its base. */
  lemma PullTouchesTarget(before: Cache, after: Cache, canon: Normalizer, remote: Entity,
                          r: Result<(Entity, bool), PullError>, id: string)
    requires Indexed(before) && Pulled(before, after, canon, remote, r) && id != Target(before, remote)
    ensures id in after.entities <==> id in before.entities
    ensures id in before.entities ==> after.entities[id] == before.entities[id]
    ensures id in after.bases <==> id in before.bases
    ensures id in before.bases ==> after.bases[id] == before.bases[id]
  {
  }

  /** When the base is stored as well, the target's base matches. */
  lemma PullMatchesTarget(before: Cache, after: Cache, canon: Normalizer, remote: Entity,
                          r: Result<(Entity, bool), PullError>)
    requires Indexed(before) && BasesMatch(before) && Pulled(before, after, canon, remote, r)
    requires r != Err(BaseNotSaved)
    requires var id := Target(before, remote);
             id in after.entities && after.entities[id].state == Synced && !after.entities[id].deleted
    ensures BaseMatches(after, Target(before, remote))
  {
    var id := Target(before, remote);
    if id in before.entities && before.entities[id].state == Synced && !before.entities[id].deleted {
      assert BaseMatches(before, id);
    }
  }

  /** Without a failing base, a pull keeps bases matched. */
  lemma PullMatchesBases(before: Cache, after: Cache, canon: Normalizer, remote: Entity,
                         r: Result<(Entity, bool), PullError>)
    requires Indexed(before) && BasesMatch(before) && Pulled(before, after, canon, remote, r)
    requires r != Err(BaseNotSaved)
    ensures BasesMatch(after)
  {
    forall id | id in after.entities && after.entities[id].state == Synced && !after.entities[id].deleted
      ensures BaseMatches(after, id)
    {
      if id == Target(before, remote) {
        PullMatchesTarget(before, after, canon, remote, r);
      } else {
        PullTouchesTarget(before, after, canon, remote, r, id);
        assert BaseMatches(before, id);
      }
    }
  }

  /**
    The pull reaches a base that cannot be saved, and the snapshot changes what the base should say: the entity
    is new and no base of its ID says the same, or it is synchronized and has other fields.
   */
  ghost predicate LosesBase(c: Cache, canon: Normalizer, providerID: string, remote: Entity, faults: Faults) {
    && !Blank(remote.remoteID) && !faults.lookup && !faults.upsert && faults.saveBase
    && canon(remote.listID, remote.fields).Some?
    && var fields, existing := canon(remote.listID, remote.fields).value, c.Find(remote.remoteID.value);
       if existing.None? then !(remote.id in c.bases && c.bases[remote.id] == fields)
       else
         && !faults.loadBase && providerID != ""
         && existing.value.state == Synced && !existing.value.deleted && existing.value.fields != fields
  }

  /** What the pull asks the store to keep of a synchronized entity is the snapshot. */
  lemma LosesBaseFails(c: Cache, canon: Normalizer, providerID: string, remote: Entity, faults: Faults)
    requires Indexed(c) && BasesMatch(c)
    ensures LosesBase(c, canon, providerID, remote, faults) ==>
              Failure(c, canon, providerID, remote, faults) == Some(BaseNotSaved)
  {
    if LosesBase(c, canon, providerID, remote, faults) && c.Find(remote.remoteID.value).Some? {
      var e := c.Find(remote.remoteID.value).value;
      assert BaseMatches(c, e.id);
      SyncedFollows(e, remote);
    }
  }

  /** A base that could not be saved concerns a synchronized entity with the fields of the snapshot. */
  lemma BaseNotSavedTarget(before: Cache, after: Cache, canon: Normalizer, providerID: string, remote: Entity,
                           faults: Faults)
    requires Indexed(before) && BasesMatch(before) && Pulled(before, after, canon, remote, Err(BaseNotSaved))
    requires Failure(before, canon, providerID, remote, faults) == Some(BaseNotSaved)
    ensures var id := Target(before, remote);
            && id in after.entities && after.entities[id].state == Synced && !after.entities[id].deleted
            && (BaseMatches(after, id) <==> !LosesBase(before, canon, providerID, remote, faults))
  {
    var existing := before.Find(remote.remoteID.value);
    if existing.Some? {
      assert BaseMatches(before, existing.value.id);
      SyncedFollows(existing.value, remote);
    }
  }

  /** A pull keeps bases matched, exactly unless it loses the base of the snapshot. */
  lemma PullKeepsBases(before: Cache, after: Cache, canon: Normalizer, providerID: string, remote: Entity,
                       faults: Faults, r: Result<(Entity, bool), PullError>)
    requires Indexed(before) && BasesMatch(before) && Pulled(before, after, canon, remote, r)
    requires ErrorOf(r) == Failure(before, canon, providerID, remote, faults)
    ensures BasesMatch(after) <==> !LosesBase(before, canon, providerID, remote, faults)
  {
    LosesBaseFails(before, canon, providerID, remote, faults);
    if r == Err(BaseNotSaved) {
      BaseNotSavedTarget(before, after, canon, providerID, remote, faults);
      forall id | id in after.entities && id != Target(before, remote)
                  && after.entities[id].state == Synced && !after.entities[id].deleted
        ensures BaseMatches(after, id)
      {
        PullTouchesTarget(before, after, canon, remote, r, id);
        assert BaseMatches(before, id);
      }
    } else {
      PullMatchesBases(before, after, canon, remote, r);
    }
  }

  /** Local edits survive a pull; an entity not seen before must not take the identity of an edited one. */
  lemma PullKeepsEdits(before: Cache, after: Cache, canon: Normalizer, remote: Entity,
                       r: Result<(Entity, bool), PullError>)
    requires remote.remoteID.Some? && Indexed(before) && Normal(before, canon)
               && Pulled(before, after, canon, remote, r)
    requires before.Find(remote.remoteID.value).None? ==>
               remote.id !in before.entities || !HasLocalChanges(before.entities[remote.id].state)
    ensures EditsKept(before, after)
  {
    var target := Target(before, remote);
    forall id | id in before.entities && HasLocalChanges(before.entities[id].state)
      ensures EditKept(before, after, id)
    {
      if id == target {
        assert canon(before.entities[id].listID, before.entities[id].fields) == Some(before.entities[id].fields);
      } else {
        PullTouchesTarget(before, after, canon, remote, r, id);
      }
    }
  }

  // ----- a base that was not stored -----

  function Titled(title: string): Entity {
    Entity("task", Some("remote"), "list", Synced, false, map["title" := Text(title)])
  }

  function Lone(title: string, base: string): Cache {
    Cache(map["task" := Titled(title)], map["remote" := "task"], map["task" := map["title" := Text(base)]])
  }

  lemma LoneCache(title: string, base: string)
    ensures Indexed(Lone(title, base))
    ensures BasesMatch(Lone(title, base)) <==> title == base
  {
    var c := Lone(title, base);
    assert BaseMatches(c, "task") <==> c.bases["task"]["title"] == c.entities["task"].fields["title"];
  }

  lemma LonePull(canon: Normalizer)
    requires canon("list", Titled("two").fields) == Some(Titled("two").fields)
    ensures Pulled(Lone("one", "one"), Lone("two", "one"), canon, Titled("two"), Err(BaseNotSaved))
  {
    SyncedFollows(Titled("one"), Titled("two"));
    assert Lone("one", "one").Base("task") == Titled("one").fields;
    assert Lone("two", "one").entities == Lone("one", "one").entities["task" := Titled("two")];
  }

  lemma LoneDisputes()
    ensures Disputed(Titled("two"), Lone("two", "one").Base("task"), Titled("three"))
  {
    var base, local, remote := Lone("two", "one").Base("task"), Titled("two").fields, Titled("three").fields;
    assert Get(base, "title") == Some(Text("one"));
    assert "title" in ConflictFields(base, local, remote);
  }

  /** After a base was not stored, the next remote edit is a conflict on an entity nobody edited locally. */
  lemma LostBaseDisputes(canon: Normalizer)
    requires canon("list", Titled("two").fields) == Some(Titled("two").fields)
    ensures Indexed(Lone("one", "one")) && BasesMatch(Lone("one", "one"))
    ensures Pulled(Lone("one", "one"), Lone("two", "one"), canon, Titled("two"), Err(BaseNotSaved))
    ensures LosesBase(Lone("one", "one"), canon, "remote", Titled("two"),
                      Faults(false, false, false, true, None, false))
    ensures !BasesMatch(Lone("two", "one"))
    ensures Disputed(Titled("two"), Lone("two", "one").Base("task"), Titled("three"))
  {
    LoneCache("one", "one");
    LoneCache("two", "one");
    LonePull(canon);
    LoneDisputes();
  }

  /** A lookup that fails is a failure of the pull, and so a panic of its caller. */
  lemma LookupPanics(c: Cache, canon: Normalizer)
    ensures Failure(c, canon, "remote", Titled("one"), Faults(true, false, false, false, None, false)) ==
              Some(LookupFailed)
  {
    assert Text.Trim("remote") != "" by {
      Text.TrimmedStays("remote");
    }
  }

  // ----- the provider's cache -----

  /** Replacing an entity together with its index entries. */
  lemma StoredIndexed(c: Cache, e: Entity, remotes: map<string, string>)
    requires Indexed(c)
    requires e.remoteID.Some? && e.remoteID.value in c.byRemote ==> c.byRemote[e.remoteID.value] == e.id
    requires var kept := if e.id in c.entities && c.entities[e.id].remoteID.Some? then
                           c.byRemote - {c.entities[e.id].remoteID.value}
                         else c.byRemote;
             remotes == if e.remoteID.Some? then kept[e.remoteID.value := e.id] else kept
    ensures Indexed(Cache(c.entities[e.id := e], remotes, c.bases))
  {
    var after := c.entities[e.id := e];
    forall r | r in remotes
      ensures remotes[r] in after && after[remotes[r]].remoteID == Some(r)
    {
      if e.remoteID != Some(r) {
        assert r in c.byRemote && remotes[r] == c.byRemote[r] != e.id;
      }
    }
    forall id | id in after && after[id].remoteID.Some?
      ensures after[id].remoteID.value in remotes && remotes[after[id].remoteID.value] == id
    {
      if id != e.id {
        assert id in c.entities && c.byRemote[c.entities[id].remoteID.value] == id;
      }
    }
  }

  lemma StoredNormal(c: Cache, canon: Normalizer, e: Entity, remotes: map<string, string>)
    requires Normal(c, canon) && canon(e.listID, e.fields) == Some(e.fields)
    ensures Normal(Cache(c.entities[e.id := e], remotes, c.bases), canon)
  {
  }

  class CachedProvider {
    const providerID: string
    const canon: Normalizer
    var entities: map<string, Entity>
    var byRemote: map<string, string>
    var bases: map<string, Fields>
    var conflicts: map<string, FieldConflict<Json>>

    ghost predicate Valid()
      reads this
    {
      Indexed(State()) && Normal(State(), canon) && Idempotent(canon)
    }

    function State(): Cache
      reads this
    {
      Cache(entities, byRemote, bases)
    }

    constructor (providerID: string, canon: Normalizer)
      requires Idempotent(canon)
      ensures Valid() && BasesMatch(State()) && State() == Cache(map[], map[], map[])
    {
      this.providerID, this.canon := providerID, canon;
      entities, byRemote, bases, conflicts := map[], map[], map[], map[];
    }

    /** Insert or update by ID; the index on remote IDs admits one entity each. */
    method Upsert(e: Entity, fault: bool) returns (r: Option<Entity>)
      requires Valid()
      modifies `entities, `byRemote
      ensures Valid()
      ensures r.None? ==> State() == old(State())
      ensures r.Some? ==> Saved(old(State()), State(), canon, e) && r.value == entities[e.id]
      ensures r.Some? <==> !fault && canon(e.listID, e.fields).Some?
                           && (e.remoteID.Some? && e.remoteID.value in old(byRemote) ==>
                               old(byRemote)[e.remoteID.value] == e.id)
    {
      var fields := canon(e.listID, e.fields);
      if fault || fields.None?
        || (e.remoteID.Some? && e.remoteID.value in byRemote && byRemote[e.remoteID.value] != e.id) {
        return None;
      }
      var remotes := byRemote;
      if e.id in entities && entities[e.id].remoteID.Some? {
        remotes := remotes - {entities[e.id].remoteID.value};
      }
      if e.remoteID.Some? {
        remotes := remotes[e.remoteID.value := e.id];
      }
      var stored := e.(fields := fields.value);
      assert canon(e.listID, fields.value) == fields;
      StoredIndexed(State(), stored, remotes);
      StoredNormal(State(), canon, stored, remotes);
      entities, byRemote := entities[e.id := stored], remotes;
      r := Some(stored);
    }

    /** Deleted rows stay, as synchronized tombstones. */
    method Tombstone(id: string, fault: bool) returns (ok: bool)
      requires Valid()
      modifies `entities
      ensures Valid()
      ensures ok <==> !fault && id in old(entities)
      ensures entities == if ok then old(entities)[id := old(entities)[id].(state := Synced, deleted := true)]
                          else old(entities)
    {
      ok := !fault && id in entities;
      if ok {
        entities := entities[id := entities[id].(state := Synced, deleted := true)];
      }
    }

    /** One row per conflict, in order, up to the call that fails. */
    method RecordConflicts(found: seq<FieldConflict<Json>>, fault: Option<nat>) returns (ok: bool)
      requires DistinctIDs(found)
      modifies `conflicts
      ensures ok <==> fault.None? || fault.value >= |found|
      ensures forall k :: 0 <= k < |found| && (fault.None? || k < fault.value) ==>
                found[k].id in conflicts && conflicts[found[k].id] == found[k]
    {
      for i := 0 to |found|
        invariant fault.None? || i <= fault.value
        invariant forall k :: 0 <= k < i ==> found[k].id in conflicts && conflicts[found[k].id] == found[k]
      {
        if fault == Some(i) {
          return false;
        }
        conflicts := conflicts[found[i].id := found[i]];
      }
      ok := true;
    }

    method ReconcileEntity(remote: Entity, faults: Faults) returns (r: Result<(Entity, bool), PullError>)
      requires Valid()
      modifies `entities, `byRemote, `bases, `conflicts
      ensures Valid()
      ensures Pulled(old(State()), State(), canon, remote, r)
      ensures ErrorOf(r) == Failure(old(State()), canon, providerID, remote, faults)
      ensures BasesMatch(old(State())) ==>
                (BasesMatch(State()) <==> !LosesBase(old(State()), canon, providerID, remote, faults))
      ensures r.Ok? && r.value.1 ==> DisputesRecorded(old(State()).Find(remote.remoteID.value).value,
                                                      old(State()).Base(r.value.0.id), remote, conflicts)
    {
      r := PullEntity(remote, faults);
      if BasesMatch(old(State())) {
        PullKeepsBases(old(State()), State(), canon, providerID, remote, faults, r);
      }
    }

    method PullEntity(remote: Entity, faults: Faults) returns (r: Result<(Entity, bool), PullError>)
      requires Valid()
      modifies `entities, `byRemote, `bases, `conflicts
      ensures Valid()
      ensures Pulled(old(State()), State(), canon, remote, r)
      ensures ErrorOf(r) == Failure(old(State()), canon, providerID, remote, faults)
      ensures r.Ok? && r.value.1 ==> DisputesRecorded(old(State()).Find(remote.remoteID.value).value,
                                                      old(State()).Base(r.value.0.id), remote, conflicts)
    {
      if Blank(remote.remoteID) {
        return Err(NoRemoteID);
      }
      if faults.lookup {
        return Err(LookupFailed);
      }
      var found := State().Find(remote.remoteID.value);
      if found.None? {
        var value := Upsert(Adopt(remote), faults.upsert);
        if value.None? {
          return Err(NotSaved);
        }
        if faults.saveBase {
          return Err(BaseNotSaved);
        }
        bases := bases[value.value.id := value.value.fields];
        return Ok((value.value, false));
      }
      if faults.loadBase {
        return Err(BaseUnreadable);
      }
      var existing, base := found.value, State().Base(found.value.id);
      if existing.deleted {
        return Ok((existing, false));
      }
      r := MergeExisting(existing, base, remote, faults);
    }

    /**
      The caller of the reconciliation asserts the type of the value before it looks at the error, and with an
      error there is no value.
     */
    method ReconcileTask(remote: Entity, faults: Faults) returns (outcome: CallOutcome)
      requires Valid()
      modifies `entities, `byRemote, `bases, `conflicts
      ensures Valid()
      ensures Pulled(old(State()), State(), canon, remote, outcome.Reconciled())
      ensures outcome.Panicked? <==> Failure(old(State()), canon, providerID, remote, faults).Some?
      ensures outcome.Panicked? ==> Failure(old(State()), canon, providerID, remote, faults) == Some(outcome.error)
      ensures BasesMatch(old(State())) ==>
                (BasesMatch(State()) <==> !LosesBase(old(State()), canon, providerID, remote, faults))
    {
      var r := ReconcileEntity(remote, faults);
      outcome := match r
        case Ok((value, conflict)) => Returned(value, conflict)
        case Err(error) => Panicked(error);
      assert r == outcome.Reconciled();
    }

    /** The merge with the remote side, unless local edits are outstanding. */
    method MergeEntity(existing: Entity, base: Fields, remote: Entity)
        returns (r: Option<(Entity, seq<FieldConflict<Json>>)>)
      ensures r.None? <==> providerID == ""
      ensures r.Some? ==>
                && r.value.0 == Merge(existing, base, remote)
                && |r.value.1| == |ConflictFields(base, existing.fields, remote.fields)|
                && DistinctIDs(r.value.1)
                && RecordsAll(existing, base, remote, r.value.1)
    {
      var input := MergeInput(providerID, "", "", "", "task", existing.id, base, existing.fields, remote.fields);
      var merge := MergeFields(input);
      assert Named(input.ProviderIDs()) == if providerID == "" then {} else {providerID};
      if merge.Err? {
        return None;
      }
      var result := merge.value;
      RecordsCount(input, result.providerID, result.conflicts);
      RecordIDsDistinct(input, result.providerID, result.conflicts);
      RecordsCover(existing, base, remote, input, result.providerID, result.conflicts);
      var state := Synced;
      if existing.state != Synced {
        state := existing.state;
      }
      if |result.conflicts| > 0 {
        state := Conflicted;
      }
      var fields, list := result.fields, remote.listID;
      if HasLocalChanges(existing.state) {
        fields, list := existing.fields, existing.listID;
      }
      r := Some((existing.(state := state, listID := list, fields := fields), result.conflicts));
    }

    method MergeExisting(existing: Entity, base: Fields, remote: Entity, faults: Faults)
        returns (r: Result<(Entity, bool), PullError>)
      requires Valid() && base == State().Base(existing.id) && remote.remoteID.Some?
      requires State().Find(remote.remoteID.value) == Some(existing)
      modifies `entities, `byRemote, `bases, `conflicts
      ensures Valid()
      ensures if Early(r) then State() == old(State())
              else MergeStored(old(State()), State(), canon, existing, remote, r)
      ensures ErrorOf(r) == MergeFailure(old(State()), canon, providerID, existing, remote, faults)
      ensures r.Ok? && r.value.1 ==> DisputesRecorded(existing, base, remote, conflicts)
    {
      var merge := MergeEntity(existing, base, remote);
      if merge.None? {
        return Err(MergeFailed);
      }
      r := StoreMerge(existing, base, remote, merge.value.0, merge.value.1, faults);
    }

    method StoreMerge(existing: Entity, ghost base: Fields, ghost remote: Entity, merged: Entity,
                      found: seq<FieldConflict<Json>>, faults: Faults)
        returns (r: Result<(Entity, bool), PullError>)
      requires Valid() && base == State().Base(existing.id)
      requires existing.id in entities && entities[existing.id] == existing && merged == Merge(existing, base, remote)
      requires |found| == |ConflictFields(base, existing.fields, remote.fields)|
      requires DistinctIDs(found) && RecordsAll(existing, base, remote, found)
      modifies `entities, `byRemote, `bases, `conflicts
      ensures Valid()
      ensures if Early(r) then State() == old(State())
              else MergeStored(old(State()), State(), canon, existing, remote, r)
      ensures ErrorOf(r) == if Storable(canon, merged, faults) then
                              FinishFailure(old(State()), existing, remote, faults)
                            else Some(NotSaved)
      ensures r.Ok? && r.value.1 ==> DisputesRecorded(existing, base, remote, conflicts)
    {
      ghost var before := State();
      var value := Upsert(merged, faults.upsert);
      if value.None? {
        return Err(NotSaved);
      }
      r := FinishMerge(before, existing, base, remote, value.value, found, faults);
    }

    /** After the merge was stored: its conflicts, or the base both sides agree on. */
    method FinishMerge(ghost before: Cache, ghost existing: Entity, ghost base: Fields, ghost remote: Entity,
                       value: Entity, found: seq<FieldConflict<Json>>, faults: Faults)
        returns (r: Result<(Entity, bool), PullError>)
      requires Valid() && base == before.Base(existing.id) && bases == before.bases
      requires Saved(before, State(), canon, Merge(existing, base, remote)) && value == entities[existing.id]
      requires |found| == |ConflictFields(base, existing.fields, remote.fields)|
      requires DistinctIDs(found) && RecordsAll(existing, base, remote, found)
      modifies `bases, `conflicts
      ensures Valid() && entities == old(entities) && byRemote == old(byRemote)
      ensures MergeStored(before, State(), canon, existing, remote, r)
      ensures ErrorOf(r) == FinishFailure(before, existing, remote, faults)
      ensures r.Ok? && r.value.1 ==> DisputesRecorded(existing, base, remote, conflicts)
    {
      if |found| > 0 {
        var ok := RecordConflicts(found, faults.saveConflict);
        if !ok {
          return Err(ConflictNotSaved);
        }
        RecordsStored(existing, base, remote, found, conflicts);
        return Ok((value, true));
      }
      if value.state == Synced {
        if faults.saveBase {
          return Err(BaseNotSaved);
        }
        bases := bases[value.id := value.fields];
      }
      r := Ok((value, false));
    }

    /** A missing task is looked up remotely before it is given up. */
    method ReconcileMissingTask(task: Entity, seen: set<string>, reply: FetchReply, faults: Faults)
        returns (r: Option<MissingError>)
      requires Valid()
      modifies `entities, `byRemote, `bases, `conflicts
      ensures Valid()
      ensures r == MissingFailure(old(State()), canon, providerID, task, seen, reply, faults)
      ensures Current(old(State()), task) && Honest(task, reply) ==>
                EditsKept(old(State()), State()) && OthersUntouched(old(State()), State(), task.id)
      ensures Current(old(State()), task) && Honest(task, reply) && r.None? ==>
                Settled(State(), canon, BasesMatch(old(State())), task, seen, reply)
      ensures BasesMatch(old(State())) && (r.None? || !faults.saveBase) ==> BasesMatch(State())
    {
      if !Missing(task, seen) {
        return None;
      }
      match reply
      case Gone =>
        var ok := Tombstone(task.id, faults.tombstone);
        if ok {
          TombstoneKeeps(old(State()), State(), task.id);
        }
        r := if ok then None else Some(NotTombstoned);
      case FetchFailed =>
        r := Some(FetchError);
      case Fetched(remote, sameProvider, valid) =>
        if remote.id != task.id || !sameProvider {
          return Some(WrongIdentity);
        }
        if !valid {
          return Some(InvalidTask);
        }
        r := ReconcileFetched(task, remote, faults);
    }

    method ReconcileFetched(task: Entity, remote: Entity, faults: Faults) returns (r: Option<MissingError>)
      requires Valid() && task.remoteID.Some?
      modifies `entities, `byRemote, `bases, `conflicts
      ensures Valid()
      ensures Current(old(State()), task) && remote.remoteID == task.remoteID ==>
                && EditsKept(old(State()), State()) && OthersUntouched(old(State()), State(), task.id)
                && task.id in entities && !entities[task.id].deleted
      ensures Current(old(State()), task) && remote.remoteID == task.remoteID
              && BasesMatch(old(State())) && task.state == Synced && r.None? ==>
                Some(entities[task.id].fields) == canon(remote.listID, remote.fields)
      ensures BasesMatch(old(State())) && (r.None? || !faults.saveBase) ==> BasesMatch(State())
      ensures r == PanicOf(Failure(old(State()), canon, providerID, remote, faults))
    {
      var outcome := ReconcileTask(remote, faults);
      if Current(old(State()), task) && remote.remoteID == task.remoteID {
        MissingPull(old(State()), State(), canon, task, remote, outcome.Reconciled());
        if BasesMatch(old(State())) && task.state == Synced && outcome.Returned? {
          SyncedFollowsRemote(old(State()), State(), canon, remote, outcome.value, outcome.conflict);
        }
      }
      if BasesMatch(old(State())) {
        LosesBaseFails(old(State()), canon, providerID, remote, faults);
      }
      r := if outcome.Returned? then None else Some(PullPanicked(outcome.error));
    }

    /** The tasks of the cached listing, one after the other; the first failure ends the pull. */
    method ReconcileMissingTasks(listed: seq<Entity>, listFault: bool, seen: set<string>, replies: seq<FetchReply>,
                                 faults: seq<Faults>)
        returns (r: Option<MissingError>)
      requires Valid() && |replies| == |faults| == |listed|
      requires Listed(State(), listed)
      modifies `entities, `byRemote, `bases, `conflicts
      ensures Valid()
      ensures listFault ==> r == Some(NotListed) && State() == old(State())
      ensures AllHonest(listed, replies) ==> EditsKept(old(State()), State())
      ensures AllHonest(listed, replies) && r.None? ==>
                forall k :: 0 <= k < |listed| ==>
                  Settled(State(), canon, BasesMatch(old(State())), listed[k], seen, replies[k])
      ensures BasesMatch(old(State())) && r.None? ==> BasesMatch(State())
      ensures r.Some? && !listFault ==>
                exists k, c :: StoppedAt(old(State()), c, State(), canon, providerID, listed, seen, replies, faults, k,
                                         r.value)
    {
      if listFault {
        return Some(NotListed);
      }
      for i := 0 to |listed|
        invariant Valid()
        invariant AllHonest(listed, replies) ==> Reached(old(State()), State(), canon, listed, seen, replies, i)
        invariant BasesMatch(old(State())) ==> BasesMatch(State())
      {
        ghost var before := State();
        if AllHonest(listed, replies) {
          assert Current(before, listed[i]) && Honest(listed[i], replies[i]);
        }
        r := ReconcileMissingTask(listed[i], seen, replies[i], faults[i]);
        if AllHonest(listed, replies) {
          EditsKeptTransitive(old(State()), before, State());
          if r.None? {
            ReachedNext(old(State()), before, State(), canon, listed, seen, replies, i);
          }
        }
        if r.Some? {
          assert StoppedAt(old(State()), before, State(), canon, providerID, listed, seen, replies, faults, i, r.value);
          return;
        }
      }
      r := None;
    }
  }

  // ----- tasks missing from a complete remote listing -----

  datatype FetchReply = Gone | FetchFailed | Fetched(remote: Entity, sameProvider: bool, valid: bool)

  datatype MissingError =
    NotListed | FetchError | WrongIdentity | InvalidTask | NotTombstoned | PullPanicked(error: PullError)

  /** Remotely known tasks without local edits that the listing did not mention. */
  predicate Missing(task: Entity, seen: set<string>) {
    task.remoteID.Some? && task.remoteID.value !in seen && !HasLocalChanges(task.state)
  }

  /** The provider answers for the remote task that was asked for. */
  ghost predicate Honest(task: Entity, reply: FetchReply) {
    reply.Fetched? && reply.remote.id == task.id ==> reply.remote.remoteID == task.remoteID
  }

  ghost function PanicOf(error: Option<PullError>): Option<MissingError> {
    if error.Some? then Some(PullPanicked(error.value)) else None
  }

  /** What the provider says about a missing task can be used. */
  ghost predicate Usable(task: Entity, reply: FetchReply) {
    reply.Gone? || (reply.Fetched? && reply.remote.id == task.id && reply.sameProvider && reply.valid)
  }

  /** Why a missing task stays unsettled, if it does. */
  ghost function MissingFailure(c: Cache, canon: Normalizer, providerID: string, task: Entity, seen: set<string>,
                                reply: FetchReply, faults: Faults): Option<MissingError> {
    if !Missing(task, seen) then None
    else if Usable(task, reply) then
      if reply.Fetched? then PanicOf(Failure(c, canon, providerID, reply.remote, faults))
      else if faults.tombstone || task.id !in c.entities then Some(NotTombstoned)
      else None
    else if reply.FetchFailed? then Some(FetchError)
    else Some(if reply.remote.id == task.id && reply.sameProvider then InvalidTask else WrongIdentity)
  }

  ghost predicate OthersUntouched(before: Cache, after: Cache, id: string) {
    forall other :: other != id ==> SameRow(before, after, other)
  }

  ghost predicate SameRow(before: Cache, after: Cache, id: string) {
    && (id in after.entities <==> id in before.entities)
    && (id in before.entities ==> after.entities[id] == before.entities[id])
  }

  /** The faithful answer for a missing task touches that task alone. */
  lemma MissingPull(before: Cache, after: Cache, canon: Normalizer, task: Entity, remote: Entity,
                    r: Result<(Entity, bool), PullError>)
    requires Indexed(before) && Normal(before, canon) && task.id in before.entities && before.entities[task.id] == task
    requires task.remoteID.Some? && remote.remoteID == task.remoteID && !task.deleted
    requires Pulled(before, after, canon, remote, r)
    ensures EditsKept(before, after) && OthersUntouched(before, after, task.id)
    ensures task.id in after.entities && !after.entities[task.id].deleted
  {
    assert before.Find(remote.remoteID.value) == Some(task);
    PullKeepsEdits(before, after, canon, remote, r);
    forall other | other != task.id
      ensures SameRow(before, after, other)
    {
      PullTouchesTarget(before, after, canon, remote, r, other);
    }
  }

  lemma TombstoneKeeps(before: Cache, after: Cache, id: string)
    requires id in before.entities
    requires after == before.(entities := before.entities[id := before.entities[id].(state := Synced, deleted := true)])
    ensures !HasLocalChanges(before.entities[id].state) ==> EditsKept(before, after)
    ensures OthersUntouched(before, after, id)
    ensures BasesMatch(before) ==> BasesMatch(after)
  {
    forall other | BasesMatch(before) && other in after.entities && after.entities[other].state == Synced
                   && !after.entities[other].deleted
      ensures BaseMatches(after, other)
    {
      assert BaseMatches(before, other);
    }
  }

  /** The snapshot of a task still shows what is stored. */
  ghost predicate Current(c: Cache, task: Entity) {
    task.id in c.entities && c.entities[task.id] == task && !task.deleted
  }

  /** The listing a pull starts from: stored tasks, each once. */
  ghost predicate Listed(c: Cache, listed: seq<Entity>) {
    && (forall k :: 0 <= k < |listed| ==> Current(c, listed[k]))
    && forall i, j :: 0 <= i < j < |listed| ==> listed[i].id != listed[j].id
  }

  ghost predicate AllHonest(listed: seq<Entity>, replies: seq<FetchReply>)
    requires |replies| == |listed|
  {
    forall k :: 0 <= k < |listed| ==> Honest(listed[k], replies[k])
  }

  /**
    A task is tombstoned exactly when it is missing and the provider no longer has it; a missing task the provider
    still has follows it, and no other task changes.
   */
  ghost predicate Settled(c: Cache, canon: Normalizer, matched: bool, task: Entity, seen: set<string>,
                          reply: FetchReply) {
    && task.id in c.entities && (c.entities[task.id].deleted <==> Missing(task, seen) && reply.Gone?)
    && (if Missing(task, seen) then Usable(task, reply) else c.entities[task.id] == task)
    && (matched && Missing(task, seen) && reply.Fetched? && task.state == Synced ==>
          Some(c.entities[task.id].fields) == canon(reply.remote.listID, reply.remote.fields))
  }

  lemma ListedStays(before: Cache, after: Cache, listed: seq<Entity>, i: nat)
    requires i < |listed| && OthersUntouched(before, after, listed[i].id)
    requires forall k, l :: 0 <= k < l < |listed| ==> listed[k].id != listed[l].id
    requires forall k :: i < k < |listed| ==> Current(before, listed[k])
    ensures forall k :: i < k < |listed| ==> Current(after, listed[k])
  {
    forall k | i < k < |listed|
      ensures Current(after, listed[k])
    {
      assert Current(before, listed[k]) && SameRow(before, after, listed[k].id);
    }
  }

  lemma SettledStays(before: Cache, after: Cache, canon: Normalizer, matched: bool, listed: seq<Entity>,
                     seen: set<string>, replies: seq<FetchReply>, i: nat)
    requires i < |listed| == |replies| && OthersUntouched(before, after, listed[i].id)
    requires forall k, l :: 0 <= k < l < |listed| ==> listed[k].id != listed[l].id
    requires forall k :: 0 <= k < i ==> Settled(before, canon, matched, listed[k], seen, replies[k])
    ensures forall k :: 0 <= k < i ==> Settled(after, canon, matched, listed[k], seen, replies[k])
  {
    forall k | 0 <= k < i
      ensures Settled(after, canon, matched, listed[k], seen, replies[k])
    {
      assert Settled(before, canon, matched, listed[k], seen, replies[k]) && SameRow(before, after, listed[k].id);
    }
  }

  /** The tasks before i are settled, the others still as listed, and no local edit was lost. */
  ghost predicate Reached(start: Cache, c: Cache, canon: Normalizer, listed: seq<Entity>, seen: set<string>,
                          replies: seq<FetchReply>, i: nat)
    requires i <= |listed| == |replies|
  {
    && EditsKept(start, c)
    && (forall k, l :: 0 <= k < l < |listed| ==> listed[k].id != listed[l].id)
    && (forall k :: i <= k < |listed| ==> Current(c, listed[k]))
    && forall k :: 0 <= k < i ==> Settled(c, canon, BasesMatch(start), listed[k], seen, replies[k])
  }

  lemma ReachedNext(start: Cache, before: Cache, after: Cache, canon: Normalizer, listed: seq<Entity>,
                    seen: set<string>, replies: seq<FetchReply>, i: nat)
    requires i < |listed| == |replies| && Reached(start, before, canon, listed, seen, replies, i)
    requires EditsKept(start, after) && OthersUntouched(before, after, listed[i].id)
    requires Settled(after, canon, BasesMatch(start), listed[i], seen, replies[i])
    ensures Reached(start, after, canon, listed, seen, replies, i + 1)
  {
    ListedStays(before, after, listed, i);
    SettledStays(before, after, canon, BasesMatch(start), listed, seen, replies, i);
  }

  /** The pull reached task k in state c, where that task could not be settled. */
  ghost predicate StoppedAt(start: Cache, c: Cache, after: Cache, canon: Normalizer, providerID: string,
                            listed: seq<Entity>, seen: set<string>, replies: seq<FetchReply>, faults: seq<Faults>,
                            k: nat, error: MissingError)
    requires |replies| == |faults| == |listed|
  {
    && k < |listed|
    && MissingFailure(c, canon, providerID, listed[k], seen, replies[k], faults[k]) == Some(error)
    && (AllHonest(listed, replies) ==>
          Reached(start, c, canon, listed, seen, replies, k) && OthersUntouched(c, after, listed[k].id))
  }

  ghost predicate DistinctIDs(found: seq<FieldConflict<Json>>) {
    forall i, j :: 0 <= i < j < |found| ==> found[i].id != found[j].id
  }

  ghost predicate RecordOf(c: FieldConflict<Json>, existing: Entity, base: Fields, remote: Entity, field: string) {
    && c.entityID == existing.id && c.field == field
    && c.base == Get(base, field) && c.local == Get(existing.fields, field) && c.remote == Get(remote.fields, field)
  }

  ghost predicate RecordsAll(existing: Entity, base: Fields, remote: Entity, found: seq<FieldConflict<Json>>) {
    forall field :: field in ConflictFields(base, existing.fields, remote.fields) ==>
      exists i :: 0 <= i < |found| && RecordOf(found[i], existing, base, remote, field)
  }

  /** Every overlapping field has its record in the store. */
  ghost predicate DisputesRecorded(existing: Entity, base: Fields, remote: Entity,
                                   conflicts: map<string, FieldConflict<Json>>) {
    forall field :: field in ConflictFields(base, existing.fields, remote.fields) ==>
      exists id :: id in conflicts && RecordOf(conflicts[id], existing, base, remote, field)
  }

  lemma RecordsStored(existing: Entity, base: Fields, remote: Entity, found: seq<FieldConflict<Json>>,
                      conflicts: map<string, FieldConflict<Json>>)
    requires RecordsAll(existing, base, remote, found)
    requires forall c :: c in found ==> c.id in conflicts && conflicts[c.id] == c
    ensures DisputesRecorded(existing, base, remote, conflicts)
  {
    forall field | field in ConflictFields(base, existing.fields, remote.fields)
      ensures exists id :: id in conflicts && RecordOf(conflicts[id], existing, base, remote, field)
    {
      var i :| 0 <= i < |found| && RecordOf(found[i], existing, base, remote, field);
      assert found[i] in found;
      assert RecordOf(conflicts[found[i].id], existing, base, remote, field);
    }
  }

  lemma RecordIDsDistinct(input: MergeInput<Json>, provider: string, found: seq<FieldConflict<Json>>)
    requires Records(input, provider, found)
    ensures DistinctIDs(found)
  {
    forall i, j | 0 <= i < j < |found|
      ensures found[i].id != found[j].id
    {
      assert found[i] in found && found[j] in found;
      Text.LessIrreflexive(found[i].field);
      var prefix := provider + ":" + input.entityType + ":" + input.entityID + ":";
      assert found[i].id == prefix + found[i].field && found[j].id == prefix + found[j].field;
      assert found[i].id[|prefix|..] == found[i].field && found[j].id[|prefix|..] == found[j].field;
    }
  }

  /** There are as many records as disputed fields. */
  lemma RecordsCount(input: MergeInput<Json>, provider: string, found: seq<FieldConflict<Json>>)
    requires Records(input, provider, found)
    ensures |found| == |ConflictFields(input.base, input.local, input.remote)|
  {
    var names := Map((c: FieldConflict<Json>) => c.field, found);
    forall i, j | 0 <= i < j < |names|
      ensures names[i] != names[j]
    {
      Text.LessIrreflexive(found[i].field);
    }
    DistinctCardinality(names);
  }

  lemma RecordsCover(existing: Entity, base: Fields, remote: Entity, input: MergeInput<Json>, provider: string,
                     found: seq<FieldConflict<Json>>)
    requires Records(input, provider, found)
    requires input.base == base && input.local == existing.fields && input.remote == remote.fields
               && input.entityID == existing.id
    ensures RecordsAll(existing, base, remote, found)
  {
    var names := Map((c: FieldConflict<Json>) => c.field, found);
    forall field | field in ConflictFields(base, existing.fields, remote.fields)
      ensures exists i :: 0 <= i < |found| && RecordOf(found[i], existing, base, remote, field)
    {
      assert field in Elements(names);
      var i :| 0 <= i < |names| && names[i] == field;
      assert found[i] in found && found[i] == ConflictAt(input, provider, field);
      assert RecordOf(found[i], existing, base, remote, field);
    }
  }
}

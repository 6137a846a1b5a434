/**
  The durable payload of a task mutation. It carries the task as stored and the
  patch that led there; the decoder applies the patch once more.
 */
module MutationPayload {
  import opened Common
  import opened TaskPatch

  /** The names of the wire format. */
  datatype Name =
    | Version | ProviderID | TaskID | Snapshot | RemoteID
    | ListID | ListIDs | AddListIDs | RemoveListIDs | ParentTaskID | Assignee | Title | Description | StatusName
    | Priority | DueAt | CompletedAt | ClearParentTask | ClearDueAt | ClearCompletedAt

  datatype Field = Number(n: int) | Text(text: string) | Texts(texts: seq<string>) | Flag(on: bool) | Instant(at: int)
                 | TaskObject(task: TaskRecord)

  /** A JSON object: the fields that are present. */
  type Object = map<Name, Field>

  const VERSION := 1

  datatype Payload = Payload(
    version: int, providerID: string, taskID: string, snapshot: Option<TaskRecord>, remoteID: Option<string>,
    create: Option<TaskRecord>, patch: Option<Patch>)

  function CreatePayload(task: TaskRecord): Payload {
    Payload(VERSION, task.providerID, task.id, Some(task), None, Some(task), None)
  }

  function UpdatePayload(task: TaskRecord, patch: Patch): Payload {
    Payload(VERSION, task.providerID, task.id, Some(task), None, None, Some(patch))
  }

  function DeletePayload(task: TaskRecord): Payload {
    Payload(VERSION, task.providerID, task.id, Some(task), task.remoteID, None, None)
  }

  // ----- writing -----

  function TextUnlessEmpty(text: string): Option<Field> { if text == "" then None else Some(Text(text)) }

  function TextOf(text: Option<string>): Option<Field> { if text.Some? then Some(Text(text.value)) else None }

  function TextsOf(texts: seq<string>): Option<Field> { if texts == [] then None else Some(Texts(texts)) }

  function InstantOf(at: Option<int>): Option<Field> { if at.Some? then Some(Instant(at.value)) else None }

  function FlagOf(on: bool): Option<Field> { if on then Some(Flag(true)) else None }

  function HeaderField(p: Payload, name: Name): Option<Field> {
    match name
    case Version => Some(Number(p.version))
    case ProviderID => Some(Text(p.providerID))
    case TaskID => Some(Text(p.taskID))
    case Snapshot => if p.snapshot.Some? then Some(TaskObject(p.snapshot.value)) else None
    case RemoteID => TextOf(p.remoteID)
    case _ => None
  }

  /** The provider-neutral fields of a new task. */
  function CreateField(t: TaskRecord, name: Name): Option<Field> {
    match name
    case ListID => Some(Text(t.listID))
    case ListIDs => TextsOf(Memberships(t))
    case ParentTaskID => TextOf(t.parentTaskID)
    case Assignee => TextUnlessEmpty(t.assignee)
    case Title => Some(Text(t.title))
    case Description => TextUnlessEmpty(t.description)
    case StatusName => TextUnlessEmpty(t.status)
    case Priority => Some(Text(t.priority))
    case DueAt => InstantOf(t.dueAt)
    case CompletedAt => InstantOf(t.completedAt)
    case _ => None
  }

  function PatchField(p: Patch, name: Name): Option<Field> {
    match name
    case ListID => TextOf(p.listID)
    case AddListIDs => TextsOf(p.addListIDs)
    case RemoveListIDs => TextsOf(p.removeListIDs)
    case ParentTaskID => TextOf(p.parentTaskID)
    case Assignee => TextOf(p.assignee)
    case Title => TextOf(p.title)
    case Description => TextOf(p.description)
    case StatusName => TextOf(p.status)
    case Priority => TextOf(p.priority)
    case DueAt => InstantOf(p.dueAt)
    case CompletedAt => InstantOf(p.completedAt)
    case ClearParentTask => FlagOf(p.clearParentTask)
    case ClearDueAt => FlagOf(p.clearDueAt)
    case ClearCompletedAt => FlagOf(p.clearCompletedAt)
    case _ => None
  }

  /** Later parts of the payload overwrite earlier ones. */
  function FieldOf(p: Payload, name: Name): Option<Field> {
    if p.patch.Some? && PatchField(p.patch.value, name).Some? then PatchField(p.patch.value, name)
    else if p.create.Some? && CreateField(p.create.value, name).Some? then CreateField(p.create.value, name)
    else HeaderField(p, name)
  }

  function Marshal(p: Payload): Object {
    map name: Name | FieldOf(p, name).Some? :: FieldOf(p, name).value
  }

  // ----- reading -----

  function ReadText(o: Object, name: Name): Option<string> {
    if name in o && o[name].Text? then Some(o[name].text) else None
  }

  function OrEmpty(text: Option<string>): string { if text.Some? then text.value else "" }

  function ReadTexts(o: Object, name: Name): seq<string> {
    if name in o && o[name].Texts? then o[name].texts else []
  }

  function ReadInstant(o: Object, name: Name): Option<int> {
    if name in o && o[name].Instant? then Some(o[name].at) else None
  }

  predicate ReadFlag(o: Object, name: Name) { name in o && o[name] == Flag(true) }

  function ReadPatch(o: Object): Patch {
    Patch(ReadText(o, ListID), ReadTexts(o, AddListIDs), ReadTexts(o, RemoveListIDs), ReadText(o, ParentTaskID),
          ReadText(o, Assignee), ReadText(o, Title), ReadText(o, Description), ReadText(o, StatusName),
          ReadText(o, Priority), ReadInstant(o, DueAt), ReadInstant(o, CompletedAt),
          ReadFlag(o, ClearParentTask), ReadFlag(o, ClearDueAt), ReadFlag(o, ClearCompletedAt))
  }

  const NO_CHANGES := Patch(None, [], [], None, None, None, None, None, None, None, None, false, false, false)

  /** The type each name must have. */
  predicate WellTyped(o: Object) {
    forall name :: name in o ==>
      match name
      case Version => o[name].Number?
      case Snapshot => o[name].TaskObject?
      case ListIDs => o[name].Texts?
      case AddListIDs => o[name].Texts?
      case RemoveListIDs => o[name].Texts?
      case DueAt => o[name].Instant?
      case CompletedAt => o[name].Instant?
      case ClearParentTask => o[name].Flag?
      case ClearDueAt => o[name].Flag?
      case ClearCompletedAt => o[name].Flag?
      case _ => o[name].Text?
  }

  /** An object with list_ids is a create payload; any other may carry a patch. */
  function Unmarshal(o: Object): Option<Payload> {
    if !WellTyped(o) then None
    else
      var patch := ReadPatch(o);
      Some(Payload(
        if Version in o then o[Version].n else 0, OrEmpty(ReadText(o, ProviderID)), OrEmpty(ReadText(o, TaskID)),
        if Snapshot in o then Some(o[Snapshot].task) else None, ReadText(o, RemoteID), None,
        if ListIDs in o || patch == NO_CHANGES then None else Some(patch)))
  }

  datatype Kind = Create | Update | Complete | Move | Delete

  datatype QueuedOperation = QueuedOperation(kind: Kind, providerID: string, entityID: string, payload: Option<Object>)

  datatype DecodeError = EmptyPayload | Malformed | Unsupported | WrongIdentity | NoSnapshot | BadPatch

  /** What decoding an operation means. */
  ghost function Decoded(op: QueuedOperation, legacy: Object -> Option<TaskRecord>): Result<TaskRecord, DecodeError> {
    if op.payload.None? then Err(EmptyPayload)
    else if Unmarshal(op.payload.value).None? then Err(Malformed)
    else
      var p := Unmarshal(op.payload.value).value;
      if p.version == 0 then
        var task := legacy(op.payload.value);
        if task.Some? && task.value.id != "" then Ok(task.value) else Err(Unsupported)
      else if !Addressed(p, op) then Err(WrongIdentity)
      else if p.snapshot.None? then Err(NoSnapshot)
      else if p.snapshot.value.providerID != p.providerID || p.snapshot.value.id != p.taskID then Err(WrongIdentity)
      else if p.patch.None? || op.kind == Delete then Ok(p.snapshot.value)
      else if Applied(p.patch.value, p.snapshot.value).Ok? then Ok(Applied(p.patch.value, p.snapshot.value).value)
      else Err(BadPatch)
  }

  /** The payload names this version, and the operation's provider and entity. */
  ghost predicate Addressed(p: Payload, op: QueuedOperation) {
    p.version == VERSION && p.providerID == op.providerID && p.taskID == op.entityID
  }

  /** The task to push. Rows of the older format are plain tasks, read by legacy. */
  method DecodeTaskMutationPayload(op: QueuedOperation, legacy: Object -> Option<TaskRecord>)
      returns (r: Result<TaskRecord, DecodeError>)
    ensures r == Decoded(op, legacy)
  {
    if op.payload.None? {
      return Err(EmptyPayload);
    }
    var payload := Unmarshal(op.payload.value);
    if payload.None? {
      return Err(Malformed);
    }
    var p := payload.value;
    if p.version == 0 {
      var task := legacy(op.payload.value);
      return if task.None? || task.value.id == "" then Err(Unsupported) else Ok(task.value);
    }
    if p.version != VERSION || p.providerID != op.providerID || p.taskID != op.entityID {
      return Err(WrongIdentity);
    }
    if p.snapshot.None? {
      return Err(NoSnapshot);
    }
    var task := p.snapshot.value;
    if task.providerID != p.providerID || task.id != p.taskID {
      return Err(WrongIdentity);
    }
    if p.patch.Some? && op.kind != Delete {
      var updated := Apply(p.patch.value, task);
      if updated.Err? {
        return Err(BadPatch);
      }
      task := updated.value;
    }
    r := Ok(task);
  }

  // ----- what is read back -----

  lemma MarshalledTypes(p: Payload)
    ensures WellTyped(Marshal(p))
  {
  }

  /** The header survives whatever else the payload carries. */
  lemma HeaderReadBack(p: Payload)
    ensures Unmarshal(Marshal(p)).Some?
    ensures var q := Unmarshal(Marshal(p)).value;
            q.version == p.version && q.providerID == p.providerID && q.taskID == p.taskID
            && q.snapshot == p.snapshot && q.remoteID == p.remoteID
  {
    MarshalledTypes(p);
    FieldReadBack(p, Version);
    FieldReadBack(p, Snapshot);
    TextReadBack(p, ProviderID, Some(p.providerID));
    TextReadBack(p, TaskID, Some(p.taskID));
    TextReadBack(p, RemoteID, p.remoteID);
  }

  /** Without create fields the patch is read back, unless it says nothing. */
  lemma PatchReadBack(p: Payload)
    requires p.create.None?
    ensures Unmarshal(Marshal(p)).Some?
    ensures Unmarshal(Marshal(p)).value.patch == if p.patch == Some(NO_CHANGES) then None else p.patch
  {
    MarshalledTypes(p);
    FieldReadBack(p, ListIDs);
    PatchFieldsReadBack(p);
  }

  lemma FieldReadBack(p: Payload, name: Name)
    ensures name in Marshal(p) <==> FieldOf(p, name).Some?
    ensures name in Marshal(p) ==> Marshal(p)[name] == FieldOf(p, name).value
  {
  }

  lemma TextReadBack(p: Payload, name: Name, text: Option<string>)
    requires FieldOf(p, name) == TextOf(text)
    ensures ReadText(Marshal(p), name) == text
  {
    FieldReadBack(p, name);
  }

  lemma TextsReadBack(p: Payload, name: Name, texts: seq<string>)
    requires FieldOf(p, name) == TextsOf(texts)
    ensures ReadTexts(Marshal(p), name) == texts
  {
    FieldReadBack(p, name);
  }

  lemma InstantReadBack(p: Payload, name: Name, at: Option<int>)
    requires FieldOf(p, name) == InstantOf(at)
    ensures ReadInstant(Marshal(p), name) == at
  {
    FieldReadBack(p, name);
  }

  lemma FlagReadBack(p: Payload, name: Name, on: bool)
    requires FieldOf(p, name) == FlagOf(on)
    ensures ReadFlag(Marshal(p), name) == on
  {
    FieldReadBack(p, name);
  }

  /** The patch of a payload; none says the same as one without changes. */
  function Says(p: Payload): Patch { if p.patch.Some? then p.patch.value else NO_CHANGES }

  lemma TextsOfPatch(p: Payload)
    requires p.create.None?
    ensures var o, patch := Marshal(p), Says(p);
            && ReadText(o, Assignee) == patch.assignee && ReadText(o, Title) == patch.title
            && ReadText(o, Description) == patch.description && ReadText(o, StatusName) == patch.status
            && ReadText(o, Priority) == patch.priority
  {
    var patch := Says(p);
    TextReadBack(p, Assignee, patch.assignee);
    TextReadBack(p, Title, patch.title);
    TextReadBack(p, Description, patch.description);
    TextReadBack(p, StatusName, patch.status);
    TextReadBack(p, Priority, patch.priority);
  }

  lemma ListsOfPatch(p: Payload)
    requires p.create.None?
    ensures var o, patch := Marshal(p), Says(p);
            && ReadText(o, ListID) == patch.listID && ReadText(o, ParentTaskID) == patch.parentTaskID
            && ReadTexts(o, AddListIDs) == patch.addListIDs && ReadTexts(o, RemoveListIDs) == patch.removeListIDs
  {
    var patch := Says(p);
    TextReadBack(p, ListID, patch.listID);
    TextReadBack(p, ParentTaskID, patch.parentTaskID);
    TextsReadBack(p, AddListIDs, patch.addListIDs);
    TextsReadBack(p, RemoveListIDs, patch.removeListIDs);
  }

  lemma TimesOfPatch(p: Payload)
    requires p.create.None?
    ensures var o, patch := Marshal(p), Says(p);
            && ReadInstant(o, DueAt) == patch.dueAt && ReadInstant(o, CompletedAt) == patch.completedAt
            && ReadFlag(o, ClearParentTask) == patch.clearParentTask && ReadFlag(o, ClearDueAt) == patch.clearDueAt
            && ReadFlag(o, ClearCompletedAt) == patch.clearCompletedAt
  {
    var patch := Says(p);
    InstantReadBack(p, DueAt, patch.dueAt);
    InstantReadBack(p, CompletedAt, patch.completedAt);
    FlagReadBack(p, ClearParentTask, patch.clearParentTask);
    FlagReadBack(p, ClearDueAt, patch.clearDueAt);
    FlagReadBack(p, ClearCompletedAt, patch.clearCompletedAt);
  }

  lemma PatchFieldsReadBack(p: Payload)
    requires p.create.None?
    ensures ReadPatch(Marshal(p)) == Says(p)
  {
    TextsOfPatch(p);
    ListsOfPatch(p);
    TimesOfPatch(p);
  }

  lemma CreateHasNoPatch(task: TaskRecord)
    ensures var p := Unmarshal(Marshal(CreatePayload(task)));
            p.Some? && (if Memberships(task) == [] then p.value.patch.Some? && p.value.patch.value.listID == Some("")
                        else p.value.patch == None)
  {
    var p := CreatePayload(task);
    MarshalledTypes(p);
    var o := Marshal(p);
    assert ListIDs in o <==> FieldOf(p, ListIDs).Some?;
    assert ListID in o <==> FieldOf(p, ListID).Some?;
  }

  // ----- the queue keeps the meaning of every mutation -----

  ghost predicate For(op: QueuedOperation, task: TaskRecord, payload: Payload) {
    op.providerID == task.providerID && op.entityID == task.id && op.payload == Some(Marshal(payload))
  }

  /** A created task is decoded as stored, exactly when it has a list. */
  lemma CreateDecodes(op: QueuedOperation, task: TaskRecord, legacy: Object -> Option<TaskRecord>)
    requires op.kind == Create && For(op, task, CreatePayload(task))
    ensures Decoded(op, legacy) == Ok(task) <==> Memberships(task) != []
  {
    HeaderReadBack(CreatePayload(task));
    CreateHasNoPatch(task);
  }

  /** Beside the snapshot, a created task's fields are written one by one, empty ones left out. */
  lemma CreateFieldsWritten(task: TaskRecord)
    ensures var o := Marshal(CreatePayload(task));
            && ReadText(o, Title) == Some(task.title) && ReadText(o, Priority) == Some(task.priority)
            && (if task.assignee == "" then Assignee !in o else ReadText(o, Assignee) == Some(task.assignee))
            && (if task.description == "" then Description !in o
                else ReadText(o, Description) == Some(task.description))
            && (if task.status == "" then StatusName !in o else ReadText(o, StatusName) == Some(task.status))
  {
    hide Marshal;
    var p := CreatePayload(task);
    FieldReadBack(p, Title);
    FieldReadBack(p, Priority);
    FieldReadBack(p, Assignee);
    FieldReadBack(p, Description);
    FieldReadBack(p, StatusName);
  }

  /** So are its lists, its parent and its times. */
  lemma CreatePlaceWritten(task: TaskRecord)
    ensures var o := Marshal(CreatePayload(task));
            && ReadText(o, ListID) == Some(task.listID) && ReadTexts(o, ListIDs) == Memberships(task)
            && ReadText(o, ParentTaskID) == task.parentTaskID
            && ReadInstant(o, DueAt) == task.dueAt && ReadInstant(o, CompletedAt) == task.completedAt
  {
    hide Marshal, ReadText, ReadTexts, ReadInstant;
    var p := CreatePayload(task);
    TextReadBack(p, ListID, Some(task.listID));
    TextReadBack(p, ParentTaskID, task.parentTaskID);
    TextsReadBack(p, ListIDs, Memberships(task));
    InstantReadBack(p, DueAt, task.dueAt);
    InstantReadBack(p, CompletedAt, task.completedAt);
  }

  /** A task without any list is not. */
  lemma ListlessIsLost(op: QueuedOperation, task: TaskRecord, legacy: Object -> Option<TaskRecord>)
    requires op.kind == Create && For(op, task, CreatePayload(task)) && task.listID == "" && task.listIDs == []
    ensures Decoded(op, legacy) != Ok(task)
  {
    CreateDecodes(op, task, legacy);
  }

  /** An update, completion or move is decoded as the task it left behind, each field as the patch says. */
  lemma UpdateDecodes(op: QueuedOperation, original: TaskRecord, patch: Patch, stored: TaskRecord,
                      legacy: Object -> Option<TaskRecord>)
    requires op.kind != Create && op.kind != Delete && For(op, stored, UpdatePayload(stored, patch))
    requires Applied(patch, original).Ok?
    requires stored == Applied(patch, original).value.(syncState := stored.syncState, updatedAt := stored.updatedAt)
    ensures Decoded(op, legacy) == Ok(stored)
    ensures FieldsPatched(patch, original, stored) && SameTask(original, stored)
  {
    HeaderReadBack(UpdatePayload(stored, patch));
    PatchReadBack(UpdatePayload(stored, patch));
    ApplyAgain(patch, original);
    StampsDoNotMatter(patch, Applied(patch, original).value, stored);
  }

  /** Applying a patch neither reads nor writes the sync state and the time of the last update. */
  lemma StampsDoNotMatter(patch: Patch, t: TaskRecord, stamped: TaskRecord)
    requires Applied(patch, t) == Ok(t)
    requires stamped == t.(syncState := stamped.syncState, updatedAt := stamped.updatedAt)
    ensures Applied(patch, stamped) == Ok(stamped)
  {
    assert Memberships(stamped) == Memberships(t);
  }

  function MovePatch(listID: string): Patch { NO_CHANGES.(listID := Some(listID)) }

  /** A move stores the task in its destination alone, and is decoded so. */
  lemma MoveDecodes(op: QueuedOperation, original: TaskRecord, destination: string, stored: TaskRecord,
                    legacy: Object -> Option<TaskRecord>)
    requires op.kind == Move && ValidID(destination) && For(op, stored, UpdatePayload(stored, MovePatch(destination)))
    requires stored == original.(listID := destination, listIDs := [destination], syncState := stored.syncState,
                                 updatedAt := stored.updatedAt)
    ensures Decoded(op, legacy) == Ok(stored)
  {
    HeaderReadBack(UpdatePayload(stored, MovePatch(destination)));
    PatchReadBack(UpdatePayload(stored, MovePatch(destination)));
    assert ValidMemberships(stored);
    assert Applied(MovePatch(destination), stored) == Ok(stored);
  }

  /** A deleted task is decoded as it was, so that it can still be sent when its row is gone. */
  lemma DeleteDecodes(op: QueuedOperation, task: TaskRecord, legacy: Object -> Option<TaskRecord>)
    requires op.kind == Delete && For(op, task, DeletePayload(task))
    ensures Decoded(op, legacy) == Ok(task)
  {
    HeaderReadBack(DeletePayload(task));
  }

  /**
    A payload of an unknown version is refused, as is one of this version for any other provider or entity,
    or whose task is another one than it names.
   */
  lemma ForeignRefused(op: QueuedOperation, p: Payload, legacy: Object -> Option<TaskRecord>)
    requires op.payload == Some(Marshal(p)) && p.version != 0
    requires || p.version != 1 || op.providerID != p.providerID || op.entityID != p.taskID
             || (p.snapshot.Some? && (p.snapshot.value.providerID != p.providerID || p.snapshot.value.id != p.taskID))
    ensures Decoded(op, legacy) == Err(WrongIdentity)
  {
    HeaderReadBack(p);
  }
}

/**
  List memberships of a task, and patches of its mutable fields.
 */
module TaskPatch {
  import opened Common
  import Text

  /** The task as the domain stores it; times are UTC instants. */
  datatype TaskRecord = TaskRecord(
    id: string, providerID: string, listID: string, listIDs: seq<string>, remoteID: Option<string>,
    parentTaskID: Option<string>, assignee: string, title: string, description: string, status: string,
    priority: string, dueAt: Option<int>, completedAt: Option<int>, syncState: string, updatedAt: int, deleted: bool)

  datatype Patch = Patch(
    listID: Option<string>, addListIDs: seq<string>, removeListIDs: seq<string>, parentTaskID: Option<string>,
    assignee: Option<string>, title: Option<string>, description: Option<string>, status: Option<string>,
    priority: Option<string>, dueAt: Option<int>, completedAt: Option<int>, clearParentTask: bool, clearDueAt: bool,
    clearCompletedAt: bool)

  datatype PatchError = InvalidPatch | InvalidMemberships | NotAMember | LastTaskList

  predicate ValidID(id: string) { id != "" && Text.Trim(id) == id }

  const PRIORITIES := {"none", "low", "normal", "high", "urgent"}

  // ----- lists as sequences without duplicates -----

  function Added(ids: seq<string>, id: string): seq<string> {
    if id in ids then ids else ids + [id]
  }

  /** Adding several lists, one after the other. */
  function AddedAll(ids: seq<string>, more: seq<string>): seq<string> {
    if more == [] then ids else Added(AddedAll(ids, more[..|more| - 1]), more[|more| - 1])
  }

  /** The lists that stay, in their order. */
  function Without(ids: seq<string>, gone: set<string>): seq<string> {
    if ids == [] then []
    else Without(ids[..|ids| - 1], gone) + if ids[|ids| - 1] in gone then [] else [ids[|ids| - 1]]
  }

  lemma {:induction false} WithoutElements(ids: seq<string>, gone: set<string>)
    ensures Elements(Without(ids, gone)) == Elements(ids) - gone
    ensures Distinct(ids) ==> Distinct(Without(ids, gone))
  {
    if ids != [] {
      var init, last := ids[..|ids| - 1], ids[|ids| - 1];
      WithoutElements(init, gone);
      assert ids == init + [last];
      ElementsSnoc(init, last);
      ElementsSnoc(Without(init, gone), last);
      if last in gone {
        assert Without(ids, gone) == Without(init, gone);
      } else {
        assert Without(ids, gone) == Without(init, gone) + [last];
      }
    }
  }

  lemma {:induction false} AddedAllElements(ids: seq<string>, more: seq<string>)
    ensures Elements(AddedAll(ids, more)) == Elements(ids) + Elements(more)
    ensures Distinct(ids) ==> Distinct(AddedAll(ids, more))
  {
    if more != [] {
      var init, last := more[..|more| - 1], more[|more| - 1];
      AddedAllElements(ids, init);
      assert more == init + [last];
      ElementsSnoc(init, last);
      ElementsSnoc(AddedAll(ids, init), last);
      assert last in AddedAll(ids, init) <==> last in Elements(AddedAll(ids, init));
    }
  }

  /** The old lists keep their order, and the new ones follow in the order they were added. */
  lemma {:induction false} AddedAllOrder(ids: seq<string>, more: seq<string>)
    requires Distinct(more)
    ensures AddedAll(ids, more) == ids + Without(more, Elements(ids))
  {
    if more != [] {
      var init, last := more[..|more| - 1], more[|more| - 1];
      AddedAllOrder(ids, init);
      WithoutElements(init, Elements(ids));
      assert more == init + [last];
      assert last in Without(init, Elements(ids)) <==> last in Elements(Without(init, Elements(ids)));
    }
  }

  lemma {:induction false} AddedAllNothing(ids: seq<string>, more: seq<string>)
    requires Elements(more) <= Elements(ids)
    ensures AddedAll(ids, more) == ids
  {
    if more != [] {
      var init, last := more[..|more| - 1], more[|more| - 1];
      assert more == init + [last];
      assert last in Elements(more);
      AddedAllNothing(ids, init);
    }
  }

  lemma {:induction false} WithoutNothing(ids: seq<string>, gone: set<string>)
    requires Elements(ids) !! gone
    ensures Without(ids, gone) == ids
  {
    if ids != [] {
      var init, last := ids[..|ids| - 1], ids[|ids| - 1];
      assert ids == init + [last];
      assert last in Elements(ids);
      WithoutNothing(init, gone);
    }
  }

  lemma {:induction false} WithoutMore(ids: seq<string>, gone: set<string>, id: string)
    ensures Without(Without(ids, gone), {id}) == Without(ids, gone + {id})
  {
    if ids != [] {
      var init, last := ids[..|ids| - 1], ids[|ids| - 1];
      WithoutMore(init, gone, id);
      if last in gone {
        assert Without(ids, gone) == Without(init, gone);
      } else {
        assert (Without(init, gone) + [last])[..|Without(init, gone)|] == Without(init, gone);
      }
    }
  }

  // ----- memberships -----

  function Memberships(t: TaskRecord): seq<string> { MembershipsOf(t.listID, t.listIDs) }

  predicate HasList(t: TaskRecord, id: string) { InListsOf(t.listID, t.listIDs, id) }

  ghost predicate ValidMemberships(t: TaskRecord) {
    var ids := Memberships(t);
    t.listID != "" && t.listID in ids && Distinct(ids) && forall id :: id in ids ==> ValidID(id)
  }

  /** The primary list while it is kept, else the first list left. */
  function Primary(listID: string, ids: seq<string>): string {
    if listID in ids || ids == [] then listID else ids[0]
  }

  method NormalizeListMemberships(t: TaskRecord) returns (r: Result<TaskRecord, PatchError>)
    ensures r == if ValidMemberships(t) then Ok(t.(listIDs := Memberships(t))) else Err(InvalidMemberships)
  {
    if t.listID == "" {
      return Err(InvalidMemberships);
    }
    var ids := Memberships(t);
    var seen, normalized := {}, [];
    for i := 0 to |ids|
      invariant normalized == ids[..i] && seen == Elements(ids[..i]) && Distinct(ids[..i])
      invariant forall k :: 0 <= k < i ==> ValidID(ids[k])
    {
      assert ids[..i + 1] == ids[..i] + [ids[i]];
      if !ValidID(ids[i]) {
        return Err(InvalidMemberships);
      }
      if ids[i] in seen {
        assert ids[i] in ids[..i];
        return Err(InvalidMemberships);
      }
      seen, normalized := seen + {ids[i]}, normalized + [ids[i]];
    }
    assert ids[..|ids|] == ids;
    if t.listID !in seen {
      return Err(InvalidMemberships);
    }
    r := Ok(t.(listIDs := normalized));
  }

  method AddToList(t: TaskRecord, id: string) returns (r: Result<TaskRecord, PatchError>)
    ensures r == if ValidID(id) && ValidMemberships(t) then Ok(t.(listIDs := Added(Memberships(t), id)))
                 else Err(InvalidMemberships)
  {
    if !ValidID(id) {
      return Err(InvalidMemberships);
    }
    r := NormalizeListMemberships(t);
    if r.Err? || id in r.value.listIDs {
      return;
    }
    r := Ok(t.(listIDs := r.value.listIDs + [id]));
  }

  /** A list the task is not in, and its last list, cannot be removed. */
  method RemoveFromList(t: TaskRecord, id: string) returns (r: Result<TaskRecord, PatchError>)
    ensures var left := Without(Memberships(t), {id});
            r == if !ValidID(id) || !ValidMemberships(t) then Err(InvalidMemberships)
                 else if id !in Memberships(t) then Err(NotAMember)
                 else if left == [] then Err(LastTaskList)
                 else Ok(t.(listIDs := left, listID := Primary(t.listID, left)))
  {
    if !ValidID(id) {
      return Err(InvalidMemberships);
    }
    r := NormalizeListMemberships(t);
    if r.Err? {
      return;
    }
    var ids, remaining, removed := r.value.listIDs, [], false;
    for i := 0 to |ids|
      invariant remaining == Without(ids[..i], {id}) && (removed <==> id in ids[..i])
    {
      assert ids[..i + 1] == ids[..i] + [ids[i]] && ids[..i + 1][..i] == ids[..i];
      if ids[i] == id {
        removed := true;
        continue;
      }
      remaining := remaining + [ids[i]];
    }
    assert ids[..|ids|] == ids;
    if !removed {
      return Err(NotAMember);
    }
    if |remaining| == 0 {
      return Err(LastTaskList);
    }
    WithoutElements(ids, {id});
    assert t.listID in Elements(ids);
    assert t.listID in remaining <==> t.listID in Elements(remaining);
    var after := t.(listIDs := remaining);
    if after.listID == id {
      after := after.(listID := remaining[0]);
    }
    r := Ok(after);
  }

  /** The moved task is in the new list alone, in normal form, and is otherwise the same. */
  method MoveToList(t: TaskRecord, id: string) returns (r: Result<TaskRecord, PatchError>)
    ensures r.Ok? <==> ValidID(id)
    ensures r.Err? ==> r.error == InvalidMemberships
    ensures r.Ok? ==>
              && ValidMemberships(r.value) && r.value.listIDs == Memberships(r.value)
              && (forall other :: HasList(r.value, other) <==> other == id)
              && r.value.(listID := t.listID, listIDs := t.listIDs) == t
  {
    if !ValidID(id) {
      return Err(InvalidMemberships);
    }
    r := Ok(t.(listID := id, listIDs := [id]));
  }

  lemma OnlyList(t: TaskRecord, id: string)
    requires ValidMemberships(t) && t.listIDs == Memberships(t) && forall other :: HasList(t, other) <==> other == id
    ensures t.listID == id && t.listIDs == [id]
  {
    assert HasList(t, t.listID) && HasList(t, t.listIDs[0]);
    if |t.listIDs| > 1 {
      assert HasList(t, t.listIDs[1]);
    }
  }

  // ----- patches -----

  ghost predicate DistinctIDs(ids: seq<string>) {
    Distinct(ids) && forall id :: id in ids ==> ValidID(id)
  }

  ghost predicate ValidPatch(p: Patch) {
    && (p.listID.Some? ==> ValidID(p.listID.value) && p.addListIDs == [] && p.removeListIDs == [])
    && DistinctIDs(p.addListIDs) && DistinctIDs(p.removeListIDs) && Elements(p.addListIDs) !! Elements(p.removeListIDs)
    && (p.parentTaskID.Some? ==> ValidID(p.parentTaskID.value) && !p.clearParentTask)
    && (p.priority.Some? ==> p.priority.value in PRIORITIES)
    && (p.dueAt.Some? ==> !p.clearDueAt)
    && (p.completedAt.Some? ==> !p.clearCompletedAt)
  }

  method CheckIDs(ids: seq<string>, apart: set<string>) returns (ok: bool, seen: set<string>)
    ensures ok <==> DistinctIDs(ids) && Elements(ids) !! apart
    ensures ok ==> seen == Elements(ids)
  {
    seen := {};
    for i := 0 to |ids|
      invariant seen == Elements(ids[..i]) && DistinctIDs(ids[..i]) && seen !! apart
    {
      assert ids[..i + 1] == ids[..i] + [ids[i]];
      ElementsSnoc(ids[..i], ids[i]);
      assert ids[i] in Elements(ids);
      if !ValidID(ids[i]) || ids[i] in seen || ids[i] in apart {
        NotDistinctIDs(ids, apart, i);
        return false, seen;
      }
      seen := seen + {ids[i]};
    }
    assert ids[..|ids|] == ids;
    ok := true;
  }

  lemma NotDistinctIDs(ids: seq<string>, apart: set<string>, i: nat)
    requires i < |ids| && (!ValidID(ids[i]) || ids[i] in Elements(ids[..i]) || ids[i] in apart)
    ensures !DistinctIDs(ids) || !(Elements(ids) !! apart)
  {
    assert ids[i] in Elements(ids);
    if ids[i] in Elements(ids[..i]) {
      var j :| 0 <= j < i && ids[..i][j] == ids[i];
      assert ids[j] == ids[i];
    }
  }

  method Validate(p: Patch) returns (ok: bool)
    ensures ok <==> ValidPatch(p)
  {
    if p.listID.Some? && !ValidID(p.listID.value) {
      return false;
    }
    if p.listID.Some? && (|p.addListIDs| > 0 || |p.removeListIDs| > 0) {
      return false;
    }
    var addOK, addIDs := CheckIDs(p.addListIDs, {});
    if !addOK {
      return false;
    }
    var removeOK, removeIDs := CheckIDs(p.removeListIDs, addIDs);
    if !removeOK {
      return false;
    }
    if p.parentTaskID.Some? && !ValidID(p.parentTaskID.value) {
      return false;
    }
    if p.priority.Some? && p.priority.value !in PRIORITIES {
      return false;
    }
    ok := !(p.clearParentTask && p.parentTaskID.Some?) && !(p.clearDueAt && p.dueAt.Some?)
          && !(p.clearCompletedAt && p.completedAt.Some?);
  }

  /** The lists a patch leaves a task in. */
  ghost function ListsAfter(p: Patch, ids: seq<string>): seq<string> {
    if p.listID.Some? then [p.listID.value] else Without(AddedAll(ids, p.addListIDs), Elements(p.removeListIDs))
  }

  function Chosen<T>(patch: Option<T>, current: T): T { if patch.Some? then patch.value else current }

  function Set<T>(clear: bool, patch: Option<T>, current: Option<T>): Option<T> {
    if clear then None else if patch.Some? then patch else current
  }

  /** The fields besides the memberships. */
  function WithFields(p: Patch, t: TaskRecord): TaskRecord {
    t.(parentTaskID := Set(p.clearParentTask, p.parentTaskID, t.parentTaskID),
       assignee := Chosen(p.assignee, t.assignee), title := Chosen(p.title, t.title),
       description := Chosen(p.description, t.description), status := Chosen(p.status, t.status),
       priority := Chosen(p.priority, t.priority),
       dueAt := Set(p.clearDueAt, p.dueAt, t.dueAt),
       completedAt := Set(p.clearCompletedAt, p.completedAt, t.completedAt))
  }

  /**
    Each patched field has the value the patch names, no value where the patch clears it, and its old
    value otherwise.
   */
  ghost predicate FieldsPatched(p: Patch, before: TaskRecord, after: TaskRecord) {
    && after.parentTaskID == (if p.clearParentTask then None
                              else if p.parentTaskID.Some? then p.parentTaskID else before.parentTaskID)
    && after.assignee == (if p.assignee.Some? then p.assignee.value else before.assignee)
    && after.title == (if p.title.Some? then p.title.value else before.title)
    && after.description == (if p.description.Some? then p.description.value else before.description)
    && after.status == (if p.status.Some? then p.status.value else before.status)
    && after.priority == (if p.priority.Some? then p.priority.value else before.priority)
    && after.dueAt == (if p.clearDueAt then None else if p.dueAt.Some? then p.dueAt else before.dueAt)
    && after.completedAt == (if p.clearCompletedAt then None
                             else if p.completedAt.Some? then p.completedAt else before.completedAt)
  }

  /** No patch touches what identifies a task, or its tombstone. */
  ghost predicate SameTask(before: TaskRecord, after: TaskRecord) {
    && after.id == before.id && after.providerID == before.providerID && after.remoteID == before.remoteID
    && after.deleted == before.deleted
  }

  /** What applying a patch means. */
  ghost function Applied(p: Patch, t: TaskRecord): Result<TaskRecord, PatchError> {
    var lists := ListsAfter(p, Memberships(t));
    if !ValidPatch(p) then Err(InvalidPatch)
    else if !ValidMemberships(t) then Err(InvalidMemberships)
    else if lists == [] then Err(LastTaskList)
    else Ok(WithFields(p, t.(listIDs := lists, listID := Primary(t.listID, lists))))
  }

  /** The task with other lists, none of its fields changed. */
  ghost predicate InLists(t: TaskRecord, original: TaskRecord, ids: seq<string>) {
    ids != [] && t == original.(listIDs := ids, listID := Primary(original.listID, ids))
  }

  lemma InListsValid(t: TaskRecord, original: TaskRecord, ids: seq<string>)
    requires InLists(t, original, ids) && DistinctIDs(ids)
    ensures ValidMemberships(t) && Memberships(t) == ids
  {
    assert t.listID in ids;
  }

  method AddAll(p: Patch, original: TaskRecord, start: TaskRecord) returns (r: Result<TaskRecord, PatchError>)
    requires ValidPatch(p) && ValidMemberships(original) && InLists(start, original, Memberships(original))
    ensures r.Ok? && InLists(r.value, original, AddedAll(Memberships(original), p.addListIDs))
  {
    var ids := Memberships(original);
    var task := start;
    for i := 0 to |p.addListIDs|
      invariant InLists(task, original, AddedAll(ids, p.addListIDs[..i]))
                  && original.listID in AddedAll(ids, p.addListIDs[..i])
      invariant DistinctIDs(AddedAll(ids, p.addListIDs[..i]))
    {
      assert p.addListIDs[..i + 1][..i] == p.addListIDs[..i];
      assert p.addListIDs[i] in p.addListIDs;
      InListsValid(task, original, AddedAll(ids, p.addListIDs[..i]));
      var added := AddToList(task, p.addListIDs[i]);
      task := added.value;
    }
    assert p.addListIDs[..|p.addListIDs|] == p.addListIDs;
    r := Ok(task);
  }

  /** Removing one more list, and who is primary then. */
  lemma RemoveOneMore(listID: string, ids: seq<string>, gone: set<string>, id: string)
    requires Without(ids, gone) != [] && Without(ids, gone + {id}) != [] && listID in ids
    ensures Primary(Primary(listID, Without(ids, gone)), Without(ids, gone + {id})) ==
              Primary(listID, Without(ids, gone + {id}))
  {
    var before, after := Without(ids, gone), Without(ids, gone + {id});
    WithoutMore(ids, gone, id);
    WithoutElements(before, {id});
    assert forall x :: x in after <==> x in Elements(after);
    assert forall x :: x in before <==> x in Elements(before);
    if listID !in before && before[0] != id {
      FirstStays(before, id);
    }
  }

  lemma {:induction false} FirstStays(ids: seq<string>, id: string)
    requires ids != [] && ids[0] != id
    ensures Without(ids, {id}) != [] && Without(ids, {id})[0] == ids[0]
  {
    if |ids| > 1 {
      FirstStays(ids[..|ids| - 1], id);
    }
  }

  lemma {:induction false} NothingLeftStays(ids: seq<string>, gone: set<string>, more: set<string>)
    requires Without(ids, gone) == [] && gone <= more
    ensures Without(ids, more) == []
  {
    if ids != [] {
      NothingLeftStays(ids[..|ids| - 1], gone, more);
    }
  }

  /** Lists the task is not in are skipped. */
  method RemoveIfMember(t: TaskRecord, id: string) returns (r: Result<TaskRecord, PatchError>)
    requires ValidID(id) && ValidMemberships(t)
    ensures var left := Without(Memberships(t), {id});
            r == if id !in Memberships(t) then Ok(t)
                 else if left == [] then Err(LastTaskList)
                 else Ok(t.(listIDs := left, listID := Primary(t.listID, left)))
  {
    if !HasList(t, id) {
      return Ok(t);
    }
    r := RemoveFromList(t, id);
  }

  /** The task while the lists gone were removed. */
  ghost predicate Removing(t: TaskRecord, original: TaskRecord, ids: seq<string>, gone: set<string>) {
    InLists(t, original, Without(ids, gone)) && DistinctIDs(Without(ids, gone))
  }

  lemma RemovingStarts(t: TaskRecord, original: TaskRecord, ids: seq<string>)
    requires InLists(t, original, ids) && DistinctIDs(ids)
    ensures Removing(t, original, ids, {})
  {
    WithoutNothing(ids, {});
  }

  lemma RemovingStays(t: TaskRecord, original: TaskRecord, ids: seq<string>, gone: set<string>, id: string)
    requires Removing(t, original, ids, gone) && id !in Without(ids, gone)
    ensures Removing(t, original, ids, gone + {id})
  {
    WithoutMore(ids, gone, id);
    WithoutNothing(Without(ids, gone), {id});
  }

  lemma RemovingNext(t: TaskRecord, original: TaskRecord, ids: seq<string>, gone: set<string>, id: string,
                     after: TaskRecord)
    requires Removing(t, original, ids, gone) && original.listID in ids
    requires var left := Without(Without(ids, gone), {id});
             left != [] && after == t.(listIDs := left, listID := Primary(t.listID, left))
    ensures Removing(after, original, ids, gone + {id})
  {
    var before := Without(ids, gone);
    WithoutMore(ids, gone, id);
    WithoutElements(before, {id});
    RemoveOneMore(original.listID, ids, gone, id);
    forall x | x in Without(before, {id})
      ensures ValidID(x)
    {
      assert x in Elements(Without(before, {id}));
      assert x in Elements(before);
    }
  }

  method RemoveNext(ghost original: TaskRecord, ghost ids: seq<string>, ghost gone: set<string>, id: string,
                    task: TaskRecord)
      returns (r: Result<TaskRecord, PatchError>)
    requires ValidID(id) && original.listID in ids && Removing(task, original, ids, gone)
    ensures if Without(ids, gone + {id}) == [] then r == Err(LastTaskList)
            else r.Ok? && Removing(r.value, original, ids, gone + {id})
  {
    InListsValid(task, original, Without(ids, gone));
    WithoutMore(ids, gone, id);
    r := RemoveIfMember(task, id);
    if id !in Without(ids, gone) {
      RemovingStays(task, original, ids, gone, id);
    } else if r.Ok? {
      RemovingNext(task, original, ids, gone, id, r.value);
    }
  }

  method RemoveAll(p: Patch, original: TaskRecord, ids: seq<string>, start: TaskRecord)
      returns (r: Result<TaskRecord, PatchError>)
    requires ValidPatch(p) && original.listID in ids && DistinctIDs(ids) && InLists(start, original, ids)
    ensures var left := Without(ids, Elements(p.removeListIDs));
            if left == [] then r == Err(LastTaskList) else r.Ok? && InLists(r.value, original, left)
  {
    var task, removals := start, p.removeListIDs;
    RemovingStarts(task, original, ids);
    assert Elements(removals[..0]) == {};
    for i := 0 to |removals|
      invariant Removing(task, original, ids, Elements(removals[..i]))
    {
      ghost var gone := Elements(removals[..i]);
      assert removals[..i + 1] == removals[..i] + [removals[i]];
      ElementsSnoc(removals[..i], removals[i]);
      assert removals[i] in removals;
      r := RemoveNext(original, ids, gone, removals[i], task);
      if r.Err? {
        assert gone + {removals[i]} <= Elements(removals);
        NothingLeftStays(ids, gone + {removals[i]}, Elements(removals));
        return;
      }
      task := r.value;
    }
    assert removals[..|removals|] == removals;
    r := Ok(task);
  }

  method ApplyLists(p: Patch, original: TaskRecord) returns (r: Result<TaskRecord, PatchError>)
    requires ValidPatch(p)
    ensures var lists := ListsAfter(p, Memberships(original));
            r == if !ValidMemberships(original) then Err(InvalidMemberships)
                 else if lists == [] then Err(LastTaskList)
                 else Ok(original.(listIDs := lists, listID := Primary(original.listID, lists)))
  {
    r := NormalizeListMemberships(original);
    if r.Err? {
      return;
    }
    if p.listID.Some? {
      r := MoveToList(r.value, p.listID.value);
      OnlyList(r.value, p.listID.value);
      return;
    }
    ghost var ids := AddedAll(Memberships(original), p.addListIDs);
    AddedAllValid(Memberships(original), p.addListIDs);
    r := AddAll(p, original, r.value);
    assert original.listID in Elements(ids);
    r := RemoveAll(p, original, r.value.listIDs, r.value);
  }

  lemma AddedAllValid(ids: seq<string>, more: seq<string>)
    requires DistinctIDs(ids) && DistinctIDs(more)
    ensures DistinctIDs(AddedAll(ids, more)) && Elements(AddedAll(ids, more)) == Elements(ids) + Elements(more)
  {
    AddedAllElements(ids, more);
    forall x | x in AddedAll(ids, more)
      ensures ValidID(x)
    {
      assert x in Elements(AddedAll(ids, more));
      assert x in Elements(ids) || x in Elements(more);
    }
  }

  method ApplyFields(p: Patch, original: TaskRecord) returns (task: TaskRecord)
    ensures task == WithFields(p, original)
  {
    task := original;
    if p.clearParentTask {
      task := task.(parentTaskID := None);
    } else if p.parentTaskID.Some? {
      task := task.(parentTaskID := p.parentTaskID);
    }
    if p.assignee.Some? {
      task := task.(assignee := p.assignee.value);
    }
    if p.title.Some? {
      task := task.(title := p.title.value);
    }
    if p.description.Some? {
      task := task.(description := p.description.value);
    }
    if p.status.Some? {
      task := task.(status := p.status.value);
    }
    if p.priority.Some? {
      task := task.(priority := p.priority.value);
    }
    task := ApplyTimes(p, task);
  }

  method ApplyTimes(p: Patch, original: TaskRecord) returns (task: TaskRecord)
    ensures task == original.(dueAt := Set(p.clearDueAt, p.dueAt, original.dueAt),
                              completedAt := Set(p.clearCompletedAt, p.completedAt, original.completedAt))
  {
    task := original;
    if p.clearDueAt {
      task := task.(dueAt := None);
    } else if p.dueAt.Some? {
      task := task.(dueAt := p.dueAt);
    }
    if p.clearCompletedAt {
      task := task.(completedAt := None);
    } else if p.completedAt.Some? {
      task := task.(completedAt := p.completedAt);
    }
  }

  method Apply(p: Patch, original: TaskRecord) returns (r: Result<TaskRecord, PatchError>)
    ensures r == Applied(p, original)
    ensures r.Ok? ==> FieldsPatched(p, original, r.value) && SameTask(original, r.value)
    ensures r.Ok? ==> r.value.syncState == original.syncState && r.value.updatedAt == original.updatedAt
    ensures r.Ok? && p.listID.Some? ==> forall id :: HasList(r.value, id) <==> id == p.listID.value
    ensures r.Ok? && p.listID.None? ==>
              forall id :: HasList(r.value, id) <==>
                             (HasList(original, id) || id in p.addListIDs) && id !in p.removeListIDs
  {
    var ok := Validate(p);
    if !ok {
      return Err(InvalidPatch);
    }
    r := ApplyLists(p, original);
    if r.Err? {
      return;
    }
    ListsPatched(p, original);
    var task := ApplyFields(p, r.value);
    r := Ok(task);
  }

  // ----- laws -----

  lemma ListsValid(p: Patch, t: TaskRecord)
    requires ValidPatch(p) && ValidMemberships(t)
    ensures DistinctIDs(ListsAfter(p, Memberships(t)))
    ensures p.listID.None? ==> Elements(ListsAfter(p, Memberships(t))) ==
                                 (Elements(Memberships(t)) + Elements(p.addListIDs)) - Elements(p.removeListIDs)
  {
    if p.listID.None? {
      var all := AddedAll(Memberships(t), p.addListIDs);
      AddedAllValid(Memberships(t), p.addListIDs);
      WithoutElements(all, Elements(p.removeListIDs));
      forall x | x in Without(all, Elements(p.removeListIDs))
        ensures ValidID(x)
      {
        assert x in Elements(Without(all, Elements(p.removeListIDs)));
        assert x in Elements(all);
      }
    }
  }

  /** Which lists the patched task is in. */
  lemma ListsPatched(p: Patch, t: TaskRecord)
    requires Applied(p, t).Ok?
    ensures var after := Applied(p, t).value;
            forall id :: HasList(after, id) <==>
                           if p.listID.Some? then id == p.listID.value
                           else (HasList(t, id) || id in p.addListIDs) && id !in p.removeListIDs
  {
    var ids, lists := Memberships(t), ListsAfter(p, Memberships(t));
    ListsValid(p, t);
    forall id
      ensures HasList(Applied(p, t).value, id) <==> id in lists
      ensures HasList(t, id) <==> id in ids
    {
    }
    if p.listID.None? {
      forall id
        ensures id in lists <==> (id in ids || id in p.addListIDs) && id !in p.removeListIDs
      {
        assert id in lists <==> id in Elements(lists);
      }
    }
  }

  /**
    Without a move, the lists are the old and the added ones minus the removed ones, each once, in
    order; the primary list is one of them, and changes only when it was removed, to the first one left.
   */
  lemma MembershipAlgebra(p: Patch, t: TaskRecord)
    requires p.listID.None? && Applied(p, t).Ok?
    ensures var ids, after := Memberships(t), Applied(p, t).value;
            && Elements(after.listIDs) == (Elements(ids) + Elements(p.addListIDs)) - Elements(p.removeListIDs)
            && Distinct(after.listIDs) && ValidMemberships(after)
            && after.listIDs == Without(ids + Without(p.addListIDs, Elements(ids)), Elements(p.removeListIDs))
            && (if t.listID in Elements(p.removeListIDs) then after.listID == after.listIDs[0]
                else after.listID == t.listID)
  {
    var ids, after := Memberships(t), Applied(p, t).value;
    ListsValid(p, t);
    AddedAllOrder(ids, p.addListIDs);
    assert t.listID in Elements(ids);
    assert t.listID in after.listIDs <==> t.listID in Elements(after.listIDs);
    assert Memberships(after) == after.listIDs && after.listID in after.listIDs;
    assert forall id :: id in after.listIDs ==> ValidID(id);
  }

  /** The last-list error arises exactly when nothing would be left. */
  lemma LastListExactly(p: Patch, t: TaskRecord)
    requires ValidPatch(p) && ValidMemberships(t)
    ensures Applied(p, t) == Err(LastTaskList) <==>
              p.listID.None? && Elements(Memberships(t)) + Elements(p.addListIDs) <= Elements(p.removeListIDs)
  {
    ListsValid(p, t);
    var lists := ListsAfter(p, Memberships(t));
    assert lists == [] <==> Elements(lists) == {} by {
      if lists != [] {
        assert lists[0] in Elements(lists);
      }
    }
    var all, gone := Elements(Memberships(t)) + Elements(p.addListIDs), Elements(p.removeListIDs);
    assert all - gone == {} <==> all <= gone by {
      if all - gone == {} {
        forall x | x in all
          ensures x in gone
        {
          assert x !in all - gone;
        }
      }
    }
  }

  lemma ListsIdempotent(p: Patch, t: TaskRecord)
    requires ValidPatch(p) && ValidMemberships(t) && ListsAfter(p, Memberships(t)) != []
    ensures ListsAfter(p, ListsAfter(p, Memberships(t))) == ListsAfter(p, Memberships(t))
  {
    if p.listID.None? {
      var lists := ListsAfter(p, Memberships(t));
      ListsValid(p, t);
      assert Elements(p.addListIDs) <= Elements(lists);
      AddedAllNothing(lists, p.addListIDs);
      WithoutNothing(lists, Elements(p.removeListIDs));
    }
  }

  /** Applying a patch again changes nothing. */
  lemma ApplyAgain(p: Patch, t: TaskRecord)
    requires Applied(p, t).Ok?
    ensures Applied(p, Applied(p, t).value) == Applied(p, t)
  {
    var after, lists := Applied(p, t).value, ListsAfter(p, Memberships(t));
    ListsIdempotent(p, t);
    ListsValid(p, t);
    assert after.listID in lists;
    assert Memberships(after) == lists;
  }
}

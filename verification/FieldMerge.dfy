/**
  The three-way merge of entity fields: changes on one side are applied, equal
  changes are kept, and overlapping changes keep the local value and are
  recorded as conflicts.
 */
module FieldMerge {
  import opened Common
  import opened Sorting
  import opened Text

  datatype MergeError = ProviderMismatch | EmptyProvider

  datatype FieldConflict<V> = FieldConflict(
    id: string, providerID: string, entityType: string, entityID: string,
    field: string, base: Option<V>, local: Option<V>, remote: Option<V>)

  datatype MergeInput<V> = MergeInput(
    providerID: string, baseProviderID: string, localProviderID: string, remoteProviderID: string,
    entityType: string, entityID: string,
    base: map<string, V>, local: map<string, V>, remote: map<string, V>)
  {
    function ProviderIDs(): seq<string> { [providerID, baseProviderID, localProviderID, remoteProviderID] }
  }

  datatype MergeState = MergedSynced | MergedConflict

  datatype MergeResult<V> = MergeResult(
    providerID: string, fields: map<string, V>, state: MergeState, conflicts: seq<FieldConflict<V>>)

  // ----- what a merge means, field by field -----

  /** A field that is absent is a value of its own. */
  function Get<V>(fields: map<string, V>, field: string): Option<V> {
    if field in fields then Some(fields[field]) else None
  }

  ghost predicate Overlaps<V>(base: Option<V>, local: Option<V>, remote: Option<V>) {
    local != base && remote != base && local != remote
  }

  /** One side's change wins over no change; the local side wins over the remote. */
  ghost function Merged<V>(base: Option<V>, local: Option<V>, remote: Option<V>): Option<V> {
    if local == base then remote else local
  }

  ghost function AllFields<V>(base: map<string, V>, local: map<string, V>, remote: map<string, V>): set<string> {
    base.Keys + local.Keys + remote.Keys
  }

  ghost function MergedFields<V>(base: map<string, V>, local: map<string, V>, remote: map<string, V>): map<string, V> {
    map field | field in AllFields(base, local, remote)
             && Merged(Get(base, field), Get(local, field), Get(remote, field)).Some? ::
      Merged(Get(base, field), Get(local, field), Get(remote, field)).value
  }

  ghost predicate InConflict<V>(base: map<string, V>, local: map<string, V>, remote: map<string, V>, field: string) {
    Overlaps(Get(base, field), Get(local, field), Get(remote, field))
  }

  ghost function ConflictFields<V>(base: map<string, V>, local: map<string, V>, remote: map<string, V>): set<string> {
    set field | field in AllFields(base, local, remote) && InConflict(base, local, remote, field)
  }

  lemma MergedFieldsAt<V>(base: map<string, V>, local: map<string, V>, remote: map<string, V>, field: string)
    ensures Get(MergedFields(base, local, remote), field) ==
              Merged(Get(base, field), Get(local, field), Get(remote, field))
  {
  }

  lemma SameFields<V>(a: map<string, V>, b: map<string, V>)
    requires forall field :: Get(a, field) == Get(b, field)
    ensures a == b
  {
    forall field
      ensures field in a <==> field in b
      ensures field in a ==> a[field] == b[field]
    {
      assert Get(a, field) == Get(b, field);
    }
  }

  // ----- the laws of the merge -----

  /** Without local changes the remote side is taken over whole. */
  lemma UnchangedLocal<V>(base: map<string, V>, remote: map<string, V>)
    ensures MergedFields(base, base, remote) == remote
    ensures ConflictFields(base, base, remote) == {}
  {
    forall field
      ensures Get(MergedFields(base, base, remote), field) == Get(remote, field)
    {
      MergedFieldsAt(base, base, remote, field);
    }
    SameFields(MergedFields(base, base, remote), remote);
  }

  /** Without remote changes the local side stays as it is. */
  lemma UnchangedRemote<V>(base: map<string, V>, local: map<string, V>)
    ensures MergedFields(base, local, base) == local
    ensures ConflictFields(base, local, base) == {}
  {
    forall field
      ensures Get(MergedFields(base, local, base), field) == Get(local, field)
    {
      MergedFieldsAt(base, local, base, field);
    }
    SameFields(MergedFields(base, local, base), local);
  }

  /**
    A field both sides have alike, changed or not, is no conflict; one that only one side changed follows
    that side; one that both changed differently is a conflict and keeps the local value.
   */
  lemma FieldByField<V>(base: map<string, V>, local: map<string, V>, remote: map<string, V>, field: string)
    ensures var was, mine, theirs := Get(base, field), Get(local, field), Get(remote, field);
            var merged, clash := Get(MergedFields(base, local, remote), field), ConflictFields(base, local, remote);
            && (mine == theirs ==> field !in clash && merged == mine)
            && (mine == was ==> field !in clash && merged == theirs)
            && (theirs == was ==> field !in clash && merged == mine)
            && (mine != theirs && mine != was && theirs != was ==> field in clash && merged == mine)
  {
    MergedFieldsAt(base, local, remote, field);
  }

  /** Swapping the sides changes nothing but the winners of conflicts. */
  lemma SidesSwap<V>(base: map<string, V>, local: map<string, V>, remote: map<string, V>)
    ensures ConflictFields(base, local, remote) == ConflictFields(base, remote, local)
    ensures forall field :: field !in ConflictFields(base, local, remote) ==>
              Get(MergedFields(base, local, remote), field) == Get(MergedFields(base, remote, local), field)
  {
    forall field | field !in ConflictFields(base, local, remote)
      ensures Get(MergedFields(base, local, remote), field) == Get(MergedFields(base, remote, local), field)
    {
      MergedFieldsAt(base, local, remote, field);
      MergedFieldsAt(base, remote, local, field);
    }
  }

  /** Merging a result again, against the same base and remote, changes nothing. */
  lemma MergeAgain<V>(base: map<string, V>, local: map<string, V>, remote: map<string, V>)
    ensures MergedFields(base, MergedFields(base, local, remote), remote) == MergedFields(base, local, remote)
    ensures ConflictFields(base, MergedFields(base, local, remote), remote) == ConflictFields(base, local, remote)
  {
    var once := MergedFields(base, local, remote);
    forall field
      ensures Get(MergedFields(base, once, remote), field) == Get(once, field)
      ensures InConflict(base, once, remote, field) <==> InConflict(base, local, remote, field)
    {
      MergedFieldsAt(base, local, remote, field);
      MergedFieldsAt(base, once, remote, field);
    }
    SameFields(MergedFields(base, once, remote), once);
    forall field
      ensures field in ConflictFields(base, once, remote) <==> field in ConflictFields(base, local, remote)
    {
    }
  }

  // ----- the merge as computed -----

  ghost function Named(ids: seq<string>): set<string> {
    set id | id in ids && id != ""
  }

  method MergeProviderID(ids: seq<string>) returns (r: Result<string, MergeError>)
    ensures match r
            case Ok(provider) => Named(ids) == {provider}
            case Err(EmptyProvider) => Named(ids) == {}
            case Err(ProviderMismatch) => exists a, b :: a in Named(ids) && b in Named(ids) && a != b
  {
    var provider := "";
    for i := 0 to |ids|
      invariant Named(ids[..i]) == if provider == "" then {} else {provider}
      invariant provider != "" ==> provider in Named(ids)
    {
      assert ids[..i + 1] == ids[..i] + [ids[i]];
      if ids[i] == "" {
        continue;
      }
      assert ids[i] in Named(ids);
      if provider == "" {
        provider := ids[i];
      } else if provider != ids[i] {
        return Err(ProviderMismatch);
      }
    }
    assert ids[..|ids|] == ids;
    r := if provider == "" then Err(EmptyProvider) else Ok(provider);
  }

  function ByText(field: string): SortKey { SortKey(0, 0, field) }

  ghost predicate Ascending(fields: seq<string>) {
    forall i, j :: 0 <= i < j < |fields| ==> Less(fields[i], fields[j])
  }

  /** The keys of a set in strictly increasing order. */
  method SortedKeys(keys: set<string>) returns (fields: seq<string>)
    ensures Ascending(fields) && Elements(fields) == keys
  {
    var found: seq<string> := [];
    var rest := keys;
    while rest != {}
      invariant Distinct(found) && Elements(found) + rest == keys && Elements(found) !! rest
      decreases rest
    {
      var key :| key in rest;
      assert Elements(found + [key]) == Elements(found) + {key};
      assert key !in found;
      found, rest := found + [key], rest - {key};
    }
    fields := StableSort(ByText, found);
    StableSortSorts(ByText, found);
    SortedDistinct(found, fields);
  }

  lemma SortedDistinct(found: seq<string>, fields: seq<string>)
    requires Distinct(found) && multiset(fields) == multiset(found) && InOrder(ByText, fields)
    ensures Ascending(fields) && Elements(fields) == Elements(found)
  {
    PermutedDistinct(found, fields);
    forall i, j | 0 <= i < j < |fields|
      ensures Less(fields[i], fields[j])
    {
      assert !Before(ByText(fields[j]), ByText(fields[i]));
      LessTotal(fields[i], fields[j]);
    }
  }

  function ConflictID(providerID: string, entityType: string, entityID: string, field: string): string {
    providerID + ":" + entityType + ":" + entityID + ":" + field
  }

  ghost function ConflictAt<V>(input: MergeInput<V>, provider: string, field: string): FieldConflict<V> {
    FieldConflict(ConflictID(provider, input.entityType, input.entityID, field), provider, input.entityType,
                  input.entityID, field, Get(input.base, field), Get(input.local, field), Get(input.remote, field))
  }

  /** The conflicts among the given fields, in their order. */
  ghost function ConflictsOf<V>(input: MergeInput<V>, provider: string, fields: seq<string>): seq<FieldConflict<V>> {
    if fields == [] then []
    else
      var last := fields[|fields| - 1];
      ConflictsOf(input, provider, fields[..|fields| - 1])
      + if InConflict(input.base, input.local, input.remote, last) then [ConflictAt(input, provider, last)] else []
  }

  function SetField<V>(fields: map<string, V>, field: string, value: Option<V>): (after: map<string, V>)
    ensures Get(after, field) == value
    ensures forall other :: other != field ==> Get(after, other) == Get(fields, other)
  {
    if value.Some? then fields[field := value.value] else fields - {field}
  }

  method MergeFields<V(==)>(input: MergeInput<V>) returns (r: Result<MergeResult<V>, MergeError>)
    ensures r.Ok? <==> exists provider :: Named(input.ProviderIDs()) == {provider}
    ensures r.Ok? ==>
              && Named(input.ProviderIDs()) == {r.value.providerID}
              && r.value.fields == MergedFields(input.base, input.local, input.remote)
              && (r.value.state == MergedSynced <==> ConflictFields(input.base, input.local, input.remote) == {})
              && Records(input, r.value.providerID, r.value.conflicts)
  {
    var provider := MergeProviderID(input.ProviderIDs());
    if provider.Err? {
      return Err(provider.error);
    }
    assert Named(input.ProviderIDs()) == {provider.value};
    var keys := input.base.Keys + input.local.Keys + input.remote.Keys;
    var fields := SortedKeys(keys);
    var merged, conflicts := MergeEach(input, provider.value, fields);
    var state := if |conflicts| > 0 then MergedConflict else MergedSynced;
    ConflictsExist(input, provider.value, fields);
    ConflictsAreOverlaps(input, provider.value, fields);
    r := Ok(MergeResult(provider.value, merged, state, conflicts));
  }

  /** The merge after the fields in done were looked at. */
  ghost predicate MergedUpTo<V>(input: MergeInput<V>, done: set<string>, merged: map<string, V>) {
    forall field :: Get(merged, field) ==
      if field in done then Merged(Get(input.base, field), Get(input.local, field), Get(input.remote, field))
      else Get(input.local, field)
  }

  lemma MergedOneMore<V>(input: MergeInput<V>, done: set<string>, merged: map<string, V>, field: string,
                         after: map<string, V>)
    requires MergedUpTo(input, done, merged) && field !in done
    requires Get(after, field) == Merged(Get(input.base, field), Get(input.local, field), Get(input.remote, field))
    requires forall other :: other != field ==> Get(after, other) == Get(merged, other)
    ensures MergedUpTo(input, done + {field}, after)
  {
  }

  lemma MergedAll<V>(input: MergeInput<V>, merged: map<string, V>)
    requires MergedUpTo(input, AllFields(input.base, input.local, input.remote), merged)
    ensures merged == MergedFields(input.base, input.local, input.remote)
  {
    forall field
      ensures Get(merged, field) == Get(MergedFields(input.base, input.local, input.remote), field)
    {
      MergedFieldsAt(input.base, input.local, input.remote, field);
    }
    SameFields(merged, MergedFields(input.base, input.local, input.remote));
  }

  method MergeField<V(==)>(input: MergeInput<V>, provider: string, field: string, merged: map<string, V>)
      returns (after: map<string, V>, conflict: Option<FieldConflict<V>>)
    requires Get(merged, field) == Get(input.local, field)
    ensures Get(after, field) == Merged(Get(input.base, field), Get(input.local, field), Get(input.remote, field))
    ensures forall other :: other != field ==> Get(after, other) == Get(merged, other)
    ensures conflict == if InConflict(input.base, input.local, input.remote, field) then
                          Some(ConflictAt(input, provider, field))
                        else None
  {
    var base, local, remote := Get(input.base, field), Get(input.local, field), Get(input.remote, field);
    after, conflict := merged, None;
    if local == base && remote != base {
      after := SetField(merged, field, remote);
    } else if remote == base {
      after := SetField(merged, field, local);
    } else if local == remote {
      after := SetField(merged, field, local);
    } else {
      conflict := Some(FieldConflict(ConflictID(provider, input.entityType, input.entityID, field), provider,
                                     input.entityType, input.entityID, field, base, local, remote));
    }
  }

  lemma NotYetSeen(fields: seq<string>, i: nat)
    requires Ascending(fields) && i < |fields|
    ensures fields[i] !in Elements(fields[..i])
    ensures Elements(fields[..i + 1]) == Elements(fields[..i]) + {fields[i]}
  {
    LessIrreflexive(fields[i]);
    assert fields[..i + 1] == fields[..i] + [fields[i]];
  }

  method MergeEach<V(==)>(input: MergeInput<V>, provider: string, fields: seq<string>)
      returns (merged: map<string, V>, conflicts: seq<FieldConflict<V>>)
    requires Ascending(fields) && Elements(fields) == AllFields(input.base, input.local, input.remote)
    ensures merged == MergedFields(input.base, input.local, input.remote)
    ensures conflicts == ConflictsOf(input, provider, fields)
  {
    hide ConflictFields, MergedFields, Overlaps, Merged;
    merged, conflicts := input.local, [];
    for i := 0 to |fields|
      invariant conflicts == ConflictsOf(input, provider, fields[..i])
      invariant MergedUpTo(input, Elements(fields[..i]), merged)
    {
      NotYetSeen(fields, i);
      assert fields[..i + 1][..i] == fields[..i];
      var after, conflict := MergeField(input, provider, fields[i], merged);
      MergedOneMore(input, Elements(fields[..i]), merged, fields[i], after);
      merged := after;
      if conflict.Some? {
        conflicts := conflicts + [conflict.value];
      }
    }
    assert fields[..|fields|] == fields;
    MergedAll(input, merged);
  }

  ghost predicate FieldsAscend<V>(conflicts: seq<FieldConflict<V>>) {
    forall i, j :: 0 <= i < j < |conflicts| ==> Less(conflicts[i].field, conflicts[j].field)
  }

  /** Only overlapping fields are recorded, each with its three values. */
  lemma {:induction false} ConflictsSound<V>(input: MergeInput<V>, provider: string, fields: seq<string>)
    ensures forall c :: c in ConflictsOf(input, provider, fields) ==>
              && c.field in fields
              && c == ConflictAt(input, provider, c.field)
              && InConflict(input.base, input.local, input.remote, c.field)
  {
    if fields != [] {
      var init := fields[..|fields| - 1];
      ConflictsSound(input, provider, init);
      assert forall x :: x in init ==> x in fields;
    }
  }

  /** Every overlapping field is recorded. */
  lemma {:induction false} ConflictsComplete<V>(input: MergeInput<V>, provider: string, fields: seq<string>,
                                                field: string)
    requires field in fields && InConflict(input.base, input.local, input.remote, field)
    ensures ConflictAt(input, provider, field) in ConflictsOf(input, provider, fields)
  {
    if field != fields[|fields| - 1] {
      ConflictsComplete(input, provider, fields[..|fields| - 1], field);
    }
  }

  /** The records stand in strictly increasing field order. */
  lemma {:induction false} ConflictsAscend<V>(input: MergeInput<V>, provider: string, fields: seq<string>)
    requires Ascending(fields)
    ensures FieldsAscend(ConflictsOf(input, provider, fields))
  {
    if fields != [] {
      var init, last := fields[..|fields| - 1], fields[|fields| - 1];
      ConflictsAscend(input, provider, init);
      ConflictsSound(input, provider, init);
      forall c | c in ConflictsOf(input, provider, init)
        ensures Less(c.field, last)
      {
        var i :| 0 <= i < |init| && init[i] == c.field;
        assert Less(fields[i], fields[|fields| - 1]);
      }
    }
  }

  lemma ConflictsExist<V>(input: MergeInput<V>, provider: string, fields: seq<string>)
    requires Ascending(fields) && Elements(fields) == AllFields(input.base, input.local, input.remote)
    ensures ConflictsOf(input, provider, fields) == [] <==> ConflictFields(input.base, input.local, input.remote) == {}
  {
    var conflicts := ConflictsOf(input, provider, fields);
    if conflicts != [] {
      ConflictsSound(input, provider, fields);
      assert conflicts[0] in conflicts;
      assert conflicts[0].field in Elements(fields);
      assert conflicts[0].field in ConflictFields(input.base, input.local, input.remote);
    }
    if field :| field in ConflictFields(input.base, input.local, input.remote) {
      assert field in Elements(fields);
      ConflictsComplete(input, provider, fields, field);
    }
  }

  /** One record for each overlapping field, with its three values, in strictly increasing field order. */
  ghost predicate Records<V>(input: MergeInput<V>, provider: string, conflicts: seq<FieldConflict<V>>) {
    && FieldsAscend(conflicts)
    && Elements(Map((c: FieldConflict<V>) => c.field, conflicts)) ==
         ConflictFields(input.base, input.local, input.remote)
    && forall c :: c in conflicts ==>
         && c.providerID == provider && c.entityType == input.entityType && c.entityID == input.entityID
         && c.base == Get(input.base, c.field) && c.local == Get(input.local, c.field)
         && c.remote == Get(input.remote, c.field)
         && c.id == ConflictID(provider, input.entityType, input.entityID, c.field)
  }

  /** The conflicts of a merge are exactly the overlapping fields. */
  lemma ConflictsAreOverlaps<V>(input: MergeInput<V>, provider: string, fields: seq<string>)
    requires Ascending(fields) && Elements(fields) == AllFields(input.base, input.local, input.remote)
    ensures Records(input, provider, ConflictsOf(input, provider, fields))
  {
    var conflicts := ConflictsOf(input, provider, fields);
    var name := (c: FieldConflict<V>) => c.field;
    ConflictsAscend(input, provider, fields);
    ConflictsSound(input, provider, fields);
    forall field
      ensures field in Map(name, conflicts) <==> field in ConflictFields(input.base, input.local, input.remote)
    {
      if field in Map(name, conflicts) {
        var i :| 0 <= i < |conflicts| && Map(name, conflicts)[i] == field;
        assert conflicts[i] in conflicts;
        assert field in Elements(fields);
      }
      if field in ConflictFields(input.base, input.local, input.remote) {
        assert field in Elements(fields);
        ConflictsComplete(input, provider, fields, field);
        var i :| 0 <= i < |conflicts| && conflicts[i] == ConflictAt(input, provider, field);
        assert Map(name, conflicts)[i] == field;
      }
    }
  }
}

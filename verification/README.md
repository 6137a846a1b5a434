# A verified model of the task manager's core

The program keeps tasks of several providers in a local store, shows them as grouped and
nested rows, edits them through a filter language and a text document, and exchanges them with
remote providers through a durable queue. This project models the parts where that gets
intricate and proves what they promise. `dafny verify dfyconfig.toml` checks everything.

## What is modelled

- **Rows on the screen.** `TaskHierarchy` turns flat rows with parent links, possibly cyclic, into
  nested preorder rows; `HierarchyLaws` proves what holds for every parent graph, `HierarchyAgreement`
  that on acyclic links the traversal agrees with the separate per-row definition of visibility and
  depth, `HierarchyOverrides` what overriding the display of single parents does. `KeyedGroups` and `TaskGroups`
  add grouping, `GroupLaws` what the displayed groups look like, `ListWindow` the fast window over one list,
  `StatusCell` the scrolled table line and the coloured range in it. `ParentGraph` holds the theory of
  parent links, cycles and ranks that these and the pull use.
- **Changes and their payload.** `TaskPatch` covers list memberships and patches, `MutationPayload` the
  queued payload that carries a patched snapshot together with the patch.
- **Pull.** `FieldMerge` is the three-way merge, `Reconcile` one pulled snapshot against the cache and its
  merge bases, and the tasks missing from a listing, `ReconcileTasks` a batch in which parents may come
  after their children. `EventStream` is the bounded event buffer, `TimeTracking` the timer accounts.
- **Push.** `OperationQueue` is the durable queue with its push loop, `QueueRuns` the whole system of
  enqueues, workers, crashes and restarts, `SyncTrace` the order of calls a worker may make,
  `SyncWorker` the worker's cycle, `ClaimGuard` the shared queue's memory of claims.
- **Text.** `FilterTokens` and `FilterParser` are the filter language, `FilterGrammar` its grammar,
  `FilterQuoting` the quoting of completed names, `FilterSpelling` which texts the tokenizer reads as what,
  `JsonText` JSON strings after section 7 of RFC 8259,
  `TaskDocument` the document a task is edited in.

`Common`, `Text`, `Sorting`, `Hexadecimal` and `TaskRows` are shared vocabulary. Objects that the program
updates in place are classes here (the traversal's visited map and output, the cache, the repository,
the worker, the event stream, the tracker, the parser), loops are loops, and each is proved against
a function or predicate whose properties are then proved as lemmas. Stores, providers, clocks and
receivers answer through parameters: every store call of the pull and of the queues has a fault input, as do
the tracker's writes, and every reply is arbitrary.

## What the proofs show about the program

- The implicit conjunction of the filter language does not extend to the keyword `not`: `a not b` is
  rejected, although `a !b` and `a and not b` are accepted. The doc comment of the parser
  (`internal/tui/filter_expression.go:45-47`) does not say so. `FilterGrammar.DocumentedGrammar` gives the exact condition.
- A name offered by completion that contains a line break but nothing else special is not quoted, and is
  read back as several operands; `FilterQuoting.CompletionReadBack` states exactly when a condition survives,
  `FilterQuoting.LineBreakIsLost` is an input where it does not.
- When storing the new merge base fails after the entity was stored, the next remote edit is reported as
  a conflict although nobody edited locally (`Reconcile.LostBaseDisputes`). `Reconcile.PullKeepsBases` says
  exactly which snapshots and failing calls lose a base.
- An error of the reconciliation reaches its callers as a panic, because they assert the type of the value,
  which is missing then, before they look at the error (`internal/bootstrap/foundation.go:1281-1297`).
  `Reconcile.CachedProvider.ReconcileTask` says exactly when that happens, `Reconcile.LookupPanics` is an input;
  no caller recovers.
- The shared queue accepts the release of a claimed operation exactly when the operation belongs to the worker's
  provider. A queue that hands out a foreign one breaks its contract (`internal/sync/contracts.go:165-174`); its lease
  then runs until stale leases are recovered (`ClaimGuard.SharedQueue.ClaimAndRelease`).
- A task document loses CRLF line ends, also one formed by a final CR and the newline the renderer adds,
  and the editor does not accept the priority "none" (`TaskDocument.DocumentReadBack`, with inputs in
  `TaskDocument.DosEndIsLost` and `TaskDocument.NoneIsLost`).
- A payload of a created task without any list would not be decoded (`MutationPayload.CreateDecodes`,
  `MutationPayload.ListlessIsLost`).
- The fast list window ignores a collapsed group with the empty key, which would hide all rows of the general
  projection (`ListWindow.WindowRefines`). The program never collapses it: without grouping the toggles return
  early (`internal/tui/update.go:1390-1397`, `internal/tui/update.go:2563-2566`), and restoring skips empty keys
  (`internal/bootstrap/foundation.go:2814-2818`), so the condition of the lemma is met there.
- Switching the tracked task reads the clock for the new session before it stops the old one. The two history
  intervals are apart exactly when the second reading is no later than the first and the old session started no
  later either (`TimeTracking.SwitchOverlaps`, with an input in `TimeTracking.OneTickOverlaps`); the totals match
  the history all the same.

## Assumptions

Entity IDs are unique per provider. Tables store each row under its key and index remote IDs uniquely.
What storing makes of an entity's fields is a parameter that is idempotent, and keeps the parent field where
parents matter. Text is a sequence of Unicode scalar values; case folding is ASCII, which is exact for the
filter keywords. Which characters Go prints unescaped, and the text form of instants, are parameters.

## Model

| member | source | states |
|---|---|---|
| TaskHierarchy.VisibleOrphanDepth | internal/tui/projection.go:705-739 | The per-row loop: on every graph a row is visible exactly when nothing on its way up the parent links is collapsed, and its depth counts the expanded tasks up to the first one shown apart, the end of the way or its repetition; a parent that is not stored counts too. |
| TaskHierarchy.DepthOnTheWay | internal/tui/projection.go:705-739 | The same of the per-row definition that the arrangement is compared with, in terms of the n-th task up the links. |
| TaskHierarchy.MissingParent | internal/tui/projection.go:720-724 | Below a parent that is not stored a row is hidden, one deep or at depth 0, as that parent is displayed. |
| TaskHierarchy.Traversal.AppendTaskTree | internal/tui/projection.go:671-693 | Appending a tree marks and outputs exactly what the specification of the traversal says, each row at most once, and ends on every parent graph. |
| TaskHierarchy.Traversal.MarkTaskTree | internal/tui/projection.go:695-703 | Marking a hidden tree is the specified recursion with the visited set, and outputs nothing. |
| HierarchyLaws.MarkReaches | internal/tui/projection.go:695-703 | On every parent graph, marking adds exactly the rows reached from the row through rows not yet visited. |
| TaskHierarchy.BuildForest | internal/tui/projection.go:623-651 | The children index holds, for every task in view, its rows in input order; the other rows are roots. |
| TaskHierarchy.ArrangeTaskHierarchy | internal/tui/projection.go:623-669 | The arrangement computed with the visited map equals the specified arrangement. |
| HierarchyLaws.ArrangeShowsOnce | internal/tui/projection.go:623-703 | On every parent graph, cycles included, all rows are visited, none is shown twice, and without collapsed parents none is lost. |
| HierarchyLaws.ArrangeSound | internal/tui/projection.go:652-669 | Only positions of input rows are shown, each at most once; all positions are visited, and shown when nothing is collapsed. |
| HierarchyLaws.CycleEntered | internal/tui/projection.go:652-669 | Rows that no root reaches come after all trees of roots, and the first of them in the input comes first. |
| HierarchyAgreement.ArrangementAgrees | internal/tui/projection.go:623-749 | On acyclic links a row is shown exactly when the per-row definition says so, with that depth, and each shown row is directly followed by its shown descendants in view, siblings in input order. |
| HierarchyAgreement.DepthFollowsParent | internal/tui/projection.go:705-739 | A row whose parent is in view is hidden or one deeper as its parent's depth and display mode say. |
| HierarchyOverrides.CollapsedOverrideHides | internal/tui/projection.go:741-749 | A collapsed override hides everything below its row in the arrangement, however the view displays subtasks. |
| HierarchyOverrides.ExpandedOverridesShow | internal/tui/projection.go:741-749 | A row below nothing but expanded overrides is shown, however the view displays subtasks. |
| HierarchyOverrides.SeparateOverrideIgnored | internal/tui/projection.go:741-749 | An override that says separate leaves the whole arrangement as it is without it. |
| HierarchyOverrides.DisplayDecides | internal/tui/projection.go:741-749 | Without overrides exactly the rows with a parent are hidden in a collapsed view, and none in another. |
| TaskGroups.GroupingRowTask | internal/tui/projection.go:582-594 | The loop over the parents finds the task that decides a row's group, bounded by the number of tasks on a cycle. |
| TaskGroups.TreeSameGroup | README.md:61 | On acyclic links a task and all its descendants are in the same group. |
| GroupLaws.NamedByTop | internal/tui/projection.go:582-621 | On acyclic links a row's group is named after the status, assignee or priority of the task at the top of its tree, trimmed, or after the word for a blank one. |
| TaskGroups.GroupTaskRows | internal/tui/projection.go:548-580 | Every row is in the group of its key, in input order; a group is headed by the value of its first row, its key is that heading normalized, and groups are sorted by heading or priority, ties in the order in which the keys appear. |
| TaskGroups.GatherTaskRows | internal/tui/projection.go:557-568 | Before sorting there is one group per key, in the order of first appearance. |
| TaskGroups.SortStatuses | internal/tui/projection.go:401-413 | Status groups are strictly ordered by configured order first, then by heading, with the same headings and rows. |
| TaskGroups.VisibleTaskGroups | internal/tui/projection.go:379-417 | The visible groups hold exactly the shown rows of their keys under the headings of their first rows, in the order of the mode; without collapsed parents they are a permutation of all rows, and without collapsed groups so is their flattening. |
| TaskGroups.GroupAgrees | internal/tui/projection.go:379-417 | Within each group the rows shown are those the per-row definition shows in that group's view. |
| GroupLaws.PrioritiesDescend | internal/tui/projection.go:935-948 | Groups by priority stand urgent first, then high, normal, low, and all others last. |
| GroupLaws.AssigneesAscend | internal/tui/projection.go:569-574 | Groups by assignee stand strictly in the order of their names. |
| GroupLaws.StatusesInOrder | internal/tui/projection.go:401-413 | Configured statuses stand before all others in their configured order; ties and the rest stand by name. |
| GroupLaws.GroupsArranged | internal/tui/projection.go:379-392 | Each visible group shows the arrangement of the rows of its key; only an ungrouped view that displays subtasks apart, without overrides, keeps the input order. |
| GroupLaws.CollapsedByName | internal/tui/projection.go:527-532 | A group is collapsed exactly when its mode and key are remembered together. |
| KeyedGroups.GroupByKey | internal/tui/projection.go:557-568 | The map of group indexes partitions the rows by key, groups in the order of first appearance, each headed as its first row says. |
| KeyedGroups.FlattenTaskGroups | internal/tui/projection.go:457-469 | Flattening lists the rows of the groups that are not collapsed. |
| Sorting.StableSortSorts | internal/tui/projection.go:569-574 | The library sort, as used here, permutes and orders. |
| Sorting.StableSortIsStable | internal/tui/projection.go:569-574 | Items with equal keys keep their order. |
| Sorting.StableSortKeepsTies | internal/tui/projection.go:569-574 | Whatever positions grow along the items still grow along the items with equal keys. |
| Text.LessExactly | internal/tui/projection.go:569-574 | Texts are ordered by the first place where they differ, a text before its continuations. |
| ListWindow.TaskRowsOfList | internal/tui/projection.go:155-254 | In a plain list view the general projection yields the row of every task of the list, in the order of the tasks. |
| ListWindow.ListsTasks | internal/tui/projection.go:155-254 | A list shows a task exactly when it is one of the task's lists, primary or not. |
| ListWindow.RowSays | internal/tui/projection.go:345-377 | A row names list, space and provider as they are stored, and by their IDs where they have no name. |
| ListWindow.VisibleTasks | internal/tui/projection.go:127-130 | The visible tasks are those rows, or none when the ungrouped group is collapsed. |
| ListWindow.SimpleListTaskRow | internal/tui/projection.go:345-377 | The row built by searches equals the row built from indexes, before column values. |
| ListWindow.CollectRows | internal/tui/projection.go:290-308 | The loop that stops at a full window collects the slice of the list's tasks. |
| ListWindow.FillValues | internal/tui/projection.go:315-326 | Filling in afterwards gives each row the values of the last entry for its task. |
| ListWindow.SimpleListTaskRows | internal/tui/projection.go:258-327 | The fast form applies exactly in a plain view of an existing list with a positive limit, and then yields the slice of the general rows from the clamped offset, with that offset. |
| ListWindow.WindowRefines | internal/tui/projection.go:127-130 | The window is the slice of the visible tasks exactly when the one group is not collapsed or has no rows. |
| StatusCell.Fit | internal/tui/view.go:824-836 | A cell has exactly its width; longer text is cut and marked. |
| StatusCell.FitAtOffset | internal/tui/view.go:838-847 | A scrolled text has exactly its width and shows the text from the offset on. |
| StatusCell.TaskTableLine | internal/tui/view.go:1012-1022 | The line consists of the marker and, in each column's place, its fitted value. |
| StatusCell.FixedTaskColumnCount | internal/tui/view.go:1047-1057 | The count is that of the leading fixed columns. |
| StatusCell.TaskTableFixedPrefixWidth | internal/tui/view.go:1059-1075 | The prefix reaches to the start of the first scrolling column. |
| StatusCell.FitTaskTableLine | internal/tui/view.go:1028-1045 | The line on the screen has exactly the requested width and shows, place by place, the fixed part and the scrolled rest. |
| StatusCell.TaskStatusCellRange | internal/tui/charm.go:915-969 | The range covers exactly the places of the screen that show the status cell. |
| StatusCell.ColorTaskStatusCell | internal/tui/charm.go:894-913 | Exactly the visible part of the status cell is coloured, and the text does not change. |
| TaskPatch.NormalizeListMemberships | internal/domain/models.go:512-534 | Succeeds exactly for distinct, valid memberships that include the primary list. |
| TaskPatch.AddToList | internal/domain/models.go:537-552 | Adds a list at the end, once. |
| TaskPatch.RemoveFromList | internal/domain/models.go:556-584 | Removes a list, reassigns the primary list, and refuses unknown and last lists. |
| TaskPatch.MoveToList | internal/domain/models.go:587-594 | The moved task is in the new list alone, with valid and normal memberships, and otherwise the same; a malformed list ID is refused. |
| TaskPatch.Validate | internal/domain/task_patch.go:319-371 | Accepts exactly the patches without duplicate, clashing or malformed changes. |
| TaskPatch.Apply | internal/domain/task_patch.go:376-439 | On success every patched field has the patch's value, none where it is cleared, and its old value otherwise; identity, sync state, update time and tombstone stay; the task is in exactly the lists the patch leaves. Errors are as specified. |
| TaskPatch.MembershipAlgebra | internal/domain/task_patch.go:376-404 | Without a move the lists are (old and added) minus removed, distinct and in order; the primary list is a member, unchanged if kept and otherwise the first one left. |
| TaskPatch.LastListExactly | internal/domain/models.go:577-579 | The last-list error arises exactly when that set is empty. |
| TaskPatch.ApplyAgain | internal/domain/task_patch.go:376-439 | Applying a patch again changes nothing. |
| MutationPayload.DecodeTaskMutationPayload | internal/sync/foundation_adapter.go:530-565 | Decoding equals its specification, error by error. |
| MutationPayload.PatchReadBack | internal/domain/task_patch.go:160-214 | A patch written into the flat object is read back; one without changes is read as none. |
| MutationPayload.CreateDecodes | internal/app/service.go:335-342 | A created task is decoded as stored, exactly when it has a list. |
| MutationPayload.CreateFieldsWritten | internal/domain/task_patch.go:32-43 | Beside the snapshot each text field of a created task is written under its own name, empty ones left out where the format omits them. |
| MutationPayload.CreatePlaceWritten | internal/domain/task_patch.go:32-43 | So are its lists, its parent and its times. |
| MutationPayload.ListlessIsLost | internal/app/service.go:335-342 | A created task without any list is not decoded as stored. |
| MutationPayload.UpdateDecodes | internal/app/service.go:420-429 | Updated and completed tasks are decoded as stored, although the patch is applied twice, with each field as the patch says. |
| MutationPayload.MoveDecodes | internal/app/service.go:530-543 | A moved task is decoded as stored. |
| MutationPayload.DeleteDecodes | internal/domain/task_patch.go:146-155 | A deleted task is decoded as it was. |
| MutationPayload.ForeignRefused | internal/sync/foundation_adapter.go:548-556 | Payloads of another version, provider or entity are refused, as is a snapshot of another task. |
| FieldMerge.MergeProviderID | internal/sync/conflict.go:212-236 | Yields the one provider that is named, and the error that fits otherwise. |
| FieldMerge.MergeFields | internal/sync/conflict.go:100-160 | Computes the field-wise merge, one record per overlapping field in strictly increasing order, and the conflict state exactly when there is one. |
| FieldMerge.UnchangedLocal | internal/sync/conflict.go:94-99 | Local equal to base gives remote, without conflicts. |
| FieldMerge.UnchangedRemote | internal/sync/conflict.go:94-99 | Remote equal to base gives local, without conflicts. |
| FieldMerge.FieldByField | internal/sync/conflict.go:137-154 | Equal values on both sides are no conflict; one side's change is taken over; different changes conflict and keep the local value. |
| FieldMerge.SidesSwap | internal/sync/conflict.go:137-154 | Swapping sides keeps the conflict fields and all other values. |
| FieldMerge.MergeAgain | internal/sync/conflict.go:137-154 | Merging the result again changes nothing, conflicts included. |
| FieldMerge.ConflictsAreOverlaps | internal/sync/conflict.go:147-151 | The recorded conflicts are exactly the fields where all three values differ, absence being a value. |
| Reconcile.CachedProvider.ReconcileEntity | internal/bootstrap/foundation.go:1303-1379 | Every outcome leaves the cache as specified; it fails exactly when the cache, the snapshot and the failing calls say so, with that error; bases stay matched exactly unless that loses one; and every disputed field is recorded. |
| Reconcile.CachedProvider.ReconcileTask | internal/bootstrap/foundation.go:1281-1297 | The caller panics exactly when the reconciliation fails. |
| Reconcile.LookupPanics | internal/bootstrap/foundation.go:1281-1297 | An input for which the caller panics. |
| Reconcile.CachedProvider.MergeExisting | internal/bootstrap/foundation.go:1341-1378 | A known entity is merged and stored with conflicts or with a new base, never both, and fails exactly as specified: conflicts are unsaved exactly when the failing record is one of them. |
| Reconcile.SyncedFollowsRemote | internal/bootstrap/foundation.go:1341-1378 | With matching bases a synchronized entity ends with the remote fields, without a conflict, and with a matching base. |
| Reconcile.NewAdopted | internal/bootstrap/foundation.go:1303-1340 | A snapshot not stored yet is stored as a synchronized entity with the snapshot's identity and list, and its base with it. |
| Reconcile.KnownMerged | internal/bootstrap/foundation.go:1341-1378 | A stored entity is in conflict exactly when some field was changed differently on both sides, and keeps its state otherwise; pending, syncing, failed and conflicting ones keep fields and list, all others are merged. |
| Reconcile.EditedStates | internal/bootstrap/foundation.go:1548-1555 | Entities that are pending, syncing, failed or in conflict are the ones whose edits survive. |
| Reconcile.PullKeepsBases | internal/bootstrap/foundation.go:1303-1390 | Matching bases stay matching, exactly unless the pull reaches a base that cannot be saved and the snapshot changes what it should say. |
| Reconcile.PullKeepsEdits | internal/bootstrap/foundation.go:1355-1360 | Entities with local edits keep identity, list, fields and base, and are not deleted. |
| Reconcile.LostBaseDisputes | internal/bootstrap/foundation.go:1373-1377 | An input for which a lost base turns the next remote edit into a conflict. |
| Reconcile.CachedProvider.ReconcileMissingTask | internal/bootstrap/foundation.go:1516-1540 | A missing task is tombstoned exactly when it has no local edits and the provider no longer has it, else it follows the provider; every failure has exactly its cause. |
| Reconcile.CachedProvider.ReconcileMissingTasks | internal/bootstrap/foundation.go:1511-1541 | Over a whole listing, local edits survive, bases stay matched, and every task is settled; a failure comes from one task, with the tasks before it settled and no other task changed. |
| ReconcileTasks.ProcessTask | internal/bootstrap/foundation.go:1072-1107 | A task waits exactly while its parent is not stored, is skipped for local edits, or is pulled pointing at the stored parent; it stops the pull only for its exact reason. |
| ReconcileTasks.Pass | internal/bootstrap/foundation.go:1068-1114 | One pass over the slice filtered in place makes it shorter or leaves every task waiting. |
| ReconcileTasks.ReconcileTasks | internal/bootstrap/foundation.go:1056-1117 | The passes end: with every task of the batch ours and stored as its snapshot says, a task that names another one of the batch as its parent pointing at where that one is stored, any other keeping the parent it names; or stuck, all others placed and no parent of a task left stored; or stopped by one task in the state and call in which the pull met it, for that task's exact reason. Local edits and all other entities stay, bases stay matched when no save of a base fails, and only remote IDs of the batch are marked. When no call fails and the store takes the tasks of the batch, an unresolved parent is reported exactly when tasks not stored yet name each other as parents in a cycle. |
| ReconcileTasks.BatchInParents | internal/bootstrap/foundation.go:1060-1065 | With distinct IDs every task of the batch that has a remote ID is found as a possible parent. |
| ReconcileTasks.EntangledExactly | internal/bootstrap/foundation.go:1075-1086 | The parent links of the batch form a cycle exactly when tasks not stored yet name each other as parents in a cycle. |
| ReconcileTasks.EndsBelow | internal/bootstrap/foundation.go:1075-1086 | After a pull without an error both a task and the parent it names in the batch are stored, and a new or synchronized task points at that parent's stored ID. |
| ReconcileTasks.EndsApart | internal/bootstrap/foundation.go:1075-1087 | A new or synchronized task whose parent is not in the batch keeps the parent it names. |
| ReconcileTasks.EndedKeepsRest | internal/bootstrap/foundation.go:1056-1117 | However a pull ends, local edits survive and entities no task of the batch stands for are unchanged. |
| ReconcileTasks.CalmEnds | internal/bootstrap/foundation.go:1056-1117 | When no call fails and the store takes the tasks of the batch, no other error than an unresolved parent arises, and that exactly on a parent cycle. |
| ReconcileTasks.SnapshotAccepted | internal/bootstrap/foundation.go:1341-1360 | Over matching bases the store takes a new or synchronized task when it takes the snapshot itself. |
| ReconcileTasks.AllWaiting | internal/bootstrap/foundation.go:1110-1112 | Tasks that all wait contain a parent cycle. |
| ReconcileTasks.RunDone | internal/bootstrap/foundation.go:1056-1117 | A batch stored whole has no parent cycle. |
| ParentGraph.TrapHasCycle | internal/bootstrap/foundation.go:1110-1112 | A set closed under parents contains a cycle. |
| EventStream.Stream.Emit | internal/bootstrap/foundation.go:1631-1676 | With receivers running at any point, emitting never waits, loses at most one event and none while there is room, keeps emitted events equal to delivered, buffered and lost ones, and always buffers a terminal event. |
| EventStream.Stream.PushOut | internal/bootstrap/foundation.go:1649-1675 | What is given up for a terminal event is the victim of the drained buffer, and all others are put back. |
| EventStream.VictimTerminal | internal/bootstrap/foundation.go:1660-1669 | A terminal event is given up exactly when all drained events are terminal. |
| EventStream.SharedMultisets | internal/bootstrap/foundation.go:1631-1676 | The conservation law is equality of multisets. |
| TimeTracking.Tracking.StartTaskTracking | internal/bootstrap/foundation.go:2021-2106 | Start, switch and toggle: exactly when they succeed, the session they leave, the time a stopped one books on task and history, and whether its interval overlaps the new session; a failed call changes nothing or has stopped the old session. |
| TimeTracking.SwitchOverlaps | internal/bootstrap/foundation.go:2053-2084 | The interval of the stopped session and the new session are apart exactly when the second clock reading is no later than the first and the old session started no later either. |
| TimeTracking.OneTickOverlaps | internal/bootstrap/foundation.go:2053-2084 | An input with an overlap. |
| TimeTracking.Tracking.StopTaskTracking | internal/bootstrap/foundation.go:2108-2187 | Stopping succeeds exactly under its conditions, ends the session and books its time on task and history together, under the task's title and between the session's start and the clock reading. |
| TimeTracking.Tracking.UpdateTaskAndEndSession | internal/storage/sqlite/domain_state_adapter.go:103-144 | Each task's total stays its initial total plus the durations of its history. |
| TimeTracking.ConservedOneMore | internal/bootstrap/foundation.go:2168-2178 | One more entry keeps totals and history in step. |
| TimeTracking.StoppedTotalAdds | internal/storage/sqlite/database.go:364-369 | Storing milliseconds cuts totals and entries alike. |
| OperationQueue.Repository.Enqueue | internal/bootstrap/repository.go:348-371 | A valid row with an unused ID is added as given, any other changes nothing. |
| OperationQueue.Repository.ClaimNext | internal/bootstrap/repository.go:376-446 | Claims the row created first, ties by ID, of those that can be taken, puts it in flight and counts the attempt, made now; empty means that every other row of the provider is in flight, done, or failed and not due. |
| OperationQueue.Repository.UpdateOperationStatus | internal/bootstrap/repository.go:794-808 | Changes status and message of the provider's row and nothing else. |
| OperationQueue.Repository.RecoverInFlight | internal/bootstrap/repository.go:493-501 | Afterwards nothing is in flight; interrupted rows keep payload and attempts and can be claimed at once, and all other rows are unchanged. |
| OperationQueue.RetryDelay | internal/bootstrap/sync.go:401-410 | Delays lie between one second, which is the first, and five minutes, which all from the sixth on are. |
| OperationQueue.DelaysGrow | internal/bootstrap/sync.go:401-410 | Delays grow with the attempts, strictly up to the longest. |
| OperationQueue.Engine.Push | internal/bootstrap/sync.go:265-302 | The loop ends; every turn claims the row that is next and leaves of it exactly what the answer and its record make; it goes on exactly after recorded successes, ends drained, at a failing claim, or after the first operation not completed, with exactly the error of that; no other row changes, and without retries it serves in queue order. |
| OperationQueue.LastRow | internal/bootstrap/sync.go:278-297 | The operation a cycle stops at is failed with its message, pending after an interruption, or in flight when its record failed. |
| QueueRuns.StepKeeps | internal/bootstrap/repository.go:376-501 | Every step keeps the system invariant and all rows. |
| QueueRuns.RunInvariant | internal/bootstrap/sync.go:78-131 | The invariant holds in every state of every run with crashes and restarts. |
| QueueRuns.RunKeepsRows | internal/bootstrap/repository.go:794-808 | No row disappears or changes its payload, and a completed row never changes again. |
| QueueRuns.AttemptsCountClaims | internal/bootstrap/repository.go:420-424 | Attempts are the enqueued attempts plus the number of claims. |
| QueueRuns.CompletedWasApplied | internal/bootstrap/sync.go:278-299 | A row is completed only after the provider applied it. |
| QueueRuns.NeverClaimedAgain | internal/bootstrap/repository.go:385-389 | A completed row is never claimed again. |
| QueueRuns.FailedWaits | internal/bootstrap/repository.go:401-408 | In every run, a failed row is claimed again no earlier than the delay of its attempts after its last claim, and not at all where failures are not retried. |
| QueueRuns.StartRecovers | internal/bootstrap/sync.go:78-94 | After a start no row is in flight. |
| QueueRuns.PushIsRun | internal/bootstrap/sync.go:265-302 | A whole push cycle is a run of the system: for every turn in order its claim, its application and its settlement, with the turn's answers. |
| QueueRuns.System.EnqueueRow | internal/bootstrap/repository.go:348-371 | Enqueueing is a step of the system, or changes nothing. |
| QueueRuns.System.ClaimFor | internal/bootstrap/repository.go:376-446 | Claiming is a step of the system, or changes nothing. |
| QueueRuns.System.Record | internal/bootstrap/repository.go:448-466 | Complete, fail and release are settlement steps of the system. |
| QueueRuns.System.Restart | internal/bootstrap/sync.go:91-93 | Recovery at a start is the start step of the system. |
| SyncTrace.PushFollowsMark | internal/sync/worker.go:251-272 | Every push directly follows the attempt mark of the operation just claimed. |
| SyncTrace.SettledAfterPush | internal/sync/worker.go:272-299 | Complete only right after a successful push, fail only right after a failed one, with the claim's provider and lease. |
| SyncTrace.BetweenClaims | internal/sync/worker.go:234-307 | Between two claims lie exactly a mark, a successful push and a recorded completion. |
| SyncTrace.ReleaseAfterClaim | internal/sync/worker.go:427-468 | A release ends the cycle and gives back the operation claimed last. |
| SyncTrace.PullAfterEmpty | internal/sync/worker.go:239-242 | The pull is last and only follows a report that the queue is empty. |
| SyncTrace.AllSettled | internal/sync/contracts.go:165-171 | Every delivered operation is settled by exactly one call. |
| SyncWorker.Worker.SyncOnce | internal/sync/worker.go:212-323 | Every cycle makes its calls in order and no others, each with its turn's answer: an own claimed operation is marked unless the caller canceled meanwhile, a pushed one is completed, and after a failed push, which ends the cycle, the failure is recorded unless provider or caller canceled, when the claim is given back. The last call decides error and state: a recorded failure is the provider's, a release for cancellation stops the worker. No claim is left over, marks and completions are counted, and the cycle succeeds exactly when the turns drain the queue and the pull succeeds. |
| SyncWorker.Worker.Attempt | internal/sync/worker.go:254-306 | An attempt is marked, pushed and settled: completed after success; after a failed push recorded exactly when neither the provider nor the caller canceled, and released otherwise, with the error and state that fit; the loop goes on only after a recorded completion. |
| SyncWorker.Worker.PersistFailure | internal/sync/worker.go:393-425 | A provider failure is recorded by exactly one call. |
| SyncWorker.Worker.CancelClaim | internal/sync/worker.go:452-461 | A canceled claim is released and the worker stops. |
| ClaimGuard.SharedQueue.Claim | internal/sync/foundation_adapter.go:695-707 | A claim with a lease is remembered as the operation's latest. |
| ClaimGuard.SharedQueue.Settle | internal/sync/foundation_adapter.go:713-757 | A settlement is accepted exactly for the latest claim's provider and lease, if the queue accepts, at most once per claim, and forgets no other claim. |
| ClaimGuard.SharedQueue.ClaimAndRelease | internal/sync/worker.go:248-252 | A claimed operation is given back exactly when it belongs to the worker's provider and the queue accepts; otherwise its claim stays. |
| ClaimGuard.ClaimKeepsLedger | internal/sync/foundation_adapter.go:700-705 | A new claim supersedes the operation's earlier one and keeps the settlement record. |
| ClaimGuard.AttemptsAgree | internal/sync/foundation_adapter.go:149-153 | The worker's increment restores the stored number of attempts. |
| FilterTokens.TokenizeFilter | internal/tui/filter_expression.go:68-125 | The index loop yields the specified tokens or error; `FilterSpelling.TokensExactly` says which texts those are. |
| FilterTokens.FilterOperatorAt | internal/tui/filter_expression.go:135-153 | The first operator of the list that matches is found. |
| FilterTokens.NamedEscapeRead | internal/tui/filter_expression.go:155-157 | The named escapes of a quoted value are read as their characters. |
| FilterParser.Parser.Or | internal/tui/filter_expression.go:159-173 | The method agrees with the parse function at its position. |
| FilterParser.Parser.And | internal/tui/filter_expression.go:175-196 | The method agrees with the parse function at its position. |
| FilterParser.Parser.Unary | internal/tui/filter_expression.go:198-223 | The method agrees with the parse function at its position. |
| FilterParser.Parser.Compare | internal/tui/filter_expression.go:225-242 | The method agrees with the parse function at its position. |
| FilterParser.ParseAll | internal/tui/filter_expression.go:57-65 | Only token lists consumed in full are accepted. |
| FilterGrammar.ParserRecognizes | internal/tui/filter_expression.go:159-257 | The parser accepts exactly the token lists of the grammar. |
| FilterGrammar.DerivedParsed | internal/tui/filter_expression.go:159-257 | Every derivation is parsed to its meaning, left associated and with AND before OR. |
| FilterGrammar.OneMeaning | internal/tui/filter_expression.go:45-47 | The grammar is unambiguous in meaning. |
| FilterGrammar.BareParsed | internal/tui/filter_expression.go:225-242 | A single value is the filter for texts that contain it. |
| FilterGrammar.AndBindsTighter | internal/tui/filter_expression.go:45-47 | "and", written or not, binds more tightly than "or". |
| FilterGrammar.NotBindsTightest | internal/tui/filter_expression.go:45-47 | "not" binds most tightly, and operators of one kind bind from the left. |
| FilterGrammar.DocumentedGrammar | internal/tui/filter_expression.go:244-253 | Of the grammar with implicit AND before any conjunct, exactly the token lists without a "not" behind an operand are accepted. |
| FilterGrammar.ANotBRejected | internal/tui/filter_expression.go:185-190 | An input of that grammar which is rejected. |
| FilterGrammar.RenderedParses | internal/tui/filter_expression.go:159-257 | The parenthesized rendering of any expression is parsed back to it. |
| FilterQuoting.ParseFilter | internal/tui/filter_expression.go:48-66 | Trims, tokenizes and parses; a blank text is the filter without an expression. `CompletionReadBack` says what that makes of a completed condition. |
| FilterQuoting.QuotedHead | internal/tui/filter_expression.go:87-111 | A quoted text is read as one token with that text. |
| FilterQuoting.CompletionReadBack | internal/tui/view_completion.go:218-223 | A condition of completed names is parsed to that condition, exactly when no unquoted name contains a line break. |
| FilterQuoting.LineBreakIsLost | internal/tui/view_completion.go:218-223 | A name with a line break that is not read back. |
| FilterSpelling.TokensExactly | internal/tui/filter_expression.go:68-153 | A text is read as some tokens exactly when it is written with them: parentheses and operators as themselves, quoted values as literals, other values as words up to a separator, any blanks between; any other text is refused. |
| FilterSpelling.FilterExactly | internal/tui/filter_expression.go:48-66 | A filter text means an expression exactly when, trimmed, it is written with the tokens of a derivation of that meaning. |
| FilterSpelling.ExpressionReadBack | internal/tui/filter_expression.go:48-66 | Any expression with operators of the language, written out with quoted values and parentheses, in any white space, is parsed back to it. |
| JsonText.QuoteReadBack | internal/tui/task_document.go:135-138 | A JSON string is read back. |
| JsonText.StandardEscape | internal/tui/task_document.go:188-194 | The short escapes of RFC 8259 are read as their characters. |
| TaskDocument.RenderTaskDocument | internal/tui/task_document.go:20-46 | The document has its lines in order. |
| TaskDocument.ShownFields | internal/tui/task_document.go:22-41 | Under each key the header shows that field of the task, null where it is missing. |
| TaskDocument.ReadHeader | internal/tui/task_document.go:73-83 | The loop reads the values of the front matter, the last line of a key counting. |
| TaskDocument.LastLineCounts | internal/tui/task_document.go:73-83 | Of several lines with one key the last decides its value. |
| TaskDocument.SplitExactly | internal/tui/task_document.go:57-72 | A document has a header exactly when its first line is a fence and a later line starts with one. |
| TaskDocument.ApplyValues | internal/tui/task_document.go:84-130 | A field without a line stays, one with a line is what the line says, nothing else changes, and the rejections are those of the editor; `ValuesReadBack` says what that makes of a rendered task. |
| TaskDocument.ValuesReadBack | internal/tui/task_document.go:84-130 | The values of a rendered task give the original with the edits, exactly when the edits keep ID, provider and list and the editor accepts priority and status. |
| TaskDocument.ParseTaskDocument | internal/tui/task_document.go:57-133 | Parsing equals its specification and changes nothing but assignee, title, description, status, priority and due date. |
| TaskDocument.BodyReadBack | internal/tui/task_document.go:66-71 | The body is the description exactly when it has no line end that is rewritten. |
| TaskDocument.DocumentReadBack | internal/tui/task_document.go:57-133 | Parsing the rendering gives the original with the edits, exactly when ID, provider and list are kept, priority and status are accepted and no line end is rewritten; it is refused exactly when one of the former fails. |
| TaskDocument.DosEndIsLost | internal/tui/task_document.go:66-71 | A description with a CRLF line end that is not read back. |
| TaskDocument.NoneIsLost | internal/tui/task_document.go:108-112 | The priority "none" is not read back. |
| TaskDocument.EqualExactly | internal/tui/task_document.go:212-221 | An edit is judged equal exactly when it changes nothing of the task. |
| TaskDocument.UntouchedSave | internal/tui/task_document.go:212-221 | A save without edits is judged equal. |

## Left out

- FilterTokens.Unescape: escapes `\x` above 7F and octal escapes, which write single bytes, are rejected here, because text is modelled as characters.
- Text.Lower: folds ASCII letters only, because the model has no Unicode tables; group keys and labels of other scripts are compared as written.
- TaskPatch.NormalizeListMemberships: one error stands for the source's distinct errors about malformed memberships.
- MutationPayload.Unmarshal: JSON null fields and number precision are not modelled, because payloads are maps of present, typed fields; older rows are read through a parameter.
- ListWindow.TaskRowsOfList: own-tasks mode, search, filter, sorting and other scopes of the general projection are off, as they are wherever the fast form applies; providers that occur only in tasks are looked up by their ID.
- MutationPayload.UpdateDecodes: equality is with the task as it was handed to the store; read back from the store, its lists come with the primary one first and the others sorted (`internal/storage/sqlite/task.go:422`).
- ReconcileTasks.ReconcileTasks: the conflict records of a batch are not followed past the pull of their own task, because record IDs join names with colons and need not differ between entities; the order among tasks that waited in an earlier pass is not stated.
- Reconcile.CachedProvider.ReconcileEntity: models tasks; spaces and lists go through the same code and keep their local parent.
- TimeTracking.Tracking.StartTaskTracking: timers of remote providers, whose start and stop are replies of a transport, are not part of this model; other writers of a task's total are not either.
- ClaimGuard.SharedQueue.Settle: one call is atomic here; two settlements of one claim that overlap inside the call rely on the store's own lease check.
- SyncWorker.Worker.SyncOnce: events, retry delays and failure kinds are left out, because they do not change the order of calls; the kind of a provider error is an input.
- EventStream.Stream.Emit: the order of events is not kept when a receiver runs while the buffer is drained, so no order is claimed there.
- The leased queue of internal/storage/sqlite and its SQL: represented by the queue's contract.
- The matching of filter conditions against rows and the sort by columns: comparisons of mixed numbers and text are not transitive.
- Storing a task together with its queued operation, list and space mutations, and other validation: single transactions and checks without further structure.
- Rendering, key handling, onboarding, configuration, credentials, transports and clocks: input and output.

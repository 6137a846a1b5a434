/** Tasks, the rows projected from them, and how a view displays subtasks. */
module TaskRows {
  import opened Common

  datatype TaskRef = TaskRef(providerID: string, taskID: string)

  datatype Task = Task(
    providerID: string,
    id: string,
    listID: string,
    listIDs: seq<string>,
    parentTaskID: Option<string>,
    title: string,
    assignee: string,
    status: string,
    priority: string)
  {
    function Ref(): TaskRef { TaskRef(providerID, id) }

    /** An absent and an empty parent ID both mean a top-level task. */
    predicate HasParent() { parentTaskID.Some? && parentTaskID.value != "" }

    function ParentRef(): TaskRef
      requires HasParent()
    {
      TaskRef(providerID, parentTaskID.value)
    }
  }

  datatype TaskRow = TaskRow(
    task: Task,
    providerID: string,
    providerName: string,
    assignee: string,
    spaceID: string,
    spaceName: string,
    listID: string,
    listName: string,
    listNames: seq<string>,
    columnValues: map<string, string>,
    searchResult: bool,
    hierarchyDepth: nat,
    hasSubtasks: bool)
  {
    function Ref(): TaskRef { task.Ref() }
  }

  datatype DisplayMode = Expanded | Collapsed | Separate

  datatype SubtaskView = SubtaskView(display: DisplayMode, overrides: map<TaskRef, DisplayMode>) {
    /** An override counts only when it says expanded or collapsed. */
    function ModeFor(parent: TaskRef): DisplayMode {
      if parent in overrides && overrides[parent] != Separate then overrides[parent] else display
    }
  }

  /** Every task is stored under its own identity. */
  ghost predicate KeyedByRef(all: map<TaskRef, Task>) {
    forall ref :: ref in all ==> all[ref].Ref() == ref
  }

  /** Rows show stored tasks under their own provider. */
  ghost predicate RowsOf(rows: seq<TaskRow>, all: map<TaskRef, Task>) {
    && KeyedByRef(all)
    && forall i :: 0 <= i < |rows| ==>
         rows[i].Ref() in all && all[rows[i].Ref()] == rows[i].task && rows[i].providerID == rows[i].task.providerID
  }

  ghost predicate DistinctRows(rows: seq<TaskRow>) {
    forall i, j :: 0 <= i < j < |rows| ==> rows[i].Ref() != rows[j].Ref()
  }

  /** The parent link of every stored task that has one. */
  ghost function ParentLinks(all: map<TaskRef, Task>): map<TaskRef, TaskRef> {
    map ref | ref in all && all[ref].HasParent() :: all[ref].ParentRef()
  }
}

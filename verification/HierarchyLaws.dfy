/**
  What the arrangement of a task hierarchy guarantees on every graph of parents,
  cycles included: no row is shown twice, none is lost when nothing is
  collapsed, and marking a hidden tree reaches exactly its rows.
 */
module HierarchyLaws {
  import opened Common
  import opened TaskRows
  import opened TaskHierarchy

  // ----- rows shown once -----

  ghost function Shown(entries: seq<Entry>): set<nat> {
    set k | 0 <= k < |entries| :: entries[k].index
  }

  ghost predicate ShownOnce(entries: seq<Entry>) {
    forall i, j :: 0 <= i < j < |entries| ==> entries[i].index != entries[j].index
  }

  /** Progress that shows visited rows only, each once; all of them unless rows may hide. */
  ghost predicate Sound(forest: Forest, progress: Progress, complete: bool) {
    && ShownOnce(progress.entries)
    && progress.visited <= Positions(|forest.rows|)
    && Shown(progress.entries) <= progress.visited
    && (complete ==> Shown(progress.entries) == progress.visited)
  }

  ghost predicate NothingCollapsed(view: SubtaskView) {
    forall ref: TaskRef :: view.ModeFor(ref) != Collapsed
  }

  lemma {:induction false} MarkStaysWithin(forest: Forest, index: nat, visited: set<nat>)
    requires forest.Valid() && index < |forest.rows| && visited <= Positions(|forest.rows|)
    ensures Mark(forest, index, visited) <= Positions(|forest.rows|)
    decreases forest.Unvisited(visited), 0
  {
    if index !in visited {
      VisitShrinks(forest, visited, index, visited + {index});
      MarkAllStaysWithin(forest, forest.ChildrenOf(index), visited + {index});
    }
  }

  lemma {:induction false} MarkAllStaysWithin(forest: Forest, kids: seq<nat>, visited: set<nat>)
    requires forest.Valid() && Within(kids, |forest.rows|) && visited <= Positions(|forest.rows|)
    ensures MarkAll(forest, kids, visited) <= Positions(|forest.rows|)
    decreases forest.Unvisited(visited), 1, |kids|
  {
    if kids != [] {
      var first := Mark(forest, kids[0], visited);
      VisitsShrink(forest, visited, first);
      MarkStaysWithin(forest, kids[0], visited);
      MarkAllStaysWithin(forest, kids[1..], first);
    }
  }

  lemma ShowOne(forest: Forest, before: Progress, index: nat, depth: nat, complete: bool)
    requires Sound(forest, before, complete) && index < |forest.rows| && index !in before.visited
    ensures Sound(forest, Progress(before.entries + [Entry(index, depth)], before.visited + {index}), complete)
  {
    var after := before.entries + [Entry(index, depth)];
    assert after[|before.entries|].index == index;
    assert forall k :: 0 <= k < |before.entries| ==> after[k] == before.entries[k];
    assert Shown(after) == Shown(before.entries) + {index};
  }

  lemma {:induction false} AppendSound(view: SubtaskView, forest: Forest, index: nat, depth: nat, before: Progress,
                                       complete: bool)
    requires forest.Valid() && index < |forest.rows| && Sound(forest, before, complete)
    requires complete ==> NothingCollapsed(view)
    ensures Sound(forest, Append(view, forest, index, depth, before), complete)
    decreases forest.Unvisited(before.visited), 0
  {
    if index !in before.visited {
      var here := Progress(before.entries + [Entry(index, depth)], before.visited + {index});
      ShowOne(forest, before, index, depth, complete);
      VisitShrinks(forest, before.visited, index, here.visited);
      match view.ModeFor(forest.rows[index].Ref())
      case Collapsed => MarkAllStaysWithin(forest, forest.ChildrenOf(index), here.visited);
      case Expanded => AppendAllSound(view, forest, forest.ChildrenOf(index), depth + 1, here, complete);
      case Separate => AppendAllSound(view, forest, forest.ChildrenOf(index), 0, here, complete);
    }
  }

  lemma {:induction false} AppendAllSound(view: SubtaskView, forest: Forest, kids: seq<nat>, depth: nat,
                                          before: Progress, complete: bool)
    requires forest.Valid() && Within(kids, |forest.rows|) && Sound(forest, before, complete)
    requires complete ==> NothingCollapsed(view)
    ensures Sound(forest, AppendAll(view, forest, kids, depth, before), complete)
    decreases forest.Unvisited(before.visited), 1, |kids|
  {
    if kids != [] {
      var first := Append(view, forest, kids[0], depth, before);
      VisitsShrink(forest, before.visited, first.visited);
      AppendSound(view, forest, kids[0], depth, before, complete);
      AppendAllSound(view, forest, kids[1..], depth, first, complete);
    }
  }

  lemma {:induction false} NotCollapsedIsVisible(view: SubtaskView, ancestors: seq<TaskRef>)
    requires NothingCollapsed(view)
    ensures DepthUnder(view, ancestors).Some?
  {
    if ancestors != [] {
      NotCollapsedIsVisible(view, ancestors[1..]);
    }
  }

  lemma {:induction false} VisitAllSound(view: SubtaskView, all: map<TaskRef, Task>, forest: Forest, order: seq<nat>,
                                         before: Progress, complete: bool)
    requires forest.Valid() && Within(order, |forest.rows|) && Sound(forest, before, complete)
    requires complete ==> NothingCollapsed(view)
    ensures Sound(forest, VisitAll(view, all, forest, order, before), complete)
    ensures forall k :: k in order ==> k in VisitAll(view, all, forest, order, before).visited
    decreases |order|
  {
    if order != [] {
      AppendSoundOrMarked(view, all, forest, order[0], before, complete);
      VisitAllSound(view, all, forest, order[1..], Visit(view, all, forest, order[0], before), complete);
      assert order == [order[0]] + order[1..];
    }
  }

  lemma AppendSoundOrMarked(view: SubtaskView, all: map<TaskRef, Task>, forest: Forest, index: nat, before: Progress,
                            complete: bool)
    requires forest.Valid() && index < |forest.rows| && Sound(forest, before, complete)
    requires complete ==> NothingCollapsed(view)
    ensures Sound(forest, Visit(view, all, forest, index, before), complete)
  {
    if complete {
      NotCollapsedIsVisible(view, Ancestors(forest.rows[index], all));
    }
    match RowDepth(view, forest.rows[index], all)
    case None => MarkStaysWithin(forest, index, before.visited);
    case Some(depth) => AppendSound(view, forest, index, depth, before, complete);
  }

  /** Whatever the parents look like: every row is visited and none is shown twice. */
  lemma ArrangeShowsOnce(view: SubtaskView, rows: seq<TaskRow>, all: map<TaskRef, Task>)
    ensures var after := Arrange(view, rows, all);
            ShownOnce(after.entries) && Shown(after.entries) <= Positions(|rows|) && after.visited == Positions(|rows|)
    ensures NothingCollapsed(view) ==> Shown(Arrange(view, rows, all).entries) == Positions(|rows|)
  {
    ArrangeSound(view, rows, all, false);
    if NothingCollapsed(view) {
      ArrangeSound(view, rows, all, true);
    }
  }

  lemma ArrangeSound(view: SubtaskView, rows: seq<TaskRow>, all: map<TaskRef, Task>, complete: bool)
    requires complete ==> NothingCollapsed(view)
    ensures Sound(ForestOf(rows), Arrange(view, rows, all), complete)
    ensures Arrange(view, rows, all).visited == Positions(|rows|)
  {
    var forest := ForestOf(rows);
    var start := Progress([], {});
    VisitAllSound(view, all, forest, RootsOf(rows), start, complete);
    var middle := VisitAll(view, all, forest, RootsOf(rows), start);
    VisitAllSound(view, all, forest, Upto(|rows|), middle, complete);
    forall k: int | k in Positions(|rows|)
      ensures k in Arrange(view, rows, all).visited
    {
      assert Upto(|rows|)[k] == k;
    }
  }

  // ----- where cycles are entered -----

  /** What the trees of the rows without a parent in the view show. */
  ghost function FromRoots(view: SubtaskView, rows: seq<TaskRow>, all: map<TaskRef, Task>): Progress {
    VisitAll(view, all, ForestOf(rows), RootsOf(rows), Progress([], {}))
  }

  lemma {:induction false} AppendKeepsEntries(view: SubtaskView, forest: Forest, index: nat, depth: nat,
                                              before: Progress)
    requires forest.Valid() && index < |forest.rows|
    ensures before.entries <= Append(view, forest, index, depth, before).entries
    ensures index !in before.visited ==>
              before.entries + [Entry(index, depth)] <= Append(view, forest, index, depth, before).entries
    decreases forest.Unvisited(before.visited), 0
  {
    if index !in before.visited {
      var here := Progress(before.entries + [Entry(index, depth)], before.visited + {index});
      VisitShrinks(forest, before.visited, index, here.visited);
      AppendAllKeepsEntries(view, forest, forest.ChildrenOf(index), depth + 1, here);
      AppendAllKeepsEntries(view, forest, forest.ChildrenOf(index), 0, here);
    }
  }

  lemma {:induction false} AppendAllKeepsEntries(view: SubtaskView, forest: Forest, kids: seq<nat>, depth: nat,
                                                 before: Progress)
    requires forest.Valid() && Within(kids, |forest.rows|)
    ensures before.entries <= AppendAll(view, forest, kids, depth, before).entries
    decreases forest.Unvisited(before.visited), 1, |kids|
  {
    if kids != [] {
      AppendKeepsEntries(view, forest, kids[0], depth, before);
      var first := Append(view, forest, kids[0], depth, before);
      VisitsShrink(forest, before.visited, first.visited);
      AppendAllKeepsEntries(view, forest, kids[1..], depth, first);
    }
  }

  lemma {:induction false} VisitAllKeepsEntries(view: SubtaskView, all: map<TaskRef, Task>, forest: Forest,
                                                order: seq<nat>, before: Progress)
    requires forest.Valid() && Within(order, |forest.rows|)
    ensures before.entries <= VisitAll(view, all, forest, order, before).entries
    decreases |order|
  {
    if order != [] {
      var depth := RowDepth(view, forest.rows[order[0]], all);
      if depth.Some? {
        AppendKeepsEntries(view, forest, order[0], depth.value, before);
      }
      VisitAllKeepsEntries(view, all, forest, order[1..], Visit(view, all, forest, order[0], before));
    }
  }

  /** Visiting rows in order, the visited ones change nothing, and the first other one is shown next. */
  lemma {:induction false} FirstUnvisited(view: SubtaskView, all: map<TaskRef, Task>, forest: Forest, order: seq<nat>,
                                          before: Progress, i: nat)
    requires forest.Valid() && Within(order, |forest.rows|) && i < |order| && order[i] !in before.visited
    requires forall j :: 0 <= j < i ==> order[j] in before.visited
    requires RowDepth(view, forest.rows[order[i]], all).Some?
    ensures before.entries + [Entry(order[i], RowDepth(view, forest.rows[order[i]], all).value)]
            <= VisitAll(view, all, forest, order, before).entries
    decreases |order|
  {
    if i == 0 {
      AppendKeepsEntries(view, forest, order[0], RowDepth(view, forest.rows[order[0]], all).value, before);
      VisitAllKeepsEntries(view, all, forest, order[1..], Visit(view, all, forest, order[0], before));
    } else {
      var depth := RowDepth(view, forest.rows[order[0]], all);
      assert Visit(view, all, forest, order[0], before) == before;
      FirstUnvisited(view, all, forest, order[1..], before, i - 1);
    }
  }

  /**
    The rows that no tree of a row without a parent reaches lie below a cycle. They come after those trees,
    and the first of them in the input, if its own ancestors leave it visible, comes first.
   */
  lemma CycleEntered(view: SubtaskView, rows: seq<TaskRow>, all: map<TaskRef, Task>, k: nat)
    requires k < |rows| && k !in FromRoots(view, rows, all).visited
    requires forall j :: 0 <= j < k ==> j in FromRoots(view, rows, all).visited
    requires RowDepth(view, rows[k], all).Some?
    ensures FromRoots(view, rows, all).entries + [Entry(k, RowDepth(view, rows[k], all).value)]
            <= Arrange(view, rows, all).entries
  {
    FirstUnvisited(view, all, ForestOf(rows), Upto(|rows|), FromRoots(view, rows, all), k);
  }

  // ----- what marking a hidden tree reaches -----

  /** A way down from row to subtask, through rows that are not visited. */
  ghost predicate Way(forest: Forest, visited: set<nat>, way: seq<nat>) {
    && way != [] && Within(way, |forest.rows|)
    && (forall i :: 0 <= i < |way| ==> way[i] !in visited)
    && forall i :: 0 < i < |way| ==> way[i] in forest.ChildrenOf(way[i - 1])
  }

  ghost predicate Reaches(forest: Forest, visited: set<nat>, from: nat, to: nat) {
    exists way :: Way(forest, visited, way) && way[0] == from && way[|way| - 1] == to
  }

  lemma WayLonger(forest: Forest, visited: set<nat>, index: nat, rest: seq<nat>)
    requires index < |forest.rows| && index !in visited
    requires Way(forest, visited + {index}, rest) && rest[0] in forest.ChildrenOf(index)
    ensures Way(forest, visited, [index] + rest)
  {
    var way := [index] + rest;
    forall i | 0 < i < |way|
      ensures way[i] in forest.ChildrenOf(way[i - 1])
    {
      if i > 1 {
        assert rest[i - 1] in forest.ChildrenOf(rest[i - 2]);
      }
    }
  }

  lemma {:induction false} MarkFound(forest: Forest, index: nat, visited: set<nat>, k: nat) returns (way: seq<nat>)
    requires forest.Valid() && index < |forest.rows| && k in Mark(forest, index, visited) && k !in visited
    ensures Way(forest, visited, way) && way[0] == index && way[|way| - 1] == k
    decreases forest.Unvisited(visited), 0
  {
    if k == index {
      way := [index];
    } else {
      VisitShrinks(forest, visited, index, visited + {index});
      var j, rest := MarkAllFound(forest, forest.ChildrenOf(index), visited + {index}, k);
      WayLonger(forest, visited, index, rest);
      way := [index] + rest;
    }
  }

  lemma {:induction false} MarkAllFound(forest: Forest, kids: seq<nat>, visited: set<nat>, k: nat)
      returns (j: nat, way: seq<nat>)
    requires forest.Valid() && Within(kids, |forest.rows|) && k in MarkAll(forest, kids, visited) && k !in visited
    ensures j < |kids| && Way(forest, visited, way) && way[0] == kids[j] && way[|way| - 1] == k
    decreases forest.Unvisited(visited), 1, |kids|
  {
    var first := Mark(forest, kids[0], visited);
    if k in first {
      j := 0;
      way := MarkFound(forest, kids[0], visited, k);
    } else {
      VisitsShrink(forest, visited, first);
      var i;
      i, way := MarkAllFound(forest, kids[1..], first, k);
      j := i + 1;
    }
  }

  /** With a row all its subtasks are marked. */
  lemma {:induction false} MarkCloses(forest: Forest, index: nat, visited: set<nat>, k: nat, kid: nat)
    requires forest.Valid() && index < |forest.rows| && k < |forest.rows| && kid in forest.ChildrenOf(k)
    requires k in Mark(forest, index, visited) && k !in visited
    ensures kid in Mark(forest, index, visited)
    decreases forest.Unvisited(visited), 0
  {
    if k != index {
      VisitShrinks(forest, visited, index, visited + {index});
      MarkAllCloses(forest, forest.ChildrenOf(index), visited + {index}, k, kid);
    }
  }

  lemma {:induction false} MarkAllCloses(forest: Forest, kids: seq<nat>, visited: set<nat>, k: nat, kid: nat)
    requires forest.Valid() && Within(kids, |forest.rows|) && k < |forest.rows| && kid in forest.ChildrenOf(k)
    requires k in MarkAll(forest, kids, visited) && k !in visited
    ensures kid in MarkAll(forest, kids, visited)
    decreases forest.Unvisited(visited), 1, |kids|
  {
    var first := Mark(forest, kids[0], visited);
    if k in first {
      MarkCloses(forest, kids[0], visited, k, kid);
    } else {
      VisitsShrink(forest, visited, first);
      MarkAllCloses(forest, kids[1..], first, k, kid);
    }
  }

  lemma {:induction false} WayMarked(forest: Forest, index: nat, visited: set<nat>, way: seq<nat>, i: nat)
    requires forest.Valid() && index < |forest.rows| && Way(forest, visited, way) && way[0] == index && i < |way|
    ensures way[i] in Mark(forest, index, visited)
  {
    if i > 0 {
      WayMarked(forest, index, visited, way, i - 1);
      MarkCloses(forest, index, visited, way[i - 1], way[i]);
    }
  }

  /** On every graph of parents, marking adds exactly the rows reached from the row through rows not yet visited. */
  lemma MarkReaches(forest: Forest, index: nat, visited: set<nat>, k: nat)
    requires forest.Valid() && index < |forest.rows|
    ensures k in Mark(forest, index, visited) <==> k in visited || Reaches(forest, visited, index, k)
  {
    if k in Mark(forest, index, visited) && k !in visited {
      var way := MarkFound(forest, index, visited, k);
    }
    if Reaches(forest, visited, index, k) {
      var way :| Way(forest, visited, way) && way[0] == index && way[|way| - 1] == k;
      WayMarked(forest, index, visited, way, |way| - 1);
    }
  }
}

/**
  What the display overrides of single parents do to the arrangement.
 */
module HierarchyOverrides {
  import opened Common
  import opened ParentGraph
  import opened TaskRows
  import opened TaskHierarchy
  import opened HierarchyLaws
  import opened HierarchyAgreement

  /** A parent collapsed by an override hides every row below it, however the view displays subtasks. */
  lemma CollapsedOverrideHides(view: SubtaskView, rows: seq<TaskRow>, all: map<TaskRef, Task>, parent: TaskRef, k: nat,
                               n: nat)
    requires RowsOf(rows, all) && DistinctRows(rows) && Acyclic(ParentLinks(all))
    requires k < |rows| && AboveRow(all, rows[k], n) == Some(parent)
    requires parent in view.overrides && view.overrides[parent] == Collapsed
    ensures k !in Shown(Arrange(view, rows, all).entries)
  {
    ArrangementAgrees(view, rows, all);
    DepthOnTheWay(view, rows[k], all);
  }

  /** A row below nothing but parents expanded by an override is shown, however the view displays subtasks. */
  lemma ExpandedOverridesShow(view: SubtaskView, rows: seq<TaskRow>, all: map<TaskRef, Task>, k: nat)
    requires RowsOf(rows, all) && DistinctRows(rows) && Acyclic(ParentLinks(all)) && k < |rows|
    requires forall n :: AboveRow(all, rows[k], n).Some? ==>
               && AboveRow(all, rows[k], n).value in view.overrides
               && view.overrides[AboveRow(all, rows[k], n).value] == Expanded
    ensures k in Shown(Arrange(view, rows, all).entries)
  {
    ArrangementAgrees(view, rows, all);
    DepthOnTheWay(view, rows[k], all);
  }

  /** An override that says separate is none. */
  lemma SeparateOverrideIgnored(view: SubtaskView, parent: TaskRef, rows: seq<TaskRow>, all: map<TaskRef, Task>)
    ensures Arrange(view.(overrides := view.overrides[parent := Separate]), rows, all) ==
            Arrange(view.(overrides := view.overrides - {parent}), rows, all)
  {
    var forest := ForestOf(rows);
    var with := view.(overrides := view.overrides[parent := Separate]);
    var without := view.(overrides := view.overrides - {parent});
    VisitAllSame(with, without, all, forest, RootsOf(rows), Progress([], {}));
    VisitAllSame(with, without, all, forest, Upto(|rows|),
                 VisitAll(without, all, forest, RootsOf(rows), Progress([], {})));
  }

  /** Without overrides the view's display decides alone. */
  lemma DisplayDecides(view: SubtaskView, rows: seq<TaskRow>, all: map<TaskRef, Task>, k: nat)
    requires RowsOf(rows, all) && DistinctRows(rows) && Acyclic(ParentLinks(all))
    requires k < |rows| && view.overrides == map[]
    ensures k in Shown(Arrange(view, rows, all).entries) <==> view.display != Collapsed || !rows[k].task.HasParent()
  {
    ArrangementAgrees(view, rows, all);
    DepthOnTheWay(view, rows[k], all);
    if rows[k].task.HasParent() {
      assert AboveRow(all, rows[k], 0).Some?;
    } else {
      assert Ancestors(rows[k], all) == [];
    }
  }

  // ----- views that display every parent alike arrange alike -----

  ghost predicate SameModes(view: SubtaskView, other: SubtaskView) {
    forall ref :: view.ModeFor(ref) == other.ModeFor(ref)
  }

  lemma {:induction false} DepthSame(view: SubtaskView, other: SubtaskView, ancestors: seq<TaskRef>)
    requires SameModes(view, other)
    ensures DepthUnder(view, ancestors) == DepthUnder(other, ancestors)
  {
    if ancestors != [] {
      DepthSame(view, other, ancestors[1..]);
    }
  }

  lemma {:induction false} AppendSame(view: SubtaskView, other: SubtaskView, forest: Forest, index: nat, depth: nat,
                                      before: Progress)
    requires forest.Valid() && index < |forest.rows| && SameModes(view, other)
    ensures Append(view, forest, index, depth, before) == Append(other, forest, index, depth, before)
    decreases forest.Unvisited(before.visited), 0
  {
    if index !in before.visited {
      var here := Progress(before.entries + [Entry(index, depth)], before.visited + {index});
      VisitShrinks(forest, before.visited, index, here.visited);
      AppendAllSame(view, other, forest, forest.ChildrenOf(index), depth + 1, here);
      AppendAllSame(view, other, forest, forest.ChildrenOf(index), 0, here);
    }
  }

  lemma {:induction false} AppendAllSame(view: SubtaskView, other: SubtaskView, forest: Forest, kids: seq<nat>,
                                         depth: nat, before: Progress)
    requires forest.Valid() && Within(kids, |forest.rows|) && SameModes(view, other)
    ensures AppendAll(view, forest, kids, depth, before) == AppendAll(other, forest, kids, depth, before)
    decreases forest.Unvisited(before.visited), 1, |kids|
  {
    if kids != [] {
      AppendSame(view, other, forest, kids[0], depth, before);
      var first := Append(view, forest, kids[0], depth, before);
      VisitsShrink(forest, before.visited, first.visited);
      AppendAllSame(view, other, forest, kids[1..], depth, first);
    }
  }

  lemma {:induction false} VisitAllSame(view: SubtaskView, other: SubtaskView, all: map<TaskRef, Task>, forest: Forest,
                                        order: seq<nat>, before: Progress)
    requires forest.Valid() && Within(order, |forest.rows|) && SameModes(view, other)
    ensures VisitAll(view, all, forest, order, before) == VisitAll(other, all, forest, order, before)
    decreases |order|
  {
    if order != [] {
      DepthSame(view, other, Ancestors(forest.rows[order[0]], all));
      var depth := RowDepth(view, forest.rows[order[0]], all);
      AppendSame(view, other, forest, order[0], if depth.Some? then depth.value else 0, before);
      VisitAllSame(view, other, all, forest, order[1..], Visit(view, all, forest, order[0], before));
    }
  }
}

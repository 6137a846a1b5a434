/**
  On acyclic parent links the traversal and the per-row definition agree: a row
  is shown exactly when its own ancestors allow it, at exactly the depth they
  give, directly followed by its shown descendants, siblings in input order.
 */
module HierarchyAgreement {
  import opened Common
  import opened ParentGraph
  import opened TaskRows
  import opened TaskHierarchy
  import opened HierarchyLaws

  // ----- the setting: distinct rows of stored tasks whose parents form no cycle -----

  ghost predicate Ranked(rank: map<TaskRef, nat>, all: map<TaskRef, Task>) {
    && rank.Keys == all.Keys
    && forall ref :: ref in all && all[ref].HasParent() && all[ref].ParentRef() in all ==>
         rank[all[ref].ParentRef()] < rank[ref]
  }

  lemma RankTasks(all: map<TaskRef, Task>) returns (rank: map<TaskRef, nat>)
    requires Acyclic(ParentLinks(all))
    ensures Ranked(rank, all)
  {
    var links := ParentLinks(all);
    var below := RankExists(links);
    rank := map ref | ref in all :: if ref in links then below[ref] + 1 else 0;
  }

  ghost predicate Setting(rows: seq<TaskRow>, all: map<TaskRef, Task>, rank: map<TaskRef, nat>) {
    RowsOf(rows, all) && DistinctRows(rows) && Ranked(rank, all)
  }

  ghost function PositionOf(rows: seq<TaskRow>, ref: TaskRef, n: nat): (position: nat)
    requires n <= |rows| && exists k :: 0 <= k < n && rows[k].Ref() == ref
    ensures position < n && rows[position].Ref() == ref
  {
    if rows[n - 1].Ref() == ref then n - 1 else PositionOf(rows, ref, n - 1)
  }

  /** Parent positions inside the view. */
  ghost function InView(rows: seq<TaskRow>): map<nat, nat> {
    map k: nat | k in Positions(|rows|) && !IsRoot(Refs(rows), rows[k]) ::
      PositionOf(rows, rows[k].task.ParentRef(), |rows|)
  }

  lemma InViewParent(rows: seq<TaskRow>, i: nat, k: nat)
    requires DistinctRows(rows) && i < |rows|
    ensures IsKid(rows, Refs(rows), rows[i].Ref(), k) <==> k in InView(rows) && InView(rows)[k] == i
  {
  }

  lemma InViewRanked(rows: seq<TaskRow>, all: map<TaskRef, Task>, rank: map<TaskRef, nat>)
      returns (positions: map<nat, nat>)
    requires Setting(rows, all, rank)
    ensures Ranks(positions, InView(rows))
  {
    positions := map k: nat | k in Positions(|rows|) :: rank[rows[k].Ref()];
    var links := InView(rows);
    forall k | k in links && links[k] in links
      ensures positions[links[k]] < positions[k]
    {
      assert rows[links[k]].Ref() == rows[k].task.ParentRef();
      assert rows[links[k]].Ref() in all && all[rows[k].Ref()] == rows[k].task;
    }
  }

  // ----- depth along the view -----

  ghost function ParentRank(all: map<TaskRef, Task>, rank: map<TaskRef, nat>, provider: string,
                            parentID: Option<string>): nat
    requires rank.Keys == all.Keys
  {
    if parentID.Some? && parentID.value != "" && TaskRef(provider, parentID.value) in all then
      rank[TaskRef(provider, parentID.value)] + 1
    else 0
  }

  /** Without cycles the ancestors seen so far never cut the chain short. */
  lemma {:induction false} AncestorsPrefix(all: map<TaskRef, Task>, rank: map<TaskRef, nat>, provider: string,
                                           parentID: Option<string>, seen: seq<TaskRef>)
    requires KeyedByRef(all) && Ranked(rank, all)
    requires forall ref :: ref in seen ==> ref in all && ParentRank(all, rank, provider, parentID) <= rank[ref]
    ensures AncestorsAfter(all, provider, parentID, seen) == seen + AncestorsAfter(all, provider, parentID, [])
    decreases ParentRank(all, rank, provider, parentID)
  {
    if parentID.Some? && parentID.value != "" {
      var parent := TaskRef(provider, parentID.value);
      assert parent !in seen;
      if parent in all {
        assert all[parent].Ref() == parent;
        assert [] + [parent] == [parent];
        AncestorsPrefix(all, rank, provider, all[parent].parentTaskID, seen + [parent]);
        AncestorsPrefix(all, rank, provider, all[parent].parentTaskID, [parent]);
      }
    }
  }

  /** How a row's depth follows from its parent's. */
  ghost function DepthBelowParent(view: SubtaskView, parent: TaskRef, depth: Option<nat>): Option<nat> {
    match depth
    case None => None
    case Some(d) =>
      match view.ModeFor(parent)
      case Collapsed => None
      case Expanded => Some(d + 1)
      case Separate => Some(0)
  }

  ghost predicate ChildRow(row: TaskRow, parent: TaskRow, all: map<TaskRef, Task>) {
    && row.task.HasParent() && row.task.ParentRef() == parent.Ref()
    && row.providerID == row.task.providerID && parent.providerID == parent.task.providerID
    && parent.Ref() in all && all[parent.Ref()] == parent.task
    && row.Ref() in all && all[row.Ref()] == row.task
  }

  lemma DepthFollowsParent(view: SubtaskView, all: map<TaskRef, Task>, rank: map<TaskRef, nat>, row: TaskRow,
                           parent: TaskRow)
    requires KeyedByRef(all) && Ranked(rank, all) && ChildRow(row, parent, all)
    ensures RowDepth(view, row, all) == DepthBelowParent(view, parent.Ref(), RowDepth(view, parent, all))
  {
    var ref := parent.Ref();
    assert [] + [ref] == [ref];
    AncestorsPrefix(all, rank, row.providerID, parent.task.parentTaskID, [ref]);
    assert Ancestors(row, all) == [ref] + Ancestors(parent, all);
  }

  lemma DepthStep(view: SubtaskView, rows: seq<TaskRow>, all: map<TaskRef, Task>, rank: map<TaskRef, nat>, k: nat)
    requires Setting(rows, all, rank) && k in InView(rows)
    ensures k < |rows| && InView(rows)[k] < |rows|
    ensures var p := InView(rows)[k];
            RowDepth(view, rows[k], all) == DepthBelowParent(view, rows[p].Ref(), RowDepth(view, rows[p], all))
  {
    var p := InView(rows)[k];
    assert rows[p].Ref() == rows[k].task.ParentRef();
    DepthFollowsParent(view, all, rank, rows[k], rows[p]);
  }

  // ----- preorder listings -----

  /** Ancestors come first, what lies between a row and its descendant descends from the row,
      and siblings keep the input order. */
  ghost predicate Preorder(links: map<nat, nat>, listed: seq<Entry>) {
    && (forall a, b :: 0 <= a < b < |listed| ==> Follows(links, listed[a].index, listed[b].index))
    && (forall a, c :: 0 <= a < c < |listed| && Descends(links, listed[c].index, listed[a].index) ==>
        AllBelow(links, listed, a, c))
  }

  /** Everything listed between two places lies below the first. */
  ghost predicate AllBelow(links: map<nat, nat>, listed: seq<Entry>, a: nat, c: nat)
    requires a < c < |listed|
  {
    forall b :: a < b < c ==> Descends(links, listed[b].index, listed[a].index)
  }

  ghost predicate Follows(links: map<nat, nat>, x: nat, y: nat) {
    x != y && !Descends(links, x, y) && (Siblings(links, x, y) ==> x < y)
  }

  /** The listing shows exactly the visible rows of a set, each at its own depth. */
  ghost predicate Covers(depths: seq<Option<nat>>, listed: seq<Entry>, scope: set<nat>) {
    && (forall k :: 0 <= k < |listed| ==>
          listed[k].index < |depths| && listed[k].index in scope && depths[listed[k].index] == Some(listed[k].depth))
    && (forall j :: j in scope && j < |depths| && depths[j].Some? ==> j in Shown(listed))
  }

  /** The rows, out of n, that lie at or below a top. */
  ghost function Tree(links: map<nat, nat>, n: nat, top: nat): set<nat> {
    set j: nat | j in Positions(n) && Descends(links, j, top)
  }

  ghost function Trees(links: map<nat, nat>, n: nat, tops: seq<nat>): set<nat> {
    if tops == [] then {} else Tree(links, n, tops[0]) + Trees(links, n, tops[1..])
  }

  lemma {:induction false} InTrees(links: map<nat, nat>, n: nat, tops: seq<nat>, i: nat)
    requires i < |tops|
    ensures Tree(links, n, tops[i]) <= Trees(links, n, tops)
  {
    if i > 0 {
      InTrees(links, n, tops[1..], i - 1);
    }
  }

  lemma {:induction false} TreesTop(links: map<nat, nat>, n: nat, tops: seq<nat>, j: nat) returns (i: nat)
    requires j in Trees(links, n, tops)
    ensures i < |tops| && j in Tree(links, n, tops[i]) && Descends(links, j, tops[i])
  {
    if j in Tree(links, n, tops[0]) {
      i := 0;
    } else {
      i := TreesTop(links, n, tops[1..], j);
      i := i + 1;
    }
  }

  ghost predicate SiblingList(links: map<nat, nat>, kids: seq<nat>) {
    StrictlyIncreasing(kids) && forall a, b :: 0 <= a < b < |kids| ==> Siblings(links, kids[a], kids[b])
  }

  ghost predicate KidsExactly(links: map<nat, nat>, top: nat, kids: seq<nat>) {
    StrictlyIncreasing(kids) && forall k: nat :: k in kids <==> k in links && links[k] == top
  }

  /** A tree is its top and the trees of the top's subtasks. */
  lemma TreeSplits(links: map<nat, nat>, n: nat, top: nat, kids: seq<nat>)
    requires top < n && KidsExactly(links, top, kids)
    ensures Tree(links, n, top) == {top} + Trees(links, n, kids)
    ensures SiblingList(links, kids)
  {
    assert forall a :: 0 <= a < |kids| ==> kids[a] in kids;
    DescendsSelf(links, top);
    forall j: nat | j in Tree(links, n, top) && j != top
      ensures j in Trees(links, n, kids)
    {
      var kid := DescendsThroughChild(links, j, top);
      var i :| 0 <= i < |kids| && kids[i] == kid;
      InTrees(links, n, kids, i);
    }
    forall j: nat | j in Trees(links, n, kids)
      ensures j in Tree(links, n, top)
    {
      var i := TreesTop(links, n, kids, j);
      DescendsParent(links, kids[i]);
      DescendsTransitive(links, j, kids[i], top);
    }
  }

  /** Rows of the trees of two siblings are unrelated, and ordered if siblings themselves. */
  lemma TreesApart(rank: map<nat, nat>, links: map<nat, nat>, y: nat, z: nat, j: nat, k: nat)
    requires Ranks(rank, links) && Siblings(links, y, z) && y < z
    requires Descends(links, j, y) && Descends(links, k, z)
    ensures Follows(links, j, k) && !Descends(links, k, j)
  {
    if Descends(links, j, k) {
      DescendsTransitive(links, j, k, z);
      SiblingsDisjoint(rank, links, j, y, z);
    }
    if Descends(links, k, j) {
      DescendsTransitive(links, k, j, y);
      SiblingsDisjoint(rank, links, k, y, z);
    }
    DescendsSelf(links, j);
    if Siblings(links, j, k) && (j != y || k != z) {
      if j == y {
        DescendsFromParent(links, k, z);
        NoLoop(rank, links, z);
      } else if k == z {
        DescendsFromParent(links, j, y);
        NoLoop(rank, links, y);
      } else {
        DescendsFromParent(links, j, y);
        DescendsFromParent(links, k, z);
        SiblingsDisjoint(rank, links, links[j], y, z);
      }
    }
  }

  // ----- composing listings -----

  ghost predicate ListedIn(links: map<nat, nat>, listed: seq<Entry>, scope: set<nat>) {
    Preorder(links, listed) && forall k :: 0 <= k < |listed| ==> listed[k].index in scope
  }

  lemma JoinSiblings(rank: map<nat, nat>, links: map<nat, nat>, n: nat, kids: seq<nat>, left: seq<Entry>,
                     right: seq<Entry>)
    requires Ranks(rank, links) && |kids| > 0 && SiblingList(links, kids)
    requires ListedIn(links, left, Tree(links, n, kids[0])) && ListedIn(links, right, Trees(links, n, kids[1..]))
    ensures ListedIn(links, left + right, Trees(links, n, kids))
  {
    var listed := left + right;
    forall a, b | 0 <= a < |left| <= b < |listed|
      ensures Follows(links, listed[a].index, listed[b].index) && !Descends(links, listed[b].index, listed[a].index)
    {
      var i := TreesTop(links, n, kids[1..], right[b - |left|].index);
      TreesApart(rank, links, kids[0], kids[i + 1], listed[a].index, listed[b].index);
    }
    forall a, b | 0 <= a < b < |listed|
      ensures Follows(links, listed[a].index, listed[b].index)
    {
      if b < |left| {
        assert Follows(links, left[a].index, left[b].index);
      } else if a >= |left| {
        assert Follows(links, right[a - |left|].index, right[b - |left|].index);
      }
    }
    forall a, c | 0 <= a < c < |listed| && Descends(links, listed[c].index, listed[a].index)
      ensures AllBelow(links, listed, a, c)
    {
      if c < |left| {
        assert AllBelow(links, left, a, c);
      } else {
        assert AllBelow(links, right, a - |left|, c - |left|);
        assert forall b :: a < b < c ==> listed[b] == right[b - |left|];
      }
    }
  }

  /** The top leads everything in the trees of its subtasks. */
  lemma TopLeads(rank: map<nat, nat>, links: map<nat, nat>, n: nat, top: nat, kids: seq<nat>, j: nat)
    requires Ranks(rank, links) && KidsExactly(links, top, kids) && j in Trees(links, n, kids)
    ensures Follows(links, top, j) && Descends(links, j, top)
  {
    var i := TreesTop(links, n, kids, j);
    assert kids[i] in kids;
    DescendsParent(links, kids[i]);
    DescendsTransitive(links, j, kids[i], top);
    if j == top || Descends(links, top, j) {
      DescendsSelf(links, top);
      DescendsTransitive(links, top, j, kids[i]);
      NoLoop(rank, links, kids[i]);
    }
    if Siblings(links, top, j) {
      DescendsSelf(links, j);
      SiblingsDisjoint(rank, links, j, top, j);
    }
  }

  lemma TopFirst(rank: map<nat, nat>, links: map<nat, nat>, n: nat, top: nat, depth: nat, below: seq<Entry>,
                 kids: seq<nat>)
    requires Ranks(rank, links) && KidsExactly(links, top, kids)
    requires ListedIn(links, below, Trees(links, n, kids))
    ensures ListedIn(links, [Entry(top, depth)] + below, {top} + Trees(links, n, kids))
  {
    var listed := [Entry(top, depth)] + below;
    forall b | 0 < b < |listed|
      ensures Follows(links, top, listed[b].index) && Descends(links, listed[b].index, top)
    {
      assert listed[b] == below[b - 1];
      TopLeads(rank, links, n, top, kids, listed[b].index);
    }
    forall a, b | 0 <= a < b < |listed|
      ensures Follows(links, listed[a].index, listed[b].index)
    {
      if a > 0 {
        assert Follows(links, below[a - 1].index, below[b - 1].index);
      }
    }
    forall a, c | 0 <= a < c < |listed| && Descends(links, listed[c].index, listed[a].index)
      ensures AllBelow(links, listed, a, c)
    {
      if a > 0 {
        assert AllBelow(links, below, a - 1, c - 1);
        assert forall b :: a < b < c ==> listed[b] == below[b - 1];
      }
    }
  }

  // ----- the traversal lists each tree -----

  /** A forest over ranked parent positions, with the depth every row should have. */
  datatype World = World(view: SubtaskView, forest: Forest, links: map<nat, nat>, rank: map<nat, nat>,
                         depths: seq<Option<nat>>) {
    ghost predicate Valid() {
      && forest.Valid()
      && Ranks(rank, links)
      && |depths| == |forest.rows|
      && (forall top: nat :: top < |forest.rows| ==> KidsExactly(links, top, forest.ChildrenOf(top)))
      && (forall k :: k in links ==> DepthFits(k))
    }

    ghost predicate DepthFits(k: nat)
      requires k in links
    {
      && k < |depths| == |forest.rows| && links[k] < |depths|
      && depths[k] == DepthBelowParent(view, forest.rows[links[k]].Ref(), depths[links[k]])
    }
  }

  lemma {:induction false} HiddenAbove(w: World, j: nat, n: nat, i: nat)
    requires w.Valid()
    requires j < |w.depths| && i < |w.depths| && Up(w.links, j, n) == Some(i) && w.depths[i].None?
    ensures w.depths[j].None?
    decreases n
  {
    if n > 0 {
      UpStops(w.links, j, 1, n);
      assert Up(w.links, j, 0) == Some(j);
      UpSum(w.links, j, 1, w.links[j], n - 1);
      HiddenAbove(w, w.links[j], n - 1, i);
    }
  }

  /** Whatever lies below a hidden row is hidden. */
  lemma HiddenBelow(w: World, j: nat, i: nat)
    requires w.Valid() && j < |w.depths| && i < |w.depths|
    requires Descends(w.links, j, i) && w.depths[i].None?
    ensures w.depths[j].None?
  {
    var n: nat :| Up(w.links, j, n) == Some(i);
    HiddenAbove(w, j, n, i);
  }

  lemma TreesHidden(w: World, kids: seq<nat>)
    requires w.Valid() && Within(kids, |w.depths|)
    requires forall i :: 0 <= i < |kids| ==> w.depths[kids[i]].None?
    ensures Covers(w.depths, [], Trees(w.links, |w.depths|, kids))
  {
    forall j | j in Trees(w.links, |w.depths|, kids)
      ensures j < |w.depths| && w.depths[j].None?
    {
      var i := TreesTop(w.links, |w.depths|, kids, j);
      HiddenBelow(w, j, kids[i]);
    }
  }

  lemma TopNotBelow(rank: map<nat, nat>, links: map<nat, nat>, n: nat, top: nat, kids: seq<nat>)
    requires Ranks(rank, links) && KidsExactly(links, top, kids)
    ensures top !in Trees(links, n, kids)
  {
    if top in Trees(links, n, kids) {
      var i := TreesTop(links, n, kids, top);
      assert kids[i] in kids;
      NoLoop(rank, links, kids[i]);
    }
  }

  /** The trees of the later siblings avoid the tree of the first. */
  lemma LaterTreesApart(rank: map<nat, nat>, links: map<nat, nat>, n: nat, kids: seq<nat>)
    requires Ranks(rank, links) && |kids| > 0 && SiblingList(links, kids)
    ensures Tree(links, n, kids[0]) !! Trees(links, n, kids[1..])
    ensures SiblingList(links, kids[1..])
  {
    forall j | j in Tree(links, n, kids[0]) && j in Trees(links, n, kids[1..])
      ensures false
    {
      var i := TreesTop(links, n, kids[1..], j);
      SiblingsDisjoint(rank, links, j, kids[0], kids[i + 1]);
    }
  }

  ghost predicate Grows(before: set<nat>, after: set<nat>, scope: set<nat>) {
    after == before + scope
  }

  lemma GrowsTwice(before: set<nat>, middle: set<nat>, after: set<nat>, a: set<nat>, b: set<nat>)
    requires Grows(before, middle, a) && Grows(middle, after, b)
    ensures Grows(before, after, a + b)
  {
  }

  lemma {:induction false} MarkTree(w: World, top: nat, visited: set<nat>)
    requires w.Valid() && top < |w.depths| && Tree(w.links, |w.depths|, top) !! visited
    ensures Grows(visited, Mark(w.forest, top, visited), Tree(w.links, |w.depths|, top))
    decreases w.forest.Unvisited(visited), 0
  {
    var kids := w.forest.ChildrenOf(top);
    TreeSplits(w.links, |w.depths|, top, kids);
    VisitShrinks(w.forest, visited, top, visited + {top});
    TopNotBelow(w.rank, w.links, |w.depths|, top, kids);
    MarkTrees(w, kids, visited + {top});
  }

  lemma {:induction false} MarkTrees(w: World, kids: seq<nat>, visited: set<nat>)
    requires w.Valid() && Within(kids, |w.depths|)
    requires SiblingList(w.links, kids) && Trees(w.links, |w.depths|, kids) !! visited
    ensures Grows(visited, MarkAll(w.forest, kids, visited), Trees(w.links, |w.depths|, kids))
    decreases w.forest.Unvisited(visited), 1, |kids|
  {
    if kids != [] {
      var first := Mark(w.forest, kids[0], visited);
      VisitsShrink(w.forest, visited, first);
      MarkTree(w, kids[0], visited);
      LaterTreesApart(w.rank, w.links, |w.depths|, kids);
      MarkTrees(w, kids[1..], first);
      GrowsTwice(visited, first, MarkAll(w.forest, kids[1..], first), Tree(w.links, |w.depths|, kids[0]),
                 Trees(w.links, |w.depths|, kids[1..]));
    }
  }

  ghost predicate Extends(before: Progress, after: Progress, listed: seq<Entry>, scope: set<nat>) {
    after == Progress(before.entries + listed, before.visited + scope)
  }

  lemma ExtendsTwice(before: Progress, middle: Progress, after: Progress, left: seq<Entry>, right: seq<Entry>,
                     a: set<nat>, b: set<nat>)
    requires Extends(before, middle, left, a) && Extends(middle, after, right, b)
    ensures Extends(before, after, left + right, a + b)
  {
    assert before.entries + left + right == before.entries + (left + right);
  }

  /** The listing, and the visited rows, that a traversal step adds. */
  ghost predicate Adds(links: map<nat, nat>, depths: seq<Option<nat>>, before: Progress, after: Progress,
                       listed: seq<Entry>, scope: set<nat>) {
    && Extends(before, after, listed, scope)
    && Covers(depths, listed, scope)
    && ListedIn(links, listed, scope)
  }

  lemma {:induction false} AppendTree(w: World, top: nat, depth: nat, before: Progress) returns (listed: seq<Entry>)
    requires w.Valid() && top < |w.depths| && w.depths[top] == Some(depth)
    requires Tree(w.links, |w.depths|, top) !! before.visited
    ensures Adds(w.links, w.depths, before, Append(w.view, w.forest, top, depth, before), listed,
                 Tree(w.links, |w.depths|, top))
    decreases w.forest.Unvisited(before.visited), 0
  {
    var kids := w.forest.ChildrenOf(top);
    TreeSplits(w.links, |w.depths|, top, kids);
    TopNotBelow(w.rank, w.links, |w.depths|, top, kids);
    var here := Progress(before.entries + [Entry(top, depth)], before.visited + {top});
    VisitShrinks(w.forest, before.visited, top, here.visited);
    var below := AppendKids(w, top, depth, here);
    listed := [Entry(top, depth)] + below;
    AddTop(w, top, depth, kids, before, AppendBelow(w.view, w.forest, top, depth, here), below);
  }

  lemma AddTop(w: World, top: nat, depth: nat, kids: seq<nat>, before: Progress, after: Progress, below: seq<Entry>)
    requires w.Valid() && top < |w.depths| && w.depths[top] == Some(depth) && KidsExactly(w.links, top, kids)
    requires Adds(w.links, w.depths, Progress(before.entries + [Entry(top, depth)], before.visited + {top}), after,
                  below, Trees(w.links, |w.depths|, kids))
    ensures Adds(w.links, w.depths, before, after, [Entry(top, depth)] + below, Tree(w.links, |w.depths|, top))
  {
    TreeSplits(w.links, |w.depths|, top, kids);
    TopFirst(w.rank, w.links, |w.depths|, top, depth, below, kids);
    TopCovers(w.depths, top, depth, below, Trees(w.links, |w.depths|, kids));
    var here := Progress(before.entries + [Entry(top, depth)], before.visited + {top});
    ExtendsTwice(before, here, after, [Entry(top, depth)], below, {top}, Trees(w.links, |w.depths|, kids));
  }

  lemma {:induction false} AppendKids(w: World, top: nat, depth: nat, here: Progress) returns (below: seq<Entry>)
    requires w.Valid() && top < |w.depths| && w.depths[top] == Some(depth)
    requires SiblingList(w.links, w.forest.ChildrenOf(top))
               && Trees(w.links, |w.depths|, w.forest.ChildrenOf(top)) !! here.visited
    ensures Adds(w.links, w.depths, here, AppendBelow(w.view, w.forest, top, depth, here), below,
                 Trees(w.links, |w.depths|, w.forest.ChildrenOf(top)))
    decreases w.forest.Unvisited(here.visited), 2
  {
    var kids := w.forest.ChildrenOf(top);
    forall i | 0 <= i < |kids|
      ensures w.depths[kids[i]] == DepthBelowParent(w.view, w.forest.rows[top].Ref(), Some(depth))
    {
      assert kids[i] in kids;
      assert w.DepthFits(kids[i]);
    }
    match w.view.ModeFor(w.forest.rows[top].Ref())
    case Collapsed =>
      MarkTrees(w, kids, here.visited);
      TreesHidden(w, kids);
      below := [];
    case Expanded => below := AppendTrees(w, kids, depth + 1, here);
    case Separate => below := AppendTrees(w, kids, 0, here);
  }

  lemma {:induction false} AppendTrees(w: World,
                      kids: seq<nat>, depth: nat, before: Progress) returns (listed: seq<Entry>)
    requires w.Valid() && Within(kids, |w.depths|)
    requires SiblingList(w.links, kids) && Trees(w.links, |w.depths|, kids) !! before.visited
    requires forall i :: 0 <= i < |kids| ==> w.depths[kids[i]] == Some(depth)
    ensures Adds(w.links, w.depths, before, AppendAll(w.view, w.forest, kids, depth, before), listed,
                 Trees(w.links, |w.depths|, kids))
    decreases w.forest.Unvisited(before.visited), 1, |kids|
  {
    listed := [];
    if kids != [] {
      var n := |w.depths|;
      var first := Append(w.view, w.forest, kids[0], depth, before);
      VisitsShrink(w.forest, before.visited, first.visited);
      var left := AppendTree(w, kids[0], depth, before);
      LaterTreesApart(w.rank, w.links, n, kids);
      var right := AppendTrees(w, kids[1..], depth, first);
      listed := left + right;
      AddRest(w.rank, w.links, w.depths, kids, before, first, AppendAll(w.view, w.forest, kids[1..], depth, first),
              left, right);
    }
  }

  lemma AddRest(rank: map<nat, nat>, links: map<nat, nat>, depths: seq<Option<nat>>, kids: seq<nat>,
                before: Progress, first: Progress, after: Progress, left: seq<Entry>, right: seq<Entry>)
    requires Ranks(rank, links) && |kids| > 0 && SiblingList(links, kids)
    requires Adds(links, depths, before, first, left, Tree(links, |depths|, kids[0]))
    requires Adds(links, depths, first, after, right, Trees(links, |depths|, kids[1..]))
    ensures Adds(links, depths, before, after, left + right, Trees(links, |depths|, kids))
  {
    JoinSiblings(rank, links, |depths|, kids, left, right);
    JoinCovers(depths, left, right, Tree(links, |depths|, kids[0]), Trees(links, |depths|, kids[1..]));
    ExtendsTwice(before, first, after, left, right, Tree(links, |depths|, kids[0]), Trees(links, |depths|, kids[1..]));
  }

  lemma TopCovers(depths: seq<Option<nat>>, top: nat, depth: nat, below: seq<Entry>, scope: set<nat>)
    requires top < |depths| && depths[top] == Some(depth) && Covers(depths, below, scope)
    ensures Covers(depths, [Entry(top, depth)] + below, {top} + scope)
  {
    assert Covers(depths, [Entry(top, depth)], {top}) by {
      assert [Entry(top, depth)][0].index == top;
    }
    JoinCovers(depths, [Entry(top, depth)], below, {top}, scope);
  }

  lemma JoinCovers(depths: seq<Option<nat>>, left: seq<Entry>, right: seq<Entry>, a: set<nat>, b: set<nat>)
    requires Covers(depths, left, a) && Covers(depths, right, b)
    ensures Covers(depths, left + right, a + b)
  {
    var listed := left + right;
    forall j | j in Shown(left) || j in Shown(right)
      ensures j in Shown(listed)
    {
      if j in Shown(left) {
        var k :| 0 <= k < |left| && left[k].index == j;
        assert listed[k].index == j;
      } else {
        var k :| 0 <= k < |right| && right[k].index == j;
        assert listed[|left| + k].index == j;
      }
    }
  }

  // ----- the whole arrangement -----

  lemma {:induction false} VisitTrees(w: World, all: map<TaskRef, Task>, tops: seq<nat>, before: Progress)
      returns (listed: seq<Entry>)
    requires w.Valid() && Within(tops, |w.depths|)
    requires forall k :: 0 <= k < |w.depths| ==> w.depths[k] == RowDepth(w.view, w.forest.rows[k], all)
    requires SiblingList(w.links, tops) && Trees(w.links, |w.depths|, tops) !! before.visited
    ensures Adds(w.links, w.depths, before, VisitAll(w.view, all, w.forest, tops, before), listed,
                 Trees(w.links, |w.depths|, tops))
    decreases |tops|
  {
    listed := [];
    if tops != [] {
      var n := |w.depths|;
      var first := Visit(w.view, all, w.forest, tops[0], before);
      var left := VisitTree(w, all, tops[0], before);
      LaterTreesApart(w.rank, w.links, n, tops);
      var right := VisitTrees(w, all, tops[1..], first);
      listed := left + right;
      AddRest(w.rank, w.links, w.depths, tops, before, first, VisitAll(w.view, all, w.forest, tops[1..], first), left,
              right);
    }
  }

  lemma VisitTree(w: World, all: map<TaskRef, Task>, top: nat, before: Progress) returns (listed: seq<Entry>)
    requires w.Valid() && top < |w.depths| && w.depths[top] == RowDepth(w.view, w.forest.rows[top], all)
    requires Tree(w.links, |w.depths|, top) !! before.visited
    ensures Adds(w.links, w.depths, before, Visit(w.view, all, w.forest, top, before), listed,
                 Tree(w.links, |w.depths|, top))
  {
    match w.depths[top]
    case Some(depth) =>
      listed := AppendTree(w, top, depth, before);
    case None =>
      MarkTree(w, top, before.visited);
      listed := [];
      forall j | j in Tree(w.links, |w.depths|, top)
        ensures j < |w.depths| && w.depths[j].None?
      {
        HiddenBelow(w, j, top);
      }
  }

  /** Every row hangs below some row that has no parent in the view. */
  lemma {:induction false} TopAbove(rank: map<nat, nat>, links: map<nat, nat>, j: nat) returns (top: nat)
    requires Ranks(rank, links)
    ensures Descends(links, j, top) && top !in links && (top == j || top in links.Values)
    decreases if j in links then rank[j] + 1 else 0
  {
    DescendsSelf(links, j);
    top := j;
    if j in links {
      top := TopAbove(rank, links, links[j]);
      DescendsParent(links, j);
      DescendsTransitive(links, j, links[j], top);
    }
  }

  lemma RootsReachAll(w: World, roots: seq<nat>)
    requires w.Valid() && Within(roots, |w.depths|) && StrictlyIncreasing(roots)
    requires forall k :: k in roots <==> 0 <= k < |w.depths| && k !in w.links
    ensures SiblingList(w.links, roots)
    ensures Trees(w.links, |w.depths|, roots) == Positions(|w.depths|)
  {
    assert forall i :: 0 <= i < |roots| ==> roots[i] in roots;
    forall j: nat | j in Positions(|w.depths|)
      ensures j in Trees(w.links, |w.depths|, roots)
    {
      var top := TopAbove(w.rank, w.links, j);
      if top != j {
        var k :| k in w.links && w.links[k] == top;
        assert w.DepthFits(k);
      }
      var i :| 0 <= i < |roots| && roots[i] == top;
      InTrees(w.links, |w.depths|, roots, i);
    }
    forall j: nat | j in Trees(w.links, |w.depths|, roots)
      ensures j in Positions(|w.depths|)
    {
      var i := TreesTop(w.links, |w.depths|, roots, j);
    }
  }

  lemma {:induction false} AllVisited(view: SubtaskView, all: map<TaskRef, Task>, forest: Forest, order: seq<nat>,
                                      before: Progress)
    requires forest.Valid() && Within(order, |forest.rows|) && before.visited == Positions(|forest.rows|)
    ensures VisitAll(view, all, forest, order, before) == before
    decreases |order|
  {
    if order != [] {
      AllVisited(view, all, forest, order[1..], before);
    }
  }

  lemma TheWorld(view: SubtaskView, rows: seq<TaskRow>, all: map<TaskRef, Task>) returns (w: World)
    requires RowsOf(rows, all) && DistinctRows(rows) && Acyclic(ParentLinks(all))
    ensures w.Valid() && w.view == view && w.forest == ForestOf(rows) && w.links == InView(rows)
    ensures |w.depths| == |rows| && forall k :: 0 <= k < |rows| ==> w.depths[k] == RowDepth(view, rows[k], all)
  {
    var rank := RankTasks(all);
    var positions := InViewRanked(rows, all, rank);
    w := World(view, ForestOf(rows), InView(rows), positions,
               seq(|rows|, k requires 0 <= k < |rows| => RowDepth(view, rows[k], all)));
    forall top: nat | top < |rows|
      ensures KidsExactly(w.links, top, w.forest.ChildrenOf(top))
    {
      var kids := w.forest.ChildrenOf(top);
      LinkMembers(rows, Refs(rows), |rows|, rows[top].Ref());
      forall k: nat
        ensures k in kids <==> k in w.links && w.links[k] == top
      {
        InViewParent(rows, top, k);
      }
    }
    forall k | k in w.links
      ensures w.DepthFits(k)
    {
      DepthStep(view, rows, all, rank, k);
    }
  }

  lemma ArrangeLists(w: World, rows: seq<TaskRow>, all: map<TaskRef, Task>) returns (listed: seq<Entry>)
    requires w.Valid() && w.forest == ForestOf(rows) && w.links == InView(rows)
    requires |w.depths| == |rows| && forall k :: 0 <= k < |rows| ==> w.depths[k] == RowDepth(w.view, rows[k], all)
    ensures Adds(w.links, w.depths, Progress([], {}), Arrange(w.view, rows, all), listed, Positions(|rows|))
  {
    var roots := RootsOf(rows);
    RootsAreTops(rows);
    RootsReachAll(w, roots);
    listed := VisitTrees(w, all, roots, Progress([], {}));
    var middle := VisitAll(w.view, all, w.forest, roots, Progress([], {}));
    assert middle.visited == Positions(|rows|);
    AllVisited(w.view, all, w.forest, Upto(|rows|), middle);
  }

  lemma RootsAreTops(rows: seq<TaskRow>)
    ensures StrictlyIncreasing(RootsOf(rows))
    ensures forall k :: k in RootsOf(rows) <==> 0 <= k < |rows| && k !in InView(rows)
  {
    LinkRoots(rows, Refs(rows), |rows|);
  }

  /** A listing shows exactly the rows their own ancestors leave visible, each once, at exactly its own depth. */
  ghost predicate AgreesWithRows(view: SubtaskView, rows: seq<TaskRow>, all: map<TaskRef, Task>, listed: seq<Entry>) {
    && ShownOnce(listed)
    && (forall k :: 0 <= k < |listed| ==>
          listed[k].index < |rows| && RowDepth(view, rows[listed[k].index], all) == Some(listed[k].depth))
    && (forall j :: 0 <= j < |rows| ==> (j in Shown(listed) <==> RowDepth(view, rows[j], all).Some?))
  }

  /** The main agreement of traversal and per-row definition. */
  lemma ArrangementAgrees(view: SubtaskView, rows: seq<TaskRow>, all: map<TaskRef, Task>)
    requires RowsOf(rows, all) && DistinctRows(rows) && Acyclic(ParentLinks(all))
    ensures AgreesWithRows(view, rows, all, Arrange(view, rows, all).entries)
    ensures Preorder(InView(rows), Arrange(view, rows, all).entries)
  {
    var w := TheWorld(view, rows, all);
    var listed := ArrangeLists(w, rows, all);
    assert Arrange(view, rows, all).entries == listed;
    CoversAgrees(w, rows, all, listed);
  }

  lemma CoversAgrees(w: World, rows: seq<TaskRow>, all: map<TaskRef, Task>, listed: seq<Entry>)
    requires |w.depths| == |rows| && forall k :: 0 <= k < |rows| ==> w.depths[k] == RowDepth(w.view, rows[k], all)
    requires Covers(w.depths, listed, Positions(|rows|)) && Preorder(w.links, listed)
    ensures AgreesWithRows(w.view, rows, all, listed)
  {
    forall a, b | 0 <= a < b < |listed|
      ensures listed[a].index != listed[b].index
    {
      assert Follows(w.links, listed[a].index, listed[b].index);
    }
  }
}

/**
  Lines of the task table: cells of fixed width, a part that stays while the
  rest scrolls, and the range of the line that shows the status cell.
 */
module StatusCell {
  /** The ID of the status column. */
  const STATUS := "status"

  const GAP := "  "

  const MARKER_WIDTH := 2

  datatype Column = Column(id: string, width: nat, fixed: bool)

  function Min(a: int, b: int): int { if a < b then a else b }

  function Clamp(value: int, low: int, high: int): int {
    if value < low then low else if value > high then high else value
  }

  function Spaces(n: nat): (s: string)
    ensures |s| == n && forall k :: 0 <= k < n ==> s[k] == ' '
  {
    seq(n, _ => ' ')
  }

  /** A text cut or padded to a width; a cut shows as "~". */
  function Fit(value: string, width: int): (r: string)
    ensures |r| == if width <= 0 then 0 else width
    ensures width > 1 && |value| > width ==> r[..width - 1] == value[..width - 1] && r[width - 1] == '~'
    ensures 0 <= |value| <= width ==> r[..|value|] == value && forall k :: |value| <= k < width ==> r[k] == ' '
  {
    if width <= 0 then ""
    else if |value| > width then (if width == 1 then value[..1] else value[..width - 1] + "~")
    else value + Spaces(width - |value|)
  }

  /** The part of a text from an offset on, padded to a width. */
  function FitAtOffset(value: string, width: int, offset: int): (r: string)
    ensures |r| == if width <= 0 then 0 else width
    ensures offset >= 0 ==> forall k :: 0 <= k < |r| ==> r[k] == if k + offset < |value| then value[k + offset] else ' '
  {
    if width <= 0 then ""
    else
      var from := Clamp(offset, 0, |value|);
      var visible := value[from..Min(from + width, |value|)];
      visible + Spaces(width - |visible|)
  }

  // ----- the layout of the whole line -----

  /** Where a column starts, behind a marker. */
  function StartOf(columns: seq<Column>, k: nat, marker: nat := MARKER_WIDTH): nat
    requires k <= |columns|
  {
    if k == 0 then marker else StartOf(columns, k - 1, marker) + columns[k - 1].width + |GAP|
  }

  function EndOf(columns: seq<Column>, k: nat, marker: nat := MARKER_WIDTH): nat
    requires k < |columns|
  {
    StartOf(columns, k, marker) + columns[k].width
  }

  function LineLength(columns: seq<Column>, marker: nat := MARKER_WIDTH): nat {
    if columns == [] then marker else EndOf(columns, |columns| - 1, marker)
  }

  lemma {:induction false} StartsAscend(columns: seq<Column>, j: nat, k: nat)
    requires j < k <= |columns|
    ensures EndOf(columns, j) + |GAP| <= StartOf(columns, k)
  {
    if j < k - 1 {
      StartsAscend(columns, j, k - 1);
    }
  }

  // ----- the line as it is built -----

  method TaskTableLine(marker: string, columns: seq<Column>, values: seq<string>) returns (line: string)
    requires |marker| == MARKER_WIDTH && |values| == |columns|
    ensures |line| == LineLength(columns) && line[..MARKER_WIDTH] == marker
    ensures forall k :: 0 <= k < |columns| ==> CellAt(line, columns, values, k)
  {
    line := marker;
    for index := 0 to |columns|
      invariant marker <= line
      invariant |line| == if index == 0 then MARKER_WIDTH else EndOf(columns, index - 1)
      invariant forall k :: 0 <= k < index ==> CellAt(line, columns, values, k)
    {
      ghost var before := line;
      if index > 0 {
        line := line + GAP;
      }
      line := line + Fit(values[index], columns[index].width);
      forall k | 0 <= k < index
        ensures CellAt(line, columns, values, k)
      {
        assert CellAt(before, columns, values, k);
        CellStays(before, line, columns, values, k);
      }
    }
  }

  /** The line shows the fitted value in the column's place. */
  ghost predicate CellAt(line: string, columns: seq<Column>, values: seq<string>, k: nat)
    requires k < |columns| == |values|
  {
    EndOf(columns, k) <= |line| && line[StartOf(columns, k)..EndOf(columns, k)] == Fit(values[k], columns[k].width)
  }

  lemma CellStays(before: string, after: string, columns: seq<Column>, values: seq<string>, k: nat)
    requires k < |columns| == |values| && before <= after && CellAt(before, columns, values, k)
    ensures CellAt(after, columns, values, k)
  {
    assert after[StartOf(columns, k)..EndOf(columns, k)] == before[StartOf(columns, k)..EndOf(columns, k)];
  }

  // ----- scrolling -----

  /** The leading columns that are marked as fixed. */
  method FixedTaskColumnCount(columns: seq<Column>) returns (count: nat)
    ensures count <= |columns| && (forall k :: 0 <= k < count ==> columns[k].fixed)
    ensures count < |columns| ==> !columns[count].fixed
  {
    count := 0;
    for index := 0 to |columns|
      invariant count == index && forall k :: 0 <= k < index ==> columns[k].fixed
    {
      if !columns[index].fixed {
        break;
      }
      count := count + 1;
    }
  }

  /** The width of the fixed columns with the gap behind them. */
  function PrefixWidth(columns: seq<Column>, fixedCount: nat, marker: nat := MARKER_WIDTH): nat
    requires fixedCount <= |columns|
  {
    if fixedCount == 0 then 0
    else if fixedCount < |columns| then StartOf(columns, fixedCount, marker)
    else LineLength(columns, marker)
  }

  method TaskTableFixedPrefixWidth(columns: seq<Column>, count: int, markerWidth: nat) returns (width: nat)
    ensures width == PrefixWidth(columns, Clamp(count, 0, |columns|), markerWidth)
  {
    var fixedCount := Clamp(count, 0, |columns|);
    if fixedCount == 0 {
      return 0;
    }
    width := markerWidth;
    for index := 0 to fixedCount
      invariant width == if index == 0 then markerWidth else EndOf(columns, index - 1, markerWidth)
    {
      if index > 0 {
        width := width + |GAP|;
      }
      width := width + columns[index].width;
    }
    if fixedCount < |columns| {
      width := width + |GAP|;
    }
  }

  /** The place in the whole line that a place on the screen shows. */
  function Shown(columns: seq<Column>, fixedCount: nat, offset: nat, i: nat): nat
    requires fixedCount <= |columns|
  {
    if fixedCount == 0 then i + offset
    else if fixedCount == |columns| || i < PrefixWidth(columns, fixedCount) then i
    else i + offset
  }

  function CharAt(line: string, p: nat): char { if p < |line| then line[p] else ' ' }

  /** Every place on the screen shows its place of the line. */
  ghost predicate OnScreen(r: string, line: string, columns: seq<Column>, fixedCount: nat, offset: nat)
    requires fixedCount <= |columns|
  {
    forall i: nat :: i < |r| ==> r[i] == CharAt(line, Shown(columns, fixedCount, offset, i))
  }

  /** A line on the screen has exactly its width, and shows the fixed part and the scrolled rest. */
  method FitTaskTableLine(line: string, columns: seq<Column>, fixedCount: nat, width: int, offset: nat)
      returns (r: string)
    requires fixedCount <= |columns| && |line| == LineLength(columns)
    ensures |r| == if width <= 0 then 0 else width
    ensures OnScreen(r, line, columns, fixedCount, offset)
    ensures forall i :: 0 <= i < |r| ==>
              var fixed := fixedCount > 0 && (fixedCount == |columns| || i < StartOf(columns, fixedCount));
              var place := if fixed then i else i + offset;
              r[i] == if place < |line| then line[place] else ' '
  {
    if fixedCount == 0 {
      return FitAtOffset(line, width, offset);
    }
    if fixedCount >= |columns| {
      return FitAtOffset(line, width, 0);
    }
    var fixedWidth := TaskTableFixedPrefixWidth(columns, fixedCount, MARKER_WIDTH);
    if fixedWidth >= width {
      return FitAtOffset(line, width, 0);
    }
    PrefixInLine(columns, fixedCount);
    fixedWidth := Min(fixedWidth, |line|);
    var scrolled := FitAtOffset(line[fixedWidth..], width - fixedWidth, offset);
    r := line[..fixedWidth] + scrolled;
    ScrolledPlaces(line, fixedWidth, scrolled, offset);
  }

  lemma ScrolledPlaces(line: string, fixedWidth: nat, scrolled: string, offset: nat)
    requires fixedWidth <= |line|
    requires forall k :: 0 <= k < |scrolled| ==>
               scrolled[k] == if k + offset < |line[fixedWidth..]| then line[fixedWidth..][k + offset] else ' '
    ensures var r := line[..fixedWidth] + scrolled;
            forall i: nat :: i < |r| ==> r[i] == CharAt(line, if i < fixedWidth then i else i + offset)
  {
    var r := line[..fixedWidth] + scrolled;
    forall i: nat | i < |r|
      ensures r[i] == CharAt(line, if i < fixedWidth then i else i + offset)
    {
      if i >= fixedWidth {
        assert r[i] == scrolled[i - fixedWidth];
      }
    }
  }

  lemma PrefixInLine(columns: seq<Column>, fixedCount: nat)
    requires 0 < fixedCount < |columns|
    ensures PrefixWidth(columns, fixedCount) <= LineLength(columns)
  {
    if fixedCount < |columns| - 1 {
      StartsAscend(columns, fixedCount, |columns| - 1);
    }
  }

  // ----- the range of the status cell -----

  ghost predicate IsStatus(columns: seq<Column>, k: nat) {
    k < |columns| && columns[k].id == STATUS && forall j :: 0 <= j < k ==> columns[j].id != STATUS
  }

  /** A place on the screen shows a place of column k. */
  predicate ShowsCell(columns: seq<Column>, fixedCount: nat, offset: nat, k: nat, i: nat)
    requires fixedCount <= |columns| && k < |columns|
  {
    StartOf(columns, k) <= Shown(columns, fixedCount, offset, i) < EndOf(columns, k)
  }

  /** The range covers exactly the places that show the status cell. */
  ghost predicate Aligned(columns: seq<Column>, fixedCount: nat, offset: nat, k: nat, start: int, end: int)
    requires fixedCount <= |columns| && k < |columns|
  {
    forall i: nat :: start <= i < end <==> ShowsCell(columns, fixedCount, offset, k, i)
  }

  method FindStatus(columns: seq<Column>) returns (statusIndex: int)
    ensures statusIndex == -1 ==> forall k :: 0 <= k < |columns| ==> columns[k].id != STATUS
    ensures statusIndex != -1 ==> statusIndex >= 0 && IsStatus(columns, statusIndex)
  {
    statusIndex := -1;
    for index := 0 to |columns|
      invariant statusIndex == -1 && forall k :: 0 <= k < index ==> columns[k].id != STATUS
    {
      if columns[index].id == STATUS {
        statusIndex := index;
        break;
      }
    }
  }

  /** The start of a column, counted from the marker or from the end of the fixed part. */
  method StartFrom(columns: seq<Column>, first: nat, statusIndex: nat, from: nat) returns (start: nat)
    requires first <= statusIndex < |columns| && from == StartOf(columns, first)
    ensures start == StartOf(columns, statusIndex)
  {
    start := from;
    for index := first to statusIndex + 1
      invariant index <= statusIndex
      invariant start == if index == first then StartOf(columns, first) else EndOf(columns, index - 1)
    {
      if index > first {
        start := start + |GAP|;
      }
      if index == statusIndex {
        return;
      }
      start := start + columns[index].width;
    }
  }

  method TaskStatusCellRange(columns: seq<Column>, fixedCount: nat, offset: nat)
      returns (start: int, end: int, found: bool)
    requires fixedCount <= |columns|
    ensures found <==> exists k :: IsStatus(columns, k)
    ensures forall k :: IsStatus(columns, k) ==> Aligned(columns, fixedCount, offset, k, start, end)
  {
    var statusIndex := FindStatus(columns);
    if statusIndex < 0 {
      return 0, 0, false;
    }
    OnlyStatus(columns, statusIndex);
    if fixedCount <= 0 {
      var first := StartFrom(columns, 0, statusIndex, MARKER_WIDTH);
      return first - offset, first + columns[statusIndex].width - offset, true;
    }
    if statusIndex < fixedCount {
      var first := StartFrom(columns, 0, statusIndex, MARKER_WIDTH);
      FixedAligned(columns, fixedCount, offset, statusIndex);
      return first, first + columns[statusIndex].width, true;
    }
    var scrollStart := TaskTableFixedPrefixWidth(columns, fixedCount, MARKER_WIDTH);
    var first := StartFrom(columns, fixedCount, statusIndex, scrollStart);
    ScrolledAfterPrefix(columns, fixedCount, statusIndex);
    start, end, found := first - offset, first + columns[statusIndex].width - offset, true;
    if start < scrollStart {
      start := scrollStart;
    }
    if end < scrollStart {
      end := scrollStart;
    }
  }

  lemma OnlyStatus(columns: seq<Column>, statusIndex: nat)
    requires IsStatus(columns, statusIndex)
    ensures forall k :: IsStatus(columns, k) ==> k == statusIndex
  {
  }

  lemma FixedAligned(columns: seq<Column>, fixedCount: nat, offset: nat, k: nat)
    requires k < fixedCount <= |columns|
    ensures Aligned(columns, fixedCount, offset, k, StartOf(columns, k), EndOf(columns, k))
  {
    if fixedCount < |columns| {
      StartsAscend(columns, k, fixedCount);
    }
  }

  lemma ScrolledAfterPrefix(columns: seq<Column>, fixedCount: nat, k: nat)
    requires 0 < fixedCount <= k < |columns|
    ensures PrefixWidth(columns, fixedCount) <= StartOf(columns, k)
  {
    if fixedCount < k {
      StartsAscend(columns, fixedCount, k);
    }
  }

  /** The line in three parts, the middle one coloured. */
  datatype Coloured = Coloured(before: string, status: string, after: string)
  {
    function Text(): string { before + status + after }
  }

  /** Exactly the places that show the status cell are coloured, and the text stays as it is. */
  method ColorTaskStatusCell(line: string, columns: seq<Column>, fixedCount: nat, offset: nat) returns (r: Coloured)
    requires fixedCount <= |columns|
    ensures r.Text() == line
    ensures forall k, i :: IsStatus(columns, k) && 0 <= i < |line| ==>
              (|r.before| <= i < |r.before| + |r.status| <==> ShowsCell(columns, fixedCount, offset, k, i))
    ensures (forall k :: !IsStatus(columns, k)) ==> r.status == ""
  {
    r := Coloured(line, "", "");
    var statusStart, statusEnd, found := TaskStatusCellRange(columns, fixedCount, offset);
    if !found || line == "" {
      return;
    }
    if statusEnd <= 0 || statusStart >= |line| {
      return;
    }
    var start := Clamp(statusStart, 0, |line|);
    var end := Clamp(statusEnd, start, |line|);
    if start == end {
      return;
    }
    r := Coloured(line[..start], line[start..end], line[end..]);
  }
}

/**
  The Markdown document in which a task is edited: front matter with one line
  per field, and the description as the body.
 */
module TaskDocument {
  import opened Common
  import opened TaskPatch
  import JsonText
  import Text

  /** Fields that are shown but not read back, as text. */
  datatype Stamps = Stamps(timeEstimate: Option<string>, timeTracked: Option<string>, remoteUpdatedAt: Option<string>,
                           deletedAt: Option<string>, createdAt: Option<string>)

  /** The text form of instants. */
  datatype Clock = Clock(format: int -> string, parse: string -> Option<int>)

  ghost predicate Faithful(clock: Clock) {
    forall at: int :: ReadBackAt(clock, at)
  }

  ghost predicate ReadBackAt(clock: Clock, at: int) { clock.parse(clock.format(at)) == Some(at) }

  // ----- lines -----

  /** Line ends as the parser sees them. */
  function UnixEnds(s: string): string {
    if s == "" then ""
    else if |s| >= 2 && s[0] == '\r' && s[1] == '\n' then ['\n'] + UnixEnds(s[2..])
    else [s[0]] + UnixEnds(s[1..])
  }

  ghost predicate HasDosEnd(s: string) { exists k :: DosEndAt(s, k) }

  ghost predicate DosEndAt(s: string, k: int) {
    0 <= k < |s| - 1 && s[k] == '\r' && s[k + 1] == '\n'
  }

  function IndexOf(s: string, pattern: string): (i: Option<nat>)
    ensures i.Some? ==> i.value + |pattern| <= |s|
  {
    if pattern <= s then Some(0)
    else if s == "" then None
    else
      var i := IndexOf(s[1..], pattern);
      if i.None? then None else Some(i.value + 1)
  }

  lemma {:induction false} IndexOfExactly(s: string, pattern: string)
    ensures var i := IndexOf(s, pattern);
            if i.Some? then pattern <= s[i.value..] && forall k :: 0 <= k < i.value ==> !(pattern <= s[k..])
            else forall k :: 0 <= k <= |s| ==> !(pattern <= s[k..])
  {
    assert s[0..] == s;
    if !(pattern <= s) && s != "" {
      IndexOfExactly(s[1..], pattern);
      assert forall k :: 0 < k <= |s| ==> s[k..] == s[1..][k - 1..];
    }
  }

  function Lines(s: string): seq<string> {
    var i := IndexOf(s, "\n");
    if i.None? then [s] else [s[..i.value]] + Lines(s[i.value + 1..])
  }

  function Join(lines: seq<string>): string
    requires lines != []
  {
    if |lines| == 1 then lines[0] else lines[0] + "\n" + Join(lines[1..])
  }

  lemma {:induction false} UnixEndsKeeps(s: string)
    ensures |UnixEnds(s)| <= |s|
    ensures !HasDosEnd(s) ==> UnixEnds(s) == s
    ensures HasDosEnd(s) ==> |UnixEnds(s)| < |s|
  {
    if s == "" {
    } else if |s| >= 2 && s[0] == '\r' && s[1] == '\n' {
      UnixEndsKeeps(s[2..]);
      assert DosEndAt(s, 0);
    } else {
      UnixEndsKeeps(s[1..]);
      forall k
        ensures DosEndAt(s[1..], k) <==> DosEndAt(s, k + 1) && k >= 0
      {
      }
      if HasDosEnd(s) {
        var k :| DosEndAt(s, k);
        assert DosEndAt(s[1..], k - 1);
      }
      assert [s[0]] + s[1..] == s;
    }
  }

  lemma {:induction false} UnixEndsPrefix(a: string, b: string)
    requires '\r' !in a
    ensures UnixEnds(a + b) == a + UnixEnds(b)
  {
    if a == "" {
      assert a + b == b;
    } else {
      assert (a + b)[1..] == a[1..] + b;
      UnixEndsPrefix(a[1..], b);
      assert [a[0]] + (a[1..] + UnixEnds(b)) == a + UnixEnds(b);
    }
  }

  lemma {:induction false} UnixEndsLast(s: string)
    requires s != "" && s[|s| - 1] == '\n'
    ensures UnixEnds(s) != "" && UnixEnds(s)[|UnixEnds(s)| - 1] == '\n'
  {
    if |s| == 1 {
    } else if s[0] == '\r' && s[1] == '\n' {
      if |s| > 2 {
        UnixEndsLast(s[2..]);
      }
    } else {
      UnixEndsLast(s[1..]);
    }
  }

  lemma {:induction false} IndexOfFirst(a: string, pattern: string, rest: string)
    requires pattern != ""
    requires forall k :: 0 <= k < |a| ==> !(pattern <= (a + pattern + rest)[k..])
    ensures IndexOf(a + pattern + rest, pattern) == Some(|a|)
  {
    var all := a + pattern + rest;
    if a == "" {
      assert all[..|pattern|] == pattern;
    } else {
      assert !(pattern <= all[0..]) && all[0..] == all;
      assert all[1..] == a[1..] + pattern + rest;
      forall k | 0 <= k < |a[1..]|
        ensures !(pattern <= (a[1..] + pattern + rest)[k..])
      {
        assert all[k + 1..] == (a[1..] + pattern + rest)[k..];
      }
      IndexOfFirst(a[1..], pattern, rest);
    }
  }

  lemma IndexOfChar(a: string, c: char, rest: string)
    requires c !in a
    ensures IndexOf(a + [c] + rest, [c]) == Some(|a|)
  {
    var all := a + [c] + rest;
    forall k | 0 <= k < |a|
      ensures !([c] <= all[k..])
    {
      assert all[k..][0] == a[k];
    }
    IndexOfFirst(a, [c], rest);
  }

  lemma {:induction false} NoIndex(s: string, c: char)
    requires c !in s
    ensures IndexOf(s, [c]) == None
  {
    if s != "" {
      assert s[0] in s;
      NoIndex(s[1..], c);
    }
  }

  lemma {:induction false} JoinedLines(lines: seq<string>)
    requires lines != [] && forall k :: 0 <= k < |lines| ==> '\n' !in lines[k]
    ensures Lines(Join(lines)) == lines
  {
    if |lines| == 1 {
      NoIndex(lines[0], '\n');
    } else {
      var rest := Join(lines[1..]);
      IndexOfChar(lines[0], '\n', rest);
      var all := Join(lines);
      assert all == lines[0] + ['\n'] + rest;
      assert all[..|lines[0]|] == lines[0] && all[|lines[0]| + 1..] == rest;
      JoinedLines(lines[1..]);
    }
  }

  // ----- front matter entries -----

  datatype Entry = Entry(key: string, value: string)

  function LineOf(e: Entry): string { e.key + ": " + e.value }

  function OptionalText(text: Option<string>): string {
    if text.None? then "null" else JsonText.Quote(text.value)
  }

  function FlagText(on: bool): string { if on then "true" else "false" }

  function OptionalTime(at: Option<int>, clock: Clock): string {
    if at.None? then "null" else JsonText.Quote(clock.format(at.value))
  }

  const FIRST_KEYS := ["id", "provider_id", "list_id", "remote_id", "parent_task_id", "assignee", "title", "status",
                       "priority"]

  const LAST_KEYS := ["time_estimate", "time_tracked", "due_at", "completed_at", "sync_state", "remote_updated_at",
                      "is_deleted", "deleted_at", "created_at", "updated_at"]

  function FirstValues(t: TaskRecord): (values: seq<string>)
    ensures |values| == |FIRST_KEYS|
  {
    [ JsonText.Quote(t.id), JsonText.Quote(t.providerID), JsonText.Quote(t.listID), OptionalText(t.remoteID),
      OptionalText(t.parentTaskID), JsonText.Quote(t.assignee), JsonText.Quote(t.title), JsonText.Quote(t.status),
      JsonText.Quote(t.priority) ]
  }

  function LastValues(t: TaskRecord, stamps: Stamps, clock: Clock): (values: seq<string>)
    ensures |values| == |LAST_KEYS|
  {
    [ OptionalText(stamps.timeEstimate), OptionalText(stamps.timeTracked), OptionalTime(t.dueAt, clock),
      OptionalTime(t.completedAt, clock), JsonText.Quote(t.syncState), OptionalText(stamps.remoteUpdatedAt),
      FlagText(t.deleted), OptionalText(stamps.deletedAt), OptionalText(stamps.createdAt),
      JsonText.Quote(clock.format(t.updatedAt)) ]
  }

  function Paired(keys: seq<string>, values: seq<string>): (entries: seq<Entry>)
    requires |keys| == |values|
    ensures |entries| == |keys|
  {
    seq(|keys|, k requires 0 <= k < |keys| => Entry(keys[k], values[k]))
  }

  function Entries(t: TaskRecord, stamps: Stamps, clock: Clock): seq<Entry> {
    Paired(FIRST_KEYS, FirstValues(t)) + Paired(LAST_KEYS, LastValues(t, stamps, clock))
  }

  function EntryLines(entries: seq<Entry>): seq<string> {
    if entries == [] then [] else EntryLines(entries[..|entries| - 1]) + [LineOf(entries[|entries| - 1])]
  }

  function Rendered(t: TaskRecord, stamps: Stamps, clock: Clock): string {
    Join(["---"] + EntryLines(Entries(t, stamps, clock)) + ["---", "", t.description]) + "\n"
  }

  method RenderTaskDocument(t: TaskRecord, stamps: Stamps, clock: Clock) returns (document: string)
    ensures document == Rendered(t, stamps, clock)
  {
    hide Entries, LineOf, Join;
    var lines, entries := ["---"], Entries(t, stamps, clock);
    for i := 0 to |entries|
      invariant lines == ["---"] + EntryLines(entries[..i])
    {
      assert entries[..i + 1][..i] == entries[..i];
      lines := lines + [LineOf(entries[i])];
    }
    assert entries[..|entries|] == entries;
    lines := lines + ["---", "", t.description];
    document := Join(lines) + "\n";
  }

  // ----- parsing -----

  /** One line of front matter: nothing on a blank line, None on a malformed one. */
  function ReadLine(line: string): Option<Option<Entry>> {
    var trimmed := Text.Trim(line);
    if trimmed == "" then Some(None)
    else
      var i := IndexOf(trimmed, ":");
      if i.None? || Text.Trim(trimmed[..i.value]) == "" then None
      else Some(Some(Entry(Text.Trim(trimmed[..i.value]), Text.Trim(trimmed[i.value + 1..]))))
  }

  /** The values with one more line read; of several lines with one key the last counts. */
  function Put(values: Option<map<string, string>>, entry: Option<Option<Entry>>): Option<map<string, string>> {
    if values.None? || entry.None? then None
    else if entry.value.None? then values
    else Some(values.value[entry.value.value.key := entry.value.value.value])
  }

  /** The values of the front matter. */
  function Values(lines: seq<string>): Option<map<string, string>> {
    if lines == [] then Some(map[]) else Put(Values(lines[..|lines| - 1]), ReadLine(lines[|lines| - 1]))
  }

  function Field(values: map<string, string>, key: string, current: string): Option<string> {
    if key in values then JsonText.ParseString(values[key]) else Some(current)
  }

  function TimeField(values: map<string, string>, key: string, current: Option<int>,
                     clock: Clock): Option<Option<int>> {
    if key !in values then Some(current)
    else if values[key] == "null" then Some(None)
    else
      var text := JsonText.ParseString(values[key]);
      if text.None? || clock.parse(text.value).None? then None else Some(clock.parse(text.value))
  }

  const EDITOR_PRIORITIES := ["urgent", "high", "normal", "low"]

  /** The header and the body of a document. */
  function Split(data: string): Option<(string, string)> { SplitText(UnixEnds(data)) }

  function SplitText(text: string): Option<(string, string)> {
    var first := IndexOf(text, "\n");
    if first.None? || Text.Trim(text[..first.value]) != "---" then None else SplitRest(text[first.value + 1..])
  }

  function SplitRest(rest: string): Option<(string, string)> {
    var end := IndexOf(rest, "\n---");
    if end.None? then None else Some((rest[..end.value], Body(rest[end.value + 4..])))
  }

  ghost predicate FirstLineEnd(text: string, i: int) {
    0 <= i < |text| && text[i] == '\n' && '\n' !in text[..i]
  }

  lemma FirstLineFound(text: string, i: nat)
    ensures IndexOf(text, "\n") == Some(i) <==> FirstLineEnd(text, i)
  {
    if FirstLineEnd(text, i) {
      assert text == text[..i] + ['\n'] + text[i + 1..];
      IndexOfChar(text[..i], '\n', text[i + 1..]);
    }
    if IndexOf(text, "\n") == Some(i) {
      IndexOfExactly(text, "\n");
      assert text[i..][0] == '\n';
      forall k | 0 <= k < i
        ensures text[k] != '\n'
      {
        assert !("\n" <= text[k..]);
      }
    }
  }

  ghost predicate FenceLine(text: string, i: int) { FirstLineEnd(text, i) && Text.Trim(text[..i]) == "---" }

  ghost predicate FenceAt(text: string, j: int) { 0 <= j <= |text| && "\n---" <= text[j..] }

  lemma LaterFence(text: string, i: nat)
    requires i < |text|
    ensures IndexOf(text[i + 1..], "\n---").Some? <==> exists j :: i < j && FenceAt(text, j)
  {
    hide IndexOf;
    var rest := text[i + 1..];
    IndexOfExactly(rest, "\n---");
    var end := IndexOf(rest, "\n---");
    if end.Some? {
      assert rest[end.value..] == text[i + 1 + end.value..];
      assert FenceAt(text, i + 1 + end.value);
    }
    if j :| i < j && FenceAt(text, j) {
      assert rest[j - i - 1..] == text[j..];
    }
  }

  ghost predicate Fenced(text: string) {
    exists i, j :: FenceLine(text, i) && i < j && FenceAt(text, j)
  }

  lemma FencedSplit(text: string, i: nat, j: nat)
    requires FenceLine(text, i) && i < j && FenceAt(text, j)
    ensures SplitText(text).Some?
  {
    hide IndexOf, FenceAt, Body;
    FirstLineFound(text, i);
    LaterFence(text, i);
    assert SplitRest(text[i + 1..]).Some?;
  }

  /** A document has a header exactly when its first line is a fence and a later line starts with one. */
  lemma SplitExactly(data: string)
    ensures Split(data).Some? <==> Fenced(UnixEnds(data))
  {
    hide UnixEnds, IndexOf, FenceAt, Body;
    var text := UnixEnds(data);
    if Split(data).Some? {
      var i := IndexOf(text, "\n").value;
      FirstLineFound(text, i);
      LaterFence(text, i);
      var j :| i < j && FenceAt(text, j);
      assert FenceLine(text, i);
    }
    if Fenced(text) {
      var i, j :| FenceLine(text, i) && i < j && FenceAt(text, j);
      FencedSplit(text, i, j);
    }
  }

  function TrimPrefix(s: string): string { if s != "" && s[0] == '\n' then s[1..] else s }

  function TrimSuffix(s: string): string { if s != "" && s[|s| - 1] == '\n' then s[..|s| - 1] else s }

  function Body(s: string): string { TrimSuffix(TrimPrefix(TrimPrefix(s))) }

  /** The task with the values of the front matter; identity and location must stay. */
  function Edited(values: map<string, string>, original: TaskRecord, statuses: seq<string>,
                  clock: Clock): Option<TaskRecord> {
    var id, provider, list := Field(values, "id", original.id), Field(values, "provider_id", original.providerID),
                              Field(values, "list_id", original.listID);
    var assignee, title := Field(values, "assignee", original.assignee), Field(values, "title", original.title);
    var status, priority := Field(values, "status", original.status), Field(values, "priority", original.priority);
    var dueAt := TimeField(values, "due_at", original.dueAt, clock);
    if id.None? || provider.None? || list.None? || assignee.None? || title.None? || status.None? || priority.None?
      || dueAt.None? then None
    else if "priority" in values && priority.value != "" && priority.value !in EDITOR_PRIORITIES then None
    else if "status" in values && statuses != [] && status.value !in statuses then None
    else if id.value != original.id || provider.value != original.providerID || list.value != original.listID then None
    else Some(original.(assignee := assignee.value, title := title.value, status := status.value,
                        priority := priority.value, dueAt := dueAt.value))
  }

  function Parsed(data: string, original: TaskRecord, statuses: seq<string>, clock: Clock): Option<TaskRecord> {
    var parts := Split(data);
    if parts.None? then None
    else
      var values := Values(Lines(parts.value.0));
      if values.None? then None
      else
        var edited := Edited(values.value, original, statuses, clock);
        if edited.None? then None else Some(edited.value.(description := parts.value.1))
  }

  lemma ValuesOneMore(lines: seq<string>, i: nat)
    requires i < |lines|
    ensures Values(lines[..i + 1]) == Put(Values(lines[..i]), ReadLine(lines[i]))
  {
    assert lines[..i + 1][..i] == lines[..i];
  }

  method PutLine(values: map<string, string>, line: string) returns (r: Option<map<string, string>>)
    ensures r == Put(Some(values), ReadLine(line))
  {
    var entry := ReadLine(line);
    if entry.None? {
      return None;
    }
    r := Some(values);
    if entry.value.Some? {
      r := Some(values[entry.value.value.key := entry.value.value.value]);
    }
  }

  lemma {:induction false} MalformedStays(lines: seq<string>, i: nat)
    requires i <= |lines| && Values(lines[..i]) == None
    ensures Values(lines) == None
    decreases |lines| - i
  {
    if i == |lines| {
      assert lines[..i] == lines;
    } else {
      ValuesOneMore(lines, i);
      MalformedStays(lines, i + 1);
    }
  }

  method ReadHeader(header: string) returns (values: Option<map<string, string>>)
    ensures values == Values(Lines(header))
  {
    var lines := Lines(header);
    values := Some(map[]);
    for i := 0 to |lines|
      invariant values.Some? && values == Values(lines[..i])
    {
      ValuesOneMore(lines, i);
      values := PutLine(values.value, lines[i]);
      if values.None? {
        MalformedStays(lines, i + 1);
        return;
      }
    }
    assert lines[..|lines|] == lines;
  }

  /** Of several lines with one key the last counts. */
  lemma {:induction false} LastLineCounts(lines: seq<string>, k: nat, key: string, value: string)
    requires Values(lines).Some? && k < |lines| && ReadLine(lines[k]) == Some(Some(Entry(key, value)))
    requires forall j :: k < j < |lines| ==>
               var entry := ReadLine(lines[j]);
               !(entry.Some? && entry.value.Some? && entry.value.value.key == key)
    ensures key in Values(lines).value && Values(lines).value[key] == value
  {
    var init := lines[..|lines| - 1];
    if k < |init| {
      LastLineCounts(init, k, key, value);
    }
  }

  method ReadText(values: map<string, string>, key: string, current: string) returns (text: Option<string>)
    ensures text == Field(values, key, current)
  {
    if key !in values {
      return Some(current);
    }
    text := JsonText.ParseString(values[key]);
  }

  /** A field without a line in the document stays; one with a line is what the line says. */
  ghost predicate FieldsRead(values: map<string, string>, before: TaskRecord, after: TaskRecord, clock: Clock) {
    && Some(after.assignee) == (if "assignee" in values then JsonText.ParseString(values["assignee"])
                                else Some(before.assignee))
    && Some(after.title) == (if "title" in values then JsonText.ParseString(values["title"]) else Some(before.title))
    && Some(after.status) == (if "status" in values then JsonText.ParseString(values["status"])
                              else Some(before.status))
    && Some(after.priority) == (if "priority" in values then JsonText.ParseString(values["priority"])
                                else Some(before.priority))
    && ("due_at" !in values ==> after.dueAt == before.dueAt)
    && ("due_at" in values && values["due_at"] == "null" ==> after.dueAt == None)
    && ("due_at" in values && values["due_at"] != "null" ==>
          && JsonText.ParseString(values["due_at"]).Some?
          && after.dueAt == clock.parse(JsonText.ParseString(values["due_at"]).value) && after.dueAt.Some?)
  }

  /** The document changes nothing but assignee, title, description, status, priority and due date. */
  ghost predicate OnlyEdited(before: TaskRecord, after: TaskRecord) {
    && after.id == before.id && after.providerID == before.providerID
    && after.listID == before.listID && after.listIDs == before.listIDs
    && after.remoteID == before.remoteID && after.parentTaskID == before.parentTaskID
    && after.completedAt == before.completedAt && after.syncState == before.syncState
    && after.updatedAt == before.updatedAt && after.deleted == before.deleted
  }

  method ApplyValues(values: map<string, string>, original: TaskRecord, statuses: seq<string>, clock: Clock)
      returns (r: Option<TaskRecord>)
    ensures r == Edited(values, original, statuses, clock)
    ensures r.Some? ==> FieldsRead(values, original, r.value, clock) && OnlyEdited(original, r.value)
    ensures r.Some? ==> r.value.description == original.description
  {
    var id := ReadText(values, "id", original.id);
    var provider := ReadText(values, "provider_id", original.providerID);
    var list := ReadText(values, "list_id", original.listID);
    var assignee := ReadText(values, "assignee", original.assignee);
    var title := ReadText(values, "title", original.title);
    var status := ReadText(values, "status", original.status);
    var priority := ReadText(values, "priority", original.priority);
    if id.None? || provider.None? || list.None? || assignee.None? || title.None? || status.None? || priority.None? {
      return None;
    }
    if "priority" in values && priority.value != "" && priority.value !in EDITOR_PRIORITIES {
      return None;
    }
    if "status" in values && |statuses| > 0 && status.value !in statuses {
      return None;
    }
    var dueAt := TimeField(values, "due_at", original.dueAt, clock);
    if dueAt.None? || id.value != original.id || provider.value != original.providerID
      || list.value != original.listID {
      return None;
    }
    r := Some(original.(assignee := assignee.value, title := title.value, status := status.value,
                        priority := priority.value, dueAt := dueAt.value));
  }

  method ParseTaskDocument(data: string, original: TaskRecord, statuses: seq<string>, clock: Clock)
      returns (r: Option<TaskRecord>)
    ensures r == Parsed(data, original, statuses, clock)
    ensures r.Some? ==> OnlyEdited(original, r.value)
  {
    var parts := Split(data);
    if parts.None? {
      return None;
    }
    var values := ReadHeader(parts.value.0);
    if values.None? {
      return None;
    }
    r := ApplyValues(values.value, original, statuses, clock);
    if r.Some? {
      r := Some(r.value.(description := parts.value.1));
    }
  }

  // ----- reading entries back -----

  predicate KeyChar(c: char) { 'a' <= c <= 'z' || c == '_' }

  ghost predicate GoodKey(key: string) {
    key != "" && forall k :: 0 <= k < |key| ==> KeyChar(key[k])
  }

  /** A value on one line without spaces around it. */
  ghost predicate OneLine(value: string) {
    value != "" && Text.Trimmed(value) && forall k :: 0 <= k < |value| ==> value[k] >= ' '
  }

  ghost predicate GoodEntry(e: Entry) { GoodKey(e.key) && OneLine(e.value) }

  ghost predicate GoodEntries(entries: seq<Entry>) {
    forall k :: 0 <= k < |entries| ==> GoodEntry(entries[k])
  }

  lemma SpaceTrimmed(value: string)
    requires value != "" && Text.Trimmed(value)
    ensures Text.Trim(" " + value) == value
  {
    assert (" " + value)[1..] == value;
    assert Text.TrimLeft(" " + value) == Text.TrimLeft(value) == value;
    Text.TrimmedStays(value);
  }

  lemma ReadParts(line: string, key: string, value: string)
    requires line != "" && Text.Trim(line) == line && IndexOf(line, ":") == Some(|key|) && line[..|key|] == key
    requires key != "" && Text.Trim(key) == key && Text.Trim(line[|key| + 1..]) == value
    ensures ReadLine(line) == Some(Some(Entry(key, value)))
  {
  }

  lemma LineShape(e: Entry)
    requires GoodEntry(e)
    ensures Text.Trimmed(LineOf(e)) && LineOf(e) == e.key + [':'] + (" " + e.value)
    ensures LineOf(e)[..|e.key|] == e.key && LineOf(e)[|e.key| + 1..] == " " + e.value
  {
    var line := LineOf(e);
    assert line == e.key + [':'] + (" " + e.value);
    assert line[|e.key| + 1..] == " " + e.value;
    assert line[0] == e.key[0] && line[|line| - 1] == e.value[|e.value| - 1];
  }

  lemma EntryReadBack(e: Entry)
    requires GoodEntry(e)
    ensures ReadLine(LineOf(e)) == Some(Some(e))
  {
    LineShape(e);
    Text.TrimmedStays(LineOf(e));
    Text.TrimmedStays(e.key);
    IndexOfChar(e.key, ':', " " + e.value);
    SpaceTrimmed(e.value);
    ReadParts(LineOf(e), e.key, e.value);
  }

  lemma LineIsOneLine(e: Entry)
    requires GoodEntry(e)
    ensures LineOf(e) != "" && LineOf(e)[0] != '-' && '\n' !in LineOf(e) && '\r' !in LineOf(e)
  {
  }

  /** What the last entry with each key says. */
  function ValuesOf(entries: seq<Entry>): map<string, string> {
    if entries == [] then map[]
    else ValuesOf(entries[..|entries| - 1])[entries[|entries| - 1].key := entries[|entries| - 1].value]
  }

  lemma {:induction false} HeaderReadBack(entries: seq<Entry>)
    requires GoodEntries(entries)
    ensures Values(EntryLines(entries)) == Some(ValuesOf(entries))
  {
    if entries != [] {
      var init, last := entries[..|entries| - 1], entries[|entries| - 1];
      HeaderReadBack(init);
      EntryReadBack(last);
      assert EntryLines(entries)[..|EntryLines(entries)| - 1] == EntryLines(init);
    }
  }

  lemma {:induction false} EntryFound(entries: seq<Entry>, k: nat)
    requires k < |entries| && forall j :: k < j < |entries| ==> entries[j].key != entries[k].key
    ensures entries[k].key in ValuesOf(entries) && ValuesOf(entries)[entries[k].key] == entries[k].value
  {
    if k < |entries| - 1 {
      EntryFound(entries[..|entries| - 1], k);
    }
  }

  lemma QuoteIsOneLine(text: string)
    ensures OneLine(JsonText.Quote(text))
  {
    JsonText.EscapeIsVisible(text);
  }

  lemma OptionalIsOneLine(text: Option<string>)
    ensures OneLine(OptionalText(text))
  {
    if text.Some? {
      QuoteIsOneLine(text.value);
    }
  }

  lemma FlagIsOneLine(on: bool)
    ensures OneLine(FlagText(on))
  {
  }

  lemma TimeIsOneLine(at: Option<int>, clock: Clock)
    ensures OneLine(OptionalTime(at, clock))
  {
    if at.Some? {
      QuoteIsOneLine(clock.format(at.value));
    }
  }

  lemma FirstValuesAreGood(t: TaskRecord, k: nat)
    requires k < |FIRST_KEYS|
    ensures OneLine(FirstValues(t)[k])
  {
    if k == 0 { QuoteIsOneLine(t.id); }
    else if k == 1 { QuoteIsOneLine(t.providerID); }
    else if k == 2 { QuoteIsOneLine(t.listID); }
    else if k == 3 { OptionalIsOneLine(t.remoteID); }
    else if k == 4 { OptionalIsOneLine(t.parentTaskID); }
    else if k == 5 { QuoteIsOneLine(t.assignee); }
    else if k == 6 { QuoteIsOneLine(t.title); }
    else if k == 7 { QuoteIsOneLine(t.status); }
    else { QuoteIsOneLine(t.priority); }
  }

  lemma LastValuesAreGood(t: TaskRecord, stamps: Stamps, clock: Clock, k: nat)
    requires k < |LAST_KEYS|
    ensures OneLine(LastValues(t, stamps, clock)[k])
  {
    if k == 0 { OptionalIsOneLine(stamps.timeEstimate); }
    else if k == 1 { OptionalIsOneLine(stamps.timeTracked); }
    else if k == 2 { TimeIsOneLine(t.dueAt, clock); }
    else if k == 3 { TimeIsOneLine(t.completedAt, clock); }
    else if k == 4 { QuoteIsOneLine(t.syncState); }
    else if k == 5 { OptionalIsOneLine(stamps.remoteUpdatedAt); }
    else if k == 6 { FlagIsOneLine(t.deleted); }
    else if k == 7 { OptionalIsOneLine(stamps.deletedAt); }
    else if k == 8 { OptionalIsOneLine(stamps.createdAt); }
    else { QuoteIsOneLine(clock.format(t.updatedAt)); }
  }

  lemma FirstKeysAreGood(k: nat)
    requires k < |FIRST_KEYS|
    ensures GoodKey(FIRST_KEYS[k])
  {
  }

  lemma LastKeysAreGood(k: nat)
    requires k < |LAST_KEYS|
    ensures GoodKey(LAST_KEYS[k])
  {
  }

  lemma EntriesAreGood(t: TaskRecord, stamps: Stamps, clock: Clock)
    ensures GoodEntries(Entries(t, stamps, clock))
  {
    var entries := Entries(t, stamps, clock);
    forall k | 0 <= k < |entries|
      ensures GoodEntry(entries[k])
    {
      if k < |FIRST_KEYS| {
        FirstKeysAreGood(k);
        FirstValuesAreGood(t, k);
      } else {
        LastKeysAreGood(k - |FIRST_KEYS|);
        LastValuesAreGood(t, stamps, clock, k - |FIRST_KEYS|);
      }
    }
  }

  /** Length and first letter tell the keys apart. */
  function Signature(key: string): nat
    requires key != ""
  {
    |key| * 256 + key[0] as int
  }

  lemma FirstSignatures(k: nat)
    requires k < |FIRST_KEYS|
    ensures FIRST_KEYS[k] != "" && Signature(FIRST_KEYS[k]) == [617, 2928, 1900, 2418, 3696, 2145, 1396, 1651, 2160][k]
  {
  }

  lemma LastSignatures(k: nat)
    requires k < |LAST_KEYS|
    ensures LAST_KEYS[k] != ""
              && Signature(LAST_KEYS[k]) == [3444, 3188, 1636, 3171, 2675, 4466, 2665, 2660, 2659, 2677][k]
  {
  }

  lemma FirstFound(t: TaskRecord, stamps: Stamps, clock: Clock, k: nat)
    requires k < |FIRST_KEYS|
    ensures var values := ValuesOf(Entries(t, stamps, clock));
            FIRST_KEYS[k] in values && values[FIRST_KEYS[k]] == FirstValues(t)[k]
  {
    var entries := Entries(t, stamps, clock);
    forall j | k < j < |entries|
      ensures entries[j].key != entries[k].key
    {
      FirstSignatures(k);
      if j < |FIRST_KEYS| {
        FirstSignatures(j);
      } else {
        LastSignatures(j - |FIRST_KEYS|);
      }
    }
    EntryFound(entries, k);
  }

  lemma LastFound(t: TaskRecord, stamps: Stamps, clock: Clock, k: nat)
    requires k < |LAST_KEYS|
    ensures var values := ValuesOf(Entries(t, stamps, clock));
            LAST_KEYS[k] in values && values[LAST_KEYS[k]] == LastValues(t, stamps, clock)[k]
  {
    var entries := Entries(t, stamps, clock);
    forall j | k + |FIRST_KEYS| < j < |entries|
      ensures entries[j].key != entries[k + |FIRST_KEYS|].key
    {
      LastSignatures(k);
      LastSignatures(j - |FIRST_KEYS|);
    }
    EntryFound(entries, k + |FIRST_KEYS|);
  }

  /** What the document shows under each key; what is missing shows as null. */
  lemma ShownFields(t: TaskRecord, stamps: Stamps, clock: Clock)
    ensures ShowsIdentity(ValuesOf(Entries(t, stamps, clock)), t)
    ensures ShowsFields(ValuesOf(Entries(t, stamps, clock)), t, clock)
    ensures ShowsStamps(ValuesOf(Entries(t, stamps, clock)), t, stamps, clock)
  {
    ShownIdentity(t, stamps, clock);
    ShownContent(t, stamps, clock);
    ShownStamps(t, stamps, clock);
  }

  lemma ShownIdentity(t: TaskRecord, stamps: Stamps, clock: Clock)
    ensures ShowsIdentity(ValuesOf(Entries(t, stamps, clock)), t)
  {
    hide ValuesOf, Entries;
    FirstFound(t, stamps, clock, 0);
    FirstFound(t, stamps, clock, 1);
    FirstFound(t, stamps, clock, 2);
    FirstFound(t, stamps, clock, 3);
    FirstFound(t, stamps, clock, 4);
  }

  lemma ShownContent(t: TaskRecord, stamps: Stamps, clock: Clock)
    ensures ShowsFields(ValuesOf(Entries(t, stamps, clock)), t, clock)
  {
    hide ValuesOf, Entries;
    FirstFound(t, stamps, clock, 5);
    FirstFound(t, stamps, clock, 6);
    FirstFound(t, stamps, clock, 7);
    FirstFound(t, stamps, clock, 8);
    LastFound(t, stamps, clock, 2);
    LastFound(t, stamps, clock, 3);
  }

  lemma ShownStamps(t: TaskRecord, stamps: Stamps, clock: Clock)
    ensures ShowsStamps(ValuesOf(Entries(t, stamps, clock)), t, stamps, clock)
  {
    hide ValuesOf, Entries;
    LastFound(t, stamps, clock, 0);
    LastFound(t, stamps, clock, 1);
    LastFound(t, stamps, clock, 4);
    LastFound(t, stamps, clock, 5);
    LastFound(t, stamps, clock, 6);
    LastFound(t, stamps, clock, 7);
    LastFound(t, stamps, clock, 8);
    LastFound(t, stamps, clock, 9);
  }

  predicate Shows(values: map<string, string>, key: string, value: string) { key in values && values[key] == value }

  /** Identity and location, the remote ID and the parent. */
  ghost predicate ShowsIdentity(values: map<string, string>, t: TaskRecord) {
    && Shows(values, "id", JsonText.Quote(t.id)) && Shows(values, "provider_id", JsonText.Quote(t.providerID))
    && Shows(values, "list_id", JsonText.Quote(t.listID))
    && Shows(values, "remote_id", if t.remoteID.Some? then JsonText.Quote(t.remoteID.value) else "null")
    && Shows(values, "parent_task_id", if t.parentTaskID.Some? then JsonText.Quote(t.parentTaskID.value) else "null")
  }

  ghost predicate ShowsFields(values: map<string, string>, t: TaskRecord, clock: Clock) {
    && Shows(values, "assignee", JsonText.Quote(t.assignee)) && Shows(values, "title", JsonText.Quote(t.title))
    && Shows(values, "status", JsonText.Quote(t.status)) && Shows(values, "priority", JsonText.Quote(t.priority))
    && Shows(values, "due_at", if t.dueAt.Some? then JsonText.Quote(clock.format(t.dueAt.value)) else "null")
    && Shows(values, "completed_at",
             if t.completedAt.Some? then JsonText.Quote(clock.format(t.completedAt.value)) else "null")
  }

  ghost predicate ShowsStamps(values: map<string, string>, t: TaskRecord, stamps: Stamps, clock: Clock) {
    && Shows(values, "sync_state", JsonText.Quote(t.syncState))
    && Shows(values, "is_deleted", if t.deleted then "true" else "false")
    && Shows(values, "updated_at", JsonText.Quote(clock.format(t.updatedAt)))
    && Shows(values, "time_estimate", OptionalText(stamps.timeEstimate))
    && Shows(values, "time_tracked", OptionalText(stamps.timeTracked))
    && Shows(values, "remote_updated_at", OptionalText(stamps.remoteUpdatedAt))
    && Shows(values, "deleted_at", OptionalText(stamps.deletedAt))
    && Shows(values, "created_at", OptionalText(stamps.createdAt))
  }

  lemma TextFieldRead(values: map<string, string>, key: string, text: string, current: string)
    requires key in values && values[key] == JsonText.Quote(text)
    ensures Field(values, key, current) == Some(text)
  {
    JsonText.QuoteReadBack(text);
  }

  lemma TimeFieldRead(values: map<string, string>, key: string, at: Option<int>, current: Option<int>, clock: Clock)
    requires Faithful(clock) && key in values && values[key] == OptionalTime(at, clock)
    ensures TimeField(values, key, current, clock) == Some(at)
  {
    if at.Some? {
      JsonText.QuoteReadBack(clock.format(at.value));
      assert values[key][0] == '"' && "null"[0] == 'n';
      assert ReadBackAt(clock, at.value);
    }
  }

  /** The priorities the editor accepts; "none" is not one of them. */
  predicate EditablePriority(priority: string) { priority == "" || priority in EDITOR_PRIORITIES }

  predicate EditableStatus(status: string, statuses: seq<string>) { statuses == [] || status in statuses }

  ghost predicate SameIdentity(a: TaskRecord, b: TaskRecord) {
    a.id == b.id && a.providerID == b.providerID && a.listID == b.listID
  }

  /** The original with what the document can change. */
  function WithEdits(original: TaskRecord, edited: TaskRecord): TaskRecord {
    original.(assignee := edited.assignee, title := edited.title, status := edited.status, priority := edited.priority,
              dueAt := edited.dueAt, description := edited.description)
  }

  /** The values give the original with the edits, or nothing when the editor does not accept them. */
  lemma ValuesReadBack(edited: TaskRecord, stamps: Stamps, original: TaskRecord, statuses: seq<string>, clock: Clock)
    requires Faithful(clock)
    ensures Edited(ValuesOf(Entries(edited, stamps, clock)), original, statuses, clock) ==
              if SameIdentity(edited, original) && EditablePriority(edited.priority)
                 && EditableStatus(edited.status, statuses)
              then Some(WithEdits(original, edited).(description := original.description)) else None
  {
    var values := ValuesOf(Entries(edited, stamps, clock));
    TextsReadBack(edited, stamps, original, clock);
    LastFound(edited, stamps, clock, 2);
    TimeFieldRead(values, "due_at", edited.dueAt, original.dueAt, clock);
    FirstFound(edited, stamps, clock, 7);
    FirstFound(edited, stamps, clock, 8);
  }

  lemma TextsReadBack(edited: TaskRecord, stamps: Stamps, original: TaskRecord, clock: Clock)
    ensures var values := ValuesOf(Entries(edited, stamps, clock));
            && Field(values, "id", original.id) == Some(edited.id)
            && Field(values, "provider_id", original.providerID) == Some(edited.providerID)
            && Field(values, "list_id", original.listID) == Some(edited.listID)
            && Field(values, "assignee", original.assignee) == Some(edited.assignee)
            && Field(values, "title", original.title) == Some(edited.title)
            && Field(values, "status", original.status) == Some(edited.status)
            && Field(values, "priority", original.priority) == Some(edited.priority)
  {
    TextRead(edited, stamps, clock, 0, edited.id, original.id);
    TextRead(edited, stamps, clock, 1, edited.providerID, original.providerID);
    TextRead(edited, stamps, clock, 2, edited.listID, original.listID);
    TextRead(edited, stamps, clock, 5, edited.assignee, original.assignee);
    TextRead(edited, stamps, clock, 6, edited.title, original.title);
    TextRead(edited, stamps, clock, 7, edited.status, original.status);
    TextRead(edited, stamps, clock, 8, edited.priority, original.priority);
  }

  lemma TextRead(edited: TaskRecord, stamps: Stamps, clock: Clock, k: nat, text: string, current: string)
    requires k < |FIRST_KEYS| && FirstValues(edited)[k] == JsonText.Quote(text)
    ensures Field(ValuesOf(Entries(edited, stamps, clock)), FIRST_KEYS[k], current) == Some(text)
  {
    FirstFound(edited, stamps, clock, k);
    TextFieldRead(ValuesOf(Entries(edited, stamps, clock)), FIRST_KEYS[k], text, current);
  }

  // ----- finding the header and the body -----

  /** No line of the header after the first can be taken for the closing fence. */
  ghost predicate Fenceless(header: string) {
    forall k :: 0 <= k < |header| && header[k] == '\n' ==> k + 1 < |header| && header[k + 1] != '-'
  }

  ghost predicate GoodLines(lines: seq<string>) {
    forall k :: 0 <= k < |lines| ==> lines[k] != "" && lines[k][0] != '-' && '\n' !in lines[k] && '\r' !in lines[k]
  }

  lemma {:induction false} JoinedFenceless(lines: seq<string>)
    requires lines != [] && GoodLines(lines)
    ensures Join(lines) != "" && Join(lines)[0] != '-' && Fenceless(Join(lines)) && '\r' !in Join(lines)
  {
    var first := lines[0];
    if |lines| > 1 {
      var rest := Join(lines[1..]);
      JoinedFenceless(lines[1..]);
      var all := Join(lines);
      assert all == first + ['\n'] + rest;
      forall k | 0 <= k < |all| && all[k] == '\n'
        ensures k + 1 < |all| && all[k + 1] != '-'
      {
        if k > |first| {
          assert all[k] == rest[k - |first| - 1];
        }
      }
    }
  }

  lemma FenceFound(header: string, rest: string)
    requires Fenceless(header)
    ensures IndexOf(header + "\n---" + rest, "\n---") == Some(|header|)
  {
    var all := header + "\n---" + rest;
    forall k | 0 <= k < |header|
      ensures !("\n---" <= all[k..])
    {
      assert all[k..][0] == header[k];
      if header[k] == '\n' {
        assert all[k..][1] == header[k + 1];
      }
    }
    IndexOfFirst(header, "\n---", rest);
  }

  /** The body is the description, unless that has line ends the parser rewrites. */
  lemma BodyReadBack(description: string)
    ensures Body("\n\n" + UnixEnds(description + "\n")) == description <==> !HasDosEnd(description + "\n")
  {
    var text := UnixEnds(description + "\n");
    UnixEndsKeeps(description + "\n");
    UnixEndsLast(description + "\n");
    var s := "\n\n" + text;
    assert TrimPrefix(s) == "\n" + text && TrimPrefix("\n" + text) == text;
    assert (description + "\n")[..|description|] == description;
  }

  lemma FirstLineSplit(first: string, rest: string)
    requires '\n' !in first && Text.Trim(first) == "---"
    ensures SplitText(first + ['\n'] + rest) == SplitRest(rest)
  {
    var text := first + ['\n'] + rest;
    IndexOfChar(first, '\n', rest);
    assert ['\n'] == "\n";
    assert text[..|first|] == first && text[|first| + 1..] == rest;
  }

  /** A document as it is put together: fence, header, fence, empty line, description. */
  function Assembled(header: string, description: string): string {
    "---\n" + header + "\n---" + ("\n\n" + (description + "\n"))
  }

  lemma AssembledEnds(header: string, description: string)
    requires '\r' !in header
    ensures UnixEnds(Assembled(header, description))
            == "---" + ['\n'] + (header + "\n---" + ("\n\n" + UnixEnds(description + "\n")))
  {
    var front, last := "---\n" + header + "\n---" + "\n\n", description + "\n";
    assert Assembled(header, description) == front + last;
    UnixEndsPrefix(front, last);
    assert "---\n" == "---" + ['\n'];
    assert front + UnixEnds(last) == "---\n" + (header + "\n---" + ("\n\n" + UnixEnds(last)));
  }

  lemma DocumentSplit(header: string, description: string)
    requires Fenceless(header) && '\r' !in header
    ensures Split(Assembled(header, description)) == Some((header, Body("\n\n" + UnixEnds(description + "\n"))))
  {
    var body := "\n\n" + UnixEnds(description + "\n");
    var rest := header + "\n---" + body;
    AssembledEnds(header, description);
    Text.TrimmedStays("---");
    FenceFound(header, body);
    FirstLineSplit("---", rest);
    HeaderAndBody(header, body);
  }

  lemma HeaderAndBody(header: string, body: string)
    ensures (header + "\n---" + body)[..|header|] == header
    ensures (header + "\n---" + body)[|header| + 4..] == body
  {
  }

  // ----- the round trip -----

  lemma {:induction false} JoinConcat(a: seq<string>, b: seq<string>)
    requires a != [] && b != []
    ensures Join(a + b) == Join(a) + "\n" + Join(b)
  {
    if |a| == 1 {
      assert (a + b)[1..] == b;
    } else {
      JoinConcat(a[1..], b);
      assert (a + b)[1..] == a[1..] + b;
    }
  }

  lemma RenderedAssembled(t: TaskRecord, stamps: Stamps, clock: Clock)
    ensures EntryLines(Entries(t, stamps, clock)) != []
    ensures Rendered(t, stamps, clock) == Assembled(Join(EntryLines(Entries(t, stamps, clock))), t.description)
  {
    var lines := EntryLines(Entries(t, stamps, clock));
    var header := Join(lines);
    JoinConcat(["---"], lines + ["---", "", t.description]);
    JoinConcat(lines, ["---", "", t.description]);
    assert ["---"] + lines + ["---", "", t.description] == ["---"] + (lines + ["---", "", t.description]);
    JoinThree("---", "", t.description);
    TextJoins(header, t.description);
  }

  lemma JoinThree(a: string, b: string, c: string)
    ensures Join([a, b, c]) == a + "\n" + (b + "\n" + c)
  {
    assert [a, b, c][1..] == [b, c] && [b, c][1..] == [c];
    assert Join([b, c]) == b + "\n" + Join([c]);
  }

  lemma TextJoins(header: string, description: string)
    ensures "---" + "\n" + (header + "\n" + ("---" + "\n" + ("" + "\n" + description))) + "\n" ==
              Assembled(header, description)
  {
  }

  lemma {:induction false} EntryLinesAreGood(entries: seq<Entry>)
    requires GoodEntries(entries)
    ensures GoodLines(EntryLines(entries))
  {
    if entries != [] {
      EntryLinesAreGood(entries[..|entries| - 1]);
      LineIsOneLine(entries[|entries| - 1]);
    }
  }

  /**
    Parsing the rendering of an edited task gives the original with the edits, exactly when the edits keep
    ID, provider and list, the editor accepts priority and status, and the description has no line end the
    parser rewrites.
   */
  lemma DocumentReadBack(edited: TaskRecord, stamps: Stamps, original: TaskRecord, statuses: seq<string>, clock: Clock)
    requires Faithful(clock)
    ensures Parsed(Rendered(edited, stamps, clock), original, statuses, clock) == Some(WithEdits(original, edited))
            <==>
            && SameIdentity(edited, original)
            && EditablePriority(edited.priority) && EditableStatus(edited.status, statuses)
            && !HasDosEnd(edited.description + "\n")
    ensures Parsed(Rendered(edited, stamps, clock), original, statuses, clock).None? <==>
              !(SameIdentity(edited, original) && EditablePriority(edited.priority)
                && EditableStatus(edited.status, statuses))
  {
    var entries := Entries(edited, stamps, clock);
    var header := Join(EntryLines(entries));
    EntriesAreGood(edited, stamps, clock);
    RenderedAssembled(edited, stamps, clock);
    EntryLinesAreGood(entries);
    JoinedFenceless(EntryLines(entries));
    DocumentSplit(header, edited.description);
    JoinedLines(EntryLines(entries));
    HeaderReadBack(entries);
    ValuesReadBack(edited, stamps, original, statuses, clock);
    BodyReadBack(edited.description);
  }

  lemma DosEndHere()
    ensures HasDosEnd("a\r\nb" + "\n")
  {
    assert DosEndAt("a\r\nb" + "\n", 1);
  }

  /** A CRLF line end in the description is not read back. */
  lemma DosEndIsLost(edited: TaskRecord, stamps: Stamps, original: TaskRecord, statuses: seq<string>, clock: Clock)
    requires Faithful(clock) && edited.description == "a\r\nb"
    ensures Parsed(Rendered(edited, stamps, clock), original, statuses, clock) != Some(WithEdits(original, edited))
  {
    hide *;
    DosEndHere();
    DocumentReadBack(edited, stamps, original, statuses, clock);
  }

  /** Neither is the priority "none". */
  lemma NoneIsLost(edited: TaskRecord, stamps: Stamps, original: TaskRecord, statuses: seq<string>, clock: Clock)
    requires Faithful(clock) && edited.priority == "none"
    ensures Parsed(Rendered(edited, stamps, clock), original, statuses, clock) != Some(WithEdits(original, edited))
  {
    DocumentReadBack(edited, stamps, original, statuses, clock);
  }

  /** Whether an edit changed anything. */
  predicate DocumentEqual(a: TaskRecord, b: TaskRecord) {
    && a.title == b.title && a.description == b.description && a.assignee == b.assignee && a.status == b.status
    && a.priority == b.priority && a.dueAt == b.dueAt
  }

  /** It did exactly when the edits change the task. */
  lemma EqualExactly(edited: TaskRecord, original: TaskRecord)
    ensures DocumentEqual(edited, original) <==> WithEdits(original, edited) == original
  {
  }

  /** A save without edits is judged equal. */
  lemma UntouchedSave(task: TaskRecord, stamps: Stamps, statuses: seq<string>, clock: Clock)
    requires Faithful(clock) && EditablePriority(task.priority) && EditableStatus(task.status, statuses)
    requires !HasDosEnd(task.description + "\n")
    ensures Parsed(Rendered(task, stamps, clock), task, statuses, clock) == Some(task)
    ensures DocumentEqual(Parsed(Rendered(task, stamps, clock), task, statuses, clock).value, task)
  {
    DocumentReadBack(task, stamps, task, statuses, clock);
  }
}

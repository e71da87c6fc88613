// Rendering of one task (the inner `renderTask` helper of the task-list
// generator) and of the numbered tasks of one bucket (its `forEach` loops).

module TaskRender {
  import opened Text
  import opened Tasks

  datatype Format = Markdown | Checklist | Kanban

  /** The format name the generator reports. */
  function FormatName(f: Format): string {
    match f
    case Markdown => "markdown"
    case Checklist => "checklist"
    case Kanban => "kanban"
  }

  function StatusIcon(s: Status): string {
    match s
    case Completed => "✅"
    case InProgress => "🔄"
    case Pending => "⏳"
  }

  /** A task without a priority gets no icon at all. */
  function PriorityIcon(p: Option<Priority>): string {
    match p
    case Some(High) => "🔴"
    case Some(Medium) => "🟡"
    case Some(Low) => "🟢"
    case None => ""
  }

  function Checkbox(useCheckbox: bool, s: Status): string {
    if useCheckbox then (if s == Completed then "[x]" else "[ ]") else ""
  }

  /** The first line of a task, without its newline: in checklist format the
      checkbox, the priority icon and the text; otherwise the number, the
      status icon, the priority icon and the text in bold. */
  function TaskHead(t: Task, index: nat, useCheckbox: bool, format: Format): string {
    if format == Checklist then
      Checkbox(useCheckbox, t.status) + " " + PriorityIcon(t.priority) + " " + t.task
    else
      NatToString(index) + ". " + StatusIcon(t.status) + " " + PriorityIcon(t.priority) + " **" + t.task + "**"
  }

  /** The metadata a task can carry, in the order its lines are written. */
  datatype MetaField = AssigneeField | DeadlineField | EstimateField | TagsField | DependenciesField

  function FieldRank(f: MetaField): nat {
    match f
    case AssigneeField => 0
    case DeadlineField => 1
    case EstimateField => 2
    case TagsField => 3
    case DependenciesField => 4
  }

  datatype MetaLine = MetaLine(field: MetaField, value: string)

  /** The metadata lines of a task: one per truthy field, lists joined with
      ", ". */
  function MetaLines(t: Task): seq<MetaLine> {
    LineIf(Truthy(t.assignee), AssigneeField, TextOf(t.assignee))
    + LineIf(Truthy(t.deadline), DeadlineField, TextOf(t.deadline))
    + LineIf(Truthy(t.estimatedTime), EstimateField, TextOf(t.estimatedTime))
    + LineIf(Listed(t.tags), TagsField, ListText(t.tags))
    + LineIf(Listed(t.dependencies), DependenciesField, ListText(t.dependencies))
  }

  function LineIf(present: bool, f: MetaField, value: string): seq<MetaLine> {
    if present then [MetaLine(f, value)] else []
  }

  /** An optional list joined with ", "; empty when absent. */
  function ListText(o: Option<seq<string>>): string {
    if o.Some? then Join(o.value, ", ") else ""
  }

  function FieldsOf(ms: seq<MetaLine>): (fs: seq<MetaField>)
    ensures |fs| == |ms|
  {
    seq(|ms|, i requires 0 <= i < |ms| => ms[i].field)
  }

  function MetaPrefix(f: MetaField): string {
    match f
    case AssigneeField => "   - 👤 担当: "
    case DeadlineField => "   - 📅 期限: "
    case EstimateField => "   - ⏱️ 見積時間: "
    case TagsField => "   - 🏷️ タグ: "
    case DependenciesField => "   - 🔗 依存: "
  }

  function RenderMeta(ms: seq<MetaLine>): string {
    if ms == [] then ""
    else RenderMeta(ms[..|ms| - 1]) + MetaPrefix(ms[|ms| - 1].field) + ms[|ms| - 1].value + "\n"
  }

  /** What `renderTask` returns: the first line, then the metadata lines when
      metadata is included, then a blank line. */
  function TaskBlock(t: Task, index: nat, useCheckbox: bool, format: Format, includeMetadata: bool): string {
    TaskHead(t, index, useCheckbox, format) + "\n"
    + (if includeMetadata then RenderMeta(MetaLines(t)) else "")
    + "\n"
  }

  /** `renderTask`: builds the task's lines step by step. */
  method RenderTask(t: Task, index: nat, useCheckbox: bool, format: Format, includeMetadata: bool)
    returns (taskLine: string)
    ensures taskLine == TaskBlock(t, index, useCheckbox, format, includeMetadata)
  {
    var statusIcon := StatusIcon(t.status);
    var priorityIcon := PriorityIcon(t.priority);
    var checkbox := Checkbox(useCheckbox, t.status);
    taskLine := "";
    if format == Checklist {
      assert taskLine + checkbox == checkbox;
      taskLine := taskLine + checkbox + " " + priorityIcon + " " + t.task;
    } else {
      assert taskLine + NatToString(index) == NatToString(index);
      taskLine := taskLine + NatToString(index) + ". " + statusIcon + " " + priorityIcon + " **" + t.task + "**";
    }
    ghost var head := TaskHead(t, index, useCheckbox, format);
    assert taskLine == head;
    taskLine := taskLine + "\n";
    ghost var meta := if includeMetadata then RenderMeta(MetaLines(t)) else "";
    if includeMetadata {
      taskLine := AppendMetadata(taskLine, t);
    } else {
      assert taskLine == taskLine + "";
    }
    assert taskLine == head + "\n" + meta;
    taskLine := taskLine + "\n";
  }

  /** The metadata part of `renderTask`: one line per truthy field. */
  method AppendMetadata(line: string, t: Task) returns (taskLine: string)
    ensures taskLine == line + RenderMeta(MetaLines(t))
  {
    taskLine := line;
    ghost var ms: seq<MetaLine> := [];
    ghost var before := taskLine;
    if Truthy(t.assignee) {
      taskLine := taskLine + "   - 👤 担当: " + t.assignee.value + "\n";
    }
    MetaStep(line, ms, before, taskLine, Truthy(t.assignee), AssigneeField, TextOf(t.assignee));
    ms, before := ms + LineIf(Truthy(t.assignee), AssigneeField, TextOf(t.assignee)), taskLine;
    if Truthy(t.deadline) {
      taskLine := taskLine + "   - 📅 期限: " + t.deadline.value + "\n";
    }
    MetaStep(line, ms, before, taskLine, Truthy(t.deadline), DeadlineField, TextOf(t.deadline));
    ms, before := ms + LineIf(Truthy(t.deadline), DeadlineField, TextOf(t.deadline)), taskLine;
    if Truthy(t.estimatedTime) {
      taskLine := taskLine + "   - ⏱️ 見積時間: " + t.estimatedTime.value + "\n";
    }
    MetaStep(line, ms, before, taskLine, Truthy(t.estimatedTime), EstimateField, TextOf(t.estimatedTime));
    ms, before := ms + LineIf(Truthy(t.estimatedTime), EstimateField, TextOf(t.estimatedTime)), taskLine;
    if Listed(t.tags) {
      taskLine := taskLine + "   - 🏷️ タグ: " + Join(t.tags.value, ", ") + "\n";
    }
    MetaStep(line, ms, before, taskLine, Listed(t.tags), TagsField, ListText(t.tags));
    ms, before := ms + LineIf(Listed(t.tags), TagsField, ListText(t.tags)), taskLine;
    if Listed(t.dependencies) {
      taskLine := taskLine + "   - 🔗 依存: " + Join(t.dependencies.value, ", ") + "\n";
    }
    MetaStep(line, ms, before, taskLine, Listed(t.dependencies), DependenciesField, ListText(t.dependencies));
    ms := ms + LineIf(Listed(t.dependencies), DependenciesField, ListText(t.dependencies));
  }

  /** One metadata step: the buffer gains the field's line exactly when the
      field is present. */
  lemma MetaStep(head: string, ms: seq<MetaLine>, before: string, after: string,
                 present: bool, f: MetaField, value: string)
    requires before == head + RenderMeta(ms)
    requires after == if present then before + MetaPrefix(f) + value + "\n" else before
    ensures after == head + RenderMeta(ms + LineIf(present, f, value))
  {
    if present {
      var next := ms + [MetaLine(f, value)];
      var line := MetaPrefix(f) + value + "\n";
      assert RenderMeta(next) == RenderMeta(ms) + line by {
        assert next[..|ms|] == ms;
        Assoc(RenderMeta(ms), MetaPrefix(f), value);
        Assoc(RenderMeta(ms), MetaPrefix(f) + value, "\n");
      }
      assert after == before + line by {
        Assoc(before, MetaPrefix(f), value);
        Assoc(before, MetaPrefix(f) + value, "\n");
      }
      Assoc(head, RenderMeta(ms), line);
    } else {
      assert ms + [] == ms;
    }
  }

  /** The checkbox is checked exactly for completed tasks, and appears only
      in checklist format; a checklist line carries no number and no status
      icon, so only whether the task is completed shows in it. */
  lemma CheckboxMarksCompletion(t: Task, index: nat, other: nat, s: Status)
    ensures var h := TaskHead(t, index, true, Checklist);
      && |h| >= 3 && h[0] == '[' && h[2] == ']'
      && (h[1] == 'x' <==> t.status == Completed)
      && (h[1] == ' ' <==> t.status != Completed)
    ensures TaskHead(t, index, true, Checklist) == TaskHead(t, other, true, Checklist)
    ensures TaskHead(t, index, false, Checklist)[..1] == " "
    ensures (s == Completed) == (t.status == Completed) ==>
      TaskHead(t, index, true, Checklist) == TaskHead(t.(status := s), index, true, Checklist)
  {
  }

  /** Outside checklist format a task line starts with its number, which can
      be read back from the line, followed by ". " and the status icon. */
  lemma NumberLeadsTaskLine(t: Task, index: nat, useCheckbox: bool, format: Format)
    requires format != Checklist
    ensures var h := TaskHead(t, index, useCheckbox, format); var d := NatToString(index);
      && |d| + 2 + |StatusIcon(t.status)| <= |h|
      && h[..|d|] == d && h[|d|..|d| + 2] == ". "
      && h[|d| + 2..|d| + 2 + |StatusIcon(t.status)|] == StatusIcon(t.status)
      && AllDigits(h[..|d|]) && DecimalValue(h[..|d|]) == index
  {
    DecimalRoundTrip(index);
    var h := TaskHead(t, index, useCheckbox, format);
    var d := NatToString(index);
    var s := StatusIcon(t.status);
    var rest := " " + PriorityIcon(t.priority) + " **" + t.task + "**";
    assert h == d + ". " + s + rest;
  }

  function FieldIf(present: bool, f: MetaField): seq<MetaField> {
    if present then [f] else []
  }

  lemma FieldsOfAppend(a: seq<MetaLine>, b: seq<MetaLine>)
    ensures FieldsOf(a + b) == FieldsOf(a) + FieldsOf(b)
  {
  }

  lemma FieldsOfLineIf(present: bool, f: MetaField, value: string)
    ensures FieldsOf(LineIf(present, f, value)) == FieldIf(present, f)
  {
  }

  lemma MetaFields(t: Task)
    ensures FieldsOf(MetaLines(t))
         == FieldIf(Truthy(t.assignee), AssigneeField) + FieldIf(Truthy(t.deadline), DeadlineField)
            + FieldIf(Truthy(t.estimatedTime), EstimateField) + FieldIf(Listed(t.tags), TagsField)
            + FieldIf(Listed(t.dependencies), DependenciesField)
  {
    var a := LineIf(Truthy(t.assignee), AssigneeField, TextOf(t.assignee));
    var d := LineIf(Truthy(t.deadline), DeadlineField, TextOf(t.deadline));
    var e := LineIf(Truthy(t.estimatedTime), EstimateField, TextOf(t.estimatedTime));
    var g := LineIf(Listed(t.tags), TagsField, ListText(t.tags));
    var p := LineIf(Listed(t.dependencies), DependenciesField, ListText(t.dependencies));
    FieldsOfAppend(a, d);
    FieldsOfAppend(a + d, e);
    FieldsOfAppend(a + d + e, g);
    FieldsOfAppend(a + d + e + g, p);
    FieldsOfLineIf(Truthy(t.assignee), AssigneeField, TextOf(t.assignee));
    FieldsOfLineIf(Truthy(t.deadline), DeadlineField, TextOf(t.deadline));
    FieldsOfLineIf(Truthy(t.estimatedTime), EstimateField, TextOf(t.estimatedTime));
    FieldsOfLineIf(Listed(t.tags), TagsField, ListText(t.tags));
    FieldsOfLineIf(Listed(t.dependencies), DependenciesField, ListText(t.dependencies));
  }

  predicate Increasing(fs: seq<MetaField>) {
    forall i, j :: 0 <= i < j < |fs| ==> FieldRank(fs[i]) < FieldRank(fs[j])
  }

  lemma AppendLater(fs: seq<MetaField>, present: bool, f: MetaField)
    requires Increasing(fs) && forall x :: x in fs ==> FieldRank(x) < FieldRank(f)
    ensures Increasing(fs + FieldIf(present, f))
  {
  }

  lemma FieldIfMembers(present: bool, f: MetaField)
    ensures forall x :: x in FieldIf(present, f) <==> present && x == f
  {
  }

  /** Fields kept by five presence tests, in rank order, come out in
      increasing rank, and each is there exactly when its test holds. */
  lemma FieldsInOrder(pa: bool, pd: bool, pe: bool, pg: bool, pp: bool)
    ensures var fs := FieldIf(pa, AssigneeField) + FieldIf(pd, DeadlineField) + FieldIf(pe, EstimateField)
                      + FieldIf(pg, TagsField) + FieldIf(pp, DependenciesField);
      && Increasing(fs)
      && (AssigneeField in fs <==> pa) && (DeadlineField in fs <==> pd) && (EstimateField in fs <==> pe)
      && (TagsField in fs <==> pg) && (DependenciesField in fs <==> pp)
  {
    var a := FieldIf(pa, AssigneeField);
    var d := FieldIf(pd, DeadlineField);
    var e := FieldIf(pe, EstimateField);
    var g := FieldIf(pg, TagsField);
    var p := FieldIf(pp, DependenciesField);
    FieldIfMembers(pa, AssigneeField);
    FieldIfMembers(pd, DeadlineField);
    FieldIfMembers(pe, EstimateField);
    FieldIfMembers(pg, TagsField);
    FieldIfMembers(pp, DependenciesField);
    assert [] + a == a;
    AppendLater([], pa, AssigneeField);
    AppendLater(a, pd, DeadlineField);
    AppendLater(a + d, pe, EstimateField);
    AppendLater(a + d + e, pg, TagsField);
    AppendLater(a + d + e + g, pp, DependenciesField);
  }

  /** The metadata lines come in the fixed order assignee, deadline,
      estimate, tags, dependencies, and a line is there exactly when its
      field is truthy. */
  lemma MetaLinesInOrder(t: Task)
    ensures var fs := FieldsOf(MetaLines(t));
      && (forall i, j :: 0 <= i < j < |fs| ==> FieldRank(fs[i]) < FieldRank(fs[j]))
      && (AssigneeField in fs <==> Truthy(t.assignee))
      && (DeadlineField in fs <==> Truthy(t.deadline))
      && (EstimateField in fs <==> Truthy(t.estimatedTime))
      && (TagsField in fs <==> Listed(t.tags))
      && (DependenciesField in fs <==> Listed(t.dependencies))
  {
    MetaFields(t);
    FieldsInOrder(Truthy(t.assignee), Truthy(t.deadline), Truthy(t.estimatedTime), Listed(t.tags), Listed(t.dependencies));
  }

  /** The text a metadata field shows: the string itself, or the list
      joined with ", ". */
  function FieldText(t: Task, f: MetaField): string {
    match f
    case AssigneeField => TextOf(t.assignee)
    case DeadlineField => TextOf(t.deadline)
    case EstimateField => TextOf(t.estimatedTime)
    case TagsField => ListText(t.tags)
    case DependenciesField => ListText(t.dependencies)
  }

  /** Each metadata line carries its field's text verbatim, lists joined
      with ", ". */
  lemma MetaLinesCarryValues(t: Task)
    ensures forall m :: m in MetaLines(t) ==> m.value == FieldText(t, m.field)
  {
    var a := LineIf(Truthy(t.assignee), AssigneeField, TextOf(t.assignee));
    var b := LineIf(Truthy(t.deadline), DeadlineField, TextOf(t.deadline));
    var c := LineIf(Truthy(t.estimatedTime), EstimateField, TextOf(t.estimatedTime));
    var d := LineIf(Listed(t.tags), TagsField, ListText(t.tags));
    var e := LineIf(Listed(t.dependencies), DependenciesField, ListText(t.dependencies));
    forall m | m in MetaLines(t) ensures m.value == FieldText(t, m.field) {
      assert m in a + b + c + d + e;
      assert m in a || m in b || m in c || m in d || m in e;
    }
  }

  /** Without metadata a task is its first line and a blank line. */
  lemma NoMetadataWhenExcluded(t: Task, index: nat, useCheckbox: bool, format: Format)
    ensures TaskBlock(t, index, useCheckbox, format, false) == TaskHead(t, index, useCheckbox, format) + "\n\n"
  {
    assert TaskHead(t, index, useCheckbox, format) + "\n" + "" + "\n"
        == TaskHead(t, index, useCheckbox, format) + "\n\n";
  }

  /** The tasks of one bucket, numbered from 1 in bucket order. */
  function Numbered(ts: seq<Task>, useCheckbox: bool, format: Format, includeMetadata: bool): string {
    if ts == [] then ""
    else Numbered(ts[..|ts| - 1], useCheckbox, format, includeMetadata)
         + TaskBlock(ts[|ts| - 1], |ts|, useCheckbox, format, includeMetadata)
  }

  function Concat(ss: seq<string>): string {
    if ss == [] then "" else Concat(ss[..|ss| - 1]) + ss[|ss| - 1]
  }

  /** Numbering restarts at 1 in every bucket: the k-th task of a bucket (from
      0) is rendered with the number k + 1, and the blocks follow the bucket's
      order. */
  lemma {:induction false} NumberedFromOne(ts: seq<Task>, useCheckbox: bool, format: Format, includeMetadata: bool)
    ensures Numbered(ts, useCheckbox, format, includeMetadata)
         == Concat(seq(|ts|, k requires 0 <= k < |ts| => TaskBlock(ts[k], k + 1, useCheckbox, format, includeMetadata)))
  {
    if ts != [] {
      var n := |ts| - 1;
      var front := ts[..n];
      var all := seq(|ts|, k requires 0 <= k < |ts| => TaskBlock(ts[k], k + 1, useCheckbox, format, includeMetadata));
      var blocks := seq(n, k requires 0 <= k < n => TaskBlock(front[k], k + 1, useCheckbox, format, includeMetadata));
      assert all[..n] == blocks;
      assert Concat(all) == Concat(blocks) + TaskBlock(ts[n], n + 1, useCheckbox, format, includeMetadata);
      NumberedFromOne(front, useCheckbox, format, includeMetadata);
    }
  }

  lemma NumberedStep(list: string, ts: seq<Task>, i: nat, useCheckbox: bool, format: Format, includeMetadata: bool)
    requires i < |ts|
    ensures list + Numbered(ts[..i], useCheckbox, format, includeMetadata)
              + TaskBlock(ts[i], i + 1, useCheckbox, format, includeMetadata)
         == list + Numbered(ts[..i + 1], useCheckbox, format, includeMetadata)
  {
    var p := ts[..i + 1];
    assert p[..i] == ts[..i] && p[i] == ts[i];
    ghost var done := Numbered(ts[..i], useCheckbox, format, includeMetadata);
    ghost var block := TaskBlock(ts[i], i + 1, useCheckbox, format, includeMetadata);
    assert Numbered(p, useCheckbox, format, includeMetadata) == done + block;
    Assoc(list, done, block);
  }

  /** The tasks of a bucket one after the other, numbered from 1. */
  method AppendTasks(list: string, ts: seq<Task>, useCheckbox: bool, format: Format, includeMetadata: bool)
    returns (result: string)
    ensures result == list + Numbered(ts, useCheckbox, format, includeMetadata)
  {
    result := list;
    for i := 0 to |ts|
      invariant result == list + Numbered(ts[..i], useCheckbox, format, includeMetadata)
    {
      var line := RenderTask(ts[i], i + 1, useCheckbox, format, includeMetadata);
      NumberedStep(list, ts, i, useCheckbox, format, includeMetadata);
      result := result + line;
    }
    assert ts[..|ts|] == ts;
  }
}

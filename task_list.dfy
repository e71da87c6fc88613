// The task-list generator: summary counts, the section for the chosen
// grouping, the numbered tasks of every bucket and the footer, appended to
// one markdown buffer.

module TaskList {
  import opened Text
  import opened Tasks
  import opened Grouping
  import opened TaskRender

  datatype GroupBy = NoGrouping | ByPriority | ByAssignee | ByStatus | ByDeadline

  /** The generator's input with the schema defaults applied (title
      "タスクリスト", status pending, grouping by priority, markdown, metadata
      included). */
  datatype TaskListInput = TaskListInput(
    title: string,
    tasks: seq<Task>,
    groupBy: GroupBy,
    format: Format,
    includeMetadata: bool)

  datatype StatusCounts = StatusCounts(pending: nat, inProgress: nat, completed: nat)

  datatype TaskListOutput = TaskListOutput(
    taskList: string,
    format: string,
    totalTasks: nat,
    tasksByStatus: StatusCounts)

  /** Kanban format wins over any grouping; `deadline` renders like `none`. */
  function LayoutFor(groupBy: GroupBy, format: Format): Layout {
    if format == Kanban then Board
    else match groupBy
      case ByPriority => PriorityGroups
      case ByAssignee => AssigneeGroups
      case ByStatus => StatusGroups
      case NoGrouping => Flat
      case ByDeadline => Flat
  }

  /** The board calls `renderTask` without a checkbox argument; every other
      layout asks for a checkbox exactly in checklist format. */
  function UsesCheckbox(layout: Layout, format: Format): bool {
    layout != Board && format == Checklist
  }

  function SectionTitle(layout: Layout): string {
    match layout
    case Board => "## 📋 タスクボード\n\n"
    case PriorityGroups => "## 📋 タスク一覧（優先度別）\n\n"
    case AssigneeGroups => "## 📋 タスク一覧（担当者別）\n\n"
    case StatusGroups => "## 📋 タスク一覧（ステータス別）\n\n"
    case Flat => "## 📋 タスク一覧\n\n"
  }

  function BucketHeading(l: Label): string {
    match l
    case StatusLabel(Pending) => "### ⏳ 未着手\n\n"
    case StatusLabel(InProgress) => "### 🔄 進行中\n\n"
    case StatusLabel(Completed) => "### ✅ 完了\n\n"
    case PriorityLabel(Some(High)) => "### 🔴 優先度: 高\n\n"
    case PriorityLabel(Some(Medium)) => "### 🟡 優先度: 中\n\n"
    case PriorityLabel(Some(Low)) => "### 🟢 優先度: 低\n\n"
    case PriorityLabel(None) => "### その他\n\n"
    case AssigneeLabel(name) => "### 👤 " + name + "\n\n"
    case NoLabel => ""
  }

  function RenderBucket(b: Bucket, useCheckbox: bool, format: Format, includeMetadata: bool): string {
    BucketHeading(b.tag) + Numbered(b.tasks, useCheckbox, format, includeMetadata)
  }

  function RenderBuckets(bs: seq<Bucket>, useCheckbox: bool, format: Format, includeMetadata: bool): string {
    if bs == [] then ""
    else RenderBuckets(bs[..|bs| - 1], useCheckbox, format, includeMetadata)
         + RenderBucket(bs[|bs| - 1], useCheckbox, format, includeMetadata)
  }

  /** A bucket that is written only when it holds a task. */
  function Shown(b: Bucket, useCheckbox: bool, format: Format, includeMetadata: bool): string {
    Guarded(BucketHeading(b.tag), b.tasks, useCheckbox, format, includeMetadata)
  }

  /** A heading and numbered tasks that appear only when there are tasks. */
  function Guarded(heading: string, ts: seq<Task>, useCheckbox: bool, format: Format, includeMetadata: bool): string {
    if |ts| > 0 then heading + Numbered(ts, useCheckbox, format, includeMetadata) else ""
  }

  function Counts(ts: seq<Task>): StatusCounts {
    StatusCounts(CountStatus(ts, Pending), CountStatus(ts, InProgress), CountStatus(ts, Completed))
  }

  /** The title and the summary block. */
  function Header(title: string, ts: seq<Task>): string {
    "# " + title + "\n\n"
    + "## 📊 サマリー\n\n"
    + "- 総タスク数: " + NatToString(|ts|) + "\n"
    + "- 未着手: " + NatToString(CountStatus(ts, Pending)) + "\n"
    + "- 進行中: " + NatToString(CountStatus(ts, InProgress)) + "\n"
    + "- 完了: " + NatToString(CountStatus(ts, Completed)) + "\n\n"
  }

  /** The section title and the buckets of the layout. */
  function Body(ts: seq<Task>, layout: Layout, format: Format, includeMetadata: bool): string {
    SectionTitle(layout) + RenderBuckets(Buckets(ts, layout), UsesCheckbox(layout, format), format, includeMetadata)
  }

  /** The rule and the timestamp line that close the list. */
  function Footer(updatedAt: string): string {
    "---\n\n" + "*最終更新: " + updatedAt + "*\n"
  }

  /** The whole document for an input and a footer timestamp. */
  function TaskListText(input: TaskListInput, updatedAt: string): string {
    Header(input.title, input.tasks)
    + Body(input.tasks, LayoutFor(input.groupBy, input.format), input.format, input.includeMetadata)
    + Footer(updatedAt)
  }

  /** `createTaskListTool.execute`; `updatedAt` stands for the locale
      timestamp of the footer. */
  method CreateTaskList(input: TaskListInput, updatedAt: string) returns (out: TaskListOutput)
    ensures out.taskList == TaskListText(input, updatedAt)
    ensures out.totalTasks == |input.tasks|
    ensures out.tasksByStatus == Counts(input.tasks)
    ensures out.tasksByStatus.pending + out.tasksByStatus.inProgress + out.tasksByStatus.completed == out.totalTasks
    ensures out.format == FormatName(input.format)
  {
    var tasks := input.tasks;
    var format := input.format;
    var includeMetadata := input.includeMetadata;
    var taskList := "";
    var tasksByStatus := StatusCounts(
      |Select(tasks, StatusLabel(Pending))|,
      |Select(tasks, StatusLabel(InProgress))|,
      |Select(tasks, StatusLabel(Completed))|);

    taskList := taskList + "# " + input.title + "\n\n";
    assert taskList == "# " + input.title + "\n\n";
    taskList := taskList + "## 📊 サマリー\n\n";
    taskList := taskList + "- 総タスク数: " + NatToString(|tasks|) + "\n";
    taskList := taskList + "- 未着手: " + NatToString(tasksByStatus.pending) + "\n";
    taskList := taskList + "- 進行中: " + NatToString(tasksByStatus.inProgress) + "\n";
    taskList := taskList + "- 完了: " + NatToString(tasksByStatus.completed) + "\n\n";
    ghost var header := taskList;
    assert header == Header(input.title, tasks);
    ghost var layout := LayoutFor(input.groupBy, format);
    ghost var body := Body(tasks, layout, format, includeMetadata);

    if format == Kanban {
      taskList := RenderBoard(taskList, tasks, format, includeMetadata);
      assert layout == Board;
    } else if input.groupBy == ByPriority {
      taskList := RenderByPriority(taskList, tasks, format, includeMetadata);
      assert layout == PriorityGroups;
    } else if input.groupBy == ByAssignee {
      taskList := RenderByAssignee(taskList, tasks, format, includeMetadata);
      assert layout == AssigneeGroups;
    } else if input.groupBy == ByStatus {
      taskList := RenderByStatus(taskList, tasks, format, includeMetadata);
      assert layout == StatusGroups;
    } else {
      taskList := RenderUngrouped(taskList, tasks, format, includeMetadata);
      assert layout == Flat;
    }
    assert taskList == header + body;

    ghost var page := taskList;
    taskList := taskList + "---\n\n";
    taskList := taskList + "*最終更新: " + updatedAt + "*\n";
    assert taskList == page + Footer(updatedAt) by {
      Assoc(page, "---\n\n", "*最終更新: ");
      Assoc(page, "---\n\n" + "*最終更新: ", updatedAt);
      Assoc(page, "---\n\n" + "*最終更新: " + updatedAt, "*\n");
    }
    StatusCountsAddUp(tasks);
    out := TaskListOutput(taskList, FormatName(format), |tasks|, tasksByStatus);
  }

  /** A heading and its numbered tasks, written only when there is a task. */
  method AppendIfAny(list: string, heading: string, ts: seq<Task>, useCheckbox: bool, format: Format, includeMetadata: bool)
    returns (result: string)
    ensures result == list + Guarded(heading, ts, useCheckbox, format, includeMetadata)
  {
    result := list;
    if |ts| > 0 {
      var withHeading := result + heading;
      result := AppendTasks(withHeading, ts, useCheckbox, format, includeMetadata);
      ghost var n := Numbered(ts, useCheckbox, format, includeMetadata);
      assert result == withHeading + n;
      Assoc(list, heading, n);
    } else {
      assert result == list + "";
    }
  }

  /** Appends one bucket's heading and numbered tasks to `list`. */
  method AppendBucket(list: string, heading: string, ts: seq<Task>, useCheckbox: bool, format: Format, includeMetadata: bool)
    returns (result: string)
    ensures result == list + (heading + Numbered(ts, useCheckbox, format, includeMetadata))
  {
    var withHeading := list + heading;
    result := AppendTasks(withHeading, ts, useCheckbox, format, includeMetadata);
    ghost var n := Numbered(ts, useCheckbox, format, includeMetadata);
    assert result == withHeading + n;
    Assoc(list, heading, n);
  }

  lemma StatusHeadings()
    ensures BucketHeading(StatusLabel(Pending)) == "### ⏳ 未着手\n\n"
    ensures BucketHeading(StatusLabel(InProgress)) == "### 🔄 進行中\n\n"
    ensures BucketHeading(StatusLabel(Completed)) == "### ✅ 完了\n\n"
  {
  }

  lemma PriorityHeadings()
    ensures BucketHeading(PriorityLabel(Some(High))) == "### 🔴 優先度: 高\n\n"
    ensures BucketHeading(PriorityLabel(Some(Medium))) == "### 🟡 優先度: 中\n\n"
    ensures BucketHeading(PriorityLabel(Some(Low))) == "### 🟢 優先度: 低\n\n"
    ensures BucketHeading(PriorityLabel(None)) == "### その他\n\n"
  {
  }

  lemma StatusBuckets(tasks: seq<Task>)
    ensures BucketsOf(tasks, StatusLabels)
         == [BucketOf(tasks, StatusLabel(Pending)), BucketOf(tasks, StatusLabel(InProgress)),
             BucketOf(tasks, StatusLabel(Completed))]
  {
  }

  lemma PriorityBuckets(tasks: seq<Task>)
    ensures BucketsOf(tasks, PriorityLabels)
         == [BucketOf(tasks, PriorityLabel(Some(High))), BucketOf(tasks, PriorityLabel(Some(Medium))),
             BucketOf(tasks, PriorityLabel(Some(Low))), BucketOf(tasks, PriorityLabel(None))]
  {
  }

  /** The kanban branch: the three status columns, always, in the order
      pending, in progress, completed. */
  method RenderBoard(list: string, tasks: seq<Task>, format: Format, includeMetadata: bool) returns (result: string)
    requires format == Kanban
    ensures result == list + Body(tasks, Board, format, includeMetadata)
  {
    var title := "## 📋 タスクボード\n\n";
    result := list + title;
    ghost var top := result;
    ghost var s0, s1, s2 := BoardColumns(tasks, format, includeMetadata);
    result := AppendBucket(result, "### ⏳ 未着手\n\n", Select(tasks, StatusLabel(Pending)), false, format, includeMetadata);
    ghost var r := result;
    assert r == top + s0;
    result := AppendBucket(result, "### 🔄 進行中\n\n", Select(tasks, StatusLabel(InProgress)), false, format, includeMetadata);
    assert result == top + (s0 + s1) by {
      Assoc(top, s0, s1);
    }
    r := result;
    result := AppendBucket(result, "### ✅ 完了\n\n", Select(tasks, StatusLabel(Completed)), false, format, includeMetadata);
    assert result == top + (s0 + s1 + s2) by {
      Assoc(top, s0 + s1, s2);
    }
    Assoc(list, title, s0 + s1 + s2);
  }

  /** The three columns of the board, each a status heading and the
      numbered tasks of that status. */
  lemma BoardColumns(tasks: seq<Task>, format: Format, includeMetadata: bool) returns (s0: string, s1: string, s2: string)
    ensures s0 == "### ⏳ 未着手\n\n" + Numbered(Select(tasks, StatusLabel(Pending)), false, format, includeMetadata)
    ensures s1 == "### 🔄 進行中\n\n" + Numbered(Select(tasks, StatusLabel(InProgress)), false, format, includeMetadata)
    ensures s2 == "### ✅ 完了\n\n" + Numbered(Select(tasks, StatusLabel(Completed)), false, format, includeMetadata)
    ensures RenderBuckets(Buckets(tasks, Board), false, format, includeMetadata) == s0 + s1 + s2
  {
    var b0, b1, b2 := BucketOf(tasks, StatusLabel(Pending)), BucketOf(tasks, StatusLabel(InProgress)),
                      BucketOf(tasks, StatusLabel(Completed));
    s0, s1, s2 := RenderBucket(b0, false, format, includeMetadata), RenderBucket(b1, false, format, includeMetadata),
                  RenderBucket(b2, false, format, includeMetadata);
    assert RenderBuckets(Buckets(tasks, Board), false, format, includeMetadata) == s0 + s1 + s2 by {
      StatusBuckets(tasks);
      RenderThree(b0, b1, b2, false, format, includeMetadata);
    }
  }

  /** The priority branch: high, medium, low, then the tasks without a
      priority, each only when it has tasks. */
  method RenderByPriority(list: string, tasks: seq<Task>, format: Format, includeMetadata: bool) returns (result: string)
    requires format != Kanban
    ensures result == list + Body(tasks, PriorityGroups, format, includeMetadata)
  {
    var useCheckbox := format == Checklist;
    var title := "## 📋 タスク一覧（優先度別）\n\n";
    result := list + title;
    ghost var top := result;
    var highTasks := Select(tasks, PriorityLabel(Some(High)));
    var mediumTasks := Select(tasks, PriorityLabel(Some(Medium)));
    var lowTasks := Select(tasks, PriorityLabel(Some(Low)));
    var noTasks := Select(tasks, PriorityLabel(None));
    ghost var s0, s1, s2, s3 := PriorityParts(tasks, useCheckbox, format, includeMetadata);
    result := AppendIfAny(result, "### 🔴 優先度: 高\n\n", highTasks, useCheckbox, format, includeMetadata);
    ghost var r := result;
    assert r == top + s0;
    result := AppendIfAny(result, "### 🟡 優先度: 中\n\n", mediumTasks, useCheckbox, format, includeMetadata);
    assert result == top + (s0 + s1) by {
      Assoc(top, s0, s1);
    }
    r := result;
    result := AppendIfAny(result, "### 🟢 優先度: 低\n\n", lowTasks, useCheckbox, format, includeMetadata);
    assert result == top + (s0 + s1 + s2) by {
      Assoc(top, s0 + s1, s2);
    }
    r := result;
    result := AppendIfAny(result, "### その他\n\n", noTasks, useCheckbox, format, includeMetadata);
    assert result == top + (s0 + s1 + s2 + s3) by {
      Assoc(top, s0 + s1 + s2, s3);
    }
    Assoc(list, title, s0 + s1 + s2 + s3);
  }

  /** The guarded parts of the priority section, in the order high, medium,
      low, no priority. */
  lemma PriorityParts(tasks: seq<Task>, useCheckbox: bool, format: Format, includeMetadata: bool)
    returns (s0: string, s1: string, s2: string, s3: string)
    ensures s0 == Guarded("### 🔴 優先度: 高\n\n", Select(tasks, PriorityLabel(Some(High))), useCheckbox, format, includeMetadata)
    ensures s1 == Guarded("### 🟡 優先度: 中\n\n", Select(tasks, PriorityLabel(Some(Medium))), useCheckbox, format, includeMetadata)
    ensures s2 == Guarded("### 🟢 優先度: 低\n\n", Select(tasks, PriorityLabel(Some(Low))), useCheckbox, format, includeMetadata)
    ensures s3 == Guarded("### その他\n\n", Select(tasks, PriorityLabel(None)), useCheckbox, format, includeMetadata)
    ensures RenderBuckets(Buckets(tasks, PriorityGroups), useCheckbox, format, includeMetadata) == s0 + s1 + s2 + s3
  {
    var b0, b1 := BucketOf(tasks, PriorityLabel(Some(High))), BucketOf(tasks, PriorityLabel(Some(Medium)));
    var b2, b3 := BucketOf(tasks, PriorityLabel(Some(Low))), BucketOf(tasks, PriorityLabel(None));
    s0, s1 := Guarded("### 🔴 優先度: 高\n\n", b0.tasks, useCheckbox, format, includeMetadata),
              Guarded("### 🟡 優先度: 中\n\n", b1.tasks, useCheckbox, format, includeMetadata);
    s2, s3 := Guarded("### 🟢 優先度: 低\n\n", b2.tasks, useCheckbox, format, includeMetadata),
              Guarded("### その他\n\n", b3.tasks, useCheckbox, format, includeMetadata);
    assert Buckets(tasks, PriorityGroups) == Occupied([b0, b1, b2, b3]) by {
      PriorityBuckets(tasks);
    }
    assert RenderBuckets(Occupied([b0, b1, b2, b3]), useCheckbox, format, includeMetadata)
        == Shown(b0, useCheckbox, format, includeMetadata) + Shown(b1, useCheckbox, format, includeMetadata)
           + Shown(b2, useCheckbox, format, includeMetadata) + Shown(b3, useCheckbox, format, includeMetadata) by {
      ShownFour(b0, b1, b2, b3, useCheckbox, format, includeMetadata);
    }
    PriorityHeadings();
    assert Shown(b0, useCheckbox, format, includeMetadata) == s0 && Shown(b1, useCheckbox, format, includeMetadata) == s1;
    assert Shown(b2, useCheckbox, format, includeMetadata) == s2 && Shown(b3, useCheckbox, format, includeMetadata) == s3;
  }

  /** The status branch: pending, in progress, completed, each only when it
      has tasks. */
  method RenderByStatus(list: string, tasks: seq<Task>, format: Format, includeMetadata: bool) returns (result: string)
    requires format != Kanban
    ensures result == list + Body(tasks, StatusGroups, format, includeMetadata)
  {
    var useCheckbox := format == Checklist;
    var title := "## 📋 タスク一覧（ステータス別）\n\n";
    result := list + title;
    ghost var top := result;
    var pendingTasks := Select(tasks, StatusLabel(Pending));
    var inProgressTasks := Select(tasks, StatusLabel(InProgress));
    var completedTasks := Select(tasks, StatusLabel(Completed));
    ghost var s0, s1, s2 := StatusParts(tasks, useCheckbox, format, includeMetadata);
    result := AppendIfAny(result, "### ⏳ 未着手\n\n", pendingTasks, useCheckbox, format, includeMetadata);
    ghost var r := result;
    assert r == top + s0;
    result := AppendIfAny(result, "### 🔄 進行中\n\n", inProgressTasks, useCheckbox, format, includeMetadata);
    assert result == top + (s0 + s1) by {
      Assoc(top, s0, s1);
    }
    r := result;
    result := AppendIfAny(result, "### ✅ 完了\n\n", completedTasks, useCheckbox, format, includeMetadata);
    assert result == top + (s0 + s1 + s2) by {
      Assoc(top, s0 + s1, s2);
    }
    Assoc(list, title, s0 + s1 + s2);
  }

  /** The guarded parts of the status section, in the order pending, in
      progress, completed. */
  lemma StatusParts(tasks: seq<Task>, useCheckbox: bool, format: Format, includeMetadata: bool)
    returns (s0: string, s1: string, s2: string)
    ensures s0 == Guarded("### ⏳ 未着手\n\n", Select(tasks, StatusLabel(Pending)), useCheckbox, format, includeMetadata)
    ensures s1 == Guarded("### 🔄 進行中\n\n", Select(tasks, StatusLabel(InProgress)), useCheckbox, format, includeMetadata)
    ensures s2 == Guarded("### ✅ 完了\n\n", Select(tasks, StatusLabel(Completed)), useCheckbox, format, includeMetadata)
    ensures RenderBuckets(Buckets(tasks, StatusGroups), useCheckbox, format, includeMetadata) == s0 + s1 + s2
  {
    var b0, b1, b2 := BucketOf(tasks, StatusLabel(Pending)), BucketOf(tasks, StatusLabel(InProgress)),
                      BucketOf(tasks, StatusLabel(Completed));
    s0 := Guarded("### ⏳ 未着手\n\n", b0.tasks, useCheckbox, format, includeMetadata);
    s1 := Guarded("### 🔄 進行中\n\n", b1.tasks, useCheckbox, format, includeMetadata);
    s2 := Guarded("### ✅ 完了\n\n", b2.tasks, useCheckbox, format, includeMetadata);
    assert Buckets(tasks, StatusGroups) == Occupied([b0, b1, b2]) by {
      StatusBuckets(tasks);
    }
    assert RenderBuckets(Occupied([b0, b1, b2]), useCheckbox, format, includeMetadata)
        == Shown(b0, useCheckbox, format, includeMetadata) + Shown(b1, useCheckbox, format, includeMetadata)
           + Shown(b2, useCheckbox, format, includeMetadata) by {
      ShownThree(b0, b1, b2, useCheckbox, format, includeMetadata);
    }
    StatusHeadings();
    assert Shown(b0, useCheckbox, format, includeMetadata) == s0 && Shown(b1, useCheckbox, format, includeMetadata) == s1;
    assert Shown(b2, useCheckbox, format, includeMetadata) == s2;
  }

  /** The `none` and `deadline` branch: every task, numbered in input order. */
  method RenderUngrouped(list: string, tasks: seq<Task>, format: Format, includeMetadata: bool) returns (result: string)
    requires format != Kanban
    ensures result == list + Body(tasks, Flat, format, includeMetadata)
  {
    var title := "## 📋 タスク一覧\n\n";
    var top := list + title;
    result := AppendTasks(top, tasks, format == Checklist, format, includeMetadata);
    ghost var n := Numbered(tasks, format == Checklist, format, includeMetadata);
    assert result == top + n;
    ghost var b := Bucket(NoLabel, tasks);
    assert RenderBuckets([b], format == Checklist, format, includeMetadata)
        == RenderBuckets([], format == Checklist, format, includeMetadata) + RenderBucket(b, format == Checklist, format, includeMetadata);
    assert RenderBucket(b, format == Checklist, format, includeMetadata) == "" + n;
    assert "" + ("" + n) == n;
    Assoc(list, title, n);
  }

  /** The accumulator of the assignee `reduce` after the tasks `ts`: each
      task is appended to the list of its key, which is created empty the
      first time the key comes up. */
  function GroupsOf(ts: seq<Task>): map<string, seq<Task>> {
    if ts == [] then map[]
    else
      var g := GroupsOf(ts[..|ts| - 1]);
      var t := ts[|ts| - 1];
      var k := AssigneeKey(t);
      g[k := (if k in g then g[k] else []) + [t]]
  }

  /** The accumulator has an entry exactly for the keys seen, and the entry
      of a key holds the tasks with that key, in input order. */
  lemma {:induction false} GroupsOfSelect(ts: seq<Task>, k: string)
    ensures k in GroupsOf(ts) <==> k in FirstSeen(ts)
    ensures k in GroupsOf(ts) ==> GroupsOf(ts)[k] == Select(ts, AssigneeLabel(k))
  {
    if ts != [] {
      var p, t := ts[..|ts| - 1], ts[|ts| - 1];
      assert ts == p + [t];
      GroupsOfSelect(p, k);
      FirstSeenSnoc(p, t);
      SelectSnoc(p, t, AssigneeLabel(k));
      if k !in GroupsOf(p) {
        UnseenSelectsNothing(p, k);
      }
    }
  }

  /** The `reduce` into an accumulator keyed by assignee, with the keys in
      the order the accumulator gains them. */
  method GroupByAssignee(tasks: seq<Task>) returns (keys: seq<string>, groups: map<string, seq<Task>>)
    ensures keys == FirstSeen(tasks)
    ensures groups == GroupsOf(tasks)
  {
    keys, groups := [], map[];
    for i := 0 to |tasks|
      invariant keys == FirstSeen(tasks[..i])
      invariant groups == GroupsOf(tasks[..i])
    {
      var task := tasks[i];
      var assignee := AssigneeKey(task);
      assert tasks[..i + 1][..i] == tasks[..i];
      GroupsOfSelect(tasks[..i], assignee);
      if assignee !in groups {
        groups := groups[assignee := []];
        keys := keys + [assignee];
      }
      groups := groups[assignee := groups[assignee] + [task]];
    }
    assert tasks[..|tasks|] == tasks;
  }

  /** A task either repeats a key already seen or appends a new one. */
  lemma FirstSeenSnoc(p: seq<Task>, x: Task)
    ensures FirstSeen(p + [x])
         == if AssigneeKey(x) in FirstSeen(p) then FirstSeen(p) else FirstSeen(p) + [AssigneeKey(x)]
  {
    assert (p + [x])[..|p|] == p;
  }

  /** A key not seen yet has selected no task so far. */
  lemma UnseenSelectsNothing(ts: seq<Task>, k: string)
    requires k !in FirstSeen(ts)
    ensures Select(ts, AssigneeLabel(k)) == []
  {
    forall t | t in ts
      ensures !Matches(AssigneeLabel(k), t)
    {
      var i :| 0 <= i < |ts| && ts[i] == t;
    }
    NoMatchSelectsNothing(ts, AssigneeLabel(k));
  }

  /** The assignee branch: one heading per key, in the order the keys were
      first seen, then that key's tasks. */
  method RenderByAssignee(list: string, tasks: seq<Task>, format: Format, includeMetadata: bool) returns (result: string)
    requires format != Kanban
    ensures result == list + Body(tasks, AssigneeGroups, format, includeMetadata)
  {
    var useCheckbox := format == Checklist;
    var title := "## 📋 タスク一覧（担当者別）\n\n";
    result := AppendAssigneeBuckets(list + title, tasks, useCheckbox, format, includeMetadata);
    Assoc(list, title, RenderBuckets(Buckets(tasks, AssigneeGroups), useCheckbox, format, includeMetadata));
  }

  /** One heading per assignee key, in the order the keys were first seen,
      each followed by that key's tasks. */
  method AppendAssigneeBuckets(list: string, tasks: seq<Task>, useCheckbox: bool, format: Format, includeMetadata: bool)
    returns (result: string)
    ensures result == list + RenderBuckets(Buckets(tasks, AssigneeGroups), useCheckbox, format, includeMetadata)
  {
    result := list;
    ghost var bs := Buckets(tasks, AssigneeGroups);
    var keys, groups := GroupByAssignee(tasks);
    assert |bs| == |keys|;
    for j := 0 to |keys|
      invariant result == list + RenderBuckets(bs[..j], useCheckbox, format, includeMetadata)
    {
      var assignee := keys[j];
      assert assignee in groups && groups[assignee] == Select(tasks, AssigneeLabel(assignee)) by {
        GroupsOfSelect(tasks, assignee);
      }
      var assigneeTasks := groups[assignee];
      ghost var before := result;
      result := AppendBucket(result, "### 👤 " + assignee + "\n\n", assigneeTasks, useCheckbox, format, includeMetadata);
      assert result == list + RenderBuckets(bs[..j + 1], useCheckbox, format, includeMetadata) by {
        AssigneeBucketRendered(tasks, keys, j, assigneeTasks, useCheckbox, format, includeMetadata);
        BucketStep(list, bs, j, before, result, useCheckbox, format, includeMetadata);
      }
    }
    assert bs[..|keys|] == bs;
  }

  /** The `j`-th assignee bucket is rendered as the heading of the `j`-th
      key followed by that key's tasks. */
  lemma AssigneeBucketRendered(tasks: seq<Task>, keys: seq<string>, j: nat, ts: seq<Task>,
                               useCheckbox: bool, format: Format, includeMetadata: bool)
    requires keys == FirstSeen(tasks) && j < |keys| && ts == Select(tasks, AssigneeLabel(keys[j]))
    ensures |Buckets(tasks, AssigneeGroups)| == |keys|
    ensures RenderBucket(Buckets(tasks, AssigneeGroups)[j], useCheckbox, format, includeMetadata)
         == "### 👤 " + keys[j] + "\n\n" + Numbered(ts, useCheckbox, format, includeMetadata)
  {
    assert Buckets(tasks, AssigneeGroups)[j] == Bucket(AssigneeLabel(keys[j]), ts);
  }

  /** One more bucket rendered after those before it. */
  lemma BucketStep(top: string, bs: seq<Bucket>, j: nat, before: string, after: string,
                   useCheckbox: bool, format: Format, includeMetadata: bool)
    requires j < |bs|
    requires before == top + RenderBuckets(bs[..j], useCheckbox, format, includeMetadata)
    requires after == before + RenderBucket(bs[j], useCheckbox, format, includeMetadata)
    ensures after == top + RenderBuckets(bs[..j + 1], useCheckbox, format, includeMetadata)
  {
    assert bs[..j + 1][..j] == bs[..j];
    Assoc(top, RenderBuckets(bs[..j], useCheckbox, format, includeMetadata), RenderBucket(bs[j], useCheckbox, format, includeMetadata));
  }

  lemma {:induction false} NoMatchSelectsNothing(ts: seq<Task>, l: Label)
    requires forall t :: t in ts ==> !Matches(l, t)
    ensures Select(ts, l) == []
  {
    if ts != [] {
      NoMatchSelectsNothing(ts[1..], l);
    }
  }

  lemma RenderThree(b0: Bucket, b1: Bucket, b2: Bucket, useCheckbox: bool, format: Format, includeMetadata: bool)
    ensures RenderBuckets([b0, b1, b2], useCheckbox, format, includeMetadata)
         == RenderBucket(b0, useCheckbox, format, includeMetadata)
            + RenderBucket(b1, useCheckbox, format, includeMetadata)
            + RenderBucket(b2, useCheckbox, format, includeMetadata)
  {
    var r0, r1, r2 := RenderBucket(b0, useCheckbox, format, includeMetadata), RenderBucket(b1, useCheckbox, format, includeMetadata),
                      RenderBucket(b2, useCheckbox, format, includeMetadata);
    var none: seq<Bucket> := [];
    assert RenderBuckets([b0], useCheckbox, format, includeMetadata) == r0 by {
      RenderBucketsSnoc(none, b0, useCheckbox, format, includeMetadata);
      assert none + [b0] == [b0];
      assert "" + r0 == r0;
    }
    assert RenderBuckets([b0, b1], useCheckbox, format, includeMetadata) == r0 + r1 by {
      RenderBucketsSnoc([b0], b1, useCheckbox, format, includeMetadata);
      assert [b0] + [b1] == [b0, b1];
    }
    RenderBucketsSnoc([b0, b1], b2, useCheckbox, format, includeMetadata);
    assert [b0, b1] + [b2] == [b0, b1, b2];
  }

  lemma RenderBucketsSnoc(bs: seq<Bucket>, b: Bucket, useCheckbox: bool, format: Format, includeMetadata: bool)
    ensures RenderBuckets(bs + [b], useCheckbox, format, includeMetadata)
         == RenderBuckets(bs, useCheckbox, format, includeMetadata) + RenderBucket(b, useCheckbox, format, includeMetadata)
  {
    assert (bs + [b])[..|bs|] == bs;
  }

  lemma OccupiedSnoc(bs: seq<Bucket>, b: Bucket, useCheckbox: bool, format: Format, includeMetadata: bool)
    ensures RenderBuckets(Occupied(bs + [b]), useCheckbox, format, includeMetadata)
         == RenderBuckets(Occupied(bs), useCheckbox, format, includeMetadata) + Shown(b, useCheckbox, format, includeMetadata)
  {
    assert (bs + [b])[..|bs|] == bs;
    var o := Occupied(bs);
    if |b.tasks| > 0 {
      assert (o + [b])[..|o|] == o;
    } else {
      assert o + [] == o;
    }
  }

  lemma ShownThree(b0: Bucket, b1: Bucket, b2: Bucket, useCheckbox: bool, format: Format, includeMetadata: bool)
    ensures RenderBuckets(Occupied([b0, b1, b2]), useCheckbox, format, includeMetadata)
         == Shown(b0, useCheckbox, format, includeMetadata) + Shown(b1, useCheckbox, format, includeMetadata)
            + Shown(b2, useCheckbox, format, includeMetadata)
  {
    var x0, x1, x2 := Shown(b0, useCheckbox, format, includeMetadata), Shown(b1, useCheckbox, format, includeMetadata),
                      Shown(b2, useCheckbox, format, includeMetadata);
    var none: seq<Bucket> := [];
    assert Occupied(none) == [];
    assert RenderBuckets(Occupied(none), useCheckbox, format, includeMetadata) == "";
    OccupiedSnoc(none, b0, useCheckbox, format, includeMetadata);
    assert none + [b0] == [b0];
    assert RenderBuckets(Occupied([b0]), useCheckbox, format, includeMetadata) == "" + x0 == x0;
    OccupiedSnoc([b0], b1, useCheckbox, format, includeMetadata);
    assert [b0] + [b1] == [b0, b1];
    assert RenderBuckets(Occupied([b0, b1]), useCheckbox, format, includeMetadata) == x0 + x1;
    OccupiedSnoc([b0, b1], b2, useCheckbox, format, includeMetadata);
    assert [b0, b1] + [b2] == [b0, b1, b2];
  }

  lemma ShownFour(b0: Bucket, b1: Bucket, b2: Bucket, b3: Bucket, useCheckbox: bool, format: Format, includeMetadata: bool)
    ensures RenderBuckets(Occupied([b0, b1, b2, b3]), useCheckbox, format, includeMetadata)
         == Shown(b0, useCheckbox, format, includeMetadata) + Shown(b1, useCheckbox, format, includeMetadata)
            + Shown(b2, useCheckbox, format, includeMetadata) + Shown(b3, useCheckbox, format, includeMetadata)
  {
    ShownThree(b0, b1, b2, useCheckbox, format, includeMetadata);
    OccupiedSnoc([b0, b1, b2], b3, useCheckbox, format, includeMetadata);
    assert [b0, b1, b2] + [b3] == [b0, b1, b2, b3];
  }

  /** Kanban format takes precedence over `groupBy`: whatever the grouping,
      the document is the same, and its body is the board title followed by
      the three status columns in the order pending, in progress, completed,
      every column present even when empty and no task given a checkbox. */
  lemma KanbanOverridesGroupBy(input: TaskListInput, groupBy: GroupBy, updatedAt: string)
    requires input.format == Kanban
    ensures TaskListText(input.(groupBy := groupBy), updatedAt) == TaskListText(input, updatedAt)
    ensures var ts, f, m := input.tasks, input.format, input.includeMetadata;
      Body(ts, LayoutFor(input.groupBy, f), f, m)
      == "## 📋 タスクボード\n\n"
         + ("### ⏳ 未着手\n\n" + Numbered(Select(ts, StatusLabel(Pending)), false, f, m)
            + ("### 🔄 進行中\n\n" + Numbered(Select(ts, StatusLabel(InProgress)), false, f, m))
            + ("### ✅ 完了\n\n" + Numbered(Select(ts, StatusLabel(Completed)), false, f, m)))
  {
    var s0, s1, s2 := BoardColumns(input.tasks, input.format, input.includeMetadata);
  }

  /** Grouping by deadline renders exactly like no grouping: one ungrouped list of
      all tasks numbered in input order (unless kanban overrides both). */
  lemma DeadlineRendersFlat(input: TaskListInput, updatedAt: string)
    requires input.groupBy == ByDeadline
    ensures TaskListText(input, updatedAt) == TaskListText(input.(groupBy := NoGrouping), updatedAt)
    ensures input.format != Kanban ==>
      Body(input.tasks, LayoutFor(input.groupBy, input.format), input.format, input.includeMetadata)
      == "## 📋 タスク一覧\n\n" + Numbered(input.tasks, input.format == Checklist, input.format, input.includeMetadata)
  {
    assert LayoutFor(input.groupBy, input.format) == LayoutFor(NoGrouping, input.format);
    if input.format != Kanban {
      FlatBody(input.tasks, input.format, input.includeMetadata);
    }
  }

  /** The ungrouped body: its title, then every task numbered in input order. */
  lemma FlatBody(ts: seq<Task>, f: Format, m: bool)
    requires f != Kanban
    ensures Body(ts, Flat, f, m) == "## 📋 タスク一覧\n\n" + Numbered(ts, f == Checklist, f, m)
  {
    var n := Numbered(ts, f == Checklist, f, m);
    var b := Bucket(NoLabel, ts);
    var c := f == Checklist;
    assert Buckets(ts, Flat) == [b] && UsesCheckbox(Flat, f) == c;
    assert RenderBuckets([b], c, f, m) == n by {
      assert [b][..0] == [];
      assert RenderBuckets([b], c, f, m) == RenderBuckets([], c, f, m) + RenderBucket(b, c, f, m);
      assert RenderBucket(b, c, f, m) == "" + n;
      assert "" + ("" + n) == n;
    }
  }

  /** The document opens with the title line and the summary, whose three
      status counts add up to the total, and closes with the rule and the
      timestamp line. */
  lemma TaskListFrame(input: TaskListInput, updatedAt: string)
    ensures var text, h, f := TaskListText(input, updatedAt), Header(input.title, input.tasks), Footer(updatedAt);
      && |h| + |f| <= |text|
      && text[..|h|] == h
      && text[|text| - |f|..] == f
      && h[..|input.title| + 4] == "# " + input.title + "\n\n"
    ensures Counts(input.tasks).pending + Counts(input.tasks).inProgress + Counts(input.tasks).completed == |input.tasks|
  {
    var h := Header(input.title, input.tasks);
    var b := Body(input.tasks, LayoutFor(input.groupBy, input.format), input.format, input.includeMetadata);
    var f := Footer(updatedAt);
    assert TaskListText(input, updatedAt) == h + b + f;
    assert (h + b + f)[..|h|] == h by {
      PrefixOfAppend(h + b, f, |h|);
      PrefixOfAppend(h, b, |h|);
    }
    assert (h + b + f)[|h + b|..] == f;
    HeaderOpensWithTitle(input.title, input.tasks);
    StatusCountsAddUp(input.tasks);
  }

  lemma HeaderOpensWithTitle(title: string, ts: seq<Task>)
    ensures |Header(title, ts)| >= |title| + 4
    ensures Header(title, ts)[..|title| + 4] == "# " + title + "\n\n"
  {
    var t := "# " + title + "\n\n";
    var n := |t|;
    var l1 := "- 総タスク数: " + NatToString(|ts|) + "\n";
    var l2 := "- 未着手: " + NatToString(CountStatus(ts, Pending)) + "\n";
    var l3 := "- 進行中: " + NatToString(CountStatus(ts, InProgress)) + "\n";
    var l4 := "- 完了: " + NatToString(CountStatus(ts, Completed)) + "\n\n";
    var a1 := t + "## 📊 サマリー\n\n";
    var a2 := a1 + l1;
    var a3 := a2 + l2;
    var a4 := a3 + l3;
    assert a1[..n] == t by {
      PrefixOfAppend(t, "## 📊 サマリー\n\n", n);
    }
    assert a2[..n] == t by {
      PrefixOfAppend(a1, l1, n);
    }
    assert a3[..n] == t by {
      PrefixOfAppend(a2, l2, n);
    }
    assert a4[..n] == t by {
      PrefixOfAppend(a3, l3, n);
    }
    assert Header(title, ts) == a4 + l4 by {
      Assoc(a1, "- 総タスク数: " + NatToString(|ts|), "\n");
      Assoc(a1, "- 総タスク数: ", NatToString(|ts|));
      Assoc(a2, "- 未着手: " + NatToString(CountStatus(ts, Pending)), "\n");
      Assoc(a2, "- 未着手: ", NatToString(CountStatus(ts, Pending)));
      Assoc(a3, "- 進行中: " + NatToString(CountStatus(ts, InProgress)), "\n");
      Assoc(a3, "- 進行中: ", NatToString(CountStatus(ts, InProgress)));
      Assoc(a4, "- 完了: " + NatToString(CountStatus(ts, Completed)), "\n\n");
      Assoc(a4, "- 完了: ", NatToString(CountStatus(ts, Completed)));
    }
    PrefixOfAppend(a4, l4, n);
  }
}

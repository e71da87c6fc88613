# Meeting document generators, modelled in Dafny

This project models the three text generators of the meeting-assistant tools:

- the task-list generator, `createTaskListTool.execute`;
- the meeting-report generator, `createReportTool.execute`;
- the e-mail generator, `createEmailTool.execute`.

Each one takes an already validated input and builds a Markdown (or plain e-mail) document in a
string buffer, step by step. The model keeps that form:

- Every generator is a `method`. It appends to a local `string` the way the source appends with `+=`.
- The per-bucket `forEach` loops are `for` loops with invariants.
- The assignee `reduce` is a loop that updates a `map` from assignee key to tasks.
- Every method is proved equal to a specification function of its input: `TaskListText`,
  `ReportText`, `EmailText`, `TaskBlock`, `Numbered`, `GroupsOf`.
- What the source promises is then proved about those functions as lemmas: partition and
  counts, bucket order, stable order inside a bucket, numbering, precedence of formats, section
  order and the section counter, the frame of each document.

Modules:

| file | module | contents |
|---|---|---|
| `text.dfy` | `Text` | JavaScript truthiness of optional strings, decimal rendering of counts, `join`, and the "heading + text" sections shared by the report and the e-mail |
| `tasks.dfy` | `Tasks` | the task record, bucket labels, `filter` as `Select`, status counts, the permutation argument |
| `grouping.dfy` | `Grouping` | the buckets of each layout (board, priority, assignee, status, flat) and their properties |
| `task_render.dfy` | `TaskRender` | `renderTask` and the numbered tasks of one bucket |
| `task_list.dfy` | `TaskList` | the task-list document: header, the five layouts, footer, `CreateTaskList` |
| `assignee_record.dfy` | `AssigneeRecord` | the assignee grouping exactly as JavaScript evaluates it on a plain object |
| `report.dfy` | `Report` | the meeting report, `CreateReport` |
| `email.dfy` | `Email` | the e-mail, `CreateEmail` |

Modelling choices:

- Inputs are taken after schema validation, with its defaults applied: status `pending`,
  grouping `priority`, format `markdown`, metadata on, title `タスクリスト`.
- An optional string is `Option<string>`. The source's `if (x)` is `Truthy`: present and
  non-empty. An optional array is "listed" when it is present and non-empty.
- The footer timestamps are method parameters (`updatedAt`, `stamp`).
- The assignee `reduce` has two modelled forms:
  - The document the model produces uses first-seen key order (`Grouping.FirstSeen`). This is
    what the code evidently intends.
  - `AssigneeRecord` models what a plain JavaScript object does instead. The two differ on
    keys that name an `Object.prototype` member and on keys that are array indices; see
    "## Findings".

What the generators accept and produce, as the code has it:

- The report has four fixed sections fed by free-text strings. There are no caller-supplied
  sections, no subsections and no priority-grouped action items.
- The e-mail has three types and no tone option. Its action items are one free-text string.
- Status grouping leaves out empty buckets. Only the kanban board always shows its three
  columns.

## Model

| member | source | states |
|---|---|---|
| Text.NatToString | src/mastra/tools/create-task-list-tool.ts:80-83 | a count is written as decimal digits with no leading zero |
| Text.DecimalRoundTrip | src/mastra/tools/create-task-list-tool.ts:80-83 | reading the written digits back gives the count itself, so the summary shows the true numbers |
| Text.PartStep | src/mastra/tools/create-report-tool.ts:43-61 | appending a guarded heading-and-text section extends the rendered sections by that section exactly when its value is truthy, and leaves the buffer unchanged otherwise |
| Tasks.UnassignedMerges | src/mastra/tools/create-task-list-tool.ts:145 | a task without a truthy assignee and a task literally assigned to 未割り当て share one key; any truthy assignee is its own key |
| Tasks.Select | src/mastra/tools/create-task-list-tool.ts:39-41 | a filtered bucket holds only input tasks that carry its label, and is no longer than the input |
| Tasks.SelectAppend | src/mastra/tools/create-task-list-tool.ts:108-111 | filtering a concatenation is concatenating the filtered parts |
| Tasks.SelectEverything | src/mastra/tools/create-task-list-tool.ts:189-191 | the ungrouped list is the whole input |
| Tasks.SelectKeepsOrder | src/mastra/tools/create-task-list-tool.ts:108-111 | a bucket is exactly the subsequence of the input at the strictly increasing positions of the tasks that carry its label (stable order, nothing lost, nothing added) |
| Tasks.GatherIsPermutation | src/mastra/tools/create-task-list-tool.ts:108-111 | the buckets of distinct labels along one dimension that cover every task, put together, are a permutation of the input |
| Tasks.StatusCountsAddUp | src/mastra/tools/create-task-list-tool.ts:38-42 | pending + in progress + completed equals the number of tasks, since every task has one of the three statuses |
| Grouping.FirstSeen | src/mastra/tools/create-task-list-tool.ts:144-149 | the assignee keys are pairwise distinct and are exactly the keys of the input tasks |
| Grouping.GroupingIsPartition | src/mastra/tools/create-task-list-tool.ts:86-192 | in every layout each bucket holds exactly the tasks of its label in input order, each task sits under its own label, labels are distinct, and the buckets together are a permutation of the input |
| Grouping.BoardHasThreeColumns | src/mastra/tools/create-task-list-tool.ts:88-103 | the board always has the columns pending, in progress, completed in that order, each holding that status's tasks, empty or not |
| Grouping.StatusGroupsInOrder | src/mastra/tools/create-task-list-tool.ts:158-184 | status groups come in the order pending, in progress, completed, none is empty, and a status has a group exactly when some task has it |
| Grouping.PriorityGroupsInOrder | src/mastra/tools/create-task-list-tool.ts:105-139 | priority groups come in the order high, medium, low, その他 whatever the input order, none is empty, and a task without priority lands in the last group, その他 |
| Grouping.OccupiedTags | src/mastra/tools/create-task-list-tool.ts:113-139 | a guarded bucket is shown exactly when some task carries its label |
| Grouping.FirstSeenOrder | src/mastra/tools/create-task-list-tool.ts:144-149 | the keys known after a prefix of the tasks are a prefix of all keys, and every later key is new to that prefix |
| Grouping.AssigneeGroupsFirstSeen | src/mastra/tools/create-task-list-tool.ts:144-156 | one assignee bucket per distinct key in first-seen order, none empty, each holding exactly that key's tasks in input order, and every task's key has a bucket |
| Grouping.FlatKeepsInput | src/mastra/tools/create-task-list-tool.ts:186-192 | without grouping there is one unlabelled bucket and it is the input itself |
| TaskRender.RenderTask | src/mastra/tools/create-task-list-tool.ts:45-73 | the task line built step by step is the head line, a newline, the metadata lines when included, and a blank line |
| TaskRender.AppendMetadata | src/mastra/tools/create-task-list-tool.ts:60-70 | the five conditional appends add exactly the rendered metadata lines of the task |
| TaskRender.CheckboxMarksCompletion | src/mastra/tools/create-task-list-tool.ts:46-53 | in checklist format with a checkbox the line opens with `[x]` exactly for completed tasks and `[ ]` otherwise, carries no number and no status icon (another status with the same completion gives the same line), and without a checkbox opens with a space |
| TaskRender.NumberLeadsTaskLine | src/mastra/tools/create-task-list-tool.ts:55 | outside checklist format the line opens with the decimal index, ". " and the status icon, and the digits read back as the index |
| TaskRender.MetaLinesInOrder | src/mastra/tools/create-task-list-tool.ts:60-70 | metadata lines come in the order assignee, deadline, estimate, tags, dependencies, and each appears exactly when its field is truthy (lists: present and non-empty) |
| TaskRender.MetaLinesCarryValues | src/mastra/tools/create-task-list-tool.ts:61-69 | each metadata line carries its field's text verbatim, lists joined with ", " |
| TaskRender.NoMetadataWhenExcluded | src/mastra/tools/create-task-list-tool.ts:60-72 | with metadata off a task is its head line followed by a blank line |
| TaskRender.NumberedFromOne | src/mastra/tools/create-task-list-tool.ts:115-116 | inside a bucket the k-th task is rendered with number k + 1, in bucket order: numbering restarts at 1 in every bucket |
| TaskRender.AppendTasks | src/mastra/tools/create-task-list-tool.ts:115-117 | the loop over a bucket appends exactly its numbered tasks |
| TaskList.CreateTaskList | src/mastra/tools/create-task-list-tool.ts:33-203 | the returned list is the specified document, the total is the number of tasks, the per-status counts are the filtered counts and add up to the total, the format is echoed |
| TaskList.RenderBoard | src/mastra/tools/create-task-list-tool.ts:86-103 | kanban appends the board title and the three status columns |
| TaskList.BoardColumns | src/mastra/tools/create-task-list-tool.ts:88-103 | the board body is the three fixed column headings, each followed by its status's numbered tasks without checkbox |
| TaskList.RenderByPriority | src/mastra/tools/create-task-list-tool.ts:105-139 | the four guarded priority blocks append exactly the priority layout |
| TaskList.PriorityParts | src/mastra/tools/create-task-list-tool.ts:108-139 | the priority body is the four guarded blocks high, medium, low, その他 in that order |
| TaskList.RenderByStatus | src/mastra/tools/create-task-list-tool.ts:158-184 | the three guarded status blocks append exactly the status layout |
| TaskList.StatusParts | src/mastra/tools/create-task-list-tool.ts:161-184 | the status body is the three guarded blocks pending, in progress, completed in that order |
| TaskList.RenderUngrouped | src/mastra/tools/create-task-list-tool.ts:186-192 | without grouping the title and every task, numbered in input order, are appended |
| TaskList.AppendBucket | src/mastra/tools/create-task-list-tool.ts:90-103 | appends one bucket's heading followed by its numbered tasks, unconditionally, as each kanban column and each assignee bucket is written |
| TaskList.AppendIfAny | src/mastra/tools/create-task-list-tool.ts:113-118 | a heading and its numbered tasks are appended only when there is a task |
| TaskList.GroupsOfSelect | src/mastra/tools/create-task-list-tool.ts:144-149 | the accumulator has an entry exactly for the first-seen keys, and each entry holds that key's tasks in input order |
| TaskList.GroupByAssignee | src/mastra/tools/create-task-list-tool.ts:144-149 | the reduce loop yields the first-seen keys and the accumulator of the whole input |
| TaskList.RenderByAssignee | src/mastra/tools/create-task-list-tool.ts:141-156 | grouping by assignee appends the title and one bucket per key in first-seen order |
| TaskList.AppendAssigneeBuckets | src/mastra/tools/create-task-list-tool.ts:151-156 | the loop over the keys appends each key's heading and numbered tasks in key order |
| TaskList.KanbanOverridesGroupBy | src/mastra/tools/create-task-list-tool.ts:86-105 | in kanban format the document does not depend on the grouping, and its body is the board with its three columns |
| TaskList.DeadlineRendersFlat | src/mastra/tools/create-task-list-tool.ts:186-192 | grouping by deadline yields the same document as no grouping: one list of all tasks numbered in input order |
| TaskList.TaskListFrame | src/mastra/tools/create-task-list-tool.ts:76-196 | the document opens with the title line and the summary, whose counts add up to the total, and ends with the rule and the timestamp line |
| TaskList.HeaderOpensWithTitle | src/mastra/tools/create-task-list-tool.ts:76 | the document's first line is "# " and the title, followed by a blank line |
| AssigneeRecord.EntriesOrderPermutes | src/mastra/tools/create-task-list-tool.ts:151 | object enumeration loses and adds no key, and lists the array-index keys first in ascending numeric order, then only non-index keys |
| AssigneeRecord.SortIndicesSorted | src/mastra/tools/create-task-list-tool.ts:151 | the array-index keys are enumerated in ascending numeric order |
| AssigneeRecord.AsWrittenAgreesOtherwise | src/mastra/tools/create-task-list-tool.ts:144-156 | when no assignee names an inherited member or is an array index, the object-based grouping equals the first-seen grouping |
| AssigneeRecord.InheritedNameThrows | src/mastra/tools/create-task-list-tool.ts:146-147 | a task assigned to "constructor" makes the reduce fail, while first-seen grouping gives it its own bucket |
| AssigneeRecord.IndexKeyJumpsAhead | src/mastra/tools/create-task-list-tool.ts:151 | tasks assigned to "Bob" then "7": the object lists "7" first, first-seen grouping lists "Bob" first |
| Report.CreateReport | src/mastra/tools/create-report-tool.ts:25-71 | the returned report is the specified document, the section count is the number of sections written, the format is always "markdown" |
| Report.AppendMetadataBlock | src/mastra/tools/create-report-tool.ts:32-35 | the date and attendee lines are appended, each only when truthy, between two rules |
| Report.MetadataBetweenRules | src/mastra/tools/create-report-tool.ts:32-35 | the metadata block starts and ends with a rule, and is the two rules alone exactly when neither date nor attendees is truthy |
| Report.SectionsInFixedOrder | src/mastra/tools/create-report-tool.ts:38-61 | sections come in the order summary, decisions, action items, next meeting, and each optional one appears exactly when its value is truthy |
| Report.SectionsCarryTheirText | src/mastra/tools/create-report-tool.ts:38-61 | the first section is always the summary with its text verbatim, and every optional section carries its value verbatim |
| Report.SectionCountRange | src/mastra/tools/create-report-tool.ts:26-60 | the section count is 1 plus the number of truthy optional values, so it lies in 1..4 |
| Report.ReportFrame | src/mastra/tools/create-report-tool.ts:29-65 | the report opens with "# " and the title, then the metadata block, then the summary section, and ends with the rule and the generation line |
| Email.CreateEmail | src/mastra/tools/create-email-tool.ts:24-69 | the returned e-mail is the specified text, the subject is the input subject, and the word count is the length of the e-mail |
| Email.AppendTypeSections | src/mastra/tools/create-email-tool.ts:33-52 | the switch appends the type's heading and the body, plus the task block only for an action-items e-mail with truthy task text |
| Email.HeadingsDiffer | src/mastra/tools/create-email-tool.ts:35-56 | each e-mail type has its own heading, distinct from the task and next-step headings |
| Email.EmailHeadings | src/mastra/tools/create-email-tool.ts:33-58 | the section headings are the type heading, then the task heading when included, then the next-step heading when included |
| Email.BodyComesFirst | src/mastra/tools/create-email-tool.ts:33-52 | the first section is always the type heading with the body verbatim, and there are one to three sections |
| Email.TasksOnlyInActionItemsEmail | src/mastra/tools/create-email-tool.ts:39-46 | the task block appears exactly for an action-items e-mail with truthy task text, right after the body, with the text verbatim |
| Email.NextStepsComeLast | src/mastra/tools/create-email-tool.ts:55-58 | the next-step section appears exactly when next steps are truthy, for any type, and is then the last section |
| Email.EmailFrame | src/mastra/tools/create-email-tool.ts:27-61 | the e-mail opens with "Subject: ", the subject, a blank line, the greeting and the body section, and ends with the closing line |

## Left out

- Schema validation and its defaults are a library. The model takes inputs after validation,
  with the defaults applied, so an unknown enum value or a missing required field cannot occur.
- The `try`/`catch` around each generator only re-wraps an error message. It is not modelled.
  The one error the task list can raise is modelled as `None` in
  `AssigneeRecord.AssigneeBucketsAsWritten`.
- Locale date formatting is not modelled. The footer timestamps are parameters.
- The unused `context` argument of each `execute` is not modelled.
- CreateEmail: `wordCount` is the number of characters of the model's `seq<char>`. JavaScript
  counts UTF-16 code units, so characters outside the Basic Multilingual Plane count twice there
  and once here.
- AssigneeRecord.AssigneeBucketsAsWritten: the inherited names are the members of a standard
  `Object.prototype`. Members added to the prototype by other code are not modelled.
- TaskList.CreateTaskList: grouping by assignee lists the buckets in first-seen order and never
  fails. The source's plain-object accumulator lists array-index keys first and fails on a key
  that names an inherited `Object.prototype` member; `AssigneeRecord` models that behaviour and
  "## Findings" describes both differences.
- The agents, the scorer, web search and the file tools of the repository are not part of this
  model.

## Findings

| source | as written | input that shows it | evidently intended | confidence | as-written member | corrected member |
|---|---|---|---|---|---|---|
| src/mastra/tools/create-task-list-tool.ts:144-149 | the accumulator is a plain object literal, so `acc[assignee]` is already truthy for an inherited member such as `constructor`; no array is created and the push fails, and the whole tool fails | one task with assignee "constructor" and grouping by assignee | the task gets its own "constructor" bucket | not executed | AssigneeRecord.InheritedNameThrows | Grouping.AssigneeGroupsFirstSeen |
| src/mastra/tools/create-task-list-tool.ts:151 | `Object.entries` lists array-index keys first, in ascending numeric order, before all other keys | tasks assigned to "Bob" and then to "7", grouped by assignee: the "7" bucket comes first | buckets in first-seen order, "Bob" before "7" | not executed | AssigneeRecord.IndexKeyJumpsAhead | TaskList.GroupByAssignee |

// The task record of the task-list generator, the labels its buckets carry,
// and selection of the tasks that carry a label (the source's filters).

module Tasks {
  import opened Text

  datatype Status = Pending | InProgress | Completed

  datatype Priority = High | Medium | Low

  /** One entry of the `tasks` input, with the schema defaults applied: a
      missing status is `Pending`. An absent array is `None`; an absent string
      is `None` and behaves like `Some("")` wherever the source tests it. */
  datatype Task = Task(
    task: string,
    assignee: Option<string>,
    deadline: Option<string>,
    priority: Option<Priority>,
    status: Status,
    tags: Option<seq<string>>,
    estimatedTime: Option<string>,
    dependencies: Option<seq<string>>)

  /** The key under which a task without a (truthy) assignee is grouped. */
  const Unassigned: string := "未割り当て"

  /** The assignee when it is truthy, the unassigned key otherwise. */
  function AssigneeKey(t: Task): string {
    if Truthy(t.assignee) then t.assignee.value else Unassigned
  }

  /** A task literally assigned to "未割り当て" shares the bucket of the tasks
      that have no assignee, and a non-empty assignee is its own key. */
  lemma UnassignedMerges(t: Task, u: Task)
    requires t.assignee == Some(Unassigned)
    requires !Truthy(u.assignee)
    ensures AssigneeKey(t) == AssigneeKey(u) == Unassigned
    ensures forall v: Task :: Truthy(v.assignee) ==> AssigneeKey(v) == v.assignee.value
  {
  }

  /** The dimension along which tasks are bucketed. */
  datatype Dimension = StatusDim | PriorityDim | AssigneeDim | WholeDim

  /** A bucket label: a status, a priority (`None` is the "その他" bucket),
      an assignee key, or no label at all for the ungrouped list. */
  datatype Label =
    | StatusLabel(status: Status)
    | PriorityLabel(priority: Option<Priority>)
    | AssigneeLabel(name: string)
    | NoLabel

  function DimOf(l: Label): Dimension {
    match l
    case StatusLabel(_) => StatusDim
    case PriorityLabel(_) => PriorityDim
    case AssigneeLabel(_) => AssigneeDim
    case NoLabel => WholeDim
  }

  /** The label a task carries along a dimension. */
  function LabelOf(d: Dimension, t: Task): (l: Label)
    ensures DimOf(l) == d
  {
    match d
    case StatusDim => StatusLabel(t.status)
    case PriorityDim => PriorityLabel(t.priority)
    case AssigneeDim => AssigneeLabel(AssigneeKey(t))
    case WholeDim => NoLabel
  }

  /** The filter the source applies for a bucket: equal status, equal
      priority (no priority for "その他"), equal assignee key, or every task. */
  predicate Matches(l: Label, t: Task) {
    LabelOf(DimOf(l), t) == l
  }

  /** The tasks that carry label `l`, in input order. */
  function Select(ts: seq<Task>, l: Label): (r: seq<Task>)
    ensures |r| <= |ts|
    ensures forall t :: t in r ==> t in ts && Matches(l, t)
  {
    if ts == [] then []
    else (if Matches(l, ts[0]) then [ts[0]] else []) + Select(ts[1..], l)
  }

  lemma {:induction false} SelectAppend(a: seq<Task>, b: seq<Task>, l: Label)
    ensures Select(a + b, l) == Select(a, l) + Select(b, l)
  {
    if a == [] {
      assert a + b == b;
    } else {
      assert (a + b)[1..] == a[1..] + b;
      SelectAppend(a[1..], b, l);
    }
  }

  /** Selecting with no label keeps the whole list. */
  lemma {:induction false} SelectEverything(ts: seq<Task>)
    ensures Select(ts, NoLabel) == ts
  {
    if ts != [] {
      SelectEverything(ts[1..]);
    }
  }

  /** The positions of the tasks that carry `l`, in increasing order. */
  ghost function Positions(ts: seq<Task>, l: Label): seq<nat> {
    if ts == [] then []
    else Positions(ts[..|ts| - 1], l) + (if Matches(l, ts[|ts| - 1]) then [|ts| - 1] else [])
  }

  lemma SelectSnoc(p: seq<Task>, x: Task, l: Label)
    ensures Select(p + [x], l) == Select(p, l) + (if Matches(l, x) then [x] else [])
  {
    SelectAppend(p, [x], l);
    assert Select([x], l) == (if Matches(l, x) then [x] else []) + Select([], l);
  }

  lemma {:induction false} PositionsPick(ts: seq<Task>, l: Label)
    ensures |Positions(ts, l)| == |Select(ts, l)|
    ensures forall k :: 0 <= k < |Positions(ts, l)| ==>
      Positions(ts, l)[k] < |ts| && Select(ts, l)[k] == ts[Positions(ts, l)[k]]
  {
    if ts != [] {
      var n := |ts| - 1;
      var p, x := ts[..n], ts[n];
      assert ts == p + [x];
      PositionsPick(p, l);
      SelectSnoc(p, x, l);
      var ps, pp := Positions(ts, l), Positions(p, l);
      var s, sp := Select(ts, l), Select(p, l);
      forall k | 0 <= k < |ps|
        ensures ps[k] < |ts| && s[k] == ts[ps[k]]
      {
        if k < |pp| {
          assert ps[k] == pp[k] && s[k] == sp[k] && ts[pp[k]] == p[pp[k]];
        }
      }
    }
  }

  lemma {:induction false} PositionsIncrease(ts: seq<Task>, l: Label)
    ensures forall k :: 0 <= k < |Positions(ts, l)| ==> Positions(ts, l)[k] < |ts|
    ensures forall k, m :: 0 <= k < m < |Positions(ts, l)| ==> Positions(ts, l)[k] < Positions(ts, l)[m]
  {
    if ts != [] {
      PositionsIncrease(ts[..|ts| - 1], l);
    }
  }

  lemma {:induction false} PositionsCover(ts: seq<Task>, l: Label)
    ensures forall i :: 0 <= i < |ts| ==> (Matches(l, ts[i]) <==> i in Positions(ts, l))
  {
    if ts != [] {
      var n := |ts| - 1;
      var p := ts[..n];
      PositionsCover(p, l);
      PositionsIncrease(p, l);
      forall i | 0 <= i < |ts|
        ensures Matches(l, ts[i]) <==> i in Positions(ts, l)
      {
        if i < n {
          assert ts[i] == p[i];
        }
      }
    }
  }

  /** Selection keeps input order: it is exactly the subsequence of `ts` at
      the strictly increasing positions of the tasks that carry `l`. */
  lemma SelectKeepsOrder(ts: seq<Task>, l: Label)
    ensures var ps := Positions(ts, l);
      && |ps| == |Select(ts, l)|
      && (forall k :: 0 <= k < |ps| ==> ps[k] < |ts| && Select(ts, l)[k] == ts[ps[k]])
      && (forall k, m :: 0 <= k < m < |ps| ==> ps[k] < ps[m])
      && (forall i :: 0 <= i < |ts| ==> (Matches(l, ts[i]) <==> i in ps))
  {
    PositionsPick(ts, l);
    PositionsIncrease(ts, l);
    PositionsCover(ts, l);
  }

  predicate InDimension(ls: seq<Label>, d: Dimension) {
    forall i :: 0 <= i < |ls| ==> DimOf(ls[i]) == d
  }

  /** The selections for `ls`, one after the other. */
  function Gather(ts: seq<Task>, ls: seq<Label>): seq<Task> {
    if ls == [] then [] else Gather(ts, ls[..|ls| - 1]) + Select(ts, ls[|ls| - 1])
  }

  lemma {:induction false} GatherCons(t: Task, r: seq<Task>, ls: seq<Label>, d: Dimension)
    requires Distinct(ls) && InDimension(ls, d)
    ensures multiset(Gather([t] + r, ls))
         == multiset(Gather(r, ls)) + (if LabelOf(d, t) in ls then multiset{t} else multiset{})
  {
    if ls != [] {
      var n := |ls| - 1;
      var front, l := ls[..n], ls[n];
      var here: seq<Task> := if Matches(l, t) then [t] else [];
      var a, b, sel := Gather([t] + r, front), Gather(r, front), Select(r, l);
      var inFront := LabelOf(d, t) in front;
      var mine: multiset<Task> := if inFront then multiset{t} else multiset{};
      assert multiset(a) == multiset(b) + mine by {
        LastIsNew(ls);
        assert InDimension(front, d) by {
          assert forall i :: 0 <= i < n ==> front[i] == ls[i];
        }
        GatherCons(t, r, front, d);
      }
      assert Gather([t] + r, ls) == a + (here + sel) by {
        assert Select([t] + r, l) == here + sel by {
          assert ([t] + r)[0] == t;
          assert ([t] + r)[1..] == r;
        }
      }
      assert Gather(r, ls) == b + sel;
      assert Matches(l, t) <==> LabelOf(d, t) == l by {
        assert DimOf(l) == d;
      }
      var x := LabelOf(d, t);
      var mineAll: multiset<Task> := if x in ls then multiset{t} else multiset{};
      if x == l {
        assert !inFront && x in ls by {
          LastIsNew(ls);
          assert ls[n] == x;
        }
        assert multiset(here) + mine == mineAll;
      } else {
        assert x in ls <==> inFront by {
          assert ls == front + [l];
        }
        assert multiset(here) + mine == mineAll;
      }
      Rearrange(Gather([t] + r, ls), Gather(r, ls), a, b, here, sel, mine, mineAll);
    }
  }

  /** The multiset bookkeeping of one step of `GatherCons`. */
  lemma Rearrange<T>(g: seq<T>, h: seq<T>, a: seq<T>, b: seq<T>, here: seq<T>, sel: seq<T>,
                     mine: multiset<T>, mineAll: multiset<T>)
    requires g == a + (here + sel) && h == b + sel
    requires multiset(a) == multiset(b) + mine
    requires multiset(here) + mine == mineAll
    ensures multiset(g) == multiset(h) + mineAll
  {
    calc {
      multiset(g);
      multiset(a) + (multiset(here) + multiset(sel));
      multiset(b) + mine + multiset(here) + multiset(sel);
      multiset(b) + multiset(sel) + mineAll;
      multiset(h) + mineAll;
    }
  }

  lemma LastIsNew<T>(s: seq<T>)
    requires Distinct(s) && s != []
    ensures s[|s| - 1] !in s[..|s| - 1]
    ensures Distinct(s[..|s| - 1])
  {
    var n := |s| - 1;
    forall i | 0 <= i < n ensures s[..n][i] != s[n] {
      assert s[..n][i] == s[i];
    }
  }

  /** Labels that are pairwise distinct along one dimension and cover every
      task split the tasks into disjoint parts: gathering the parts gives a
      permutation of the input. */
  lemma {:induction false} GatherIsPermutation(ts: seq<Task>, ls: seq<Label>, d: Dimension)
    requires Distinct(ls) && InDimension(ls, d)
    requires forall t :: t in ts ==> LabelOf(d, t) in ls
    ensures multiset(Gather(ts, ls)) == multiset(ts)
  {
    if ts == [] {
      GatherOfNothing(ls);
    } else {
      assert ts == [ts[0]] + ts[1..];
      GatherIsPermutation(ts[1..], ls, d);
      GatherCons(ts[0], ts[1..], ls, d);
    }
  }

  lemma {:induction false} GatherOfNothing(ls: seq<Label>)
    ensures Gather([], ls) == []
  {
    if ls != [] {
      GatherOfNothing(ls[..|ls| - 1]);
    }
  }

  /** Position of a label in the fixed bucket orders: pending, in progress,
      completed; high, medium, low, then tasks without a priority. */
  function Rank(l: Label): nat {
    match l
    case StatusLabel(Pending) => 0
    case StatusLabel(InProgress) => 1
    case StatusLabel(Completed) => 2
    case PriorityLabel(Some(High)) => 0
    case PriorityLabel(Some(Medium)) => 1
    case PriorityLabel(Some(Low)) => 2
    case PriorityLabel(None) => 3
    case _ => 0
  }

  const StatusLabels: seq<Label> :=
    [StatusLabel(Pending), StatusLabel(InProgress), StatusLabel(Completed)]

  const PriorityLabels: seq<Label> :=
    [PriorityLabel(Some(High)), PriorityLabel(Some(Medium)), PriorityLabel(Some(Low)), PriorityLabel(None)]

  /** The number of tasks with status `s`. */
  function CountStatus(ts: seq<Task>, s: Status): nat {
    |Select(ts, StatusLabel(s))|
  }

  /** Every task has exactly one status, so the three counts add up to the
      number of tasks. */
  lemma {:induction false} StatusCountsAddUp(ts: seq<Task>)
    ensures CountStatus(ts, Pending) + CountStatus(ts, InProgress) + CountStatus(ts, Completed) == |ts|
  {
    if ts != [] {
      StatusCountsAddUp(ts[1..]);
      var t := ts[0];
      assert Select(ts, StatusLabel(t.status)) == [t] + Select(ts[1..], StatusLabel(t.status));
      forall s: Status | s != t.status
        ensures Select(ts, StatusLabel(s)) == Select(ts[1..], StatusLabel(s))
      {
      }
    }
  }
}

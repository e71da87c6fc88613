// How the task-list generator splits its tasks into buckets before
// rendering them: the kanban board, grouping by priority, by assignee, by
// status, or a single ungrouped list.

module Grouping {
  import opened Text
  import opened Tasks

  /** A bucket: its label (which decides its heading) and its tasks. */
  datatype Bucket = Bucket(tag: Label, tasks: seq<Task>)

  /** The bucketing the generator applies once format and `groupBy` are
      combined; `Flat` is the single list of `none` and `deadline`. */
  datatype Layout = Board | PriorityGroups | AssigneeGroups | StatusGroups | Flat

  function DimensionOf(layout: Layout): Dimension {
    match layout
    case Board => StatusDim
    case StatusGroups => StatusDim
    case PriorityGroups => PriorityDim
    case AssigneeGroups => AssigneeDim
    case Flat => WholeDim
  }

  function BucketOf(ts: seq<Task>, l: Label): Bucket {
    Bucket(l, Select(ts, l))
  }

  /** One bucket per label, in the order of the labels. */
  function BucketsOf(ts: seq<Task>, ls: seq<Label>): (bs: seq<Bucket>)
    ensures |bs| == |ls|
  {
    seq(|ls|, i requires 0 <= i < |ls| => BucketOf(ts, ls[i]))
  }

  /** The buckets that hold at least one task, in their order (the source
      writes a bucket only when it holds a task). */
  function Occupied(bs: seq<Bucket>): seq<Bucket> {
    if bs == [] then []
    else Occupied(bs[..|bs| - 1]) + (if |bs[|bs| - 1].tasks| > 0 then [bs[|bs| - 1]] else [])
  }

  /** The assignee keys in the order in which each first occurs among the
      tasks: the order in which the accumulator record gains its keys. */
  function FirstSeen(ts: seq<Task>): (ks: seq<string>)
    ensures Distinct(ks)
    ensures forall k :: k in ks <==> exists i :: 0 <= i < |ts| && AssigneeKey(ts[i]) == k
  {
    if ts == [] then []
    else
      var p := ts[..|ts| - 1];
      var ks := FirstSeen(p);
      var k := AssigneeKey(ts[|ts| - 1]);
      assert forall i :: 0 <= i < |p| ==> p[i] == ts[i];
      if k in ks then ks else ks + [k]
  }

  function AssigneeLabels(ks: seq<string>): (ls: seq<Label>)
    ensures |ls| == |ks|
  {
    seq(|ks|, i requires 0 <= i < |ks| => AssigneeLabel(ks[i]))
  }

  /** The buckets of a layout. */
  function Buckets(ts: seq<Task>, layout: Layout): seq<Bucket> {
    match layout
    case Board => BucketsOf(ts, StatusLabels)
    case StatusGroups => Occupied(BucketsOf(ts, StatusLabels))
    case PriorityGroups => Occupied(BucketsOf(ts, PriorityLabels))
    case AssigneeGroups => BucketsOf(ts, AssigneeLabels(FirstSeen(ts)))
    case Flat => [Bucket(NoLabel, ts)]
  }

  /** All tasks of the buckets, bucket after bucket. */
  function Flatten(bs: seq<Bucket>): seq<Task> {
    if bs == [] then [] else Flatten(bs[..|bs| - 1]) + bs[|bs| - 1].tasks
  }

  function LabelsOf(bs: seq<Bucket>): (ls: seq<Label>)
    ensures |ls| == |bs|
  {
    seq(|bs|, i requires 0 <= i < |bs| => bs[i].tag)
  }

  lemma {:induction false} FlattenBucketsOf(ts: seq<Task>, ls: seq<Label>)
    ensures Flatten(BucketsOf(ts, ls)) == Gather(ts, ls)
  {
    if ls != [] {
      var n := |ls| - 1;
      FlattenBucketsOf(ts, ls[..n]);
      assert BucketsOf(ts, ls)[..n] == BucketsOf(ts, ls[..n]);
    }
  }

  /** Dropping empty buckets drops no task. */
  lemma {:induction false} FlattenOccupied(bs: seq<Bucket>)
    ensures Flatten(Occupied(bs)) == Flatten(bs)
  {
    if bs != [] {
      var n := |bs| - 1;
      var o := Occupied(bs[..n]);
      FlattenOccupied(bs[..n]);
      assert Flatten(bs) == Flatten(bs[..n]) + bs[n].tasks;
      if |bs[n].tasks| > 0 {
        var r := o + [bs[n]];
        assert Occupied(bs) == r;
        assert r[..|o|] == o;
        assert Flatten(r) == Flatten(o) + bs[n].tasks;
      } else {
        assert Occupied(bs) == o + [] == o;
        assert Flatten(bs) == Flatten(bs[..n]) + [];
      }
    }
  }

  lemma {:induction false} OccupiedMembers(bs: seq<Bucket>)
    ensures forall b :: b in Occupied(bs) <==> b in bs && |b.tasks| > 0
  {
    if bs != [] {
      var n := |bs| - 1;
      OccupiedMembers(bs[..n]);
      assert bs == bs[..n] + [bs[n]];
    }
  }

  predicate Ranked(bs: seq<Bucket>) {
    forall i, j :: 0 <= i < j < |bs| ==> Rank(bs[i].tag) < Rank(bs[j].tag)
  }

  lemma {:induction false} OccupiedKeepsRank(bs: seq<Bucket>)
    requires Ranked(bs)
    ensures Ranked(Occupied(bs))
  {
    if bs != [] {
      var n := |bs| - 1;
      assert Ranked(bs[..n]);
      OccupiedKeepsRank(bs[..n]);
      OccupiedMembers(bs[..n]);
      var o := Occupied(bs[..n]);
      if |bs[n].tasks| > 0 {
        forall i | 0 <= i < |o| ensures Rank(o[i].tag) < Rank(bs[n].tag) {
          assert o[i] in bs[..n];
        }
      } else {
        assert Occupied(bs) == o + [] == o;
      }
    }
  }

  lemma {:induction false} OccupiedKeepsDistinct(bs: seq<Bucket>)
    requires Distinct(LabelsOf(bs))
    ensures Distinct(LabelsOf(Occupied(bs)))
  {
    if bs != [] {
      var n := |bs| - 1;
      assert LabelsOf(bs[..n]) == LabelsOf(bs)[..n];
      OccupiedKeepsDistinct(bs[..n]);
      OccupiedMembers(bs[..n]);
      var o := Occupied(bs[..n]);
      if |bs[n].tasks| > 0 {
        var r := o + [bs[n]];
        assert Occupied(bs) == r;
        forall i, j | 0 <= i < j < |r| ensures LabelsOf(r)[i] != LabelsOf(r)[j] {
          if j == |o| {
            assert o[i] in bs[..n];
            var k :| 0 <= k < n && bs[..n][k] == o[i];
            assert LabelsOf(bs)[k] == o[i].tag == LabelsOf(r)[i];
            assert LabelsOf(bs)[n] == bs[n].tag == LabelsOf(r)[j];
          } else {
            assert LabelsOf(o)[i] == LabelsOf(r)[i] && LabelsOf(o)[j] == LabelsOf(r)[j];
          }
        }
      } else {
        assert Occupied(bs) == o + [] == o;
      }
    }
  }

  /** The buckets split `ts` into disjoint parts along dimension `d`: each
      bucket holds exactly the tasks that carry its label, in input order; a
      task lies only in the bucket of its own label; no label repeats; and
      the buckets together are a permutation of `ts`. */
  ghost predicate Partitions(bs: seq<Bucket>, ts: seq<Task>, d: Dimension) {
    && InDimension(LabelsOf(bs), d)
    && (forall i :: 0 <= i < |bs| ==> bs[i].tasks == Select(ts, bs[i].tag))
    && (forall i, t :: 0 <= i < |bs| && t in bs[i].tasks ==> bs[i].tag == LabelOf(d, t))
    && Distinct(LabelsOf(bs))
    && multiset(Flatten(bs)) == multiset(ts)
  }

  lemma BucketsOfPartition(ts: seq<Task>, ls: seq<Label>, d: Dimension)
    requires Distinct(ls) && InDimension(ls, d)
    requires forall t :: t in ts ==> LabelOf(d, t) in ls
    ensures Partitions(BucketsOf(ts, ls), ts, d)
  {
    var bs := BucketsOf(ts, ls);
    assert LabelsOf(bs) == ls;
    FlattenBucketsOf(ts, ls);
    GatherIsPermutation(ts, ls, d);
  }

  lemma OccupiedPartition(bs: seq<Bucket>, ts: seq<Task>, d: Dimension)
    requires Partitions(bs, ts, d)
    ensures Partitions(Occupied(bs), ts, d)
  {
    var o := Occupied(bs);
    OccupiedMembers(bs);
    OccupiedKeepsDistinct(bs);
    FlattenOccupied(bs);
    forall i | 0 <= i < |o| ensures DimOf(LabelsOf(o)[i]) == d && o[i].tasks == Select(ts, o[i].tag) {
      assert o[i] in bs;
      var k :| 0 <= k < |bs| && bs[k] == o[i];
      assert LabelsOf(bs)[k] == o[i].tag;
    }
    forall i, t | 0 <= i < |o| && t in o[i].tasks ensures o[i].tag == LabelOf(d, t) {
      assert o[i] in bs;
    }
  }

  /** Every layout is a partition of the input along its dimension. */
  lemma GroupingIsPartition(ts: seq<Task>, layout: Layout)
    ensures Partitions(Buckets(ts, layout), ts, DimensionOf(layout))
  {
    match layout {
      case Board =>
        CoverStatus(ts);
        BucketsOfPartition(ts, StatusLabels, StatusDim);
      case StatusGroups =>
        CoverStatus(ts);
        BucketsOfPartition(ts, StatusLabels, StatusDim);
        OccupiedPartition(BucketsOf(ts, StatusLabels), ts, StatusDim);
      case PriorityGroups =>
        CoverPriority(ts);
        BucketsOfPartition(ts, PriorityLabels, PriorityDim);
        OccupiedPartition(BucketsOf(ts, PriorityLabels), ts, PriorityDim);
      case AssigneeGroups =>
        CoverAssignees(ts);
        BucketsOfPartition(ts, AssigneeLabels(FirstSeen(ts)), AssigneeDim);
      case Flat =>
        FlatPartition(ts);
    }
  }

  lemma CoverAssignees(ts: seq<Task>)
    ensures Distinct(AssigneeLabels(FirstSeen(ts))) && InDimension(AssigneeLabels(FirstSeen(ts)), AssigneeDim)
    ensures forall t :: t in ts ==> LabelOf(AssigneeDim, t) in AssigneeLabels(FirstSeen(ts))
  {
    var ks := FirstSeen(ts);
    var ls := AssigneeLabels(ks);
    forall t | t in ts ensures LabelOf(AssigneeDim, t) in ls {
      var i :| 0 <= i < |ts| && ts[i] == t;
      assert AssigneeKey(ts[i]) in ks;
      var j :| 0 <= j < |ks| && ks[j] == AssigneeKey(t);
      assert ls[j] == LabelOf(AssigneeDim, t);
    }
  }

  lemma FlatPartition(ts: seq<Task>)
    ensures Partitions(Buckets(ts, Flat), ts, WholeDim)
  {
    var bs := Buckets(ts, Flat);
    SelectEverything(ts);
    assert Flatten(bs) == Flatten(bs[..0]) + ts;
    assert LabelsOf(bs) == [NoLabel];
  }

  lemma CoverStatus(ts: seq<Task>)
    ensures Distinct(StatusLabels) && InDimension(StatusLabels, StatusDim)
    ensures forall t :: t in ts ==> LabelOf(StatusDim, t) in StatusLabels
  {
    forall t | t in ts ensures LabelOf(StatusDim, t) in StatusLabels {
      assert LabelOf(StatusDim, t) == StatusLabels[Rank(LabelOf(StatusDim, t))];
    }
  }

  lemma CoverPriority(ts: seq<Task>)
    ensures Distinct(PriorityLabels) && InDimension(PriorityLabels, PriorityDim)
    ensures forall t :: t in ts ==> LabelOf(PriorityDim, t) in PriorityLabels
  {
    forall t | t in ts ensures LabelOf(PriorityDim, t) in PriorityLabels {
      assert LabelOf(PriorityDim, t) == PriorityLabels[Rank(LabelOf(PriorityDim, t))];
    }
  }

  /** Kanban board: always the three status buckets pending, in progress,
      completed, in that order, including empty ones. */
  lemma BoardHasThreeColumns(ts: seq<Task>)
    ensures LabelsOf(Buckets(ts, Board)) == StatusLabels
    ensures forall i :: 0 <= i < 3 ==> Buckets(ts, Board)[i].tasks == Select(ts, StatusLabels[i])
  {
    assert LabelsOf(Buckets(ts, Board)) == StatusLabels;
  }

  /** A label of the fixed list heads a bucket after empty buckets are
      dropped exactly when some task carries it. */
  lemma OccupiedTags(ts: seq<Task>, ls: seq<Label>, l: Label)
    requires l in ls
    ensures l in LabelsOf(Occupied(BucketsOf(ts, ls))) <==> exists t :: t in ts && Matches(l, t)
  {
    if exists t :: t in ts && Matches(l, t) {
      var t :| t in ts && Matches(l, t);
      OccupiedTagsIf(ts, ls, l, t);
    }
    if l in LabelsOf(Occupied(BucketsOf(ts, ls))) {
      OccupiedTagsOnlyIf(ts, ls, l);
    }
  }

  lemma OccupiedTagsIf(ts: seq<Task>, ls: seq<Label>, l: Label, t: Task)
    requires l in ls && t in ts && Matches(l, t)
    ensures l in LabelsOf(Occupied(BucketsOf(ts, ls)))
  {
    var all := BucketsOf(ts, ls);
    var o := Occupied(all);
    var k :| 0 <= k < |ls| && ls[k] == l;
    var b := all[k];
    assert b == BucketOf(ts, l);
    SelectHasMatch(ts, l, t);
    assert b in all;
    OccupiedMembers(all);
    assert b in o;
    var i :| 0 <= i < |o| && o[i] == b;
    assert LabelsOf(o)[i] == l;
  }

  lemma OccupiedTagsOnlyIf(ts: seq<Task>, ls: seq<Label>, l: Label)
    requires l in LabelsOf(Occupied(BucketsOf(ts, ls)))
    ensures exists t :: t in ts && Matches(l, t)
  {
    var all := BucketsOf(ts, ls);
    var o := Occupied(all);
    var i :| 0 <= i < |o| && LabelsOf(o)[i] == l;
    OccupiedMembers(all);
    assert o[i] in all;
    var j :| 0 <= j < |all| && all[j] == o[i];
    assert o[i] == BucketOf(ts, ls[j]);
    assert o[i].tasks[0] in Select(ts, l);
  }

  predicate RankedLabels(ls: seq<Label>) {
    forall i, j :: 0 <= i < j < |ls| ==> Rank(ls[i]) < Rank(ls[j])
  }

  /** Buckets drawn from a list of labels in rank order, with the empty ones
      dropped: still in rank order, none empty, each label of the list's
      dimension. */
  lemma OccupiedInOrder(ts: seq<Task>, ls: seq<Label>, d: Dimension)
    requires RankedLabels(ls) && InDimension(ls, d)
    ensures var bs := Occupied(BucketsOf(ts, ls));
      && Ranked(bs)
      && (forall i :: 0 <= i < |bs| ==> |bs[i].tasks| > 0 && DimOf(bs[i].tag) == d)
  {
    var all := BucketsOf(ts, ls);
    var bs := Occupied(all);
    assert Ranked(all) by {
      forall i, j | 0 <= i < j < |all| ensures Rank(all[i].tag) < Rank(all[j].tag) {
        assert all[i].tag == ls[i] && all[j].tag == ls[j];
      }
    }
    OccupiedKeepsRank(all);
    OccupiedMembers(all);
    forall i | 0 <= i < |bs| ensures |bs[i].tasks| > 0 && DimOf(bs[i].tag) == d {
      assert bs[i] in all;
      var j :| 0 <= j < |all| && all[j] == bs[i];
      assert all[j].tag == ls[j];
    }
  }

  /** Grouping by status: the same order as the board, but only the statuses
      some task has, each bucket non-empty. */
  lemma StatusGroupsInOrder(ts: seq<Task>)
    ensures var bs := Buckets(ts, StatusGroups);
      && Ranked(bs)
      && (forall i :: 0 <= i < |bs| ==> |bs[i].tasks| > 0 && bs[i].tag.StatusLabel?)
      && (forall s: Status :: StatusLabel(s) in LabelsOf(bs) <==> exists t :: t in ts && t.status == s)
  {
    var bs := Buckets(ts, StatusGroups);
    OccupiedInOrder(ts, StatusLabels, StatusDim);
    forall s: Status ensures StatusLabel(s) in LabelsOf(bs) <==> exists t :: t in ts && t.status == s {
      assert StatusLabels[Rank(StatusLabel(s))] == StatusLabel(s);
      OccupiedTags(ts, StatusLabels, StatusLabel(s));
    }
  }

  /** Grouping by priority: high, medium, low, then the tasks without a
      priority, whatever the input order; empty buckets are left out, and a
      task without a priority lands in the last ("その他") bucket. */
  lemma PriorityGroupsInOrder(ts: seq<Task>)
    ensures var bs := Buckets(ts, PriorityGroups);
      && Ranked(bs)
      && (forall i :: 0 <= i < |bs| ==> |bs[i].tasks| > 0 && bs[i].tag.PriorityLabel?)
      && (forall t :: t in ts && t.priority == None ==>
            |bs| > 0 && t in bs[|bs| - 1].tasks && bs[|bs| - 1].tag == PriorityLabel(None))
  {
    var bs := Buckets(ts, PriorityGroups);
    assert Ranked(bs) && forall i :: 0 <= i < |bs| ==> |bs[i].tasks| > 0 && bs[i].tag.PriorityLabel? by {
      OccupiedInOrder(ts, PriorityLabels, PriorityDim);
      forall i | 0 <= i < |bs| ensures bs[i].tag.PriorityLabel? {
        assert DimOf(bs[i].tag) == PriorityDim;
      }
    }
    forall t | t in ts && t.priority == None
      ensures |bs| > 0 && t in bs[|bs| - 1].tasks && bs[|bs| - 1].tag == PriorityLabel(None)
    {
      NoPriorityLast(ts, t);
    }
  }

  lemma NoPriorityLast(ts: seq<Task>, t: Task)
    requires t in ts && t.priority == None
    ensures var bs := Buckets(ts, PriorityGroups);
      |bs| > 0 && t in bs[|bs| - 1].tasks && bs[|bs| - 1].tag == PriorityLabel(None)
  {
    var bs := Buckets(ts, PriorityGroups);
    var none := PriorityLabel(None);
    assert none in LabelsOf(bs) by {
      assert PriorityLabels[3] == none;
      OccupiedTags(ts, PriorityLabels, none);
    }
    var i :| 0 <= i < |bs| && LabelsOf(bs)[i] == none;
    assert i == |bs| - 1 by {
      OccupiedInOrder(ts, PriorityLabels, PriorityDim);
      HighestRankLast(bs, i);
    }
    assert bs[i].tasks == Select(ts, none) by {
      GroupingIsPartition(ts, PriorityGroups);
    }
    SelectHasMatch(ts, none, t);
  }

  /** No rank exceeds 3, so in rank order a bucket of rank 3 comes last. */
  lemma HighestRankLast(bs: seq<Bucket>, i: nat)
    requires Ranked(bs) && i < |bs| && Rank(bs[i].tag) == 3
    ensures i == |bs| - 1
  {
    assert Rank(bs[|bs| - 1].tag) <= 3;
  }

  lemma {:induction false} SelectHasMatch(ts: seq<Task>, l: Label, t: Task)
    requires t in ts && Matches(l, t)
    ensures t in Select(ts, l)
  {
    if ts[0] != t {
      SelectHasMatch(ts[1..], l, t);
    }
  }

  /** The keys known after a prefix of the tasks are a prefix of all keys:
      every later bucket belongs to a key none of the first `j` tasks has. */
  lemma {:induction false} FirstSeenOrder(ts: seq<Task>, j: nat)
    requires j <= |ts|
    ensures var ks := FirstSeen(ts); var pre := FirstSeen(ts[..j]);
      && |pre| <= |ks| && pre == ks[..|pre|]
      && forall m, i :: |pre| <= m < |ks| && 0 <= i < j ==> AssigneeKey(ts[i]) != ks[m]
  {
    var ks := FirstSeen(ts);
    var pre := FirstSeen(ts[..j]);
    if j < |ts| {
      var n := |ts| - 1;
      var p := ts[..n];
      var mid := FirstSeen(p);
      assert pre == mid[..|pre|] && |pre| <= |mid|
          && forall m, i :: |pre| <= m < |mid| && 0 <= i < j ==> AssigneeKey(p[i]) != mid[m] by {
        assert p[..j] == ts[..j];
        FirstSeenOrder(p, j);
      }
      assert |mid| <= |ks| && ks[..|mid|] == mid;
      assert ks[..|pre|] == mid[..|pre|];
      forall m, i | |pre| <= m < |ks| && 0 <= i < j ensures AssigneeKey(ts[i]) != ks[m] {
        assert p[i] == ts[i];
        if m >= |mid| {
          assert ks[m] !in mid;
          assert AssigneeKey(p[i]) in mid;
        } else {
          assert ks[m] == mid[m];
        }
      }
    } else {
      assert ts[..j] == ts;
    }
  }


  /** Grouping by assignee: one bucket per distinct key, in first-seen
      order, none empty, each holding exactly its key's tasks in input order. */
  lemma AssigneeGroupsFirstSeen(ts: seq<Task>)
    ensures var bs := Buckets(ts, AssigneeGroups); var ks := FirstSeen(ts);
      && LabelsOf(bs) == AssigneeLabels(ks)
      && Distinct(ks)
      && (forall i :: 0 <= i < |bs| ==> |bs[i].tasks| > 0 && bs[i].tasks == Select(ts, AssigneeLabel(ks[i])))
      && (forall t :: t in ts ==> AssigneeKey(t) in ks)
  {
    var bs := Buckets(ts, AssigneeGroups);
    var ks := FirstSeen(ts);
    assert LabelsOf(bs) == AssigneeLabels(ks);
    forall i | 0 <= i < |bs|
      ensures |bs[i].tasks| > 0 && bs[i].tasks == Select(ts, AssigneeLabel(ks[i]))
    {
      assert bs[i] == BucketOf(ts, AssigneeLabel(ks[i]));
      assert ks[i] in ks;
      var j :| 0 <= j < |ts| && AssigneeKey(ts[j]) == ks[i];
      assert Matches(AssigneeLabel(ks[i]), ts[j]);
      SelectHasMatch(ts, AssigneeLabel(ks[i]), ts[j]);
    }
    forall t | t in ts ensures AssigneeKey(t) in ks {
      var j :| 0 <= j < |ts| && ts[j] == t;
    }
  }

  /** No grouping: one unlabelled bucket holding the input itself. */
  lemma FlatKeepsInput(ts: seq<Task>)
    ensures Buckets(ts, Flat) == [Bucket(NoLabel, ts)]
    ensures Flatten(Buckets(ts, Flat)) == ts
  {
    assert Flatten([Bucket(NoLabel, ts)]) == Flatten([]) + ts;
  }
}

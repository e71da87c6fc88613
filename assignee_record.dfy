// The assignee grouping exactly as the source writes it: a `reduce` into a
// plain object literal followed by `Object.entries`. Two behaviours of plain
// JavaScript objects make it differ from the first-seen grouping of
// `Grouping.Buckets(ts, AssigneeGroups)`, which the rest of the model uses:
// a key that names an inherited member makes the reduce throw, and keys that
// are array indices are enumerated first, in ascending numeric order.

module AssigneeRecord {
  import opened Text
  import opened Tasks
  import opened Grouping

  /** The properties every object literal inherits from `Object.prototype`.
      For such a key the accumulator already holds a truthy value (a
      function, or the prototype itself for `__proto__`), so the source skips
      creating the array and then pushes onto a value that cannot take it. */
  const InheritedNames: set<string> := {
    "constructor", "__defineGetter__", "__defineSetter__", "hasOwnProperty",
    "__lookupGetter__", "__lookupSetter__", "isPrototypeOf", "propertyIsEnumerable",
    "toString", "valueOf", "__proto__", "toLocaleString"
  }

  /** A canonical array index (ECMA-262, section 6.1.7): decimal digits with
      no leading zero, denoting a number below 2^32 - 1. */
  predicate IsArrayIndex(k: string) {
    |k| > 0 && AllDigits(k) && (k[0] == '0' ==> |k| == 1) && DecimalValue(k) < 0xFFFF_FFFF
  }

  function IndexKeys(ks: seq<string>): (r: seq<string>)
    ensures forall k :: k in r ==> IsArrayIndex(k)
  {
    if ks == [] then []
    else IndexKeys(ks[..|ks| - 1]) + (if IsArrayIndex(ks[|ks| - 1]) then [ks[|ks| - 1]] else [])
  }

  function OtherKeys(ks: seq<string>): seq<string> {
    if ks == [] then []
    else OtherKeys(ks[..|ks| - 1]) + (if IsArrayIndex(ks[|ks| - 1]) then [] else [ks[|ks| - 1]])
  }

  function IndexValue(k: string): nat
    requires IsArrayIndex(k)
  {
    DecimalValue(k)
  }

  predicate SortedIndices(ks: seq<string>)
    requires forall k :: k in ks ==> IsArrayIndex(k)
  {
    forall i, j :: 0 <= i < j < |ks| ==> IndexValue(ks[i]) <= IndexValue(ks[j])
  }

  /** Inserts an index key into keys sorted by numeric value. */
  function Insert(k: string, ks: seq<string>): (r: seq<string>)
    requires IsArrayIndex(k) && forall x :: x in ks ==> IsArrayIndex(x)
    ensures multiset(r) == multiset(ks) + multiset{k}
    ensures forall x :: x in r ==> IsArrayIndex(x)
  {
    if ks == [] then [k]
    else if IndexValue(k) <= IndexValue(ks[0]) then [k] + ks
    else
      var rest := Insert(k, ks[1..]);
      assert ks == [ks[0]] + ks[1..];
      [ks[0]] + rest
  }

  function SortIndices(ks: seq<string>): (r: seq<string>)
    requires forall k :: k in ks ==> IsArrayIndex(k)
    ensures multiset(r) == multiset(ks)
    ensures forall x :: x in r ==> IsArrayIndex(x)
  {
    if ks == [] then []
    else
      assert ks == ks[..|ks| - 1] + [ks[|ks| - 1]];
      Insert(ks[|ks| - 1], SortIndices(ks[..|ks| - 1]))
  }

  /** The order in which `Object.entries` lists the keys of an object whose
      keys were created in the order `ks` (ECMA-262, section 10.1.11.1):
      array indices in ascending numeric order, then every other key in
      creation order. */
  function EntriesOrder(ks: seq<string>): seq<string> {
    SortIndices(IndexKeys(ks)) + OtherKeys(ks)
  }

  /** What the source's `reduce` and `Object.entries` produce: `None` when
      the reduce throws, otherwise the assignee buckets in enumeration order. */
  function AssigneeBucketsAsWritten(ts: seq<Task>): Option<seq<Bucket>> {
    var ks := FirstSeen(ts);
    if exists k :: k in ks && k in InheritedNames then None
    else Some(BucketsOf(ts, AssigneeLabels(EntriesOrder(ks))))
  }

  lemma {:induction false} InsertSorted(k: string, ks: seq<string>)
    requires IsArrayIndex(k) && forall x :: x in ks ==> IsArrayIndex(x)
    requires SortedIndices(ks)
    ensures SortedIndices(Insert(k, ks))
  {
    if ks != [] && IndexValue(k) > IndexValue(ks[0]) {
      var tail := ks[1..];
      var rest := Insert(k, tail);
      assert SortedIndices(rest) by {
        assert SortedIndices(tail) by {
          assert forall i :: 0 <= i < |tail| ==> tail[i] == ks[i + 1];
        }
        InsertSorted(k, tail);
      }
      assert forall x :: x in rest ==> IndexValue(ks[0]) <= IndexValue(x) by {
        forall x | x in rest ensures IndexValue(ks[0]) <= IndexValue(x) {
          InsertMembers(k, tail, x);
          if x != k {
            var i :| 0 <= i < |tail| && tail[i] == x;
            assert ks[i + 1] == x;
          }
        }
      }
      SortedCons(ks[0], rest);
      assert Insert(k, ks) == [ks[0]] + rest;
    }
  }

  lemma InsertMembers(k: string, ks: seq<string>, x: string)
    requires IsArrayIndex(k) && forall y :: y in ks ==> IsArrayIndex(y)
    requires x in Insert(k, ks)
    ensures x in ks || x == k
  {
    assert x in multiset(Insert(k, ks));
  }

  lemma SortedCons(x: string, rest: seq<string>)
    requires IsArrayIndex(x) && forall y :: y in rest ==> IsArrayIndex(y)
    requires SortedIndices(rest)
    requires forall y :: y in rest ==> IndexValue(x) <= IndexValue(y)
    ensures SortedIndices([x] + rest)
  {
    var r := [x] + rest;
    forall i, j | 0 <= i < j < |r| ensures IndexValue(r[i]) <= IndexValue(r[j]) {
      assert r[j] == rest[j - 1];
      if i > 0 {
        assert r[i] == rest[i - 1];
      }
    }
  }

  lemma {:induction false} SortIndicesSorted(ks: seq<string>)
    requires forall k :: k in ks ==> IsArrayIndex(k)
    ensures SortedIndices(SortIndices(ks))
  {
    if ks != [] {
      var front := ks[..|ks| - 1];
      assert forall x :: x in front ==> x in ks;
      SortIndicesSorted(front);
      InsertSorted(ks[|ks| - 1], SortIndices(front));
    }
  }

  lemma {:induction false} SplitPermutes(ks: seq<string>)
    ensures multiset(IndexKeys(ks)) + multiset(OtherKeys(ks)) == multiset(ks)
  {
    if ks != [] {
      var front, last := ks[..|ks| - 1], ks[|ks| - 1];
      assert ks == front + [last];
      assert multiset(ks) == multiset(front) + multiset{last};
      SplitPermutes(front);
      if IsArrayIndex(last) {
        assert IndexKeys(ks) == IndexKeys(front) + [last];
        assert OtherKeys(ks) == OtherKeys(front);
      } else {
        assert IndexKeys(ks) == IndexKeys(front);
        assert OtherKeys(ks) == OtherKeys(front) + [last];
      }
    }
  }

  /** Enumeration reorders the keys but loses and adds none, and lists the
      array indices first, in ascending numeric order. */
  lemma EntriesOrderPermutes(ks: seq<string>)
    ensures multiset(EntriesOrder(ks)) == multiset(ks)
    ensures var idx := SortIndices(IndexKeys(ks));
      && EntriesOrder(ks)[..|idx|] == idx
      && SortedIndices(idx)
      && forall k :: k in EntriesOrder(ks)[|idx|..] ==> !IsArrayIndex(k)
  {
    SplitPermutes(ks);
    SortIndicesSorted(IndexKeys(ks));
    OtherKeysAreNotIndices(ks);
    var idx := SortIndices(IndexKeys(ks));
    assert EntriesOrder(ks)[|idx|..] == OtherKeys(ks);
  }

  lemma {:induction false} OtherKeysAreNotIndices(ks: seq<string>)
    ensures forall k :: k in OtherKeys(ks) ==> !IsArrayIndex(k)
  {
    if ks != [] {
      OtherKeysAreNotIndices(ks[..|ks| - 1]);
    }
  }

  lemma {:induction false} NoIndexKeys(ks: seq<string>)
    requires forall k :: k in ks ==> !IsArrayIndex(k)
    ensures IndexKeys(ks) == [] && OtherKeys(ks) == ks
  {
    if ks != [] {
      var front, last := ks[..|ks| - 1], ks[|ks| - 1];
      assert ks == front + [last];
      assert !IsArrayIndex(last);
      assert forall x :: x in front ==> x in ks;
      NoIndexKeys(front);
      assert IndexKeys(ks) == IndexKeys(front);
      assert OtherKeys(ks) == OtherKeys(front) + [last];
    }
  }

  /** Where no assignee names an inherited member or looks like an array
      index, the source's grouping is the first-seen grouping. */
  lemma AsWrittenAgreesOtherwise(ts: seq<Task>)
    requires forall t :: t in ts ==> AssigneeKey(t) !in InheritedNames && !IsArrayIndex(AssigneeKey(t))
    ensures AssigneeBucketsAsWritten(ts) == Some(Buckets(ts, AssigneeGroups))
  {
    KeysAvoid(ts);
    PlainKeysKeepOrder(FirstSeen(ts));
  }

  /** Without array-index keys, enumeration keeps the creation order. */
  lemma PlainKeysKeepOrder(ks: seq<string>)
    requires forall k :: k in ks ==> !IsArrayIndex(k)
    ensures EntriesOrder(ks) == ks
  {
    NoIndexKeys(ks);
    assert SortIndices([]) == [];
    assert [] + ks == ks;
  }

  /** Every first-seen key is the key of some task, so a restriction on the
      tasks' keys carries over to the keys. */
  lemma KeysAvoid(ts: seq<Task>)
    requires forall t :: t in ts ==> AssigneeKey(t) !in InheritedNames && !IsArrayIndex(AssigneeKey(t))
    ensures forall k :: k in FirstSeen(ts) ==> k !in InheritedNames && !IsArrayIndex(k)
    ensures !(exists k :: k in FirstSeen(ts) && k in InheritedNames)
  {
    forall k | k in FirstSeen(ts) ensures k !in InheritedNames && !IsArrayIndex(k) {
      var i :| 0 <= i < |ts| && AssigneeKey(ts[i]) == k;
      assert ts[i] in ts;
    }
  }

  /** A task assigned to "constructor": the source throws (the tool then
      fails with "Failed to create task list: ..."), while the first-seen
      grouping gives the task its own bucket. */
  lemma InheritedNameThrows(t: Task)
    requires t.assignee == Some("constructor")
    ensures AssigneeBucketsAsWritten([t]) == None
    ensures Buckets([t], AssigneeGroups) == [Bucket(AssigneeLabel("constructor"), [t])]
  {
    assert AssigneeKey(t) == "constructor";
    assert FirstSeen([t]) == ["constructor"] by {
      assert [t][..0] == [];
    }
    assert "constructor" in InheritedNames;
    assert Select([t], AssigneeLabel("constructor")) == [t] by {
      assert [t][1..] == [];
      assert Matches(AssigneeLabel("constructor"), t);
    }
    assert AssigneeLabels(["constructor"]) == [AssigneeLabel("constructor")];
  }

  lemma FirstSeenBobSeven(bob: Task, seven: Task)
    requires bob.assignee == Some("Bob") && seven.assignee == Some("7")
    ensures FirstSeen([bob, seven]) == ["Bob", "7"]
  {
    var ts := [bob, seven];
    assert AssigneeKey(bob) == "Bob" && AssigneeKey(seven) == "7";
    assert ts[..1] == [bob] && [bob][..0] == [];
    assert FirstSeen([bob]) == ["Bob"];
  }

  lemma EntriesOrderBobSeven()
    ensures EntriesOrder(["Bob", "7"]) == ["7", "Bob"]
  {
    var ks := ["Bob", "7"];
    assert IsArrayIndex("7") by {
      assert DecimalValue("7") == DecimalValue("") * 10 + 7;
    }
    assert !IsArrayIndex("Bob") by {
      assert !IsDigit("Bob"[0]);
    }
    assert ks[..1] == ["Bob"] && ks[1] == "7" && ["Bob"][..0] == [];
    assert IndexKeys(ks) == ["7"] by {
      assert IndexKeys(["Bob"]) == [];
    }
    assert OtherKeys(ks) == ["Bob"] by {
      assert OtherKeys(["Bob"]) == ["Bob"];
    }
    assert SortIndices(["7"]) == ["7"] by {
      assert ["7"][..0] == [];
    }
  }

  /** Tasks assigned to "Bob" and then to "7": the source lists the "7"
      bucket first, the first-seen grouping lists "Bob" first. */
  lemma IndexKeyJumpsAhead(bob: Task, seven: Task)
    requires bob.assignee == Some("Bob") && seven.assignee == Some("7")
    ensures AssigneeBucketsAsWritten([bob, seven]).Some?
    ensures LabelsOf(AssigneeBucketsAsWritten([bob, seven]).value) == [AssigneeLabel("7"), AssigneeLabel("Bob")]
    ensures LabelsOf(Buckets([bob, seven], AssigneeGroups)) == [AssigneeLabel("Bob"), AssigneeLabel("7")]
  {
    var ts := [bob, seven];
    assert AssigneeBucketsAsWritten(ts) == Some(BucketsOf(ts, [AssigneeLabel("7"), AssigneeLabel("Bob")])) by {
      AsWrittenBobSeven(bob, seven);
    }
    LabelsOfBucketsOf(ts, [AssigneeLabel("7"), AssigneeLabel("Bob")]);
    assert Buckets(ts, AssigneeGroups) == BucketsOf(ts, [AssigneeLabel("Bob"), AssigneeLabel("7")]) by {
      FirstSeenBobSeven(bob, seven);
      TwoLabels("Bob", "7");
    }
    LabelsOfBucketsOf(ts, [AssigneeLabel("Bob"), AssigneeLabel("7")]);
  }

  lemma AsWrittenBobSeven(bob: Task, seven: Task)
    requires bob.assignee == Some("Bob") && seven.assignee == Some("7")
    ensures AssigneeBucketsAsWritten([bob, seven]) == Some(BucketsOf([bob, seven], [AssigneeLabel("7"), AssigneeLabel("Bob")]))
  {
    FirstSeenBobSeven(bob, seven);
    EntriesOrderBobSeven();
    BobSevenNotInherited();
    TwoLabels("7", "Bob");
  }

  lemma LabelsOfBucketsOf(ts: seq<Task>, ls: seq<Label>)
    ensures LabelsOf(BucketsOf(ts, ls)) == ls
  {
  }

  lemma BobSevenNotInherited()
    ensures !(exists k :: k in ["Bob", "7"] && k in InheritedNames)
  {
    assert "Bob" !in InheritedNames && "7" !in InheritedNames;
  }

  lemma TwoLabels(a: string, b: string)
    ensures AssigneeLabels([a, b]) == [AssigneeLabel(a), AssigneeLabel(b)]
  {
  }
}

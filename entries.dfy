/** Entries of the notification shade: the immutable payload of a notification
 *  entry, the identities of entries and groups, the parent links the list
 *  builder maintains, and the top-level list it produces. */
module Entries {
  import opened Seqs

  datatype Option<T> = None | Some(value: T)

  /** Identity of a notification entry: its package and its per-package id. */
  datatype LeafKey = LeafKey(pkg: string, id: int)

  /** Identity of a group: a group name is scoped by the package that posts it. */
  datatype GroupKey = GroupKey(pkg: string, name: string)

  /** The payload of a notification entry, fixed when the entry is created. */
  datatype Leaf = Leaf(pkg: string, id: int, rank: int, when: int, postTime: int,
                       group: Option<string>, isSummary: bool)
  {
    function Key(): LeafKey { LeafKey(pkg, id) }

    function GroupKeyOf(): GroupKey
      requires group.Some?
    {
      GroupKey(pkg, group.value)
    }

    /** True when the entry carries the group key `k`. */
    predicate InGroupKey(k: GroupKey) { group.Some? && GroupKeyOf() == k }
  }

  /** Where an entry sits in the built list: nowhere, at top level, or in a group. */
  datatype Parent = NoParent | Root | InGroup(key: GroupKey)

  /** An element of the top-level list: a single entry or a group. */
  datatype TopEntry =
    | Single(leaf: Leaf)
    | Group(key: GroupKey, summary: Option<Leaf>, children: seq<Leaf>)
  {
    /** A group may be shown only with a summary and at least two children. */
    predicate IsValidGroup() { Group? && summary.Some? && |children| >= MIN_CHILDREN_FOR_GROUP }
  }

  const MIN_CHILDREN_FOR_GROUP: nat := 2

  /** The leaves a top-level element holds: itself, or its summary then its children. */
  function EntryLeaves(t: TopEntry): seq<Leaf>
  {
    match t
    case Single(e) => [e]
    case Group(_, s, ch) => (if s.Some? then [s.value] else []) + ch
  }

  /** Every leaf held by a top-level list, in list order. */
  function Leaves(top: seq<TopEntry>): seq<Leaf>
    decreases |top|
  {
    if |top| == 0 then [] else Leaves(top[..|top| - 1]) + EntryLeaves(top[|top| - 1])
  }

  /** The keys of the groups in a top-level list, in list order. */
  function GroupKeys(top: seq<TopEntry>): seq<GroupKey>
    decreases |top|
  {
    if |top| == 0 then []
    else
      var t := top[|top| - 1];
      GroupKeys(top[..|top| - 1]) + (if t.Group? then [t.key] else [])
  }

  lemma {:induction false} GroupKeysAppend(a: seq<TopEntry>, b: seq<TopEntry>)
    ensures GroupKeys(a + b) == GroupKeys(a) + GroupKeys(b)
    decreases |b|
  {
    if |b| == 0 {
      assert a + b == a;
    } else {
      var b' := b[..|b| - 1];
      assert (a + b)[..|a + b| - 1] == a + b';
      assert (a + b)[|a + b| - 1] == b[|b| - 1];
      GroupKeysAppend(a, b');
    }
  }

  /** A list that may be handed to the render listener: every group in it is valid. */
  ghost predicate AllGroupsValid(top: seq<TopEntry>)
  {
    forall i :: 0 <= i < |top| && top[i].Group? ==> top[i].IsValidGroup()
  }

  /** No two entries share a key (the collection hands the builder a keyed set). */
  ghost predicate DistinctKeys(s: seq<Leaf>)
  {
    forall i, j :: 0 <= i < |s| && 0 <= j < |s| && i != j ==> s[i].Key() != s[j].Key()
  }

  /** Every group's summary is an entry posted as a summary. */
  ghost predicate SummariesMarked(top: seq<TopEntry>)
  {
    forall t :: t in top && t.Group? && t.summary.Some? ==> t.summary.value.isSummary
  }

  /** No leaf occurs twice. */
  ghost predicate NoDuplicates(s: seq<Leaf>)
  {
    forall x :: multiset(s)[x] <= 1
  }

  /** Adding an element at the end adds its leaves at the end. */
  lemma LeavesSnoc(s: seq<TopEntry>, t: TopEntry)
    ensures Leaves(s + [t]) == Leaves(s) + EntryLeaves(t)
  {
    assert (s + [t])[..|s|] == s;
  }

  lemma LeavesAppendStep(a: seq<TopEntry>, b: seq<TopEntry>, t: TopEntry)
    requires Leaves(a + b) == Leaves(a) + Leaves(b)
    ensures Leaves(a + (b + [t])) == Leaves(a) + Leaves(b + [t])
  {
    SeqAssoc(a, b, [t]);
    LeavesSnoc(a + b, t);
    LeavesSnoc(b, t);
    SeqAssoc(Leaves(a), Leaves(b), EntryLeaves(t));
  }

  lemma {:induction false} LeavesAppend(a: seq<TopEntry>, b: seq<TopEntry>)
    ensures Leaves(a + b) == Leaves(a) + Leaves(b)
    decreases |b|
  {
    if |b| == 0 {
      assert a + b == a;
    } else {
      var b', t := b[..|b| - 1], b[|b| - 1];
      SnocSplit(b);
      LeavesAppend(a, b');
      LeavesAppendStep(a, b', t);
    }
  }

  lemma LeavesOne(t: TopEntry)
    ensures Leaves([t]) == EntryLeaves(t)
  {
    assert [t][..0] == [];
  }

  /** Replacing one element of a list trades that element's leaves for the new one's. */
  lemma {:induction false} LeavesUpdate(top: seq<TopEntry>, i: nat, t: TopEntry)
    requires i < |top|
    ensures multiset(Leaves(top[i := t])) + multiset(EntryLeaves(top[i]))
         == multiset(Leaves(top)) + multiset(EntryLeaves(t))
    decreases |top|
  {
    var q := top[..|top| - 1];
    var last := top[|top| - 1];
    var mq, ml := multiset(Leaves(q)), multiset(EntryLeaves(last));
    assert multiset(Leaves(top)) == mq + ml by {
      SnocSplit(top);
      LeavesSnoc(q, last);
    }
    if i == |top| - 1 {
      assert multiset(Leaves(top[i := t])) == mq + multiset(EntryLeaves(t)) by {
        UpdateLast(top, t);
        LeavesSnoc(q, t);
      }
    } else {
      LeavesUpdate(q, i, t);
      var mu := multiset(Leaves(q[i := t]));
      assert multiset(Leaves(top[i := t])) == mu + ml by {
        UpdateFront(top, i, t);
        LeavesSnoc(q[i := t], last);
      }
      assert q[i] == top[i];
      BagShuffle(mu, multiset(EntryLeaves(top[i])), mq, multiset(EntryLeaves(t)), ml);
    }
  }

  /** Distinct keys means no duplicates. */
  lemma {:induction false} DistinctKeysNoDuplicates(s: seq<Leaf>)
    requires DistinctKeys(s)
    ensures NoDuplicates(s)
    decreases |s|
  {
    if |s| > 0 {
      var p := s[..|s| - 1];
      var x := s[|s| - 1];
      assert DistinctKeys(p);
      DistinctKeysNoDuplicates(p);
      assert s == p + [x];
      forall i | 0 <= i < |p| ensures p[i] != x {
        assert s[i] == p[i] && s[|s| - 1] == x;
      }
      forall y ensures multiset(s)[y] <= 1 {
        assert multiset(s) == multiset(p) + multiset{x};
      }
    }
  }

  /** Sub-multisets of a duplicate-free sequence are duplicate-free. */
  lemma NoDuplicatesSub(a: seq<Leaf>, b: seq<Leaf>)
    requires multiset(a) <= multiset(b) && NoDuplicates(b)
    ensures NoDuplicates(a)
  {
    forall x ensures multiset(a)[x] <= 1 {
      assert multiset(a)[x] <= multiset(b)[x];
    }
  }
}

/** Sectioning and sorting: each top-level element is given a section once,
 *  through the entry that represents it; each group's children are sorted by
 *  rank and `when`; then the top level is sorted by section, comparator chain,
 *  rank and `when`. */
module ShadeSort {
  import opened Entries
  import opened Sorting
  import opened Pluggables
  import opened Seqs
  import opened Selection

  /** An element a section can be computed for: a single, or a group with a summary. */
  predicate HasRep(t: TopEntry)
  {
    t.Single? || t.summary.Some?
  }

  ghost predicate AllHaveReps(top: seq<TopEntry>)
  {
    forall i :: 0 <= i < |top| ==> HasRep(top[i])
  }

  /** A list whose groups are all valid can be sectioned and sorted. */
  lemma ValidHasReps(top: seq<TopEntry>)
    requires AllGroupsValid(top)
    ensures AllHaveReps(top)
  {
    forall i | 0 <= i < |top| ensures HasRep(top[i]) {
      assert top[i].Group? ==> top[i].IsValidGroup();
    }
  }

  /** The entry that represents an element: itself, or the group's summary. */
  function Rep(t: TopEntry): Leaf
    requires HasRep(t)
  {
    if t.Single? then t.leaf else t.summary.value
  }

  function KeyOf(t: TopEntry, sp: SectionsProvider): (k: Keyed)
    requires HasRep(t)
    ensures k.entry == t && k.rep == Rep(t)
  {
    Keyed(t, Rep(t), GetSection(sp, Rep(t)))
  }

  function KeyAll(top: seq<TopEntry>, sp: SectionsProvider): (r: seq<Keyed>)
    requires AllHaveReps(top)
    ensures |r| == |top| && forall i :: 0 <= i < |top| ==> r[i] == KeyOf(top[i], sp)
  {
    seq(|top|, i requires 0 <= i < |top| => KeyOf(top[i], sp))
  }

  function Unkey(ks: seq<Keyed>): (r: seq<TopEntry>)
    ensures |r| == |ks| && forall i :: 0 <= i < |ks| ==> r[i] == ks[i].entry
  {
    seq(|ks|, i requires 0 <= i < |ks| => ks[i].entry)
  }

  /** The entries handed to the sections provider, one per element. */
  function Reps(top: seq<TopEntry>): (r: seq<Leaf>)
    requires AllHaveReps(top)
    ensures |r| == |top| && forall i :: 0 <= i < |top| ==> r[i] == Rep(top[i])
  {
    seq(|top|, i requires 0 <= i < |top| => Rep(top[i]))
  }

  function SortChildren(t: TopEntry): TopEntry
  {
    if t.Group? then t.(children := SortBy(t.children, ChildLe())) else t
  }

  function SortAllChildren(top: seq<TopEntry>): (r: seq<TopEntry>)
    ensures |r| == |top| && forall i :: 0 <= i < |top| ==> r[i] == SortChildren(top[i])
    ensures AllHaveReps(top) ==> AllHaveReps(r)
  {
    seq(|top|, i requires 0 <= i < |top| => SortChildren(top[i]))
  }

  /** The sorted list. */
  function SortTop(top: seq<TopEntry>, cs: seq<NotifComparator>, sp: SectionsProvider): seq<TopEntry>
    requires AllHaveReps(top)
  {
    var sorted := SortAllChildren(top);
    Unkey(SortBy(KeyAll(sorted, sp), TopLe(cs)))
  }

  /** Top-level elements in the order the builder promises: section first,
   *  then the first comparator that tells them apart, then rank ascending, then
   *  `when` descending. */
  ghost predicate TopSorted(top: seq<TopEntry>, cs: seq<NotifComparator>, sp: SectionsProvider)
  {
    forall i, j :: 0 <= i < j < |top| && HasRep(top[i]) && HasRep(top[j]) ==>
      TopCompare(cs, KeyOf(top[i], sp), KeyOf(top[j], sp)) <= 0
  }

  /** Each group's children ordered by rank ascending, then `when` descending. */
  ghost predicate ChildrenSorted(top: seq<TopEntry>)
  {
    forall i :: 0 <= i < |top| && top[i].Group? ==> SortedBy(top[i].children, ChildLe())
  }

  /** Keyed elements whose section and representative were computed from the element. */
  ghost predicate WellKeyed(ks: seq<Keyed>, sp: SectionsProvider)
  {
    forall k :: k in ks ==> HasRep(k.entry) && k == KeyOf(k.entry, sp)
  }

  lemma UnkeyAppend(a: seq<Keyed>, b: seq<Keyed>)
    ensures Unkey(a + b) == Unkey(a) + Unkey(b)
  {
  }

  /** Taking one element out of a keyed sequence takes its entry out of the entries. */
  lemma UnkeyRemove(b: seq<Keyed>, j: nat)
    requires j < |b|
    ensures multiset(Unkey(b)) == multiset(Unkey(b[..j] + b[j + 1..])) + multiset{b[j].entry}
  {
    var b1, b2 := b[..j], b[j + 1..];
    RemoveAt(b, j);
    UnkeyAppend(b1 + [b[j]], b2);
    UnkeyAppend(b1, [b[j]]);
    UnkeyAppend(b1, b2);
    assert Unkey([b[j]]) == [b[j].entry];
    var m1, m2 := multiset(Unkey(b1)), multiset(Unkey(b2));
    assert multiset(Unkey(b)) == m1 + multiset{b[j].entry} + m2;
    BagSwap(m1, multiset{b[j].entry}, m2);
  }

  lemma {:induction false} MapPermutes(a: seq<Keyed>, b: seq<Keyed>)
    requires multiset(a) == multiset(b)
    ensures multiset(Unkey(a)) == multiset(Unkey(b))
    decreases |a|
  {
    if |a| > 0 {
      var x, a' := a[|a| - 1], a[..|a| - 1];
      var j := MatchLast(a, b);
      MapPermutes(a', b[..j] + b[j + 1..]);
      UnkeyRemove(b, j);
      assert Unkey(a) == Unkey(a') + [x.entry] by {
        SnocSplit(a);
        UnkeyAppend(a', [x]);
      }
    } else {
      assert |multiset(b)| == 0;
      assert b == [];
    }
  }

  /** Taking one element out of a list takes its leaves out of the leaves. */
  lemma LeavesRemove(b: seq<TopEntry>, j: nat)
    requires j < |b|
    ensures multiset(Leaves(b)) == multiset(Leaves(b[..j] + b[j + 1..])) + multiset(EntryLeaves(b[j]))
  {
    var b1, b2 := b[..j], b[j + 1..];
    RemoveAt(b, j);
    LeavesAppend(b1 + [b[j]], b2);
    LeavesAppend(b1, [b[j]]);
    LeavesAppend(b1, b2);
    LeavesOne(b[j]);
    var m1, m2, mx := multiset(Leaves(b1)), multiset(Leaves(b2)), multiset(EntryLeaves(b[j]));
    assert multiset(Leaves(b)) == m1 + mx + m2;
    BagSwap(m1, mx, m2);
  }

  /** Reordering the elements of a list reorders its leaves and nothing more. */
  lemma {:induction false} LeavesPermute(a: seq<TopEntry>, b: seq<TopEntry>)
    requires multiset(a) == multiset(b)
    ensures multiset(Leaves(a)) == multiset(Leaves(b))
    decreases |a|
  {
    if |a| > 0 {
      var x, a' := a[|a| - 1], a[..|a| - 1];
      var j := MatchLast(a, b);
      LeavesPermute(a', b[..j] + b[j + 1..]);
      LeavesRemove(b, j);
      assert Leaves(a) == Leaves(a') + EntryLeaves(x) by {
        SnocSplit(a);
        LeavesSnoc(a', x);
      }
    } else {
      assert |multiset(b)| == 0;
      assert b == [];
    }
  }

  lemma {:induction false} SortChildrenLeaves(top: seq<TopEntry>)
    ensures multiset(Leaves(SortAllChildren(top))) == multiset(Leaves(top))
    decreases |top|
  {
    if |top| > 0 {
      var q := top[..|top| - 1];
      var t := top[|top| - 1];
      SortChildrenLeaves(q);
      assert SortAllChildren(top)[..|top| - 1] == SortAllChildren(q);
      if t.Group? {
        SortByPermutes(t.children, ChildLe());
      }
    }
  }

  /** Sorting reorders the leaves of the list and nothing more. */
  lemma SortTopAccounts(top: seq<TopEntry>, cs: seq<NotifComparator>, sp: SectionsProvider)
    requires AllHaveReps(top)
    ensures multiset(Leaves(SortTop(top, cs, sp))) == multiset(Leaves(top))
  {
    var sorted := SortAllChildren(top);
    var ks := KeyAll(sorted, sp);
    SortByPermutes(ks, TopLe(cs));
    MapPermutes(SortBy(ks, TopLe(cs)), ks);
    assert Unkey(ks) == sorted;
    LeavesPermute(SortTop(top, cs, sp), sorted);
    SortChildrenLeaves(top);
  }

  /** The sorted list holds the same elements, each with its children sorted,
   *  in the promised order. */
  lemma SortTopSorted(top: seq<TopEntry>, cs: seq<NotifComparator>, sp: SectionsProvider)
    requires AllHaveReps(top)
    ensures multiset(SortTop(top, cs, sp)) == multiset(SortAllChildren(top))
    ensures TopSorted(SortTop(top, cs, sp), cs, sp)
    ensures ChildrenSorted(SortTop(top, cs, sp))
    ensures AllHaveReps(SortTop(top, cs, sp))
    ensures forall x {:trigger TiedTop(cs, sp, x)} ::
      Select(SortTop(top, cs, sp), TiedTop(cs, sp, x)) == Select(SortAllChildren(top), TiedTop(cs, sp, x))
  {
    forall x ensures Select(SortTop(top, cs, sp), TiedTop(cs, sp, x)) == Select(SortAllChildren(top), TiedTop(cs, sp, x)) {
      SortTopStable(top, cs, sp, x);
    }
    var sorted := SortAllChildren(top);
    var ks := KeyAll(sorted, sp);
    var out := SortBy(ks, TopLe(cs));
    SortByPermutes(ks, TopLe(cs));
    MapPermutes(out, ks);
    assert Unkey(ks) == sorted;
    TopOrderIsTotalPreorder(cs);
    SortBySorted(ks, TopLe(cs));
    forall k | k in out ensures HasRep(k.entry) && k == KeyOf(k.entry, sp) && k.entry in sorted {
      assert k in multiset(ks);
    }
    var r := Unkey(out);
    forall i, j | 0 <= i < j < |r| && HasRep(r[i]) && HasRep(r[j])
      ensures TopCompare(cs, KeyOf(r[i], sp), KeyOf(r[j], sp)) <= 0
    {
      assert out[i] in out && out[j] in out;
      assert TopLe(cs)(out[i], out[j]);
    }
    forall i | 0 <= i < |r| ensures HasRep(r[i]) {
      assert out[i] in out;
    }
    ChildOrderIsTotalPreorder();
    forall i | 0 <= i < |r| && r[i].Group? ensures SortedBy(r[i].children, ChildLe()) {
      assert out[i] in out;
      var m :| 0 <= m < |sorted| && sorted[m] == r[i];
      SortBySorted(top[m].children, ChildLe());
    }
  }

  /** Computes each element's section once, sorts each group's children, then
   *  sorts the top level; returns the sorted list and the entries the sections
   *  provider was asked about, in the order it was asked. */
  method SortShade(top: seq<TopEntry>, cs: seq<NotifComparator>, sp: SectionsProvider)
    returns (out: seq<TopEntry>, sectioned: seq<Leaf>)
    requires AllHaveReps(top)
    ensures out == SortTop(top, cs, sp)
    ensures sectioned == Reps(top)
  {
    var keyed: seq<Keyed> := [];
    sectioned := [];
    var i := 0;
    while i < |top|
      invariant 0 <= i <= |top|
      invariant |keyed| == i && forall j :: 0 <= j < i ==> keyed[j] == KeyOf(SortChildren(top[j]), sp)
      invariant sectioned == Reps(top[..i])
    {
      var t := top[i];
      var rep := if t.Single? then t.leaf else t.summary.value;
      var section := GetSection(sp, rep);
      sectioned := sectioned + [rep];
      var entry := t;
      if t.Group? {
        entry := t.(children := SortBy(t.children, ChildLe()));
      }
      keyed := keyed + [Keyed(entry, rep, section)];
      i := i + 1;
    }
    assert top[..i] == top;
    var sorted := SortAllChildren(top);
    assert keyed == KeyAll(sorted, sp);
    out := Unkey(SortBy(keyed, TopLe(cs)));
  }

  /** The elements whose representatives the top-level order ties with `x`. */
  function TiedTop(cs: seq<NotifComparator>, sp: SectionsProvider, x: Leaf): TopEntry -> bool
  {
    (t: TopEntry) => HasRep(t) && TiedWith(RepLe(cs, sp), x)(Rep(t))
  }

  /** Selecting from the unkeyed list is selecting by entry from the keyed one. */
  lemma {:induction false} UnkeySelect(ks: seq<Keyed>, q: TopEntry -> bool)
    ensures Select(Unkey(ks), q) == Unkey(Select(ks, (k: Keyed) => q(k.entry)))
    decreases |ks|
  {
    if |ks| > 0 {
      var init := ks[..|ks| - 1];
      UnkeySelect(init, q);
      assert Unkey(ks)[..|ks| - 1] == Unkey(init);
      var last := ks[|ks| - 1];
      UnkeyAppend(Select(init, (k: Keyed) => q(k.entry)), if q(last.entry) then [last] else []);
    }
  }

  /** A keyed element ties with `x` under the top-level order exactly when its
   *  representative does under `RepLe`. */
  lemma KeyTie(cs: seq<NotifComparator>, sp: SectionsProvider, x: Leaf, k: Keyed)
    requires HasRep(k.entry) && k == KeyOf(k.entry, sp)
    ensures TiedWith(TopLe(cs), KeyOf(Single(x), sp))(k) == TiedTop(cs, sp, x)(k.entry)
  {
    var kx := KeyOf(Single(x), sp);
    assert Rep(Single(x)) == x;
    CompareByReps(cs, sp, Single(x), k.entry);
    CompareByReps(cs, sp, k.entry, Single(x));
    assert TopLe(cs)(kx, k) == RepLe(cs, sp)(x, Rep(k.entry));
    assert TopLe(cs)(k, kx) == RepLe(cs, sp)(Rep(k.entry), x);
    assert TiedWith(TopLe(cs), kx)(k) == (TopLe(cs)(kx, k) && TopLe(cs)(k, kx));
    assert TiedWith(RepLe(cs, sp), x)(Rep(k.entry)) == (RepLe(cs, sp)(x, Rep(k.entry)) && RepLe(cs, sp)(Rep(k.entry), x));
  }

  /** The top-level sort is stable: elements the order ties keep the order they
   *  had after their children were sorted. */
  lemma SortTopStable(top: seq<TopEntry>, cs: seq<NotifComparator>, sp: SectionsProvider, x: Leaf)
    requires AllHaveReps(top)
    ensures Select(SortTop(top, cs, sp), TiedTop(cs, sp, x)) == Select(SortAllChildren(top), TiedTop(cs, sp, x))
  {
    var sorted := SortAllChildren(top);
    var ks := KeyAll(sorted, sp);
    var out := SortBy(ks, TopLe(cs));
    var q := TiedTop(cs, sp, x);
    var byEntry := (k: Keyed) => q(k.entry);
    var tied := TiedWith(TopLe(cs), KeyOf(Single(x), sp));
    TopOrderIsTotalPreorder(cs);
    SortByStable(ks, TopLe(cs), KeyOf(Single(x), sp));
    SortByPermutes(ks, TopLe(cs));
    forall k | k in ks ensures byEntry(k) == tied(k) {
      KeyTie(cs, sp, x, k);
    }
    forall k | k in out ensures byEntry(k) == tied(k) {
      assert k in multiset(ks);
      KeyTie(cs, sp, x, k);
    }
    SelectCongruent(ks, byEntry, tied);
    SelectCongruent(out, byEntry, tied);
    UnkeySelect(out, q);
    UnkeySelect(ks, q);
    assert Unkey(ks) == sorted;
  }

  /** Sorting a group's children is stable: children of equal rank and `when`
   *  keep their order. */
  lemma SortChildrenStable(t: TopEntry, c: Leaf)
    requires t.Group?
    ensures Select(SortChildren(t).children, TiedWith(ChildLe(), c)) == Select(t.children, TiedWith(ChildLe(), c))
  {
    ChildOrderIsTotalPreorder();
    SortByStable(t.children, ChildLe(), c);
  }

  /** The representatives of the elements that have one, in list order. */
  function RepsOf(top: seq<TopEntry>): seq<Leaf>
    decreases |top|
  {
    if |top| == 0 then []
    else
      var t := top[|top| - 1];
      RepsOf(top[..|top| - 1]) + (if HasRep(t) then [Rep(t)] else [])
  }

  lemma {:induction false} RepsOfAppend(a: seq<TopEntry>, b: seq<TopEntry>)
    ensures RepsOf(a + b) == RepsOf(a) + RepsOf(b)
    decreases |b|
  {
    if |b| == 0 {
      assert a + b == a;
    } else {
      var b' := b[..|b| - 1];
      assert (a + b)[..|a + b| - 1] == a + b';
      assert (a + b)[|a + b| - 1] == b[|b| - 1];
      RepsOfAppend(a, b');
    }
  }

  lemma {:induction false} RepsOfAll(top: seq<TopEntry>)
    requires AllHaveReps(top)
    ensures RepsOf(top) == Reps(top)
    decreases |top|
  {
    if |top| > 0 {
      var q, t := top[..|top| - 1], top[|top| - 1];
      assert AllHaveReps(q) by {
        forall i | 0 <= i < |q| ensures HasRep(q[i]) { assert q[i] == top[i]; }
      }
      RepsOfAll(q);
      assert RepsOf(top) == Reps(q) + [Rep(t)];
      assert Reps(top) == Reps(q) + [Rep(t)];
    }
  }

  /** The order of two representatives, each compared as the element it stands for. */
  function RepLe(cs: seq<NotifComparator>, sp: SectionsProvider): (Leaf, Leaf) -> bool
  {
    (a: Leaf, b: Leaf) => TopCompare(cs, KeyOf(Single(a), sp), KeyOf(Single(b), sp)) <= 0
  }

  /** Comparing two elements is comparing their representatives as singles. */
  lemma CompareByReps(cs: seq<NotifComparator>, sp: SectionsProvider, s: TopEntry, t: TopEntry)
    requires HasRep(s) && HasRep(t)
    ensures TopCompare(cs, KeyOf(s, sp), KeyOf(t, sp)) <= 0 <==> RepLe(cs, sp)(Rep(s), Rep(t))
  {
    var a, b := KeyOf(s, sp), KeyOf(t, sp);
    var a', b' := KeyOf(Single(Rep(s)), sp), KeyOf(Single(Rep(t)), sp);
    assert a.rep == a'.rep && a.section == a'.section;
    assert b.rep == b'.rep && b.section == b'.section;
    assert TopCompare(cs, a, b) == TopCompare(cs, a', b');
  }

  lemma TopSortedRepsSorted(top: seq<TopEntry>, cs: seq<NotifComparator>, sp: SectionsProvider)
    requires AllHaveReps(top) && TopSorted(top, cs, sp)
    ensures SortedBy(RepsOf(top), RepLe(cs, sp))
  {
    RepsOfAll(top);
    var r := RepsOf(top);
    forall i, j | 0 <= i < j < |r| ensures RepLe(cs, sp)(r[i], r[j]) {
      CompareByReps(cs, sp, top[i], top[j]);
    }
  }

  lemma RepsSortedTopSorted(top: seq<TopEntry>, cs: seq<NotifComparator>, sp: SectionsProvider)
    requires AllHaveReps(top) && SortedBy(RepsOf(top), RepLe(cs, sp))
    ensures TopSorted(top, cs, sp)
  {
    RepsOfAll(top);
    var r := RepsOf(top);
    forall i, j | 0 <= i < j < |top| && HasRep(top[i]) && HasRep(top[j])
      ensures TopCompare(cs, KeyOf(top[i], sp), KeyOf(top[j], sp)) <= 0
    {
      CompareByReps(cs, sp, top[i], top[j]);
      assert RepLe(cs, sp)(r[i], r[j]);
    }
  }

  /** The top-level order is an order on representatives alone. */
  lemma TopSortedIffRepsSorted(top: seq<TopEntry>, cs: seq<NotifComparator>, sp: SectionsProvider)
    requires AllHaveReps(top)
    ensures TopSorted(top, cs, sp) <==> SortedBy(RepsOf(top), RepLe(cs, sp))
  {
    if TopSorted(top, cs, sp) { TopSortedRepsSorted(top, cs, sp); }
    if SortedBy(RepsOf(top), RepLe(cs, sp)) { RepsSortedTopSorted(top, cs, sp); }
  }

  /** Sorting moves elements and their children, and keeps each summary where it was. */
  lemma SortTopMarked(top: seq<TopEntry>, cs: seq<NotifComparator>, sp: SectionsProvider)
    requires AllHaveReps(top) && SummariesMarked(top)
    ensures SummariesMarked(SortTop(top, cs, sp))
  {
    SortTopSorted(top, cs, sp);
    var sorted := SortAllChildren(top);
    forall t | t in SortTop(top, cs, sp) && t.Group? && t.summary.Some? ensures t.summary.value.isSummary {
      assert t in multiset(sorted);
      var i :| 0 <= i < |sorted| && sorted[i] == t;
      assert top[i] in top;
    }
  }

  lemma RepsOfOne(t: TopEntry)
    ensures RepsOf([t]) == if HasRep(t) then [Rep(t)] else []
  {
    assert [t][..0] == [];
  }
}

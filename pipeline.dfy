/** One build pass of the list builder as a function of the entries it is
 *  handed, the registered pluggables and the time the pass started: pre-group
 *  filter, group, prune, promote, prune, section and sort, pre-render filter,
 *  prune.  The lemmas here are the promises the builder makes about the list it
 *  renders and about what each stage saw. */
module Pipeline {
  import opened Entries
  import opened Sorting
  import opened Selection
  import opened Pluggables
  import opened Filtering
  import opened Grouping
  import opened Pruning
  import opened Promoting
  import opened ShadeSort
  import opened Seqs

  /** The pluggables registered with the builder, in registration order. */
  datatype Chains = Chains(preGroup: seq<NotifFilter>, promoters: seq<NotifPromoter>,
                           sections: SectionsProvider, comparators: seq<NotifComparator>,
                           preRender: seq<NotifFilter>)

  /** Every intermediate list of a pass: what each stage and listener saw. */
  datatype Pass = Pass(
    filtered: seq<Leaf>,   // the entries the pre-group chain kept
    grouping: Grouping,    // groups formed, and summaries that lost to a later one
    transformed: Pruned,   // first prune; its list goes to the before-transform listeners
    promotion: Promoted,
    beforeSort: Pruned,    // second prune; its list goes to the before-sort listeners
    sorted: seq<TopEntry>,
    screened: seq<TopEntry>, // after the pre-render chain
    rendered: Pruned)      // last prune; its list is rendered
  {
    function Final(): seq<TopEntry> { rendered.list }
  }

  function RunPass(entries: seq<Leaf>, c: Chains, now: int): Pass
  {
    var filtered := Kept(entries, c.preGroup, now);
    var g := GroupAll(filtered);
    var p1 := PruneAll(g.top);
    var pr := PromoteAll(p1.list, c.promoters);
    var p2 := PruneAll(pr.List());
    PruneAllValid(pr.List());
    ValidHasReps(p2.list);
    var sorted := SortTop(p2.list, c.comparators, c.sections);
    var screened := FilterTop(sorted, c.preRender, now);
    Pass(filtered, g, p1, pr, p2, sorted, screened, PruneAll(screened))
  }

  /** The list handed to the sorter has a representative for every element. */
  lemma SortInputHasReps(entries: seq<Leaf>, c: Chains, now: int)
    ensures AllGroupsValid(RunPass(entries, c, now).beforeSort.list)
    ensures AllHaveReps(RunPass(entries, c, now).beforeSort.list)
  {
    var p := RunPass(entries, c, now);
    PruneAllValid(p.promotion.List());
    ValidHasReps(p.beforeSort.list);
  }

  /** The stages up to the before-transform listeners: pre-group filter,
   *  group, prune. */
  method GroupStage(entries: seq<Leaf>, c: Chains, now: int)
    returns (filtered: seq<Leaf>, grouping: Grouping, transformed: Pruned)
    ensures var p := RunPass(entries, c, now);
      filtered == p.filtered && grouping == p.grouping && transformed == p.transformed
  {
    var verdicts;
    filtered, verdicts := FilterNotifs(entries, c.preGroup, now);
    var top, discarded := GroupNotifs(filtered);
    grouping := Grouping(top, discarded);
    var list, annulled := PruneIncompleteGroups(top);
    transformed := Pruned(list, annulled);
  }

  /** The stages between the before-transform and the before-sort listeners:
   *  promote, prune. */
  method TransformStage(entries: seq<Leaf>, c: Chains, now: int, transformed: Pruned)
    returns (promotion: Promoted, beforeSort: Pruned)
    requires transformed == RunPass(entries, c, now).transformed
    ensures var p := RunPass(entries, c, now);
      promotion == p.promotion && beforeSort == p.beforeSort
  {
    var updated, promoted := PromoteNotifs(transformed.list, c.promoters);
    promotion := Promoted(updated, promoted);
    var list, annulled := PruneIncompleteGroups(promotion.List());
    beforeSort := Pruned(list, annulled);
  }

  /** The stages between the before-sort and the before-render listeners:
   *  section and sort, pre-render filter, prune. */
  method SortStage(entries: seq<Leaf>, c: Chains, now: int, beforeSort: Pruned)
    returns (sorted: seq<TopEntry>, screened: seq<TopEntry>, rendered: Pruned)
    requires beforeSort == RunPass(entries, c, now).beforeSort
    ensures var p := RunPass(entries, c, now);
      sorted == p.sorted && screened == p.screened && rendered == p.rendered
  {
    SortInputHasReps(entries, c, now);
    var sectioned;
    sorted, sectioned := SortShade(beforeSort.list, c.comparators, c.sections);
    screened := FilterShade(sorted, c.preRender, now);
    var list, annulled := PruneIncompleteGroups(screened);
    rendered := Pruned(list, annulled);
  }

  /** The parent an element gives the leaves it holds. */
  function ParentIn(t: TopEntry): (r: Parent)
    ensures r != NoParent
  {
    if t.Single? then Root else InGroup(t.key)
  }

  /** The parent of an entry in a built list: the element holding it, or none
   *  when the list does not hold it. */
  function ParentOf(top: seq<TopEntry>, x: Leaf): Parent
    decreases |top|
  {
    if |top| == 0 then NoParent
    else
      var t := top[|top| - 1];
      if x in EntryLeaves(t) then ParentIn(t) else ParentOf(top[..|top| - 1], x)
  }

  /** An entry has no parent exactly when the list does not hold it. */
  lemma {:induction false} ParentOfNone(top: seq<TopEntry>, x: Leaf)
    ensures ParentOf(top, x) == NoParent <==> x !in Leaves(top)
    decreases |top|
  {
    if |top| > 0 {
      var q, t := top[..|top| - 1], top[|top| - 1];
      ParentOfNone(q, x);
      assert Leaves(top) == Leaves(q) + EntryLeaves(t) by {
        SnocSplit(top);
        LeavesSnoc(q, t);
      }
    }
  }

  lemma SplitAt(top: seq<TopEntry>, i: nat)
    requires i < |top|
    ensures top == (top[..i] + [top[i]]) + top[i + 1..]
  {
    assert top[..i + 1] == top[..i] + [top[i]];
    assert top == top[..i + 1] + top[i + 1..];
  }

  /** The leaves of a list around one of its elements. */
  lemma LeavesAround(top: seq<TopEntry>, i: nat)
    requires i < |top|
    ensures multiset(Leaves(top))
         == multiset(Leaves(top[..i])) + multiset(EntryLeaves(top[i])) + multiset(Leaves(top[i + 1..]))
  {
    var a, b := top[..i], top[i + 1..];
    SplitAt(top, i);
    LeavesAppend(a + [top[i]], b);
    LeavesAppend(a, [top[i]]);
    LeavesOne(top[i]);
    var l := Leaves(a) + EntryLeaves(top[i]) + Leaves(b);
    assert Leaves(top) == l;
    assert multiset(l) == multiset(Leaves(a)) + multiset(EntryLeaves(top[i])) + multiset(Leaves(b));
  }

  /** The leaves of one element are among the leaves of the list. */
  lemma EntryWithin(top: seq<TopEntry>, i: nat)
    requires i < |top|
    ensures multiset(EntryLeaves(top[i])) <= multiset(Leaves(top))
  {
    LeavesAround(top, i);
  }

  /** The leaves of two different elements are, together, among the leaves of the list. */
  lemma TwoEntriesWithin(top: seq<TopEntry>, i: nat, j: nat)
    requires i < j < |top|
    ensures multiset(EntryLeaves(top[i])) + multiset(EntryLeaves(top[j])) <= multiset(Leaves(top))
  {
    LeavesAround(top, j);
    EntryWithin(top[..j], i);
    assert top[..j][i] == top[i];
  }

  /** In a list without duplicate leaves, no two elements share a leaf. */
  lemma EntriesDisjoint(top: seq<TopEntry>, i: nat, j: nat, x: Leaf)
    requires i < |top| && j < |top| && i != j && NoDuplicates(Leaves(top))
    requires x in EntryLeaves(top[i])
    ensures x !in EntryLeaves(top[j])
  {
    if i < j { TwoEntriesWithin(top, i, j); } else { TwoEntriesWithin(top, j, i); }
    assert multiset(Leaves(top))[x] <= 1;
    assert multiset(EntryLeaves(top[i]))[x] >= 1;
  }

  /** An entry the last element does not hold gets its parent from the front. */
  lemma ParentOfFront(top: seq<TopEntry>, x: Leaf)
    requires |top| > 0 && x !in EntryLeaves(top[|top| - 1])
    ensures ParentOf(top, x) == ParentOf(top[..|top| - 1], x)
  {
  }

  /** An entry of the last element gets that element as its parent. */
  lemma ParentOfLast(top: seq<TopEntry>, x: Leaf)
    requires |top| > 0 && x in EntryLeaves(top[|top| - 1])
    ensures ParentOf(top, x) == ParentIn(top[|top| - 1])
  {
  }

  /** An entry held by one element and by none after it gets that element as its parent. */
  lemma {:induction false} ParentOfLastHolder(top: seq<TopEntry>, i: nat, x: Leaf)
    requires i < |top| && x in EntryLeaves(top[i])
    requires forall j :: i < j < |top| ==> x !in EntryLeaves(top[j])
    ensures ParentOf(top, x) == ParentIn(top[i])
    decreases |top|
  {
    if i < |top| - 1 {
      var q := top[..|top| - 1];
      assert q[i] == top[i];
      assert forall j :: i < j < |q| ==> q[j] == top[j];
      ParentOfLastHolder(q, i, x);
      ParentOfFront(top, x);
    } else {
      ParentOfLast(top, x);
    }
  }

  /** In a list without duplicate leaves, an entry's parent is the element that holds it. */
  lemma ParentOfAt(top: seq<TopEntry>, i: nat, x: Leaf)
    requires i < |top| && NoDuplicates(Leaves(top)) && x in EntryLeaves(top[i])
    ensures ParentOf(top, x) == ParentIn(top[i])
  {
    forall j | i < j < |top| ensures x !in EntryLeaves(top[j]) {
      EntriesDisjoint(top, i, j, x);
    }
    ParentOfLastHolder(top, i, x);
  }

  /** The leaves of the sorted list, with the summaries the two prunes and the
   *  grouping discarded, are exactly the entries the pre-group chain kept. */
  lemma PassAccounts(entries: seq<Leaf>, c: Chains, now: int)
    ensures var p := RunPass(entries, c, now);
      multiset(Leaves(p.sorted)) + multiset(p.beforeSort.annulled) + multiset(p.transformed.annulled)
        + multiset(p.grouping.discarded) == multiset(p.filtered)
  {
    var p := RunPass(entries, c, now);
    SortInputHasReps(entries, c, now);
    GroupAllAccounts(p.filtered);
    PruneAllAccounts(p.grouping.top);
    PromoteAllAccounts(p.transformed.list, c.promoters);
    PruneAllAccounts(p.promotion.List());
    SortTopAccounts(p.beforeSort.list, c.comparators, c.sections);
    var a, b, d, e := multiset(Leaves(p.sorted)), multiset(p.beforeSort.annulled),
                      multiset(p.transformed.annulled), multiset(p.grouping.discarded);
    assert a + b == multiset(Leaves(p.transformed.list));
    assert a + b + d == multiset(Leaves(p.grouping.top));
  }

  /** The leaves that reach the renderer are the leaves of the sorted list the
   *  pre-render chain keeps, less the summaries the last prune discards. */
  lemma RenderAccounts(entries: seq<Leaf>, c: Chains, now: int)
    ensures var p := RunPass(entries, c, now);
      && Leaves(p.screened) == Kept(Leaves(p.sorted), c.preRender, now)
      && multiset(Leaves(p.Final())) + multiset(p.rendered.annulled) == multiset(Leaves(p.screened))
  {
    var p := RunPass(entries, c, now);
    FilterTopLeaves(p.sorted, c.preRender, now);
    PruneAllAccounts(p.screened);
  }

  /** Every group of the rendered list has a summary and at least two children. */
  lemma FinalValid(entries: seq<Leaf>, c: Chains, now: int)
    ensures AllGroupsValid(RunPass(entries, c, now).Final())
    ensures AllHaveReps(RunPass(entries, c, now).Final())
  {
    var p := RunPass(entries, c, now);
    PruneAllValid(p.screened);
    ValidHasReps(p.Final());
  }

  /** Every summary slot along the pass holds a summary, and everything the pass
   *  discards is a summary. */
  lemma PassMarked(entries: seq<Leaf>, c: Chains, now: int)
    ensures var p := RunPass(entries, c, now);
      && SummariesMarked(p.sorted)
      && (forall x :: x in p.grouping.discarded ==> x.isSummary)
      && (forall x :: x in p.transformed.annulled ==> x.isSummary)
      && (forall x :: x in p.beforeSort.annulled ==> x.isSummary)
      && (forall x :: x in p.rendered.annulled ==> x.isSummary)
  {
    var p := RunPass(entries, c, now);
    SortInputHasReps(entries, c, now);
    GroupAllMarked(p.filtered);
    PruneAllMarked(p.grouping.top);
    PromoteAllMarked(p.transformed.list, c.promoters);
    PruneAllMarked(p.promotion.List());
    SortTopMarked(p.beforeSort.list, c.comparators, c.sections);
    FilterTopMarked(p.sorted, c.preRender, now);
    PruneAllMarked(p.screened);
  }

  /** The sorted list, which the pre-render chain is run over, holds only entries
   *  the pre-group chain let through; and it holds every such entry that is not
   *  a summary. */
  lemma SortedMembers(entries: seq<Leaf>, c: Chains, now: int, x: Leaf)
    ensures var p := RunPass(entries, c, now);
      && (x in Leaves(p.sorted) ==> x in entries && FirstRejecting(c.preGroup, x, now).None?)
      && (!x.isSummary && x in entries && FirstRejecting(c.preGroup, x, now).None? ==> x in Leaves(p.sorted))
  {
    var p := RunPass(entries, c, now);
    PassAccounts(entries, c, now);
    PassMarked(entries, c, now);
    KeptMembers(entries, c.preGroup, now, x);
    SelectMembers(entries, Passes(c.preGroup, now), x);
    if x in Leaves(p.sorted) {
      assert x in multiset(p.filtered);
    }
    if !x.isSummary && x in p.filtered {
      assert x in multiset(p.filtered);
      assert x !in multiset(p.beforeSort.annulled) && x !in multiset(p.transformed.annulled)
          && x !in multiset(p.grouping.discarded);
      assert x in multiset(Leaves(p.sorted));
    }
  }

  /** Soundness: a rendered entry was handed to the builder and neither chain
   *  excluded it. */
  lemma FinalSound(entries: seq<Leaf>, c: Chains, now: int, x: Leaf)
    requires x in Leaves(RunPass(entries, c, now).Final())
    ensures x in entries
    ensures FirstRejecting(c.preGroup, x, now).None? && FirstRejecting(c.preRender, x, now).None?
  {
    var p := RunPass(entries, c, now);
    RenderAccounts(entries, c, now);
    assert x in multiset(Leaves(p.screened));
    SelectMembers(Leaves(p.sorted), Passes(c.preRender, now), x);
    SortedMembers(entries, c, now, x);
  }

  /** Completeness: an entry that is not a summary is rendered exactly when it was
   *  handed to the builder and neither chain excluded it. */
  lemma FinalComplete(entries: seq<Leaf>, c: Chains, now: int, x: Leaf)
    requires !x.isSummary
    ensures x in Leaves(RunPass(entries, c, now).Final())
        <==> x in entries && FirstRejecting(c.preGroup, x, now).None? && FirstRejecting(c.preRender, x, now).None?
  {
    var p := RunPass(entries, c, now);
    if x in Leaves(p.Final()) {
      FinalSound(entries, c, now, x);
    }
    if x in entries && FirstRejecting(c.preGroup, x, now).None? && FirstRejecting(c.preRender, x, now).None? {
      SortedMembers(entries, c, now, x);
      RenderAccounts(entries, c, now);
      PassMarked(entries, c, now);
      SelectMembers(Leaves(p.sorted), Passes(c.preRender, now), x);
      assert x in multiset(Leaves(p.screened));
      assert x !in multiset(p.rendered.annulled);
      assert x in multiset(Leaves(p.Final()));
    }
  }

  /** Entries with distinct keys appear at most once in every list of the pass. */
  lemma PassNoDuplicates(entries: seq<Leaf>, c: Chains, now: int)
    requires DistinctKeys(entries)
    ensures var p := RunPass(entries, c, now);
      && NoDuplicates(p.filtered)
      && NoDuplicates(Leaves(p.beforeSort.list))
      && NoDuplicates(Leaves(p.sorted))
      && NoDuplicates(Leaves(p.Final()))
  {
    var p := RunPass(entries, c, now);
    SortInputHasReps(entries, c, now);
    DistinctKeysNoDuplicates(entries);
    SelectPartition(entries, Passes(c.preGroup, now));
    NoDuplicatesSub(p.filtered, entries);
    PassAccounts(entries, c, now);
    NoDuplicatesSub(Leaves(p.sorted), p.filtered);
    SortTopAccounts(p.beforeSort.list, c.comparators, c.sections);
    NoDuplicatesSub(Leaves(p.beforeSort.list), Leaves(p.sorted));
    RenderAccounts(entries, c, now);
    SelectPartition(Leaves(p.sorted), Passes(c.preRender, now));
    NoDuplicatesSub(Leaves(p.screened), Leaves(p.sorted));
    NoDuplicatesSub(Leaves(p.Final()), Leaves(p.screened));
  }

  /** The parents the pass gives: an entry the rendered list holds gets the
   *  element that holds it (the root for a single, the group otherwise); any
   *  other entry gets none. */
  lemma FinalParents(entries: seq<Leaf>, c: Chains, now: int, x: Leaf)
    requires DistinctKeys(entries)
    ensures var f := RunPass(entries, c, now).Final();
      && (x !in Leaves(f) ==> ParentOf(f, x) == NoParent)
      && (forall i :: 0 <= i < |f| && x in EntryLeaves(f[i]) ==> ParentOf(f, x) == ParentIn(f[i]))
  {
    var f := RunPass(entries, c, now).Final();
    PassNoDuplicates(entries, c, now);
    ParentOfNone(f, x);
    forall i | 0 <= i < |f| && x in EntryLeaves(f[i]) ensures ParentOf(f, x) == ParentIn(f[i]) {
      ParentOfAt(f, i, x);
    }
  }

  /** A summary held only once in its group is not also one of its children. */
  lemma SummaryNotChild(t: TopEntry)
    requires t.Group? && t.summary.Some? && NoDuplicates(EntryLeaves(t))
    ensures t.summary.value !in t.children
  {
    var x := t.summary.value;
    assert multiset(EntryLeaves(t)) == multiset{x} + multiset(t.children);
    assert multiset(EntryLeaves(t))[x] <= 1;
    assert multiset(t.children)[x] == 0;
  }

  /** In a list without duplicate leaves, an element's representative is no
   *  group's child. */
  lemma RepNotChild(top: seq<TopEntry>, j: nat, i: nat)
    requires NoDuplicates(Leaves(top)) && j < |top| && i < |top| && HasRep(top[j]) && top[i].Group?
    ensures Rep(top[j]) !in top[i].children
  {
    var x := Rep(top[j]);
    assert x in EntryLeaves(top[j]);
    if i != j {
      EntriesDisjoint(top, j, i, x);
    } else {
      EntryWithin(top, j);
      NoDuplicatesSub(EntryLeaves(top[j]), Leaves(top));
      SummaryNotChild(top[j]);
    }
  }

  /** What the sections provider is asked about: one representative per
   *  top-level element of the list being sorted (a single's entry, a group's
   *  summary), each an entry the pre-group chain let through, and never a
   *  child of a group. */
  lemma SectionedEntries(entries: seq<Leaf>, c: Chains, now: int, j: nat)
    requires DistinctKeys(entries)
    requires j < |RunPass(entries, c, now).beforeSort.list|
    ensures var top := RunPass(entries, c, now).beforeSort.list;
      && HasRep(top[j])
      && Rep(top[j]) in entries && FirstRejecting(c.preGroup, Rep(top[j]), now).None?
      && forall i :: 0 <= i < |top| && top[i].Group? ==> Rep(top[j]) !in top[i].children
  {
    var p := RunPass(entries, c, now);
    var top := p.beforeSort.list;
    SortInputHasReps(entries, c, now);
    var x := Rep(top[j]);
    assert x in multiset(Leaves(p.sorted)) by {
      assert x in EntryLeaves(top[j]);
      EntryWithin(top, j);
      SortTopAccounts(top, c.comparators, c.sections);
    }
    SortedMembers(entries, c, now, x);
    PassNoDuplicates(entries, c, now);
    forall i | 0 <= i < |top| && top[i].Group? ensures x !in top[i].children {
      RepNotChild(top, j, i);
    }
  }

  lemma FilterEntryRepsSubseq(t: TopEntry, fs: seq<NotifFilter>, now: int)
    ensures Subseq(RepsOf(FilterEntry(t, fs, now)), RepsOf([t]))
  {
    RepsOfOne(t);
    var f := FilterEntry(t, fs, now);
    if |f| == 1 {
      RepsOfOne(f[0]);
      assert f == [f[0]];
      SubseqRefl(RepsOf([t]));
    } else {
      assert f == [];
    }
  }

  /** The pre-render chain leaves the representatives of the elements it keeps
   *  in their order. */
  lemma {:induction false} FilterTopRepsSubseq(top: seq<TopEntry>, fs: seq<NotifFilter>, now: int)
    ensures Subseq(RepsOf(FilterTop(top, fs, now)), RepsOf(top))
    decreases |top|
  {
    if |top| > 0 {
      var q, t := top[..|top| - 1], top[|top| - 1];
      FilterTopRepsSubseq(q, fs, now);
      RepsOfAppend(FilterTop(q, fs, now), FilterEntry(t, fs, now));
      FilterEntryRepsSubseq(t, fs, now);
      SubseqAppend(RepsOf(FilterTop(q, fs, now)), RepsOf(q), RepsOf(FilterEntry(t, fs, now)), RepsOf([t]));
      assert RepsOf(top) == RepsOf(q) + RepsOf([t]) by {
        SnocSplit(top);
        RepsOfAppend(q, [t]);
      }
    }
  }

  /** Pruning leaves the elements it does not touch in their order. */
  lemma {:induction false} StayingRepsSubseq(top: seq<TopEntry>)
    ensures Subseq(RepsOf(Staying(top)), RepsOf(top))
    decreases |top|
  {
    if |top| > 0 {
      var q, t := top[..|top| - 1], top[|top| - 1];
      var k: seq<TopEntry> := if Stays(t) then [t] else [];
      StayingRepsSubseq(q);
      RepsOfAppend(Staying(q), k);
      if Stays(t) {
        SubseqRefl(RepsOf([t]));
      } else {
        assert RepsOf(k) == [];
      }
      SubseqAppend(RepsOf(Staying(q)), RepsOf(q), RepsOf(k), RepsOf([t]));
      assert RepsOf(top) == RepsOf(q) + RepsOf([t]) by {
        SnocSplit(top);
        RepsOfAppend(q, [t]);
      }
    }
  }

  lemma {:induction false} FilterTopChildrenSorted(top: seq<TopEntry>, fs: seq<NotifFilter>, now: int)
    requires ChildrenSorted(top)
    ensures ChildrenSorted(FilterTop(top, fs, now))
    decreases |top|
  {
    if |top| > 0 {
      var q, t := top[..|top| - 1], top[|top| - 1];
      assert ChildrenSorted(q) by {
        forall i | 0 <= i < |q| && q[i].Group? ensures SortedBy(q[i].children, ChildLe()) {
          assert q[i] == top[i];
        }
      }
      FilterTopChildrenSorted(q, fs, now);
      var a: seq<TopEntry>, f: seq<TopEntry> := FilterTop(q, fs, now), FilterEntry(t, fs, now);
      if t.Group? {
        SelectSorted(t.children, Passes(fs, now), ChildLe());
      }
      forall i | 0 <= i < |a + f| && (a + f)[i].Group? ensures SortedBy((a + f)[i].children, ChildLe()) {
        if i < |a| {
          assert (a + f)[i] == a[i];
        } else {
          assert (a + f)[i] == f[i - |a|];
        }
      }
    }
  }

  lemma PruneChildrenSorted(top: seq<TopEntry>)
    requires ChildrenSorted(top)
    ensures ChildrenSorted(PruneAll(top).list)
  {
    var l := PruneAll(top).list;
    forall i | 0 <= i < |l| && l[i].Group? ensures SortedBy(l[i].children, ChildLe()) {
      PruneAllOrigins(top, l[i]);
      var j :| 0 <= j < |top| && top[j] == l[i];
    }
  }

  /** The representatives of the sorted list are in order. */
  lemma SortedRepsInOrder(entries: seq<Leaf>, c: Chains, now: int)
    ensures var p := RunPass(entries, c, now);
      && SortedBy(RepsOf(p.sorted), RepLe(c.comparators, c.sections))
      && ChildrenSorted(p.sorted)
  {
    var p := RunPass(entries, c, now);
    SortInputHasReps(entries, c, now);
    SortTopSorted(p.beforeSort.list, c.comparators, c.sections);
    TopSortedRepsSorted(p.sorted, c.comparators, c.sections);
  }

  /** The order of the rendered list: the elements the last prune left as
   *  they were keep the order of the sorted list (section, comparators, rank,
   *  `when`); every group's children are in rank and `when` order; and when the
   *  pre-render chain left every group valid, the whole rendered list is in
   *  order. */
  lemma FinalOrder(entries: seq<Leaf>, c: Chains, now: int)
    ensures var p := RunPass(entries, c, now);
      && SortedBy(RepsOf(Staying(p.screened)), RepLe(c.comparators, c.sections))
      && ChildrenSorted(p.Final())
      && (AllGroupsValid(p.screened) ==> TopSorted(p.Final(), c.comparators, c.sections))
  {
    var p := RunPass(entries, c, now);
    var le := RepLe(c.comparators, c.sections);
    SortedRepsInOrder(entries, c, now);
    assert SortedBy(RepsOf(p.screened), le) by {
      FilterTopRepsSubseq(p.sorted, c.preRender, now);
      SubseqSorted(RepsOf(p.screened), RepsOf(p.sorted), le);
    }
    assert SortedBy(RepsOf(Staying(p.screened)), le) by {
      StayingRepsSubseq(p.screened);
      SubseqSorted(RepsOf(Staying(p.screened)), RepsOf(p.screened), le);
    }
    assert ChildrenSorted(p.Final()) by {
      FilterTopChildrenSorted(p.sorted, c.preRender, now);
      PruneChildrenSorted(p.screened);
    }
    if AllGroupsValid(p.screened) {
      PruneValidIsIdentity(p.screened);
      FinalValid(entries, c, now);
      RepsSortedTopSorted(p.Final(), c.comparators, c.sections);
    }
  }
}

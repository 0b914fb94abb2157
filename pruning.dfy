/** Pruning: a group may stay in the list only with a summary and at least
 *  MIN_CHILDREN_FOR_GROUP children.  Any other group is replaced, in its own
 *  place, by what it held as single entries, except a summary that still had
 *  children, which is discarded. */
module Pruning {
  import opened Entries
  import opened Seqs

  /** Entries as top-level singles. */
  function Singles(ls: seq<Leaf>): (r: seq<TopEntry>)
    ensures |r| == |ls| && forall i :: 0 <= i < |ls| ==> r[i] == Single(ls[i])
    decreases |ls|
  {
    if |ls| == 0 then [] else Singles(ls[..|ls| - 1]) + [Single(ls[|ls| - 1])]
  }

  lemma {:induction false} SinglesLeaves(ls: seq<Leaf>)
    ensures Leaves(Singles(ls)) == ls
    decreases |ls|
  {
    if |ls| > 0 {
      var q := ls[..|ls| - 1];
      SinglesLeaves(q);
      assert Singles(ls)[..|ls| - 1] == Singles(q);
    }
  }

  /** The outcome of pruning: the list, and the summaries discarded. */
  datatype Pruned = Pruned(list: seq<TopEntry>, annulled: seq<Leaf>)

  /** An element pruning leaves as it is: a single or a valid group. */
  predicate Stays(t: TopEntry)
  {
    t.Single? || t.IsValidGroup()
  }

  function PruneEntry(t: TopEntry): Pruned
  {
    match t
    case Single(_) => Pruned([t], [])
    case Group(_, s, ch) =>
      if s.Some? && |ch| == 0 then Pruned([Single(s.value)], [])
      else if s.None? || |ch| < MIN_CHILDREN_FOR_GROUP then
        Pruned(Singles(ch), if s.Some? then [s.value] else [])
      else Pruned([t], [])
  }

  function PruneAll(top: seq<TopEntry>): Pruned
    decreases |top|
  {
    if |top| == 0 then Pruned([], [])
    else
      var p := PruneAll(top[..|top| - 1]);
      var q := PruneEntry(top[|top| - 1]);
      Pruned(p.list + q.list, p.annulled + q.annulled)
  }

  /** The elements pruning leaves as they are, in their order. */
  function Staying(top: seq<TopEntry>): seq<TopEntry>
    decreases |top|
  {
    if |top| == 0 then []
    else Staying(top[..|top| - 1]) + (if Stays(top[|top| - 1]) then [top[|top| - 1]] else [])
  }

  lemma StaysIsIdentity(t: TopEntry)
    ensures Stays(t) <==> PruneEntry(t) == Pruned([t], [])
  {
  }

  /** Pruning works in place: pruning two lists one after the other gives the
   *  pruned lists one after the other. */
  lemma {:induction false} PruneAllAppend(a: seq<TopEntry>, b: seq<TopEntry>)
    ensures PruneAll(a + b) == Pruned(PruneAll(a).list + PruneAll(b).list, PruneAll(a).annulled + PruneAll(b).annulled)
    decreases |b|
  {
    if |b| == 0 {
      assert a + b == a;
    } else {
      var q, t := b[..|b| - 1], b[|b| - 1];
      PruneAllAppend(a, q);
      assert (a + b)[..|a + b| - 1] == a + q;
      assert (a + b)[|a + b| - 1] == t;
      var pa, pq, r := PruneAll(a), PruneAll(q), PruneEntry(t);
      SeqAssoc(pa.list, pq.list, r.list);
      SeqAssoc(pa.annulled, pq.annulled, r.annulled);
    }
  }

  /** In particular an element's replacement stands where the element stood. */
  lemma PruneAllAt(top: seq<TopEntry>, i: nat)
    requires i < |top|
    ensures PruneAll(top).list
         == PruneAll(top[..i]).list + PruneEntry(top[i]).list + PruneAll(top[i + 1..]).list
  {
    var a, b := top[..i], top[i + 1..];
    SplitAround(top, i);
    PruneAllAppend(a + [top[i]], b);
    PruneAllAppend(a, [top[i]]);
    PruneSingleton(top[i]);
  }

  /** A one-element list prunes as its element does. */
  lemma PruneSingleton(t: TopEntry)
    ensures PruneAll([t]) == PruneEntry(t)
  {
    assert [t][..0] == [];
  }

  lemma PruneEntryValid(t: TopEntry)
    ensures AllGroupsValid(PruneEntry(t).list)
  {
  }

  /** Only valid groups survive pruning. */
  lemma {:induction false} PruneAllValid(top: seq<TopEntry>)
    ensures AllGroupsValid(PruneAll(top).list)
    decreases |top|
  {
    if |top| > 0 {
      var p := PruneAll(top[..|top| - 1]);
      var q := PruneEntry(top[|top| - 1]);
      PruneAllValid(top[..|top| - 1]);
      PruneEntryValid(top[|top| - 1]);
      var l := PruneAll(top).list;
      assert l == p.list + q.list;
      forall i | 0 <= i < |l| && l[i].Group? ensures l[i].IsValidGroup() {
        if i < |p.list| {
          assert l[i] == p.list[i];
        } else {
          assert l[i] == q.list[i - |p.list|];
        }
      }
    }
  }

  /** The leaves that one element's pruning keeps and discards. */
  function PruneEntryBag(t: TopEntry): multiset<Leaf>
  {
    var r := PruneEntry(t);
    multiset(Leaves(r.list)) + multiset(r.annulled)
  }

  lemma DissolvedAccounts(t: TopEntry)
    requires t.Group? && (t.children != [] || t.summary.None?)
    requires t.summary.None? || |t.children| < MIN_CHILDREN_FOR_GROUP
    ensures PruneEntryBag(t) == multiset(EntryLeaves(t))
  {
    var ann := if t.summary.Some? then [t.summary.value] else [];
    var mc, ma := multiset(t.children), multiset(ann);
    SinglesLeaves(t.children);
    assert PruneEntry(t) == Pruned(Singles(t.children), ann);
    assert PruneEntryBag(t) == mc + ma;
    assert multiset(EntryLeaves(t)) == ma + mc;
  }

  lemma LoneSummaryAccounts(t: TopEntry)
    requires t.Group? && t.summary.Some? && t.children == []
    ensures PruneEntryBag(t) == multiset(EntryLeaves(t))
  {
    var x := t.summary.value;
    LeavesOne(Single(x));
    assert PruneEntry(t) == Pruned([Single(x)], []);
    assert EntryLeaves(t) == [x];
  }

  lemma StaysAccounts(t: TopEntry)
    requires PruneEntry(t) == Pruned([t], [])
    ensures PruneEntryBag(t) == multiset(EntryLeaves(t))
  {
    LeavesOne(t);
  }

  lemma PruneEntryAccounts(t: TopEntry)
    ensures multiset(Leaves(PruneEntry(t).list)) + multiset(PruneEntry(t).annulled) == multiset(EntryLeaves(t))
  {
    if t.Group? && t.summary.Some? && t.children == [] {
      LoneSummaryAccounts(t);
    } else if t.Group? && (t.summary.None? || |t.children| < MIN_CHILDREN_FOR_GROUP) {
      DissolvedAccounts(t);
    } else {
      StaysAccounts(t);
    }
  }

  /** Pruning loses nothing: the leaves of the pruned list plus the discarded
   *  summaries are the leaves of the list pruned. */
  lemma {:induction false} PruneAllAccounts(top: seq<TopEntry>)
    ensures multiset(Leaves(PruneAll(top).list)) + multiset(PruneAll(top).annulled) == multiset(Leaves(top))
    decreases |top|
  {
    if |top| > 0 {
      var q := top[..|top| - 1];
      var t := top[|top| - 1];
      var p := PruneAll(q);
      var r := PruneEntry(t);
      PruneAllAccounts(q);
      PruneEntryAccounts(t);
      LeavesAppend(p.list, r.list);
      SnocSplit(top);
      LeavesSnoc(q, t);
      var a, b, c, d := multiset(Leaves(p.list)), multiset(p.annulled), multiset(Leaves(r.list)), multiset(r.annulled);
      assert multiset(Leaves(PruneAll(top).list)) + multiset(PruneAll(top).annulled) == (a + c) + (b + d);
      assert multiset(Leaves(top)) == (a + b) + (c + d);
    }
  }

  /** The three dissolutions, seen from the pruned list: a single or a valid
   *  group stays in its place; a summary left without children becomes a
   *  single in its place; the children of a group without a summary or with
   *  too few children become singles in its place, and its summary is
   *  discarded. */
  lemma PruneEntryFates(t: TopEntry)
    ensures Stays(t) ==> PruneEntry(t).list == [t] && PruneEntry(t).annulled == []
    ensures t.Group? && t.summary.Some? && |t.children| == 0 ==>
              PruneEntry(t).list == [Single(t.summary.value)] && PruneEntry(t).annulled == []
    ensures t.Group? && !t.IsValidGroup() && (t.summary.None? || |t.children| > 0) ==>
              && PruneEntry(t).list == Singles(t.children)
              && PruneEntry(t).annulled == (if t.summary.Some? then [t.summary.value] else [])
  {
  }

  /** Conversely, every element of the pruned list is an element of the list
   *  pruned (a single or a valid group) or a single made of a leaf that sat
   *  in a group of it. */
  lemma {:induction false} PruneAllOrigins(top: seq<TopEntry>, x: TopEntry)
    requires x in PruneAll(top).list
    ensures x in top || (x.Single? && x.leaf in Leaves(top))
    decreases |top|
  {
    var q := top[..|top| - 1];
    var t := top[|top| - 1];
    var p := PruneAll(q);
    var r := PruneEntry(t);
    assert PruneAll(top).list == p.list + r.list;
    assert Leaves(top) == Leaves(q) + EntryLeaves(t);
    if x in p.list {
      PruneAllOrigins(q, x);
      assert forall y :: y in q ==> y in top;
    } else if x != t {
      var j :| 0 <= j < |r.list| && r.list[j] == x;
      assert x.leaf in EntryLeaves(t);
    }
  }

  /** Pruning a list whose groups are all valid changes nothing; in particular
   *  pruning is idempotent. */
  lemma {:induction false} PruneValidIsIdentity(top: seq<TopEntry>)
    requires AllGroupsValid(top)
    ensures PruneAll(top) == Pruned(top, [])
    decreases |top|
  {
    if |top| > 0 {
      var q, t := top[..|top| - 1], top[|top| - 1];
      assert AllGroupsValid(q) by {
        forall i | 0 <= i < |q| && q[i].Group? ensures q[i].IsValidGroup() {
          assert q[i] == top[i];
        }
      }
      PruneValidIsIdentity(q);
      assert t.Group? ==> t.IsValidGroup();
      assert PruneEntry(t) == Pruned([t], []);
      SnocSplit(top);
    }
  }

  lemma PruneIdempotent(top: seq<TopEntry>)
    ensures PruneAll(PruneAll(top).list) == Pruned(PruneAll(top).list, [])
  {
    PruneAllValid(top);
    PruneValidIsIdentity(PruneAll(top).list);
  }

  /** The elements pruning leaves as they are appear in the pruned list in
   *  their order. */
  lemma {:induction false} StayingInList(top: seq<TopEntry>, x: TopEntry)
    requires x in Staying(top)
    ensures x in top && Stays(x) && x in PruneAll(top).list
    decreases |top|
  {
    var q, t := top[..|top| - 1], top[|top| - 1];
    assert PruneAll(top).list == PruneAll(q).list + PruneEntry(t).list;
    if x in Staying(q) {
      StayingInList(q, x);
    } else {
      assert x == t;
    }
  }

  /** Prunes one element: what takes its place and what is discarded. */
  method PruneOne(t: TopEntry) returns (replacement: seq<TopEntry>, annulled: seq<Leaf>)
    ensures Pruned(replacement, annulled) == PruneEntry(t)
  {
    replacement, annulled := [t], [];
    if t.Group? {
      if t.summary.Some? && |t.children| == 0 {
        replacement := [Single(t.summary.value)];
      } else if t.summary.None? || |t.children| < MIN_CHILDREN_FOR_GROUP {
        if t.summary.Some? {
          annulled := [t.summary.value];
        }
        replacement := [];
        var j := 0;
        while j < |t.children|
          invariant 0 <= j <= |t.children|
          invariant replacement == Singles(t.children[..j])
        {
          PrefixStep(t.children, j);
          replacement := replacement + [Single(t.children[j])];
          j := j + 1;
        }
        PrefixAll(t.children);
      }
    }
  }

  /** Walks the list once, putting each element's replacement where it stood. */
  method PruneIncompleteGroups(top: seq<TopEntry>) returns (out: seq<TopEntry>, annulled: seq<Leaf>)
    ensures Pruned(out, annulled) == PruneAll(top)
  {
    out, annulled := [], [];
    var i := 0;
    while i < |top|
      invariant 0 <= i <= |top|
      invariant PruneAll(top[..i]) == Pruned(out, annulled)
    {
      var r, n := PruneOne(top[i]);
      PrefixStep(top, i);
      out, annulled := out + r, annulled + n;
      i := i + 1;
    }
    PrefixAll(top);
  }

  /** Pruning keeps summaries in the summary slot, and what it discards are summaries. */
  lemma PruneAllMarked(top: seq<TopEntry>)
    requires SummariesMarked(top)
    ensures SummariesMarked(PruneAll(top).list)
    ensures forall x :: x in PruneAll(top).annulled ==> x.isSummary
  {
    forall t | t in PruneAll(top).list ensures t in top || t.Single? {
      PruneAllOrigins(top, t);
    }
    forall x | x in PruneAll(top).annulled ensures x.isSummary {
      PruneAnnulledSummaries(top, x);
    }
  }

  /** A discarded entry was the summary of a group of the list. */
  lemma {:induction false} PruneAnnulledSummaries(top: seq<TopEntry>, x: Leaf)
    requires SummariesMarked(top) && x in PruneAll(top).annulled
    ensures x.isSummary
    decreases |top|
  {
    var q, t := top[..|top| - 1], top[|top| - 1];
    var p, r := PruneAll(q), PruneEntry(t);
    assert PruneAll(top).annulled == p.annulled + r.annulled;
    if x in p.annulled {
      assert SummariesMarked(q) by {
        forall u | u in q ensures u in top { }
      }
      PruneAnnulledSummaries(q, x);
    } else {
      assert t in top;
    }
  }
}

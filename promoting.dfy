/** Promotion: each child of each group is offered to the promoter chain; a
 *  child some promoter claims leaves its group and is appended to the end of
 *  the list as a single entry. */
module Promoting {
  import opened Entries
  import opened Selection
  import opened Pluggables
  import opened Pruning
  import opened Seqs

  /** True of a child no promoter claims. */
  function StaysInGroup(ps: seq<NotifPromoter>): Leaf -> bool
  {
    (c: Leaf) => FirstPromoter(ps, c).None?
  }

  /** The outcome of promotion: the list with the promoted children taken out
   *  of their groups, and the promoted children in the order they were met. */
  datatype Promoted = Promoted(updated: seq<TopEntry>, promoted: seq<Leaf>)
  {
    function List(): seq<TopEntry> { updated + Singles(promoted) }
  }

  function PromoteEntry(t: TopEntry, ps: seq<NotifPromoter>): Promoted
  {
    match t
    case Single(_) => Promoted([t], [])
    case Group(k, s, ch) =>
      Promoted([Group(k, s, Select(ch, StaysInGroup(ps)))], Drop(ch, StaysInGroup(ps)))
  }

  function PromoteAll(top: seq<TopEntry>, ps: seq<NotifPromoter>): Promoted
    decreases |top|
  {
    if |top| == 0 then Promoted([], [])
    else
      var p := PromoteAll(top[..|top| - 1], ps);
      var q := PromoteEntry(top[|top| - 1], ps);
      Promoted(p.updated + q.updated, p.promoted + q.promoted)
  }

  /** The children offered to the chain: every child of every group, in list order. */
  function OfferedChildren(top: seq<TopEntry>): seq<Leaf>
    decreases |top|
  {
    if |top| == 0 then []
    else
      var t := top[|top| - 1];
      OfferedChildren(top[..|top| - 1]) + (if t.Group? then t.children else [])
  }

  /** The promoted children are exactly the offered children some promoter
   *  claims, in the order they were offered. */
  lemma {:induction false} PromotedAreClaimed(top: seq<TopEntry>, ps: seq<NotifPromoter>)
    ensures PromoteAll(top, ps).promoted == Drop(OfferedChildren(top), StaysInGroup(ps))
    decreases |top|
  {
    if |top| > 0 {
      var q := top[..|top| - 1];
      var t := top[|top| - 1];
      PromotedAreClaimed(q, ps);
      if t.Group? {
        SelectAppend(OfferedChildren(q), t.children, StaysInGroup(ps));
      } else {
        assert OfferedChildren(top) == OfferedChildren(q);
        assert OfferedChildren(q) + [] == OfferedChildren(q);
      }
    }
  }

  /** A promoted child is a top-level single of the promoted list. */
  lemma PromotedInList(r: Promoted, c: Leaf)
    requires c in r.promoted
    ensures Single(c) in r.List()
  {
    var j :| 0 <= j < |r.promoted| && r.promoted[j] == c;
    assert r.List()[|r.updated| + j] == Single(c);
  }

  /** A promoted child was offered, some promoter claimed it and it is a
   *  top-level single of the result; an offered child no promoter claims is not
   *  promoted. */
  lemma PromotedMembers(top: seq<TopEntry>, ps: seq<NotifPromoter>, c: Leaf)
    ensures c in PromoteAll(top, ps).promoted <==> c in OfferedChildren(top) && FirstPromoter(ps, c).Some?
    ensures c in PromoteAll(top, ps).promoted ==> Single(c) in PromoteAll(top, ps).List()
  {
    PromotedAreClaimed(top, ps);
    SelectMembers(OfferedChildren(top), StaysInGroup(ps), c);
    if c in PromoteAll(top, ps).promoted {
      PromotedInList(PromoteAll(top, ps), c);
    }
  }

  /** Each group keeps its place, key and summary, and keeps exactly its
   *  children no promoter claims, in their order; singles are untouched. */
  lemma {:induction false} PromoteAllGroups(top: seq<TopEntry>, ps: seq<NotifPromoter>, i: nat)
    requires i < |top|
    ensures |PromoteAll(top, ps).updated| == |top|
    ensures top[i].Single? ==> PromoteAll(top, ps).updated[i] == top[i]
    ensures top[i].Group? ==> PromoteAll(top, ps).updated[i]
                                == Group(top[i].key, top[i].summary, Select(top[i].children, StaysInGroup(ps)))
    decreases |top|
  {
    var q := top[..|top| - 1];
    var p := PromoteAll(q, ps);
    if i < |top| - 1 {
      PromoteAllGroups(q, ps, i);
      assert q[i] == top[i];
    } else if |q| > 0 {
      PromoteAllGroups(q, ps, |q| - 1);
    }
  }

  /** The leaves of a promoted list: those left in place and the promoted ones. */
  lemma PromotedBag(p: Promoted)
    ensures multiset(Leaves(p.List())) == multiset(Leaves(p.updated)) + multiset(p.promoted)
  {
    LeavesAppend(p.updated, Singles(p.promoted));
    SinglesLeaves(p.promoted);
  }

  /** Promoting within one element moves its leaves and loses none. */
  lemma PromoteEntryAccounts(t: TopEntry, ps: seq<NotifPromoter>)
    ensures multiset(Leaves(PromoteEntry(t, ps).updated)) + multiset(PromoteEntry(t, ps).promoted)
         == multiset(EntryLeaves(t))
  {
    var r := PromoteEntry(t, ps);
    LeavesOne(r.updated[0]);
    assert r.updated == [r.updated[0]];
    if t.Group? {
      var ann := if t.summary.Some? then [t.summary.value] else [];
      var ch := t.children;
      SelectPartition(ch, StaysInGroup(ps));
      assert EntryLeaves(r.updated[0]) == ann + Select(ch, StaysInGroup(ps));
      assert multiset(EntryLeaves(t)) == multiset(ann) + multiset(ch);
    }
  }

  /** Promotion moves leaves and never loses or creates one. */
  lemma {:induction false} PromoteAllAccounts(top: seq<TopEntry>, ps: seq<NotifPromoter>)
    ensures multiset(Leaves(PromoteAll(top, ps).List())) == multiset(Leaves(top))
    decreases |top|
  {
    if |top| > 0 {
      var q, t := top[..|top| - 1], top[|top| - 1];
      var p, r := PromoteAll(q, ps), PromoteEntry(t, ps);
      var all := PromoteAll(top, ps);
      assert all == Promoted(p.updated + r.updated, p.promoted + r.promoted);
      PromoteAllAccounts(q, ps);
      PromotedBag(p);
      PromotedBag(all);
      PromoteEntryAccounts(t, ps);
      LeavesAppend(p.updated, r.updated);
      assert multiset(Leaves(top)) == multiset(Leaves(q)) + multiset(EntryLeaves(t)) by {
        SnocSplit(top);
        LeavesSnoc(q, t);
      }
      var lp, lr := multiset(Leaves(p.updated)), multiset(Leaves(r.updated));
      var mp, mr := multiset(p.promoted), multiset(r.promoted);
      assert multiset(Leaves(all.List())) == (lp + lr) + (mp + mr);
      assert (lp + lr) + (mp + mr) == (lp + mp) + (lr + mr);
    }
  }

  /** Offers each child of one group to the chain, in order. */
  method OfferChildren(children: seq<Leaf>, ps: seq<NotifPromoter>) returns (stay: seq<Leaf>, promoted: seq<Leaf>)
    ensures stay == Select(children, StaysInGroup(ps)) && promoted == Drop(children, StaysInGroup(ps))
  {
    stay, promoted := [], [];
    var j := 0;
    while j < |children|
      invariant 0 <= j <= |children|
      invariant stay == Select(children[..j], StaysInGroup(ps))
      invariant promoted == Drop(children[..j], StaysInGroup(ps))
    {
      var c := children[j];
      assert children[..j + 1] == children[..j] + [c];
      SelectAppend(children[..j], [c], StaysInGroup(ps));
      SelectOne(c, StaysInGroup(ps));
      if FirstPromoter(ps, c).Some? {
        promoted := promoted + [c];
      } else {
        stay := stay + [c];
      }
      j := j + 1;
    }
    assert children[..j] == children;
  }

  /** Offers the children of every group, taking claimed children out of their
   *  group and collecting them for the end of the list. */
  method PromoteNotifs(top: seq<TopEntry>, ps: seq<NotifPromoter>) returns (updated: seq<TopEntry>, promoted: seq<Leaf>)
    ensures Promoted(updated, promoted) == PromoteAll(top, ps)
  {
    updated, promoted := [], [];
    var i := 0;
    while i < |top|
      invariant 0 <= i <= |top|
      invariant PromoteAll(top[..i], ps) == Promoted(updated, promoted)
    {
      var t := top[i];
      if t.Group? {
        var stay, claimed := OfferChildren(t.children, ps);
        updated := updated + [Group(t.key, t.summary, stay)];
        promoted := promoted + claimed;
      } else {
        updated := updated + [t];
      }
      assert top[..i + 1][..i] == top[..i];
      i := i + 1;
    }
    assert top[..i] == top;
  }

  /** Promotion keeps every group's summary where it was. */
  lemma PromoteAllMarked(top: seq<TopEntry>, ps: seq<NotifPromoter>)
    requires SummariesMarked(top)
    ensures SummariesMarked(PromoteAll(top, ps).List())
  {
    var r := PromoteAll(top, ps);
    forall t | t in r.List() && t.Group? && t.summary.Some? ensures t.summary.value.isSummary {
      var j :| 0 <= j < |r.List()| && r.List()[j] == t;
      if |top| > 0 {
        PromoteAllGroups(top, ps, 0);
      }
      if j < |r.updated| {
        PromoteAllGroups(top, ps, j);
        assert top[j] in top;
      }
    }
  }
}

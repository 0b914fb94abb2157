/** Grouping: the entries that survived the pre-group filter are gathered into
 *  one group per group key, each group placed where its first member was met;
 *  entries without a group key stay at top level. */
module Grouping {
  import opened Entries
  import opened Selection
  import opened Seqs

  /** The position of the group keyed `k` in a list, if the list holds one. */
  function FindGroup(top: seq<TopEntry>, k: GroupKey): (r: Option<nat>)
    ensures r.Some? ==> r.value < |top| && top[r.value].Group? && top[r.value].key == k
    ensures r.Some? ==> forall i :: 0 <= i < r.value ==> !(top[i].Group? && top[i].key == k)
    ensures r.None? ==> forall i :: 0 <= i < |top| ==> !(top[i].Group? && top[i].key == k)
    decreases |top|
  {
    if |top| == 0 then None
    else
      var t := top[|top| - 1];
      match FindGroup(top[..|top| - 1], k)
      case Some(i) => Some(i)
      case None => if t.Group? && t.key == k then Some(|top| - 1) else None
  }

  /** The non-summary members of group `k`. */
  function IsChildOf(k: GroupKey): Leaf -> bool
  {
    (e: Leaf) => e.InGroupKey(k) && !e.isSummary
  }

  /** The summaries posted for group `k`. */
  function IsSummaryOf(k: GroupKey): Leaf -> bool
  {
    (e: Leaf) => e.InGroupKey(k) && e.isSummary
  }

  /** The summary that wins among candidates met in order: a later one replaces
   *  the current one only when it was posted strictly later. */
  function Latest(c: seq<Leaf>): (r: Option<Leaf>)
    ensures r.None? <==> |c| == 0
    ensures r.Some? ==> r.value in c && forall y :: y in c ==> y.postTime <= r.value.postTime
    decreases |c|
  {
    if |c| == 0 then None
    else
      var x := c[|c| - 1];
      var cur := Latest(c[..|c| - 1]);
      assert c == c[..|c| - 1] + [x];
      if cur.None? || x.postTime > cur.value.postTime then Some(x) else cur
  }

  /** Among summaries posted at the same latest time, the first one met wins. */
  lemma {:induction false} LatestIsFirstOfTies(c: seq<Leaf>, j: nat)
    requires j < |c| && Latest(c).Some? && c[j].postTime == Latest(c).value.postTime
    ensures Latest(c).value in c[..j + 1]
    decreases |c|
  {
    var q := c[..|c| - 1];
    var x := c[|c| - 1];
    var cur := Latest(q);
    if j < |c| - 1 {
      assert c[j] == q[j];
      if cur.Some? && !(x.postTime > cur.value.postTime) {
        LatestIsFirstOfTies(q, j);
        assert q[..j + 1] == c[..j + 1];
      }
    }
  }

  /** The outcome of grouping: the top-level list and the summaries that lost
   *  to a later one. */
  datatype Grouping = Grouping(top: seq<TopEntry>, discarded: seq<Leaf>)

  /** Adds an entry to its group: a child is appended; a summary takes the
   *  group's place when the group has none or was posted strictly later than
   *  the current one, which is then discarded; otherwise the newcomer is. */
  function Join(t: TopEntry, e: Leaf): (r: (TopEntry, seq<Leaf>))
    requires t.Group?
    ensures r.0.Group? && r.0.key == t.key
    ensures multiset(EntryLeaves(r.0)) + multiset(r.1) == multiset(EntryLeaves(t)) + multiset{e}
  {
    if !e.isSummary then (t.(children := t.children + [e]), [])
    else if t.summary.None? then (t.(summary := Some(e)), [])
    else if e.postTime > t.summary.value.postTime then (t.(summary := Some(e)), [t.summary.value])
    else (t, [e])
  }

  function GroupStep(g: Grouping, e: Leaf): Grouping
  {
    if e.group.None? then Grouping(g.top + [Single(e)], g.discarded)
    else
      match FindGroup(g.top, e.GroupKeyOf())
      case None =>
        var (t, d) := Join(Group(e.GroupKeyOf(), None, []), e);
        Grouping(g.top + [t], g.discarded + d)
      case Some(i) =>
        var (t, d) := Join(g.top[i], e);
        Grouping(g.top[i := t], g.discarded + d)
  }

  /** The grouping of a sequence of entries, met in order. */
  function GroupAll(s: seq<Leaf>): Grouping
    decreases |s|
  {
    if |s| == 0 then Grouping([], []) else GroupStep(GroupAll(s[..|s| - 1]), s[|s| - 1])
  }

  /** Every single is an ungrouped entry of `s`, and every ungrouped entry of
   *  `s` is a single. */
  ghost predicate SinglesOf(s: seq<Leaf>, top: seq<TopEntry>)
  {
    && (forall i :: 0 <= i < |top| && top[i].Single? ==> top[i].leaf.group.None? && top[i].leaf in s)
    && (forall e :: e in s && e.group.None? ==> Single(e) in top)
  }

  /** Each group holds its key's non-summary entries in input order, and the
   *  latest-posted of its key's summaries. */
  ghost predicate GroupsOf(s: seq<Leaf>, top: seq<TopEntry>)
  {
    forall i :: 0 <= i < |top| && top[i].Group? ==>
      && top[i].children == Select(s, IsChildOf(top[i].key))
      && top[i].summary == Latest(Select(s, IsSummaryOf(top[i].key)))
  }

  ghost predicate OneGroupPerKey(top: seq<TopEntry>)
  {
    forall i, j :: 0 <= i < j < |top| && top[i].Group? && top[j].Group? ==> top[i].key != top[j].key
  }

  /** Every key met has a group. */
  ghost predicate Covers(s: seq<Leaf>, top: seq<TopEntry>)
  {
    forall e :: e in s && e.group.Some? ==> FindGroup(top, e.GroupKeyOf()).Some?
  }

  /** What the grouping of `s` is, independently of the order of the steps. */
  ghost predicate Shaped(s: seq<Leaf>, g: Grouping)
  {
    && SinglesOf(s, g.top)
    && GroupsOf(s, g.top)
    && OneGroupPerKey(g.top)
    && Covers(s, g.top)
    && (forall x :: x in g.discarded ==> x in s && x.isSummary && x.group.Some?)
  }

  lemma SelectNone(s: seq<Leaf>, p: Leaf -> bool)
    requires forall e :: e in s ==> !p(e)
    ensures Select(s, p) == []
  {
    if |Select(s, p)| > 0 {
      SelectMembers(s, p, Select(s, p)[0]);
    }
  }

  lemma SelectLast(s: seq<Leaf>, e: Leaf, p: Leaf -> bool)
    ensures p(e) ==> Select(s + [e], p) == Select(s, p) + [e]
    ensures !p(e) ==> Select(s + [e], p) == Select(s, p)
  {
    assert (s + [e])[..|s|] == s;
    assert Select(s, p) + [] == Select(s, p);
  }

  lemma FindGroupUnique(top: seq<TopEntry>, k: GroupKey, at: nat)
    requires OneGroupPerKey(top) && at < |top| && top[at].Group? && top[at].key == k
    ensures FindGroup(top, k) == Some(at)
  {
  }

  lemma SinglesAddSingle(s: seq<Leaf>, top: seq<TopEntry>, e: Leaf)
    requires SinglesOf(s, top) && e.group.None?
    ensures SinglesOf(s + [e], top + [Single(e)])
  {
    var s', top' := s + [e], top + [Single(e)];
    forall i | 0 <= i < |top'| && top'[i].Single?
      ensures top'[i].leaf.group.None? && top'[i].leaf in s'
    {
      if i < |top| { assert top'[i] == top[i]; }
    }
    forall x | x in s' && x.group.None? ensures Single(x) in top' {
      if x != e { assert x in s; }
    }
  }

  lemma SinglesAddGroup(s: seq<Leaf>, top: seq<TopEntry>, e: Leaf, t: TopEntry)
    requires SinglesOf(s, top) && e.group.Some? && t.Group?
    ensures SinglesOf(s + [e], top + [t])
  {
    var s', top' := s + [e], top + [t];
    forall i | 0 <= i < |top'| && top'[i].Single?
      ensures top'[i].leaf.group.None? && top'[i].leaf in s'
    {
      assert top'[i] == top[i];
    }
    forall x | x in s' && x.group.None? ensures Single(x) in top' {
      assert x in s;
      var j :| 0 <= j < |top| && top[j] == Single(x);
      assert top'[j] == Single(x);
    }
  }

  lemma SinglesReplaceGroup(s: seq<Leaf>, top: seq<TopEntry>, e: Leaf, i: nat, t: TopEntry)
    requires SinglesOf(s, top) && e.group.Some? && i < |top| && top[i].Group? && t.Group?
    ensures SinglesOf(s + [e], top[i := t])
  {
    var s', top' := s + [e], top[i := t];
    forall x | x in s' && x.group.None? ensures Single(x) in top' {
      assert x in s;
      var j :| 0 <= j < |top| && top[j] == Single(x);
      assert top'[j] == Single(x);
    }
  }

  lemma StepSingles(s: seq<Leaf>, g: Grouping, e: Leaf)
    requires SinglesOf(s, g.top)
    ensures SinglesOf(s + [e], GroupStep(g, e).top)
  {
    if e.group.None? {
      SinglesAddSingle(s, g.top, e);
    } else {
      match FindGroup(g.top, e.GroupKeyOf())
      case None =>
        var (t, d) := Join(Group(e.GroupKeyOf(), None, []), e);
        SinglesAddGroup(s, g.top, e, t);
      case Some(i) =>
        var (t, d) := Join(g.top[i], e);
        SinglesReplaceGroup(s, g.top, e, i, t);
    }
  }

  lemma StepOneGroupPerKey(g: Grouping, e: Leaf)
    requires OneGroupPerKey(g.top)
    ensures OneGroupPerKey(GroupStep(g, e).top)
  {
    var top' := GroupStep(g, e).top;
    if e.group.Some? {
      match FindGroup(g.top, e.GroupKeyOf())
      case None =>
        var (t, d) := Join(Group(e.GroupKeyOf(), None, []), e);
        assert top' == g.top + [t];
      case Some(i) =>
        var (t, d) := Join(g.top[i], e);
        assert top' == g.top[i := t];
    }
  }

  lemma StepCovers(s: seq<Leaf>, g: Grouping, e: Leaf)
    requires Covers(s, g.top)
    ensures Covers(s + [e], GroupStep(g, e).top)
  {
    var s' := s + [e];
    var top' := GroupStep(g, e).top;
    forall x | x in s' && x.group.Some? ensures FindGroup(top', x.GroupKeyOf()).Some? {
      var k := x.GroupKeyOf();
      var m: nat;
      if x in s {
        m := FindGroup(g.top, k).value;
      } else {
        assert x == e;
      }
      if e.group.Some? {
        match FindGroup(g.top, e.GroupKeyOf())
        case None =>
          var (t, d) := Join(Group(e.GroupKeyOf(), None, []), e);
          assert top' == g.top + [t];
          if x !in s { m := |g.top|; }
        case Some(i) =>
          var (t, d) := Join(g.top[i], e);
          assert top' == g.top[i := t];
          if x !in s { m := i; }
      }
      assert m < |top'| && top'[m].Group? && top'[m].key == k;
    }
  }

  /** A group that matches `s` and is not the entry's group still matches after the entry. */
  lemma OtherGroupMatches(s: seq<Leaf>, t: TopEntry, e: Leaf)
    requires t.Group? && !e.InGroupKey(t.key)
    requires t.children == Select(s, IsChildOf(t.key)) && t.summary == Latest(Select(s, IsSummaryOf(t.key)))
    ensures t.children == Select(s + [e], IsChildOf(t.key)) && t.summary == Latest(Select(s + [e], IsSummaryOf(t.key)))
  {
    assert !IsChildOf(t.key)(e) && !IsSummaryOf(t.key)(e);
    SelectLast(s, e, IsChildOf(t.key));
    SelectLast(s, e, IsSummaryOf(t.key));
  }

  /** Joining the entry to the group that matches `s` gives the group that matches `s + [e]`. */
  lemma JoinMatches(s: seq<Leaf>, t: TopEntry, e: Leaf)
    requires t.Group? && e.InGroupKey(t.key)
    requires t.children == Select(s, IsChildOf(t.key)) && t.summary == Latest(Select(s, IsSummaryOf(t.key)))
    ensures Join(t, e).0.children == Select(s + [e], IsChildOf(t.key))
    ensures Join(t, e).0.summary == Latest(Select(s + [e], IsSummaryOf(t.key)))
  {
    var k := t.key;
    SelectLast(s, e, IsChildOf(k));
    SelectLast(s, e, IsSummaryOf(k));
    var cs := Select(s, IsSummaryOf(k));
    if e.isSummary {
      assert IsSummaryOf(k)(e) && !IsChildOf(k)(e);
      LatestLast(cs, e);
    } else {
      assert !IsSummaryOf(k)(e) && IsChildOf(k)(e);
    }
  }

  lemma LatestLast(c: seq<Leaf>, x: Leaf)
    ensures Latest(c + [x]) == if Latest(c).None? || x.postTime > Latest(c).value.postTime then Some(x) else Latest(c)
  {
    assert (c + [x])[..|c|] == c;
  }

  lemma StepGroups(s: seq<Leaf>, g: Grouping, e: Leaf)
    requires GroupsOf(s, g.top) && OneGroupPerKey(g.top) && Covers(s, g.top)
    ensures GroupsOf(s + [e], GroupStep(g, e).top)
  {
    var s' := s + [e];
    var top' := GroupStep(g, e).top;
    if e.group.None? {
      forall i | 0 <= i < |top'| && top'[i].Group?
        ensures top'[i].children == Select(s', IsChildOf(top'[i].key))
        ensures top'[i].summary == Latest(Select(s', IsSummaryOf(top'[i].key)))
      {
        OtherGroupMatches(s, g.top[i], e);
      }
    } else {
      var k := e.GroupKeyOf();
      match FindGroup(g.top, k)
      case None =>
        var (t, d) := Join(Group(k, None, []), e);
        assert top' == g.top + [t];
        forall i | 0 <= i < |top'| && top'[i].Group?
          ensures top'[i].children == Select(s', IsChildOf(top'[i].key))
          ensures top'[i].summary == Latest(Select(s', IsSummaryOf(top'[i].key)))
        {
          if i == |g.top| {
            SelectNone(s, IsChildOf(k));
            SelectNone(s, IsSummaryOf(k));
            JoinMatches(s, Group(k, None, []), e);
          } else {
            OtherGroupMatches(s, g.top[i], e);
          }
        }
      case Some(m) =>
        var (t, d) := Join(g.top[m], e);
        assert top' == g.top[m := t];
        forall i | 0 <= i < |top'| && top'[i].Group?
          ensures top'[i].children == Select(s', IsChildOf(top'[i].key))
          ensures top'[i].summary == Latest(Select(s', IsSummaryOf(top'[i].key)))
        {
          if i == m {
            JoinMatches(s, g.top[m], e);
          } else {
            OtherGroupMatches(s, g.top[i], e);
          }
        }
    }
  }

  lemma StepDiscarded(s: seq<Leaf>, g: Grouping, e: Leaf)
    requires Shaped(s, g)
    ensures forall x :: x in GroupStep(g, e).discarded ==> x in s + [e] && x.isSummary && x.group.Some?
  {
    if e.group.Some? {
      match FindGroup(g.top, e.GroupKeyOf())
      case None =>
      case Some(i) =>
        var (t, d) := Join(g.top[i], e);
        var gr := g.top[i];
        assert GroupsOf(s, g.top);
        if gr.summary.Some? {
          var c := Select(s, IsSummaryOf(gr.key));
          assert gr.summary == Latest(c);
          SelectMembers(s, IsSummaryOf(gr.key), gr.summary.value);
        }
    }
  }

  /** One grouping step keeps the grouping shaped by the entries met so far. */
  lemma StepShaped(s: seq<Leaf>, g: Grouping, e: Leaf)
    requires Shaped(s, g)
    ensures Shaped(s + [e], GroupStep(g, e))
  {
    StepSingles(s, g, e);
    StepGroups(s, g, e);
    StepOneGroupPerKey(g, e);
    StepCovers(s, g, e);
    StepDiscarded(s, g, e);
  }

  lemma {:induction false} GroupAllShaped(s: seq<Leaf>)
    ensures Shaped(s, GroupAll(s))
    decreases |s|
  {
    if |s| > 0 {
      var q, e := s[..|s| - 1], s[|s| - 1];
      GroupAllShaped(q);
      StepShaped(q, GroupAll(q), e);
      SnocSplit(s);
    }
  }

  /** Whether an entry of group `k` was met in `s`. */
  ghost predicate KeyMet(s: seq<Leaf>, k: GroupKey)
  {
    exists x :: x in s && x.InGroupKey(k)
  }

  /** The entries that open a top-level element, in input order: every
   *  ungrouped entry, and the first entry met of each group key. */
  ghost function Heads(s: seq<Leaf>): (r: seq<Leaf>)
    ensures forall x :: x in r ==> x in s
    decreases |s|
  {
    if |s| == 0 then []
    else
      var q, e := s[..|s| - 1], s[|s| - 1];
      Heads(q) + (if e.group.None? || !KeyMet(q, e.GroupKeyOf()) then [e] else [])
  }

  /** The top-level element an entry opens: its single, or the group of its key. */
  predicate Opens(t: TopEntry, e: Leaf)
  {
    if e.group.None? then t == Single(e) else t.Group? && t.key == e.GroupKeyOf()
  }

  /** The top level lists one element per head, in the order the heads were
   *  met: a group sits where the first entry of its key was met, and singles
   *  keep their input order among themselves and among the groups. */
  lemma {:induction false} GroupAllFollowsHeads(s: seq<Leaf>)
    ensures |GroupAll(s).top| == |Heads(s)|
    ensures forall i :: 0 <= i < |Heads(s)| ==> Opens(GroupAll(s).top[i], Heads(s)[i])
    decreases |s|
  {
    if |s| > 0 {
      var q, e := s[..|s| - 1], s[|s| - 1];
      GroupAllFollowsHeads(q);
      GroupAllShaped(q);
      StepFollowsHeads(q, GroupAll(q), e);
    }
  }

  /** One grouping step opens an element exactly when the entry is a head. */
  lemma StepFollowsHeads(q: seq<Leaf>, g: Grouping, e: Leaf)
    requires Covers(q, g.top)
    requires |g.top| == |Heads(q)| && forall i :: 0 <= i < |Heads(q)| ==> Opens(g.top[i], Heads(q)[i])
    ensures var h := Heads(q) + (if e.group.None? || !KeyMet(q, e.GroupKeyOf()) then [e] else []);
      |GroupStep(g, e).top| == |h| && forall i :: 0 <= i < |h| ==> Opens(GroupStep(g, e).top[i], h[i])
  {
    var top' := GroupStep(g, e).top;
    if e.group.None? {
      assert top' == g.top + [Single(e)];
    } else {
      var k := e.GroupKeyOf();
      match FindGroup(g.top, k)
      case None =>
        var (t, d) := Join(Group(k, None, []), e);
        assert top' == g.top + [t];
        assert !KeyMet(q, k);
      case Some(i) =>
        var (t, d) := Join(g.top[i], e);
        assert top' == g.top[i := t];
        var h := Heads(q)[i];
        assert Opens(g.top[i], h);
        assert h in q && h.InGroupKey(k);
    }
  }

  /** One step adds the entry to the list or to the discarded summaries. */
  lemma StepAccounts(g: Grouping, e: Leaf)
    ensures multiset(Leaves(GroupStep(g, e).top)) + multiset(GroupStep(g, e).discarded)
         == multiset(Leaves(g.top)) + multiset(g.discarded) + multiset{e}
  {
    if e.group.None? {
      LeavesAppend(g.top, [Single(e)]);
      LeavesOne(Single(e));
    } else {
      match FindGroup(g.top, e.GroupKeyOf())
      case None => StepAccountsNew(g, e);
      case Some(i) => StepAccountsJoin(g, e, i);
    }
  }

  lemma StepAccountsNew(g: Grouping, e: Leaf)
    requires e.group.Some? && FindGroup(g.top, e.GroupKeyOf()).None?
    ensures multiset(Leaves(GroupStep(g, e).top)) + multiset(GroupStep(g, e).discarded)
         == multiset(Leaves(g.top)) + multiset(g.discarded) + multiset{e}
  {
    var g' := GroupStep(g, e);
    var r := Join(Group(e.GroupKeyOf(), None, []), e);
    assert g'.top == g.top + [r.0] && g'.discarded == g.discarded + r.1;
    LeavesAppend(g.top, [r.0]);
    LeavesOne(r.0);
    assert EntryLeaves(Group(e.GroupKeyOf(), None, [])) == [];
    AccountUpdate(multiset(Leaves(g'.top)), multiset{}, multiset(Leaves(g.top)),
                  multiset(EntryLeaves(r.0)), multiset(r.1), multiset{e}, multiset(g.discarded));
  }

  lemma StepAccountsJoin(g: Grouping, e: Leaf, i: nat)
    requires e.group.Some? && FindGroup(g.top, e.GroupKeyOf()) == Some(i)
    ensures multiset(Leaves(GroupStep(g, e).top)) + multiset(GroupStep(g, e).discarded)
         == multiset(Leaves(g.top)) + multiset(g.discarded) + multiset{e}
  {
    var g' := GroupStep(g, e);
    var r := Join(g.top[i], e);
    assert g'.top == g.top[i := r.0] && g'.discarded == g.discarded + r.1;
    LeavesUpdate(g.top, i, r.0);
    AccountUpdate(multiset(Leaves(g'.top)), multiset(EntryLeaves(g.top[i])), multiset(Leaves(g.top)),
                  multiset(EntryLeaves(r.0)), multiset(r.1), multiset{e}, multiset(g.discarded));
  }

  /** Grouping loses nothing: the entries in the list plus the discarded
   *  summaries are exactly the entries grouped. */
  lemma {:induction false} GroupAllAccounts(s: seq<Leaf>)
    ensures multiset(Leaves(GroupAll(s).top)) + multiset(GroupAll(s).discarded) == multiset(s)
    decreases |s|
  {
    if |s| > 0 {
      var q := s[..|s| - 1];
      var e := s[|s| - 1];
      GroupAllAccounts(q);
      StepAccounts(GroupAll(q), e);
      SnocSplit(s);
    }
  }

  lemma AccountUpdate(u: multiset<Leaf>, old_t: multiset<Leaf>, top: multiset<Leaf>, new_t: multiset<Leaf>,
                      d: multiset<Leaf>, e: multiset<Leaf>, disc: multiset<Leaf>)
    requires u + old_t == top + new_t
    requires new_t + d == old_t + e
    ensures u + (disc + d) == (top + disc) + e
  {
    forall x ensures (u + (disc + d))[x] == ((top + disc) + e)[x] {
      assert (u + old_t)[x] == (top + new_t)[x];
      assert (new_t + d)[x] == (old_t + e)[x];
    }
  }

  /** `groups` maps each key of a group in `top` to that group's position. */
  ghost predicate Indexed(groups: map<GroupKey, nat>, top: seq<TopEntry>)
  {
    && (forall k :: k in groups ==> groups[k] < |top| && top[groups[k]].Group? && top[groups[k]].key == k)
    && (forall j :: 0 <= j < |top| && top[j].Group? ==> top[j].key in groups)
  }

  lemma IndexedSingle(groups: map<GroupKey, nat>, top: seq<TopEntry>, e: Leaf)
    requires Indexed(groups, top)
    ensures Indexed(groups, top + [Single(e)])
  {
    var top' := top + [Single(e)];
    assert forall j :: 0 <= j < |top| ==> top'[j] == top[j];
  }

  lemma IndexedNew(groups: map<GroupKey, nat>, top: seq<TopEntry>, t: TopEntry)
    requires Indexed(groups, top) && t.Group? && t.key !in groups
    ensures Indexed(groups[t.key := |top|], top + [t])
  {
    var top' := top + [t];
    assert forall j :: 0 <= j < |top| ==> top'[j] == top[j];
  }

  lemma IndexedJoin(groups: map<GroupKey, nat>, top: seq<TopEntry>, at: nat, t: TopEntry)
    requires Indexed(groups, top) && OneGroupPerKey(top)
    requires at < |top| && top[at].Group? && t.Group? && t.key == top[at].key
    ensures Indexed(groups, top[at := t])
  {
  }

  /** Places one entry: at top level, into its existing group, or into a new
   *  group appended to the list. */
  method Place(top: seq<TopEntry>, discarded: seq<Leaf>, groups: map<GroupKey, nat>, e: Leaf)
    returns (top': seq<TopEntry>, discarded': seq<Leaf>, groups': map<GroupKey, nat>)
    requires Indexed(groups, top) && OneGroupPerKey(top)
    ensures Grouping(top', discarded') == GroupStep(Grouping(top, discarded), e)
    ensures Indexed(groups', top') && OneGroupPerKey(top')
  {
    StepOneGroupPerKey(Grouping(top, discarded), e);
    if e.group.None? {
      IndexedSingle(groups, top, e);
      top', discarded', groups' := top + [Single(e)], discarded, groups;
    } else {
      var k := e.GroupKeyOf();
      if k in groups {
        var at := groups[k];
        FindGroupUnique(top, k, at);
        var (t, d) := Join(top[at], e);
        IndexedJoin(groups, top, at, t);
        top', discarded', groups' := top[at := t], discarded + d, groups;
      } else {
        var (t, d) := Join(Group(k, None, []), e);
        assert FindGroup(top, k).None?;
        IndexedNew(groups, top, t);
        top', discarded', groups' := top + [t], discarded + d, groups[k := |top|];
      }
    }
  }

  /** Groups the entries in order, finding each entry's group through a map
   *  from group key to the group's position in the list. */
  method GroupNotifs(entries: seq<Leaf>) returns (top: seq<TopEntry>, discarded: seq<Leaf>)
    ensures Grouping(top, discarded) == GroupAll(entries)
  {
    top, discarded := [], [];
    var groups: map<GroupKey, nat> := map[];
    var i := 0;
    while i < |entries|
      invariant 0 <= i <= |entries|
      invariant Grouping(top, discarded) == GroupAll(entries[..i])
      invariant Indexed(groups, top) && OneGroupPerKey(top)
    {
      PrefixStep(entries, i);
      top, discarded, groups := Place(top, discarded, groups, entries[i]);
      i := i + 1;
    }
    PrefixAll(entries);
  }

  /** The groups formed hold summaries only in the summary slot, and every
   *  discarded entry is a summary. */
  lemma GroupAllMarked(s: seq<Leaf>)
    ensures SummariesMarked(GroupAll(s).top)
    ensures forall x :: x in GroupAll(s).discarded ==> x.isSummary
  {
    var g := GroupAll(s);
    GroupAllShaped(s);
    forall t | t in g.top && t.Group? && t.summary.Some? ensures t.summary.value.isSummary {
      var i :| 0 <= i < |g.top| && g.top[i] == t;
      SelectMembers(s, IsSummaryOf(t.key), t.summary.value);
    }
  }
}

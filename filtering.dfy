/** Filtering: running a filter chain over the entries before grouping, and
 *  over the grouped and sorted list before rendering. */
module Filtering {
  import opened Entries
  import opened Selection
  import opened Pluggables
  import opened Seqs

  /** True of an entry no filter of the chain excludes at time `now`. */
  function Passes(fs: seq<NotifFilter>, now: int): Leaf -> bool
  {
    (e: Leaf) => FirstRejecting(fs, e, now).None?
  }

  /** The entries the chain keeps, in their original order. */
  function Kept(s: seq<Leaf>, fs: seq<NotifFilter>, now: int): seq<Leaf>
  {
    Select(s, Passes(fs, now))
  }

  /** An entry survives the chain exactly when it was offered and no filter
   *  excluded it; an excluded entry was excluded by the first filter that
   *  wanted it out, and the ones before that filter all let it through. */
  lemma KeptMembers(s: seq<Leaf>, fs: seq<NotifFilter>, now: int, x: Leaf)
    ensures x in Kept(s, fs, now) <==> x in s && forall j :: 0 <= j < |fs| ==> !ShouldFilterOut(fs[j], x, now)
  {
    SelectMembers(s, Passes(fs, now), x);
  }

  /** Runs the chain over each entry: records which filter, if any, excluded
   *  it and keeps the rest in order. */
  method FilterNotifs(entries: seq<Leaf>, fs: seq<NotifFilter>, now: int)
    returns (kept: seq<Leaf>, verdicts: seq<Option<nat>>)
    ensures kept == Kept(entries, fs, now)
    ensures |verdicts| == |entries|
    ensures forall i :: 0 <= i < |entries| ==> verdicts[i] == FirstRejecting(fs, entries[i], now)
  {
    kept, verdicts := [], [];
    var i := 0;
    while i < |entries|
      invariant 0 <= i <= |entries|
      invariant kept == Kept(entries[..i], fs, now)
      invariant |verdicts| == i
      invariant forall j :: 0 <= j < i ==> verdicts[j] == FirstRejecting(fs, entries[j], now)
    {
      var e := entries[i];
      var v := FirstRejecting(fs, e, now);
      if v.None? {
        kept := kept + [e];
      }
      verdicts := verdicts + [v];
      PrefixStep(entries, i);
      i := i + 1;
    }
    PrefixAll(entries);
  }

  /** The pre-render filter applied to one top-level element: a single entry
   *  is dropped when excluded; a group loses an excluded summary and its
   *  excluded children but stays in the list (pruning settles it later). */
  function FilterEntry(t: TopEntry, fs: seq<NotifFilter>, now: int): seq<TopEntry>
  {
    match t
    case Single(e) => if FirstRejecting(fs, e, now).None? then [t] else []
    case Group(k, s, ch) =>
      var s' := if s.Some? && FirstRejecting(fs, s.value, now).Some? then None else s;
      [Group(k, s', Kept(ch, fs, now))]
  }

  function FilterTop(top: seq<TopEntry>, fs: seq<NotifFilter>, now: int): seq<TopEntry>
    decreases |top|
  {
    if |top| == 0 then [] else FilterTop(top[..|top| - 1], fs, now) + FilterEntry(top[|top| - 1], fs, now)
  }

  lemma EntryLeavesFiltered(t: TopEntry, fs: seq<NotifFilter>, now: int)
    ensures Leaves(FilterEntry(t, fs, now)) == Kept(EntryLeaves(t), fs, now)
  {
    var p := Passes(fs, now);
    match t
    case Single(e) =>
      SelectOne(e, p);
      if FirstRejecting(fs, e, now).None? { LeavesOne(t); }
    case Group(k, s, ch) =>
      var s' := if s.Some? && FirstRejecting(fs, s.value, now).Some? then None else s;
      var t' := Group(k, s', Kept(ch, fs, now));
      assert FilterEntry(t, fs, now) == [t'];
      LeavesOne(t');
      if s.Some? {
        SelectOne(s.value, p);
        SelectAppend([s.value], ch, p);
      } else {
        assert EntryLeaves(t) == ch;
      }
  }

  /** The leaves that reach the renderer are exactly the leaves of the sorted
   *  list that the pre-render chain keeps, in the same order: every leaf of the
   *  list, summaries and children included, is tested, and nothing else is. */
  lemma {:induction false} FilterTopLeaves(top: seq<TopEntry>, fs: seq<NotifFilter>, now: int)
    ensures Leaves(FilterTop(top, fs, now)) == Kept(Leaves(top), fs, now)
    decreases |top|
  {
    if |top| > 0 {
      var q := top[..|top| - 1];
      var t := top[|top| - 1];
      FilterTopLeaves(q, fs, now);
      LeavesAppend(FilterTop(q, fs, now), FilterEntry(t, fs, now));
      EntryLeavesFiltered(t, fs, now);
      SelectAppend(Leaves(q), EntryLeaves(t), Passes(fs, now));
    }
  }

  /** Filtering one element keeps it a group exactly when it was one, under the same key. */
  lemma FilterEntryKeepsGroup(t: TopEntry, fs: seq<NotifFilter>, now: int)
    ensures GroupKeys(FilterEntry(t, fs, now)) == GroupKeys([t])
  {
    assert [t][..0] == [];
    var f := FilterEntry(t, fs, now);
    if |f| == 1 { assert f[..0] == []; }
  }

  /** Filtering keeps every group of the list, under the same key and in the
   *  same place among the groups, and never creates a group. */
  lemma {:induction false} FilterTopKeepsGroups(top: seq<TopEntry>, fs: seq<NotifFilter>, now: int)
    ensures GroupKeys(FilterTop(top, fs, now)) == GroupKeys(top)
    decreases |top|
  {
    if |top| > 0 {
      var q, t := top[..|top| - 1], top[|top| - 1];
      FilterTopKeepsGroups(q, fs, now);
      GroupKeysAppend(FilterTop(q, fs, now), FilterEntry(t, fs, now));
      FilterEntryKeepsGroup(t, fs, now);
      assert GroupKeys(top) == GroupKeys(q) + GroupKeys([t]) by {
        SnocSplit(top);
        GroupKeysAppend(q, [t]);
      }
    }
  }

  /** Runs the pre-render chain over the list: single entries, then each
   *  group's summary and children. */
  method FilterShade(top: seq<TopEntry>, fs: seq<NotifFilter>, now: int) returns (out: seq<TopEntry>)
    ensures out == FilterTop(top, fs, now)
  {
    out := [];
    var i := 0;
    while i < |top|
      invariant 0 <= i <= |top|
      invariant out == FilterTop(top[..i], fs, now)
    {
      match top[i] {
        case Single(e) =>
          if FirstRejecting(fs, e, now).None? {
            out := out + [top[i]];
          }
        case Group(k, s, ch) =>
          var summary := s;
          if s.Some? && FirstRejecting(fs, s.value, now).Some? {
            summary := None;
          }
          var children, _ := FilterNotifs(ch, fs, now);
          out := out + [Group(k, summary, children)];
      }
      PrefixStep(top, i);
      i := i + 1;
    }
    PrefixAll(top);
  }

  /** The pre-render chain can empty a group's summary slot but never fills it. */
  lemma {:induction false} FilterTopMarked(top: seq<TopEntry>, fs: seq<NotifFilter>, now: int)
    requires SummariesMarked(top)
    ensures SummariesMarked(FilterTop(top, fs, now))
    decreases |top|
  {
    if |top| > 0 {
      var q, t := top[..|top| - 1], top[|top| - 1];
      assert SummariesMarked(q) by {
        forall u | u in q ensures u in top { }
      }
      FilterTopMarked(q, fs, now);
      assert t in top;
    }
  }
}

/** The test fixture that feeds the list builder: it hands out per-package
 *  ids and global ranks, queues new entries until the next dispatch, and then
 *  announces and hands the whole entry set to the builder.  Its bookkeeping is
 *  what guarantees that the builder only ever sees entries with distinct keys. */
module TestHarness {
  import opened Entries
  import opened Pluggables
  import opened Pipeline
  import opened ListBuilding

  /** Every entry's id was handed out for its package, and no key repeats. */
  ghost predicate IdsIssued(entries: seq<Leaf>, nextIds: map<string, int>)
  {
    (forall i :: 0 <= i < |entries| ==> entries[i].pkg in nextIds && 0 <= entries[i].id < nextIds[entries[i].pkg])
    && DistinctKeys(entries)
  }

  /** The id handed out next for `pkg`: ids start at 0 in each package. */
  function IdFor(nextIds: map<string, int>, pkg: string): int
  {
    if pkg in nextIds then nextIds[pkg] else 0
  }

  /** An entry queued with a fresh id stays within the issued ids, keys still distinct. */
  lemma QueueFresh(entries: seq<Leaf>, nextIds: map<string, int>, x: Leaf)
    requires IdsIssued(entries, nextIds)
    requires x.id == IdFor(nextIds, x.pkg) && (x.pkg !in nextIds ==> x.id == 0)
    requires forall p :: p in nextIds ==> nextIds[p] >= 0
    ensures IdsIssued(entries + [x], nextIds[x.pkg := x.id + 1])
  {
    var s, m := entries + [x], nextIds[x.pkg := x.id + 1];
    forall i | 0 <= i < |s| ensures s[i].pkg in m && 0 <= s[i].id < m[s[i].pkg] {
      if i < |entries| { assert s[i] == entries[i]; }
    }
    forall i, j | 0 <= i < |s| && 0 <= j < |s| && i != j ensures s[i].Key() != s[j].Key() {
      if i < |entries| && j < |entries| {
        assert s[i] == entries[i] && s[j] == entries[j];
      } else if i < |entries| {
        assert s[i] == entries[i] && s[j] == x;
      } else if j < |entries| {
        assert s[i] == x && s[j] == entries[j];
      }
    }
  }

  /** Dropping one entry keeps the issued ids and the distinct keys. */
  lemma DropKeepsIssued(entries: seq<Leaf>, nextIds: map<string, int>, k: nat)
    requires IdsIssued(entries, nextIds) && k < |entries|
    ensures IdsIssued(entries[..k] + entries[k + 1..], nextIds)
  {
    var s := entries[..k] + entries[k + 1..];
    assert forall i :: 0 <= i < |s| ==> s[i] == entries[if i < k then i else i + 1];
  }

  /** Changing an entry's rank, `when` or post time keeps its key. */
  lemma RetimeKeepsIssued(entries: seq<Leaf>, nextIds: map<string, int>, k: nat, y: Leaf)
    requires IdsIssued(entries, nextIds) && k < |entries| && y.Key() == entries[k].Key()
    ensures IdsIssued(entries[k := y], nextIds)
  {
  }

  class Harness {
    /** The next id of each package that has posted. */
    var nextIds: map<string, int>
    /** The next rank; ranks are global and increase by one per entry. */
    var nextRank: int
    /** Entries already handed to the builder, by index. */
    var entrySet: seq<Leaf>
    /** Entries added since the last dispatch; still being configured. */
    var pendingSet: seq<Leaf>
    /** The fake clock's uptime. */
    var now: int
    const builder: ListBuilder

    ghost predicate Valid()
      reads this
    {
      (forall p :: p in nextIds ==> nextIds[p] >= 0) && IdsIssued(entrySet + pendingSet, nextIds)
    }

    /** A fresh fixture over a fresh builder. */
    constructor(start: int)
      ensures Valid() && fresh(builder)
      ensures nextIds == map[] && nextRank == 0 && entrySet == [] && pendingSet == [] && now == start
      ensures builder.Snapshot() == BuilderState(StateIdle, Chains([], [], DefaultSections, [], []),
                                                 Listeners([], [], []), [], map[], map[], 0, [], 0, [])
    {
      nextIds := map[];
      nextRank := 0;
      entrySet, pendingSet := [], [];
      now := start;
      builder := new ListBuilder();
    }

    /** Hands out the next id of a package. */
    method NextId(pkg: string) returns (id: int)
      modifies this
      ensures id == IdFor(old(nextIds), pkg) && nextIds == old(nextIds)[pkg := id + 1]
      ensures nextRank == old(nextRank) && entrySet == old(entrySet) && pendingSet == old(pendingSet) && now == old(now)
    {
      id := if pkg in nextIds then nextIds[pkg] else 0;
      nextIds := nextIds[pkg := id + 1];
    }

    /** Hands out the next rank. */
    method NextRank() returns (rank: int)
      modifies this
      ensures rank == old(nextRank) && nextRank == rank + 1
      ensures nextIds == old(nextIds) && entrySet == old(entrySet) && pendingSet == old(pendingSet) && now == old(now)
    {
      rank := nextRank;
      nextRank := nextRank + 1;
    }

    /** Queues an entry with the next id of its package and the next rank. */
    method Add(index: nat, pkg: string, group: Option<string>, isSummary: bool)
      requires Valid() && index == |entrySet| + |pendingSet|
      modifies this
      ensures Valid()
      ensures pendingSet == old(pendingSet) + [Leaf(pkg, IdFor(old(nextIds), pkg), old(nextRank), 0, 0, group, isSummary)]
      ensures nextIds == old(nextIds)[pkg := IdFor(old(nextIds), pkg) + 1] && nextRank == old(nextRank) + 1
      ensures entrySet == old(entrySet) && now == old(now)
    {
      var id := NextId(pkg);
      var rank := NextRank();
      var x := Leaf(pkg, id, rank, 0, 0, group, isSummary);
      QueueFresh(entrySet + pendingSet, old(nextIds), x);
      assert entrySet + (pendingSet + [x]) == entrySet + pendingSet + [x];
      pendingSet := pendingSet + [x];
    }

    /** A top-level notification. */
    method AddNotif(index: nat, pkg: string)
      requires Valid() && index == |entrySet| + |pendingSet|
      modifies this
      ensures Valid()
      ensures pendingSet == old(pendingSet) + [Leaf(pkg, IdFor(old(nextIds), pkg), old(nextRank), 0, 0, None, false)]
      ensures nextIds == old(nextIds)[pkg := IdFor(old(nextIds), pkg) + 1] && nextRank == old(nextRank) + 1
      ensures entrySet == old(entrySet) && now == old(now)
    {
      Add(index, pkg, None, false);
    }

    /** The summary of group `groupId` of `pkg`. */
    method AddGroupSummary(index: nat, pkg: string, groupId: string)
      requires Valid() && index == |entrySet| + |pendingSet|
      modifies this
      ensures Valid()
      ensures pendingSet == old(pendingSet) + [Leaf(pkg, IdFor(old(nextIds), pkg), old(nextRank), 0, 0, Some(groupId), true)]
      ensures nextIds == old(nextIds)[pkg := IdFor(old(nextIds), pkg) + 1] && nextRank == old(nextRank) + 1
      ensures entrySet == old(entrySet) && now == old(now)
    {
      Add(index, pkg, Some(groupId), true);
    }

    /** A child of group `groupId` of `pkg`. */
    method AddGroupChild(index: nat, pkg: string, groupId: string)
      requires Valid() && index == |entrySet| + |pendingSet|
      modifies this
      ensures Valid()
      ensures pendingSet == old(pendingSet) + [Leaf(pkg, IdFor(old(nextIds), pkg), old(nextRank), 0, 0, Some(groupId), false)]
      ensures nextIds == old(nextIds)[pkg := IdFor(old(nextIds), pkg) + 1] && nextRank == old(nextRank) + 1
      ensures entrySet == old(entrySet) && now == old(now)
    {
      Add(index, pkg, Some(groupId), false);
    }

    /** Reconfigures a queued entry's rank, `when` and post time before it is dispatched. */
    method Configure(index: nat, rank: int, when: int, postTime: int)
      requires Valid() && |entrySet| <= index < |entrySet| + |pendingSet|
      modifies this
      ensures Valid()
      ensures entrySet == old(entrySet) && nextIds == old(nextIds) && nextRank == old(nextRank) && now == old(now)
      ensures var k := index - |old(entrySet)|;
        pendingSet == old(pendingSet)[k := old(pendingSet)[k].(rank := rank, when := when, postTime := postTime)]
    {
      var k := index - |entrySet|;
      var y := pendingSet[k].(rank := rank, when := when, postTime := postTime);
      RetimeKeepsIssued(entrySet + pendingSet, nextIds, index, y);
      assert (entrySet + pendingSet)[index := y] == entrySet + pendingSet[k := y];
      pendingSet := pendingSet[k := y];
    }

    /** Removes a dispatched entry from the set handed to the builder. */
    method RemoveEntry(index: nat)
      requires Valid() && index < |entrySet|
      modifies this
      ensures Valid()
      ensures entrySet == old(entrySet)[..index] + old(entrySet)[index + 1..]
      ensures pendingSet == old(pendingSet) && nextIds == old(nextIds) && nextRank == old(nextRank) && now == old(now)
    {
      var all := entrySet + pendingSet;
      DropKeepsIssued(all, nextIds, index);
      assert all[..index] == entrySet[..index];
      assert all[index + 1..] == entrySet[index + 1..] + pendingSet;
      entrySet := entrySet[..index] + entrySet[index + 1..];
      assert all[..index] + all[index + 1..] == entrySet + pendingSet;
    }

    /** Moves the fake clock. */
    method SetUptime(t: int)
      modifies this
      ensures now == t
      ensures entrySet == old(entrySet) && pendingSet == old(pendingSet) && nextIds == old(nextIds)
      ensures nextRank == old(nextRank)
    {
      now := t;
    }

    /** Moves the queued entries into the entry set, then announces a build and
     *  hands the builder the whole set; a refused announcement stops there. */
    method DispatchBuild() returns (o: Outcome)
      requires Valid()
      modifies this, builder
      ensures Valid() && DistinctKeys(entrySet)
      ensures entrySet == old(entrySet) + old(pendingSet) && pendingSet == []
      ensures nextIds == old(nextIds) && nextRank == old(nextRank) && now == old(now)
      ensures Rank(old(builder.state)) > Rank(StateBuildPending) ==>
                o == Fail && builder.Snapshot() == old(builder.Snapshot())
      ensures Rank(old(builder.state)) <= Rank(StateBuildPending) ==>
                (builder.Snapshot(), o)
                == Build(old(builder.Snapshot()).(state := StateBuildPending, entries := entrySet), now)
    {
      entrySet := entrySet + pendingSet;
      pendingSet := [];
      assert entrySet + pendingSet == entrySet;
      o := builder.OnBeginDispatchToListeners();
      if o == Fail {
        return;
      }
      o := builder.OnBuildList(entrySet, now);
    }
  }
}

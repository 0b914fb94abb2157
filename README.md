# Notification list builder and insets source consumer

This project models two stateful components of the Android platform in Dafny
and proves what they promise.

**The notification list builder.** The builder takes the flat set of
notification entries that the collection hands it. In one pass it turns them
into the list the shade renders:

1. Pre-group filters remove entries.
2. Entries that share a group key are gathered into one group per key. When a
   group has several summaries, the one posted last is kept.
3. Groups that are not valid are dissolved. A valid group has a summary and at
   least two children. A group without a summary, or with a summary and one
   child, is dissolved where it stands. A summary without children is shown as
   a single entry.
4. Promoters lift group children to top level.
5. The list is sectioned and sorted by section, then by the comparator chain,
   then by rank. Groups are placed by their summary. Children are sorted by
   rank, then by `when`, latest first.
6. Pre-render filters remove entries, and groups are checked again.

The builder calls its listeners between the stages. It refuses (with
`IllegalStateException`) an invalidation of a pluggable whose stage has
already run in the current pass. It keeps per-entry annotations from pass to
pass: parent, previous parent, the excluding filter, the promoter and the
first-added iteration.

The implementation class `NotifListBuilderImpl` is not part of this model.
The builder is modelled from its test class, `NotifListBuilderImplTest`. The
assertions of that class fix the observable contract. Its four helper
pluggables are the concrete policies:

- `PackageFilter`
- `IdPromoter`
- `HypeComparator`
- `PackageSectioner`

The module layout follows the pipeline:

- `Entries`: entries, groups, parents and the top-level list.
- `Pluggables`: the four policies and their first-wins chains and orders.
- `Filtering`, `Grouping`, `Pruning`, `Promoting` and `ShadeSort`: one stage
  each. Each stage has a specification function, lemmas about it, and a method
  that computes the stage with loops and is proved equal to the function.
- `Pipeline`: one pass as a function of entries, pluggables and `now`, with
  the promises about the rendered list.
- `ListBuilding`: the builder as a class. It holds the state machine, the
  registration methods, the listener calls, the invalidation protocol and the
  annotations committed after a pass.
- `TestHarness`: the fixture's id and rank bookkeeping, its pending and
  dispatched entry sets, and `dispatchBuild`.
- `Seqs`, `Selection` and `Sorting`: generic sequence facts, order-preserving
  selection, and a stable insertion sort used as the reference order.

**The insets source consumer.** `InsetsSourceConsumer` keeps three things for
one insets type: the visibility the client requested, the control the server
delivered (if any), and whether the window has focus.

- While it holds the control, it pushes the requested visibility into the
  shared `InsetsState`.
- When it loses the control, it restores the visibility the server last
  dispatched.
- When it gains the control while the state disagrees with the request, it
  asks the caller to animate the type, by OR-ing into a one-element array.

The shared state is a class over a `map<int, bool>`. The controller and the
transaction supplier are classes that log the calls made on them.

A note on `setControl` (InsetsSourceConsumer.java:113-118). On the path that
gains the control without an animation, the override can never report a
change, so `notifyVisibilityChanged` at :116 is never called on that path.
The check at :104 reads the source through `getSource`, which creates it when
it is missing. Reaching :115 means the requested visibility already equals the
state's. The contract of `Insets.InsetsSourceConsumer.SetControl` states this:
the only controller call on that path is the compat-visibility update. This is
dead code, not a fault.

Where the builder's documented behaviour and its tests disagree, the model follows
the tests:

- An invalidation during a pass, of a pluggable whose stage is still ahead, is
  ignored rather than scheduling a second pass. With a rebuild scheduled,
  NotifListBuilderImplTest.java:926-938 would never finish, because its
  listener invalidates on every pass.
- A summary with no children stays in the list as a single entry
  (NotifListBuilderImplTest.java:277-293). It is not discarded.

## Model

All paths are relative to the repository root.

| member | source | states |
|---|---|---|
| Pluggables.Compare | packages/SystemUI/tests/src/com/android/systemui/statusbar/notification/collection/NotifListBuilderImplTest.java:1185-1202 | `HypeComparator` is negative exactly when only the first entry's package is preferred, and positive exactly when only the second's is |
| Pluggables.FirstRejecting | packages/SystemUI/tests/src/com/android/systemui/statusbar/notification/collection/NotifListBuilderImplTest.java:450-479 | the filter that excludes an entry is the first in registration order that wants it out; every filter before it keeps it; none wanting it out gives none |
| Pluggables.FirstPromoter | packages/SystemUI/tests/src/com/android/systemui/statusbar/notification/collection/NotifListBuilderImplTest.java:521-549 | the promoter recorded for a child is the first in registration order that promotes it; no earlier promoter does |
| Pluggables.ChainCompare | packages/SystemUI/tests/src/com/android/systemui/statusbar/notification/collection/NotifListBuilderImplTest.java:600-624 | the comparator chain's verdict is that of the first comparator with a non-zero answer; it is zero exactly when every comparator answers zero |
| Pluggables.ChainAntisymmetric | packages/SystemUI/tests/src/com/android/systemui/statusbar/notification/collection/NotifListBuilderImplTest.java:1195-1202 | swapping the two entries negates the chain's verdict |
| Pluggables.ChainTransitive | packages/SystemUI/tests/src/com/android/systemui/statusbar/notification/collection/NotifListBuilderImplTest.java:1195-1202 | the chain's "not after" and "equal" are transitive |
| Pluggables.TopOrderIsTotalPreorder | packages/SystemUI/tests/src/com/android/systemui/statusbar/notification/collection/NotifListBuilderImplTest.java:552-624 | the top-level order (section, then comparator chain, then rank) is total and transitive, so sorting by it is well defined |
| Pluggables.ChildOrderIsTotalPreorder | packages/SystemUI/tests/src/com/android/systemui/statusbar/notification/collection/NotifListBuilderImplTest.java:192-220 | the child order (rank ascending, then `when` descending) is total and transitive |
| Filtering.KeptMembers | packages/SystemUI/tests/src/com/android/systemui/statusbar/notification/collection/NotifListBuilderImplTest.java:382-417 | an entry survives a filter chain exactly when it was handed in and no filter of the chain wants it out |
| Filtering.FilterNotifs | packages/SystemUI/tests/src/com/android/systemui/statusbar/notification/collection/NotifListBuilderImplTest.java:450-479 | the filtering loop keeps exactly the surviving entries in order, and records for each entry the first filter that excluded it |
| Filtering.FilterTopLeaves | packages/SystemUI/tests/src/com/android/systemui/statusbar/notification/collection/NotifListBuilderImplTest.java:420-447 | filtering a top-level list of entries and groups keeps exactly the leaves a flat filter would keep, in the same order |
| Filtering.FilterTopKeepsGroups | packages/SystemUI/tests/src/com/android/systemui/statusbar/notification/collection/NotifListBuilderImplTest.java:420-447 | the pre-render filter removes leaves but never a group |
| Filtering.FilterShade | packages/SystemUI/tests/src/com/android/systemui/statusbar/notification/collection/NotifListBuilderImplTest.java:420-447 | the pre-render filtering loop computes the specified filtered list |
| Grouping.Latest | packages/SystemUI/tests/src/com/android/systemui/statusbar/notification/collection/NotifListBuilderImplTest.java:223-252 | the kept summary is one of the candidates with the latest post time; there is none only when there are no candidates |
| Grouping.LatestIsFirstOfTies | packages/SystemUI/tests/src/com/android/systemui/statusbar/notification/collection/NotifListBuilderImplTest.java:223-252 | among summaries with equal post times, the earliest added wins |
| Grouping.GroupAllShaped | packages/SystemUI/tests/src/com/android/systemui/statusbar/notification/collection/NotifListBuilderImplTest.java:137-189 | grouping gives one group per key; each group's children are exactly the entries with its key in order, and its summary is the latest one; every ungrouped entry is a single and every single an ungrouped entry; only losing summaries are discarded |
| Grouping.GroupAllFollowsHeads | packages/SystemUI/tests/src/com/android/systemui/statusbar/notification/collection/NotifListBuilderImplTest.java:137-189 | the top level has one element per head (an ungrouped entry, or the first entry met of a group key), in the order the heads were met: each group sits where its key was first met, and singles keep their input order |
| Grouping.StepFollowsHeads | packages/SystemUI/tests/src/com/android/systemui/statusbar/notification/collection/NotifListBuilderImplTest.java:137-189 | one grouping step opens a new element exactly when the entry is ungrouped or the first of its key, and otherwise only changes the group of its key in place |
| Grouping.GroupAllAccounts | packages/SystemUI/tests/src/com/android/systemui/statusbar/notification/collection/NotifListBuilderImplTest.java:223-252 | every entry ends up either in the grouped list or among the discarded summaries, exactly once |
| Grouping.Place | packages/SystemUI/tests/src/com/android/systemui/statusbar/notification/collection/NotifListBuilderImplTest.java:137-189 | placing one entry through the key-to-index map performs one specified grouping step and keeps the map accurate |
| Grouping.GroupNotifs | packages/SystemUI/tests/src/com/android/systemui/statusbar/notification/collection/NotifListBuilderImplTest.java:137-189 | the grouping loop computes the specified grouping |
| Grouping.GroupAllMarked | packages/SystemUI/tests/src/com/android/systemui/statusbar/notification/collection/NotifListBuilderImplTest.java:223-252 | the summary of every group is a summary, and so is every discarded entry |
| Pruning.PruneEntryFates | packages/SystemUI/tests/src/com/android/systemui/statusbar/notification/collection/NotifListBuilderImplTest.java:255-309 | a valid group or a single stays; a summary without children becomes a single; a group without a summary, or with too few children, puts its children at top level and discards its summary |
| Pruning.StaysIsIdentity | packages/SystemUI/tests/src/com/android/systemui/statusbar/notification/collection/NotifListBuilderImplTest.java:255-309 | an element is left as it is by pruning exactly when it stays |
| Pruning.PruneAllAt | packages/SystemUI/tests/src/com/android/systemui/statusbar/notification/collection/NotifListBuilderImplTest.java:786-831 | what an element becomes takes its place in the pruned list, between what the elements before and after it become (where dissolved children go is a choice of this model) |
| Pruning.PruneAllValid | packages/SystemUI/tests/src/com/android/systemui/statusbar/notification/collection/NotifListBuilderImplTest.java:295-309 | after pruning, every group in the list is valid |
| Pruning.PruneAllAccounts | packages/SystemUI/tests/src/com/android/systemui/statusbar/notification/collection/NotifListBuilderImplTest.java:295-332 | pruning loses no leaf: each one is in the new list or among the discarded summaries, exactly once |
| Pruning.PruneAllOrigins | packages/SystemUI/tests/src/com/android/systemui/statusbar/notification/collection/NotifListBuilderImplTest.java:255-309 | every element after pruning was in the list before, or is a single made from one of its leaves |
| Pruning.PruneValidIsIdentity | packages/SystemUI/tests/src/com/android/systemui/statusbar/notification/collection/NotifListBuilderImplTest.java:295-309 | a list of valid groups is left unchanged, with nothing discarded |
| Pruning.PruneIdempotent | packages/SystemUI/tests/src/com/android/systemui/statusbar/notification/collection/NotifListBuilderImplTest.java:312-332 | pruning twice is pruning once |
| Pruning.StayingInList | packages/SystemUI/tests/src/com/android/systemui/statusbar/notification/collection/NotifListBuilderImplTest.java:255-309 | the elements that stay are elements of the pruned list |
| Pruning.PruneAnnulledSummaries | packages/SystemUI/tests/src/com/android/systemui/statusbar/notification/collection/NotifListBuilderImplTest.java:356-379 | pruning discards only summaries |
| Pruning.PruneAllMarked | packages/SystemUI/tests/src/com/android/systemui/statusbar/notification/collection/NotifListBuilderImplTest.java:356-379 | pruning keeps every group summary a summary, and discards only summaries |
| Pruning.PruneOne | packages/SystemUI/tests/src/com/android/systemui/statusbar/notification/collection/NotifListBuilderImplTest.java:255-309 | the method computes the specified fate of one element |
| Pruning.PruneIncompleteGroups | packages/SystemUI/tests/src/com/android/systemui/statusbar/notification/collection/NotifListBuilderImplTest.java:786-831 | the pruning loop computes the specified pruned list and discarded summaries |
| Promoting.PromotedAreClaimed | packages/SystemUI/tests/src/com/android/systemui/statusbar/notification/collection/NotifListBuilderImplTest.java:482-519 | the promoted children are exactly the group children, in order, that some promoter claims |
| Promoting.PromotedMembers | packages/SystemUI/tests/src/com/android/systemui/statusbar/notification/collection/NotifListBuilderImplTest.java:482-549 | a child is promoted exactly when a promoter of the chain claims it, and it then appears as a top-level single |
| Promoting.PromoteAllGroups | packages/SystemUI/tests/src/com/android/systemui/statusbar/notification/collection/NotifListBuilderImplTest.java:312-332 | promotion keeps every element in place; a group keeps its key and summary and the children no promoter claims, in order |
| Promoting.PromoteAllAccounts | packages/SystemUI/tests/src/com/android/systemui/statusbar/notification/collection/NotifListBuilderImplTest.java:482-519 | promotion loses and duplicates no leaf |
| Promoting.PromoteAllMarked | packages/SystemUI/tests/src/com/android/systemui/statusbar/notification/collection/NotifListBuilderImplTest.java:482-519 | promotion keeps every group summary a summary |
| Promoting.OfferChildren | packages/SystemUI/tests/src/com/android/systemui/statusbar/notification/collection/NotifListBuilderImplTest.java:521-549 | the loop over one group's children splits them, in order, into those that stay and those promoted |
| Promoting.PromoteNotifs | packages/SystemUI/tests/src/com/android/systemui/statusbar/notification/collection/NotifListBuilderImplTest.java:482-549 | the promotion loop computes the specified promotion |
| ShadeSort.SortTopSorted | packages/SystemUI/tests/src/com/android/systemui/statusbar/notification/collection/NotifListBuilderImplTest.java:112-134 | sorting permutes the list, after sorting each group's children; the result is in top-level order, every group's children are in child order, and elements the order ties keep their input order |
| ShadeSort.SortTopAccounts | packages/SystemUI/tests/src/com/android/systemui/statusbar/notification/collection/NotifListBuilderImplTest.java:192-220 | sorting keeps exactly the same leaves |
| ShadeSort.SortShade | packages/SystemUI/tests/src/com/android/systemui/statusbar/notification/collection/NotifListBuilderImplTest.java:552-598 | the sorting method computes the specified order, and asks the sectioner about exactly one representative per top-level element: the entry itself, or the group's summary |
| ShadeSort.SortTopStable | packages/SystemUI/tests/src/com/android/systemui/statusbar/notification/collection/NotifListBuilderImplTest.java:112-134 | the top-level sort is stable: the elements whose representatives tie with any given entry appear in the same order before and after sorting |
| ShadeSort.SortChildrenStable | packages/SystemUI/tests/src/com/android/systemui/statusbar/notification/collection/NotifListBuilderImplTest.java:192-220 | sorting a group's children is stable: children tied in rank and `when` keep their order |
| Selection.SortByStable | packages/SystemUI/tests/src/com/android/systemui/statusbar/notification/collection/NotifListBuilderImplTest.java:112-134 | the reference sort is stable for any total preorder: the elements tied with any given value keep their input order |
| Selection.InsertStable | packages/SystemUI/tests/src/com/android/systemui/statusbar/notification/collection/NotifListBuilderImplTest.java:112-134 | inserting an element places it after every element it ties with, and leaves those in their order |
| ShadeSort.CompareByReps | packages/SystemUI/tests/src/com/android/systemui/statusbar/notification/collection/NotifListBuilderImplTest.java:1195-1202 | a group is compared through its summary |
| ShadeSort.TopSortedIffRepsSorted | packages/SystemUI/tests/src/com/android/systemui/statusbar/notification/collection/NotifListBuilderImplTest.java:552-598 | a top-level list is in order exactly when the list of its representatives is |
| Pipeline.SortInputHasReps | packages/SystemUI/tests/src/com/android/systemui/statusbar/notification/collection/NotifListBuilderImplTest.java:312-332 | the list handed to the sorter holds only valid groups, so every element has a representative |
| Pipeline.GroupStage | packages/SystemUI/tests/src/com/android/systemui/statusbar/notification/collection/NotifListBuilderImplTest.java:747-784 | the filter, group and prune methods compute the pass's first three lists |
| Pipeline.TransformStage | packages/SystemUI/tests/src/com/android/systemui/statusbar/notification/collection/NotifListBuilderImplTest.java:482-519 | the promote and prune methods compute the list handed to the before-sort listeners |
| Pipeline.SortStage | packages/SystemUI/tests/src/com/android/systemui/statusbar/notification/collection/NotifListBuilderImplTest.java:420-447 | the sort, pre-render filter and prune methods compute the rendered list |
| Pipeline.PassAccounts | packages/SystemUI/tests/src/com/android/systemui/statusbar/notification/collection/NotifListBuilderImplTest.java:137-332 | up to sorting, each entry the pre-group filters kept is in the sorted list or was discarded as a summary, exactly once |
| Pipeline.RenderAccounts | packages/SystemUI/tests/src/com/android/systemui/statusbar/notification/collection/NotifListBuilderImplTest.java:420-447 | the pre-render filters remove leaves as a flat filter would; the last prune then loses no leaf |
| Pipeline.PassMarked | packages/SystemUI/tests/src/com/android/systemui/statusbar/notification/collection/NotifListBuilderImplTest.java:223-379 | every entry discarded at any stage of a pass is a summary |
| Pipeline.SortedMembers | packages/SystemUI/tests/src/com/android/systemui/statusbar/notification/collection/NotifListBuilderImplTest.java:382-417 | a leaf reaches the sorter only if it was handed in and no pre-group filter excluded it; every such non-summary leaf does reach it |
| Pipeline.FinalValid | packages/SystemUI/tests/src/com/android/systemui/statusbar/notification/collection/NotifListBuilderImplTest.java:255-332 | every group in the rendered list has a summary and at least two children |
| Pipeline.FinalSound | packages/SystemUI/tests/src/com/android/systemui/statusbar/notification/collection/NotifListBuilderImplTest.java:382-447 | every rendered leaf was handed in, and no filter of either chain excludes it |
| Pipeline.FinalComplete | packages/SystemUI/tests/src/com/android/systemui/statusbar/notification/collection/NotifListBuilderImplTest.java:382-447 | a non-summary entry is rendered exactly when it was handed in and no filter of either chain excludes it |
| Pipeline.PassNoDuplicates | packages/SystemUI/tests/src/com/android/systemui/statusbar/notification/collection/NotifListBuilderImplTest.java:137-189 | for entries with distinct keys, no leaf appears twice in any list of the pass |
| Pipeline.FinalParents | packages/SystemUI/tests/src/com/android/systemui/statusbar/notification/collection/NotifListBuilderImplTest.java:1028-1086 | a leaf missing from the rendered list has no parent; a rendered leaf's parent is the root, or the group that holds it |
| Pipeline.SectionedEntries | packages/SystemUI/tests/src/com/android/systemui/statusbar/notification/collection/NotifListBuilderImplTest.java:552-598 | the sectioner is asked only about entries that were handed in and not filtered before grouping, and never about a group's child |
| Pipeline.FinalOrder | packages/SystemUI/tests/src/com/android/systemui/statusbar/notification/collection/NotifListBuilderImplTest.java:112-220 | the representatives of the elements that survive the last prune stay in sorted order; every group's children are in child order; when the pre-render filters dissolve no group, the rendered list is in top-level order |
| ListBuilding.InvalidationProtocol | packages/SystemUI/tests/src/com/android/systemui/statusbar/notification/collection/NotifListBuilderImplTest.java:863-938 | between passes an invalidation starts a pass; while a dispatch is pending it is ignored; it is refused once the pass has reached the pluggable's stage, and from then on until the pass ends; before that stage it is never refused |
| ListBuilding.FirstFailing | packages/SystemUI/tests/src/com/android/systemui/statusbar/notification/collection/NotifListBuilderImplTest.java:863-923 | the listener that fails a pass is the first, in registration order, whose invalidation is refused |
| ListBuilding.Fire | packages/SystemUI/tests/src/com/android/systemui/statusbar/notification/collection/NotifListBuilderImplTest.java:863-938 | the loop calls a hook's listeners in order, up to and including the first whose invalidation is refused, and succeeds exactly when none is refused |
| ListBuilding.PassEventsInOrder | packages/SystemUI/tests/src/com/android/systemui/statusbar/notification/collection/NotifListBuilderImplTest.java:627-680 | a pass's states, listener calls and render come in stage order |
| ListBuilding.PassRendersOnce | packages/SystemUI/tests/src/com/android/systemui/statusbar/notification/collection/NotifListBuilderImplTest.java:682-717 | a pass renders exactly when no listener fails it, and then exactly once, as its next-to-last event |
| ListBuilding.BuildRenders | packages/SystemUI/tests/src/com/android/systemui/statusbar/notification/collection/NotifListBuilderImplTest.java:863-938 | a pass fails exactly when a listener's invalidation is refused, and then stops in that state, rendering nothing and changing no annotation; otherwise it renders one valid, child-sorted list and returns to idle |
| ListBuilding.BuildStopsAtTransform | packages/SystemUI/tests/src/com/android/systemui/statusbar/notification/collection/NotifListBuilderImplTest.java:863-877 | a refused invalidation in a before-transform listener stops the pass in the grouping state, after the events up to that listener |
| ListBuilding.BuildStopsAtSort | packages/SystemUI/tests/src/com/android/systemui/statusbar/notification/collection/NotifListBuilderImplTest.java:878-893 | a refused invalidation in a before-sort listener stops the pass in the transforming state |
| ListBuilding.BuildStopsAtRender | packages/SystemUI/tests/src/com/android/systemui/statusbar/notification/collection/NotifListBuilderImplTest.java:894-923 | a refused invalidation in a before-render listener stops the pass in the finalizing state |
| ListBuilding.BuildCompletes | packages/SystemUI/tests/src/com/android/systemui/statusbar/notification/collection/NotifListBuilderImplTest.java:627-680 | a pass that no listener fails renders its final list, commits the annotations, advances the iteration and returns to idle |
| ListBuilding.CommittedParents | packages/SystemUI/tests/src/com/android/systemui/statusbar/notification/collection/NotifListBuilderImplTest.java:335-353 | after a pass, an entry has no parent exactly when it is not rendered, otherwise the element that holds it; its previous parent is its parent from the pass before |
| ListBuilding.CommittedExclusions | packages/SystemUI/tests/src/com/android/systemui/statusbar/notification/collection/NotifListBuilderImplTest.java:382-479 | the recorded excluding filter is the first pre-group filter that excluded the entry; otherwise, for an entry that reached the pre-render chain, the first pre-render filter that excluded it; a rendered entry has none |
| ListBuilding.CommittedPromoters | packages/SystemUI/tests/src/com/android/systemui/statusbar/notification/collection/NotifListBuilderImplTest.java:482-549 | a promoter is recorded exactly for the children offered and claimed, and it is the first in the chain to claim them |
| ListBuilding.CommittedFirstAdded | packages/SystemUI/tests/src/com/android/systemui/statusbar/notification/collection/NotifListBuilderImplTest.java:356-379 | the first-added iteration is set once, when an entry is first rendered, and stays -1 for an entry never rendered |
| ListBuilding.CommittedOthers | packages/SystemUI/tests/src/com/android/systemui/statusbar/notification/collection/NotifListBuilderImplTest.java:833-861 | entries not handed to the pass keep their annotations |
| ListBuilding.CommittedGroups | packages/SystemUI/tests/src/com/android/systemui/statusbar/notification/collection/NotifListBuilderImplTest.java:833-861 | a group's parent is the root exactly when it is rendered, otherwise none; its previous parent is its parent from the pass before |
| ListBuilding.RebuildIsIdempotent | packages/SystemUI/tests/src/com/android/systemui/statusbar/notification/collection/NotifListBuilderImplTest.java:682-717 | rebuilding over the same entries and pluggables renders the same list again |
| ListBuilding.FilterIgnoresNow | packages/SystemUI/tests/src/com/android/systemui/statusbar/notification/collection/NotifListBuilderImplTest.java:1159-1162 | the test filters do not depend on `now`, so the pass does not either |
| ListBuilding.ListBuilder.constructor | packages/SystemUI/tests/src/com/android/systemui/statusbar/notification/collection/NotifListBuilderImplTest.java:102-103 | a new builder is idle, with no pluggables, listeners, entries or annotations, and the default sectioner |
| ListBuilding.ListBuilder.AddPreGroupFilter | packages/SystemUI/tests/src/com/android/systemui/statusbar/notification/collection/NotifListBuilderImplTest.java:636 | registration appends to the pre-group chain when idle, and is refused otherwise |
| ListBuilding.ListBuilder.AddPromoter | packages/SystemUI/tests/src/com/android/systemui/statusbar/notification/collection/NotifListBuilderImplTest.java:638 | registration appends to the promoter chain when idle, and is refused otherwise |
| ListBuilding.ListBuilder.SetSectionsProvider | packages/SystemUI/tests/src/com/android/systemui/statusbar/notification/collection/NotifListBuilderImplTest.java:641 | the sectioner is replaced when idle; the call is refused otherwise |
| ListBuilding.ListBuilder.SetComparators | packages/SystemUI/tests/src/com/android/systemui/statusbar/notification/collection/NotifListBuilderImplTest.java:640 | the comparator chain is replaced when idle; the call is refused otherwise |
| ListBuilding.ListBuilder.AddPreRenderFilter | packages/SystemUI/tests/src/com/android/systemui/statusbar/notification/collection/NotifListBuilderImplTest.java:643 | registration appends to the pre-render chain when idle, and is refused otherwise |
| ListBuilding.ListBuilder.SetPreGroupFilterEnabled | packages/SystemUI/tests/src/com/android/systemui/statusbar/notification/collection/NotifListBuilderImplTest.java:1164-1166 | switching a registered pre-group filter on or off changes only that filter's policy, in place; every other part of the builder is unchanged |
| ListBuilding.ListBuilder.SetPreRenderFilterEnabled | packages/SystemUI/tests/src/com/android/systemui/statusbar/notification/collection/NotifListBuilderImplTest.java:1164-1166 | switching a registered pre-render filter on or off changes only that filter's policy, in place; every other part of the builder is unchanged |
| ListBuilding.ListBuilder.AddOnBeforeTransformGroupsListener | packages/SystemUI/tests/src/com/android/systemui/statusbar/notification/collection/NotifListBuilderImplTest.java:637 | registration appends a before-transform listener when idle, and is refused otherwise |
| ListBuilding.ListBuilder.AddOnBeforeSortListener | packages/SystemUI/tests/src/com/android/systemui/statusbar/notification/collection/NotifListBuilderImplTest.java:639 | registration appends a before-sort listener when idle, and is refused otherwise |
| ListBuilding.ListBuilder.AddOnBeforeRenderListListener | packages/SystemUI/tests/src/com/android/systemui/statusbar/notification/collection/NotifListBuilderImplTest.java:642 | registration appends a before-render listener when idle, and is refused otherwise |
| ListBuilding.ListBuilder.OnBeginDispatchToListeners | packages/SystemUI/tests/src/com/android/systemui/statusbar/notification/collection/NotifListBuilderImplTest.java:1024 | announcing a dispatch moves an idle or pending builder to pending, and is refused during a pass |
| ListBuilding.ListBuilder.OnBuildList | packages/SystemUI/tests/src/com/android/systemui/statusbar/notification/collection/NotifListBuilderImplTest.java:1025 | handing over the entries runs exactly the specified pass over them; a second hand-over during a pass is refused and changes nothing |
| ListBuilding.ListBuilder.Invalidate | packages/SystemUI/tests/src/com/android/systemui/statusbar/notification/collection/NotifListBuilderImplTest.java:682-717 | an invalidation between passes runs one pass; one refused by the protocol fails and changes nothing; an ignored one changes nothing |
| ListBuilding.ListBuilder.StartPass | packages/SystemUI/tests/src/com/android/systemui/statusbar/notification/collection/NotifListBuilderImplTest.java:747-784 | the first phase computes the pass's first three lists, records its states and before-transform calls, and fails exactly when one of those listeners is refused |
| ListBuilding.ListBuilder.TransformPass | packages/SystemUI/tests/src/com/android/systemui/statusbar/notification/collection/NotifListBuilderImplTest.java:878-893 | the second phase computes promotion and the before-sort list, records the before-sort calls, and fails exactly when one of those listeners is refused |
| ListBuilding.ListBuilder.SortPass | packages/SystemUI/tests/src/com/android/systemui/statusbar/notification/collection/NotifListBuilderImplTest.java:894-923 | the third phase sorts, filters and prunes, records the before-render calls, and fails exactly when one of those listeners is refused |
| ListBuilding.ListBuilder.Commit | packages/SystemUI/tests/src/com/android/systemui/statusbar/notification/collection/NotifListBuilderImplTest.java:335-379 | after a pass no listener failed, the builder renders, commits the annotations and returns to idle, as specified |
| ListBuilding.ListBuilder.BuildList | packages/SystemUI/tests/src/com/android/systemui/statusbar/notification/collection/NotifListBuilderImplTest.java:627-680 | the phases together perform exactly the specified pass, from the builder's current state |
| TestHarness.QueueFresh | packages/SystemUI/tests/src/com/android/systemui/statusbar/notification/collection/NotifListBuilderImplTest.java:1001-1008 | an entry queued with its package's next id keeps every key distinct |
| TestHarness.DropKeepsIssued | packages/SystemUI/tests/src/com/android/systemui/statusbar/notification/collection/NotifListBuilderImplTest.java:850 | removing an entry keeps the keys distinct |
| TestHarness.RetimeKeepsIssued | packages/SystemUI/tests/src/com/android/systemui/statusbar/notification/collection/NotifListBuilderImplTest.java:116-122 | changing an entry's rank or times keeps the keys distinct |
| TestHarness.Harness.constructor | packages/SystemUI/tests/src/com/android/systemui/statusbar/notification/collection/NotifListBuilderImplTest.java:78-103 | a fresh fixture has no ids, ranks or entries, and a fresh idle builder |
| TestHarness.Harness.NextId | packages/SystemUI/tests/src/com/android/systemui/statusbar/notification/collection/NotifListBuilderImplTest.java:1001-1008 | ids start at 0 in each package and the package's next id advances by one |
| TestHarness.Harness.NextRank | packages/SystemUI/tests/src/com/android/systemui/statusbar/notification/collection/NotifListBuilderImplTest.java:1010-1014 | ranks are handed out in order, one per entry |
| TestHarness.Harness.Add | packages/SystemUI/tests/src/com/android/systemui/statusbar/notification/collection/NotifListBuilderImplTest.java:951-999 | an entry is queued with its package's next id and the next rank, at the index the caller names |
| TestHarness.Harness.AddNotif | packages/SystemUI/tests/src/com/android/systemui/statusbar/notification/collection/NotifListBuilderImplTest.java:951-965 | queues an ungrouped entry |
| TestHarness.Harness.AddGroupSummary | packages/SystemUI/tests/src/com/android/systemui/statusbar/notification/collection/NotifListBuilderImplTest.java:967-982 | queues a summary of the named group |
| TestHarness.Harness.AddGroupChild | packages/SystemUI/tests/src/com/android/systemui/statusbar/notification/collection/NotifListBuilderImplTest.java:985-999 | queues a child of the named group |
| TestHarness.Harness.Configure | packages/SystemUI/tests/src/com/android/systemui/statusbar/notification/collection/NotifListBuilderImplTest.java:116-122 | a queued entry's rank, `when` and post time are set before dispatch, and nothing else changes |
| TestHarness.Harness.RemoveEntry | packages/SystemUI/tests/src/com/android/systemui/statusbar/notification/collection/NotifListBuilderImplTest.java:850 | removes one dispatched entry, keeping the rest in order |
| TestHarness.Harness.SetUptime | packages/SystemUI/tests/src/com/android/systemui/statusbar/notification/collection/NotifListBuilderImplTest.java:730 | sets the clock, and nothing else |
| TestHarness.Harness.DispatchBuild | packages/SystemUI/tests/src/com/android/systemui/statusbar/notification/collection/NotifListBuilderImplTest.java:1016-1026 | queued entries join the entry set in order and the queue empties; the builder is told a dispatch begins and then runs the specified pass over the whole set, with distinct keys; a refused announcement stops there |
| Insets.WithSource | core/java/android/view/InsetsSourceConsumer.java:97-98 | `getSource` adds a missing source with the type's default visibility, and changes no existing source |
| Insets.OverrideApplies | core/java/android/view/InsetsSourceConsumer.java:158-177 | with the control, the override leaves the source showing the requested visibility; it reports a change exactly when the visibility differed and exactly when the state changed; no other source changes |
| Insets.OverrideWithoutControl | core/java/android/view/InsetsSourceConsumer.java:168-171 | without the control, the override reports no change and leaves the state as it was |
| Insets.OverrideSettles | core/java/android/view/InsetsSourceConsumer.java:158-177 | a second override right after the first finds nothing to change |
| Insets.InsetsState.GetSourceVisible | core/java/android/view/InsetsSourceConsumer.java:104 | reading a source's visibility through `getSource` creates a missing source with the default visibility and returns it |
| Insets.InsetsState.SetVisible | core/java/android/view/InsetsSourceConsumer.java:175 | sets one source's visibility |
| Insets.Controller.Notify | core/java/android/view/InsetsSourceConsumer.java:165-166 | each call on the controller is appended to its log |
| Insets.Transactions.Record | core/java/android/view/InsetsSourceConsumer.java:219-226 | each operation on a transaction is appended to the log |
| Insets.InsetsSourceConsumer.constructor | core/java/android/view/InsetsSourceConsumer.java:68-75 | a consumer starts requesting the type's default visibility, without control and without focus |
| Insets.InsetsSourceConsumer.ApplyLocalVisibilityOverride | core/java/android/view/InsetsSourceConsumer.java:158-177 | always reports compat visibility (the request while in control, the state's visibility otherwise); the result and the new state are the override's; with the control the source then shows the request |
| Insets.InsetsSourceConsumer.ApplyHiddenToControl | core/java/android/view/InsetsSourceConsumer.java:215-227 | nothing happens without a control or a leash; otherwise the leash is shown exactly when the request is visible, hidden otherwise, and the transaction is applied once |
| Insets.InsetsSourceConsumer.SetControl | core/java/android/view/InsetsSourceConsumer.java:85-119 | the same control changes nothing. Losing the control notifies revocation, restores the last-dispatched visibility and reports compat visibility. Gaining it while the state disagrees ORs the public type into exactly one of the two arrays and touches nothing else. Otherwise the leash is brought up to date, and no visibility change is ever notified |
| Insets.InsetsSourceConsumer.NotifyIfChanged | core/java/android/view/InsetsSourceConsumer.java:210-212 | the controller hears of a visibility change exactly when the override made one |
| Insets.InsetsSourceConsumer.SetRequestedVisible | core/java/android/view/InsetsSourceConsumer.java:208-213 | the request is recorded whatever the control; the override runs and a change is notified exactly when it made one; with the control the source then shows the request, without it the state is unchanged |
| Insets.InsetsSourceConsumer.Show | core/java/android/view/InsetsSourceConsumer.java:131-133 | requests visible; the override runs, the compat visibility is reported to the controller with the control's presence, and a visibility change is notified exactly when the override made one; with the control the source then shows |
| Insets.InsetsSourceConsumer.Hide | core/java/android/view/InsetsSourceConsumer.java:136-138 | requests hidden; the override runs, the compat visibility is reported to the controller with the control's presence, and a visibility change is notified exactly when the override made one; with the control the source then hides |
| Insets.InsetsSourceConsumer.OnWindowFocusGained | core/java/android/view/InsetsSourceConsumer.java:143-145 | records focus and changes nothing else |
| Insets.InsetsSourceConsumer.OnWindowFocusLost | core/java/android/view/InsetsSourceConsumer.java:150-152 | records the loss of focus and changes nothing else |
| Insets.InsetsSourceConsumer.RequestShow | core/java/android/view/InsetsSourceConsumer.java:193-195 | always answers `SHOW_IMMEDIATELY`, whoever asks |

## Left out

- The implementation class `NotifListBuilderImpl` is not part of this model.
  The pipeline is reconstructed from what its test class asserts, so stage
  details no test observes (for example the exact calls made to the sectioner
  and comparators) follow the builder's documented behaviour rather than code.
- Listener bodies are not modelled. A listener either only records its call or
  invalidates one pluggable; its calls and the list it is handed are logged as
  events.
- The render listener is modelled as the builder's built list and its render
  count.
- Mockito verification, `NotifLog`, `dumpList`, `TestableLooper` and the
  Android notification builders are not modelled. Entries are plain records.
- `FakeSystemClock` becomes the harness's `now`, a plain integer. One `now` is
  taken per pass. Java's `long` time and `int` rank and id are unbounded
  integers here, since the tests never come near overflow.
- The stable sort is modelled by a reference insertion sort, proved stable
  (`Selection.SortByStable`): equal elements keep their input order. The Java
  sort's algorithm is not modelled.
- Pruning.PruneAll: a dissolved group's children are placed where the group
  was, in its child order. No assertion of NotifListBuilderImplTest.java:786-831
  fixes this position (the lists the test captures are compared as they are
  at the end of the test), so the position is a choice of this model.
- Entry identity is the pair of package and id. The user, tag and uid parts of
  the real key are not modelled, and callers must pass entries with distinct
  keys, as the harness guarantees.
- `ListBuilding.Build`: annotations are committed only at the end of a pass
  that renders. A failed pass leaves them as they were, whereas the Java
  builder would already have reset some of them.
- `ListBuilding.ListBuilder.Invalidate`: an invalidation during a pass whose
  pluggable's stage is still ahead is ignored. The running pass uses the
  current policy, and no second pass is scheduled.
- The previous parent is recorded when the next pass commits. This matches
  every assertion of the tests, which read it after a pass.
- Promoted children are appended after the elements of the list, in the order
  their groups appear.
- Group annotations keep only the parent and the previous parent. A group's
  first-added iteration is not modelled.
- `Pluggables.GetSection`: the sections come from the representative entry's
  package, as `PackageSectioner` does. The default sectioner puts everything in
  section 0.
- Exceptions thrown by pluggables, and threading, are not modelled.
- `Insets`: control identity (`==` on `InsetsSourceControl`) is modelled as
  value equality of the control.
- `InsetsState.toPublicType` and `InsetsState.getDefaultVisibility` become
  values fixed when the consumer is created.
- `InsetsSource` and `InsetsState` are not part of this model. A state is a map
  from type to visibility. `getSource` is taken to create a missing source with
  the type's default visibility, and `peekSource` to find none.
- `SurfaceControl.Transaction` and `InsetsController` internals are not
  modelled. Their calls are logged as operations.
- `Insets.InsetsSourceConsumer.RequestShow`: the argument is ignored, as in the
  source.
- `Insets.InsetsSourceConsumer.NotifyHidden` is an empty method with no
  contract. The source's method does nothing.
- The builder's defaults for `when` and post time are taken as 0 for entries
  the tests do not configure.

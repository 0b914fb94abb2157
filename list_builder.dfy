/** The list builder: a small state machine that runs the pass of module
 *  Pipeline when the collection hands it its entries or when a pluggable
 *  declares itself stale, calls the registered listeners between the stages,
 *  refuses an invalidation that comes after the stage it concerns has run,
 *  and keeps the per-entry annotations (parent, previous parent, excluding
 *  filter, promoter, first-added iteration) from one pass to the next. */
module ListBuilding {
  import opened Entries
  import opened Pluggables
  import opened Filtering
  import opened Grouping
  import opened Pruning
  import opened Promoting
  import opened ShadeSort
  import opened Pipeline
  import opened Selection
  import opened Seqs

  /** The builder's states, in the order a pass goes through them. */
  datatype PipelineState =
    | StateIdle | StateBuildPending | StateBuildStarted | StateResetting
    | StatePreGroupFiltering | StateGrouping | StateTransforming | StateSorting
    | StatePreRenderFiltering | StateFinalizing

  function Rank(s: PipelineState): nat
  {
    match s
    case StateIdle => 0
    case StateBuildPending => 1
    case StateBuildStarted => 2
    case StateResetting => 3
    case StatePreGroupFiltering => 4
    case StateGrouping => 5
    case StateTransforming => 6
    case StateSorting => 7
    case StatePreRenderFiltering => 8
    case StateFinalizing => 9
  }

  /** The kinds of pluggable, and the stage whose output each one decides. */
  datatype PluggableKind = PreGroupFilterKind | PromoterKind | SectionsProviderKind | ComparatorKind | PreRenderFilterKind

  function BoundState(k: PluggableKind): PipelineState
  {
    match k
    case PreGroupFilterKind => StatePreGroupFiltering
    case PromoterKind => StateTransforming
    case SectionsProviderKind => StateSorting
    case ComparatorKind => StateSorting
    case PreRenderFilterKind => StatePreRenderFiltering
  }

  /** What the builder does when a pluggable of kind `k` is invalidated in
   *  state `s`: refuse (the stage has already run in this pass), rebuild at
   *  once (no pass is under way), or nothing (the running pass has not yet
   *  reached the stage and will use the new policy). */
  datatype Reaction = Reject | Rebuild | Ignore

  function OnInvalidated(s: PipelineState, k: PluggableKind): Reaction
  {
    if Rank(s) >= Rank(BoundState(k)) then Reject
    else if s == StateIdle then Rebuild
    else Ignore
  }

  /** The invalidation protocol: every pluggable may be invalidated between
   *  passes, and that starts a pass; once a pass has entered a pluggable's
   *  stage, invalidating it is refused from then on until the pass ends. */
  lemma InvalidationProtocol(k: PluggableKind, s: PipelineState, s': PipelineState)
    ensures OnInvalidated(StateIdle, k) == Rebuild
    ensures OnInvalidated(StateBuildPending, k) == Ignore
    ensures OnInvalidated(s, k) == Reject && Rank(s) <= Rank(s') ==> OnInvalidated(s', k) == Reject
    ensures OnInvalidated(BoundState(k), k) == Reject
    ensures Rank(s) < Rank(BoundState(k)) ==> OnInvalidated(s, k) != Reject
  {
  }

  /** A listener registered with the builder: either one that only records that
   *  it was called, or one that invalidates a pluggable of the given kind. */
  datatype Listener = Recording | Invalidating(kind: PluggableKind)

  /** The three points at which the builder calls listeners, and the state it
   *  is in when it does. */
  datatype Hook = BeforeTransformGroups | BeforeSort | BeforeRenderList

  function HookState(h: Hook): PipelineState
  {
    match h
    case BeforeTransformGroups => StateGrouping
    case BeforeSort => StateTransforming
    case BeforeRenderList => StateFinalizing
  }

  predicate Rejects(l: Listener, s: PipelineState)
  {
    l.Invalidating? && OnInvalidated(s, l.kind) == Reject
  }

  /** The first listener, in registration order, whose invalidation is refused. */
  function FirstFailing(ls: seq<Listener>, s: PipelineState): (r: Option<nat>)
    ensures r.Some? ==> r.value < |ls| && Rejects(ls[r.value], s)
    ensures forall j :: 0 <= j < |ls| && (r.None? || j < r.value) ==> !Rejects(ls[j], s)
    decreases |ls|
  {
    if |ls| == 0 then None
    else if Rejects(ls[0], s) then Some(0)
    else
      match FirstFailing(ls[1..], s)
      case None => None
      case Some(i) => Some(i + 1)
  }

  /** How many listeners are called: all of them, or up to the one that fails. */
  function Reached(ls: seq<Listener>, s: PipelineState): (n: nat)
    ensures n <= |ls|
  {
    match FirstFailing(ls, s)
    case Some(j) => j + 1
    case None => |ls|
  }

  /** The registered listeners, per hook, in registration order. */
  datatype Listeners = Listeners(transform: seq<Listener>, sort: seq<Listener>, render: seq<Listener>)

  /** What can be observed of a pass from outside: the states the builder
   *  enters, each listener call with the list it is handed, and the list
   *  handed to the render listener. */
  datatype Event =
    | Entered(state: PipelineState)
    | Notified(hook: Hook, index: nat, list: seq<TopEntry>)
    | Rendered(list: seq<TopEntry>)

  /** The calls to the first `n` listeners of a hook. */
  function Calls(h: Hook, n: nat, list: seq<TopEntry>): (r: seq<Event>)
    ensures |r| == n && forall i :: 0 <= i < n ==> r[i] == Notified(h, i, list)
    decreases n
  {
    if n == 0 then [] else Calls(h, n - 1, list) + [Notified(h, n - 1, list)]
  }

  /** The state a pass stops in when a listener's invalidation is refused, if one is. */
  function PassFailure(ls: Listeners): Option<PipelineState>
  {
    if FirstFailing(ls.transform, StateGrouping).Some? then Some(StateGrouping)
    else if FirstFailing(ls.sort, StateTransforming).Some? then Some(StateTransforming)
    else if FirstFailing(ls.render, StateFinalizing).Some? then Some(StateFinalizing)
    else None
  }

  /** The events of a pass up to the before-transform listeners. */
  function PassStart(ls: Listeners, p: Pass): seq<Event>
  {
    [Entered(StateBuildStarted), Entered(StateResetting), Entered(StatePreGroupFiltering), Entered(StateGrouping)]
    + Calls(BeforeTransformGroups, Reached(ls.transform, StateGrouping), p.transformed.list)
  }

  /** The events of a pass up to the before-sort listeners. */
  function PassMiddle(ls: Listeners, p: Pass): seq<Event>
  {
    PassStart(ls, p) + ([Entered(StateTransforming)]
                        + Calls(BeforeSort, Reached(ls.sort, StateTransforming), p.beforeSort.list))
  }

  /** The events of a pass up to the before-render listeners. */
  function PassEnd(ls: Listeners, p: Pass): seq<Event>
  {
    PassMiddle(ls, p) + ([Entered(StateSorting), Entered(StatePreRenderFiltering), Entered(StateFinalizing)]
                         + Calls(BeforeRenderList, Reached(ls.render, StateFinalizing), p.Final()))
  }

  /** The events of one pass, up to the listener call that fails it, if any. */
  function PassEvents(ls: Listeners, p: Pass): seq<Event>
  {
    if FirstFailing(ls.transform, StateGrouping).Some? then PassStart(ls, p)
    else if FirstFailing(ls.sort, StateTransforming).Some? then PassMiddle(ls, p)
    else if FirstFailing(ls.render, StateFinalizing).Some? then PassEnd(ls, p)
    else PassEnd(ls, p) + [Rendered(p.Final()), Entered(StateIdle)]
  }

  /** Where an event falls in a pass: states in their order, each hook's calls
   *  right after the state it is called in, the render after the last hook,
   *  and the return to idle last. */
  function EventStep(e: Event): nat
  {
    match e
    case Entered(s) => if s == StateIdle then 21 else 2 * Rank(s)
    case Notified(h, _, _) => 2 * Rank(HookState(h)) + 1
    case Rendered(_) => 20
  }

  ghost predicate InStageOrder(evs: seq<Event>)
  {
    forall i, j :: 0 <= i < j < |evs| ==> EventStep(evs[i]) <= EventStep(evs[j])
  }

  ghost predicate Below(evs: seq<Event>, hi: nat)
  {
    forall i :: 0 <= i < |evs| ==> EventStep(evs[i]) <= hi
  }

  lemma InStageOrderAppend(a: seq<Event>, b: seq<Event>)
    requires InStageOrder(a) && InStageOrder(b)
    requires forall i, j :: 0 <= i < |a| && 0 <= j < |b| ==> EventStep(a[i]) <= EventStep(b[j])
    ensures InStageOrder(a + b)
  {
    forall i, j | 0 <= i < j < |a + b| ensures EventStep((a + b)[i]) <= EventStep((a + b)[j]) {
      if j < |a| {
        assert (a + b)[i] == a[i] && (a + b)[j] == a[j];
      } else if i < |a| {
        assert (a + b)[i] == a[i] && (a + b)[j] == b[j - |a|];
      } else {
        assert (a + b)[i] == b[i - |a|] && (a + b)[j] == b[j - |a|];
      }
    }
  }

  /** A block of events that all fall at the same step. */
  lemma CallsAtOneStep(h: Hook, n: nat, list: seq<TopEntry>)
    ensures InStageOrder(Calls(h, n, list))
    ensures forall i :: 0 <= i < n ==> EventStep(Calls(h, n, list)[i]) == 2 * Rank(HookState(h)) + 1
  {
  }

  /** Appends a block whose steps lie between `lo` and `hi` to events that
   *  all come at or before `lo`. */
  lemma Extend(a: seq<Event>, b: seq<Event>, lo: nat, hi: nat)
    requires InStageOrder(a) && InStageOrder(b) && lo <= hi
    requires forall i :: 0 <= i < |a| ==> EventStep(a[i]) <= lo
    requires forall j :: 0 <= j < |b| ==> lo <= EventStep(b[j]) <= hi
    ensures InStageOrder(a + b) && Below(a + b, hi)
  {
    InStageOrderAppend(a, b);
    forall i | 0 <= i < |a + b| ensures EventStep((a + b)[i]) <= hi {
      if i < |a| { assert (a + b)[i] == a[i]; } else { assert (a + b)[i] == b[i - |a|]; }
    }
  }

  /** Events whose steps never go down from one to the next are in stage order. */
  lemma {:induction false} StepwiseInOrder(evs: seq<Event>)
    requires forall i :: 0 <= i < |evs| - 1 ==> EventStep(evs[i]) <= EventStep(evs[i + 1])
    ensures InStageOrder(evs)
    decreases |evs|
  {
    if |evs| > 1 {
      var f := evs[..|evs| - 1];
      assert forall i :: 0 <= i < |f| ==> f[i] == evs[i];
      StepwiseInOrder(f);
      forall i, j | 0 <= i < j < |evs| ensures EventStep(evs[i]) <= EventStep(evs[j]) {
        if j < |evs| - 1 {
          assert f[i] == evs[i] && f[j] == evs[j];
        } else if i < |evs| - 2 {
          assert f[i] == evs[i] && f[|evs| - 2] == evs[|evs| - 2];
        }
      }
    }
  }

  lemma StartInOrder(ls: Listeners, p: Pass)
    ensures InStageOrder(PassStart(ls, p)) && Below(PassStart(ls, p), 11)
  {
    var n := Reached(ls.transform, StateGrouping);
    CallsAtOneStep(BeforeTransformGroups, n, p.transformed.list);
    var head := [Entered(StateBuildStarted), Entered(StateResetting), Entered(StatePreGroupFiltering),
                 Entered(StateGrouping)];
    StepwiseInOrder(head);
    Extend(head, Calls(BeforeTransformGroups, n, p.transformed.list), 10, 11);
  }

  lemma MiddleInOrder(ls: Listeners, p: Pass)
    ensures InStageOrder(PassMiddle(ls, p)) && Below(PassMiddle(ls, p), 13)
  {
    var n := Reached(ls.sort, StateTransforming);
    var calls := Calls(BeforeSort, n, p.beforeSort.list);
    StartInOrder(ls, p);
    CallsAtOneStep(BeforeSort, n, p.beforeSort.list);
    Extend([Entered(StateTransforming)], calls, 12, 13);
    var tail := [Entered(StateTransforming)] + calls;
    forall j | 0 <= j < |tail| ensures 11 <= EventStep(tail[j]) {
      if j > 0 { assert tail[j] == calls[j - 1]; }
    }
    Extend(PassStart(ls, p), tail, 11, 13);
  }

  /** The events of a pass up to its last listener call are in stage order and
   *  come before the render. */
  lemma EndInOrder(ls: Listeners, p: Pass)
    ensures InStageOrder(PassEnd(ls, p)) && Below(PassEnd(ls, p), 19)
  {
    var n := Reached(ls.render, StateFinalizing);
    var calls := Calls(BeforeRenderList, n, p.Final());
    var head := [Entered(StateSorting), Entered(StatePreRenderFiltering), Entered(StateFinalizing)];
    MiddleInOrder(ls, p);
    CallsAtOneStep(BeforeRenderList, n, p.Final());
    StepwiseInOrder(head);
    Extend(head, calls, 18, 19);
    var tail := head + calls;
    forall j | 0 <= j < |tail| ensures 13 <= EventStep(tail[j]) {
      if j >= 3 { assert tail[j] == calls[j - 3]; }
    }
    Extend(PassMiddle(ls, p), tail, 13, 19);
  }

  /** The stages and listeners of a pass come in the fixed order: pre-group
   *  filtering, the before-transform listeners, promotion, the before-sort
   *  listeners, sorting, pre-render filtering, the before-render listeners,
   *  then the render listener; each hook's listeners are called in
   *  registration order with the list of the moment. */
  lemma PassEventsInOrder(ls: Listeners, p: Pass)
    ensures InStageOrder(PassEvents(ls, p))
  {
    StartInOrder(ls, p);
    MiddleInOrder(ls, p);
    EndInOrder(ls, p);
    if PassFailure(ls).None? {
      Extend(PassEnd(ls, p), [Rendered(p.Final()), Entered(StateIdle)], 19, 21);
    }
  }

  /** A pass renders, once and the pass's final list, exactly when no
   *  listener's invalidation is refused. */
  lemma PassRendersOnce(ls: Listeners, p: Pass)
    ensures Rendered(p.Final()) in PassEvents(ls, p) <==> PassFailure(ls).None?
    ensures forall i :: 0 <= i < |PassEvents(ls, p)| && PassEvents(ls, p)[i].Rendered? ==>
              PassFailure(ls).None? && i == |PassEvents(ls, p)| - 2
  {
    StartInOrder(ls, p);
    MiddleInOrder(ls, p);
    EndInOrder(ls, p);
    var evs := PassEvents(ls, p);
    if PassFailure(ls).None? {
      assert evs[|evs| - 2] == Rendered(p.Final());
      forall i | 0 <= i < |evs| - 2 ensures !evs[i].Rendered? {
        assert EventStep(evs[i]) <= 19;
      }
    } else {
      forall i | 0 <= i < |evs| ensures !evs[i].Rendered? {
        assert EventStep(evs[i]) <= 19;
      }
    }
  }

  /** Runs one hook's listeners in registration order; a listener that
   *  invalidates a pluggable whose stage has already run stops the pass. */
  method Fire(h: Hook, ls: seq<Listener>, list: seq<TopEntry>) returns (ok: bool, evs: seq<Event>)
    ensures ok <==> FirstFailing(ls, HookState(h)).None?
    ensures evs == Calls(h, Reached(ls, HookState(h)), list)
  {
    evs, ok := [], true;
    var i := 0;
    while i < |ls| && ok
      invariant 0 <= i <= |ls|
      invariant evs == Calls(h, i, list)
      invariant forall j :: 0 <= j < i && (ok || j < i - 1) ==> !Rejects(ls[j], HookState(h))
      invariant !ok ==> i > 0 && Rejects(ls[i - 1], HookState(h))
    {
      evs := evs + [Notified(h, i, list)];
      if Rejects(ls[i], HookState(h)) {
        ok := false;
      }
      i := i + 1;
    }
  }

  /** Which filter excluded an entry: one of the pre-group chain, or one of the
   *  pre-render chain. */
  datatype Exclusion = ByPreGroupFilter(index: nat) | ByPreRenderFilter(index: nat)

  /** The annotations the builder keeps on a notification entry. */
  datatype LeafNote = LeafNote(parent: Parent, previousParent: Parent, excludingFilter: Option<Exclusion>,
                               promoter: Option<nat>, firstAddedIteration: int)

  /** The annotations of an entry the builder has never seen. */
  const FreshNote := LeafNote(NoParent, NoParent, None, None, -1)

  function NoteOf(notes: map<LeafKey, LeafNote>, k: LeafKey): LeafNote
  {
    if k in notes then notes[k] else FreshNote
  }

  /** The filter that excluded an entry in a pass: the pre-group chain is asked
   *  first; the pre-render chain is asked only about the entries of the list it
   *  is run over. */
  function ExclusionOf(x: Leaf, c: Chains, p: Pass, now: int): Option<Exclusion>
  {
    match FirstRejecting(c.preGroup, x, now)
    case Some(i) => Some(ByPreGroupFilter(i))
    case None =>
      if x in Leaves(p.sorted) then
        match FirstRejecting(c.preRender, x, now)
        case Some(j) => Some(ByPreRenderFilter(j))
        case None => None
      else None
  }

  /** An entry's annotations after a pass, from those before it. */
  function NoteAfter(n: LeafNote, x: Leaf, c: Chains, p: Pass, now: int, iteration: nat): LeafNote
  {
    LeafNote(
      ParentOf(p.Final(), x),
      n.parent,
      ExclusionOf(x, c, p, now),
      if x in p.promotion.promoted then FirstPromoter(c.promoters, x) else None,
      if n.firstAddedIteration != -1 then n.firstAddedIteration
      else if x in Leaves(p.Final()) then iteration
      else -1)
  }

  /** The annotations of all entries after a pass; entries the pass was not
   *  handed keep theirs. */
  function CommitLeaves(notes: map<LeafKey, LeafNote>, xs: seq<Leaf>, c: Chains, p: Pass, now: int,
                        iteration: nat): map<LeafKey, LeafNote>
    decreases |xs|
  {
    if |xs| == 0 then notes
    else
      var x := xs[|xs| - 1];
      CommitLeaves(notes, xs[..|xs| - 1], c, p, now, iteration)
        [x.Key() := NoteAfter(NoteOf(notes, x.Key()), x, c, p, now, iteration)]
  }

  /** Each entry handed to the pass gets its new annotations from its own old
   *  ones; any other key keeps what it had. */
  lemma {:induction false} CommitLeavesAt(notes: map<LeafKey, LeafNote>, xs: seq<Leaf>, c: Chains, p: Pass,
                                          now: int, iteration: nat, i: nat)
    requires DistinctKeys(xs) && i < |xs|
    ensures var k := xs[i].Key();
      && k in CommitLeaves(notes, xs, c, p, now, iteration)
      && CommitLeaves(notes, xs, c, p, now, iteration)[k] == NoteAfter(NoteOf(notes, k), xs[i], c, p, now, iteration)
    decreases |xs|
  {
    var q := xs[..|xs| - 1];
    if i < |xs| - 1 {
      assert q[i] == xs[i];
      assert DistinctKeys(q) by {
        forall a, b | 0 <= a < |q| && 0 <= b < |q| && a != b ensures q[a].Key() != q[b].Key() {
          assert q[a] == xs[a] && q[b] == xs[b];
        }
      }
      CommitLeavesAt(notes, q, c, p, now, iteration, i);
      assert xs[|xs| - 1].Key() != xs[i].Key();
    }
  }

  lemma {:induction false} CommitLeavesElsewhere(notes: map<LeafKey, LeafNote>, xs: seq<Leaf>, c: Chains, p: Pass,
                                                 now: int, iteration: nat, k: LeafKey)
    requires forall i :: 0 <= i < |xs| ==> xs[i].Key() != k
    ensures k in CommitLeaves(notes, xs, c, p, now, iteration) <==> k in notes
    ensures k in notes ==> CommitLeaves(notes, xs, c, p, now, iteration)[k] == notes[k]
    decreases |xs|
  {
    if |xs| > 0 {
      CommitLeavesElsewhere(notes, xs[..|xs| - 1], c, p, now, iteration, k);
    }
  }

  /** Annotations of a group. */
  datatype GroupNote = GroupNote(parent: Parent, previousParent: Parent)

  /** The annotations of all groups after a pass: every group the builder has
   *  made so far, with the root as parent exactly when the rendered list
   *  holds it. */
  function CommitGroups(gnotes: map<GroupKey, GroupNote>, p: Pass): map<GroupKey, GroupNote>
  {
    map k | k in gnotes.Keys + (set g | g in GroupKeys(p.grouping.top)) ::
      GroupNote(if k in GroupKeys(p.Final()) then Root else NoParent,
                if k in gnotes then gnotes[k].parent else NoParent)
  }

  /** Everything the builder holds, as one value. */
  datatype BuilderState = BuilderState(
    state: PipelineState,
    chains: Chains,
    listeners: Listeners,
    entries: seq<Leaf>,
    notes: map<LeafKey, LeafNote>,
    groupNotes: map<GroupKey, GroupNote>,
    iteration: nat,
    builtList: seq<TopEntry>,
    renders: nat,
    events: seq<Event>)

  /** `IllegalStateException`, or normal return. */
  datatype Outcome = Done | Fail

  /** One pass over the stored entries, from a state before the pass starts:
   *  the builder either stops in the state whose listener's invalidation was
   *  refused, leaving list and annotations as they were, or renders the
   *  pass's list, commits the annotations and goes back to idle. */
  function Build(b: BuilderState, now: int): (r: (BuilderState, Outcome))
  {
    var p := RunPass(b.entries, b.chains, now);
    var evs := b.events + PassEvents(b.listeners, p);
    match PassFailure(b.listeners)
    case Some(s) => (b.(state := s, events := evs), Fail)
    case None =>
      (b.(state := StateIdle, events := evs,
          notes := CommitLeaves(b.notes, b.entries, b.chains, p, now, b.iteration),
          groupNotes := CommitGroups(b.groupNotes, p),
          iteration := b.iteration + 1, builtList := p.Final(), renders := b.renders + 1), Done)
  }

  /** What a pass promises the render listener: the list it renders is the
   *  pass's final list, every group in it valid with its children in order,
   *  and a failed pass renders nothing and changes no annotation. */
  lemma BuildRenders(b: BuilderState, now: int)
    ensures var a := Build(b, now).0; var o := Build(b, now).1;
      && (o == Fail <==> PassFailure(b.listeners).Some?)
      && (o == Done ==> a.renders == b.renders + 1 && a.state == StateIdle
                        && AllGroupsValid(a.builtList) && ChildrenSorted(a.builtList)
                        && a.iteration == b.iteration + 1)
      && (o == Fail ==> a.renders == b.renders && a.builtList == b.builtList && a.notes == b.notes
                        && a.groupNotes == b.groupNotes && Some(a.state) == PassFailure(b.listeners))
      && a.entries == b.entries && a.chains == b.chains && a.listeners == b.listeners
  {
    var ls := b.listeners;
    if FirstFailing(ls.transform, StateGrouping).Some? {
      BuildStopsAtTransform(b, now);
    } else if FirstFailing(ls.sort, StateTransforming).Some? {
      BuildStopsAtSort(b, now);
    } else if FirstFailing(ls.render, StateFinalizing).Some? {
      BuildStopsAtRender(b, now);
    } else {
      BuildCompletes(b, now);
      FinalValid(b.entries, b.chains, now);
      FinalOrder(b.entries, b.chains, now);
    }
  }

  /** Parents after a pass: an entry handed to the pass that the rendered list
   *  holds gets the element holding it (the root, or its group); any other gets
   *  none; and its previous parent is the parent it had before the pass. */
  lemma CommittedParents(b: BuilderState, now: int, i: nat)
    requires DistinctKeys(b.entries) && i < |b.entries|
    requires Build(b, now).1 == Done
    ensures var a := Build(b, now).0; var x := b.entries[i];
      && x.Key() in a.notes
      && (a.notes[x.Key()].parent == NoParent <==> x !in Leaves(a.builtList))
      && (forall j :: 0 <= j < |a.builtList| && x in EntryLeaves(a.builtList[j])
                      ==> a.notes[x.Key()].parent == ParentIn(a.builtList[j]))
      && a.notes[x.Key()].previousParent == NoteOf(b.notes, x.Key()).parent
  {
    var p := RunPass(b.entries, b.chains, now);
    CommitLeavesAt(b.notes, b.entries, b.chains, p, now, b.iteration, i);
    FinalParents(b.entries, b.chains, now, b.entries[i]);
    ParentOfNone(p.Final(), b.entries[i]);
  }

  /** Excluding filters after a pass: the pre-group chain's first excluding
   *  filter is recorded whenever there is one; a pre-render filter is recorded
   *  only for an entry the pre-group chain let through, and is the first of
   *  its chain to exclude it; every entry that is not a summary and that only
   *  the pre-render chain excludes has that filter recorded; a rendered entry
   *  has none. */
  lemma CommittedExclusions(b: BuilderState, now: int, i: nat)
    requires DistinctKeys(b.entries) && i < |b.entries|
    requires Build(b, now).1 == Done
    ensures b.entries[i].Key() in Build(b, now).0.notes
    ensures var a := Build(b, now).0; var x := b.entries[i]; var c := b.chains;
      var e := a.notes[x.Key()].excludingFilter;
      && (forall j: nat :: e == Some(ByPreGroupFilter(j)) <==> FirstRejecting(c.preGroup, x, now) == Some(j))
      && (forall j: nat :: e == Some(ByPreRenderFilter(j)) ==>
                      FirstRejecting(c.preGroup, x, now).None? && FirstRejecting(c.preRender, x, now) == Some(j))
      && (forall j: nat :: (!x.isSummary && FirstRejecting(c.preGroup, x, now).None?
                       && FirstRejecting(c.preRender, x, now) == Some(j)) ==> e == Some(ByPreRenderFilter(j)))
      && (x in Leaves(a.builtList) ==> e == None)
  {
    var p := RunPass(b.entries, b.chains, now);
    var x := b.entries[i];
    CommitLeavesAt(b.notes, b.entries, b.chains, p, now, b.iteration, i);
    SortedMembers(b.entries, b.chains, now, x);
    if x in Leaves(p.Final()) {
      FinalSound(b.entries, b.chains, now, x);
    }
  }

  /** Promoters after a pass: an entry records a promoter exactly when it was a
   *  child of a group when promotion ran and some promoter claimed it, and the
   *  promoter recorded is the first in registration order to do so. */
  lemma CommittedPromoters(b: BuilderState, now: int, i: nat)
    requires DistinctKeys(b.entries) && i < |b.entries|
    requires Build(b, now).1 == Done
    ensures b.entries[i].Key() in Build(b, now).0.notes
    ensures var a := Build(b, now).0; var x := b.entries[i]; var ps := b.chains.promoters;
      var pr := a.notes[x.Key()].promoter;
      var p := RunPass(b.entries, b.chains, now);
      && (pr.Some? <==> x in OfferedChildren(p.transformed.list) && FirstPromoter(ps, x).Some?)
      && (pr.Some? ==> pr.value < |ps| && ShouldPromoteToTopLevel(ps[pr.value], x)
                       && forall j :: 0 <= j < pr.value ==> !ShouldPromoteToTopLevel(ps[j], x))
  {
    var p := RunPass(b.entries, b.chains, now);
    CommitLeavesAt(b.notes, b.entries, b.chains, p, now, b.iteration, i);
    PromotedMembers(p.transformed.list, b.chains.promoters, b.entries[i]);
  }

  /** First-added iterations: set once, to the number of the first pass that
   *  rendered the entry, and never changed afterwards; an entry no pass has
   *  rendered keeps -1. */
  lemma CommittedFirstAdded(b: BuilderState, now: int, i: nat)
    requires DistinctKeys(b.entries) && i < |b.entries|
    requires Build(b, now).1 == Done
    ensures b.entries[i].Key() in Build(b, now).0.notes
    ensures var a := Build(b, now).0; var x := b.entries[i];
      var before := NoteOf(b.notes, x.Key()).firstAddedIteration;
      var after := a.notes[x.Key()].firstAddedIteration;
      && (before != -1 ==> after == before)
      && (before == -1 && x in Leaves(a.builtList) ==> after == b.iteration)
      && (before == -1 && x !in Leaves(a.builtList) ==> after == -1)
  {
    var p := RunPass(b.entries, b.chains, now);
    CommitLeavesAt(b.notes, b.entries, b.chains, p, now, b.iteration, i);
  }

  /** Entries the pass was not handed keep their annotations. */
  lemma CommittedOthers(b: BuilderState, now: int, k: LeafKey)
    requires Build(b, now).1 == Done
    requires forall i :: 0 <= i < |b.entries| ==> b.entries[i].Key() != k
    ensures (k in Build(b, now).0.notes <==> k in b.notes)
    ensures k in b.notes ==> Build(b, now).0.notes[k] == b.notes[k]
  {
    var p := RunPass(b.entries, b.chains, now);
    CommitLeavesElsewhere(b.notes, b.entries, b.chains, p, now, b.iteration, k);
  }

  /** Group parents after a pass: the root exactly for the groups the rendered
   *  list holds, none for every other group the builder knows; the previous
   *  parent is the parent before the pass. */
  lemma CommittedGroups(b: BuilderState, now: int, k: GroupKey)
    requires Build(b, now).1 == Done
    requires k in b.groupNotes
    ensures var a := Build(b, now).0;
      && k in a.groupNotes
      && (a.groupNotes[k].parent == Root <==> exists j :: 0 <= j < |a.builtList| && a.builtList[j].Group?
                                                          && a.builtList[j].key == k)
      && (a.groupNotes[k].parent != Root ==> a.groupNotes[k].parent == NoParent)
      && a.groupNotes[k].previousParent == b.groupNotes[k].parent
  {
    var f := RunPass(b.entries, b.chains, now).Final();
    GroupKeysMembers(f, k);
  }

  /** A key is among a list's group keys exactly when a group of the list has it. */
  lemma {:induction false} GroupKeysMembers(top: seq<TopEntry>, k: GroupKey)
    ensures k in GroupKeys(top) <==> exists j :: 0 <= j < |top| && top[j].Group? && top[j].key == k
    decreases |top|
  {
    if |top| > 0 {
      var q := top[..|top| - 1];
      GroupKeysMembers(q, k);
      if exists j :: 0 <= j < |q| && q[j].Group? && q[j].key == k {
        var j :| 0 <= j < |q| && q[j].Group? && q[j].key == k;
        assert top[j] == q[j];
      }
      if exists j :: 0 <= j < |top| && top[j].Group? && top[j].key == k {
        var j :| 0 <= j < |top| && top[j].Group? && top[j].key == k;
        if j < |q| {
          assert q[j] == top[j];
        }
      }
    }
  }

  /** Building twice over the same entries with the same pluggables renders the
   *  same list, in content and order. */
  lemma RebuildIsIdempotent(b: BuilderState, now: int, now': int)
    requires Build(b, now).1 == Done
    requires Build(Build(b, now).0, now').1 == Done
    ensures Build(Build(b, now).0, now').0.builtList == Build(b, now).0.builtList
  {
    var a := Build(b, now).0;
    assert a.entries == b.entries && a.chains == b.chains;
    FilterIgnoresNow(b.entries, b.chains, now, now');
  }

  /** The test policies do not look at the time, so a pass does not depend on it. */
  lemma FilterIgnoresNow(entries: seq<Leaf>, c: Chains, now: int, now': int)
    ensures RunPass(entries, c, now) == RunPass(entries, c, now')
  {
    KeptIgnoresNow(entries, c.preGroup, now, now');
    FilterTopIgnoresNow(RunPass(entries, c, now).sorted, c.preRender, now, now');
  }

  lemma {:induction false} FirstRejectingIgnoresNow(fs: seq<NotifFilter>, x: Leaf, now: int, now': int)
    ensures FirstRejecting(fs, x, now) == FirstRejecting(fs, x, now')
    decreases |fs|
  {
    if |fs| > 0 {
      FirstRejectingIgnoresNow(fs[1..], x, now, now');
    }
  }

  lemma KeptIgnoresNow(s: seq<Leaf>, fs: seq<NotifFilter>, now: int, now': int)
    ensures Kept(s, fs, now) == Kept(s, fs, now')
  {
    forall x | x in s ensures Passes(fs, now)(x) == Passes(fs, now')(x) {
      FirstRejectingIgnoresNow(fs, x, now, now');
    }
    SelectCongruent(s, Passes(fs, now), Passes(fs, now'));
  }

  lemma {:induction false} FilterTopIgnoresNow(top: seq<TopEntry>, fs: seq<NotifFilter>, now: int, now': int)
    ensures FilterTop(top, fs, now) == FilterTop(top, fs, now')
    decreases |top|
  {
    if |top| > 0 {
      FilterTopIgnoresNow(top[..|top| - 1], fs, now, now');
      var t := top[|top| - 1];
      if t.Single? {
        FirstRejectingIgnoresNow(fs, t.leaf, now, now');
      } else {
        KeptIgnoresNow(t.children, fs, now, now');
        if t.summary.Some? {
          FirstRejectingIgnoresNow(fs, t.summary.value, now, now');
        }
      }
    }
  }

  /** A pass refused by a before-transform listener. */
  lemma BuildStopsAtTransform(b: BuilderState, now: int)
    requires FirstFailing(b.listeners.transform, StateGrouping).Some?
    ensures Build(b, now) == (b.(state := StateGrouping,
                                 events := b.events + PassStart(b.listeners, RunPass(b.entries, b.chains, now))), Fail)
  {
  }

  /** A pass refused by a before-sort listener. */
  lemma BuildStopsAtSort(b: BuilderState, now: int)
    requires FirstFailing(b.listeners.transform, StateGrouping).None?
    requires FirstFailing(b.listeners.sort, StateTransforming).Some?
    ensures Build(b, now) == (b.(state := StateTransforming,
                                 events := b.events + PassMiddle(b.listeners, RunPass(b.entries, b.chains, now))), Fail)
  {
  }

  /** A pass refused by a before-render listener. */
  lemma BuildStopsAtRender(b: BuilderState, now: int)
    requires FirstFailing(b.listeners.transform, StateGrouping).None?
    requires FirstFailing(b.listeners.sort, StateTransforming).None?
    requires FirstFailing(b.listeners.render, StateFinalizing).Some?
    ensures Build(b, now) == (b.(state := StateFinalizing,
                                 events := b.events + PassEnd(b.listeners, RunPass(b.entries, b.chains, now))), Fail)
  {
  }

  /** A pass that runs to the end. */
  lemma BuildCompletes(b: BuilderState, now: int)
    requires PassFailure(b.listeners).None?
    ensures var p := RunPass(b.entries, b.chains, now);
      Build(b, now) == (b.(state := StateIdle,
                           events := b.events + PassEnd(b.listeners, p) + [Rendered(p.Final()), Entered(StateIdle)],
                           notes := CommitLeaves(b.notes, b.entries, b.chains, p, now, b.iteration),
                           groupNotes := CommitGroups(b.groupNotes, p),
                           iteration := b.iteration + 1, builtList := p.Final(), renders := b.renders + 1), Done)
  {
    var p := RunPass(b.entries, b.chains, now);
    var tail := [Rendered(p.Final()), Entered(StateIdle)];
    assert PassEvents(b.listeners, p) == PassEnd(b.listeners, p) + tail;
    assert b.events + (PassEnd(b.listeners, p) + tail) == b.events + PassEnd(b.listeners, p) + tail;
  }

  /** The list builder.  Between passes it is idle; a pass is requested by the
   *  collection (begin dispatch, then the entries) or by invalidating a
   *  pluggable while idle. */
  class ListBuilder {
    var state: PipelineState
    var chains: Chains
    var listeners: Listeners
    var allEntries: seq<Leaf>
    var notes: map<LeafKey, LeafNote>
    var groupNotes: map<GroupKey, GroupNote>
    var iteration: nat
    var builtList: seq<TopEntry>
    var renders: nat
    var events: seq<Event>

    function Snapshot(): BuilderState
      reads this
    {
      BuilderState(state, chains, listeners, allEntries, notes, groupNotes, iteration, builtList, renders, events)
    }

    /** A builder with no pluggables but the default sections provider, no
     *  listeners and no entries. */
    constructor()
      ensures Snapshot() == BuilderState(StateIdle, Chains([], [], DefaultSections, [], []), Listeners([], [], []),
                                         [], map[], map[], 0, [], 0, [])
    {
      state := StateIdle;
      chains := Chains([], [], DefaultSections, [], []);
      listeners := Listeners([], [], []);
      allEntries := [];
      notes, groupNotes := map[], map[];
      iteration := 0;
      builtList := [];
      renders := 0;
      events := [];
    }

    /** Pluggables and listeners may be registered only while idle. */
    method AddPreGroupFilter(f: NotifFilter) returns (o: Outcome)
      modifies this
      ensures old(state) != StateIdle ==> o == Fail && Snapshot() == old(Snapshot())
      ensures old(state) == StateIdle ==>
                o == Done && Snapshot() == old(Snapshot()).(chains := old(chains).(preGroup := old(chains.preGroup) + [f]))
    {
      if state != StateIdle {
        return Fail;
      }
      chains := chains.(preGroup := chains.preGroup + [f]);
      o := Done;
    }

    method AddPromoter(pr: NotifPromoter) returns (o: Outcome)
      modifies this
      ensures old(state) != StateIdle ==> o == Fail && Snapshot() == old(Snapshot())
      ensures old(state) == StateIdle ==>
                o == Done && Snapshot() == old(Snapshot()).(chains := old(chains).(promoters := old(chains.promoters) + [pr]))
    {
      if state != StateIdle {
        return Fail;
      }
      chains := chains.(promoters := chains.promoters + [pr]);
      o := Done;
    }

    method SetSectionsProvider(sp: SectionsProvider) returns (o: Outcome)
      modifies this
      ensures old(state) != StateIdle ==> o == Fail && Snapshot() == old(Snapshot())
      ensures old(state) == StateIdle ==>
                o == Done && Snapshot() == old(Snapshot()).(chains := old(chains).(sections := sp))
    {
      if state != StateIdle {
        return Fail;
      }
      chains := chains.(sections := sp);
      o := Done;
    }

    method SetComparators(cs: seq<NotifComparator>) returns (o: Outcome)
      modifies this
      ensures old(state) != StateIdle ==> o == Fail && Snapshot() == old(Snapshot())
      ensures old(state) == StateIdle ==>
                o == Done && Snapshot() == old(Snapshot()).(chains := old(chains).(comparators := cs))
    {
      if state != StateIdle {
        return Fail;
      }
      chains := chains.(comparators := cs);
      o := Done;
    }

    method AddPreRenderFilter(f: NotifFilter) returns (o: Outcome)
      modifies this
      ensures old(state) != StateIdle ==> o == Fail && Snapshot() == old(Snapshot())
      ensures old(state) == StateIdle ==>
                o == Done && Snapshot() == old(Snapshot()).(chains := old(chains).(preRender := old(chains.preRender) + [f]))
    {
      if state != StateIdle {
        return Fail;
      }
      chains := chains.(preRender := chains.preRender + [f]);
      o := Done;
    }

    /** Switches a registered pre-group filter on or off in place: the filter
     *  object stays registered and the next pass uses its new policy. */
    method SetPreGroupFilterEnabled(i: nat, enabled: bool)
      requires i < |chains.preGroup|
      modifies this
      ensures Snapshot() == old(Snapshot()).(chains := old(chains).(preGroup :=
                old(chains.preGroup)[i := old(chains.preGroup)[i].(enabled := enabled)]))
    {
      chains := chains.(preGroup := chains.preGroup[i := chains.preGroup[i].(enabled := enabled)]);
    }

    /** Switches a registered pre-render filter on or off in place. */
    method SetPreRenderFilterEnabled(i: nat, enabled: bool)
      requires i < |chains.preRender|
      modifies this
      ensures Snapshot() == old(Snapshot()).(chains := old(chains).(preRender :=
                old(chains.preRender)[i := old(chains.preRender)[i].(enabled := enabled)]))
    {
      chains := chains.(preRender := chains.preRender[i := chains.preRender[i].(enabled := enabled)]);
    }

    method AddOnBeforeTransformGroupsListener(l: Listener) returns (o: Outcome)
      modifies this
      ensures old(state) != StateIdle ==> o == Fail && Snapshot() == old(Snapshot())
      ensures old(state) == StateIdle ==>
                o == Done && Snapshot() == old(Snapshot()).(listeners := old(listeners).(transform := old(listeners.transform) + [l]))
    {
      if state != StateIdle {
        return Fail;
      }
      listeners := listeners.(transform := listeners.transform + [l]);
      o := Done;
    }

    method AddOnBeforeSortListener(l: Listener) returns (o: Outcome)
      modifies this
      ensures old(state) != StateIdle ==> o == Fail && Snapshot() == old(Snapshot())
      ensures old(state) == StateIdle ==>
                o == Done && Snapshot() == old(Snapshot()).(listeners := old(listeners).(sort := old(listeners.sort) + [l]))
    {
      if state != StateIdle {
        return Fail;
      }
      listeners := listeners.(sort := listeners.sort + [l]);
      o := Done;
    }

    method AddOnBeforeRenderListListener(l: Listener) returns (o: Outcome)
      modifies this
      ensures old(state) != StateIdle ==> o == Fail && Snapshot() == old(Snapshot())
      ensures old(state) == StateIdle ==>
                o == Done && Snapshot() == old(Snapshot()).(listeners := old(listeners).(render := old(listeners.render) + [l]))
    {
      if state != StateIdle {
        return Fail;
      }
      listeners := listeners.(render := listeners.render + [l]);
      o := Done;
    }

    /** The collection announces that a build is coming. */
    method OnBeginDispatchToListeners() returns (o: Outcome)
      modifies this
      ensures Rank(old(state)) > Rank(StateBuildPending) ==> o == Fail && Snapshot() == old(Snapshot())
      ensures Rank(old(state)) <= Rank(StateBuildPending) ==>
                o == Done && Snapshot() == old(Snapshot()).(state := StateBuildPending)
    {
      if Rank(state) > Rank(StateBuildPending) {
        return Fail;
      }
      state := StateBuildPending;
      o := Done;
    }

    /** The collection hands over its entries; a request while a pass is under
     *  way is refused. */
    method OnBuildList(entries: seq<Leaf>, now: int) returns (o: Outcome)
      modifies this
      ensures Rank(old(state)) >= Rank(StateBuildStarted) ==> o == Fail && Snapshot() == old(Snapshot())
      ensures Rank(old(state)) < Rank(StateBuildStarted) ==>
                (Snapshot(), o) == Build(old(Snapshot()).(entries := entries), now)
    {
      if Rank(state) >= Rank(StateBuildStarted) {
        return Fail;
      }
      allEntries := entries;
      o := BuildList(now);
    }

    /** A pluggable of kind `k` declares itself stale. */
    method Invalidate(k: PluggableKind, now: int) returns (o: Outcome)
      modifies this
      ensures OnInvalidated(old(state), k) == Reject ==> o == Fail && Snapshot() == old(Snapshot())
      ensures OnInvalidated(old(state), k) == Ignore ==> o == Done && Snapshot() == old(Snapshot())
      ensures OnInvalidated(old(state), k) == Rebuild ==> (Snapshot(), o) == Build(old(Snapshot()), now)
    {
      var r := OnInvalidated(state, k);
      if r == Reject {
        return Fail;
      } else if r == Rebuild {
        o := BuildList(now);
      } else {
        o := Done;
      }
    }

    /** The start of a pass, up to and including the before-transform
     *  listeners: pre-group filter, group, prune. */
    method StartPass(now: int) returns (filtered: seq<Leaf>, grouping: Grouping, transformed: Pruned, ok: bool)
      modifies this
      ensures var p := RunPass(allEntries, chains, now);
        filtered == p.filtered && grouping == p.grouping && transformed == p.transformed
      ensures ok <==> FirstFailing(listeners.transform, StateGrouping).None?
      ensures Snapshot() == old(Snapshot()).(state := StateGrouping,
                                             events := old(events) + PassStart(listeners, RunPass(allEntries, chains, now)))
    {
      state := StateBuildStarted;
      state := StateResetting;
      state := StatePreGroupFiltering;
      filtered, grouping, transformed := GroupStage(allEntries, chains, now);
      state := StateGrouping;
      var evs;
      ok, evs := Fire(BeforeTransformGroups, listeners.transform, transformed.list);
      events := events + ([Entered(StateBuildStarted), Entered(StateResetting), Entered(StatePreGroupFiltering),
                           Entered(StateGrouping)] + evs);
    }

    /** The middle of a pass, up to and including the before-sort listeners:
     *  promote, prune. */
    method TransformPass(ghost p: Pass, now: int, transformed: Pruned) returns (promotion: Promoted, beforeSort: Pruned, ok: bool)
      requires p == RunPass(allEntries, chains, now) && transformed == p.transformed
      modifies this
      ensures promotion == p.promotion && beforeSort == p.beforeSort
      ensures ok <==> FirstFailing(listeners.sort, StateTransforming).None?
      ensures Snapshot() == old(Snapshot()).(state := StateTransforming,
        events := old(events) + ([Entered(StateTransforming)]
                                 + Calls(BeforeSort, Reached(listeners.sort, StateTransforming), p.beforeSort.list)))
    {
      state := StateTransforming;
      promotion, beforeSort := TransformStage(allEntries, chains, now, transformed);
      var evs;
      ok, evs := Fire(BeforeSort, listeners.sort, beforeSort.list);
      events := events + ([Entered(StateTransforming)] + evs);
    }

    /** The end of a pass, up to and including the before-render listeners:
     *  section and sort, pre-render filter, prune. */
    method SortPass(ghost p: Pass, now: int, beforeSort: Pruned)
      returns (sorted: seq<TopEntry>, screened: seq<TopEntry>, rendered: Pruned, ok: bool)
      requires p == RunPass(allEntries, chains, now) && beforeSort == p.beforeSort
      modifies this
      ensures sorted == p.sorted && screened == p.screened && rendered == p.rendered
      ensures ok <==> FirstFailing(listeners.render, StateFinalizing).None?
      ensures Snapshot() == old(Snapshot()).(state := StateFinalizing,
        events := old(events) + ([Entered(StateSorting), Entered(StatePreRenderFiltering), Entered(StateFinalizing)]
                                 + Calls(BeforeRenderList, Reached(listeners.render, StateFinalizing), p.Final())))
    {
      state := StateSorting;
      sorted, screened, rendered := SortStage(allEntries, chains, now, beforeSort);
      state := StatePreRenderFiltering;
      state := StateFinalizing;
      var evs;
      ok, evs := Fire(BeforeRenderList, listeners.render, rendered.list);
      events := events + ([Entered(StateSorting), Entered(StatePreRenderFiltering), Entered(StateFinalizing)] + evs);
    }

    /** The end of a pass no listener refused: the annotations are written,
     *  the iteration advances and the final list is rendered. */
    method Commit(ghost b: BuilderState, pass: Pass, now: int)
      requires pass == RunPass(b.entries, b.chains, now) && PassFailure(b.listeners).None?
      requires Snapshot() == b.(state := StateFinalizing, events := b.events + PassEnd(b.listeners, pass))
      modifies this
      ensures Snapshot() == Build(b, now).0 && Build(b, now).1 == Done
    {
      BuildCompletes(b, now);
      notes := CommitLeaves(notes, allEntries, chains, pass, now, iteration);
      groupNotes := CommitGroups(groupNotes, pass);
      iteration := iteration + 1;
      builtList := pass.Final();
      renders := renders + 1;
      state := StateIdle;
      events := events + [Rendered(pass.Final()), Entered(StateIdle)];
    }

    /** One pass over the stored entries, stage by stage. */
    method BuildList(now: int) returns (o: Outcome)
      requires Rank(state) < Rank(StateBuildStarted)
      modifies this
      ensures (Snapshot(), o) == Build(old(Snapshot()), now)
    {
      ghost var b := Snapshot();
      ghost var p := RunPass(allEntries, chains, now);
      var filtered, grouping, transformed, ok := StartPass(now);
      if !ok {
        BuildStopsAtTransform(b, now);
        return Fail;
      }
      var promotion, beforeSort;
      promotion, beforeSort, ok := TransformPass(p, now, transformed);
      SeqAssoc(b.events, PassStart(b.listeners, p),
               [Entered(StateTransforming)] + Calls(BeforeSort, Reached(b.listeners.sort, StateTransforming), p.beforeSort.list));
      if !ok {
        BuildStopsAtSort(b, now);
        return Fail;
      }
      var sorted, screened, rendered;
      sorted, screened, rendered, ok := SortPass(p, now, beforeSort);
      SeqAssoc(b.events, PassMiddle(b.listeners, p),
               [Entered(StateSorting), Entered(StatePreRenderFiltering), Entered(StateFinalizing)]
               + Calls(BeforeRenderList, Reached(b.listeners.render, StateFinalizing), p.Final()));
      if !ok {
        BuildStopsAtRender(b, now);
        return Fail;
      }
      Commit(b, Pass(filtered, grouping, transformed, promotion, beforeSort, sorted, screened, rendered), now);
      o := Done;
    }
  }
}

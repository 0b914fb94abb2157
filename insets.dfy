/** The consumer of one window insets source (a status bar, a navigation bar,
 *  the IME): it keeps the visibility the client asked for, the control the
 *  server delivered, if any, and whether the window has focus; while it holds
 *  the control it pushes the requested visibility into the shared insets
 *  state, and when it loses the control it restores the server's visibility. */
module Insets {

  datatype Option<T> = None | Some(value: T)

  /** The results `requestShow` may give. */
  const SHOW_IMMEDIATELY: int := 0
  const IME_SHOW_DELAYED: int := 1
  const IME_SHOW_FAILED: int := 2

  /** A control delivered by the server: its identity and the leash surface it
   *  carries, if any.  Two controls are the same object exactly when they are
   *  equal as values. */
  datatype SourceControl = SourceControl(id: nat, leash: Option<nat>)

  /** What the consumer tells the controller. */
  datatype ControllerCall =
    | ControlRevoked
    | CompatSysUiVisibility(insetsType: int, visible: bool, hasControl: bool)
    | VisibilityChanged

  /** What the consumer does with a transaction from its supplier. */
  datatype SurfaceOp = ShowLeash(leash: nat) | HideLeash(leash: nat) | Apply

  /** Whether the source of `t` is visible: a missing source is not. */
  function PeekVisible(sources: map<int, bool>, t: int): bool
  {
    t in sources && sources[t]
  }

  /** The sources after `getSource(t)`: a missing source is created with the
   *  type's default visibility. */
  function WithSource(sources: map<int, bool>, t: int, defaultVisible: bool): (r: map<int, bool>)
    ensures t in r && r.Keys == sources.Keys + {t}
    ensures t in sources ==> r == sources
    ensures t !in sources ==> r[t] == defaultVisible && forall u :: u in sources ==> r[u] == sources[u]
  {
    if t in sources then sources else sources[t := defaultVisible]
  }

  /** The local override on its own: with the control, a visibility that
   *  differs from the requested one is set to it and reported as changed;
   *  without the control nothing changes. */
  function Override(sources: map<int, bool>, t: int, hasControl: bool, requested: bool): (r: (bool, map<int, bool>))
  {
    if !hasControl || PeekVisible(sources, t) == requested then (false, sources)
    else (true, sources[t := requested])
  }

  /** What the override reports to legacy apps: the requested visibility while
   *  the control is held, the state's visibility otherwise. */
  function CompatVisible(sources: map<int, bool>, t: int, hasControl: bool, requested: bool): bool
  {
    if hasControl then requested else PeekVisible(sources, t)
  }

  /** With the control, the override leaves the source showing exactly what was
   *  requested; it reports a change exactly when it made one, and touches no
   *  other source. */
  lemma OverrideApplies(sources: map<int, bool>, t: int, requested: bool)
    ensures var (changed, after) := Override(sources, t, true, requested);
      && PeekVisible(after, t) == requested
      && (changed <==> PeekVisible(sources, t) != requested)
      && (changed <==> after != sources)
      && forall u :: u != t ==> (u in after <==> u in sources) && (u in after ==> after[u] == sources[u])
  {
    var (changed, after) := Override(sources, t, true, requested);
    if changed {
      assert t in after && after[t] == requested;
      assert PeekVisible(after, t) != PeekVisible(sources, t);
    }
  }

  /** Without the control the override changes nothing. */
  lemma OverrideWithoutControl(sources: map<int, bool>, t: int, requested: bool)
    ensures Override(sources, t, false, requested) == (false, sources)
  {
  }

  /** A second override right after the first finds nothing to do. */
  lemma OverrideSettles(sources: map<int, bool>, t: int, hasControl: bool, requested: bool)
    ensures var after := Override(sources, t, hasControl, requested).1;
      Override(after, t, hasControl, requested) == (false, after)
  {
    if hasControl {
      OverrideApplies(sources, t, requested);
    }
  }

  /** The shared insets state: the visibility of each source it holds. */
  class InsetsState {
    var sources: map<int, bool>

    constructor(initial: map<int, bool>)
      ensures sources == initial
    {
      sources := initial;
    }

    /** `getSource(t).isVisible()`: creates a missing source with the default visibility. */
    method GetSourceVisible(t: int, defaultVisible: bool) returns (v: bool)
      modifies this
      ensures sources == WithSource(old(sources), t, defaultVisible)
      ensures v == (if t in old(sources) then old(sources)[t] else defaultVisible)
    {
      if t !in sources {
        sources := sources[t := defaultVisible];
      }
      v := sources[t];
    }

    /** `getSource(t).setVisible(v)`. */
    method SetVisible(t: int, v: bool)
      modifies this
      ensures sources == old(sources)[t := v]
    {
      sources := sources[t := v];
    }
  }

  /** The insets controller as the consumer sees it: the state it last
   *  dispatched, and the calls the consumer makes on it. */
  class Controller {
    const lastDispatched: InsetsState
    var calls: seq<ControllerCall>

    constructor(lastDispatched: InsetsState)
      ensures this.lastDispatched == lastDispatched && calls == []
    {
      this.lastDispatched := lastDispatched;
      calls := [];
    }

    method Notify(c: ControllerCall)
      modifies this
      ensures calls == old(calls) + [c]
    {
      calls := calls + [c];
    }
  }

  /** The transactions the consumer's supplier hands out, as one log of operations. */
  class Transactions {
    var ops: seq<SurfaceOp>

    constructor()
      ensures ops == []
    {
      ops := [];
    }

    method Record(op: SurfaceOp)
      modifies this
      ensures ops == old(ops) + [op]
    {
      ops := ops + [op];
    }
  }

  class InsetsSourceConsumer {
    const insetsType: int
    /** `InsetsState.toPublicType` of the type. */
    const publicType: bv32
    /** `InsetsState.getDefaultVisibility` of the type. */
    const defaultVisible: bool
    const state: InsetsState
    const controller: Controller
    const transactions: Transactions
    var requestedVisible: bool
    var control: Option<SourceControl>
    var hasWindowFocus: bool

    /** The shared state is not the controller's last-dispatched state. */
    ghost predicate Valid()
      reads this, controller
    {
      state != controller.lastDispatched
    }

    /** A consumer starts requesting the type's default visibility, without control. */
    constructor(insetsType: int, publicType: bv32, defaultVisible: bool, state: InsetsState,
                controller: Controller, transactions: Transactions)
      requires state != controller.lastDispatched
      ensures Valid()
      ensures this.insetsType == insetsType && this.publicType == publicType && this.defaultVisible == defaultVisible
      ensures this.state == state && this.controller == controller && this.transactions == transactions
      ensures requestedVisible == defaultVisible && control == None && !hasWindowFocus
    {
      this.insetsType := insetsType;
      this.publicType := publicType;
      this.defaultVisible := defaultVisible;
      this.state := state;
      this.controller := controller;
      this.transactions := transactions;
      requestedVisible := defaultVisible;
      control := None;
      hasWindowFocus := false;
    }

    /** Pushes the requested visibility into the state while the control is
     *  held, and reports the visibility legacy apps should see either way. */
    method ApplyLocalVisibilityOverride() returns (changed: bool)
      modifies state, controller
      ensures (changed, state.sources) == Override(old(state.sources), insetsType, control.Some?, requestedVisible)
      ensures controller.calls == old(controller.calls)
                + [CompatSysUiVisibility(insetsType, CompatVisible(old(state.sources), insetsType, control.Some?,
                                                                 requestedVisible), control.Some?)]
      ensures control.Some? ==> PeekVisible(state.sources, insetsType) == requestedVisible
    {
      var isVisible := insetsType in state.sources && state.sources[insetsType];
      var hasControl := control.Some?;
      controller.Notify(CompatSysUiVisibility(insetsType, if hasControl then requestedVisible else isVisible, hasControl));
      if !hasControl {
        return false;
      }
      if isVisible == requestedVisible {
        return false;
      }
      state.SetVisible(insetsType, requestedVisible);
      changed := true;
    }

    /** Shows or hides the leash to match the requested visibility, when there
     *  is a control carrying one. */
    method ApplyHiddenToControl()
      modifies transactions
      ensures control.None? || control.value.leash.None? ==> transactions.ops == old(transactions.ops)
      ensures control.Some? && control.value.leash.Some? ==>
                var leash := control.value.leash.value;
                transactions.ops == old(transactions.ops)
                                    + [if requestedVisible then ShowLeash(leash) else HideLeash(leash), Apply]
    {
      if control.None? || control.value.leash.None? {
        return;
      }
      var leash := control.value.leash.value;
      if requestedVisible {
        transactions.Record(ShowLeash(leash));
      } else {
        transactions.Record(HideLeash(leash));
      }
      transactions.Record(Apply);
    }

    /** Takes the control delivered by the server.  The same control again is
     *  ignored.  Losing the control restores the server's visibility.  Gaining
     *  it while the state disagrees with the request asks for a show or hide
     *  animation of the type; otherwise the override and the leash are brought
     *  up to date. */
    method SetControl(c: Option<SourceControl>, showTypes: array<bv32>, hideTypes: array<bv32>)
      requires Valid() && showTypes.Length >= 1 && hideTypes.Length >= 1
      modifies this, state, controller, controller.lastDispatched, transactions, showTypes, hideTypes
      ensures Valid() && control == c
      ensures requestedVisible == old(requestedVisible) && hasWindowFocus == old(hasWindowFocus)
      // the same control: nothing changes
      ensures c == old(control) ==>
                && state.sources == old(state.sources) && controller.calls == old(controller.calls)
                && controller.lastDispatched.sources == old(controller.lastDispatched.sources)
                && transactions.ops == old(transactions.ops)
                && showTypes[..] == old(showTypes[..]) && hideTypes[..] == old(hideTypes[..])
      // losing the control: the state shows what the server last dispatched
      ensures c != old(control) && c.None? ==>
                var last := WithSource(old(controller.lastDispatched.sources), insetsType, defaultVisible);
                && controller.lastDispatched.sources == last
                && state.sources == old(state.sources)[insetsType := last[insetsType]]
                && controller.calls == old(controller.calls)
                   + [ControlRevoked, CompatSysUiVisibility(insetsType, last[insetsType], false)]
                && transactions.ops == old(transactions.ops)
                && showTypes[..] == old(showTypes[..]) && hideTypes[..] == old(hideTypes[..])
      // gaining the control
      ensures c != old(control) && c.Some? ==>
                var seen := WithSource(old(state.sources), insetsType, defaultVisible);
                var animate := requestedVisible != seen[insetsType];
                && controller.lastDispatched.sources == old(controller.lastDispatched.sources)
                && (animate ==>
                      && state.sources == seen
                      && controller.calls == old(controller.calls)
                      && transactions.ops == old(transactions.ops)
                      && (requestedVisible ==> showTypes[0] == old(showTypes[0]) | publicType
                                               && (hideTypes != showTypes ==> hideTypes[..] == old(hideTypes[..])))
                      && (!requestedVisible ==> hideTypes[0] == old(hideTypes[0]) | publicType
                                                && (hideTypes != showTypes ==> showTypes[..] == old(showTypes[..])))
                      && showTypes[1..] == old(showTypes[1..]) && hideTypes[1..] == old(hideTypes[1..]))
                && (!animate ==>
                      && state.sources == seen
                      && controller.calls == old(controller.calls)
                         + [CompatSysUiVisibility(insetsType, requestedVisible, true)]
                      && (c.value.leash.None? ==> transactions.ops == old(transactions.ops))
                      && (c.value.leash.Some? ==>
                            transactions.ops == old(transactions.ops)
                              + [if requestedVisible then ShowLeash(c.value.leash.value)
                                 else HideLeash(c.value.leash.value), Apply])
                      && showTypes[..] == old(showTypes[..]) && hideTypes[..] == old(hideTypes[..]))
    {
      if control == c {
        return;
      }
      control := c;
      if control.None? {
        controller.Notify(ControlRevoked);
        var lastVisible := controller.lastDispatched.GetSourceVisible(insetsType, defaultVisible);
        state.SetVisible(insetsType, lastVisible);
        var _ := ApplyLocalVisibilityOverride();
        return;
      }
      var visible := state.GetSourceVisible(insetsType, defaultVisible);
      if requestedVisible != visible {
        if requestedVisible {
          showTypes[0] := showTypes[0] | publicType;
        } else {
          hideTypes[0] := hideTypes[0] | publicType;
        }
        return;
      }
      var changed := ApplyLocalVisibilityOverride();
      NotifyIfChanged(changed);
      ApplyHiddenToControl();
    }

    /** Tells the controller about a visibility the override changed. */
    method NotifyIfChanged(changed: bool)
      modifies controller
      ensures controller.calls == old(controller.calls) + (if changed then [VisibilityChanged] else [])
    {
      if changed {
        controller.Notify(VisibilityChanged);
      }
    }

    /** The client's request, honoured at once when the control is held. */
    method SetRequestedVisible(visible: bool)
      modifies this, state, controller
      ensures requestedVisible == visible && control == old(control) && hasWindowFocus == old(hasWindowFocus)
      ensures var (changed, after) := Override(old(state.sources), insetsType, control.Some?, visible);
        && state.sources == after
        && controller.calls == old(controller.calls)
           + [CompatSysUiVisibility(insetsType, CompatVisible(old(state.sources), insetsType, control.Some?, visible),
                                    control.Some?)]
           + (if changed then [VisibilityChanged] else [])
      ensures control.Some? ==> PeekVisible(state.sources, insetsType) == visible
      ensures control.None? ==> state.sources == old(state.sources)
    {
      requestedVisible := visible;
      var changed := ApplyLocalVisibilityOverride();
      NotifyIfChanged(changed);
    }

    /** The client asks to show the type, whether or not the request comes from the IME. */
    method Show(fromIme: bool)
      modifies this, state, controller
      ensures requestedVisible && control == old(control) && hasWindowFocus == old(hasWindowFocus)
      ensures var (changed, after) := Override(old(state.sources), insetsType, control.Some?, true);
        && state.sources == after
        && controller.calls == old(controller.calls)
           + [CompatSysUiVisibility(insetsType, CompatVisible(old(state.sources), insetsType, control.Some?, true),
                                    control.Some?)]
           + (if changed then [VisibilityChanged] else [])
      ensures control.Some? ==> PeekVisible(state.sources, insetsType)
    {
      SetRequestedVisible(true);
    }

    /** The client asks to hide the type. */
    method Hide()
      modifies this, state, controller
      ensures !requestedVisible && control == old(control) && hasWindowFocus == old(hasWindowFocus)
      ensures var (changed, after) := Override(old(state.sources), insetsType, control.Some?, false);
        && state.sources == after
        && controller.calls == old(controller.calls)
           + [CompatSysUiVisibility(insetsType, CompatVisible(old(state.sources), insetsType, control.Some?, false),
                                    control.Some?)]
           + (if changed then [VisibilityChanged] else [])
      ensures control.Some? ==> !PeekVisible(state.sources, insetsType)
    {
      SetRequestedVisible(false);
    }

    method OnWindowFocusGained()
      modifies this
      ensures hasWindowFocus && requestedVisible == old(requestedVisible) && control == old(control)
    {
      hasWindowFocus := true;
    }

    method OnWindowFocusLost()
      modifies this
      ensures !hasWindowFocus && requestedVisible == old(requestedVisible) && control == old(control)
    {
      hasWindowFocus := false;
    }

    /** A plain consumer can always show at once, whoever asks. */
    method RequestShow(fromController: bool) returns (r: int)
      ensures r == SHOW_IMMEDIATELY
    {
      r := SHOW_IMMEDIATELY;
    }

    /** Nothing to tell listeners for a type that always shows at once. */
    method NotifyHidden()
    {
    }
  }
}

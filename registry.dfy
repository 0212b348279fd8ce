/**
 * The shared sticky registry of src/Sticky/Context.js: a state object holding
 * the scrolling container's `{current}` wrapper, the `Map` from sentinel
 * nodes to sticky elements, and the debug flag, changed by a three-action
 * reducer. Two of the actions update the state object (and its Map) in place
 * and return that same object; `toggleDebug` returns a shallow copy that
 * shares the Map.
 */
module Registry {
  import opened Dom

  /** The action type strings of `ActionType`. */
  const SetContainerRefType: string := "set container ref"
  const AddStickyRefType: string := "add sticky ref"
  const ToggleDebugType: string := "toggle debug"

  datatype Payload =
    | NoPayload
    | ContainerPayload(containerRef: Ref)
    | StickyPayload(topSentinelRef: RefBox, bottomSentinelRef: RefBox, stickyRef: Ref)

  /** A dispatched `{ type, payload }` object (`type` is a reserved word here, so the field is `kind`). */
  datatype Action = Action(kind: string, payload: Payload)

  /** The payload the provider's action wrappers build for each known type;
      an action of any other type may carry anything. */
  predicate WellFormed(a: Action) {
    && (a.kind == SetContainerRefType ==> a.payload.ContainerPayload?)
    && (a.kind == AddStickyRefType ==> a.payload.StickyPayload?)
  }

  /** What `addStickyRef` does to the Map's contents: both sentinel keys now
      map to the sticky element, set in the order top then bottom. */
  function Register(m: map<Ref, Ref>, top: Ref, bottom: Ref, sticky: Ref): (r: map<Ref, Ref>)
    ensures r.Keys == m.Keys + {top, bottom}
    ensures r[top] == sticky && r[bottom] == sticky
    ensures forall k :: k in m && k != top && k != bottom ==> r[k] == m[k]
  {
    m[top := sticky][bottom := sticky]
  }

  /** Registering the same triple twice leaves the same mapping as once. */
  lemma RegisterIdempotent(m: map<Ref, Ref>, top: Ref, bottom: Ref, sticky: Ref)
    ensures Register(Register(m, top, bottom, sticky), top, bottom, sticky) == Register(m, top, bottom, sticky)
  {
  }

  /** A sentinel key reused by a later registration is silently overwritten:
      the last registration wins, whatever the earlier one stored. */
  lemma RegisterLastWins(m: map<Ref, Ref>, top: Ref, bottom: Ref, sticky: Ref,
                         top': Ref, bottom': Ref, sticky': Ref, key: Ref)
    requires key == top' || key == bottom'
    ensures Register(Register(m, top, bottom, sticky), top', bottom', sticky')[key] == sticky'
  {
  }

  /** No registration removes a key. */
  lemma RegisterOnlyGrows(m: map<Ref, Ref>, top: Ref, bottom: Ref, sticky: Ref)
    ensures m.Keys <= Register(m, top, bottom, sticky).Keys
    ensures |m| <= |Register(m, top, bottom, sticky)| <= |m| + 2
  {
    var r := Register(m, top, bottom, sticky);
    assert r.Keys == m.Keys + {top, bottom};
    assert |r.Keys| <= |m.Keys| + |{top, bottom}|;
  }

  class State {
    var containerRef: RefBox?
    var stickyRefs: RefMap
    var debug: bool

    /** `initialState`: no container, a new empty Map, debug off. */
    constructor Initial()
      ensures containerRef == null && fresh(stickyRefs) && stickyRefs.entries == map[] && !debug
    {
      containerRef := null;
      stickyRefs := new RefMap();
      debug := false;
    }

    /** `{ ...state, debug }`: a new object sharing `state`'s fields. */
    constructor CopyWith(state: State, debug: bool)
      ensures containerRef == state.containerRef && stickyRefs == state.stickyRefs
      ensures this.debug == debug
    {
      containerRef := state.containerRef;
      stickyRefs := state.stickyRefs;
      this.debug := debug;
    }
  }

  /** The reducer. */
  method Reduce(state: State, action: Action) returns (next: State)
    requires WellFormed(action)
    modifies state, state.stickyRefs
    // setContainerRef: the same object, with a freshly allocated wrapper even
    // when the node is the one already installed
    ensures action.kind == SetContainerRefType ==>
      && next == state
      && next.containerRef != null && fresh(next.containerRef)
      && next.containerRef != old(state.containerRef)
      && next.containerRef.current == action.payload.containerRef
      && next.stickyRefs == old(state.stickyRefs)
      && next.stickyRefs.entries == old(state.stickyRefs.entries)
      && next.debug == old(state.debug)
    // addStickyRef: the same object and Map; the sentinels' current nodes are
    // the keys
    ensures action.kind == AddStickyRefType ==>
      && next == state
      && next.containerRef == old(state.containerRef)
      && next.stickyRefs == old(state.stickyRefs)
      && next.debug == old(state.debug)
      && next.stickyRefs.entries == Register(old(state.stickyRefs.entries),
           action.payload.topSentinelRef.current, action.payload.bottomSentinelRef.current,
           action.payload.stickyRef)
    // toggleDebug: a new object sharing the wrapper and the Map; the old state
    // is left as it was
    ensures action.kind == ToggleDebugType ==>
      && fresh(next)
      && next.containerRef == old(state.containerRef)
      && next.stickyRefs == old(state.stickyRefs)
      && next.debug == !old(state.debug)
      && unchanged(state, old(state.stickyRefs))
    // any other type: the input state, untouched
    ensures action.kind !in {SetContainerRefType, AddStickyRefType, ToggleDebugType} ==>
      next == state && unchanged(state, old(state.stickyRefs))
  {
    if action.kind == SetContainerRefType {
      var wrapper := new RefBox(action.payload.containerRef);
      state.containerRef := wrapper;
      next := state;
    } else if action.kind == AddStickyRefType {
      var top, bottom, sticky := action.payload.topSentinelRef, action.payload.bottomSentinelRef, action.payload.stickyRef;
      state.stickyRefs.Set(top.current, sticky);
      state.stickyRefs.Set(bottom.current, sticky);
      next := state;
    } else if action.kind == ToggleDebugType {
      next := new State.CopyWith(state, !state.debug);
    } else {
      next := state;
    }
  }

  /** `StickyProvider`: the state slot of `useReducer` and the three action
      wrappers handed to consumers. Every provider starts from the one
      module-level `initialState` object (allocated once, by `State.Initial`),
      whatever earlier providers have done to it. */
  class Provider {
    var state: State

    constructor (initialState: State)
      ensures state == initialState
    {
      state := initialState;
    }

    method SetContainerRef(containerRef: Ref)
      modifies this, state, state.stickyRefs
      ensures state == old(state)
      ensures state.containerRef != null && fresh(state.containerRef)
      ensures state.containerRef.current == containerRef
      ensures state.stickyRefs == old(state.stickyRefs)
      ensures state.stickyRefs.entries == old(state.stickyRefs.entries)
      ensures state.debug == old(state.debug)
    {
      state := Reduce(state, Action(SetContainerRefType, ContainerPayload(containerRef)));
    }

    method AddStickyRef(topSentinelRef: RefBox, bottomSentinelRef: RefBox, stickyRef: Ref)
      modifies this, state, state.stickyRefs
      ensures state == old(state)
      ensures state.containerRef == old(state.containerRef) && state.debug == old(state.debug)
      ensures state.stickyRefs == old(state.stickyRefs)
      ensures state.stickyRefs.entries
           == Register(old(state.stickyRefs.entries), topSentinelRef.current, bottomSentinelRef.current, stickyRef)
      ensures old(state.stickyRefs.entries).Keys <= state.stickyRefs.entries.Keys
    {
      state := Reduce(state, Action(AddStickyRefType, StickyPayload(topSentinelRef, bottomSentinelRef, stickyRef)));
    }

    method ToggleDebug()
      modifies this, state, state.stickyRefs
      ensures fresh(state)
      ensures state.containerRef == old(state.containerRef)
      ensures state.stickyRefs == old(state.stickyRefs)
      ensures state.stickyRefs.entries == old(state.stickyRefs.entries)
      ensures state.debug == !old(state.debug)
      ensures unchanged(old(state))
    {
      state := Reduce(state, Action(ToggleDebugType, NoPayload));
    }
  }

  /** Toggling debug twice restores the flag, and every state along the way
      shares the original container wrapper and Map. */
  method ToggleDebugTwice(p: Provider)
    modifies p, p.state, p.state.stickyRefs
    ensures p.state.debug == old(p.state.debug)
    ensures p.state.containerRef == old(p.state.containerRef)
    ensures p.state.stickyRefs == old(p.state.stickyRefs)
    ensures p.state.stickyRefs.entries == old(p.state.stickyRefs.entries)
  {
    p.ToggleDebug();
    p.ToggleDebug();
  }

  /** A second provider (another viewport, or the same one remounted) starts
      from the object the first one changed in place: it sees the first
      provider's container wrapper and sentinel entries, in the same Map. */
  method ProvidersShareInitialState(initialState: State, node: Ref, topSentinelRef: RefBox,
                                    bottomSentinelRef: RefBox, stickyRef: Ref)
    returns (first: Provider, second: Provider)
    modifies initialState, initialState.stickyRefs
    ensures first.state == initialState && second.state == initialState
    ensures second.state.stickyRefs == old(initialState.stickyRefs)
    ensures second.state.containerRef != null && second.state.containerRef.current == node
    ensures second.state.stickyRefs.entries
         == Register(old(initialState.stickyRefs.entries), topSentinelRef.current, bottomSentinelRef.current, stickyRef)
  {
    first := new Provider(initialState);
    first.SetContainerRef(node);
    first.AddStickyRef(topSentinelRef, bottomSentinelRef, stickyRef);
    second := new Provider(initialState);
  }
}

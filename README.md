# Sticky sentinels, modelled in Dafny

This project models the core of a React "sticky header" library. Each sticky
section is bracketed by two invisible sentinel elements. Two
IntersectionObservers watch the sentinels against the scrolling container.
A shared registry maps each sentinel node to the sticky element it belongs
to. Each observer turns every intersection entry into calls of the caller's
`onStuck`, `onUnstuck` and `onChange` callbacks.

Modules:

- `Dom` (dom.dfy): nullable element references (`Ref`), React's
  `{ current }` ref objects (`RefBox`), and the JavaScript `Map` (`RefMap`).
  The `Map` is a heap object of its own.
- `Registry` (registry.dfy): `initialState`, `ActionType` and the reducer
  of src/Sticky/Context.js, plus the provider's three action wrappers.
  - The state is a `State` class whose `stickyRefs` field points to a
    separately allocated `RefMap`.
  - `setContainerRef` and `addStickyRef` update that object in place and
    return it.
  - `toggleDebug` allocates a copy that shares the same `RefMap` and
    container wrapper.
- `Observers` (observers.dfy): the two observer callbacks of
  src/Sticky/hooks.js, and the guard that decides whether an observer is
  set up at all.
  - Each callback is a method that handles the entries in delivery order
    and appends every callback call to an event trace.
  - Each method is proved to produce `BatchEvents`, the trace that the
    classification predicates define.
  - Geometry is exact: rectangles are `real` values, with `top` and
    `bottom` derived from `y` and `height` as DOMRectReadOnly defines them.
- `Offsets` (offsets.dfy): how `useSentinelOffsets` derives the sentinel
  styles.
  - The bottom sentinel's height is the string
    `calc(<margin-top> + <padding-top> + <height> + <padding-bottom>)`,
    written with the template literal's own line breaks.
  - The top sentinel's margin is the raw margin-top. The component negates
    it only when rendering, by prefixing a `-`.
  - Both state values start as `""` (`InitialOffsets`), so the first
    render has no usable sentinel styles.
  - A small reading of CSS lengths (whole-pixel `px` values, possibly
    negative, and `calc` sums) states what the strings denote. The height denotes the sum of
    the four metrics.

Behaviours of the code that a reader might not expect, each stated by a
lemma:

- The top observer does not check whether its registry lookup found a
  target. An entry for an unregistered sentinel still fires, with target
  `undefined` (`TopUnregisteredStillFires`).
- At the bottom sentinel, the stuck and unstuck tests overlap when the
  sentinel's top equals the root's top. Both `onStuck` and `onUnstuck` then
  fire, and `onChange` reports "unstuck" (`BottomOverlap`).
- `setContainerRef` installs a new `{ current }` wrapper on every call,
  even for the same node.
- Every provider starts from the one module-level `initialState` object,
  which the reducer changes in place. A second provider therefore starts
  with the first one's container wrapper and Map
  (`ProvidersShareInitialState`).
- The margin is negated by text, not by value. A negative computed margin
  is rendered as `--…px`, which is not a length
  (`NegativeMarginIsNotNegated`).

## Model

| member | source | states |
|---|---|---|
| `Registry.State.Initial` | src/Sticky/Context.js:3-7 | the initial state has no container, a new empty Map and debug off |
| `Registry.Register` | src/Sticky/Context.js:37-38 | after registration both sentinel keys map to the sticky element, the key set is the old one plus the two sentinels, and every other key keeps its value |
| `Registry.RegisterIdempotent` | src/Sticky/Context.js:37-38 | registering the same triple twice gives the same mapping as registering it once |
| `Registry.RegisterLastWins` | src/Sticky/Context.js:37-38 | a sentinel key reused by a later registration maps to the later sticky element |
| `Registry.RegisterOnlyGrows` | src/Sticky/Context.js:37-38 | registration never removes a key and adds at most two |
| `Registry.State.CopyWith` | src/Sticky/Context.js:44 | the spread copy is a new object that shares the container wrapper and the Map |
| `Registry.Reduce` | src/Sticky/Context.js:26-48 | setContainerRef returns the same object with a freshly allocated wrapper holding the node and leaves the Map and debug alone; addStickyRef returns the same object, with the same Map updated by `Register` on the refs' current nodes; toggleDebug returns a fresh object with debug negated that shares the wrapper and Map, and leaves the old state untouched; any other type returns the state untouched |
| `Registry.Provider.constructor` | src/Sticky/Context.js:51 | the provider's state is the `initialState` object it is given, not a copy |
| `Registry.ProvidersShareInitialState` | src/Sticky/Context.js:51-60 | a provider created after another has changed `initialState` starts from that same object: the other's container wrapper around its node, and the same Map holding its registration |
| `Registry.Provider.SetContainerRef` | src/Sticky/Context.js:53-54 | the state object stays the same and gets a new wrapper around the node; the Map and its contents and debug are unchanged |
| `Registry.Provider.AddStickyRef` | src/Sticky/Context.js:56-60 | the same state object and Map; the Map's contents are the old ones registered with the triple, so its domain only grows |
| `Registry.Provider.ToggleDebug` | src/Sticky/Context.js:62 | a fresh state with debug negated that shares the container wrapper and the Map, whose contents are unchanged; the previous state object is untouched |
| `Registry.ToggleDebugTwice` | src/Sticky/Context.js:43-44 | toggling twice restores debug, and the container wrapper and the Map object and contents are the originals |
| `Observers.SetUpObserver` | src/Sticky/hooks.js:52-85 | no observer when the container wrapper is null or holds no node; otherwise an observer rooted at the container node, with threshold 0 (top) or 1 (bottom), that observes the sentinel exactly when its ref holds a node (the bottom hook's guard at lines 109-110 and 144-145 is the same) |
| `Observers.ObserveTopEntries` | src/Sticky/hooks.js:58-82 | the calls the top callback makes for a batch are `BatchEvents` of the top tests over the Map's contents |
| `Observers.ObserveBottomEntries` | src/Sticky/hooks.js:115-142 | for a batch whose sentinels all map to elements, the calls the bottom callback makes are `BatchEvents` of the bottom tests |
| `Observers.BatchEventsAppend` | src/Sticky/hooks.js:59-81 | a batch's calls are the calls of its parts, concatenated in delivery order |
| `Observers.TopClassification` | src/Sticky/hooks.js:64-80 | onStuck fires exactly when the sentinel bottom is above the root top; onUnstuck exactly when root top <= bottom < root bottom; never both; nothing when bottom >= root bottom |
| `Observers.BottomClassification` | src/Sticky/hooks.js:125-138 | onStuck fires exactly when containment, ratio 1 and target y 0 all hold, so never when the ratio is not 1 or y is not 0; onUnstuck exactly when sentinel top <= root top |
| `Observers.BottomOverlap` | src/Sticky/hooks.js:123-140 | with sentinel top equal to root top and the other stuck conditions, the calls are onStuck, onUnstuck, then onChange("unstuck") |
| `Observers.EntryChangesOnce` | src/Sticky/hooks.js:64-80 | per entry, on either side, nothing fires exactly when neither test holds; otherwise onChange fires once, as the last call, with "unstuck" whenever the unstuck test held |
| `Observers.BatchChangesOncePerEntry` | src/Sticky/hooks.js:59-81 | per batch, onChange fires once per classified entry and no more often than there are entries |
| `Observers.BatchStuckIff` | src/Sticky/hooks.js:59-81 | per batch, onStuck(t) fires iff some entry passes the stuck test and its sentinel looks up to t |
| `Observers.TopUnregisteredStillFires` | src/Sticky/hooks.js:60-80 | a top entry for an unregistered sentinel that passes the stuck test fires onStuck and onChange with target undefined |
| `Observers.Scenarios` | src/Sticky/hooks.js:66-138 | four sample geometries (top bottom 90 and 150, bottom 120..180 with y 0, bottom top 90; root 100..500) are classified stuck, unstuck, stuck and unstuck |
| `Offsets.DeriveOffsets` | src/Sticky/hooks.js:21-27 | the stored top-sentinel margin is margin-top unchanged |
| `Offsets.CalcRoundTrip` | src/Sticky/hooks.js:21-24 | reading the height string back as a calc sum yields margin-top, padding-top, height, padding-bottom, in that order |
| `Offsets.BottomHeightIsSum` | src/Sticky/hooks.js:21-26 | for whole-pixel metrics, the margin possibly negative, the height denotes the sum of the four |
| `Offsets.Render` | src/Sticky/index.js:94-106 | the top sentinel's margin is the stored margin behind exactly one `-`, and the bottom sentinel's height is the stored string unchanged |
| `Offsets.InitialRender` | src/Sticky/hooks.js:7-8 | both state values start as `""` (`InitialOffsets`), so until the effect runs the top margin is a bare `-` and the height is empty, and neither is a length |
| `Offsets.RenderedMarginIsNegated` | src/Sticky/index.js:94 | for a non-negative margin the rendered top margin denotes its negation |
| `Offsets.NegativeMarginIsNotNegated` | src/Sticky/index.js:94 | a negative margin is rendered with a doubled minus sign, which is not a length |
| `Offsets.Example` | src/Sticky/hooks.js:21-27 | margin 10px, paddings 5px and 5px, height 40px: height 60px, top margin -10px |
| `Offsets.NegativeMarginExample` | src/Sticky/hooks.js:21-27 | margin -5px, paddings 5px and 5px, height 40px: height 45px, and the rendered top margin is not a length |

## Left out

- Observer teardown (`unobserve` at src/Sticky/hooks.js:86-88 and 146-148) and effect re-runs: these are React lifecycle.
- Which entries get delivered: IntersectionObserver schedules and batches notifications in the browser. The model takes a batch as input. `rootBounds` is always present, because the root is an explicit element.
- The callers' callbacks: each call is recorded in the trace. What the callback does, such as restyling the target in the demo, is not modelled. The target rectangle each bottom entry reads is therefore an input of that entry.
- Observers.ObserveBottomEntries: it requires every sentinel in the batch to map to an element. For an unregistered sentinel, or one mapped to null, `target.getBoundingClientRect()` throws a host TypeError, and that crash is not modelled.
- The lookup and `window.getComputedStyle` of src/Sticky/hooks.js:12-19: the four computed-style strings are inputs. With no registered sticky node the effect throws in the browser, which is not modelled.
- Offsets.BottomHeightIsSum: the lengths it reads are whole pixels only, negative or not. The derivation itself works on any strings, but fractional or non-pixel lengths are not read. Paddings and height are taken as non-negative, as CSS requires of them.
- Registry.Reduce: it requires each known action type to carry the payload shape that the provider's wrappers build. A hand-made dispatch with a mismatched payload is not modelled. Neither is `Sticky` used outside a `StickyBoundary`: the section context's default refs are then `null` (src/Sticky/Context.js:95-98), so reading `topSentinelRef.current` at src/Sticky/Context.js:37 throws, and `StickyPayload` only holds non-null ref objects.
- `useReducer`'s identity bail-out, context providers and `StickySectionContext`: this is React machinery.
- The errors thrown by `useStickyState` and `useStickyActions` (src/Sticky/Context.js:79-93). They depend on React context, and the default context values make them unreachable.
- src/Sticky/index.js, apart from the sentinel styles of lines 94 and 106 (in `Offsets.Render`). The rest is JSX composition and class names. The demo page src/index.js is not part of this model.
- Floating-point behaviour of DOM coordinates (NaN, rounding): coordinates are exact reals, because the code only compares them.

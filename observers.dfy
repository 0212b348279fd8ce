/**
 * The two intersection-observer hooks of src/Sticky/hooks.js: the guard that
 * decides whether an observer is set up at all, and the callbacks that turn a
 * batch of intersection entries into calls of `onStuck`, `onUnstuck` and
 * `onChange`. The callbacks are modelled as methods that append each call to
 * an event trace; `BatchEvents` is the trace they are proved to produce.
 */
module Observers {
  import opened Dom

  /** The vertical extent of a DOMRectReadOnly: `y` and `height`, with `top`
      and `bottom` the smaller and the larger of `y` and `y + height`. */
  datatype Rect = Rect(y: real, height: real) {
    function Top(): real {
      if height < 0.0 then y + height else y
    }
    function Bottom(): real {
      if height < 0.0 then y else y + height
    }
  }

  /** One IntersectionObserverEntry. `targetRect` is what
      `getBoundingClientRect()` of the sticky element registered for `target`
      returns while this entry is handled; only the bottom observer reads it. */
  datatype Entry = Entry(
    target: Ref,
    boundingClientRect: Rect,
    rootBounds: Rect,
    intersectionRatio: real,
    targetRect: Rect)

  datatype ChangeType = Stuck | Unstuck

  /** A call of one of the caller's three callbacks, with the value the
      registry lookup produced (`None` for `undefined`). */
  datatype Event =
    | OnStuck(target: Option<Ref>)
    | OnUnstuck(target: Option<Ref>)
    | OnChange(kind: ChangeType, target: Option<Ref>)

  datatype Side = TopSentinel | BottomSentinel

  // The four classification predicates, one per `if` of the two callbacks.

  predicate TopStuck(e: Entry) {
    e.boundingClientRect.Bottom() < e.rootBounds.Top()
  }

  predicate TopUnstuck(e: Entry) {
    e.boundingClientRect.Bottom() >= e.rootBounds.Top() && e.boundingClientRect.Bottom() < e.rootBounds.Bottom()
  }

  predicate BottomStuck(e: Entry) {
    && e.boundingClientRect.Top() >= e.rootBounds.Top()
    && e.boundingClientRect.Bottom() <= e.rootBounds.Bottom()
    && e.intersectionRatio == 1.0
    && e.targetRect.y == 0.0
  }

  predicate BottomUnstuck(e: Entry) {
    e.boundingClientRect.Top() <= e.rootBounds.Top()
  }

  predicate StuckTest(side: Side, e: Entry) {
    match side
    case TopSentinel => TopStuck(e)
    case BottomSentinel => BottomStuck(e)
  }

  predicate UnstuckTest(side: Side, e: Entry) {
    match side
    case TopSentinel => TopUnstuck(e)
    case BottomSentinel => BottomUnstuck(e)
  }

  /** The calls one entry causes: each callback whose test holds, in the order
      the tests are written, then `onChange` once with the type that the later
      test overwrites the earlier with. */
  function EntryEvents(side: Side, e: Entry, target: Option<Ref>): seq<Event> {
    var stuck, unstuck := StuckTest(side, e), UnstuckTest(side, e);
    (if stuck then [OnStuck(target)] else [])
    + (if unstuck then [OnUnstuck(target)] else [])
    + (if unstuck then [OnChange(Unstuck, target)] else if stuck then [OnChange(Stuck, target)] else [])
  }

  /** The calls a batch causes: the entries' calls in delivery order, each
      with the target looked up in the registry's Map. */
  function BatchEvents(side: Side, refs: map<Ref, Ref>, entries: seq<Entry>): seq<Event>
    decreases |entries|
  {
    if entries == [] then []
    else EntryEvents(side, entries[0], Lookup(refs, entries[0].target)) + BatchEvents(side, refs, entries[1..])
  }

  /** The bottom callback reads `getBoundingClientRect()` of the looked-up
      target, so its sentinel must be registered to an element. */
  predicate Resolves(refs: map<Ref, Ref>, key: Ref) {
    key in refs && refs[key].Element?
  }

  predicate AllResolve(refs: map<Ref, Ref>, entries: seq<Entry>) {
    forall i :: 0 <= i < |entries| ==> Resolves(refs, entries[i].target)
  }

  /** The body of the top observer's callback. */
  method ObserveTopEntries(stickyRefs: RefMap, entries: seq<Entry>) returns (trace: seq<Event>)
    ensures trace == BatchEvents(TopSentinel, stickyRefs.entries, entries)
  {
    trace := [];
    var i := 0;
    while i < |entries|
      invariant 0 <= i <= |entries|
      invariant trace == BatchEvents(TopSentinel, stickyRefs.entries, entries[..i])
    {
      var entry := entries[i];
      var target := stickyRefs.Get(entry.target);
      var targetInfo, rootBoundsInfo := entry.boundingClientRect, entry.rootBounds;
      var kind: Option<ChangeType> := None;
      if targetInfo.Bottom() < rootBoundsInfo.Top() {
        kind := Some(Stuck);
        trace := trace + [OnStuck(target)];
      }
      if targetInfo.Bottom() >= rootBoundsInfo.Top() && targetInfo.Bottom() < rootBoundsInfo.Bottom() {
        kind := Some(Unstuck);
        trace := trace + [OnUnstuck(target)];
      }
      if kind.Some? {
        trace := trace + [OnChange(kind.value, target)];
      }
      BatchEventsStep(TopSentinel, stickyRefs.entries, entries, i);
      i := i + 1;
    }
    assert entries[..i] == entries;
  }

  /** The body of the bottom observer's callback. */
  method ObserveBottomEntries(stickyRefs: RefMap, entries: seq<Entry>) returns (trace: seq<Event>)
    requires AllResolve(stickyRefs.entries, entries)
    ensures trace == BatchEvents(BottomSentinel, stickyRefs.entries, entries)
  {
    trace := [];
    var i := 0;
    while i < |entries|
      invariant 0 <= i <= |entries|
      invariant trace == BatchEvents(BottomSentinel, stickyRefs.entries, entries[..i])
    {
      var entry := entries[i];
      var target := stickyRefs.Get(entry.target);
      // `target.getBoundingClientRect()` needs an element here
      assert target.Some? && target.value.Element?;
      var targetRect := entry.targetRect;
      var bottomSentinelRect, rootBounds := entry.boundingClientRect, entry.rootBounds;
      var intersectionRatio := entry.intersectionRatio;
      var kind: Option<ChangeType> := None;
      if && bottomSentinelRect.Top() >= rootBounds.Top()
         && bottomSentinelRect.Bottom() <= rootBounds.Bottom()
         && intersectionRatio == 1.0
         && targetRect.y == 0.0
      {
        kind := Some(Stuck);
        trace := trace + [OnStuck(target)];
      }
      if bottomSentinelRect.Top() <= rootBounds.Top() {
        kind := Some(Unstuck);
        trace := trace + [OnUnstuck(target)];
      }
      if kind.Some? {
        trace := trace + [OnChange(kind.value, target)];
      }
      BatchEventsStep(BottomSentinel, stickyRefs.entries, entries, i);
      i := i + 1;
    }
    assert entries[..i] == entries;
  }

  /** A batch's calls are its parts' calls, concatenated in delivery order. */
  lemma {:induction false} BatchEventsAppend(side: Side, refs: map<Ref, Ref>, s: seq<Entry>, t: seq<Entry>)
    ensures BatchEvents(side, refs, s + t) == BatchEvents(side, refs, s) + BatchEvents(side, refs, t)
    decreases |s|
  {
    if s == [] {
      assert s + t == t;
    } else {
      assert (s + t)[0] == s[0];
      assert (s + t)[1..] == s[1..] + t;
      BatchEventsAppend(side, refs, s[1..], t);
    }
  }

  /** Handling one more entry appends exactly that entry's calls. */
  lemma BatchEventsStep(side: Side, refs: map<Ref, Ref>, entries: seq<Entry>, i: nat)
    requires i < |entries|
    ensures BatchEvents(side, refs, entries[..i + 1])
         == BatchEvents(side, refs, entries[..i]) + EntryEvents(side, entries[i], Lookup(refs, entries[i].target))
  {
    assert entries[..i + 1] == entries[..i] + [entries[i]];
    BatchEventsAppend(side, refs, entries[..i], [entries[i]]);
    assert BatchEvents(side, refs, [entries[i]]) == EntryEvents(side, entries[i], Lookup(refs, entries[i].target));
  }

  /** Top sentinel: `onStuck` fires exactly when the sentinel's bottom is above
      the root's top; `onUnstuck` exactly when it lies in [root top, root
      bottom); never both, and nothing at or below the root's bottom. */
  lemma TopClassification(e: Entry, target: Option<Ref>)
    ensures OnStuck(target) in EntryEvents(TopSentinel, e, target)
            <==> e.boundingClientRect.Bottom() < e.rootBounds.Top()
    ensures OnUnstuck(target) in EntryEvents(TopSentinel, e, target)
            <==> e.rootBounds.Top() <= e.boundingClientRect.Bottom() < e.rootBounds.Bottom()
    ensures !(OnStuck(target) in EntryEvents(TopSentinel, e, target) && OnUnstuck(target) in EntryEvents(TopSentinel, e, target))
    ensures e.boundingClientRect.Bottom() >= e.rootBounds.Bottom() ==> EntryEvents(TopSentinel, e, target) == []
  {
  }

  /** Bottom sentinel: `onStuck` fires only when all four conditions hold, so
      never when the ratio is not 1 or the target's y is not 0; `onUnstuck`
      fires exactly when the sentinel's top is at or above the root's top. */
  lemma BottomClassification(e: Entry, target: Option<Ref>)
    ensures OnStuck(target) in EntryEvents(BottomSentinel, e, target)
            <==> && e.boundingClientRect.Top() >= e.rootBounds.Top()
                 && e.boundingClientRect.Bottom() <= e.rootBounds.Bottom()
                 && e.intersectionRatio == 1.0
                 && e.targetRect.y == 0.0
    ensures e.intersectionRatio != 1.0 || e.targetRect.y != 0.0 ==> OnStuck(target) !in EntryEvents(BottomSentinel, e, target)
    ensures OnUnstuck(target) in EntryEvents(BottomSentinel, e, target)
            <==> e.boundingClientRect.Top() <= e.rootBounds.Top()
  {
  }

  /** Bottom sentinel: when the sentinel's top is exactly the root's top and
      the rest of the stuck test holds, both tests pass: `onStuck` and then
      `onUnstuck` fire, and `onChange` reports "unstuck" once. */
  lemma BottomOverlap(e: Entry, target: Option<Ref>)
    requires e.boundingClientRect.Top() == e.rootBounds.Top()
    requires e.boundingClientRect.Bottom() <= e.rootBounds.Bottom()
    requires e.intersectionRatio == 1.0 && e.targetRect.y == 0.0
    ensures EntryEvents(BottomSentinel, e, target) == [OnStuck(target), OnUnstuck(target), OnChange(Unstuck, target)]
  {
  }

  /** Number of `onChange` calls in a trace. */
  function ChangeCount(trace: seq<Event>): nat {
    if trace == [] then 0 else (if trace[0].OnChange? then 1 else 0) + ChangeCount(trace[1..])
  }

  lemma {:induction false} ChangeCountAppend(a: seq<Event>, b: seq<Event>)
    ensures ChangeCount(a + b) == ChangeCount(a) + ChangeCount(b)
    decreases |a|
  {
    if a == [] {
      assert a + b == b;
    } else {
      assert (a + b)[1..] == a[1..] + b;
      ChangeCountAppend(a[1..], b);
    }
  }

  /** Per entry, on either side: nothing fires exactly when neither test
      holds; otherwise `onChange` fires once, as the last call, with
      "unstuck" whenever the unstuck test held and "stuck" otherwise. */
  lemma {:induction false} EntryChangesOnce(side: Side, e: Entry, target: Option<Ref>)
    ensures EntryEvents(side, e, target) == [] <==> !StuckTest(side, e) && !UnstuckTest(side, e)
    ensures ChangeCount(EntryEvents(side, e, target)) == if EntryEvents(side, e, target) == [] then 0 else 1
    ensures EntryEvents(side, e, target) != [] ==>
      var ev := EntryEvents(side, e, target);
      ev[|ev| - 1] == OnChange(if UnstuckTest(side, e) then Unstuck else Stuck, target)
  {
    var ev := EntryEvents(side, e, target);
    var stuck, unstuck := StuckTest(side, e), UnstuckTest(side, e);
    var a := if stuck then [OnStuck(target)] else [];
    var b := if unstuck then [OnUnstuck(target)] else [];
    var c := if unstuck then [OnChange(Unstuck, target)] else if stuck then [OnChange(Stuck, target)] else [];
    assert ev == a + b + c;
    ChangeCountAppend(a + b, c);
    ChangeCountAppend(a, b);
    assert ChangeCount(a) == 0 by {
      if stuck { assert a[1..] == []; }
    }
    assert ChangeCount(b) == 0 by {
      if unstuck { assert b[1..] == []; }
    }
    assert ChangeCount(c) == |c| by {
      if |c| == 1 { assert c[1..] == []; }
    }
  }

  /** Number of entries of a batch for which some test holds. */
  function Classified(side: Side, entries: seq<Entry>): nat {
    if entries == [] then 0
    else (if StuckTest(side, entries[0]) || UnstuckTest(side, entries[0]) then 1 else 0) + Classified(side, entries[1..])
  }

  /** Per batch: `onChange` fires once for each entry some test classified and
      for no other, so never more often than there are entries. */
  lemma {:induction false} BatchChangesOncePerEntry(side: Side, refs: map<Ref, Ref>, entries: seq<Entry>)
    ensures ChangeCount(BatchEvents(side, refs, entries)) == Classified(side, entries) <= |entries|
    decreases |entries|
  {
    if entries != [] {
      var e := entries[0];
      var target := Lookup(refs, e.target);
      EntryChangesOnce(side, e, target);
      ChangeCountAppend(EntryEvents(side, e, target), BatchEvents(side, refs, entries[1..]));
      BatchChangesOncePerEntry(side, refs, entries[1..]);
    }
  }

  /** Per batch: `onStuck(t)` fires if and only if some entry passes the stuck
      test and its sentinel looks up to `t`. */
  lemma {:induction false} BatchStuckIff(side: Side, refs: map<Ref, Ref>, entries: seq<Entry>, t: Option<Ref>)
    ensures OnStuck(t) in BatchEvents(side, refs, entries)
            <==> exists i :: 0 <= i < |entries| && StuckTest(side, entries[i]) && Lookup(refs, entries[i].target) == t
    decreases |entries|
  {
    if entries != [] {
      BatchStuckIff(side, refs, entries[1..], t);
      var head := EntryEvents(side, entries[0], Lookup(refs, entries[0].target));
      assert BatchEvents(side, refs, entries) == head + BatchEvents(side, refs, entries[1..]);
      assert OnStuck(t) in head <==> StuckTest(side, entries[0]) && Lookup(refs, entries[0].target) == t;
      if OnStuck(t) in BatchEvents(side, refs, entries[1..]) {
        var j :| 0 <= j < |entries[1..]| && StuckTest(side, entries[1..][j]) && Lookup(refs, entries[1..][j].target) == t;
        assert entries[j + 1] == entries[1..][j];
      }
      if exists i :: 0 <= i < |entries| && StuckTest(side, entries[i]) && Lookup(refs, entries[i].target) == t {
        var i :| 0 <= i < |entries| && StuckTest(side, entries[i]) && Lookup(refs, entries[i].target) == t;
        if i > 0 {
          assert entries[1..][i - 1] == entries[i];
        }
      }
    }
  }

  /** The top observer does not check its lookup: an entry for a sentinel the
      registry does not know still fires, with target `undefined`. */
  lemma TopUnregisteredStillFires(refs: map<Ref, Ref>, e: Entry)
    requires e.target !in refs
    requires TopStuck(e)
    ensures BatchEvents(TopSentinel, refs, [e]) == [OnStuck(None), OnChange(Stuck, None)]
  {
  }

  /** The `threshold` option of each observer. */
  function Threshold(side: Side): real {
    match side
    case TopSentinel => 0.0
    case BottomSentinel => 1.0
  }

  /** An IntersectionObserver as set up: its root element, its single
      threshold, and the sentinel element it observes, if any. */
  datatype Observer = Observer(root: nat, threshold: real, observed: Option<nat>)

  /** The effect that creates an observer: nothing when there is no container
      wrapper or it holds no node; otherwise an observer rooted at the
      container that observes the sentinel only when its ref holds a node. */
  method SetUpObserver(side: Side, containerRef: RefBox?, sentinelRef: RefBox) returns (observer: Option<Observer>)
    ensures observer.None? <==> containerRef == null || containerRef.current.Null?
    ensures observer.Some? ==>
      && containerRef != null && containerRef.current.Element?
      && observer.value.root == containerRef.current.id
      && observer.value.threshold == Threshold(side)
      && (observer.value.observed.Some? <==> sentinelRef.current.Element?)
      && (sentinelRef.current.Element? ==> observer.value.observed == Some(sentinelRef.current.id))
  {
    if containerRef == null {
      return None;
    }
    if containerRef.current.Null? {
      return None;
    }
    var root := containerRef.current.id;
    var created := Observer(root, Threshold(side), None);
    var sentinel := sentinelRef.current;
    if sentinel.Element? {
      created := created.(observed := Some(sentinel.id));
    }
    observer := Some(created);
  }

  /** Four sample geometries (root 100..500), classified by the model. */
  lemma Scenarios(target: Option<Ref>)
    ensures EntryEvents(TopSentinel, Entry(Element(1), Rect(80.0, 10.0), Rect(100.0, 400.0), 0.0, Rect(0.0, 0.0)), target)
            == [OnStuck(target), OnChange(Stuck, target)]
    ensures EntryEvents(TopSentinel, Entry(Element(1), Rect(140.0, 10.0), Rect(100.0, 400.0), 1.0, Rect(0.0, 0.0)), target)
            == [OnUnstuck(target), OnChange(Unstuck, target)]
    ensures EntryEvents(BottomSentinel, Entry(Element(2), Rect(120.0, 60.0), Rect(100.0, 400.0), 1.0, Rect(0.0, 50.0)), target)
            == [OnStuck(target), OnChange(Stuck, target)]
    ensures EntryEvents(BottomSentinel, Entry(Element(2), Rect(90.0, 60.0), Rect(100.0, 400.0), 0.5, Rect(-10.0, 50.0)), target)
            == [OnUnstuck(target), OnChange(Unstuck, target)]
  {
  }
}

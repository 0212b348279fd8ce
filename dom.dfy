/**
 * The few host-environment values the sticky core touches: nullable DOM
 * element references, React's mutable `{current}` ref objects, and the
 * JavaScript `Map` that the registry keys by sentinel node.
 */
module Dom {

  /** A value that may be JavaScript's `undefined` (for example what
      `Map.prototype.get` returns for a missing key). */
  datatype Option<T> = None | Some(value: T)

  /** A JavaScript value that is either `null` or a DOM element; elements are
      compared by identity, here an opaque number. */
  datatype Ref = Null | Element(id: nat)

  /** A `{ current }` object: a React ref, or the wrapper the registry
      allocates around the container node. */
  class RefBox {
    var current: Ref

    constructor (current: Ref)
      ensures this.current == current
    {
      this.current := current;
    }
  }

  /** The lookup a JavaScript `Map` performs: `undefined` for a missing key. */
  function Lookup(m: map<Ref, Ref>, key: Ref): (r: Option<Ref>)
    ensures r.Some? <==> key in m
    ensures r.Some? ==> r.value == m[key]
  {
    if key in m then Some(m[key]) else None
  }

  /** A JavaScript `Map` from nodes to nodes: a heap object of its own, so
      that two registry states can share it. */
  class RefMap {
    var entries: map<Ref, Ref>

    constructor ()
      ensures entries == map[]
    {
      entries := map[];
    }

    function Get(key: Ref): Option<Ref>
      reads this
    {
      Lookup(entries, key)
    }

    method Set(key: Ref, value: Ref)
      modifies this
      ensures entries == old(entries)[key := value]
    {
      entries := entries[key := value];
    }
  }
}

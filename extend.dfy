/** The `ExtendWithCapacity` target container, modelled for `Vec<T>`: it is
    created with a requested capacity and then grows by appending. */
module Extend {

  class Vec<T> {
    /** The capacity passed to `Vec::with_capacity`. The real allocation may
        differ; only the request is modelled. */
    const requestedCapacity: nat
    /** The elements, in insertion order. */
    var contents: seq<T>

    /** `ExtendWithCapacity::with_capacity` for `Vec`. */
    constructor WithCapacity(capacity: nat)
      ensures requestedCapacity == capacity
      ensures contents == []
    {
      requestedCapacity := capacity;
      contents := [];
    }

    /** `Extend::extend` with a single element (`core::iter::once(x)`). */
    method Push(x: T)
      modifies this
      ensures contents == old(contents) + [x]
    {
      contents := contents + [x];
    }
  }
}

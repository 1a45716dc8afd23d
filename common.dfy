/** The shared capacity rule and the create-then-extend collector that every
    public entry point reduces to. */
module Common {
  import opened Core
  import opened Extend

  /** `Iterator::size_hint()`: a lower bound and an optional upper bound.
      Nothing ties it to the real number of items. */
  datatype SizeHint = SizeHint(lower: nat, upper: Option<nat>)

  /** An iterator as the collectors see it: the items it will yield, in
      order, and the size hint it reports before the first item is taken. */
  datatype Iter<T> = Iter(items: seq<T>, hint: SizeHint)

  /** `get_max_hint_bound`: the largest element count the hint allows. */
  function MaxHintBound(hint: SizeHint): (bound: nat)
    ensures bound >= hint.lower
    ensures hint.upper.None? ==> bound == hint.lower
    ensures hint.upper.Some? ==>
      bound >= hint.upper.value && (bound == hint.lower || bound == hint.upper.value)
  {
    match hint
    case SizeHint(lower, Some(upper)) => Max(lower, upper)
    case SizeHint(n, None) => n
  }

  /** The capacity `collect_iterator` passes on, given the hint bound and what
      the caller's closure returned for it. */
  function RealCapacity(bound: nat, requested: nat, exact: bool): (capacity: nat)
    ensures exact ==> capacity == requested
    ensures !exact ==> capacity >= bound && capacity >= requested
    ensures !exact ==> capacity == bound || capacity == requested
  {
    if exact then requested else Max(requested, bound)
  }

  /** The caller's `impl FnOnce(usize) -> usize`. `calls` records the
      arguments it was invoked with; being `FnOnce`, it may run at most once. */
  class CapacityClosure {
    const apply: nat -> nat
    ghost var calls: seq<nat>

    constructor (f: nat -> nat)
      ensures apply == f && calls == []
    {
      apply := f;
      calls := [];
    }

    method Call(n: nat) returns (r: nat)
      requires calls == []
      modifies this
      ensures r == apply(n)
      ensures calls == [n]
    {
      r := apply(n);
      calls := [n];
    }
  }

  /** `collect_with_exact_capacity`: create the container at `capacity`, then
      append every item in iteration order. */
  method CollectWithExactCapacity<T>(iter: Iter<T>, capacity: nat) returns (v: Vec<T>)
    ensures fresh(v)
    ensures v.requestedCapacity == capacity
    ensures v.contents == iter.items
  {
    v := new Vec.WithCapacity(capacity);
    var i := 0;
    while i < |iter.items|
      invariant 0 <= i <= |iter.items|
      invariant v.contents == iter.items[..i]
    {
      v.Push(iter.items[i]);
      i := i + 1;
    }
  }

  /** `collect_iterator`: the closure is called once, on the hint bound, also
      for an empty iterator; its value is used verbatim in exact mode and
      raised to the bound otherwise. */
  method CollectIterator<T>(iter: Iter<T>, exact: bool, capacity: CapacityClosure)
    returns (v: Vec<T>)
    requires capacity.calls == []
    modifies capacity
    ensures capacity.calls == [MaxHintBound(iter.hint)]
    ensures fresh(v)
    ensures v.requestedCapacity ==
      RealCapacity(MaxHintBound(iter.hint), capacity.apply(MaxHintBound(iter.hint)), exact)
    ensures v.contents == iter.items
  {
    var bound := MaxHintBound(iter.hint);
    var n := capacity.Call(bound);
    var realCapacity := if exact then n else Max(n, bound);
    v := CollectWithExactCapacity(iter, realCapacity);
  }

  /** The iterator of the range `lo..hi`; its size hint is exact. */
  function Range(lo: int, hi: int): (it: Iter<int>)
    requires lo <= hi
    ensures |it.items| == hi - lo
    ensures forall i :: 0 <= i < |it.items| ==> it.items[i] == lo + i
    ensures it.hint == SizeHint(hi - lo, Some(hi - lo))
  {
    Iter(seq(hi - lo, i => lo + i), SizeHint(hi - lo, Some(hi - lo)))
  }
}

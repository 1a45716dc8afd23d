/** The `CollectWithCapacity` and `CollectWith` entry points: each fixes the
    `exact` flag or the closure of `collect_iterator`. */
module Collect {
  import opened Core
  import opened Extend
  import opened Common

  /** `collect_with_capacity(c)`: non-exact rule with the constant closure
      `|_| c`, so the request is `max(c, bound)`. */
  method CollectWithCapacity<T>(iter: Iter<T>, capacity: nat) returns (v: Vec<T>)
    ensures fresh(v)
    ensures v.requestedCapacity == Max(capacity, MaxHintBound(iter.hint))
    ensures v.contents == iter.items
  {
    var closure := new CapacityClosure(_ => capacity);
    v := CollectIterator(iter, false, closure);
  }

  /** `collect_with`: the closure's value, raised to the hint bound. */
  method CollectWith<T>(iter: Iter<T>, capacity: CapacityClosure) returns (v: Vec<T>)
    requires capacity.calls == []
    modifies capacity
    ensures capacity.calls == [MaxHintBound(iter.hint)]
    ensures fresh(v)
    ensures v.requestedCapacity ==
      Max(capacity.apply(MaxHintBound(iter.hint)), MaxHintBound(iter.hint))
    ensures v.contents == iter.items
  {
    v := CollectIterator(iter, false, capacity);
  }

  /** `collect_with_exact`: the closure's value, unchanged. */
  method CollectWithExact<T>(iter: Iter<T>, capacity: CapacityClosure) returns (v: Vec<T>)
    requires capacity.calls == []
    modifies capacity
    ensures capacity.calls == [MaxHintBound(iter.hint)]
    ensures fresh(v)
    ensures v.requestedCapacity == capacity.apply(MaxHintBound(iter.hint))
    ensures v.contents == iter.items
  {
    v := CollectIterator(iter, true, capacity);
  }

  /** `(0..10).collect_with_capacity::<Vec<_>>(20)` requests 20. */
  method ExampleCollectWithCapacity() returns (v: Vec<int>)
    ensures v.requestedCapacity == 20
    ensures v.contents == Range(0, 10).items
  {
    v := CollectWithCapacity(Range(0, 10), 20);
  }

  /** `(0..10).collect_with(|_| 2)`: the hint bound 10 wins over 2. */
  method ExampleCollectWithSmallClosure() returns (v: Vec<int>)
    ensures v.requestedCapacity == 10
    ensures |v.contents| == 10
  {
    var closure := new CapacityClosure(_ => 2);
    v := CollectWith(Range(0, 10), closure);
  }

  /** Four pieces flattened from `[vec!["a"], vec!["b", "c", "d"]]`, whose
      hint is `(0, None)`, collected with `0 => 8, n => n`: capacity 8,
      length 4. The `String` target is modelled as a sequence of its
      one-byte pieces. */
  method ExampleCollectWithFlatten() returns (v: Vec<string>)
    ensures v.requestedCapacity == 8
    ensures |v.contents| == 4
    ensures v.contents == ["a", "b", "c", "d"]
  {
    var flattened := Iter(["a", "b", "c", "d"], SizeHint(0, None));
    var closure := new CapacityClosure(n => if n == 0 then 8 else n);
    v := CollectWith(flattened, closure);
  }
}

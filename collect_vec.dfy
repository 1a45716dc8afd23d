/** `CollectVector`: `collect_with` and `collect_with_exact` with `Vec` as the
    target. */
module CollectVec {
  import opened Core
  import opened Extend
  import opened Common
  import opened Collect

  /** `collect_vec_with`: `collect_with::<Vec<_>>`, so the non-exact rule. */
  method CollectVecWith<T>(iter: Iter<T>, capacity: CapacityClosure) returns (v: Vec<T>)
    requires capacity.calls == []
    modifies capacity
    ensures capacity.calls == [MaxHintBound(iter.hint)]
    ensures fresh(v)
    ensures v.requestedCapacity ==
      Max(capacity.apply(MaxHintBound(iter.hint)), MaxHintBound(iter.hint))
    ensures v.contents == iter.items
  {
    v := CollectWith(iter, capacity);
  }

  /** `collect_vec_with_exact`: `collect_with_exact::<Vec<_>>`, so the exact
      rule. */
  method CollectVecWithExact<T>(iter: Iter<T>, capacity: CapacityClosure) returns (v: Vec<T>)
    requires capacity.calls == []
    modifies capacity
    ensures capacity.calls == [MaxHintBound(iter.hint)]
    ensures fresh(v)
    ensures v.requestedCapacity == capacity.apply(MaxHintBound(iter.hint))
    ensures v.contents == iter.items
  {
    v := CollectWithExact(iter, capacity);
  }

  /** `(0..10).collect_vec_with(|_| 2)` requests 10, not 2. */
  method ExampleVecWithSmallClosure() returns (v: Vec<int>)
    ensures v.requestedCapacity == 10
    ensures v.contents == Range(0, 10).items
  {
    var closure := new CapacityClosure(_ => 2);
    v := CollectVecWith(Range(0, 10), closure);
  }

  /** `(0..10).collect_vec_with(|b| b + 2)` requests 12. */
  method ExampleVecWithPlusTwo() returns (v: Vec<int>)
    ensures v.requestedCapacity == 12
    ensures v.contents == Range(0, 10).items
  {
    var closure := new CapacityClosure(b => b + 2);
    v := CollectVecWith(Range(0, 10), closure);
  }

  /** `(0..10).collect_vec_with(0 => 12, n => n + 5)` requests 15. */
  method ExampleVecWithPlusFive() returns (v: Vec<int>)
    ensures v.requestedCapacity == 15
    ensures |v.contents| == 10
  {
    var closure := new CapacityClosure(n => if n == 0 then 12 else n + 5);
    v := CollectVecWith(Range(0, 10), closure);
  }

  /** `(0..10).collect_vec_with_exact(0 => 32, u => u)` requests exactly 10. */
  method ExampleVecWithExact() returns (v: Vec<int>)
    ensures v.requestedCapacity == 10
    ensures v.contents == Range(0, 10).items
  {
    var closure := new CapacityClosure(n => if n == 0 then 32 else n);
    v := CollectVecWithExact(Range(0, 10), closure);
  }
}

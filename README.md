# collect-with, modelled in Dafny

A model of the `collect_with` Rust crate: helpers that collect an iterator
into a container created with a chosen capacity, and a fallible variant that
stops at the first item that fails to extract.

- **Capacity rule** (`Common`). The iterator's size hint `(lower, upper)` is
  reduced to one bound: `max(lower, upper)` when an upper bound exists, and
  `lower` otherwise. The caller's `FnOnce` closure is called once on that
  bound. Exact mode keeps its value as it is. Otherwise the value is raised to
  at least the bound.
- **Create-then-extend** (`Common`, `Extend`). A `Vec` is created with the
  resolved capacity. Every item is then appended, one at a time, in iteration
  order.
- **Entry points** (`Collect`, `CollectVec`). `collect_with_capacity`,
  `collect_with`, `collect_with_exact`, `collect_vec_with` and
  `collect_vec_with_exact` each fix the exact flag or the closure.
- **Outcome extraction** (`TryExtract`). `Result`, `Option` and `ControlFlow`,
  by value and by reference, are mapped into one `Result`.
- **Fallible collection** (`TryCollect`). `try_collect_with` always uses the
  non-exact rule. It extracts and appends items in order. The first failing
  extraction ends the loop, and its error is returned in place of the
  container.

Modelling choices:
- An iterator is the sequence of items it yields plus the size hint it
  reports (`Common.Iter`). The hint is not assumed to be truthful.
- The capacity closure is a `CapacityClosure` object. It records the
  arguments it was called with. Because it is `FnOnce`, `Call` requires that
  it has not run yet.
- A shared borrow `&T` is a value wrapper `Core.Ref`. This keeps the three
  by-reference `TryExtract` impls apart from the by-value ones.
- The `TryExtract` bound on the items is the function argument `extract`.
- Sizes are unbounded naturals (`nat`).
- In the doc examples, `str::parse::<i32>` is not modelled. Its results are
  given directly as the items (`Ok(42)`, `Err(InvalidDigit)`).

## Model

| member | source | states |
|---|---|---|
| `Extend.Vec.WithCapacity` | src/extend.rs:29-33 | a new Vec is empty and records the requested capacity |
| `Extend.Vec.Push` | src/try_collect.rs:53 | extending with one element appends it at the end |
| `Common.MaxHintBound` | src/common.rs:37-44 | the bound is at least `lower`; it is `lower` without an upper bound; with one, it is the larger of `lower` and `upper` |
| `Common.RealCapacity` | src/common.rs:13-16 | exact mode returns the closure's value unchanged, even below the bound; non-exact mode returns the least of the bound and the closure's value that covers both |
| `Common.CapacityClosure.Call` | src/common.rs:13 | a `FnOnce` closure runs at most once; the call returns its value and is recorded with its argument |
| `Common.CollectWithExactCapacity` | src/common.rs:20-28 | the new container's requested capacity is the given one, and its contents are the items in iteration order |
| `Common.CollectIterator` | src/common.rs:3-18 | the closure is called exactly once, on the hint bound, also for an empty iterator; the request follows `RealCapacity`; the contents are all items in order |
| `Common.Range` | src/collect.rs:39 | `lo..hi` yields `lo`, `lo+1`, ... and reports the exact hint `(hi-lo, Some(hi-lo))` |
| `Collect.CollectWithCapacity` | src/collect.rs:17-23 | the request is `max(c, bound)`; the contents are all items in order |
| `Collect.CollectWith` | src/collect.rs:63-69 | non-exact: the request is `max(closure(bound), bound)`; the closure runs once; all items in order |
| `Collect.CollectWithExact` | src/collect.rs:78-84 | exact: the request is `closure(bound)` unchanged; the closure runs once; all items in order |
| `Collect.ExampleCollectWithCapacity` | src/lib.rs:47-52 | `(0..10).collect_with_capacity(20)` requests 20 and holds 0..10 |
| `Collect.ExampleCollectWithSmallClosure` | src/collect.rs:37-42 | `(0..10).collect_with` with the constant closure 2 requests 10, not 2 |
| `Collect.ExampleCollectWithFlatten` | src/collect.rs:49-57 | hint `(0, None)` with `0 => 8` requests 8 and holds the 4 flattened pieces in order |
| `CollectVec.CollectVecWith` | src/collect_vec.rs:48-54 | same as `collect_with` into a Vec: non-exact request, all items in order |
| `CollectVec.CollectVecWithExact` | src/collect_vec.rs:72-78 | same as `collect_with_exact` into a Vec: exact request, all items in order |
| `CollectVec.ExampleVecWithSmallClosure` | src/collect_vec.rs:27-32 | `(0..10).collect_vec_with` with the constant closure 2 requests 10 |
| `CollectVec.ExampleVecWithPlusTwo` | src/collect_vec.rs:42-43 | `(0..10).collect_vec_with` with closure `b + 2` requests 12 |
| `CollectVec.ExampleVecWithPlusFive` | src/lib.rs:72-78 | `(0..10)` with `0 => 12, n => n + 5` requests 15 |
| `CollectVec.ExampleVecWithExact` | src/collect_vec.rs:63-67 | `(0..10).collect_vec_with_exact(0 => 32, u => u)` requests exactly 10 |
| `TryExtract.ExtractResult` | src/try_extract.rs:35-42 | `Result` by value: variant and payload are kept |
| `TryExtract.ExtractResultRef` | src/try_extract.rs:51-53 | `&Result`: `Ok(t)` gives `Ok(&t)`, `Err(e)` gives `Err(&e)` |
| `TryExtract.ExtractOption` | src/try_extract.rs:66-68 | `Option`: `Ok` exactly for `Some(v)`, carrying `v`; `None` gives `Err(())` |
| `TryExtract.ExtractOptionRef` | src/try_extract.rs:79-81 | `&Option`: `Ok(&v)` exactly for `Some(v)`; `None` gives `Err(())` |
| `TryExtract.ExtractControlFlow` | src/try_extract.rs:94-100 | `ControlFlow`: `Continue(c)` gives `Ok(c)`, `Break(b)` gives `Err(b)` |
| `TryExtract.ExtractControlFlowRef` | src/try_extract.rs:111-116 | `&ControlFlow`: `Continue(c)` gives `Ok(&c)`, `Break(b)` gives `Err(&b)` |
| `TryExtract.RefImplsAgreeWithValueImpls` | src/try_extract.rs:13-26 | after following the borrows, each by-reference impl gives the same outcome as its by-value impl |
| `TryCollect.ExtractAll` | src/try_collect.rs:51-56 | reference definition of the extraction loop; a success holds one value per item |
| `TryCollect.ExtractAllOk` | src/try_collect.rs:51-56 | the result is `Ok` exactly when every item extracts to `Ok`; the values are then the extracted ones, in order |
| `TryCollect.ExtractAllFirstFailure` | src/try_collect.rs:52 | when item k is the first failure, the result is `Err` of item k's error |
| `TryCollect.ExtractAllErrHasFirstFailure` | src/try_collect.rs:51-53 | every `Err` result comes from a first failing item and carries its error |
| `TryCollect.ExtractAllIgnoresRest` | src/try_collect.rs:51-53 | items after the first failure do not affect the result, whatever they are |
| `TryCollect.TryCollectWith` | src/try_collect.rs:39-57 | the closure runs once on the bound; the request is `max(closure(bound), bound)`; `Ok` exactly when all items extract to `Ok`, holding their values in order; otherwise the error of the first failure, after exactly that many extractions; agrees with `ExtractAll` |
| `TryCollect.TryCollectVecWith` | src/try_collect.rs:79-88 | same capacity and outcome as `try_collect_with` into a Vec |
| `TryCollect.ExampleParseFailure` | src/try_collect.rs:32-37 | `["42", "76", "abc"]` parsed gives the error of `"abc"` |
| `TryCollect.ExampleParseSuccess` | src/collect_index.rs:202-213 | `["42", "76", "03"]` with closure `u + 3` requests 6 and holds `[42, 76, 3]` |
| `TryCollect.ExampleVecParse` | src/try_collect.rs:71-76 | `["42", "73"]` gives `Ok([42, 73])` |
| `TryCollect.ExampleOptions` | src/lib.rs:86-90 | `[Some(12), Some(42), Some(77)]` gives `Ok([12, 42, 77])` |

## Left out

- Containers other than `Vec` (`String`, `VecDeque`, `BinaryHeap`, `OsString`, `PathBuf`, hash maps and sets, `IndexMap`, `IndexSet`, `AHashMap`, `AHashSet`) are not modelled. Each one only forwards to its library's `with_capacity`. Their extend semantics (key de-duplication, heap order, hashing) belong to those libraries. The `String` example is modelled as a `Vec` of its one-byte pieces.
- The `CollectIndex` and `CollectAHash` entry points are not modelled. They only call `collect_with` or `collect_with_exact` with one of the containers above.
- Only the requested capacity is modelled. The capacity a container actually allocates, which may be rounded up, is library behaviour.
- Sizes are unbounded. A closure such as `u + 1` that would overflow `usize` is not modelled, and neither is the resulting panic or wrap-around.
- Lazy iterator adapters (`map`, `flatten`, `zip`) and `str::parse::<i32>` are not modelled. The items they yield and the hint they report are given as inputs.
- Lifetimes and aliasing of the by-reference `TryExtract` impls are not modelled. A borrow is only the value it points at.
- Common.CollectIterator: the contract does not state that the closure runs before the first item is taken. This holds by construction: the closure's value fixes the capacity when the container is created, and items are appended only after that.
- The feature gates in `src/lib.rs` are not modelled. Neither are the documentation and formatting tests in `tests/`, which run external tools.

/** `TryCollectWith`: collect the extracted values of an iterator's items,
    stopping at the first item whose extraction fails. The item type's
    `TryExtract` impl is passed as the function `extract`. */
module TryCollect {
  import opened Core
  import opened Extend
  import opened Common
  import opened TryExtract

  /** Reference definition: extract the items front to back; the first
      failure is the answer, otherwise all extracted values in order. */
  function ExtractAll<Item, OK, ERR>(items: seq<Item>, extract: Item -> Result<OK, ERR>)
    : (r: Result<seq<OK>, ERR>)
    ensures r.Ok? ==> |r.value| == |items|
    decreases |items|
  {
    if items == [] then Ok([])
    else match extract(items[0])
      case Err(e) => Err(e)
      case Ok(v) =>
        match ExtractAll(items[1..], extract)
        case Err(e) => Err(e)
        case Ok(vs) => Ok([v] + vs)
  }

  /** Item `k` is the first whose extraction fails. */
  predicate FirstFailureAt<Item, OK, ERR>(
    items: seq<Item>, extract: Item -> Result<OK, ERR>, k: nat)
  {
    k < |items| && extract(items[k]).Err? &&
    forall j :: 0 <= j < k ==> extract(items[j]).Ok?
  }

  /** Success exactly when every item extracts to `Ok`, and then the values
      are the extracted ones, in iteration order. */
  lemma {:induction false} ExtractAllOk<Item, OK, ERR>(
    items: seq<Item>, extract: Item -> Result<OK, ERR>)
    ensures ExtractAll(items, extract).Ok? <==>
      forall i :: 0 <= i < |items| ==> extract(items[i]).Ok?
    ensures ExtractAll(items, extract).Ok? ==>
      forall i :: 0 <= i < |items| ==> ExtractAll(items, extract).value[i] == extract(items[i]).value
    decreases |items|
  {
    if items != [] {
      ExtractAllOk(items[1..], extract);
      if extract(items[0]).Ok? && ExtractAll(items[1..], extract).Ok? {
        forall i | 1 <= i < |items|
          ensures ExtractAll(items, extract).value[i] == extract(items[i]).value
        {
          assert items[1..][i - 1] == items[i];
        }
      }
      if forall i :: 0 <= i < |items| ==> extract(items[i]).Ok? {
        forall i | 0 <= i < |items| - 1 ensures extract(items[1..][i]).Ok? {
          assert items[1..][i] == items[i + 1];
        }
      }
    }
  }

  /** First failure wins: the error is the one of the first failing item. */
  lemma {:induction false} ExtractAllFirstFailure<Item, OK, ERR>(
    items: seq<Item>, extract: Item -> Result<OK, ERR>, k: nat)
    requires FirstFailureAt(items, extract, k)
    ensures ExtractAll(items, extract) == Err(extract(items[k]).error)
    decreases k
  {
    if k > 0 {
      assert FirstFailureAt(items[1..], extract, k - 1) by {
        forall j | 0 <= j < k - 1 ensures extract(items[1..][j]).Ok? {
          assert items[1..][j] == items[j + 1];
        }
      }
      ExtractAllFirstFailure(items[1..], extract, k - 1);
    }
  }

  /** Every failing outcome comes from a first failing item. */
  lemma {:induction false} ExtractAllErrHasFirstFailure<Item, OK, ERR>(
    items: seq<Item>, extract: Item -> Result<OK, ERR>)
    requires ExtractAll(items, extract).Err?
    ensures exists k: nat :: (FirstFailureAt(items, extract, k) &&
      ExtractAll(items, extract).error == extract(items[k]).error)
    decreases |items|
  {
    if extract(items[0]).Err? {
      assert FirstFailureAt(items, extract, 0);
    } else {
      ExtractAllErrHasFirstFailure(items[1..], extract);
      var k: nat :| FirstFailureAt(items[1..], extract, k) &&
        ExtractAll(items[1..], extract).error == extract(items[1..][k]).error;
      forall j | 0 <= j < k + 1 ensures extract(items[j]).Ok? {
        if j > 0 { assert items[j] == items[1..][j - 1]; }
      }
      assert items[k + 1] == items[1..][k];
      assert FirstFailureAt(items, extract, k + 1);
    }
  }

  /** Short-circuit: nothing after the first failing item matters, whatever
      follows it. */
  lemma ExtractAllIgnoresRest<Item, OK, ERR>(
    items: seq<Item>, extract: Item -> Result<OK, ERR>, k: nat, rest: seq<Item>)
    requires FirstFailureAt(items, extract, k)
    ensures ExtractAll(items[..k + 1] + rest, extract) == ExtractAll(items, extract)
  {
    var cut := items[..k + 1] + rest;
    assert FirstFailureAt(cut, extract, k) by {
      assert forall j :: 0 <= j <= k ==> cut[j] == items[j];
    }
    ExtractAllFirstFailure(cut, extract, k);
    ExtractAllFirstFailure(items, extract, k);
  }

  /** `try_collect_with`: the capacity is the non-exact rule; then each item
      is extracted and appended until one fails. `extracted` counts the
      extractions performed. */
  method TryCollectWith<Item, OK, ERR>(
    iter: Iter<Item>, extract: Item -> Result<OK, ERR>, capacity: CapacityClosure)
    returns (r: Result<Vec<OK>, ERR>, ghost extracted: nat)
    requires capacity.calls == []
    modifies capacity
    ensures capacity.calls == [MaxHintBound(iter.hint)]
    ensures r.Ok? ==> fresh(r.value)
    ensures r.Ok? ==> (r.value.requestedCapacity ==
      Max(capacity.apply(MaxHintBound(iter.hint)), MaxHintBound(iter.hint)))
    ensures r.Ok? <==> forall i :: 0 <= i < |iter.items| ==> extract(iter.items[i]).Ok?
    ensures r.Ok? ==> extracted == |iter.items| && |r.value.contents| == |iter.items|
    ensures r.Ok? ==> forall i :: 0 <= i < |iter.items| ==>
      r.value.contents[i] == extract(iter.items[i]).value
    ensures r.Err? ==> 0 < extracted && FirstFailureAt(iter.items, extract, extracted - 1)
    ensures r.Err? ==> r.error == extract(iter.items[extracted - 1]).error
    ensures ExtractAll(iter.items, extract) ==
      if r.Ok? then Ok(r.value.contents) else Err(r.error)
  {
    var bound := MaxHintBound(iter.hint);
    var n := capacity.Call(bound);
    var container := new Vec<OK>.WithCapacity(Max(n, bound));
    extracted := 0;
    var i := 0;
    while i < |iter.items|
      invariant 0 <= i <= |iter.items|
      invariant extracted == i
      invariant |container.contents| == i
      invariant forall j :: 0 <= j < i ==> extract(iter.items[j]).Ok?
      invariant forall j :: 0 <= j < i ==> container.contents[j] == extract(iter.items[j]).value
      modifies container
    {
      var value := extract(iter.items[i]);
      extracted := extracted + 1;
      if value.Err? {
        assert FirstFailureAt(iter.items, extract, i);
        ExtractAllFirstFailure(iter.items, extract, i);
        return Err(value.error), extracted;
      }
      container.Push(value.value);
      i := i + 1;
    }
    ExtractAllOk(iter.items, extract);
    assert ExtractAll(iter.items, extract).value == container.contents;
    r := Ok(container);
  }

  /** `try_collect_vec_with`: `try_collect_with` with `Vec` as the target. */
  method TryCollectVecWith<Item, OK, ERR>(
    iter: Iter<Item>, extract: Item -> Result<OK, ERR>, capacity: CapacityClosure)
    returns (r: Result<Vec<OK>, ERR>)
    requires capacity.calls == []
    modifies capacity
    ensures capacity.calls == [MaxHintBound(iter.hint)]
    ensures r.Ok? ==> fresh(r.value)
    ensures r.Ok? ==> (r.value.requestedCapacity ==
      Max(capacity.apply(MaxHintBound(iter.hint)), MaxHintBound(iter.hint)))
    ensures ExtractAll(iter.items, extract) ==
      if r.Ok? then Ok(r.value.contents) else Err(r.error)
  {
    ghost var extracted;
    r, extracted := TryCollectWith(iter, extract, capacity);
  }

  /** The error of `str::parse::<i32>`, reduced to the one kind the examples
      meet. */
  datatype ParseIntError = InvalidDigit

  /** `["42", "76", "abc"]` parsed and collected with `|u| u + 3`: the third
      item fails, so the whole call fails with its error. */
  method ExampleParseFailure() returns (r: Result<Vec<int>, ParseIntError>)
    ensures r == Err(InvalidDigit)
  {
    var parsed: Iter<Result<int, ParseIntError>> :=
      Iter([Ok(42), Ok(76), Err(InvalidDigit)], SizeHint(3, Some(3)));
    var closure := new CapacityClosure(u => u + 3);
    ghost var extracted;
    r, extracted := TryCollectWith(parsed, ExtractResult, closure);
  }

  /** `["42", "76", "03"]` parsed with `|u| u + 3`: all succeed, the request
      is `max(3 + 3, 3) == 6` and the values are `[42, 76, 3]`. */
  method ExampleParseSuccess() returns (r: Result<Vec<int>, ParseIntError>)
    ensures r.Ok? && r.value.requestedCapacity == 6
    ensures r.Ok? && r.value.contents == [42, 76, 3]
  {
    var parsed: Iter<Result<int, ParseIntError>> :=
      Iter([Ok(42), Ok(76), Ok(3)], SizeHint(3, Some(3)));
    var closure := new CapacityClosure(u => u + 3);
    ghost var extracted;
    r, extracted := TryCollectWith(parsed, ExtractResult, closure);
  }

  /** `["42", "73"]` parsed and collected with `try_collect_vec_with`. */
  method ExampleVecParse() returns (r: Result<Vec<int>, ParseIntError>)
    ensures r.Ok? && r.value.contents == [42, 73]
  {
    var parsed: Iter<Result<int, ParseIntError>> :=
      Iter([Ok(42), Ok(73)], SizeHint(2, Some(2)));
    var closure := new CapacityClosure(u => u + 2);
    r := TryCollectVecWith(parsed, ExtractResult, closure);
  }

  /** `[Some(12), Some(42), Some(77)]` collected with `|u| u`. */
  method ExampleOptions() returns (r: Result<Vec<int>, ()>)
    ensures r.Ok? && r.value.contents == [12, 42, 77]
  {
    var options: Iter<Option<int>> :=
      Iter([Some(12), Some(42), Some(77)], SizeHint(3, Some(3)));
    var closure := new CapacityClosure(u => u);
    r := TryCollectVecWith(options, ExtractOption, closure);
  }
}

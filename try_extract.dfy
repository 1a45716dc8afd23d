/** `TryExtract`: every outcome-carrying shape is turned into a `Result`,
    success into `Ok` and failure (error, absence, break) into `Err`. The
    by-reference impls borrow the payload instead of moving it. */
module TryExtract {
  import opened Core

  /** `Result<T, E>`: the identity conversion. */
  function ExtractResult<T, E>(r: Result<T, E>): (x: Result<T, E>)
    ensures x.Ok? <==> r.Ok?
    ensures x.Ok? ==> x.value == r.value
    ensures x.Err? ==> x.error == r.error
  {
    r
  }

  /** `&Result<T, E>`: `as_ref`, a borrow of whichever payload is present. */
  function ExtractResultRef<T, E>(r: Ref<Result<T, E>>): (x: Result<Ref<T>, Ref<E>>)
    ensures x.Ok? <==> r.target.Ok?
    ensures x.Ok? ==> x.value.target == r.target.value
    ensures x.Err? ==> x.error.target == r.target.error
  {
    r.target.AsRef()
  }

  /** `Option<T>`: `ok_or(())`, so `None` becomes the payload-free `Err(())`. */
  function ExtractOption<T>(o: Option<T>): (x: Result<T, ()>)
    ensures x.Ok? <==> o.Some?
    ensures x.Ok? ==> x.value == o.value
  {
    o.OkOr(())
  }

  /** `&Option<T>`: `as_ref().ok_or(())`. */
  function ExtractOptionRef<T>(o: Ref<Option<T>>): (x: Result<Ref<T>, ()>)
    ensures x.Ok? <==> o.target.Some?
    ensures x.Ok? ==> x.value.target == o.target.value
  {
    o.target.AsRef().OkOr(())
  }

  /** `ControlFlow<B, C>`: `Continue(c)` succeeds with `c`, `Break(b)` fails
      with `b`. */
  function ExtractControlFlow<B, C>(f: ControlFlow<B, C>): (x: Result<C, B>)
    ensures x.Ok? <==> f.Continue?
    ensures x.Ok? ==> x.value == f.c
    ensures x.Err? ==> x.error == f.b
  {
    match f
    case Continue(c) => Ok(c)
    case Break(b) => Err(b)
  }

  /** `&ControlFlow<B, C>`: the same split, borrowing the payload. */
  function ExtractControlFlowRef<B, C>(f: Ref<ControlFlow<B, C>>): (x: Result<Ref<C>, Ref<B>>)
    ensures x.Ok? <==> f.target.Continue?
    ensures x.Ok? ==> x.value.target == f.target.c
    ensures x.Err? ==> x.error.target == f.target.b
  {
    match f.target
    case Continue(c) => Ok(Ref(c))
    case Break(b) => Err(Ref(b))
  }

  /** Follows the borrows in an extracted `Result`. */
  function Deref<T, E>(x: Result<Ref<T>, Ref<E>>): Result<T, E> {
    match x
    case Ok(v) => Ok(v.target)
    case Err(e) => Err(e.target)
  }

  /** Follows the borrow in an extracted `Option` outcome. */
  function DerefOk<T>(x: Result<Ref<T>, ()>): Result<T, ()> {
    match x
    case Ok(v) => Ok(v.target)
    case Err(u) => Err(u)
  }

  /** Each by-reference impl agrees with its by-value impl once the borrows
      are followed: borrowing changes neither the variant nor the payload. */
  lemma RefImplsAgreeWithValueImpls<T, E, B, C>(
    r: Result<T, E>, o: Option<T>, f: ControlFlow<B, C>)
    ensures Deref(ExtractResultRef(Ref(r))) == ExtractResult(r)
    ensures DerefOk(ExtractOptionRef(Ref(o))) == ExtractOption(o)
    ensures Deref(ExtractControlFlowRef(Ref(f))) == ExtractControlFlow(f)
  {
  }
}

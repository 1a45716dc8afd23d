/** The parts of Rust's `core` that the collectors rely on: `Option`, `Result`,
    `ControlFlow`, shared references, and `Ord::max` on sizes. */
module Core {

  datatype Option<T> = None | Some(value: T) {
    /** `Option::as_ref`: borrow the payload in place. */
    function AsRef(): (o: Option<Ref<T>>)
      ensures o.Some? <==> Some?
      ensures o.Some? ==> o.value.target == value
    {
      match this
      case None => None
      case Some(v) => Some(Ref(v))
    }

    /** `Option::ok_or`: a present payload succeeds, absence becomes `err`. */
    function OkOr<E>(err: E): (r: Result<T, E>)
      ensures r.Ok? <==> Some?
      ensures r.Ok? ==> r.value == value
      ensures r.Err? ==> r.error == err
    {
      match this
      case None => Err(err)
      case Some(v) => Ok(v)
    }
  }

  datatype Result<T, E> = Ok(value: T) | Err(error: E) {
    /** `Result::as_ref`: borrow whichever payload is present. */
    function AsRef(): (r: Result<Ref<T>, Ref<E>>)
      ensures r.Ok? <==> Ok?
      ensures r.Ok? ==> r.value.target == value
      ensures r.Err? ==> r.error.target == error
    {
      match this
      case Ok(v) => Ok(Ref(v))
      case Err(e) => Err(Ref(e))
    }
  }

  /** `core::ops::ControlFlow<B, C>`: go on with a `C`, or stop with a `B`. */
  datatype ControlFlow<B, C> = Continue(c: C) | Break(b: B)

  /** A shared borrow `&T`. Only the value it points at is modelled; lifetimes
      and addresses are not. */
  datatype Ref<T> = Ref(target: T)

  /** `Ord::max` on `usize`, with sizes as unbounded naturals. */
  function Max(a: nat, b: nat): (m: nat)
    ensures m >= a && m >= b
    ensures m == a || m == b
  {
    if a >= b then a else b
  }
}

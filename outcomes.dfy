/** Option and the panic-or-value outcome of a Rust computation that may `unwrap` a `None`. */
module Outcomes {

  /** Rust's `Option<T>`. */
  datatype Option<+T> = None | Some(value: T)

  /** The result of evaluating Rust code that may panic: either the value it
      returns, or a panic (from `unwrap` on `None` or an out-of-bounds index). */
  datatype Outcome<+T> = Value(value: T) | Panic

  /** `o.unwrap()`: the wrapped value, or a panic on `None`. */
  function Unwrap<T>(o: Option<T>): (r: Outcome<T>)
    ensures r.Value? <==> o.Some?
    ensures r.Value? ==> r.value == o.value
  {
    match o
    case Some(v) => Value(v)
    case None => Panic
  }
}

// Small generic wrappers shared by every module: optional values, results
// with an error, and the two-sided `Either` the game uses for a hand card.
module Wrappers {

  datatype Option<T> = None | Some(value: T)

  datatype Result<T, E> = Ok(value: T) | Err(error: E)

  datatype Either<L, R> = Left(left: L) | Right(right: R)

  /** `Option::ok()` on a result: the value, or None for an error. */
  function ResultOk<T, E>(r: Result<T, E>): (o: Option<T>)
    ensures o.Some? <==> r.Ok?
    ensures o.Some? ==> o.value == r.value
  {
    match r
    case Ok(v) => Some(v)
    case Err(_) => None
  }

  /**
   * How a method that updates an object in place realises an operation given
   * as a function: on success it returns the outcome's second part and the
   * object's state becomes the first; on failure it returns the same error
   * and the state is unchanged.
   */
  predicate Settled<S(==), T(==), E(==)>(outcome: Result<(S, T), E>, r: Result<T, E>, before: S, after: S)
  {
    match outcome
    case Ok((s, t)) => r == Ok(t) && after == s
    case Err(e) => r == Err(e) && after == before
  }
}

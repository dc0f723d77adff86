/** The optional result the library threads through every call, and the
    result-or-error used where the JSON library throws. */
module Monads {

  /** `Maybe<T>`: either a value or nothing; nothing is the only failure
      signal the endpoint layer gives its callers. */
  datatype Maybe<+T> = Nothing | Just(value: T)

  /** `>>=`: pipe a present value into the next step, keep an absent one. */
  function Bind<T, U>(m: Maybe<T>, f: T -> Maybe<U>): (r: Maybe<U>)
    ensures m.Nothing? ==> r.Nothing?
    ensures m.Just? ==> r == f(m.value)
  {
    match m
    case Nothing => Nothing
    case Just(v) => f(v)
  }

  /** A value, or the error that the JSON library would have thrown. */
  datatype Result<+T, +E> = Ok(value: T) | Err(error: E)
}

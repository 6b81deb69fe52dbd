/** Small failure-carrying datatypes shared by the model. */
module Wrappers {

  /** A value that may be absent; for .NET references, `None` is `null`. */
  datatype Option<+T> = None | Some(value: T)

  /**
   * The outcome of a .NET expression that either yields a value or throws.
   * It is failure-compatible, so `var x :- e;` propagates `Thrown`.
   */
  datatype Outcome<+T> = Ok(value: T) | Thrown
  {
    predicate IsFailure() { Thrown? }

    function PropagateFailure<U>(): Outcome<U>
      requires Thrown?
    {
      Thrown
    }

    function Extract(): T
      requires Ok?
    {
      value
    }
  }
}

/** The optional-value datatype used throughout the model, in place of Python's `None`. */
module Wrappers {

  /** `None` stands for an absent value; `Some(v)` for a present one.
      It is failure-compatible, so `:-` threads decoding steps. */
  datatype Option<+T> = None | Some(value: T) {

    predicate IsFailure() {
      None?
    }

    function PropagateFailure<U>(): Option<U>
      requires None?
    {
      None
    }

    function Extract(): T
      requires Some?
    {
      value
    }
  }
}

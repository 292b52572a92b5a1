/** The optional-value datatype the rest of the model is built on. */
module Wrappers {

  /** `None` stands for Python's `None` or for an absent value; it is failure-compatible,
      so `var x :- e; ...` stops at the first `None`. */
  datatype Option<+T> = None | Some(value: T) {

    predicate IsFailure() {
      None?
    }

    function PropagateFailure<U>(): Option<U>
      requires None?
    {
      None
    }

    function Extract(): T
      requires Some?
    {
      value
    }
  }
}

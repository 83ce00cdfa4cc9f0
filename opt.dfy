/** The failure-compatible Option used for JavaScript expressions that may throw. */
module Opt {

  /** `None` stands for a thrown TypeError (a property read on `undefined` or `null`,
      a call of something that is not a function); `Some(v)` for a value. */
  datatype Option<+T> = None | Some(value: T) {

    predicate IsFailure() {
      None?
    }

    function PropagateFailure<U>(): Option<U>
      requires None?
    {
      None
    }

    function Extract(): T
      requires Some?
    {
      value
    }
  }
}

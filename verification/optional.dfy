/** A failure-compatible Option, used for operations whose C++ counterpart has
    undefined behaviour (a load or store outside its buffer, a read of an
    uninitialised register) or does not compile (an unsupported column count). */
module Optional {

  datatype Option<+T> = None | Some(value: T) {

    predicate IsFailure() {
      None?
    }

    function PropagateFailure<U>(): Option<U>
      requires None?
    {
      None
    }

    function Extract(): T
      requires Some?
    {
      value
    }
  }
}

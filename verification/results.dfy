/** Failure outcomes of the chunk pipeline, in place of the C++ exceptions and crashes. */
module Results {

  /** What goes wrong in the source when an operation cannot complete. */
  datatype Fault =
    | OutOfRange   // std::out_of_range: array::at, an explicit bounds check, or no chunk at a coordinate
    | LogicError   // std::logic_error: a geometry-state continuity violation
    | NullChunk    // a null neighbour pointer is dereferenced (undefined behaviour in the source)

  /** Either the value an operation returns or the fault that stops it. */
  datatype Result<+T> = Ok(value: T) | Err(fault: Fault) {

    predicate IsFailure() {
      Err?
    }

    function PropagateFailure<U>(): Result<U>
      requires Err?
    {
      Err(fault)
    }

    function Extract(): T
      requires Ok?
    {
      value
    }
  }
}

/** Optional values, and the results of the join computation: either a value
    or the exception the Python code would raise. */
module Outcomes {

  /** A value that may be Python's `None`. */
  datatype Option<+T> = None | Some(value: T)

  /** The exceptions a recompute of a join feature can end with. */
  datatype JoinError =
      /** `ValueError("Equal volumes, can't figure out what to cut off!")`:
          two or more pieces tie for the largest volume. */
    | EqualVolumes
      /** `AttributeError`: a kernel method is called on `None`. */
    | NoneHasNoMethod
      /** `None` is handed where a shape is required: in the argument list
          of `multiFuse`, or as the value written to the output slot. */
    | NotAShape

  /** A computed value, or the exception that ended the computation. */
  datatype Result<+T> = Ok(value: T) | Err(error: JoinError) {

    predicate IsFailure() {
      Err?
    }

    function PropagateFailure<U>(): Result<U>
      requires Err?
    {
      Err(error)
    }

    function Extract(): T
      requires Ok?
    {
      value
    }
  }
}

/** Optional values, and the ways a conversion or a canvas handler stops the program. */
module Results {

  datatype Option<+T> = None | Some(value: T)

  /** Why the scene interpreter stops. None of these is caught anywhere in the
      demo programs, so each one ends the program at the point where it happens. */
  datatype Failure =
    | BadConversion    // yaml-cpp's `as<T>()` throws: the node is undefined or `decode` said no
    | BadSubscript     // yaml-cpp's `operator[]` throws on a scalar node
    | InvalidNode      // a zombie node (the value of a map iterator) was used as a node
    | OutOfRange       // a std::vector subscript past its end (undefined behaviour)
    | AssertionFailed  // a failed C `assert`

  datatype Result<+T> = Ok(value: T) | Err(failure: Failure) {
    predicate IsFailure() { Err? }

    function PropagateFailure<U>(): Result<U>
      requires Err?
    {
      Err(failure)
    }

    function Extract(): T
      requires Ok?
    {
      value
    }
  }
}

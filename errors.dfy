/** Failure values shared by the whole model: the exceptions that the analyzer
    raises itself and those that its collaborators (the CSV reader, the data-frame
    column assignment, the smoother and the gradient) raise through it. The
    constructors tell failures apart; they are not Python's exception classes, and
    the comment on each names the Python exception it stands for. */
module Errors {

  datatype Option<+T> = None | Some(value: T)

  datatype Result<+T> = Ok(value: T) | Err(error: Error)

  /** Message of the ValueError raised for a spectrum type other than "xes" or "xas". */
  const TypeMessage: string := "type must be either \"xes\" or \"xas\""

  datatype Error =
    // Python ValueError from the analyzer's own type check, with its message
    | ValueError(message: string)
    // Python KeyError: a spectrum name or a column label that is not there
    | KeyError(key: string)
    // Python ValueError "Duplicate names are not allowed." from the CSV reader
    | DuplicateNames
    // whatever the CSV reader raises when the file cannot be opened or parsed
    | ReadError
    // Python ValueError "Length of values ... does not match length of index ..."
    // from assigning a column whose length differs from the row count
    | LengthMismatch(column: string)
    // whatever the external smoother raises
    | SmootherError
    // whatever the external gradient raises
    | GradientError
    // Python ValueError from max()/min() of an empty sequence
    | EmptySequence
    // the division by zero of normalizing an all-zero sequence (NaN values in numpy)
    | ZeroScale
}

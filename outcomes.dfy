/** Error results standing in for the exceptions the Python code raises. */
module Outcomes {

  /** The ways an operation of the pipeline fails. */
  datatype Error =
    | ZeroDivision                      // Python's ZeroDivisionError (a spread or sample rate of 0)
    | BadShape                          // numpy ValueError: negative dimension, reshape or broadcast mismatch
    | EmptyReduction                    // argmin / max of a zero-size array
    | NameNotFound(name: string)        // list.index of a value that is not in the list
    | MissingKey(key: string)           // KeyError of a dict or of an HDF5 file
    | ColumnOutOfRange(column: nat)     // IndexError selecting a channel column
    | UnknownChannel(channel: string)   // stereo2mono given a channel other than 'l', 'r', 'a'
    | UnknownDetectType(detect: string) // wave2vol given a detect type other than 'peak', 'rms'
    | UnknownSaveType                   // a savetype other than 0 or 1
    | UndefinedName                     // a code path that reads a name it never binds
    | NotANumber                        // numpy yields NaN (0/0) instead of raising; no real stands for it

  datatype Result<T> = Success(value: T) | Failure(error: Error)

  datatype Outcome = Pass | Fail(error: Error)
}

/** Result types shared by the modules of the model. */
module Outcomes {

  type byte = x: int | 0 <= x < 256
  type bytes = seq<byte>

  datatype Option<+T> = None | Some(value: T)
  {
    predicate IsFailure() { None? }
    function PropagateFailure<U>(): Option<U>
      requires None?
    {
      None
    }
    function Extract(): T
      requires Some?
    {
      value
    }
  }

  datatype Result<+T, +E> = Ok(value: T) | Err(error: E)

  /** A call either returns or panics; a panic crosses the C boundary as a process abort,
      so nothing happens after it. */
  datatype Outcome<+T> = Panicked | Returned(value: T)
  {
    predicate IsFailure() { Panicked? }
    function PropagateFailure<U>(): Outcome<U>
      requires Panicked?
    {
      Panicked
    }
    function Extract(): T
      requires Returned?
    {
      value
    }
  }

  /** The errors Go sends back, with their texts. */
  datatype GoError = QueryFailed(text: bytes) | ExecuteFailed(text: bytes)

  /** A value and the protobuf message that carries it, which decodes to the value again. */
  datatype Encoded<T> = Encoded(value: T, bytes: bytes)

  /** The errors of error.rs that the modelled paths produce. */
  datatype RunnerError =
    | EncodeError(cause: string)
    | DecodeError(cause: string)
    | QueryError(message: bytes)
    | ExecuteError(message: bytes)
}

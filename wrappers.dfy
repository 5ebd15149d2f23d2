/** Small datatypes shared by every module of the model. */
module Wrappers {

  datatype Option<+T> = None | Some(value: T)

  /** A key of a JSON request body: missing, explicitly `null`, or holding a value. */
  datatype Field<+T> = Absent | Null | Present(value: T)

  /** The outcome of one request handler.
      - `Done(v)`: the handler answered with a success status and `v`.
      - `Reject(code, error)`: the handler itself answered `res.status(code).json({ error })`.
      - `StorageFailure`: the storage layer threw and the error was handed to `next(error)`;
        the handler changed nothing. */
  datatype Reply<+T> = Done(value: T) | Reject(code: int, error: string) | StorageFailure

  /** JavaScript truthiness of an optional string (`undefined`, `null` and `''` are falsy). */
  predicate Truthy(s: Option<string>) {
    s.Some? && s.value != ""
  }
}

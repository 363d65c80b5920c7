/** Swift's `Optional` and `Result`, and `Data` as bytes, shared by every module of the model. */
module Base {

  /** Swift's `Optional`. */
  datatype Option<+T> = None | Some(value: T)

  /** Swift's `Result<Success, Failure>`. */
  datatype Result<+T, +E> = Success(value: T) | Failure(error: E)

  /** Foundation `Data`: a sequence of bytes. */
  type Bytes = seq<bv8>
}

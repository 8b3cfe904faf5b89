/** Vocabulary shared by every module of the project. */
module Common {

  datatype Option<+T> = None | Some(value: T)

  datatype Result<+T, +E> = Ok(value: T) | Err(error: E)

  newtype Byte = x: int | 0 <= x < 256

  type Bytes = seq<Byte>

  /** An identifier drawn by uuid.New; distinct draws are distinct numbers. */
  type Id = nat

  /** Nanoseconds on the wall clock. */
  type Time = nat
}

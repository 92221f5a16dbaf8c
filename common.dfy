/** Values shared by every part of the model: Rust's `u8`, `Option`, and `Result<T, io::Error>`. */
module Common {

  /** Rust's `u8`. */
  newtype u8 = x: int | 0 <= x < 256

  datatype Option<+T> = None | Some(value: T)

  /** The `io::ErrorKind`s the modelled code produces. */
  datatype ErrorKind = InvalidInput | Other

  /** An `io::Error`: its kind and its message. */
  datatype IoError = IoError(kind: ErrorKind, message: string)

  /** `Result<T, io::Error>`. */
  datatype Result<+T> = Ok(value: T) | Err(error: IoError)
}

/** Small shared vocabulary: optional values (C#'s null) and bytes. */
module Common {

  /** A value that may be absent: stands for a nullable reference in the source. */
  datatype Option<T> = None | Some(value: T)

  /** One octet of a byte[] or of an uploaded file's stream. */
  newtype byte = x: int | 0 <= x < 256
}

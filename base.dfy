/** Small shared vocabulary: optional values (Java's nullable references),
    results with an error (Java's exceptions) and team identifiers. */
module Base {

  /** A Java reference that may be null: `None` stands for null. */
  datatype Option<+T> = None | Some(value: T)

  /** The value an operation returns, or the error it throws. */
  datatype Result<+T, +E> = Ok(value: T) | Err(error: E)

  /** A `java.util.UUID` naming a tech team. */
  type Uuid = int
}

/** Shared value types: optional values (Java's null), results (Java's exceptions),
    and the clock reading that the services receive instead of reading a clock. */
module Common {

  /** A clock reading, in milliseconds. Every `LocalDateTime.now()`, `new Date()`
      and `System.currentTimeMillis()` of the services becomes a parameter of this type. */
  type Instant = int

  /** A value that may be absent; `None` stands for Java's `null`. */
  datatype Option<+T> = None | Some(value: T)

  /** The outcome of an operation that can throw: `Failure` carries which exception. */
  datatype Result<+T, +E> = Success(value: T) | Failure(error: E)
}

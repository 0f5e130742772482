/** Failure-compatible wrappers and the shape of a thrown JavaScript value,
    shared by every module of the model. */
module Common {

  datatype Option<+T> = None | Some(value: T)

  datatype Result<+T, +E> = Ok(value: T) | Err(error: E)

  /** The `code` property of a thrown object: a number, or anything else
      (a string, a boolean, ...), which never equals a number under `===`. */
  datatype CodeValue = NumberCode(n: int) | OtherCode

  /** A value caught by a `catch` clause. JavaScript may throw anything:
      `null`, a primitive, or an object that may or may not carry `code`. */
  datatype Thrown = NullValue | PrimitiveValue | ObjectValue(code: Option<CodeValue>)

  /** Instants and durations are whole seconds (or milliseconds where a
      member says so); the clock is always a parameter. */
  type Time = nat
}

/** Datatypes shared by every module of the model. */
module Common {

  datatype Option<+T> = None | Some(value: T)

  datatype Result<+T, +E> = Ok(value: T) | Err(error: E)

  /** Identifiers (UUIDs, user ids, idempotency keys); only equality matters. */
  type Id = nat
}

/** Small wrapper datatypes shared by every module of the model. */
module Common {

  datatype Option<+T> = None | Some(value: T)

  datatype Result<+T, +E> = Ok(value: T) | Err(error: E)

  /** src/error.rs: the ways a transaction can fail. */
  datatype TransactionError =
    | ReadLockBusy
    | WriteLockBusy
    | UpgradeLockBusy
    | IndexNotFound
    | LockBusy
    | UserAbort
}

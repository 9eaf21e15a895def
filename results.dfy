/** Failure-carrying values shared by every module of the model: a thrown
    exception of the service becomes `Err`, a value that may be absent
    (`undefined` or `null` in the service) becomes `None`. */
module Results {

  datatype Option<+T> = None | Some(value: T)

  datatype Result<+T, +E> = Ok(value: T) | Err(error: E)
}

/** Error values and the Option/Result wrappers shared by the reaper and the event bootstrap. */
module Common {

  /** An error returned by one of the external clients; only its identity matters here. */
  datatype Error = Error(message: string)

  datatype Option<T> = None | Some(value: T)

  /** The (value, error) pair of a fallible Go call. */
  datatype Result<T> = Ok(value: T) | Err(error: Error)
}

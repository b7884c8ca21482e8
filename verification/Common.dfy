/** Small types that every component shares. */
module Common {

  datatype Option<+T> = None | Some(value: T)

  datatype Result<+T> = Success(value: T) | Failure

  /** How a call to the cloud or to the API server ends.  `Lost` is the
      call that took effect although the caller saw an error, for example
      because the response was empty or a later poll failed. */
  datatype Outcome = Ok | Fail | Lost {
    predicate TakesEffect() { !Fail? }
  }
}

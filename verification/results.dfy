/** Failure-carrying values shared by every module of the model. */
module Results {

  /** An optional value: a field that may be absent from a parsed document. */
  datatype Option<+T> = None | Some(value: T)

  /** How an operation of the plugin can fail.
      IoFault is a checked java.io.IOException (a read or a network call that failed);
      UncheckedFault is a runtime exception thrown by a library call the plugin does
      not catch (a JSON parse error, a missing field, a null resource stream). */
  datatype Fault = IoFault | UncheckedFault

  /** The value of an operation that either succeeds or fails with a Fault. */
  datatype Outcome<+T> = Ok(value: T) | Err(fault: Fault)
}

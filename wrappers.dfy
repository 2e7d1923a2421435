/** Go's `(value, error)` returns, written as failure-carrying values. */
module Wrappers {

  /** A Go pointer that may be nil, or a value that may be absent. */
  datatype Option<+T> = None | Some(value: T)

  /** The Go `error` values that reach the reconciler. */
  datatype Error =
    /** An error produced outside this file: the triton-go client, compare.IsEqual or
        script.BuildBootstrapScript. Its text is passed through unchanged. */
    | External(detail: string)
    /** "Unable to find master IP addresses" (Apply, master pools). */
    | NoMasterIP
    /** "Unable to delete VPC resource without ID [name]" (Delete). */
    | NoIdentifier(name: string)

  /** Either a value or the error that replaced it. */
  datatype Result<+T> = Ok(value: T) | Err(error: Error)
}

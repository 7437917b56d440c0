/** Error values and the result wrappers shared by the key template engine. */
module KeyErrors {

  /** The ways resolving a key can fail. */
  datatype KeyError =
    | MalformedTemplate                  // a `{` without its closing `}`, or an empty template
    | UnboundPlaceholder(name: string)   // a placeholder with no bound parameter
    | NoCandidate                        // the write path was given an empty search list

  datatype Option<+T> = None | Some(value: T)

  /** A value or the error that prevented computing it. */
  datatype Result<+T> = Ok(value: T) | Err(error: KeyError)
}

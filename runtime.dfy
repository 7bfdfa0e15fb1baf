/** Python-level values the reporting script works with: optional values,
    the exceptions that can escape `main`, and how `main` ends. */
module Runtime {

  /** A value that may be `None`. */
  datatype Option<+T> = None | Some(value: T)

  /** A computation that either yields a value or raises. */
  datatype Result<+T> = Success(value: T) | Failure(error: Error)

  /** The exception classes that can escape the script uncaught. */
  datatype Error =
    | ValueError(message: string)
    | OSError          // `open` failing for any reason other than a missing file
    | AttributeError   // `.get` called on something that is not a JSON object
    | TypeError        // iterating a non-iterable, or using an unhashable dict key
    | DecodeError      // `json.load` failing other than by `JSONDecodeError`:
                       // `UnicodeDecodeError` (a `ValueError`), `RecursionError`

  /** How one call of `main` ends: a normal (possibly early) return, or an
      exception propagating to the interpreter. */
  datatype Ending = Returned | Raised(error: Error)

  /** Python truthiness of an optional string: `None` and `""` are falsy. */
  predicate Truthy(s: Option<string>)
    ensures Truthy(s) <==> s.Some? && |s.value| > 0
  {
    s.Some? && s.value != ""
  }
}

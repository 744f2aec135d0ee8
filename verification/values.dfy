/** Python-level values and failures shared by every part of the model.

    The scripts work on decoded JSON (`dict`s and `list`s) and signal failure
    by raising. The model keeps the three states a dict member can be in when
    it is read with `.get`, and turns every raise into a `Failure` carrying the
    class of the exception.
 */
module Values {

  /** A present-or-absent value. */
  datatype Option<+T> = None | Some(value: T)

  /** One member of a decoded JSON object: absent, explicitly `null`, or
      holding a value. `d.get(key, default)` yields the default only for
      `Missing`; for `Null` it yields Python's `None`. */
  datatype Field<+T> = Missing | Null | Present(value: T)

  /** The exceptions the scripts raise, by Python class. */
  datatype Error =
    | ValueError            // unrecognised environment name (discovery entry point)
    | AttributeError        // `.get` or `.lower` called on a value that is not a dict / str
    | TypeError             // iterating `None`, `in` against `None`, or raising a `str`
    | KeyError              // subscripting a dict with an absent key
    | FileNotFound          // opening a snapshot file that does not exist
    | HttpError(status: int) // `raise_for_status` on a status of 400 or more (`not response.ok`)
    | RequestException      // the HTTP library raising before any reply (connection, timeout)
    | InvalidEnvironment    // the plain `Exception` of the association scripts
    | ScriptExhausted       // not a Python exception: the scripted catalog has no more replies

  /** The value of an expression that may raise. */
  datatype Result<+T> = Success(value: T) | Failure(error: Error)

  /** How a script that returns nothing ends: normally or by raising. */
  datatype Completion = Completed | Raised(error: Error)
}

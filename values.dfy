/** Values shared by the error manager and the session coordinator: Java's
    nullable references, the loosely typed objects that travel to the UI in a
    response map, the exceptions the wearable SDK fails with, and the outcome
    of one asynchronous SDK task. */
module Values {

  /** A nullable Java reference: `None` is `null`. */
  datatype Option<+T> = None | Some(value: T)

  /** `TextUtils.isEmpty`: a string is empty when it is null or has length 0. */
  predicate IsEmpty(s: Option<string>)
  {
    s.None? || s.value == ""
  }

  /** The `Object` values put into a response map: `null`, a boolean, a string,
      a list of strings and a string-keyed map. */
  datatype Value =
    | Null
    | Bool(b: bool)
    | Str(s: string)
    | StrList(items: seq<string>)
    | Obj(fields: map<string, Value>)

  /** A Java exception; its message may be null. */
  datatype Failure = Failure(message: Option<string>)

  /** How one asynchronous SDK task settles: its success listener runs with a
      value, or its failure listener runs with an exception. */
  datatype Outcome<+T> = Ok(value: T) | Fail(cause: Failure)
}

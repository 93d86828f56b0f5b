/** Small wrappers shared by the whole model. */
module Common {

  /** A value that may be absent: JavaScript's `null` / `undefined` for an optional field. */
  datatype Option<+T> = None | Some(value: T)

  /** The outcome of a JavaScript computation that may throw (a TypeError on a missing object). */
  datatype Outcome<+T> = Returns(value: T) | Throws(reason: string)

  /** How a template literal `${x}` renders an optional string: a missing value prints as "undefined". */
  function Show(o: Option<string>): string
  {
    match o
    case Some(s) => s
    case None => "undefined"
  }
}

/** Thrown values and the two ways the source turns them into text. */
module JsErrors {

  /** A thrown value: an `Error` object (its `name` and `message`) or any
      other value, given by its `String(...)` rendering. */
  datatype Thrown = ErrorObject(name: string, message: string) | NonError(text: string)

  /** `new Error(message)` */
  function NewError(message: string): Thrown {
    ErrorObject("Error", message)
  }

  /** `String(e)`, which for an `Error` is `Error.prototype.toString`:
      the name and the message joined by ": ", either one alone when the other is empty. */
  function AsString(e: Thrown): (r: string)
    ensures e.ErrorObject? && e.name != "" && e.message != "" ==> r == e.name + ": " + e.message
    ensures e.ErrorObject? && e.message == "" ==> r == e.name
    ensures e.ErrorObject? && e.name == "" ==> r == e.message
    ensures e.NonError? ==> r == e.text
  {
    match e
    case ErrorObject(n, m) => if n == "" then m else if m == "" then n else n + ": " + m
    case NonError(t) => t
  }

  /** `String(e?.message || e)`: the message when there is a non-empty one, else `String(e)`. */
  function MessageOrString(e: Thrown): (r: string)
    ensures e.ErrorObject? && e.message != "" ==> r == e.message
    ensures !(e.ErrorObject? && e.message != "") ==> r == AsString(e)
  {
    if e.ErrorObject? && e.message != "" then e.message else AsString(e)
  }
}

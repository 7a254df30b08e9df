/** How the model stands in for Python's exceptions: each operation returns
    either its value or the exception the code would raise, and `:-` passes
    an exception on the way a Python call that raises does. The parsers that
    read the bot's sentences back return an optional value instead. */
module Wrappers {

  /** A value that may be absent; used by the parsers that read the bot's
      own sentences back. */
  datatype Option<+T> = None | Some(value: T) {

    predicate IsFailure() {
      None?
    }

    function PropagateFailure<U>(): Option<U>
      requires None?
    {
      None
    }

    function Extract(): T
      requires Some?
    {
      value
    }
  }

  /** The exceptions the modelled Python code raises on its own. */
  datatype Exception =
    | IndexError          // a positional row index outside the price history
    | UnboundLocalError   // a local variable read before any branch assigned it
    | ValueError          // `str.index` found no occurrence of the substring

  /** Either the value a Python expression returns or the exception it raises. */
  datatype Result<+T> = Ok(value: T) | Err(error: Exception) {

    predicate IsFailure() {
      Err?
    }

    function PropagateFailure<U>(): Result<U>
      requires Err?
    {
      Err(error)
    }

    function Extract(): T
      requires Ok?
    {
      value
    }
  }
}

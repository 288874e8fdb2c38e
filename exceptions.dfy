/**
 * The error kinds of the library (jongpy/core/exceptions.py), plus the
 * built-in errors that some operations raise on input they do not expect.  The hand class raises
 * a bare exception in every case; the model tags each raise with the kind
 * that names its cause.
 */
module Exceptions {
  datatype Error =
    | InvalidOperation   // an operation not allowed in the current state
    | PaiFormat          // text that is not a tile
    | PaiOverFlow        // a fifth copy of a tile kind
    | PaiNotExist        // a tile the hand does not hold
    | MianziFormat       // text that is not a meld
    | ShoupaiOverFlow    // one tile too many (the draw slot is taken)
    | ShoupaiUnderFlow   // one tile too few (the draw slot is empty)
    | IndexOutOfRange    // Python's IndexError
    | NoMatch            // AttributeError: a regular-expression search found nothing
    | NotANumber         // ValueError: `int()` of a character that is not a digit
}

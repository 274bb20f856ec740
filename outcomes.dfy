/** The failures the core raises, as values. */
module Outcomes {

  /** The Python exceptions the core can raise. `AssertionError` is what the
      source's `assert` statements raise (out-of-range `__getitem__`, no 'O'
      anchor in a hex pattern); `ZeroDivisionError` comes from the angle step
      of an arc of one point or a circle of no points; `IndexError` and
      `KeyError` come from looking up a slot pair's letters. */
  datatype Error =
    | AssertionError
    | ZeroDivisionError
    | IndexError
    | KeyError(key: char)

  /** A value, or the exception raised instead of returning it. */
  datatype Result<+T> = Ok(value: T) | Err(error: Error)

  /** The completion of a procedure that returns nothing. */
  datatype Outcome = Pass | Fail(error: Error)
}

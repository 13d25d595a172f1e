/** Shared result types: Python's exceptions become values of `Error`. */
module Common {

  datatype Option<+T> = None | Some(value: T)

  datatype Result<+R, +E> = Success(value: R) | Failure(error: E)

  /** The exception classes the core raises, each with its message text. */
  datatype Error =
    | ValueError(message: string)
    | NotImplementedError(message: string)
    | TypeError(message: string)

  /** Python's `repr` of a list of strings that contain no quote or backslash,
      as an f-string renders it: `['a', 'b']`. */
  function QuotedList(items: seq<string>): (r: string)
    ensures |r| >= 2 && r[0] == '[' && r[|r| - 1] == ']'
  {
    "[" + QuotedItems(items) + "]"
  }

  function QuotedItems(items: seq<string>): string
  {
    if items == [] then ""
    else if |items| == 1 then "'" + items[0] + "'"
    else "'" + items[0] + "', " + QuotedItems(items[1..])
  }
}

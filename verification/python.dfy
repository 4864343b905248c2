/** The slice of Python's runtime that the validators of SimpleCarpoolComparison
    can observe: the exact type of a value (`type(v) is T`), and for a tuple its
    length and its items. Floats are modelled as reals. */
module Python {

  /** A Python value. The constructors are distinct types, so a `bool` is not an
      `int` here, just as `type(True) is int` is False in Python. */
  datatype PyVal =
    | PTuple(items: seq<PyVal>)
    | PFloat(f: real)
    | PInt(i: int)
    | PBool(b: bool)
    | PStr(s: string)

  /** The two exceptions the validators can raise. */
  datatype PyError =
    | TypeError(message: string)
    | IndexError(message: string)

  /** Python's message for `t[i]` on a tuple `t` with `len(t) <= i`. */
  const TupleIndexOutOfRange := "tuple index out of range"

  /** The result of a call that either returns a value or raises. */
  datatype Result<+T> = Ok(value: T) | Err(error: PyError)

  /** The outcome of an input check: it passes, or it raises. */
  datatype Outcome = Pass | Fail(error: PyError)

  /** `t[i]` for a tuple `t`: the item, or an IndexError when `i` is out of range. */
  function Subscript(t: PyVal, i: nat): Result<PyVal>
    requires t.PTuple?
  {
    if i < |t.items| then Ok(t.items[i]) else Err(IndexError(TupleIndexOutOfRange))
  }
}

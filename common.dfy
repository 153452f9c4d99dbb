/** Small value wrappers shared by every module: a Python `None`-able value and
    the success-or-exception outcome of an operation. */
module Common {

  /** A value that may be absent (Python `None`, or a missing dictionary key). */
  datatype Option<+T> = None | Some(value: T) {
    /** `d.get(key, default)`: the value when present, the default otherwise. */
    function GetOr(default: T): T {
      match this
      case Some(v) => v
      case None => default
    }
  }

  /** The outcome of an operation that either returns a value or raises an exception. */
  datatype Result<+T, +E> = Ok(value: T) | Err(error: E)

  function Min(a: int, b: int): int {
    if a <= b then a else b
  }

  function Abs(x: real): real {
    if x < 0.0 then -x else x
  }

  /** Sequence concatenation is associative. */
  lemma AppendAssociative<T>(a: seq<T>, b: seq<T>, c: seq<T>)
    ensures (a + b) + c == a + (b + c)
  {
    assert |(a + b) + c| == |a + (b + c)|;
    forall i | 0 <= i < |a + b + c|
      ensures ((a + b) + c)[i] == (a + (b + c))[i]
    {
    }
  }
}

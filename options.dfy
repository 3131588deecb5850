/** The conventional optional value, used for Python's `None`. */
module Options {

  datatype Option<+T> = None | Some(value: T)

  /** The elements an optional value holds, as a sequence of length 0 or 1. */
  function ToSeq<T>(o: Option<T>): (s: seq<T>)
    ensures |s| <= 1
    ensures o.Some? <==> |s| == 1
    ensures o.Some? ==> s[0] == o.value
  {
    match o
    case None => []
    case Some(v) => [v]
  }
}

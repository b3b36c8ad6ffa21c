/** A value that may be absent: Kotlin's nullable types. */
module Wrappers {

  datatype Option<+T> = None | Some(value: T)

  /** The zero or one elements of an option, as a sequence. */
  function ToSeq<T>(o: Option<T>): (s: seq<T>)
    ensures |s| <= 1
    ensures o.Some? <==> |s| == 1
    ensures o.Some? ==> s[0] == o.value
  {
    match o
    case None => []
    case Some(v) => [v]
  }
}

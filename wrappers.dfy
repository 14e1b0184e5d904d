/** Value wrappers standing in for Java's null and vavr's Either. */
module Wrappers {

  /** A value that may be absent: `None` plays the part of Java's null. */
  datatype Option<+T> = None | Some(value: T)

  /** vavr's Either: `Left` carries the error side, `Right` the success side. */
  datatype Either<+L, +R> = Left(left: L) | Right(right: R)

  /** The list holding the value of `o`, if any. */
  function OptionToSeq<T>(o: Option<T>): (s: seq<T>)
    ensures |s| <= 1
    ensures o.None? <==> s == []
    ensures o.Some? ==> s == [o.value]
  {
    if o.Some? then [o.value] else []
  }
}

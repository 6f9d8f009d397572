/** Optional and result values, with the operations of java.util.Optional that the
    controllers chain together (map, filter, orElse, orElseThrow). */
module Wrappers {

  /** A value that may be absent: Java's Optional, or a reference that may be null. */
  datatype Option<+T> = None | Some(value: T) {

    /** Optional.map: apply f to a present value. */
    function Map<U>(f: T -> U): (r: Option<U>)
      ensures r.Some? <==> Some?
      ensures Some? ==> r.value == f(value)
    {
      match this
      case None => None
      case Some(v) => Some(f(v))
    }

    /** Optional.filter: keep a present value only when p holds of it. */
    function Filter(p: T -> bool): (r: Option<T>)
      ensures r.Some? <==> Some? && p(value)
      ensures r.Some? ==> r == this
    {
      match this
      case None => None
      case Some(v) => if p(v) then this else None
    }

    /** Optional.orElse / orElseGet: the present value, or the fallback. */
    function OrElse(fallback: T): (r: T)
      ensures Some? ==> r == value
      ensures None? ==> r == fallback
    {
      match this
      case None => fallback
      case Some(v) => v
    }

    /** Optional.orElseThrow: the present value, or the given exception raised. */
    function OrElseThrow<E>(error: E): (r: Result<T, E>)
      ensures r.Success? <==> Some?
      ensures Some? ==> r.value == value
      ensures None? ==> r.error == error
    {
      match this
      case None => Failure(error)
      case Some(v) => Success(v)
    }
  }

  /** The outcome of a Java call that either returns a value or raises. */
  datatype Result<+R, +E> = Success(value: R) | Failure(error: E)

  /** The elements of a list, as a set: new HashSet<>(list). */
  function Elements<T>(xs: seq<T>): (s: set<T>)
    ensures forall x | x in xs :: x in s
    ensures forall x | x in s :: x in xs
  {
    set x | x in xs
  }
}

/** Result and Outcome types used for the operations that throw in the modelled C++ code. */
module Wrappers {

  /** Optional value: a handle that may be absent, a position that may not exist. */
  datatype Option<+T> = None | Some(value: T)

  /** A value, or the message of the exception the C++ code would throw. */
  datatype Result<+T, +E> = Success(value: T) | Failure(error: E)

  /** Completion of an operation that returns nothing: normal return, or a thrown error. */
  datatype Outcome<+E> = Pass | Fail(error: E)

  /** The value an Option holds, as a multiset: a released handle once, or nothing. */
  function Elements<T>(o: Option<T>): (m: multiset<T>)
    ensures o.Some? ==> m == multiset{o.value}
    ensures o.None? <==> m == multiset{}
  {
    if o.Some? then multiset{o.value} else multiset{}
  }
}

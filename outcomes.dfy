/** Values shared by every part of the pipeline: optional values, the outcome
    of one remote call, and a scripted sequence of such outcomes. */
module Outcomes {

  datatype Option<+T> = None | Some(value: T)

  /** Why a call failed: the timeout guard fired, the endpoint answered with
      an error carrying its message, or a library constructor threw. */
  datatype Failure = Timeout | ProviderError(message: string) | LibraryError(message: string)

  /** The outcome of one (timeout-guarded) remote call. */
  datatype Attempt<+T> = Ok(value: T) | Err(error: Failure)

  /** The outcomes of successive invocations of one operation: the n-th call
      (counting from 0) produces `script(n)`. Network I/O is supplied this way. */
  type Script<T> = nat -> Attempt<T>

  function OptionToSeq<T>(o: Option<T>): (s: seq<T>)
    ensures |s| <= 1
    ensures o.None? ==> s == []
    ensures o.Some? ==> s == [o.value]
  {
    match o
    case Some(v) => [v]
    case None => []
  }
}

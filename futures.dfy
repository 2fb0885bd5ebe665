/** Values shared by the combinators: optional values, results, the answer
    to one poll, and the wrapped fallible future, seen from outside. */
module Futures {

  datatype Option<T> = None | Some(value: T)

  /** A fallible value: `Ok` on success, `Err` on failure. */
  datatype Result<T, E> = Ok(value: T) | Err(error: E)

  /** `Result::map_err`: a success passes through, a failure is replaced by
      the transform's image of it. */
  function MapError<T, E, E2>(r: Result<T, E>, f: E -> E2): (m: Result<T, E2>)
    ensures m.Ok? <==> r.Ok?
    ensures r.Ok? ==> m.value == r.value
    ensures r.Err? ==> m.error == f(r.error)
  {
    match r
    case Ok(v) => Ok(v)
    case Err(e) => Err(f(e))
  }

  /** The answer to one poll: not complete yet, or complete with a value. */
  datatype Poll<T> = Pending | Ready(value: T)

  /** What one call of `poll` does: it returns a poll, or it panics with a
      message (a caller broke the polling contract). */
  datatype PollOutcome<T> = Returned(poll: Poll<T>) | Panicked(message: string)

  predicate IsReady<T>(o: PollOutcome<T>) {
    o.Returned? && o.poll.Ready?
  }

  /** A wrapped fallible future, abstractly: it answers `Pending` to its next
      `pendingPolls` polls and `Ready(output)` to every poll after those. */
  datatype TryFuture<T, E> = TryFuture(pendingPolls: nat, output: Result<T, E>)

  /** One `try_poll` of a wrapped future: the answer and the future afterwards. */
  function TryPoll<T, E>(fut: TryFuture<T, E>): (r: (Poll<Result<T, E>>, TryFuture<T, E>))
    ensures r.0.Ready? <==> fut.pendingPolls == 0
    ensures r.0.Ready? ==> r.0.value == fut.output && r.1 == fut
    ensures r.0.Pending? ==> r.1.pendingPolls + 1 == fut.pendingPolls
    ensures r.1.output == fut.output
  {
    if fut.pendingPolls == 0 then (Ready(fut.output), fut)
    else (Pending, fut.(pendingPolls := fut.pendingPolls - 1))
  }
}

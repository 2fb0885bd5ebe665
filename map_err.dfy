/** The `map_err` combinator: a wrapped fallible future plus a single-use
    transform that is applied to the failure, and only to the failure, on the
    poll at which the wrapped future completes. */
module MapErrFuture {
  import opened Futures

  /** The panic message of a poll that finds the transform already taken. */
  const PolledAfterReady: string := "MapErr must not be polled after it returned `Poll::Ready`"

  /** The answers `n` polls of a MapErr produce, poll by poll. */
  type Outcomes<T, E2> = seq<PollOutcome<Result<T, E2>>>

  /** One poll of a MapErr whose wrapped future is `future` and whose transform
      slot holds `f`: what the poll does, the wrapped future afterwards and the
      slot afterwards. */
  function Step<T, E, E2>(future: TryFuture<T, E>, f: Option<E -> E2>)
    : (r: (PollOutcome<Result<T, E2>>, TryFuture<T, E>, Option<E -> E2>))
    // the wrapped future is polled exactly once
    ensures r.1 == TryPoll(future).1
    // a pending wrapped future gives Pending and leaves the slot untouched
    ensures TryPoll(future).0.Pending? ==> r.0 == Returned(Pending) && r.2 == f
    // a ready wrapped future empties the slot
    ensures TryPoll(future).0.Ready? ==> r.2.None?
    // the poll is Ready exactly when the wrapped future is, with the transform present,
    // and then the success passes through and the failure goes through the transform
    ensures IsReady(r.0) <==> TryPoll(future).0.Ready? && f.Some?
    ensures IsReady(r.0) ==> r.0.poll.value == MapError(future.output, f.value)
    // a ready wrapped future with the slot already empty is a contract violation
    ensures r.0.Panicked? <==> TryPoll(future).0.Ready? && f.None?
    ensures r.0.Panicked? ==> r.0.message == PolledAfterReady
    // the slot empties on exactly the poll that returns Ready, and is never refilled
    ensures (f.Some? && r.2.None?) <==> IsReady(r.0)
    ensures r.2.Some? ==> r.2 == f
  {
    var (p, next) := TryPoll(future);
    match p
    case Pending => (Returned(Pending), next, f)
    case Ready(result) =>
      match f
      case Some(g) => (Returned(Ready(MapError(result, g))), next, None)
      case None => (Panicked(PolledAfterReady), next, None)
  }

  /** The wrapped future and the transform slot after `n` successive polls. */
  function StateAfter<T, E, E2>(future: TryFuture<T, E>, f: Option<E -> E2>, n: nat)
    : (s: (TryFuture<T, E>, Option<E -> E2>))
    decreases n
  {
    if n == 0 then (future, f)
    else
      var r := Step(future, f);
      StateAfter(r.1, r.2, n - 1)
  }

  /** The transform slot after `n` successive polls. */
  function SlotAfter<T, E, E2>(future: TryFuture<T, E>, f: Option<E -> E2>, n: nat): (slot: Option<E -> E2>) {
    StateAfter(future, f, n).1
  }

  /** What `n` successive polls produce, starting from `future` and slot `f`:
      the `i`-th answer is the answer of one poll in the state after `i` polls. */
  function Run<T, E, E2>(future: TryFuture<T, E>, f: Option<E -> E2>, n: nat): (outs: Outcomes<T, E2>)
    ensures |outs| == n
    ensures forall i | 0 <= i < n ::
              outs[i] == Step(StateAfter(future, f, i).0, StateAfter(future, f, i).1).0
    decreases n
  {
    if n == 0 then []
    else
      var r := Step(future, f);
      var rest := Run(r.1, r.2, n - 1);
      assert forall i | 1 <= i < n :: StateAfter(future, f, i) == StateAfter(r.1, r.2, i - 1);
      [r.0] + rest
  }

  /** Along any sequence of polls, `can_poll` (the slot being full) never goes
      from false back to true, and it goes from true to false on exactly the
      poll that returns Ready. */
  lemma {:induction false} CanPollAlongRun<T, E, E2>(future: TryFuture<T, E>, f: Option<E -> E2>, i: nat)
    ensures SlotAfter(future, f, i + 1).Some? ==> SlotAfter(future, f, i).Some?
    ensures (SlotAfter(future, f, i).Some? && SlotAfter(future, f, i + 1).None?)
            <==> IsReady(Run(future, f, i + 1)[i])
    decreases i
  {
    var r := Step(future, f);
    if i > 0 {
      CanPollAlongRun(r.1, r.2, i - 1);
    } else {
      assert StateAfter(future, f, 1) == StateAfter(r.1, r.2, 0);
    }
  }

  /** Monotonicity over any number of polls: once `can_poll` is false it stays false. */
  lemma {:induction false} CanPollNeverRestored<T, E, E2>(future: TryFuture<T, E>, f: Option<E -> E2>, i: nat, j: nat)
    requires i <= j
    ensures SlotAfter(future, f, j).Some? ==> SlotAfter(future, f, i).Some?
    decreases j - i
  {
    if i < j {
      CanPollNeverRestored(future, f, i + 1, j);
      CanPollAlongRun(future, f, i);
    }
  }

  /** The transform is applied at most once: no two polls of a run return Ready. */
  lemma {:induction false} ReadyAtMostOnce<T, E, E2>(future: TryFuture<T, E>, f: Option<E -> E2>, n: nat, i: nat, j: nat)
    requires i < j < n
    ensures !(IsReady(Run(future, f, n)[i]) && IsReady(Run(future, f, n)[j]))
  {
    CanPollAlongRun(future, f, i);
    CanPollAlongRun(future, f, j);
    CanPollNeverRestored(future, f, i + 1, j);
  }

  /** A freshly built MapErr over a future that is pending for `p` polls answers
      Pending `p` times, then Ready with the error-mapped output, and panics on
      the poll after that; `can_poll` holds until the Ready poll and not after. */
  lemma {:induction false} FreshRun<T, E, E2>(future: TryFuture<T, E>, g: E -> E2)
    ensures Run(future, Some(g), future.pendingPolls + 2)
            == seq(future.pendingPolls, _ => Returned(Pending))
               + [Returned(Ready(MapError(future.output, g))), Panicked(PolledAfterReady)]
    ensures SlotAfter(future, Some(g), future.pendingPolls) == Some(g)
    ensures SlotAfter(future, Some(g), future.pendingPolls + 1) == None
    decreases future.pendingPolls
  {
    var p := future.pendingPolls;
    if p > 0 {
      var next := TryPoll(future).1;
      FreshRun(next, g);
      var pendings: Outcomes<T, E2> := seq(p, _ => Returned(Pending));
      assert [Returned(Pending)] + seq(p - 1, _ => Returned(Pending)) == pendings;
    } else {
      assert Run(future, Some(g), 2)
          == [Returned(Ready(MapError(future.output, g)))] + Run(future, None, 1);
    }
  }

  /** A MapErr future. `future` is the wrapped future, advanced in place by each
      poll; `f` is the transform, present until the poll that returns Ready. */
  class MapErr<T, E, E2> {
    var future: TryFuture<T, E>
    var f: Option<E -> E2>

    constructor (future: TryFuture<T, E>, f: E -> E2)
      ensures this.future == future && this.f == Some(f)
      ensures CanPoll()
    {
      this.future := future;
      this.f := Some(f);
    }

    /** Whether this future may still be polled: the transform has not been taken. */
    function CanPoll(): (b: bool)
      reads this
      ensures b <==> f.Some?
      ensures b ==> !Step(future, f).0.Panicked?
    {
      f.Some?
    }

    /** Poll the wrapped future once; on completion take the transform and
        apply it to the failure. */
    method Poll() returns (o: PollOutcome<Result<T, E2>>)
      modifies this
      ensures (o, future, f) == Step(old(future), old(f))
      ensures o == Returned(Pending) ==> f == old(f)
      ensures IsReady(o) <==> old(CanPoll()) && !CanPoll()
      ensures CanPoll() ==> old(CanPoll())
      ensures IsReady(o) ==> o.poll.value == MapError(old(future).output, old(f).value)
    {
      var (p, next) := TryPoll(future);
      future := next;
      match p
      case Pending =>
        o := Returned(Pending);
      case Ready(result) =>
        var taken := f;
        f := None;
        match taken
        case None =>
          o := Panicked(PolledAfterReady);
        case Some(g) =>
          o := Returned(Ready(MapError(result, g)));
    }
  }

  /** A wrapped future already failed with 404, a transform that tags the code:
      the first poll maps the failure, the second one panics. */
  method ReadyFailureScenario() {
    var m := new MapErr<int, int, (string, int)>(TryFuture(0, Err(404)), (code: int) => ("err", code));
    var o := m.Poll();
    assert o == Returned(Ready(Err(("err", 404))));
    assert !m.CanPoll();
    o := m.Poll();
    assert o == Panicked(PolledAfterReady);
  }
}

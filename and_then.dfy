/** The `and_then` combinator: run a first fallible future; on success feed
    its value to a continuation and run the future that returns; on failure
    finish at once with that failure. The sequencing itself is done by the
    chain engine; `and_then` only supplies the resumption policy. */
module AndThenFuture {
  import opened Futures
  import opened Chain

  /** The continuation: from the first stage's success value to the second
      stage. Both stages fail with the same error type `E`. */
  type Continuation<!T1, !T2, !E> = T1 -> TryFuture<T2, E>

  type AndThenChain<!T1, !T2, !E> = TryChain<T1, T2, E, Continuation<T1, T2, E>>

  /** The resumption policy `and_then` hands to its chain: a success starts
      the second stage built by the continuation from exactly that value; a
      failure finishes with that same failure, and the continuation is not used. */
  function AndThenPolicy<T1, T2, E>(result: Result<T1, E>, asyncOp: Continuation<T1, T2, E>)
    : (a: TryChainAction<T2, E>)
    ensures a.Future? <==> result.Ok?
    ensures result.Ok? ==> a.fut == asyncOp(result.value)
    ensures result.Err? ==> a.output == Err(result.error)
  {
    match result
    case Ok(ok) => Future(asyncOp(ok))
    case Err(err) => Output(Err(err))
  }

  /** On a failure the policy's decision does not depend on the continuation. */
  lemma ErrIgnoresContinuation<T1, T2, E>(err: E, asyncOp: Continuation<T1, T2, E>, other: Continuation<T1, T2, E>)
    ensures AndThenPolicy(Err(err), asyncOp) == AndThenPolicy(Err(err), other)
    ensures AndThenPolicy(Err(err), asyncOp) == Output(Err(err))
  {
  }

  /** On a success the policy's decision depends on the continuation only
      through its value at that success. */
  lemma OkUsesContinuationAt<T1, T2, E>(ok: T1, asyncOp: Continuation<T1, T2, E>, other: Continuation<T1, T2, E>)
    requires asyncOp(ok) == other(ok)
    ensures AndThenPolicy(Ok(ok), asyncOp) == AndThenPolicy(Ok(ok), other)
    ensures AndThenPolicy(Ok(ok), asyncOp) == Future(asyncOp(ok))
  {
  }

  /** A poll whose first stage is still pending returns Pending and keeps
      the continuation, unused, in the chain. */
  lemma PendingKeepsContinuation<T1(!new), T2(!new), E(!new)>(engine: Engine<T1, T2, E, Continuation<T1, T2, E>>,
                                            fut1: TryFuture<T1, E>, asyncOp: Continuation<T1, T2, E>)
    requires MeetsInterface(engine)
    requires fut1.pendingPolls > 0
    ensures engine(First(fut1, asyncOp), AndThenPolicy)
         == (Returned(Pending), First(fut1.(pendingPolls := fut1.pendingPolls - 1), asyncOp))
  {
    assert FirstStageStep(engine, fut1, asyncOp, AndThenPolicy);
  }

  /** A first stage that fails short-circuits: the poll is Ready with that
      very failure and the chain is exhausted, whatever the continuation. */
  lemma ErrShortCircuits<T1(!new), T2(!new), E(!new)>(engine: Engine<T1, T2, E, Continuation<T1, T2, E>>,
                                    fut1: TryFuture<T1, E>, asyncOp: Continuation<T1, T2, E>, err: E)
    requires MeetsInterface(engine)
    requires fut1.pendingPolls == 0 && fut1.output == Err(err)
    ensures engine(First(fut1, asyncOp), AndThenPolicy) == (Returned(Ready(Err(err))), Empty)
  {
    assert FirstStageStep(engine, fut1, asyncOp, AndThenPolicy);
  }

  /** A first stage that succeeds moves the chain on to the second stage the
      continuation builds from exactly that success value. */
  lemma OkRunsContinuation<T1(!new), T2(!new), E(!new)>(engine: Engine<T1, T2, E, Continuation<T1, T2, E>>,
                                      fut1: TryFuture<T1, E>, asyncOp: Continuation<T1, T2, E>, ok: T1)
    requires MeetsInterface(engine)
    requires fut1.pendingPolls == 0 && fut1.output == Ok(ok)
    ensures engine(First(fut1, asyncOp), AndThenPolicy) == engine(Second(asyncOp(ok)), AndThenPolicy)
  {
    assert FirstStageStep(engine, fut1, asyncOp, AndThenPolicy);
  }

  /** One poll never gives the chain a continuation it did not already hold: a
      chain left on its first stage was already there, with the same
      continuation, and a chain that has left the first stage stays off it. */
  lemma PollNeverRestoresContinuation<T1(!new), T2(!new), E(!new)>(engine: Engine<T1, T2, E, Continuation<T1, T2, E>>,
                                                                 chain: AndThenChain<T1, T2, E>)
    requires MeetsInterface(engine)
    ensures engine(chain, AndThenPolicy).1.First? ==>
              chain.First? && engine(chain, AndThenPolicy).1.data == chain.data
  {
    if chain.First? {
      assert FirstStageStep(engine, chain.fut1, chain.data, AndThenPolicy);
    }
  }

  /** The chain after `n` successive polls under the `and_then` policy. */
  function ChainAfter<T1, T2, E>(engine: Engine<T1, T2, E, Continuation<T1, T2, E>>,
                                 chain: AndThenChain<T1, T2, E>, n: nat): (c: AndThenChain<T1, T2, E>)
    decreases n
  {
    if n == 0 then chain else ChainAfter(engine, engine(chain, AndThenPolicy).1, n - 1)
  }

  /** The continuation is used at most once: after any number of polls, a chain
      still holding a continuation held that very continuation from the start,
      so once it has been handed to the policy it never comes back. */
  lemma {:induction false} ContinuationNeverReturns<T1(!new), T2(!new), E(!new)>(
    engine: Engine<T1, T2, E, Continuation<T1, T2, E>>, chain: AndThenChain<T1, T2, E>, n: nat)
    requires MeetsInterface(engine)
    ensures ChainAfter(engine, chain, n).First? ==>
              chain.First? && ChainAfter(engine, chain, n).data == chain.data
    decreases n
  {
    if n > 0 {
      var next := engine(chain, AndThenPolicy).1;
      ContinuationNeverReturns(engine, next, n - 1);
      PollNeverRestoresContinuation(engine, chain);
    }
  }

  /** An `and_then` future: its only state is the chain it delegates to.
      `engine` stands for the chain's own poll, the same on every call. */
  class AndThen<T1(!new), T2(!new), E(!new)> {
    var tryChain: AndThenChain<T1, T2, E>
    const engine: Engine<T1, T2, E, Continuation<T1, T2, E>>

    /** The chain holds exactly the given first stage and continuation. */
    constructor (future: TryFuture<T1, E>, f: Continuation<T1, T2, E>,
                 engine: Engine<T1, T2, E, Continuation<T1, T2, E>>)
      requires MeetsInterface(engine)
      ensures tryChain == First(future, f)
      ensures this.engine == engine
      ensures CanPoll()
    {
      tryChain := New(future, f);
      this.engine := engine;
    }

    /** Whether this future may still be polled: exactly the chain's answer. */
    function CanPoll(): (b: bool)
      reads this
      ensures b <==> Chain.CanPoll(tryChain)
      ensures b <==> (tryChain.First? || tryChain.Second?)
    {
      Chain.CanPoll(tryChain)
    }

    /** Poll once: the chain is advanced in place under the `and_then` policy,
        and its answer is this future's answer. */
    method Poll() returns (o: PollOutcome<Result<T2, E>>)
      requires MeetsInterface(engine)
      modifies this
      ensures (o, tryChain) == engine(old(tryChain), AndThenPolicy)
      ensures tryChain.First? ==> old(tryChain).First? && tryChain.data == old(tryChain).data
    {
      PollNeverRestoresContinuation(engine, tryChain);
      var (out, next) := engine(tryChain, AndThenPolicy);
      tryChain := next;
      o := out;
    }
  }

  /** A first stage that has already failed with "boom": with any engine that
      meets the interface, the first poll gives that failure and exhausts the
      future, and a second poll panics. */
  method BoomScenario(engine: Engine<int, int, string, Continuation<int, int, string>>)
    requires MeetsInterface(engine)
  {
    var double: Continuation<int, int, string> := x => TryFuture(0, Ok(x * 2));
    var first := TryFuture(0, Err("boom"));
    var a := new AndThen(first, double, engine);
    ErrShortCircuits(engine, first, double, "boom");
    var o := a.Poll();
    assert o == Returned(Ready(Err("boom")));
    assert !a.CanPoll();
    o := a.Poll();
    assert o.Panicked?;
  }

  /** A first stage that has already succeeded with 5 and a continuation that
      doubles: with any engine that meets the interface, the first poll
      proceeds exactly as a chain running the second stage `Ok(10)`; with the
      loop engine, that first poll already gives Ok(10). */
  method DoubleScenario(engine: Engine<int, int, string, Continuation<int, int, string>>)
    requires MeetsInterface(engine)
  {
    var double: Continuation<int, int, string> := x => TryFuture(0, Ok(x * 2));
    var first := TryFuture(0, Ok(5));
    var a := new AndThen(first, double, engine);
    OkRunsContinuation(engine, first, double, 5);
    var o := a.Poll();
    assert (o, a.tryChain) == engine(Second(TryFuture(0, Ok(10))), AndThenPolicy);

    LoopEngineMeetsInterface<int, int, string, Continuation<int, int, string>>();
    var b := new AndThen(first, double, LoopEngine);
    o := b.Poll();
    assert o == Returned(Ready(Ok(10)));
    assert !b.CanPoll();
  }
}

/** The two-stage chain engine that the `and_then` combinator delegates to,
    seen as an interface. Its own stepping is not part of this model: an engine
    is a function value handed to the combinator, and `MeetsInterface` states
    the behaviour the combinator's lemmas rely on, nothing more. */
module Chain {
  import opened Futures

  /** The chain's state: running the first stage while still holding the
      continuation data, running the second stage, or exhausted. */
  datatype TryChain<T1, T2, E, F> =
    | First(fut1: TryFuture<T1, E>, data: F)
    | Second(fut2: TryFuture<T2, E>)
    | Empty

  /** What a resumption policy decides once the first stage has completed:
      run this second stage, or finish with this output. */
  datatype TryChainAction<T2, E> = Future(fut: TryFuture<T2, E>) | Output(output: Result<T2, E>)

  /** A new chain runs the given first stage and holds the given data. */
  function New<T1, T2, E, F>(fut1: TryFuture<T1, E>, data: F): (c: TryChain<T1, T2, E, F>)
    ensures c.First? && c.fut1 == fut1 && c.data == data
    ensures CanPoll(c)
  {
    First(fut1, data)
  }

  /** The chain may be polled while it holds a stage. */
  predicate CanPoll<T1, T2, E, F>(c: TryChain<T1, T2, E, F>) {
    !c.Empty?
  }

  /** A resumption policy: from the first stage's result and the held data to an action. */
  type Policy<!T1, !T2, !E, !F> = (Result<T1, E>, F) -> TryChainAction<T2, E>

  /** One poll of the chain under a policy: what the poll does and the chain afterwards. */
  type Engine<!T1, !T2, !E, !F> =
    (TryChain<T1, T2, E, F>, Policy<T1, T2, E, F>) -> (PollOutcome<Result<T2, E>>, TryChain<T1, T2, E, F>)

  /** How an engine treats a chain that is running its first stage: a pending
      first stage leaves the data in place; a completed one is handed, with the
      data, to the policy, and the chain then either finishes with the policy's
      output or carries on exactly as a chain running the policy's second stage. */
  ghost predicate FirstStageStep<T1, T2, E, F>(engine: Engine<T1, T2, E, F>, fut1: TryFuture<T1, E>, data: F,
                                               policy: Policy<T1, T2, E, F>)
  {
    var out := engine(First(fut1, data), policy);
    match TryPoll(fut1).0
    case Pending => out == (Returned(Pending), First(TryPoll(fut1).1, data))
    case Ready(r) =>
      match policy(r, data)
      case Output(o) => out == (Returned(Ready(o)), Empty)
      case Future(fut2) => out == engine(Second(fut2), policy)
  }

  /** The interface every engine meets: the first-stage behaviour above, a
      panic when an exhausted chain is polled, and no return to the first stage
      once the chain has left it: the data is consumed by value, at most once. */
  ghost predicate MeetsInterface<T1(!new), T2(!new), E(!new), F(!new)>(engine: Engine<T1, T2, E, F>) {
    && (forall fut1: TryFuture<T1, E>, data: F, policy: Policy<T1, T2, E, F> ::
          FirstStageStep(engine, fut1, data, policy))
    && (forall policy: Policy<T1, T2, E, F> :: engine(Empty, policy).0.Panicked?)
    && (forall chain: TryChain<T1, T2, E, F>, policy: Policy<T1, T2, E, F> ::
          !chain.First? ==> !engine(chain, policy).1.First?)
  }

  const ExhaustedMessage: string := "chain polled after it completed"

  /** One engine that meets the interface: a chain running a second stage
      polls it, and a completed second stage exhausts the chain. It only shows
      that the interface can be met; it is not a model of the chain's own poll. */
  function LoopEngine<T1, T2, E, F>(chain: TryChain<T1, T2, E, F>, policy: Policy<T1, T2, E, F>)
    : (r: (PollOutcome<Result<T2, E>>, TryChain<T1, T2, E, F>))
  {
    match chain
    case First(fut1, data) =>
      var (p, next) := TryPoll(fut1);
      (match p
       case Pending => (Returned(Pending), First(next, data))
       case Ready(r) =>
         match policy(r, data)
         case Output(o) => (Returned(Ready(o)), Empty)
         case Future(fut2) => PollSecond(fut2))
    case Second(fut2) => PollSecond(fut2)
    case Empty => (Panicked(ExhaustedMessage), Empty)
  }

  /** One poll of a running second stage: its answer, and the chain still on
      that stage while it is pending, exhausted once it is ready. */
  function PollSecond<T1, T2, E, F>(fut2: TryFuture<T2, E>): (r: (PollOutcome<Result<T2, E>>, TryChain<T1, T2, E, F>)) {
    var (p, next) := TryPoll(fut2);
    match p
    case Pending => (Returned(Pending), Second(next))
    case Ready(o) => (Returned(Ready(o)), Empty)
  }

  lemma LoopEngineMeetsInterface<T1(!new), T2(!new), E(!new), F(!new)>()
    ensures MeetsInterface<T1, T2, E, F>(LoopEngine)
  {
    forall fut1: TryFuture<T1, E>, data: F, policy: Policy<T1, T2, E, F>
      ensures FirstStageStep(LoopEngine, fut1, data, policy)
    {
    }
    forall chain: TryChain<T1, T2, E, F>, policy: Policy<T1, T2, E, F> | !chain.First?
      ensures !LoopEngine(chain, policy).1.First?
    {
    }
  }
}

# map_err and and_then, as poll-driven state machines

This project models two fallible-future combinators of `futures-util`
(`try_future/map_err.rs` and `try_future/and_then.rs`) in Dafny. Everything
is single-threaded. A future is advanced by repeated polls, and each poll
answers `Pending` or `Ready(result)`.

- `futures.dfy` (module `Futures`): `Option`, `Result`, `Poll`, and a
  `PollOutcome` that is either a returned poll or a panic with its message.
  It also holds the wrapped future, treated abstractly. A `TryFuture(p, out)`
  answers `Pending` to its next `p` polls and then `Ready(out)`.
- `map_err.dfy` (module `MapErrFuture`): the `MapErr` class, with the
  wrapped future and the single-use transform slot `f: Option<E -> E2>` as
  fields. `Poll` advances the wrapped future in place and, on completion,
  takes the transform. `Step` specifies one poll. `StateAfter` gives the
  wrapped future and the slot after `n` polls, and `Run` the answers to those
  polls. The lemmas cover whole polling
  histories.
- `try_chain.dfy` (module `Chain`): the chain engine that `and_then`
  delegates to, as an interface only. It defines the chain state
  (`First(future, continuation)`, `Second(future)`, `Empty`), the
  `TryChainAction` a resumption policy returns, and the `Engine` type: one
  poll of the chain under a policy. `MeetsInterface` states what an engine
  must do on a chain running its first stage, and that it panics on an
  exhausted chain, and that no poll returns a chain to its first stage once
  it has left it (the continuation is `FnOnce` and moved out by value). When
  the policy returns a second stage, the interface makes that same poll
  continue exactly as a poll of a chain running that stage. `LoopEngine` is one engine that meets the interface. It polls a
  chain running a second stage, and a finished second stage exhausts the
  chain. It shows the interface can be met.
- `and_then.dfy` (module `AndThenFuture`): the `and_then` resumption policy,
  the `AndThen` class whose only state is its chain, and the lemmas that
  follow for every engine that meets the interface, among them that the
  continuation is used at most once across any number of polls.

The panic of `expect` is modelled as a `Panicked(message)` outcome with the
source's message. That message says a MapErr must not be polled after it
returned `Poll::Ready`. The code detects this only on a poll whose wrapped
future answers `Ready`: a re-poll whose wrapped future answers `Pending`
returns `Pending` and does not panic. The model follows the code. With the
wrapped future modelled here, a future that has completed keeps answering
`Ready`, so a re-poll of this model always panics.

## Model

| member | source | states |
|---|---|---|
| `Futures.TryPoll` | futures-util/src/try_future/map_err.rs:41 | The wrapped future answers Ready exactly when it has no pending polls left, with its fixed output. Each Pending uses up one pending poll. |
| `Futures.MapError` | futures-util/src/try_future/map_err.rs:46 | `Result::map_err`: a success comes back unchanged. A failure comes back as the transform applied to it. |
| `MapErrFuture.Step` | futures-util/src/try_future/map_err.rs:41-48 | One poll of a MapErr. It polls the wrapped future exactly once. Pending leaves the slot untouched. Ready empties the slot. The poll is Ready exactly when the transform was still present, and then only the error is mapped. The poll panics with the source's message exactly when the wrapped future is ready and the slot is already empty. The slot empties on exactly the Ready poll and is never refilled. |
| `MapErrFuture.Run` | futures-util/src/try_future/map_err.rs:37-49 | `n` successive polls give exactly `n` answers, and the `i`-th answer is that of one poll in the state (wrapped future and slot) reached after `i` polls. |
| `MapErrFuture.CanPollAlongRun` | futures-util/src/try_future/map_err.rs:41-46 | At any point of any polling history, `can_poll` never goes from false to true. It goes from true to false on exactly the poll that returns Ready. |
| `MapErrFuture.CanPollNeverRestored` | futures-util/src/try_future/map_err.rs:44 | Once `can_poll` is false it stays false, whatever number of polls follow. |
| `MapErrFuture.ReadyAtMostOnce` | futures-util/src/try_future/map_err.rs:44-46 | No two polls of any history return Ready, so the transform is applied at most once. |
| `MapErrFuture.FreshRun` | futures-util/src/try_future/map_err.rs:20-49 | Take a new MapErr over a future that is pending for `p` polls. It answers Pending `p` times, then Ready with the output's error mapped, then panics. The transform stays present through the `p` Pending polls and is gone after the Ready one. |
| `MapErrFuture.MapErr.constructor` | futures-util/src/try_future/map_err.rs:20-22 | Holds the given future and `Some(f)`, so `can_poll` starts out true. |
| `MapErrFuture.MapErr.CanPoll` | futures-util/src/try_future/map_err.rs:28 | True exactly while the transform is present. While it is true, the next poll cannot panic. |
| `MapErrFuture.MapErr.Poll` | futures-util/src/try_future/map_err.rs:37-49 | The answer and the new fields are those of `Step` on the old fields. Pending leaves `f` unchanged. The answer is Ready exactly when `can_poll` flips from true to false. `can_poll` never comes back. A Ready answer is the wrapped output with its error mapped by the old transform. |
| `Chain.New` | futures-util/src/try_future/and_then.rs:23 | A new chain runs exactly the given first future, holds exactly the given continuation, and can be polled. |
| `AndThenFuture.AndThenPolicy` | futures-util/src/try_future/and_then.rs:44-49 | The policy runs a second stage exactly when the first stage succeeded. That stage is the continuation applied to exactly the success value. A failure finishes with the same failure. The shared error type `E` makes this well-typed without conversion. |
| `AndThenFuture.ErrIgnoresContinuation` | futures-util/src/try_future/and_then.rs:47 | On a failure the policy's action is `Output(Err(err))` whatever the continuation, so the continuation plays no part. |
| `AndThenFuture.OkUsesContinuationAt` | futures-util/src/try_future/and_then.rs:46 | On a success the policy depends on the continuation only through its value at that success, and it starts that future. |
| `AndThenFuture.PendingKeepsContinuation` | futures-util/src/try_future/and_then.rs:44-45 | For every engine that meets the interface: a pending first stage gives Pending. The chain keeps the continuation unused. This restates the interface's pending clause for the `and_then` policy, which plays no part in it. |
| `AndThenFuture.ErrShortCircuits` | futures-util/src/try_future/and_then.rs:47 | For every engine that meets the interface: a first stage that failed with `err` gives Ready(Err(err)) and exhausts the chain, whatever the continuation. |
| `AndThenFuture.OkRunsContinuation` | futures-util/src/try_future/and_then.rs:46 | For every engine that meets the interface: a first stage that succeeded with `ok` continues exactly as a chain running `asyncOp(ok)`. |
| `AndThenFuture.PollNeverRestoresContinuation` | futures-util/src/try_future/and_then.rs:39-49 | For every engine that meets the interface: after one poll the chain holds a continuation only if it held one before, and then the very same one. A chain that has handed its continuation on never gets one back. |
| `AndThenFuture.ContinuationNeverReturns` | futures-util/src/try_future/and_then.rs:31-49 | For every engine that meets the interface and any number of polls: a chain that still holds a continuation held exactly that continuation from the start, so the `FnOnce` continuation is handed to the policy at most once. |
| `AndThenFuture.AndThen.constructor` | futures-util/src/try_future/and_then.rs:21-25 | The only state is a chain holding exactly the given future and continuation. The result can be polled. The chain's poll, `engine`, is fixed here, must meet the interface, and is used by every later poll. |
| `AndThenFuture.AndThen.CanPoll` | futures-util/src/try_future/and_then.rs:33 | Always equals the chain's `can_poll`, which is true while the chain holds a stage. The adapter adds no completion state of its own. |
| `AndThenFuture.AndThen.Poll` | futures-util/src/try_future/and_then.rs:43-50 | The answer and the new chain are exactly what this future's fixed engine gives for the old chain under the `and_then` policy. The new chain holds a continuation only if the old one did, and then the same one, so the continuation is never restored once used. |

## Left out

- Pinning (`PinMut`, the `unsafe_pinned!`/`unsafe_unpinned!` projections, the `Unpin` impl). These guarantee memory locations and change no behaviour.
- `task::Context` and waking. The context is passed through unchanged in the source, so it is dropped from every signature.
- The body of `TryChain` (imported at `and_then.rs:1`) is not part of this model. Its poll is an `Engine` function value, fixed when an `AndThen` is built. The lemmas assume only `MeetsInterface`: how a first stage is handled, that an exhausted chain panics, and that a chain never goes back to its first stage. When the policy returns a second stage, the same poll continues exactly as a poll of a chain running that stage. Beyond not returning to the first stage, what such a poll does is not stated: whether it polls the stage, whether a finished second stage exhausts the chain, and the panic message.
- AndThenFuture.AndThen.Poll: its contract only ties the answer to the engine. It does not state that the overall result equals the second stage's eventual outcome, or that `can_poll` is monotone for `and_then`, because both follow from the chain's stepping, which is not modelled.
- Trait plumbing (`TryFuture`, `FusedFuture`, `FnOnce` bounds), `#[derive(Debug)]` and `#[must_use]`. Transforms and continuations are Dafny function values. Taking MapErr's transform is modelled by its `Option` slot being emptied. The `and_then` continuation has no slot of its own: it is held by a `First` chain, and single use is the interface's promise that a chain never returns to `First`.
- A wrapped future polled again after it answered Ready is left unspecified in the source. The model's `TryFuture` keeps answering `Ready` with the same output.
- Panics are outcome values. Unwinding, and any state a caller could observe after catching one, are not modelled.
- Executors, scheduling and concurrency. Everything here is sequential polling.

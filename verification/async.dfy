/** The shapes of a non-blocking, poll-based API: Rust's `Option`, `Result` and
    `Poll`, plus the outcome of one call into the adapter, which either returns
    (with the adapter's new state and the value it hands back) or panics. */
module Async {

  datatype Option<+T> = None | Some(value: T)

  datatype Result<+T, +E> = Ok(value: T) | Err(error: E)

  /** The answer of a poll: no progress yet (the caller is woken later), or a value. */
  datatype Poll<+T> = Pending | Ready(value: T)

  /** The ways a call into the adapter can panic. */
  datatype Panic =
    | AdvancePastEnd(len: nat, count: nat)  // `Buf::advance(count)` on a buffer of `len` bytes
    | InvalidErrorCode(code: nat)           // `expect` on an error code that is not a VarInt

  /** One call on an adapter value: the state it leaves behind and what it returns. */
  datatype Step<+S, +T> = Step(state: S, out: T) | Panicked(reason: Panic)
}

/** The send half of a stream: a single slot `writing` holding the one buffer
    accepted but not yet written. `B` is the caller's buffer type. */
module Send {
  import opened Async
  import opened VarInt
  import opened Transport

  datatype SendStream<B> = SendStream(stream: SendHandle, writing: Option<B>)

  datatype SendStreamError = Write(cause: WriteError) | NotReady

  /** What one poll of the transport's write of the pending buffer answers:
      not finished yet, failed, or all of it written. */
  type WritePoll = Poll<Result<(), WriteError>>

  type ReadyPoll = Poll<Result<(), SendStreamError>>

  /** A fresh send stream: nothing pending. */
  function New<B>(h: SendHandle): (s: SendStream<B>)
    ensures s.stream == h && s.writing.None?
  {
    SendStream(h, None)
  }

  /** `poll_ready`: drive the pending buffer, if any, into the transport. The
      slot is emptied exactly when it was already empty or the write finished;
      a pending or failed write keeps the buffer in the slot. `write` is only
      consulted when a buffer is pending. */
  function PollReady<B(==)>(s: SendStream<B>, write: WritePoll): (r: Step<SendStream<B>, ReadyPoll>)
    ensures r.Step? && r.state.stream == s.stream
    ensures r.state.writing.None? <==> s.writing.None? || (write.Ready? && write.value.Ok?)
    ensures r.state.writing.Some? ==> r.state.writing == s.writing
    ensures r.out == Ready(Ok(())) <==> r.state.writing.None?
    ensures s.writing.Some? && write.Ready? && write.value.Err? ==> r.out == Ready(Err(Write(write.value.error)))
    ensures s.writing.Some? && write.Pending? ==> r.out == Pending
  {
    match s.writing
    case None => Step(s, Ready(Ok(())))
    case Some(_) =>
      match write
      case Pending => Step(s, Pending)
      case Ready(Err(e)) => Step(s, Ready(Err(Write(e))))
      case Ready(Ok(_)) => Step(s.(writing := None), Ready(Ok(())))
  }

  /** `send_data`: accept `data` into the empty slot; while a buffer is pending,
      refuse with `NotReady` and change nothing. */
  function SendData<B(==)>(s: SendStream<B>, data: B): (r: Step<SendStream<B>, Result<(), SendStreamError>>)
    ensures r.Step? && r.state.stream == s.stream
    ensures r.out.Ok? <==> s.writing.None?
    ensures r.out.Err? ==> r.out.error == NotReady && r.state == s
    ensures r.out.Ok? ==> r.state.writing == Some(data)
  {
    if s.writing.Some? then Step(s, Err(NotReady))
    else Step(s.(writing := Some(data)), Ok(()))
  }

  /** The code `reset` sends for `code`: the code itself when it is a VarInt,
      the largest VarInt otherwise. */
  function ResetCode(code: u64): (c: VarInt)
    ensures c <= code
    ensures c == code || c == MAX
  {
    match FromU64(code)
    case Ok(v) => v
    case Err(_) => MAX
  }

  /** No VarInt not above `code` is larger than the code `reset` sends. */
  lemma ResetCodeIsGreatest(code: u64, v: VarInt)
    requires v <= code
    ensures v <= ResetCode(code)
  {
  }

  /** `reset`: abort the stream with `code`, clamped to a VarInt. Never fails
      and leaves the adapter's state as it is. */
  function Reset<B(==)>(s: SendStream<B>, code: u64): (r: Step<SendStream<B>, Signal>)
    ensures r.Step? && r.state == s
    ensures r.out.ResetStream? && r.out.send == s.stream && r.out.code <= code
    ensures code <= MAX ==> r.out.code == code
    ensures code > MAX ==> r.out.code == MAX
  {
    Step(s, ResetStream(s.stream, ResetCode(code)))
  }

  /** A call a caller makes on a send stream, with the transport's answer
      where the call polls it. */
  datatype Call<B> = Submit(data: B) | AwaitReady(write: WritePoll)

  /** What crossed the slot so far: buffers it accepted and buffers it saw
      a write of finish, in order. */
  datatype Ledger<B> = Ledger(accepted: seq<B>, written: seq<B>)

  /** The slot holds exactly the accepted buffers not yet written: none, or the
      last one accepted. */
  predicate SingleSlot<B(==)>(s: SendStream<B>, l: Ledger<B>) {
    match s.writing
    case None => l.accepted == l.written
    case Some(b) => l.accepted == l.written + [b]
  }

  /** Run `calls` in order, recording what the slot accepts and what it sees
      written. */
  function Drive<B(==)>(s: SendStream<B>, l: Ledger<B>, calls: seq<Call<B>>): (r: (SendStream<B>, Ledger<B>))
    ensures r.0.stream == s.stream
    decreases |calls|
  {
    if calls == [] then (s, l)
    else
      match calls[0]
      case Submit(data) =>
        var r := SendData(s, data);
        var l' := if r.out.Ok? then l.(accepted := l.accepted + [data]) else l;
        Drive(r.state, l', calls[1..])
      case AwaitReady(write) =>
        var r := PollReady(s, write);
        var l' := if s.writing.Some? && r.state.writing.None? then l.(written := l.written + [s.writing.value]) else l;
        Drive(r.state, l', calls[1..])
  }

  /** Over any sequence of calls the slot holds at most one buffer, and the
      buffers whose write the slot saw finish are the accepted ones in
      acceptance order. "Finish" is the answer of one poll of `write_all`;
      how much of the buffer reached the peer is not modelled. */
  lemma {:induction false} DriveKeepsSingleSlot<B>(s: SendStream<B>, l: Ledger<B>, calls: seq<Call<B>>)
    requires SingleSlot(s, l)
    ensures SingleSlot(Drive(s, l, calls).0, Drive(s, l, calls).1)
    ensures |Drive(s, l, calls).1.accepted| <= |Drive(s, l, calls).1.written| + 1
    decreases |calls|
  {
    if calls != [] {
      match calls[0]
      case Submit(data) =>
        var r := SendData(s, data);
        var l' := if r.out.Ok? then l.(accepted := l.accepted + [data]) else l;
        DriveKeepsSingleSlot(r.state, l', calls[1..]);
      case AwaitReady(write) =>
        var r := PollReady(s, write);
        var l' := if s.writing.Some? && r.state.writing.None? then l.(written := l.written + [s.writing.value]) else l;
        DriveKeepsSingleSlot(r.state, l', calls[1..]);
    } else {
      match s.writing
      case None =>
      case Some(b) =>
    }
  }

  /** From a fresh stream, the buffers the slot saw a write of finish are
      always the accepted buffers in order, missing at most the last. */
  lemma FreshStreamWritesInOrder<B>(h: SendHandle, calls: seq<Call<B>>)
    ensures var l := Drive(New<B>(h), Ledger([], []), calls).1;
      l.written <= l.accepted && |l.accepted| <= |l.written| + 1
  {
    DriveKeepsSingleSlot(New<B>(h), Ledger([], []), calls);
    var r := Drive(New<B>(h), Ledger([], []), calls);
    match r.0.writing
    case None =>
    case Some(b) => assert r.1.accepted[..|r.1.written|] == r.1.written;
  }
}

/** The receive half of a stream: a reorder buffer that turns the transport's
    unordered chunk delivery back into the stream's bytes in order.

    `offset` is the cursor (bytes already handed to the caller) and `chunks`
    holds chunks that arrived ahead of the cursor, keyed by their start
    offset. */
module Recv {
  import opened Async
  import opened VarInt
  import opened Transport

  /** The adapter's read error, wrapping the transport's. */
  datatype ReadError = ReadError(cause: QuinnReadError)

  datatype RecvStream = RecvStream(stream: RecvHandle, offset: nat, chunks: map<nat, Bytes>)

  /** What one poll of the transport's unordered read can answer: nothing yet,
      an error, the end of the stream, or a chunk. */
  type ReadPoll = Poll<Result<Option<Chunk>, QuinnReadError>>

  /** What `poll_data` answers: nothing yet, an error, the end of the stream,
      or the next bytes of the stream. */
  type DataPoll = Poll<Result<Option<Bytes>, ReadError>>

  predicate IsData(p: DataPoll) {
    p.Ready? && p.value.Ok? && p.value.value.Some?
  }

  /** The bytes a poll answer hands to the caller (none unless it is data). */
  function DataOf(p: DataPoll): Bytes {
    if IsData(p) then p.value.value.value else []
  }

  /** A fresh receive stream: nothing yielded, nothing buffered. */
  function New(h: RecvHandle): (s: RecvStream)
    ensures s.stream == h && s.offset == 0 && s.chunks == map[]
  {
    RecvStream(h, 0, map[])
  }

  /** `Buf::advance`: drop the first `n` bytes, which must exist. */
  function Advance(b: Bytes, n: nat): (r: Option<Bytes>)
    ensures r.Some? <==> n <= |b|
    ensures r.Some? ==> |r.value| == |b| - n && b == b[..n] + r.value
  {
    if n <= |b| then Some(b[n..]) else None
  }

  /** `k` is the least element of `keys`. */
  predicate IsMin(k: nat, keys: set<nat>) {
    k in keys && forall j :: j in keys ==> k <= j
  }

  lemma {:induction false} HasMin(keys: set<nat>)
    requires keys != {}
    ensures exists k :: IsMin(k, keys)
    decreases keys
  {
    var x :| x in keys;
    var rest := keys - {x};
    if rest == {} {
      assert keys == {x};
      assert IsMin(x, keys);
    } else {
      HasMin(rest);
      var m :| IsMin(m, rest);
      var low := if x < m then x else m;
      forall j | j in keys ensures low <= j {
        if j != x { assert j in rest; }
      }
      assert IsMin(low, keys);
    }
  }

  /** The smallest key of the buffer: the first one a `BTreeMap` lists. */
  function MinKey(keys: set<nat>): (k: nat)
    requires keys != {}
    ensures k in keys
    ensures forall j :: j in keys ==> k <= j
  {
    HasMin(keys);
    var k :| IsMin(k, keys);
    k
  }

  /** Hand a chunk starting at or behind the cursor to the caller: trim the
      bytes already seen and move the cursor to the chunk's end. The buffer
      is left as `s` has it. Trimming past the chunk's end panics. */
  function Consume(s: RecvStream, start: nat, data: Bytes): (r: Step<RecvStream, DataPoll>)
    requires start <= s.offset
    ensures r.Panicked? <==> start + |data| < s.offset
    ensures r.Step? ==>
      && r.state == s.(offset := start + |data|)
      && IsData(r.out)
      && DataOf(r.out) == data[s.offset - start..]
  {
    var skip := s.offset - start;
    match Advance(data, skip)
    case None => Panicked(AdvancePastEnd(|data|, skip))
    case Some(rest) => Step(s.(offset := s.offset + |rest|), Ready(Ok(Some(rest))))
  }

  /** The buffer's entry the drain step would take: the smallest key, and only
      when it does not lie ahead of the cursor. */
  predicate CanDrain(s: RecvStream) {
    s.chunks != map[] && MinKey(s.chunks.Keys) <= s.offset
  }

  /** The drain step: if the smallest buffered key is at or behind the cursor,
      remove that entry and yield it trimmed, overriding `tentative`;
      otherwise answer `tentative` and leave everything as it is. */
  function Drain(s: RecvStream, tentative: DataPoll): (r: Step<RecvStream, DataPoll>)
    ensures !CanDrain(s) ==> r == Step(s, tentative)
    ensures CanDrain(s) ==>
      var k := MinKey(s.chunks.Keys);
      && (r.Panicked? <==> k + |s.chunks[k]| < s.offset)
      && (r.Step? ==>
          && r.state == RecvStream(s.stream, k + |s.chunks[k]|, s.chunks - {k})
          && IsData(r.out)
          && DataOf(r.out) == s.chunks[k][s.offset - k..])
  {
    if CanDrain(s) then
      var k := MinKey(s.chunks.Keys);
      Consume(s.(chunks := s.chunks - {k}), k, s.chunks[k])
    else
      Step(s, tentative)
  }

  /** The buffer after the read step: a chunk that lies ahead of the cursor is
      stored under its start offset, replacing any entry with that key. */
  function Buffered(s: RecvStream, read: ReadPoll): map<nat, Bytes> {
    match read
    case Ready(Ok(Some(c))) => if s.offset < c.offset then s.chunks[c.offset := c.data] else s.chunks
    case _ => s.chunks
  }

  /** The chunk the read delivered, when it starts at or behind the cursor. */
  predicate InOrder(s: RecvStream, read: ReadPoll) {
    read.Ready? && read.value.Ok? && read.value.value.Some? && read.value.value.value.offset <= s.offset
  }

  /** `poll_data`: poll the unordered read once, then try the buffer. */
  function PollData(s: RecvStream, read: ReadPoll): (r: Step<RecvStream, DataPoll>)
    // the cursor only moves forward, by exactly the bytes handed out
    ensures r.Step? ==> r.state.stream == s.stream && r.state.offset == s.offset + |DataOf(r.out)|
    // a read error is passed on at once; the buffer is kept
    ensures read.Ready? && read.value.Err? ==> r == Step(s, Ready(Err(ReadError(read.value.error))))
    // a chunk reaching the cursor is trimmed and yielded; the buffer is not touched
    ensures InOrder(s, read) ==>
      var c := read.value.value.value;
      && (r.Panicked? <==> c.offset + |c.data| < s.offset)
      && (r.Step? ==>
          r.state.chunks == s.chunks && IsData(r.out) && DataOf(r.out) == c.data[s.offset - c.offset..])
    // otherwise a chunk ahead of the cursor is stored, and the smallest buffered
    // key decides whether buffered bytes are yielded or the tentative answer stands
    ensures !(read.Ready? && read.value.Err?) && !InOrder(s, read) ==>
      var b := Buffered(s, read);
      var tentative: DataPoll := if read == Ready(Ok(None)) then Ready(Ok(None)) else Pending;
      if b == map[] || MinKey(b.Keys) > s.offset then
        r == Step(s.(chunks := b), tentative)
      else
        var k := MinKey(b.Keys);
        && (r.Panicked? <==> k + |b[k]| < s.offset)
        && (r.Step? ==> r.state.chunks == b - {k} && IsData(r.out) && DataOf(r.out) == b[k][s.offset - k..])
  {
    match read
    case Ready(Err(e)) => Step(s, Ready(Err(ReadError(e))))
    case Ready(Ok(Some(c))) =>
      if c.offset <= s.offset then Consume(s, c.offset, c.data)
      else Drain(s.(chunks := s.chunks[c.offset := c.data]), Pending)
    case Ready(Ok(None)) => Drain(s, Ready(Ok(None)))
    case Pending => Drain(s, Pending)
  }

  /** `stop_sending`: ask the peer to stop with `code`; a code that is not a
      VarInt panics. The adapter's own state does not change. */
  function StopSending(s: RecvStream, code: u64): (r: Step<RecvStream, Signal>)
    ensures r.Panicked? <==> code > MAX
    ensures r.Step? ==> r.state == s && r.out == Signal.StopSending(s.stream, code)
  {
    match FromU64(code)
    case Ok(v) => Step(s, Signal.StopSending(s.stream, v))
    case Err(_) => Panicked(InvalidErrorCode(code))
  }
}

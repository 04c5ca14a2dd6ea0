/** Ordering of the reorder buffer, stated against a reference stream `ref`:
    the bytes the sender wrote. If every chunk the transport delivers is a
    slice of `ref`, then as long as no poll panics, the bytes `poll_data`
    hands out, concatenated, are exactly the prefix of `ref` up to the
    cursor. */
module RecvOrder {
  import opened Async
  import opened VarInt
  import opened Transport
  import opened Recv

  /** `data` is the slice of `ref` starting at `start`. */
  predicate SliceOf(ref: Bytes, start: nat, data: Bytes) {
    start + |data| <= |ref| && ref[start..start + |data|] == data
  }

  /** A read answer whose chunk, if any, is a slice of `ref`. */
  predicate Faithful(ref: Bytes, read: ReadPoll) {
    read.Ready? && read.value.Ok? && read.value.value.Some? ==>
      SliceOf(ref, read.value.value.value.offset, read.value.value.value.data)
  }

  /** The cursor lies within `ref` and every buffered chunk is a slice of it. */
  predicate Valid(ref: Bytes, s: RecvStream) {
    && s.offset <= |ref|
    && forall k :: k in s.chunks ==> SliceOf(ref, k, s.chunks[k])
  }

  /** Trimming a slice of `ref` that reaches the cursor yields the bytes of
      `ref` from the old cursor to the new one. */
  lemma ConsumeYieldsNext(ref: Bytes, s: RecvStream, start: nat, data: Bytes)
    requires Valid(ref, s) && start <= s.offset && SliceOf(ref, start, data)
    requires Consume(s, start, data).Step?
    ensures Valid(ref, Consume(s, start, data).state)
    ensures DataOf(Consume(s, start, data).out) == ref[s.offset..Consume(s, start, data).state.offset]
  {
    var r := Consume(s, start, data);
    var skip := s.offset - start;
    var out := DataOf(r.out);
    assert out == data[skip..];
    forall i | 0 <= i < |out|
      ensures out[i] == ref[s.offset + i]
    {
      assert out[i] == data[skip + i];
      assert data[skip + i] == ref[start..start + |data|][skip + i];
    }
  }

  /** One poll keeps the buffer faithful and hands out the next bytes of `ref`. */
  lemma PollDataKeepsOrder(ref: Bytes, s: RecvStream, read: ReadPoll)
    requires Valid(ref, s) && Faithful(ref, read)
    requires PollData(s, read).Step?
    ensures Valid(ref, PollData(s, read).state)
    ensures DataOf(PollData(s, read).out) == ref[s.offset..PollData(s, read).state.offset]
  {
    match read
    case Ready(Err(e)) =>
    case Ready(Ok(Some(c))) =>
      if c.offset <= s.offset {
        ConsumeYieldsNext(ref, s, c.offset, c.data);
      } else {
        DrainYieldsNext(ref, s.(chunks := s.chunks[c.offset := c.data]), Pending);
      }
    case Ready(Ok(None)) =>
      DrainYieldsNext(ref, s, Ready(Ok(None)));
    case Pending =>
      DrainYieldsNext(ref, s, Pending);
  }

  lemma DrainYieldsNext(ref: Bytes, s: RecvStream, tentative: DataPoll)
    requires Valid(ref, s) && !IsData(tentative)
    requires Drain(s, tentative).Step?
    ensures Valid(ref, Drain(s, tentative).state)
    ensures DataOf(Drain(s, tentative).out) == ref[s.offset..Drain(s, tentative).state.offset]
  {
    if CanDrain(s) {
      var k := MinKey(s.chunks.Keys);
      ConsumeYieldsNext(ref, s.(chunks := s.chunks - {k}), k, s.chunks[k]);
    }
  }

  /** A caller that polls `poll_data` once for each transport answer in
      `answers`, collecting the bytes handed out; a panic ends the run. */
  function Run(s: RecvStream, answers: seq<ReadPoll>): (r: Step<RecvStream, Bytes>)
    ensures r.Step? ==> r.state.stream == s.stream && r.state.offset == s.offset + |r.out|
    decreases |answers|
  {
    if answers == [] then Step(s, [])
    else
      match PollData(s, answers[0])
      case Panicked(p) => Panicked(p)
      case Step(next, out) =>
        match Run(next, answers[1..])
        case Panicked(p) => Panicked(p)
        case Step(last, rest) => Step(last, DataOf(out) + rest)
  }

  /** A run that returns is one poll that returns followed by a run that
      returns, and its bytes are theirs, concatenated. */
  lemma RunSplit(s: RecvStream, answers: seq<ReadPoll>)
    requires answers != [] && Run(s, answers).Step?
    ensures PollData(s, answers[0]).Step?
    ensures Run(PollData(s, answers[0]).state, answers[1..]).Step?
    ensures Run(s, answers) == Step(Run(PollData(s, answers[0]).state, answers[1..]).state,
                                    DataOf(PollData(s, answers[0]).out) + Run(PollData(s, answers[0]).state, answers[1..]).out)
  {
  }

  /** One poll that returns, followed by a run that returns. */
  lemma RunUnfold(s: RecvStream, answers: seq<ReadPoll>)
    requires answers != [] && PollData(s, answers[0]).Step?
    requires Run(PollData(s, answers[0]).state, answers[1..]).Step?
    ensures Run(s, answers) == Step(Run(PollData(s, answers[0]).state, answers[1..]).state,
                                    DataOf(PollData(s, answers[0]).out) + Run(PollData(s, answers[0]).state, answers[1..]).out)
  {
  }

  lemma SliceJoin(ref: Bytes, i: nat, j: nat, k: nat)
    requires i <= j <= k <= |ref|
    ensures ref[i..k] == ref[i..j] + ref[j..k]
  {
  }

  /** Over any run, whatever order the chunks arrive in, the collected bytes
      are the reference stream from the starting cursor to the final one. */
  lemma {:induction false} RunYieldsNext(ref: Bytes, s: RecvStream, answers: seq<ReadPoll>)
    requires Valid(ref, s)
    requires forall i :: 0 <= i < |answers| ==> Faithful(ref, answers[i])
    requires Run(s, answers).Step?
    ensures Valid(ref, Run(s, answers).state)
    ensures Run(s, answers).out == ref[s.offset..Run(s, answers).state.offset]
    decreases |answers|
  {
    if answers != [] {
      RunSplit(s, answers);
      var first := PollData(s, answers[0]);
      PollDataKeepsOrder(ref, s, answers[0]);
      var next := first.state;
      var rest := answers[1..];
      forall i | 0 <= i < |rest| ensures Faithful(ref, rest[i]) {
        assert rest[i] == answers[i + 1];
      }
      RunYieldsNext(ref, next, rest);
      var last := Run(next, rest);
      SliceJoin(ref, s.offset, next.offset, last.state.offset);
    } else {
      assert ref[s.offset..s.offset] == [];
    }
  }

  /** For a fresh stream: everything handed out is the prefix of the stream
      up to the cursor, and the cursor never passes the stream's end. As a
      QUIC stream never extends past 2^62 - 1 (section 19.8 of RFC 9000),
      the 64-bit cursor then never overflows. */
  lemma FreshStreamYieldsPrefix(ref: Bytes, h: RecvHandle, answers: seq<ReadPoll>)
    requires forall i :: 0 <= i < |answers| ==> Faithful(ref, answers[i])
    requires Run(New(h), answers).Step?
    ensures Run(New(h), answers).state.offset <= |ref|
    ensures |ref| <= MAX ==> Run(New(h), answers).state.offset <= U64_MAX
    ensures Run(New(h), answers).out == ref[..Run(New(h), answers).state.offset]
  {
    RunYieldsNext(ref, New(h), answers);
  }
}

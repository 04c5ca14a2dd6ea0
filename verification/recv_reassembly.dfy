/** Completeness of the reorder buffer: when the transport delivers a stream
    cut into non-overlapping pieces, in any order, and the caller keeps
    polling, `poll_data` hands out the whole stream and empties its buffer.
    Together with `RecvOrder`, the bytes handed out are then exactly the
    stream. */
module RecvReassembly {
  import opened Async
  import opened Transport
  import opened Recv
  import opened RecvOrder

  /** `pieces` cut `[lo, hi)` into consecutive non-empty pieces, each keyed
      by its start offset, with nothing else in the map. */
  ghost predicate Tiles(pieces: map<nat, Bytes>, lo: nat, hi: nat)
    decreases hi - lo
  {
    if hi <= lo then lo == hi && pieces == map[]
    else
      && lo in pieces
      && 0 < |pieces[lo]|
      && lo + |pieces[lo]| <= hi
      && Tiles(pieces - {lo}, lo + |pieces[lo]|, hi)
  }

  lemma {:induction false} TilesKeysInRange(pieces: map<nat, Bytes>, lo: nat, hi: nat)
    requires Tiles(pieces, lo, hi)
    ensures lo <= hi
    ensures forall k :: k in pieces ==> (lo <= k && k < hi)
    decreases hi - lo
  {
    if lo < hi {
      var next := lo + |pieces[lo]|;
      TilesKeysInRange(pieces - {lo}, next, hi);
      forall k | k in pieces ensures lo <= k && k < hi {
        if k != lo {
          assert k in pieces - {lo};
        }
      }
    }
  }

  /** The chunks as a map from start offset to bytes. */
  function AsMap(cs: seq<Chunk>): map<nat, Bytes>
    decreases |cs|
  {
    if cs == [] then map[] else AsMap(cs[1..])[cs[0].offset := cs[0].data]
  }

  lemma {:induction false} AsMapKeys(cs: seq<Chunk>, k: nat)
    ensures k in AsMap(cs) <==> exists i :: 0 <= i < |cs| && cs[i].offset == k
    decreases |cs|
  {
    if cs != [] {
      AsMapKeys(cs[1..], k);
      if exists i :: 0 <= i < |cs| && cs[i].offset == k {
        var i :| 0 <= i < |cs| && cs[i].offset == k;
        if i > 0 {
          assert cs[1..][i - 1].offset == k;
        }
      }
      if exists i :: 0 <= i < |cs[1..]| && cs[1..][i].offset == k {
        var i :| 0 <= i < |cs[1..]| && cs[1..][i].offset == k;
        assert cs[i + 1].offset == k;
      }
    }
  }

  predicate DistinctOffsets(cs: seq<Chunk>) {
    forall i, j :: 0 <= i < j < |cs| ==> cs[i].offset != cs[j].offset
  }

  function Arrive(c: Chunk): ReadPoll {
    Ready(Ok(Some(c)))
  }

  /** The transport delivering `cs`, one chunk per poll. */
  function Arrivals(cs: seq<Chunk>): (answers: seq<ReadPoll>)
    ensures |answers| == |cs|
    ensures forall i :: 0 <= i < |cs| ==> answers[i] == Arrive(cs[i])
  {
    seq(|cs|, i requires 0 <= i < |cs| => Arrive(cs[i]))
  }

  /** `n` polls on which the transport has nothing new. */
  function Pendings(n: nat): (answers: seq<ReadPoll>)
    ensures |answers| == n
    ensures forall i :: 0 <= i < n ==> answers[i] == Pending
  {
    seq(n, _ => Pending)
  }

  lemma ConsTail<T>(xs: seq<T>, ys: seq<T>)
    requires xs != []
    ensures (xs + ys)[0] == xs[0] && (xs + ys)[1..] == xs[1..] + ys
  {
  }

  lemma ConcatAssoc<T>(a: seq<T>, b: seq<T>, c: seq<T>)
    ensures a + (b + c) == (a + b) + c
  {
  }

  /** Running two stretches of answers one after the other. */
  lemma {:induction false} RunAppend(s: RecvStream, xs: seq<ReadPoll>, ys: seq<ReadPoll>)
    requires Run(s, xs).Step? && Run(Run(s, xs).state, ys).Step?
    ensures Run(s, xs + ys) == Step(Run(Run(s, xs).state, ys).state, Run(s, xs).out + Run(Run(s, xs).state, ys).out)
    decreases |xs|
  {
    if xs == [] {
      assert xs + ys == ys;
      assert Run(s, xs) == Step(s, []);
      var r := Run(s, ys);
      assert [] + r.out == r.out;
    } else {
      var p := PollData(s, xs[0]);
      assert p.Step?;
      var next := p.state;
      var mid := Run(next, xs[1..]);
      assert mid.Step?;
      RunUnfold(s, xs);
      RunAppend(next, xs[1..], ys);
      var tail := Run(mid.state, ys);
      var zs := xs + ys;
      ConsTail(xs, ys);
      RunUnfold(s, zs);
      ConcatAssoc(DataOf(p.out), mid.out, tail.out);
    }
  }

  /** Unfolding a tiling once: the piece at `lo` and a tiling of the rest. */
  lemma TilesFirst(pieces: map<nat, Bytes>, lo: nat, hi: nat)
    requires Tiles(pieces, lo, hi) && lo < hi
    ensures lo in pieces && 0 < |pieces[lo]|
    ensures Tiles(pieces - {lo}, lo + |pieces[lo]|, hi)
  {
  }

  /** A poll delivering the piece that starts at the cursor hands it out
      whole and leaves the buffer as it is. */
  lemma PollAtCursor(s: RecvStream, c: Chunk)
    requires c.offset == s.offset
    ensures PollData(s, Arrive(c)).Step?
    ensures PollData(s, Arrive(c)).state == s.(offset := s.offset + |c.data|)
    ensures PollData(s, Arrive(c)).out == Ready(Ok(Some(c.data)))
  {
    assert c.data[0..] == c.data;
  }

  /** Taking the piece at `lo` out of a tiling of `[lo, hi)` leaves a tiling
      of the rest. */
  lemma TilesAfterFirst(chunks: map<nat, Bytes>, c: Chunk, lo: nat, hi: nat)
    requires c.offset == lo && c.offset !in chunks
    requires Tiles(chunks[c.offset := c.data], lo, hi) && lo < hi
    ensures Tiles(chunks, lo + |c.data|, hi)
  {
    var all := chunks[c.offset := c.data];
    TilesFirst(all, lo, hi);
    assert all - {lo} == chunks;
  }

  /** Whatever holds of the buffer and the moved cursor holds of the state
      after the piece at the cursor arrives. The property is a parameter so
      that callers prove it of plain fields, without `PollData` in sight;
      this keeps their proofs small. */
  lemma PollAtCursorKeeps(s: RecvStream, c: Chunk, P: (map<nat, Bytes>, nat) -> bool)
    requires c.offset == s.offset && P(s.chunks, s.offset + |c.data|)
    ensures PollData(s, Arrive(c)).Step?
    ensures P(PollData(s, Arrive(c)).state.chunks, PollData(s, Arrive(c)).state.offset)
  {
    PollAtCursor(s, c);
  }

  /** The piece starting at the cursor arrives: it is handed out whole and
      the buffer with the pieces still to come tiles the rest. */
  lemma ArrivalAtCursor(s: RecvStream, c: Chunk, later: map<nat, Bytes>, hi: nat)
    requires c.offset == s.offset && c.offset !in later && c.offset !in s.chunks
    requires s.chunks.Keys !! later.Keys
    requires Tiles((s.chunks + later)[c.offset := c.data], s.offset, hi)
    requires s.offset < hi
    ensures PollData(s, Arrive(c)).Step?
    ensures PollData(s, Arrive(c)).out == Ready(Ok(Some(c.data)))
    ensures PollData(s, Arrive(c)).state.chunks == s.chunks
    ensures PollData(s, Arrive(c)).state.chunks.Keys !! later.Keys
    ensures Tiles(PollData(s, Arrive(c)).state.chunks + later, PollData(s, Arrive(c)).state.offset, hi)
  {
    TilesAfterFirst(s.chunks + later, c, s.offset, hi);
    var P := (m: map<nat, Bytes>, o: nat) => m.Keys !! later.Keys && Tiles(m + later, o, hi);
    assert P(s.chunks, s.offset + |c.data|);
    PollAtCursorKeeps(s, c, P);
    var r := PollData(s, Arrive(c));
    assert r.out == Ready(Ok(Some(c.data))) && r.state.chunks == s.chunks by {
      PollAtCursor(s, c);
    }
  }

  /** Removing a buffered key from a buffer disjoint from the pieces still
      to come removes it from their union. */
  lemma RemoveFromUnion(chunks: map<nat, Bytes>, later: map<nat, Bytes>, k: nat)
    requires chunks.Keys !! later.Keys && k in chunks
    ensures (chunks - {k}).Keys !! later.Keys
    ensures (chunks - {k}) + later == (chunks + later) - {k}
  {
  }

  /** Storing `c` in the buffer keeps it disjoint from the pieces still to
      come, and together they are all pieces. */
  lemma Store(chunks: map<nat, Bytes>, c: Chunk, later: map<nat, Bytes>)
    requires c.offset !in later && chunks.Keys !! later.Keys
    ensures chunks[c.offset := c.data].Keys !! later.Keys
    ensures chunks[c.offset := c.data] + later == (chunks + later)[c.offset := c.data]
  {
  }

  /** A piece ahead of the cursor arrives: the buffer with the pieces still
      to come keeps tiling the rest. */
  lemma ArrivalAheadPoll(s: RecvStream, c: Chunk, later: map<nat, Bytes>, all: map<nat, Bytes>, hi: nat)
    requires s.offset < c.offset && c.offset !in later
    requires s.chunks.Keys !! later.Keys && all == (s.chunks + later)[c.offset := c.data]
    requires Tiles(all, s.offset, hi) && s.offset < hi
    requires forall k :: k in all ==> s.offset <= k
    ensures PollData(s, Arrive(c)).Step?
    ensures PollData(s, Arrive(c)).state.chunks.Keys !! later.Keys
    ensures Tiles(PollData(s, Arrive(c)).state.chunks + later, PollData(s, Arrive(c)).state.offset, hi)
  {
    PollAhead(s, c);
    Store(s.chunks, c, later);
    ArrivalAhead(s.(chunks := s.chunks[c.offset := c.data]), later, all, hi);
  }

  /** A poll delivering a piece ahead of the cursor stores it and then runs
      the drain step. */
  lemma PollAhead(s: RecvStream, c: Chunk)
    requires s.offset < c.offset
    ensures PollData(s, Arrive(c)) == Drain(s.(chunks := s.chunks[c.offset := c.data]), Pending)
  {
  }

  /** After a piece ahead of the cursor is stored, the drain step takes at
      most the piece at the cursor; either way the buffer with the pieces
      still to come tiles the rest. */
  lemma ArrivalAhead(t: RecvStream, later: map<nat, Bytes>, all: map<nat, Bytes>, hi: nat)
    requires t.chunks.Keys !! later.Keys && all == t.chunks + later
    requires Tiles(all, t.offset, hi) && t.offset < hi
    requires forall k :: k in all ==> t.offset <= k
    ensures Drain(t, Pending).Step?
    ensures Drain(t, Pending).state.chunks.Keys !! later.Keys
    ensures Tiles(Drain(t, Pending).state.chunks + later, Drain(t, Pending).state.offset, hi)
  {
    if CanDrain(t) {
      assert t.offset in t.chunks && MinKey(t.chunks.Keys) == t.offset by {
        var k := MinKey(t.chunks.Keys);
        assert k in all;
      }
      DrainAhead(t, later, all, hi);
    } else {
      assert Drain(t, Pending) == Step(t, Pending);
    }
  }

  /** The drain branch of `ArrivalAhead`: the smallest key is the cursor. */
  lemma DrainAhead(t: RecvStream, later: map<nat, Bytes>, all: map<nat, Bytes>, hi: nat)
    requires t.chunks.Keys !! later.Keys && all == t.chunks + later
    requires Tiles(all, t.offset, hi) && t.offset < hi
    requires t.offset in t.chunks && MinKey(t.chunks.Keys) == t.offset
    ensures Drain(t, Pending).Step?
    ensures Drain(t, Pending).state.chunks.Keys !! later.Keys
    ensures Tiles(Drain(t, Pending).state.chunks + later, Drain(t, Pending).state.offset, hi)
  {
    TakeAtCursor(t.chunks, later, all, t.offset, hi);
    var P := (r: RecvStream) => r.chunks.Keys !! later.Keys && Tiles(r.chunks + later, r.offset, hi);
    assert P(RecvStream(t.stream, t.offset + |t.chunks[t.offset]|, t.chunks - {t.offset}));
    DrainKeeps(t, P);
  }

  /** When the smallest buffered key is the cursor, the drain step hands
      out that whole entry and removes it. */
  lemma DrainTakes(t: RecvStream, tentative: DataPoll)
    requires t.offset in t.chunks && MinKey(t.chunks.Keys) == t.offset
    ensures Drain(t, tentative)
         == Step(RecvStream(t.stream, t.offset + |t.chunks[t.offset]|, t.chunks - {t.offset}), Ready(Ok(Some(t.chunks[t.offset]))))
  {
    var k: nat := t.offset;
    var d := t.chunks[k];
    assert d[0..] == d;
    assert Advance(d, 0) == Some(d);
    var u := t.(chunks := t.chunks - {k});
    assert Consume(u, k, d) == Step(RecvStream(t.stream, k + |d|, t.chunks - {k}), Ready(Ok(Some(d))));
    assert CanDrain(t);
  }

  /** Taking the piece at the cursor out of a buffer whose union with the
      pieces still to come tiles the rest of the stream keeps that tiling
      from the piece's end. */
  lemma TakeAtCursor(chunks: map<nat, Bytes>, later: map<nat, Bytes>, all: map<nat, Bytes>, lo: nat, hi: nat)
    requires chunks.Keys !! later.Keys && all == chunks + later
    requires Tiles(all, lo, hi) && lo < hi && lo in chunks
    ensures (chunks - {lo}).Keys !! later.Keys
    ensures Tiles((chunks - {lo}) + later, lo + |chunks[lo]|, hi)
  {
    TilesFirst(all, lo, hi);
    RemoveFromUnion(chunks, later, lo);
    assert chunks[lo] == all[lo];
  }

  /** Whatever holds of the state with the piece at the cursor handed out
      holds of the state after the drain step. As above, the property is a
      parameter so that callers reason about an explicit state rather than
      about `Drain`. */
  lemma DrainKeeps(t: RecvStream, P: RecvStream -> bool)
    requires t.offset in t.chunks && MinKey(t.chunks.Keys) == t.offset
    requires P(RecvStream(t.stream, t.offset + |t.chunks[t.offset]|, t.chunks - {t.offset}))
    ensures Drain(t, Pending).Step?
    ensures P(Drain(t, Pending).state)
  {
    DrainTakes(t, Pending);
  }

  /** One arriving chunk keeps the buffer and the chunks still to come a
      tiling of the rest of the stream. */
  lemma ArrivalStep(s: RecvStream, c: Chunk, later: map<nat, Bytes>, hi: nat)
    requires c.offset !in later && c.offset !in s.chunks
    requires s.chunks.Keys !! later.Keys
    requires Tiles((s.chunks + later)[c.offset := c.data], s.offset, hi)
    ensures PollData(s, Arrive(c)).Step?
    ensures PollData(s, Arrive(c)).state.chunks.Keys !! later.Keys
    ensures Tiles(PollData(s, Arrive(c)).state.chunks + later, PollData(s, Arrive(c)).state.offset, hi)
  {
    var all := (s.chunks + later)[c.offset := c.data];
    TilesKeysInRange(all, s.offset, hi);
    assert c.offset in all;
    if c.offset == s.offset {
      ArrivalAtCursor(s, c, later, hi);
    } else {
      ArrivalAheadPoll(s, c, later, all, hi);
    }
  }

  /** Arrivals of the remaining pieces, in the order given, keep the buffer
      a tiling of the part of the stream not yet handed out. */
  lemma {:induction false} ArrivalsKeepTiling(s: RecvStream, cs: seq<Chunk>, hi: nat)
    requires DistinctOffsets(cs)
    requires s.chunks.Keys !! AsMap(cs).Keys
    requires Tiles(s.chunks + AsMap(cs), s.offset, hi)
    ensures Run(s, Arrivals(cs)).Step?
    ensures Tiles(Run(s, Arrivals(cs)).state.chunks, Run(s, Arrivals(cs)).state.offset, hi)
    decreases |cs|
  {
    if cs == [] {
      assert s.chunks + AsMap(cs) == s.chunks;
      assert Arrivals(cs) == [];
    } else {
      var c := cs[0];
      var rest := cs[1..];
      var later := AsMap(rest);
      FirstArrival(s.chunks, cs);
      ArrivalStep(s, c, later, hi);
      var next := PollData(s, Arrive(c)).state;
      ArrivalsKeepTiling(next, rest, hi);
      ArrivalsCons(cs);
      RunUnfold(s, Arrivals(cs));
    }
  }

  /** The first chunk's offset is fresh for the rest, and the buffer, the
      first chunk and the rest together are the buffer with all chunks. */
  lemma FirstArrival(chunks: map<nat, Bytes>, cs: seq<Chunk>)
    requires cs != [] && DistinctOffsets(cs) && chunks.Keys !! AsMap(cs).Keys
    ensures DistinctOffsets(cs[1..])
    ensures cs[0].offset !in AsMap(cs[1..]) && cs[0].offset !in chunks
    ensures chunks.Keys !! AsMap(cs[1..]).Keys
    ensures (chunks + AsMap(cs[1..]))[cs[0].offset := cs[0].data] == chunks + AsMap(cs)
  {
    var c := cs[0];
    var rest := cs[1..];
    var later := AsMap(rest);
    AsMapKeys(rest, c.offset);
    assert later.Keys <= AsMap(cs).Keys;
    DistinctTail(cs);
  }

  lemma DistinctTail(cs: seq<Chunk>)
    requires cs != [] && DistinctOffsets(cs)
    ensures DistinctOffsets(cs[1..])
  {
    var rest := cs[1..];
    forall i, j | 0 <= i < j < |rest| ensures rest[i].offset != rest[j].offset {
      assert rest[i] == cs[i + 1] && rest[j] == cs[j + 1];
    }
  }

  lemma ArrivalsCons(cs: seq<Chunk>)
    requires cs != []
    ensures Arrivals(cs) != [] && Arrivals(cs)[0] == Arrive(cs[0]) && Arrivals(cs)[1..] == Arrivals(cs[1..])
  {
  }

  /** Once the buffer tiles the rest of the stream, polls on which the
      transport has nothing new drain it piece by piece, one per poll. */
  lemma {:induction false} PendingsDrain(s: RecvStream, hi: nat, n: nat)
    requires Tiles(s.chunks, s.offset, hi)
    requires hi - s.offset <= n
    ensures Run(s, Pendings(n)).Step?
    ensures Run(s, Pendings(n)).state.offset == hi
    ensures Run(s, Pendings(n)).state.chunks == map[]
    decreases n
  {
    if n == 0 {
      TilesKeysInRange(s.chunks, s.offset, hi);
      assert Pendings(n) == [];
    } else {
      var next := PendingNext(s, hi, n);
      PendingsDrain(next, hi, n - 1);
    }
  }

  /** The first of `n` polls with nothing new on a tiled buffer, split off
      the rest: it keeps the tiling and leaves at most `n - 1` bytes to go,
      and the run continues from the state it leaves. The contract names
      that state so that `PendingsDrain` never sees `PollData` itself. */
  lemma PendingNext(s: RecvStream, hi: nat, n: nat) returns (next: RecvStream)
    requires Tiles(s.chunks, s.offset, hi)
    requires 0 < n && hi - s.offset <= n
    ensures Tiles(next.chunks, next.offset, hi)
    ensures hi - next.offset <= n - 1
    ensures Run(next, Pendings(n - 1)).Step? ==>
      Run(s, Pendings(n)).Step? && Run(s, Pendings(n)).state == Run(next, Pendings(n - 1)).state
  {
    PendingStep(s, hi);
    next := PollData(s, Pending).state;
    if Run(next, Pendings(n - 1)).Step? {
      assert Pendings(n)[0] == Pending;
      assert Pendings(n)[1..] == Pendings(n - 1);
      RunUnfold(s, Pendings(n));
    }
  }

  /** A poll on which the transport has nothing new hands out the piece at
      the cursor, if any, and keeps the buffer a tiling of the rest. */
  lemma PendingStep(s: RecvStream, hi: nat)
    requires Tiles(s.chunks, s.offset, hi)
    ensures PollData(s, Pending).Step?
    ensures Tiles(PollData(s, Pending).state.chunks, PollData(s, Pending).state.offset, hi)
    ensures s.offset < hi ==> s.offset < PollData(s, Pending).state.offset
  {
    assert PollData(s, Pending) == Drain(s, Pending);
    TilesKeysInRange(s.chunks, s.offset, hi);
    if s.offset < hi {
      TilesFirst(s.chunks, s.offset, hi);
      assert MinKey(s.chunks.Keys) == s.offset by {
        var k := MinKey(s.chunks.Keys);
        assert k in s.chunks;
      }
      DrainTakes(s, Pending);
    } else {
      assert s.chunks == map[];
      assert Drain(s, Pending) == Step(s, Pending);
    }
  }

  /** Every answer of the arrivals-then-pendings run is faithful to `ref`. */
  lemma ArrivalsThenPendingsFaithful(ref: Bytes, cs: seq<Chunk>, n: nat)
    requires forall i :: 0 <= i < |cs| ==> SliceOf(ref, cs[i].offset, cs[i].data)
    ensures forall i :: 0 <= i < |cs| + n ==> Faithful(ref, (Arrivals(cs) + Pendings(n))[i])
  {
    var answers := Arrivals(cs) + Pendings(n);
    forall i | 0 <= i < |answers| ensures Faithful(ref, answers[i]) {
      if i < |cs| {
        assert answers[i] == Arrive(cs[i]);
      } else {
        assert answers[i] == Pending;
      }
    }
  }

  /** Whatever order the pieces of a stream arrive in, polling once per
      arrival and then once per remaining byte hands out the whole stream,
      in order, and leaves nothing buffered. */
  lemma AnyArrivalOrderYieldsStream(ref: Bytes, h: RecvHandle, cs: seq<Chunk>)
    requires DistinctOffsets(cs)
    requires Tiles(AsMap(cs), 0, |ref|)
    requires forall i :: 0 <= i < |cs| ==> SliceOf(ref, cs[i].offset, cs[i].data)
    ensures Run(New(h), Arrivals(cs) + Pendings(|ref|)) == Step(RecvStream(h, |ref|, map[]), ref)
  {
    var s := New(h);
    assert s.chunks + AsMap(cs) == AsMap(cs);
    ArrivalsKeepTiling(s, cs, |ref|);
    var mid := Run(s, Arrivals(cs)).state;
    PendingsDrain(mid, |ref|, |ref|);
    RunAppend(s, Arrivals(cs), Pendings(|ref|));
    ArrivalsThenPendingsFaithful(ref, cs, |ref|);
    var answers := Arrivals(cs) + Pendings(|ref|);
    RunYieldsNext(ref, s, answers);
    var fin := Run(mid, Pendings(|ref|)).state;
    assert fin == RecvStream(h, |ref|, map[]);
    assert Run(s, answers).state == fin;
    assert ref[0..|ref|] == ref;
  }

  /** Two pieces arriving in order: each poll hands out one piece, and once the
      transport reports the end, so does `poll_data`. */
  lemma InOrderScenario(h: RecvHandle, a: Bytes, b: Bytes)
    ensures PollData(New(h), Arrive(Chunk(a, 0))) == Step(RecvStream(h, |a|, map[]), Ready(Ok(Some(a))))
    ensures PollData(RecvStream(h, |a|, map[]), Arrive(Chunk(b, |a|)))
         == Step(RecvStream(h, |a| + |b|, map[]), Ready(Ok(Some(b))))
    ensures PollData(RecvStream(h, |a| + |b|, map[]), Ready(Ok(None)))
         == Step(RecvStream(h, |a| + |b|, map[]), Ready(Ok(None)))
  {
    assert a[0..] == a;
    assert b[0..] == b;
  }

  /** The second piece arriving first: it is buffered and the poll is
      pending; the first piece is then handed out at once, and the next poll
      drains the buffered piece without any new data from the transport. */
  lemma OutOfOrderScenario(h: RecvHandle, a: Bytes, b: Bytes)
    requires |a| > 0
    ensures PollData(New(h), Arrive(Chunk(b, |a|))) == Step(RecvStream(h, 0, map[|a| := b]), Pending)
    ensures PollData(RecvStream(h, 0, map[|a| := b]), Arrive(Chunk(a, 0)))
         == Step(RecvStream(h, |a|, map[|a| := b]), Ready(Ok(Some(a))))
    ensures PollData(RecvStream(h, |a|, map[|a| := b]), Pending)
         == Step(RecvStream(h, |a| + |b|, map[]), Ready(Ok(Some(b))))
  {
    assert a[0..] == a;
    assert b[0..] == b;
    var one := map[|a| := b];
    assert one.Keys == {|a|};
    assert MinKey(one.Keys) == |a|;
    assert one - {|a|} == map[];
  }

  /** Overlapping pieces: a piece buffered ahead of the cursor that ends
      before a longer piece from the cursor ends stays buffered, and the
      next poll panics trimming it, since it ends before the new cursor. (A
      buffered piece ending exactly at the new cursor is trimmed to an empty
      chunk instead.) The tiling lemmas above exclude this by asking for
      non-overlapping pieces. */
  lemma OverlapScenario(h: RecvHandle, a: Bytes, b: Bytes, k: nat)
    requires 0 < k && k + |b| < |a|
    ensures PollData(New(h), Arrive(Chunk(b, k))) == Step(RecvStream(h, 0, map[k := b]), Pending)
    ensures PollData(RecvStream(h, 0, map[k := b]), Arrive(Chunk(a, 0)))
         == Step(RecvStream(h, |a|, map[k := b]), Ready(Ok(Some(a))))
    ensures PollData(RecvStream(h, |a|, map[k := b]), Pending) == Panicked(AdvancePastEnd(|b|, |a| - k))
  {
    assert a[0..] == a;
    var one := map[k := b];
    assert one.Keys == {k};
    assert MinKey(one.Keys) == k;
  }

  /** An empty piece buffered at an offset inside a piece that later arrives
      from the cursor also ends before the new cursor, so the next poll
      panics trimming it. The tiling lemmas above exclude this by asking for
      non-empty pieces. */
  lemma EmptyPieceScenario(h: RecvHandle, a: Bytes, k: nat)
    requires 0 < k < |a|
    ensures PollData(New(h), Arrive(Chunk([], k))) == Step(RecvStream(h, 0, map[k := []]), Pending)
    ensures PollData(RecvStream(h, 0, map[k := []]), Arrive(Chunk(a, 0)))
         == Step(RecvStream(h, |a|, map[k := []]), Ready(Ok(Some(a))))
    ensures PollData(RecvStream(h, |a|, map[k := []]), Pending) == Panicked(AdvancePastEnd(0, |a| - k))
  {
    assert a[0..] == a;
    var one: map<nat, Bytes> := map[k := []];
    assert one.Keys == {k};
    assert MinKey(one.Keys) == k;
  }

  /** A drain can also move the cursor past a buffered piece: with two
      pieces buffered, the in-order piece is handed out, the next poll drains
      the smaller key past the end of the other piece, and the poll after
      that panics trimming it. */
  lemma DrainPassesScenario(h: RecvHandle, a: Bytes, b: Bytes, e: Bytes, k: nat)
    requires 0 < |a| < k && k + |e| < |a| + |b|
    ensures PollData(RecvStream(h, 0, map[|a| := b, k := e]), Arrive(Chunk(a, 0)))
         == Step(RecvStream(h, |a|, map[|a| := b, k := e]), Ready(Ok(Some(a))))
    ensures PollData(RecvStream(h, |a|, map[|a| := b, k := e]), Pending)
         == Step(RecvStream(h, |a| + |b|, map[k := e]), Ready(Ok(Some(b))))
    ensures PollData(RecvStream(h, |a| + |b|, map[k := e]), Pending)
         == Panicked(AdvancePastEnd(|e|, |a| + |b| - k))
  {
    assert a[0..] == a;
    assert b[0..] == b;
    var two: map<nat, Bytes> := map[|a| := b, k := e];
    assert two.Keys == {|a|, k};
    assert MinKey(two.Keys) == |a|;
    assert two - {|a|} == map[k := e];
    var one: map<nat, Bytes> := map[k := e];
    assert one.Keys == {k};
    assert MinKey(one.Keys) == k;
  }
}

# h3-quinn stream adapter, modelled in Dafny

`h3-quinn` adapts QUIC connections and streams from the quinn transport to the
poll-based connection and stream traits of the `h3` HTTP/3 library. Under its
async plumbing are three small sequential state machines. This project models
each one as a pure transition function. The function takes the adapter's state
and the transport's answer to the one poll it makes (`Pending`, `Ready(value)`
or an error). It returns the new state and what the adapter hands back. A
`Panicked` outcome stands for a Rust panic.

- **Receive-side reorder buffer** (`Recv`, `RecvOrder`, `RecvReassembly`).
  `RecvStream` holds a cursor `offset` and a map from start offset to chunks
  that arrived ahead of the cursor. `PollData` is `poll_data`:
  - a chunk at or behind the cursor is trimmed and handed out at once;
  - a chunk ahead of the cursor is stored under its start offset;
  - then the smallest buffered key is drained if it is at or behind the cursor.

  `RecvOrder` fixes a reference byte stream `ref`, the bytes the peer wrote.
  It proves that if every chunk the transport delivers is a slice of `ref`,
  then as long as no poll panics, everything handed out, concatenated, is
  exactly `ref` up to the cursor. Slices of `ref` can still make a poll panic.
  A buffered chunk whose end the cursor has already passed panics the poll
  whose drain step takes it, whether an in-order chunk or an earlier drain
  moved the cursor (`RecvReassembly.DrainPassesScenario`). That happens when
  a longer chunk overlaps it (`RecvReassembly.OverlapScenario`) and when it
  is empty (`RecvReassembly.EmptyPieceScenario`). `RecvReassembly` proves
  completeness. If the stream is cut into non-empty, non-overlapping pieces that
  arrive in any order, one poll per arrival followed by polls with nothing new
  hands out the whole stream and empties the buffer.
- **Single-slot send adapter** (`Send`). `SendStream.writing` is an `Option`
  slot. `SendData` refuses with `NotReady` while the slot is full.
  `PollReady` empties the slot only when the write finishes or the slot was
  already empty. Over any run of calls the slot holds at most one buffer, and
  the buffers it sees a write of finish are the accepted ones in acceptance
  order. Whether each buffer reached the peer whole is not modelled (see
  "Left out").
- **Connection adapter** (`Conn`). It accepts incoming streams and opens
  outgoing ones, and issues a new open only while the direction's slot is
  `None`. Because the slot is never emptied, each direction issues at most one
  open over the connection's whole life.
- **Bidirectional stream** (`Bidi`). It pairs the two halves. Each of its
  operations acts on one half only, and `split` commutes with all of them.
- **Error codes** (`VarInt`, `Send.ResetCode`, `Recv.StopSending`). QUIC
  variable-length integers are at most 2^62 - 1 (section 16 of RFC 9000).
  `reset` clamps a larger code to that maximum; `stop_sending` panics on it.

The transport is abstract. Stream and connection handles are opaque ids, and
transport errors are opaque values. Each quinn primitive the adapter polls is
a parameter holding the answer of that one poll: `read_unordered`,
`write_all`, `open_bi`, `open_uni` and the incoming-stream sources.

The model keeps these behaviours of the code, which a reader might not expect:
- A chunk that ends before the cursor makes `Bytes::advance` panic (lines
  208 and 228), an empty chunk behind the cursor included. It is not
  yielded as an empty chunk.
- A read error returns early and keeps the buffered chunks (line 205). They
  are not discarded.
- `opening_bi` and `opening_uni` are never reset to `None` after an open
  completes (lines 77-85 and 103-108).
- More than one buffered key can lie at or behind the cursor. Only the
  smallest is drained per poll (lines 220-225).
- Storing a chunk overwrites any buffered chunk with the same start offset
  (line 214).
- A failed write leaves the buffer in `writing` (line 294).

## Model

| member | source | states |
|---|---|---|
| Recv.New | h3-quinn/src/lib.rs:184-191 | A fresh receive stream has cursor 0 and an empty buffer |
| Recv.Advance | h3-quinn/src/lib.rs:208 | `advance(n)` succeeds exactly when `n` is at most the length; the dropped prefix and the result put back together are the original bytes |
| Recv.MinKey | h3-quinn/src/lib.rs:220-225 | The key the drain step looks at is in the buffer and no buffered key is smaller |
| Recv.Consume | h3-quinn/src/lib.rs:207-211 | A chunk starting at or behind the cursor panics exactly when it ends before the cursor; otherwise it yields its part from the cursor on, moves the cursor to the chunk's end and leaves the buffer unchanged |
| Recv.Drain | h3-quinn/src/lib.rs:219-233 | If the smallest buffered key is at or behind the cursor, that entry alone is removed and yielded trimmed, overriding the tentative answer; otherwise the tentative answer is returned and nothing changes |
| Recv.PollData | h3-quinn/src/lib.rs:198-234 | The cursor never decreases and advances by exactly the bytes handed out. A read error is passed on with the buffer kept. An in-order chunk is trimmed and yielded with the buffer untouched. An ahead chunk is stored under its start key, replacing any entry there. Pending and end of stream fall through to the drain of the smallest key |
| Recv.StopSending | h3-quinn/src/lib.rs:236-240 | Panics exactly when the code exceeds 2^62 - 1; otherwise sends that code on this stream and changes no adapter state |
| RecvOrder.ConsumeYieldsNext | h3-quinn/src/lib.rs:207-210 | Trimming a faithful chunk yields exactly the reference bytes between the old and new cursor |
| RecvOrder.DrainYieldsNext | h3-quinn/src/lib.rs:219-231 | Draining a faithful buffer yields the next reference bytes and leaves every buffered entry faithful |
| RecvOrder.PollDataKeepsOrder | h3-quinn/src/lib.rs:198-234 | One poll with a faithful transport answer keeps every buffered chunk a slice of the reference stream and hands out exactly the reference bytes from the old cursor to the new one |
| RecvOrder.Run | h3-quinn/src/lib.rs:198-234 | Over repeated polls the cursor moves by exactly the total number of bytes handed out |
| RecvOrder.RunYieldsNext | h3-quinn/src/lib.rs:198-234 | Over any sequence of faithful answers, in any arrival order, on which no poll panics, the concatenation of all bytes handed out equals the reference stream between the first and last cursor |
| RecvOrder.FreshStreamYieldsPrefix | h3-quinn/src/lib.rs:184-234 | From a fresh stream, as long as no poll panics, the bytes handed out are exactly the reference prefix up to the cursor, the cursor stays within the stream, and within the 64-bit range when the stream respects the QUIC bound |
| RecvReassembly.DrainTakes | h3-quinn/src/lib.rs:219-231 | When the smallest buffered key is exactly the cursor, the drain step hands out that whole entry, removes it and moves the cursor to its end |
| RecvReassembly.ArrivalAtCursor | h3-quinn/src/lib.rs:207-211 | The piece starting at the cursor is handed out whole without touching the buffer, and the rest of the stream stays tiled |
| RecvReassembly.PendingStep | h3-quinn/src/lib.rs:202-233 | A poll with nothing new from the transport never panics on a tiled buffer, keeps it tiled, and moves the cursor forward while the stream is unfinished |
| RecvReassembly.ArrivalStep | h3-quinn/src/lib.rs:202-231 | When the buffer and the pieces still to come tile the rest of the stream, one arrival never panics and keeps that tiling |
| RecvReassembly.ArrivalsKeepTiling | h3-quinn/src/lib.rs:202-231 | Any order of arrivals of the remaining pieces keeps the buffer a tiling of the part of the stream not yet handed out |
| RecvReassembly.PendingsDrain | h3-quinn/src/lib.rs:219-231 | Polls on which the transport has nothing new drain a tiling buffer piece by piece until the cursor reaches the stream's end and the buffer is empty |
| RecvReassembly.RunAppend | h3-quinn/src/lib.rs:198-234 | Polling through two stretches of transport answers hands out the first stretch's bytes followed by the second's |
| RecvReassembly.AnyArrivalOrderYieldsStream | h3-quinn/src/lib.rs:198-234 | Whatever order the non-empty, non-overlapping pieces of a stream arrive in, one poll per arrival followed by one poll with nothing new per byte of the stream hands out exactly the whole stream, in order, and ends with an empty buffer; schedules that interleave other answers between arrivals are not covered |
| RecvReassembly.InOrderScenario | h3-quinn/src/lib.rs:202-211 | Two pieces arriving in order are handed out one per poll, and then the end of the stream is reported |
| RecvReassembly.OutOfOrderScenario | h3-quinn/src/lib.rs:202-233 | A piece arriving ahead is buffered and the poll is pending; the missing piece is then handed out at once, and the next pending poll drains the buffered piece |
| RecvReassembly.OverlapScenario | h3-quinn/src/lib.rs:202-231 | A buffered piece that ends before a longer in-order piece ends stays buffered, and the next poll with nothing new panics trimming it |
| RecvReassembly.DrainPassesScenario | h3-quinn/src/lib.rs:202-231 | With two pieces buffered, draining the smaller key can move the cursor past the end of the other piece, and the poll whose drain step takes that piece panics |
| RecvReassembly.EmptyPieceScenario | h3-quinn/src/lib.rs:202-231 | An empty piece buffered at an offset inside a piece that later arrives in order stays buffered, and the next poll with nothing new panics trimming it |
| Send.New | h3-quinn/src/lib.rs:277-282 | A fresh send stream has an empty slot |
| Send.PollReady | h3-quinn/src/lib.rs:292-298 | The slot is emptied exactly when it was empty or the write finished, and the answer is ready exactly then; a pending or failed write keeps the same buffer and answers pending or the wrapped error |
| Send.SendData | h3-quinn/src/lib.rs:310-316 | Accepted exactly when the slot is empty, and then the slot holds the new buffer; otherwise `NotReady` with the state unchanged |
| Send.ResetCode | h3-quinn/src/lib.rs:304-308 | The code sent is never larger than the code given, and differs from it only by being 2^62 - 1 |
| Send.ResetCodeIsGreatest | h3-quinn/src/lib.rs:307 | No valid code not above the given one is larger than the code sent |
| Send.Reset | h3-quinn/src/lib.rs:304-308 | Never fails, changes no adapter state, and sends the code itself if at most 2^62 - 1 and 2^62 - 1 otherwise |
| Send.Drive | h3-quinn/src/lib.rs:292-316 | Any run of calls keeps the stream's transport handle |
| Send.DriveKeepsSingleSlot | h3-quinn/src/lib.rs:292-316 | Over any run of calls, the slot holds exactly the accepted buffers whose write it has not yet seen finish (none, or the last accepted), so at most one buffer is pending |
| Send.FreshStreamWritesInOrder | h3-quinn/src/lib.rs:277-316 | From a fresh stream, the buffers the slot saw a write of finish are the accepted buffers in acceptance order, missing at most the last |
| Bidi.New | h3-quinn/src/lib.rs:67-70 | A stream pair is wrapped as a fresh send half and a fresh receive half on the given handles |
| Bidi.Split | h3-quinn/src/lib.rs:129-131 | Splitting hands out the two halves unchanged; reassembling them gives back the stream |
| Bidi.PollData | h3-quinn/src/lib.rs:142-147 | Acts on the receive half exactly as the receive stream does and leaves the send half unchanged |
| Bidi.StopSending | h3-quinn/src/lib.rs:149-151 | Panics exactly when the receive stream would, and otherwise sends the same signal with no state change |
| Bidi.PollReady | h3-quinn/src/lib.rs:161-163 | Acts on the send half exactly as the send stream does and leaves the receive half unchanged; the composite is ready exactly when its send slot ends up empty |
| Bidi.Reset | h3-quinn/src/lib.rs:169-171 | Sends the clamped reset code on the send half and changes nothing |
| Bidi.SendData | h3-quinn/src/lib.rs:173-175 | Acts on the send half exactly as the send stream does and leaves the receive half unchanged; accepted exactly when the send slot was empty, and then the slot holds the data |
| Bidi.SplitIsIndependent | h3-quinn/src/lib.rs:129-175 | Acting on the composite and then splitting equals splitting first and acting on the half concerned; the other half is untouched |
| Conn.New | h3-quinn/src/lib.rs:31-46 | A new connection adapter has no open in flight in either direction |
| Conn.PollAcceptBidi | h3-quinn/src/lib.rs:59-71 | Pending while the source is; exhaustion becomes `Ok(None)`; errors are passed on; an incoming pair becomes a fresh bidirectional stream; the connection is unchanged |
| Conn.PollAcceptRecv | h3-quinn/src/lib.rs:88-97 | The same for incoming unidirectional streams, handed out as fresh receive streams |
| Conn.PollOpenBidi | h3-quinn/src/lib.rs:73-86 | Issues an open exactly when the slot is empty; the slot is full after every call, even after completion; the other direction is untouched; completion yields a fresh bidirectional stream and errors are passed on |
| Conn.PollOpenSend | h3-quinn/src/lib.rs:99-109 | The same for the unidirectional slot, yielding a fresh send stream |
| Conn.Drive | h3-quinn/src/lib.rs:59-109 | Any run of connection calls keeps the connection handle and never empties a filled open slot |
| Conn.AtMostOneOpenPerDirection | h3-quinn/src/lib.rs:73-109 | However accept and open calls interleave and whatever the transport answers, each direction issues at most one open in total, and none once its slot is filled |
| Conn.RepeatedOpenIssuesOnce | h3-quinn/src/lib.rs:77-81 | Repeated polls of a bidirectional open from an empty slot issue exactly one open |

## Left out

- `poll_finish` (lines 300-302) only passes the transport's answer through, so it is not modelled. `BidiStream`'s delegation of it (lines 165-167) is left out with it.
- The `Display`, `Error` and `From` implementations (lines 243-337) are trivial wrappers. Only the wrapping itself appears, as `ReadError(cause)` and `Write(cause)`.
- quinn's internals are abstract: `read_unordered`, `write_all`, `finish`, `open_bi`, `open_uni`, the incoming-stream sources and `VarInt`'s encoding. Each poll of one is an abstract answer passed as a parameter.
- Task contexts, wakers, `ready!` and future polling mechanics are left out. These are the concurrency plumbing, not state.
- `Send.PollReady`: what one poll of `write_all(data.bytes())` transmits is not modelled (line 294). The write is abstracted as pending, failed or finished. Two effects of the code are therefore invisible in the model. First, every poll builds a new `write_all` future over the whole buffer and `data` is never advanced, so a write that answered pending starts again from the buffer's first byte on the next poll. Second, `bytes()` is only the first contiguous slice of the buffer, so for a non-contiguous buffer only that slice is written before the slot is emptied (line 296). The ledger's `written` therefore records that the slot saw a write finish, not that the peer received the buffer once, whole and in order.
- The connection's `incoming_bi` and `incoming_uni` fields are not part of `Conn.Connection`. The adapter never reassigns them; polling takes the next item from them, and that answer is a parameter.
- The `Session` generic and the crypto types are left out. They do not affect the adapter's logic.
- The test module (lines 339-405) needs certificates, UDP endpoints and a runtime, so it is left out.
- Recv.PollData: offsets are unbounded naturals. The 64-bit addition on the cursor (lines 209 and 229) is not wrapped. Instead, `RecvOrder.FreshStreamYieldsPrefix` shows the cursor never passes the end of the stream. A QUIC stream never extends past 2^62 - 1 (section 19.8 of RFC 9000). The `as usize` casts at lines 208 and 228 are taken as lossless, as on 64-bit targets.

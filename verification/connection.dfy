/** The connection adapter: accepts incoming streams and opens outgoing ones,
    keeping at most one in-flight open per direction. The incoming-stream
    sources and the open futures belong to the transport; what polling them
    answers is a parameter of each operation. */
module Conn {
  import opened Async
  import opened Transport
  import Recv
  import Send
  import Bidi

  /** An open in flight on the transport connection (the future `open_bi`
      or `open_uni` returned). */
  datatype OpenBi = OpenBi(conn: ConnHandle)
  datatype OpenUni = OpenUni(conn: ConnHandle)

  datatype Connection = Connection(conn: ConnHandle, openingBi: Option<OpenBi>, openingUni: Option<OpenUni>)

  /** What polling the incoming-stream source answers: nothing yet, the source
      is exhausted, a transport error, or a new stream. */
  type IncomingBiPoll = Poll<Option<Result<(SendHandle, RecvHandle), ConnectionError>>>
  type IncomingUniPoll = Poll<Option<Result<RecvHandle, ConnectionError>>>

  /** What polling an in-flight open answers. */
  type OpenBiPoll = Poll<Result<(SendHandle, RecvHandle), ConnectionError>>
  type OpenUniPoll = Poll<Result<SendHandle, ConnectionError>>

  /** The answer of an open poll, with whether this call issued a new open on
      the transport connection. */
  datatype Opening<T> = Opening(issued: bool, poll: Poll<Result<T, ConnectionError>>)

  /** A connection adapter over a newly established connection: no open in flight. */
  function New(conn: ConnHandle): (c: Connection)
    ensures c.conn == conn && c.openingBi.None? && c.openingUni.None?
  {
    Connection(conn, None, None)
  }

  /** `poll_accept_bidi_stream`: wrap the next incoming stream pair as a fresh
      bidirectional stream; pass on exhaustion and errors. Leaves the
      connection as it is. */
  function PollAcceptBidi<B>(c: Connection, next: IncomingBiPoll): (r: Step<Connection, Poll<Result<Option<Bidi.BidiStream<B>>, ConnectionError>>>)
    ensures r.Step? && r.state == c
    ensures r.out.Pending? <==> next.Pending?
    ensures next == Ready(None) ==> r.out == Ready(Ok(None))
    ensures next.Ready? && next.value.Some? && next.value.value.Err? ==> r.out == Ready(Err(next.value.value.error))
    ensures next.Ready? && next.value.Some? && next.value.value.Ok? ==>
      var (sh, rh) := next.value.value.value;
      r.out == Ready(Ok(Some(Bidi.New(sh, rh))))
  {
    match next
    case Pending => Step(c, Pending)
    case Ready(None) => Step(c, Ready(Ok(None)))
    case Ready(Some(Err(e))) => Step(c, Ready(Err(e)))
    case Ready(Some(Ok((sh, rh)))) => Step(c, Ready(Ok(Some(Bidi.New(sh, rh)))))
  }

  /** `poll_accept_recv_stream`: the same for incoming unidirectional streams. */
  function PollAcceptRecv(c: Connection, next: IncomingUniPoll): (r: Step<Connection, Poll<Result<Option<Recv.RecvStream>, ConnectionError>>>)
    ensures r.Step? && r.state == c
    ensures r.out.Pending? <==> next.Pending?
    ensures next == Ready(None) ==> r.out == Ready(Ok(None))
    ensures next.Ready? && next.value.Some? && next.value.value.Err? ==> r.out == Ready(Err(next.value.value.error))
    ensures next.Ready? && next.value.Some? && next.value.value.Ok? ==>
      r.out == Ready(Ok(Some(Recv.New(next.value.value.value))))
  {
    match next
    case Pending => Step(c, Pending)
    case Ready(None) => Step(c, Ready(Ok(None)))
    case Ready(Some(Err(e))) => Step(c, Ready(Err(e)))
    case Ready(Some(Ok(rh))) => Step(c, Ready(Ok(Some(Recv.New(rh)))))
  }

  /** `poll_open_bidi_stream`: issue an open only when none is in flight, then
      poll the one in the slot. The slot is never emptied, also not when the
      open completes; the unidirectional slot is not touched. */
  function PollOpenBidi<B>(c: Connection, answer: OpenBiPoll): (r: Step<Connection, Opening<Bidi.BidiStream<B>>>)
    ensures r.Step? && r.state.conn == c.conn && r.state.openingUni == c.openingUni
    ensures r.state.openingBi.Some?
    ensures r.out.issued <==> c.openingBi.None?
    ensures c.openingBi.Some? ==> r.state == c
    ensures r.out.poll.Pending? <==> answer.Pending?
    ensures answer.Ready? && answer.value.Err? ==> r.out.poll == Ready(Err(answer.value.error))
    ensures answer.Ready? && answer.value.Ok? ==>
      var (sh, rh) := answer.value.value;
      r.out.poll == Ready(Ok(Bidi.New(sh, rh)))
  {
    var issued := c.openingBi.None?;
    var c' := if issued then c.(openingBi := Some(OpenBi(c.conn))) else c;
    match answer
    case Pending => Step(c', Opening(issued, Pending))
    case Ready(Err(e)) => Step(c', Opening(issued, Ready(Err(e))))
    case Ready(Ok((sh, rh))) => Step(c', Opening(issued, Ready(Ok(Bidi.New(sh, rh)))))
  }

  /** `poll_open_send_stream`: the same for outgoing unidirectional streams. */
  function PollOpenSend<B>(c: Connection, answer: OpenUniPoll): (r: Step<Connection, Opening<Send.SendStream<B>>>)
    ensures r.Step? && r.state.conn == c.conn && r.state.openingBi == c.openingBi
    ensures r.state.openingUni.Some?
    ensures r.out.issued <==> c.openingUni.None?
    ensures c.openingUni.Some? ==> r.state == c
    ensures r.out.poll.Pending? <==> answer.Pending?
    ensures answer.Ready? && answer.value.Err? ==> r.out.poll == Ready(Err(answer.value.error))
    ensures answer.Ready? && answer.value.Ok? ==> r.out.poll == Ready(Ok(Send.New(answer.value.value)))
  {
    var issued := c.openingUni.None?;
    var c' := if issued then c.(openingUni := Some(OpenUni(c.conn))) else c;
    match answer
    case Pending => Step(c', Opening(issued, Pending))
    case Ready(Err(e)) => Step(c', Opening(issued, Ready(Err(e))))
    case Ready(Ok(sh)) => Step(c', Opening(issued, Ready(Ok(Send.New(sh)))))
  }

  /** A call a caller makes on the connection, with the transport's answer to
      the poll it makes. */
  datatype Call =
    | AcceptBidi(next: IncomingBiPoll)
    | OpenBidi(answer: OpenBiPoll)
    | AcceptRecv(nextUni: IncomingUniPoll)
    | OpenSend(answerUni: OpenUniPoll)

  /** Opens issued in each direction while running `calls`. */
  datatype Issued = Issued(bi: nat, uni: nat)

  /** Run `calls` in order, counting the opens issued. The buffer type of the
      streams handed out does not matter for the count and is fixed to bytes. */
  function Drive(c: Connection, calls: seq<Call>): (r: (Connection, Issued))
    ensures r.0.conn == c.conn
    ensures c.openingBi.Some? ==> r.0.openingBi == c.openingBi
    ensures c.openingUni.Some? ==> r.0.openingUni == c.openingUni
    decreases |calls|
  {
    if calls == [] then (c, Issued(0, 0))
    else
      var (c', bi, uni) :=
        match calls[0]
        case AcceptBidi(next) => (PollAcceptBidi<Bytes>(c, next).state, 0, 0)
        case OpenBidi(answer) =>
          var r := PollOpenBidi<Bytes>(c, answer);
          (r.state, if r.out.issued then 1 else 0, 0)
        case AcceptRecv(next) => (PollAcceptRecv(c, next).state, 0, 0)
        case OpenSend(answer) =>
          var r := PollOpenSend<Bytes>(c, answer);
          (r.state, 0, if r.out.issued then 1 else 0);
      var (last, rest) := Drive(c', calls[1..]);
      (last, Issued(bi + rest.bi, uni + rest.uni))
  }

  /** However the calls interleave and whatever the transport answers, each
      direction issues at most one open over the connection's life, and none
      once its slot is filled. */
  lemma {:induction false} AtMostOneOpenPerDirection(c: Connection, calls: seq<Call>)
    ensures Drive(c, calls).1.bi <= (if c.openingBi.None? then 1 else 0)
    ensures Drive(c, calls).1.uni <= (if c.openingUni.None? then 1 else 0)
    decreases |calls|
  {
    if calls != [] {
      match calls[0]
      case AcceptBidi(next) => AtMostOneOpenPerDirection(PollAcceptBidi<Bytes>(c, next).state, calls[1..]);
      case OpenBidi(answer) => AtMostOneOpenPerDirection(PollOpenBidi<Bytes>(c, answer).state, calls[1..]);
      case AcceptRecv(next) => AtMostOneOpenPerDirection(PollAcceptRecv(c, next).state, calls[1..]);
      case OpenSend(answer) => AtMostOneOpenPerDirection(PollOpenSend<Bytes>(c, answer).state, calls[1..]);
    }
  }

  /** Repeated polls of an open, however many stay pending, issue exactly one
      open when none was in flight. */
  lemma {:induction false} RepeatedOpenIssuesOnce(c: Connection, polls: seq<OpenBiPoll>)
    requires c.openingBi.None? && |polls| > 0
    ensures Drive(c, seq(|polls|, i requires 0 <= i < |polls| => OpenBidi(polls[i]))).1.bi == 1
  {
    var calls := seq(|polls|, i requires 0 <= i < |polls| => OpenBidi(polls[i]));
    var r := PollOpenBidi<Bytes>(c, polls[0]);
    AtMostOneOpenPerDirection(r.state, calls[1..]);
    assert calls[0] == OpenBidi(polls[0]);
  }
}

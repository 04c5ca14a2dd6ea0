/** A bidirectional stream: one send half and one receive half. Every
    operation on it is the same operation on the half it concerns, and
    `split` hands both halves out as they are. */
module Bidi {
  import opened Async
  import opened VarInt
  import opened Transport
  import Recv
  import Send

  datatype BidiStream<B> = BidiStream(send: Send.SendStream<B>, recv: Recv.RecvStream)

  /** A fresh stream over the two transport halves. */
  function New<B>(sh: SendHandle, rh: RecvHandle): (b: BidiStream<B>)
    ensures b.send.stream == sh && b.send.writing.None?
    ensures b.recv.stream == rh && b.recv.offset == 0 && b.recv.chunks == map[]
  {
    BidiStream(Send.New(sh), Recv.New(rh))
  }

  /** `split`: give up the composite for its two independent halves. */
  function Split<B>(b: BidiStream<B>): (halves: (Send.SendStream<B>, Recv.RecvStream))
    ensures BidiStream(halves.0, halves.1) == b
  {
    (b.send, b.recv)
  }

  function PollData<B>(b: BidiStream<B>, read: Recv.ReadPoll): (r: Step<BidiStream<B>, Recv.DataPoll>)
    ensures r.Step? <==> Recv.PollData(b.recv, read).Step?
    ensures r.Step? ==> r.state.send == b.send && r.state.recv == Recv.PollData(b.recv, read).state
    ensures r.Step? ==> r.out == Recv.PollData(b.recv, read).out
  {
    match Recv.PollData(b.recv, read)
    case Panicked(p) => Panicked(p)
    case Step(recv, out) => Step(b.(recv := recv), out)
  }

  function StopSending<B>(b: BidiStream<B>, code: u64): (r: Step<BidiStream<B>, Signal>)
    ensures r.Panicked? <==> code > MAX
    ensures r.Step? ==> r.state == b && r.out == Signal.StopSending(b.recv.stream, code)
  {
    match Recv.StopSending(b.recv, code)
    case Panicked(p) => Panicked(p)
    case Step(recv, out) => Step(b.(recv := recv), out)
  }

  function PollReady<B(==)>(b: BidiStream<B>, write: Send.WritePoll): (r: Step<BidiStream<B>, Send.ReadyPoll>)
    ensures r.Step? && r.state.recv == b.recv
    ensures r.state.send == Send.PollReady(b.send, write).state
    ensures r.out == Send.PollReady(b.send, write).out
    ensures r.out == Ready(Ok(())) <==> r.state.send.writing.None?
  {
    var step := Send.PollReady(b.send, write);
    Step(b.(send := step.state), step.out)
  }

  function SendData<B(==)>(b: BidiStream<B>, data: B): (r: Step<BidiStream<B>, Result<(), Send.SendStreamError>>)
    ensures r.Step? && r.state.recv == b.recv
    ensures r.state.send == Send.SendData(b.send, data).state
    ensures r.out == Send.SendData(b.send, data).out
    ensures r.out.Ok? <==> b.send.writing.None?
    ensures r.out.Ok? ==> r.state.send.writing == Some(data)
  {
    var step := Send.SendData(b.send, data);
    Step(b.(send := step.state), step.out)
  }

  function Reset<B(==)>(b: BidiStream<B>, code: u64): (r: Step<BidiStream<B>, Signal>)
    ensures r.Step? && r.state == b
    ensures r.out == ResetStream(b.send.stream, Send.ResetCode(code))
  {
    var step := Send.Reset(b.send, code);
    Step(b.(send := step.state), step.out)
  }

  /** Splitting commutes with every operation: acting on the composite and
      then splitting gives the halves one gets by splitting first and acting
      on the half concerned, the other half untouched. Resetting the send
      half never disturbs reading, and stopping the receive half never
      disturbs writing. */
  lemma SplitIsIndependent<B>(b: BidiStream<B>, read: Recv.ReadPoll, write: Send.WritePoll, data: B, code: u64)
    ensures Recv.PollData(b.recv, read).Step? ==>
      Split(PollData(b, read).state) == (Split(b).0, Recv.PollData(Split(b).1, read).state)
    ensures code <= MAX ==>
      Split(StopSending(b, code).state) == (Split(b).0, Recv.StopSending(Split(b).1, code).state)
    ensures Split(PollReady(b, write).state) == (Send.PollReady(Split(b).0, write).state, Split(b).1)
    ensures Split(SendData(b, data).state) == (Send.SendData(Split(b).0, data).state, Split(b).1)
    ensures Split(Reset(b, code).state) == (Send.Reset(Split(b).0, code).state, Split(b).1)
  {
  }
}

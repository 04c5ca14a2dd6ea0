/** What the adapter sees of the QUIC transport: opaque handles, the
    transport's own error values, chunks of received bytes and the
    fire-and-forget signals it can send. The transport's behaviour itself is
    not modelled; each of its answers is a parameter of the operation that
    polls it. */
module Transport {
  import opened VarInt

  type byte = bv8

  type Bytes = seq<byte>

  datatype ConnHandle = ConnHandle(id: nat)
  datatype SendHandle = SendHandle(id: nat)
  datatype RecvHandle = RecvHandle(id: nat)

  /** Causes reported by the transport; their detail does not matter here. */
  datatype ConnectionError = ConnectionError(cause: nat)
  datatype QuinnReadError = QuinnReadError(cause: nat)
  datatype WriteError = WriteError(cause: nat)

  /** Bytes delivered by an unordered read, tagged with the stream offset of
      their first byte. */
  datatype Chunk = Chunk(data: Bytes, offset: nat)

  /** Advisory signals handed to the transport; their delivery is not observed. */
  datatype Signal =
    | StopSending(recv: RecvHandle, code: VarInt)
    | ResetStream(send: SendHandle, code: VarInt)
}

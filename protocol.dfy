/** The message vocabulary shared by channels and the handler: opcodes,
    payload bytes, and the two framings (client and server) of the
    WebSocket protocol. The codec that turns frames into bytes is not
    modelled; only which framing a channel asks it for. */
module Protocol {

  newtype Byte = x: int | 0 <= x < 256

  /** An operation code as the codec reports it (a byte on the wire). */
  newtype OpCode = x: int | 0 <= x < 256

  /** The two opcodes surfaced to the application, as numbered in the
      opcode table of section 5.2 of RFC 6455. */
  const OpText: OpCode := 0x1
  const OpBinary: OpCode := 0x2

  /** One application message: what the received-callback is handed. */
  datatype Message = Message(op: OpCode, data: seq<Byte>)

  /** Frames written by a client endpoint, or frames written by a server
      endpoint. Section 5.3 of RFC 6455: every frame a client sends is
      masked, no frame a server sends is. */
  datatype Framing = ClientFrames | ServerFrames

  predicate Masked(f: Framing) {
    f == ClientFrames
  }

  /** The framing a channel writes with: a client channel writes client
      (masked) frames, a server channel writes server frames. */
  function WriteFraming(isClient: bool): (f: Framing)
    ensures Masked(f) <==> isClient
  {
    if isClient then ClientFrames else ServerFrames
  }

  /** The framing a channel expects when reading: the frames its peer,
      which plays the other role, writes. */
  function ReadFraming(isClient: bool): (f: Framing)
    ensures Masked(f) <==> !isClient
  {
    if isClient then ServerFrames else ClientFrames
  }

  /** A channel reads exactly what a channel of the opposite role writes,
      and never what it writes itself. */
  lemma ReadFramingIsPeerWriteFraming(isClient: bool)
    ensures ReadFraming(isClient) == WriteFraming(!isClient)
    ensures ReadFraming(isClient) != WriteFraming(isClient)
  {
  }

  /** What the codec's decoder yields for one read: a message, or an
      error (transport failure or malformed frame). */
  datatype DecodeResult = Decoded(msg: Message) | DecodeError(code: nat)

  /** One frame handed to the codec's writer. */
  datatype Frame = Frame(framing: Framing, msg: Message)

  /** An error reported by the network layer (socket, dial, handshake). */
  datatype IoError = IoError(code: nat)
}

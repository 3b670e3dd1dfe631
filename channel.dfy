/** One WebSocket connection (websocket/channel.go): its role, its
    set-once closed flag, its replaceable close-callback, and the two
    things that happen on it, reading one message and closing.

    The abstract state of a channel is the value `ChannelState`; the
    functions `AfterClose`, `AfterSetOnClose`, `AfterRead` and `AfterSend`
    are its transitions, and the class `Channel` is the object the source
    mutates, each method proved to perform the matching transition.
    Callbacks are recorded, not run: `closeCalls` lists every invocation
    of the close-callback, `received` every message handed to the
    handler's received-callback with this channel, `sent` every frame
    handed to the codec's writer. */
module Channels {
  import opened Wrappers
  import opened Protocol

  /** The socket a channel is layered over (an opaque handle). */
  type Conn = nat

  /** A close-callback, known only by its identity. */
  datatype Callback = Callback(id: nat)

  datatype ChannelState = ChannelState(
    isClient: bool,
    isClose: bool,
    onClose: Option<Callback>,
    closeCalls: seq<Callback>,
    received: seq<Message>,
    sent: seq<Frame>)

  /** The invocations a Close performs: the current callback, if any. */
  function Fired(onClose: Option<Callback>): (calls: seq<Callback>)
    ensures |calls| == if onClose.Some? then 1 else 0
    ensures onClose.Some? ==> calls[0] == onClose.value
  {
    if onClose.Some? then [onClose.value] else []
  }

  /** A freshly created channel: the given role, open, no close-callback,
      nothing received, sent or fired yet. */
  function Initial(isClient: bool): (s: ChannelState)
    ensures s.isClient == isClient && !s.isClose && s.onClose == None
    ensures s.closeCalls == [] && s.received == [] && s.sent == []
  {
    ChannelState(isClient, false, None, [], [], [])
  }

  /** Close: the channel is closed afterwards and the current callback,
      if there is one, has been invoked once more. There is no guard
      against a channel that is already closed. */
  function AfterClose(s: ChannelState): (r: ChannelState)
    ensures r.isClose
    ensures r.isClient == s.isClient && r.onClose == s.onClose
    ensures r.received == s.received && r.sent == s.sent
    ensures s.onClose.None? ==> r.closeCalls == s.closeCalls
    ensures s.onClose.Some? ==> r.closeCalls == s.closeCalls + [s.onClose.value]
  {
    s.(isClose := true, closeCalls := s.closeCalls + Fired(s.onClose))
  }

  /** SetOnClose: the callback is replaced; role, closed flag and the
      logs are left alone. */
  function AfterSetOnClose(s: ChannelState, callback: Option<Callback>): (r: ChannelState)
    ensures r.onClose == callback
    ensures r.isClient == s.isClient && r.isClose == s.isClose
    ensures r.closeCalls == s.closeCalls && r.received == s.received && r.sent == s.sent
  {
    s.(onClose := callback)
  }

  /** read, given what the decoder produced: a decode error closes the
      channel and dispatches nothing; a decoded message is dispatched
      exactly once and the channel is otherwise untouched. */
  function AfterRead(s: ChannelState, result: DecodeResult): (r: ChannelState)
    ensures result.DecodeError? ==> r == AfterClose(s) && r.received == s.received
    ensures result.Decoded? ==> r.received == s.received + [result.msg]
    ensures result.Decoded? ==> r.isClose == s.isClose && r.closeCalls == s.closeCalls
    ensures r.isClient == s.isClient && r.onClose == s.onClose && r.sent == s.sent
  {
    match result
    case DecodeError(_) => AfterClose(s)
    case Decoded(m) => s.(received := s.received + [m])
  }

  /** Send: one frame, in the framing of the channel's role, is handed to
      the writer. */
  function AfterSend(s: ChannelState, msg: Message): (r: ChannelState)
    ensures r.sent == s.sent + [Frame(WriteFraming(s.isClient), msg)]
    ensures Masked(r.sent[|r.sent| - 1].framing) <==> s.isClient
    ensures r.isClient == s.isClient && r.isClose == s.isClose && r.onClose == s.onClose
    ensures r.closeCalls == s.closeCalls && r.received == s.received
  {
    s.(sent := s.sent + [Frame(WriteFraming(s.isClient), msg)])
  }

  /** Everything that can happen to a channel, one operation at a time. */
  datatype Step =
    | CloseStep
    | SetOnCloseStep(callback: Option<Callback>)
    | ReadStep(result: DecodeResult)
    | SendStep(msg: Message)

  function Apply(s: ChannelState, step: Step): ChannelState {
    match step
    case CloseStep => AfterClose(s)
    case SetOnCloseStep(cb) => AfterSetOnClose(s, cb)
    case ReadStep(result) => AfterRead(s, result)
    case SendStep(msg) => AfterSend(s, msg)
  }

  function Run(s: ChannelState, steps: seq<Step>): ChannelState
    decreases |steps|
  {
    if steps == [] then s else Run(Apply(s, steps[0]), steps[1..])
  }

  /** The messages a sequence of steps decodes, in order. */
  function DecodedMessages(steps: seq<Step>): seq<Message>
    decreases |steps|
  {
    if steps == [] then []
    else (if steps[0].ReadStep? && steps[0].result.Decoded? then [steps[0].result.msg] else [])
         + DecodedMessages(steps[1..])
  }

  /** The number of steps that close the channel: explicit closes and
      reads whose decoding failed. */
  function ClosesIn(steps: seq<Step>): nat
    decreases |steps|
  {
    if steps == [] then 0
    else (if steps[0].CloseStep? || (steps[0].ReadStep? && steps[0].result.DecodeError?) then 1 else 0)
         + ClosesIn(steps[1..])
  }

  predicate KeepsCallback(steps: seq<Step>) {
    forall i :: 0 <= i < |steps| ==> !steps[i].SetOnCloseStep?
  }

  /** Closed is terminal and the role is fixed: whatever happens to a
      channel, no operation resets `isClose` or changes `isClient`. */
  lemma {:induction false} ClosedIsTerminal(s: ChannelState, steps: seq<Step>)
    ensures Run(s, steps).isClient == s.isClient
    ensures s.isClose ==> Run(s, steps).isClose
    decreases |steps|
  {
    if steps != [] {
      ClosedIsTerminal(Apply(s, steps[0]), steps[1..]);
    }
  }

  /** The received-callback sees exactly the messages the decoder produced,
      each once and in order; decode errors and all other operations add
      nothing. */
  lemma {:induction false} ReceivedIsDecoded(s: ChannelState, steps: seq<Step>)
    ensures Run(s, steps).received == s.received + DecodedMessages(steps)
    decreases |steps|
  {
    if steps != [] {
      ReceivedIsDecoded(Apply(s, steps[0]), steps[1..]);
    }
  }

  /** While the callback is not replaced, it fires once for every close,
      including closes of a channel that is already closed. */
  lemma {:induction false} CallbackFiresPerClose(s: ChannelState, steps: seq<Step>)
    requires KeepsCallback(steps)
    ensures Run(s, steps).onClose == s.onClose
    ensures s.onClose.None? ==> Run(s, steps).closeCalls == s.closeCalls
    ensures s.onClose.Some? ==>
      && |Run(s, steps).closeCalls| == |s.closeCalls| + ClosesIn(steps)
      && Run(s, steps).closeCalls[..|s.closeCalls|] == s.closeCalls
      && forall i :: |s.closeCalls| <= i < |Run(s, steps).closeCalls| ==>
           Run(s, steps).closeCalls[i] == s.onClose.value
    decreases |steps|
  {
    if steps != [] {
      var t := Apply(s, steps[0]);
      assert KeepsCallback(steps[1..]) by {
        forall i | 0 <= i < |steps[1..]| ensures !steps[1..][i].SetOnCloseStep? {
          assert steps[1..][i] == steps[i + 1];
        }
      }
      assert !steps[0].SetOnCloseStep?;
      CallbackFiresPerClose(t, steps[1..]);
      var r := Run(s, steps);
      assert r == Run(t, steps[1..]);
      if s.onClose.Some? {
        assert |t.closeCalls| == |s.closeCalls| + ClosesIn(steps[..1]) by {
          assert steps[..1] == [steps[0]];
        }
        assert t.closeCalls[..|s.closeCalls|] == s.closeCalls;
        assert r.closeCalls[..|t.closeCalls|] == t.closeCalls;
        assert r.closeCalls[..|s.closeCalls|] == s.closeCalls by {
          assert r.closeCalls[..|s.closeCalls|] == r.closeCalls[..|t.closeCalls|][..|s.closeCalls|];
        }
        forall i | |s.closeCalls| <= i < |r.closeCalls|
          ensures r.closeCalls[i] == s.onClose.value
        {
          if i < |t.closeCalls| {
            assert r.closeCalls[i] == t.closeCalls[i];
          }
        }
      }
    }
  }

  /** Two closes in a row fire the callback twice: Close is not idempotent. */
  lemma CloseTwiceFiresTwice(s: ChannelState, cb: Callback)
    requires s.onClose == Some(cb)
    ensures AfterClose(AfterClose(s)).closeCalls == s.closeCalls + [cb, cb]
  {
  }

  class Channel {
    const conn: Conn
    var isClient: bool
    var isClose: bool
    var onClose: Option<Callback>
    ghost var closeCalls: seq<Callback>
    ghost var received: seq<Message>
    ghost var sent: seq<Frame>

    ghost function State(): ChannelState
      reads this
    {
      ChannelState(isClient, isClose, onClose, closeCalls, received, sent)
    }

    /** newChannel: the socket and role are recorded, the channel starts
        open and without a close-callback. */
    constructor (conn: Conn, isClient: bool)
      ensures this.conn == conn
      ensures State() == Initial(isClient)
    {
      this.conn := conn;
      this.isClient := isClient;
      isClose := false;
      onClose := None;
      closeCalls := [];
      received := [];
      sent := [];
    }

    method IsClose() returns (closed: bool)
      ensures closed <==> State().isClose
    {
      closed := isClose;
    }

    /** Releases the socket (not modelled), marks the channel closed and
        invokes the current close-callback. */
    method Close()
      modifies this
      ensures State() == AfterClose(old(State()))
    {
      isClose := true;
      if onClose.Some? {
        closeCalls := closeCalls + [onClose.value];
      }
    }

    method SetOnClose(callback: Option<Callback>)
      modifies this
      ensures State() == AfterSetOnClose(old(State()), callback)
    {
      onClose := callback;
    }

    /** Writes one message with the writer of the channel's role; the
        writer's error is returned unchanged. */
    method Send(op: OpCode, data: seq<Byte>, writeError: Option<IoError>) returns (err: Option<IoError>)
      modifies this
      ensures err == writeError
      ensures State() == AfterSend(old(State()), Message(op, data))
    {
      sent := sent + [Frame(WriteFraming(isClient), Message(op, data))];
      err := writeError;
    }

    /** read: `decode` stands for the codec, asked with the framing of the
        peer's role; on an error the channel closes, otherwise the message
        is dispatched to the received-callback. */
    method Read(decode: Framing -> DecodeResult)
      modifies this
      ensures State() == AfterRead(old(State()), decode(ReadFraming(old(isClient))))
    {
      var result := decode(ReadFraming(isClient));
      match result
      case DecodeError(_) =>
        Close();
      case Decoded(m) =>
        received := received + [m];
    }
  }
}

/** The handler (websocket/handler.go): it derives connection ids from
    request paths, opens or reuses channels on upgrade, opens client
    channels on dial, and turns the poller's readiness events and
    registration errors into reads and closes.

    The poller, the HTTP upgrade and the dial are external: each call to
    them is a parameter holding its outcome. The event callback that the
    source registers with the poller is the method `Handler.OnEvent`. */
module Handlers {
  import opened Wrappers
  import opened Protocol
  import opened Channels
  import opened ChannelPools

  /** Go's strings.TrimPrefix: drops prefix once if s starts with it. */
  function TrimPrefix(s: string, prefix: string): (r: string)
    ensures prefix <= s ==> s == prefix + r
    ensures !(prefix <= s) ==> r == s
  {
    if prefix <= s then s[|prefix|..] else s
  }

  /** The connection id of a request path: the path without its first
      character, then without one leading "ws/". The empty path has no id
      (slicing it panics). */
  function ConnId(path: string): (id: Option<string>)
    ensures id.None? <==> path == []
    ensures id.Some? ==> |id.value| == |path| - 1 || |id.value| == |path| - 4
    ensures id.Some? ==> id.value == path[|path| - |id.value|..]
    ensures id.Some? ==> (|id.value| == |path| - 4 <==> "ws/" <= path[1..])
  {
    if path == [] then None else Some(TrimPrefix(path[1..], "ws/"))
  }

  /** Any path of the form "/ws/<id>" yields <id>, whatever <id> is
      (one "ws/" is removed, a second one is kept). */
  lemma ConnIdOfWsPath(first: char, id: string)
    ensures ConnId([first] + "ws/" + id) == Some(id)
  {
  }

  /** A path "/<id>" yields <id> when <id> does not itself start with "ws/". */
  lemma ConnIdOfPlainPath(first: char, id: string)
    requires !("ws/" <= id)
    ensures ConnId([first] + id) == Some(id)
  {
  }

  lemma ConnIdExamples()
    ensures ConnId("/ws/abc") == Some("abc")
    ensures ConnId("/abc") == Some("abc")
    ensures ConnId("/ws/ws/abc") == Some("ws/abc")
    ensures ConnId("") == None
  {
    ConnIdOfWsPath('/', "abc");
    assert "abc"[0] != "ws/"[0];
    ConnIdOfPlainPath('/', "abc");
    ConnIdOfWsPath('/', "ws/abc");
  }

  /** The errors the poller's Start and Resume can report. */
  datatype PollError = ErrRegistered | ErrClosed | ErrOther(code: nat)

  /** Whether a registration outcome makes startRead close the channel:
      any error other than "already registered" and "already closed". */
  predicate StartFailureCloses(started: Option<PollError>) {
    started.Some? && started.value != ErrRegistered && started.value != ErrClosed
  }

  /** The channel after startRead, given what the poller's Start returned. */
  function AfterStart(s: ChannelState, started: Option<PollError>): (r: ChannelState)
    ensures started == None || started == Some(ErrRegistered) || started == Some(ErrClosed) ==> r == s
    ensures started.Some? && started.value.ErrOther? ==> r == AfterClose(s)
  {
    if StartFailureCloses(started) then AfterClose(s) else s
  }

  /** The readiness bits a poller event can carry. */
  datatype EventFlag =
    EventRead | EventWrite | EventReadHup | EventWriteHup | EventErr | EventPollerClosed

  type Event = set<EventFlag>

  /** The channel after the poller delivers ev: on a read hang-up it is
      closed and nothing is read; otherwise one message is read, with the
      framing of the peer's role, and the channel is closed if re-arming
      it (Resume) fails. */
  function AfterEvent(s: ChannelState, ev: Event, decode: Framing -> DecodeResult,
                      resumeError: Option<PollError>): (r: ChannelState)
    ensures EventReadHup in ev ==> r == AfterClose(s) && r.received == s.received
    ensures EventReadHup !in ev && resumeError.None? ==>
      r == AfterRead(s, decode(ReadFraming(s.isClient)))
    ensures EventReadHup !in ev && resumeError.Some? ==>
      r == AfterClose(AfterRead(s, decode(ReadFraming(s.isClient))))
    ensures EventReadHup !in ev && resumeError.None? && decode(ReadFraming(s.isClient)).Decoded? ==>
      r.isClose == s.isClose
    ensures r.isClient == s.isClient
  {
    if EventReadHup in ev then AfterClose(s)
    else
      var read := AfterRead(s, decode(ReadFraming(s.isClient)));
      if resumeError.Some? then AfterClose(read) else read
  }

  /** The channel operations an event performs, in order. */
  function EventSteps(s: ChannelState, ev: Event, decode: Framing -> DecodeResult,
                      resumeError: Option<PollError>): seq<Step>
  {
    if EventReadHup in ev then [CloseStep]
    else [ReadStep(decode(ReadFraming(s.isClient)))] + (if resumeError.Some? then [CloseStep] else [])
  }

  /** An event is a run of channel operations, so everything proved of
      runs (closed is terminal, the role is fixed, every decoded message
      is dispatched once) holds for events. */
  lemma EventIsRun(s: ChannelState, ev: Event, decode: Framing -> DecodeResult,
                   resumeError: Option<PollError>)
    ensures AfterEvent(s, ev, decode, resumeError) == Run(s, EventSteps(s, ev, decode, resumeError))
    ensures s.isClose ==> AfterEvent(s, ev, decode, resumeError).isClose
  {
    var steps := EventSteps(s, ev, decode, resumeError);
    if EventReadHup !in ev {
      var t := Apply(s, steps[0]);
      if resumeError.Some? {
        assert steps[1..] == [CloseStep];
        assert Run(t, steps[1..]) == Run(AfterClose(t), []);
      } else {
        assert steps[1..] == [];
      }
    } else {
      assert steps[1..] == [];
    }
    ClosedIsTerminal(s, steps);
  }

  /** A decode error followed by a failed Resume closes the channel twice,
      so a close-callback fires twice for one event. */
  lemma DecodeErrorThenFailedResumeFiresTwice(s: ChannelState, ev: Event, decode: Framing -> DecodeResult,
                                              e: PollError, cb: Callback)
    requires EventReadHup !in ev && s.onClose == Some(cb)
    requires decode(ReadFraming(s.isClient)).DecodeError?
    ensures AfterEvent(s, ev, decode, Some(e)).closeCalls == s.closeCalls + [cb, cb]
    ensures AfterEvent(s, ev, decode, Some(e)).received == s.received
  {
  }

  /** What the external dial or HTTP upgrade produced. */
  datatype Connected = Connected(conn: Conn) | ConnectFailed(error: IoError)

  /** Why Upgrade yields no channel: the handshake failed, or the request
      goroutine panics, on slicing an empty path or on reading a nil
      registry. */
  datatype UpgradeError = HandshakeFailed(error: IoError) | EmptyPathPanic | NilRegistryPanic

  class Handler {
    /** The registry of server channels; nil for a handler that only dials. */
    const channels: ChannelPool?

    constructor (channels: ChannelPool?)
      ensures this.channels == channels
    {
      this.channels := channels;
    }

    /** NewHandler: fails, with the poller's error, when the poller cannot
        be created. */
    static method NewHandler(channels: ChannelPool?, pollerError: Option<IoError>)
      returns (h: Handler?, err: Option<IoError>)
      ensures err == pollerError
      ensures pollerError.Some? ==> h == null
      ensures pollerError.None? ==> h != null && fresh(h) && h.channels == channels
    {
      if pollerError.Some? {
        return null, pollerError;
      }
      h := new Handler(channels);
      err := None;
    }

    /** startRead: registers c with the poller. "Already registered" and
        "already closed" are tolerated, any other error closes c, and the
        error is returned unchanged. */
    method StartRead(c: Channel, started: Option<PollError>) returns (err: Option<PollError>)
      modifies c
      ensures err == started
      ensures c.State() == AfterStart(old(c.State()), started)
    {
      if started == Some(ErrRegistered) {
        // Already being handled.
      } else if started == Some(ErrClosed) {
        // Already closed.
      } else if started.Some? {
        c.Close();
      }
      err := started;
    }

    /** The callback startRead registers for c, run on one event. Whether
        the read runs inline or on the worker pool makes no difference
        here, operations being taken one at a time. */
    method OnEvent(c: Channel, ev: Event, decode: Framing -> DecodeResult, resumeError: Option<PollError>)
      modifies c
      ensures c.State() == AfterEvent(old(c.State()), ev, decode, resumeError)
    {
      if EventReadHup in ev {
        c.Close();
        return;
      }
      c.Read(decode);
      if resumeError.Some? {
        c.Close();
      }
    }

    /** Dial: a failed dial returns its error and no channel; otherwise a
        new client channel over the dialled socket, registered with the
        poller and never stored in the registry. */
    method Dial(dialed: Connected, started: Option<PollError>) returns (ch: Channel?, err: Option<IoError>)
      ensures dialed.ConnectFailed? ==> ch == null && err == Some(dialed.error)
      ensures dialed.Connected? ==>
        && err == None && ch != null && fresh(ch)
        && ch.conn == dialed.conn
        && ch.State() == AfterStart(Initial(true), started)
        && ch.State().isClient
      ensures channels != null ==> channels.m == old(channels.m)
    {
      if dialed.ConnectFailed? {
        return null, Some(dialed.error);
      }
      ch := new Channel(dialed.conn, true);
      var _ := StartRead(ch, started);
      err := None;
    }

    /** Upgrade: after a successful handshake, the channel registered
        under the path's id is reused if it is open; if there is none or
        it is closed, a new server channel over the upgraded socket
        replaces it. Either way the channel is registered with the poller
        and returned without error, even when that registration closed it. */
    method Upgrade(upgraded: Connected, path: string, started: Option<PollError>)
      returns (ch: Channel?, err: Option<UpgradeError>)
      modifies channels, if channels != null then channels.m.Values else {}
      ensures upgraded.ConnectFailed? ==>
        ch == null && err == Some(HandshakeFailed(upgraded.error))
      ensures upgraded.Connected? && path == [] ==>
        ch == null && err == Some(EmptyPathPanic)
      ensures upgraded.Connected? && path != [] && channels == null ==>
        ch == null && err == Some(NilRegistryPanic)
      ensures channels != null && (upgraded.ConnectFailed? || path == []) ==>
        channels.m == old(channels.m)
      ensures upgraded.Connected? && path != [] && channels != null ==>
        err == None && ch != null &&
        var id := ConnId(path).value;
        var prev := Lookup(old(channels.m), id);
        if prev == null || old(prev.isClose) then
          && fresh(ch) && ch.conn == upgraded.conn
          && channels.m == ApplyOp(old(channels.m), SetOp(id, ch))
          && ch.State() == AfterStart(Initial(false), started)
        else
          && ch == prev && channels.m == old(channels.m)
          && ch.State() == AfterStart(old(prev.State()), started)
      ensures channels != null ==>
        forall c: Channel | c in old(channels.m.Values) && c != ch :: c.State() == old(c.State())
    {
      if upgraded.ConnectFailed? {
        return null, Some(HandshakeFailed(upgraded.error));
      }
      if path == [] {
        return null, Some(EmptyPathPanic);
      }
      if channels == null {
        return null, Some(NilRegistryPanic);
      }
      var id := TrimPrefix(path[1..], "ws/");
      ch := channels.Get(id);
      var replace := ch == null;
      if !replace {
        replace := ch.IsClose();
      }
      if replace {
        ch := new Channel(upgraded.conn, false);
        channels.Set(id, ch);
      }
      var _ := StartRead(ch, started);
      err := None;
    }
  }

  /** A closed channel registered under "abc" is replaced by the upgrade
      of "/ws/abc", and the registry then yields the new channel. */
  method ReconnectScenario() {
    var registry := new ChannelPool();
    var dead := new Channel(1, false);
    dead.Close();
    registry.Set("abc", dead);
    var h := new Handler(registry);
    ConnIdExamples();
    var ch, err := h.Upgrade(Connected(2), "/ws/abc", None);
    assert err == None && ch != null && ch != dead;
    assert ch.conn == 2 && !ch.isClose && !ch.isClient;
    var got := registry.Get("abc");
    assert got == ch;
  }

  /** An open channel registered under "abc" is reused by the upgrade of
      "/abc"; the newly upgraded socket is not attached to any channel. */
  method ReuseScenario() {
    var registry := new ChannelPool();
    var live := new Channel(1, false);
    registry.Set("abc", live);
    var h := new Handler(registry);
    ConnIdExamples();
    var ch, err := h.Upgrade(Connected(2), "/abc", Some(ErrRegistered));
    assert ch == live && ch.conn == 1 && !ch.isClose;
    var got := registry.Get("abc");
    assert got == live;
  }

  /** A handler without a registry dials client channels, but every
      successful upgrade on it panics. */
  method DialOnlyScenario() {
    var h := new Handler(null);
    var ch, err := h.Dial(Connected(7), None);
    assert err == None && ch != null && ch.isClient && !ch.isClose;
    ConnIdExamples();
    var up, upErr := h.Upgrade(Connected(8), "/ws/abc", None);
    assert up == null && upErr == Some(NilRegistryPanic);
  }
}

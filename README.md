# WebSocket connection bookkeeping, modelled in Dafny

This project models the connection bookkeeping of the `websocket` package of
tgws. The package multiplexes many WebSocket connections over a readiness
poller. The model covers three parts:

- **Registry** (`ChannelPool`, module `ChannelPools`): a map from connection
  id to channel. `Get` of an absent id yields nil. `Set` overwrites. `Delete`
  of an absent id does nothing. The registry is a class whose map field the
  methods reassign. A pure model of Set and Delete as operations
  (`ApplyOp`, `ApplyOps`) carries the lemma that the last write wins.
- **Channel** (module `Channels`): one connection. It has a fixed role
  (`isClient`), a closed flag that is only ever set, and a replaceable
  close-callback. The class `Channel` is proved to perform the transitions
  of a pure state machine (`ChannelState`, with `AfterClose`,
  `AfterSetOnClose`, `AfterRead` and `AfterSend`). Callbacks are recorded,
  not run, in three ghost logs:
  - `closeCalls`: every invocation of the close-callback;
  - `received`: every message passed to the handler's received-callback
    with this channel;
  - `sent`: every frame handed to the codec's writer.

  Lemmas over runs of operations prove the following:
  - closed is terminal;
  - the role never changes;
  - the received-callback sees exactly the decoded messages, in order;
  - the close-callback fires once per close, with no guard against
    repeated closes.
- **Handler** (module `Handlers`): the logic that surrounds the channels:
  - deriving the connection id from the request path;
  - the get-or-replace rule of `Upgrade`;
  - `Dial`, which builds a client channel that is never stored in the
    registry;
  - the classification in `startRead`: a read hang-up closes the channel;
    "already registered" and "already closed" are tolerated; any other
    registration error closes it; a failed `Resume` after a read closes it.

  The event callback that `startRead` registers is the method
  `Handler.OnEvent`.

Module `Protocol` holds the opcodes, with `OpText` = 0x1 and `OpBinary` = 0x2
as in the opcode table of section 5.2 of RFC 6455. It also holds the two
framings of section 5.3 of RFC 6455:

- a client channel writes client (masked) frames and decodes server frames;
- a server channel does the reverse.

External parts are never called. Each appears as a parameter that holds its
outcome:

- the poller's `Start` and `Resume`: an `Option<PollError>`;
- a readiness event: a set of `EventFlag`s;
- the codec's decoder: a function from the framing asked for to a
  `DecodeResult`;
- the codec's writer: its error;
- the dial and the HTTP upgrade: a `Connected` outcome;
- poller creation: an error.

Behaviours of the code worth knowing:

- `Close` has no guard. Closing a channel twice fires its close-callback
  twice (`CloseTwiceFiresTwice`, `CallbackFiresPerClose`).
- When decoding fails, `read` closes the channel. The event callback then
  still calls `Resume`, and if that fails it closes the channel again. The
  close-callback then fires twice for one event
  (`DecodeErrorThenFailedResumeFiresTwice`).
- Neither `Upgrade` nor `Dial` looks at the error from `startRead`. Both
  return the channel with no error, even a channel that registration has
  just closed.
- When `Upgrade` reuses an open channel, it drops the newly upgraded socket.
  That socket is not attached to any channel.
- A handler may be created without a registry (nil). It can dial, but every
  successful upgrade on it panics when it reads the registry
  (`DialOnlyScenario`).

## Model

| member | source | states |
|---|---|---|
| Protocol.WriteFraming | websocket/channel.go:73-77 | `Send` writes masked client frames exactly when the channel is a client. |
| Protocol.ReadFraming | websocket/channel.go:92-96 | `read` decodes masked client frames exactly when the channel is a server. |
| Protocol.ReadFramingIsPeerWriteFraming | websocket/channel.go:73-96 | A channel reads the framing that a peer of the opposite role writes, never its own. |
| Channels.Initial | websocket/channel.go:41-53 | A new channel has the given role, is open, has no close-callback and has logged nothing. |
| Channels.AfterClose | websocket/channel.go:60-69 | After Close the channel is closed. The current callback is invoked once if it is set, and nothing is invoked if it is nil. Role, callback and message logs are unchanged. |
| Channels.AfterSetOnClose | websocket/channel.go:81-85 | SetOnClose replaces the callback. Role, closed flag and logs are unchanged. |
| Channels.AfterRead | websocket/channel.go:88-104 | A decode error closes the channel and dispatches nothing. A decoded message is dispatched exactly once and does not close the channel. |
| Channels.AfterSend | websocket/channel.go:73-78 | Send hands one frame in the framing of the channel's role to the writer and changes nothing else. |
| Channels.ClosedIsTerminal | websocket/channel.go:55-69 | No sequence of operations resets `isClose` to false or changes `isClient`. |
| Channels.ReceivedIsDecoded | websocket/channel.go:97-103 | Over any sequence of operations, the received-callback gets exactly the decoded messages, each once and in order. |
| Channels.CallbackFiresPerClose | websocket/channel.go:64-68 | While the callback is not replaced, it fires exactly once per close, including explicit closes, decode-error closes and closes of a channel that is already closed. A nil callback never fires. |
| Channels.CloseTwiceFiresTwice | websocket/channel.go:60-69 | Two closes in a row invoke the callback twice, because Close has no guard. |
| Channels.Channel.constructor | websocket/channel.go:41-53 | `newChannel` records the socket and the role. The channel starts open and without a callback. |
| Channels.Channel.IsClose | websocket/channel.go:55-57 | Returns the closed flag. |
| Channels.Channel.Close | websocket/channel.go:60-69 | Performs the `AfterClose` transition on the channel's state. |
| Channels.Channel.SetOnClose | websocket/channel.go:81-85 | Performs the `AfterSetOnClose` transition. |
| Channels.Channel.Send | websocket/channel.go:73-78 | Performs the `AfterSend` transition and returns the writer's error unchanged. |
| Channels.Channel.Read | websocket/channel.go:88-104 | Asks the decoder with the framing of the peer's role, then performs the `AfterRead` transition on its result. |
| ChannelPools.ApplyOp | websocket/channel_pool.go:10-26 | After Set(id, ch), id reads as ch. After Delete(id), id reads as nil. Every other id reads as before. Delete of an absent id leaves the map unchanged. |
| ChannelPools.LookupAfterOps | websocket/channel_pool.go:10-26 | After any sequence of Set and Delete calls, Get(id) returns what the last write of id stored (nil for a Delete). If id was never written, it returns the old entry. |
| ChannelPools.ChannelPool.constructor | websocket/channel_pool.go:28-32 | `NewChannelPool` starts empty, so every id reads as nil. |
| ChannelPools.ChannelPool.Set | websocket/channel_pool.go:10-14 | Stores ch under id, overwriting any previous entry. |
| ChannelPools.ChannelPool.Get | websocket/channel_pool.go:16-20 | Returns the entry for id, or nil when id is absent. Nothing is modified. |
| ChannelPools.ChannelPool.Delete | websocket/channel_pool.go:22-26 | Removes id. An absent id is a no-op. |
| Handlers.TrimPrefix | websocket/handler.go:82 | Removes one copy of the prefix when the string starts with it, and otherwise returns the string unchanged. |
| Handlers.ConnId | websocket/handler.go:82 | The empty path has no id, because slicing it panics. Otherwise the id is a suffix of the path: four characters shorter exactly when "ws/" follows the first character, and one character shorter otherwise. |
| Handlers.ConnIdOfWsPath | websocket/handler.go:82 | "/ws/" + id yields id for every id. Only one "ws/" is removed. |
| Handlers.ConnIdOfPlainPath | websocket/handler.go:82 | "/" + id yields id when id does not start with "ws/". |
| Handlers.ConnIdExamples | websocket/handler.go:82 | "/ws/abc" and "/abc" both yield "abc". "/ws/ws/abc" yields "ws/abc". "" yields no id. |
| Handlers.AfterStart | websocket/handler.go:124-132 | No error, `ErrRegistered` and `ErrClosed` leave the channel unchanged. Any other registration error closes it. |
| Handlers.AfterEvent | websocket/handler.go:96-123 | A read hang-up closes the channel and reads nothing. Otherwise one message is read with the peer's framing. A failed Resume then closes the channel, and a successful one leaves it as the read did. |
| Handlers.EventIsRun | websocket/handler.go:96-116 | An event is a sequence of channel operations, so a closed channel stays closed through any event. |
| Handlers.DecodeErrorThenFailedResumeFiresTwice | websocket/handler.go:107-116 | A decode error followed by a failed Resume closes the channel twice, so the close-callback fires twice for one event. |
| Handlers.Handler.constructor | websocket/handler.go:47-52 | The handler keeps the registry it is given, which may be nil. |
| Handlers.Handler.NewHandler | websocket/handler.go:39-53 | If the poller cannot be created, returns nil and the poller's error. Otherwise returns a fresh handler over the given registry. |
| Handlers.Handler.StartRead | websocket/handler.go:95-133 | Returns the registration error unchanged. The channel goes through the `AfterStart` transition. |
| Handlers.Handler.OnEvent | websocket/handler.go:96-123 | The registered event callback performs the `AfterEvent` transition on its channel. |
| Handlers.Handler.Dial | websocket/handler.go:60-70 | A failed dial returns nil and its error. Otherwise returns a fresh client channel over the dialled socket after `startRead`. The registry, if there is one, is untouched either way. |
| Handlers.Handler.Upgrade | websocket/handler.go:72-92 | A failed handshake returns nil and its error, and the registry is untouched. After a successful handshake, an empty path or a nil registry panics, which is modelled as an error result. With a registry: when the registry entry for the id is nil or closed, a fresh server channel over the new socket replaces it. Otherwise the open entry is returned and the registry is unchanged. In both cases the returned channel has gone through `startRead`, and no other registered channel changes. |

## Left out

- The `pool` package (bounded worker pool): its behaviour is goroutines racing a channel send against a semaphore, which is concurrency only.
- `SetPool` and the choice between scheduling a read on the worker pool or running it inline (websocket/handler.go:55-57, 117-121): operations are taken one at a time, so both choices run the same read-then-resume sequence.
- The mutexes of `ChannelPool` and `Channel`, and the guarantee that at most one read is in flight per connection: both are about concurrency.
- `getConnFromTLSConn` and the creation of the read descriptor in `newChannel`: these are reflection over a TLS connection's memory and a foreign poller call whose failure panics.
- The poller's `Stop` and the socket's `Close`, which `Close` calls before setting the flag: they are calls into foreign code with no state in the model.
- The codec, the dial and the HTTP upgrade themselves: they are foreign libraries, and only their outcomes are parameters.
- The numeric event bits of the poller, which are not part of the source: an event is a set of named flags, and `EventReadHup in ev` stands for `ev&netpoll.EventReadHup != 0`.
- The 403 response written when the URL is empty (websocket/handler.go:78-80) and the `fmt.Println` logging: these are I/O.
- Handlers.ConnId: the panic on an empty path is modelled as the error result `EmptyPathPanic`, not as a crash of the request goroutine.
- Handlers.Handler.Upgrade: the panic on a nil registry is modelled as the error result `NilRegistryPanic`, not as a crash of the request goroutine.
- Handlers.ConnId: paths are modelled as sequences of characters, while Go slices the path's bytes. The two agree when the first character is ASCII, as '/' (or '*') is for every parsed request target.
- The handler's received-callback is not a value in the model: its invocations are the per-channel `received` log, which is the handler-wide log restricted to the channel passed as the first argument.
- websocket/handler_test.go: it needs a live network server.

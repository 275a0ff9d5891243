# msgpack-rpc: client envelopes, dispatcher registry, server session bookkeeping

A Dafny model of three pieces of a msgpack-rpc framework:

- **The Go client** (`clients/golang/client.go`). It writes Request envelopes
  `[0, msgid, method, params]` under the fixarray header `0x94`. It writes
  Notification envelopes `[2, method, params]` under `0x93`. It validates the
  Response `[1, msgid, error, result]` it reads back and converts the nine Go
  integer kinds. It allocates message ids from a `uint32` counter that starts
  at 1 and wraps. It also runs a small reconnect state machine over
  `disconnected`, `autoReconnect` and `connTime`.
- **The dispatcher registry** (`include/rpc/dispatcher.h`). `EventManager`
  maps each bound name to one opaque adaptor that carries an arity. The
  header also fixes the `call_t` and `notification_t` tuples, the
  `request_type` codes, and what `dispatch` promises with and without
  exception suppression.
- **The server** (`lib/rpc/server.cc`). Its registry of live sessions gains a
  session on each successful accept completion. `close_session` removes one
  session and `close_sessions` closes and clears them all. New sessions
  capture the suppression flag. Move-assignment leaves the source null, and
  the destructor stops only a non-null implementation.

Files:

- `wrappers.dfy`: the `Option`, `Result` and `Outcome` types.
- `msgpack.dfy`: abstract msgpack values (nil, tagged integer kinds, strings,
  arrays, other) and the fixarray header byte.
- `go_client.dfy`: the client.
  - Pure parts are functions: `ToInteger`, `ResponseOf`, `RequestFrame`,
    `NotificationFrame`.
  - Each state change is a function on a `ClientState` value.
  - The `Client` class has the struct's fields. Each of its methods is proved
    equal to the matching step function.
- `dispatcher.dfy`: the registry as a value and as the `EventManager` class,
  the message tuples, and `Dispatch`.
- `server.dfy`: the `Session`, `Impl` and `Server` classes, plus the
  find-and-erase used by `close_session`.
- `interop.dfy`: how the Go envelopes meet the C++ tuple shapes.

Modelling choices:

- Time is an `int` count of nanoseconds.
- A dial is answered by a parameter of type `DialMode -> DialOutcome`.
- Encoding, writing, reading and binding the acceptor are outcome parameters.
- An accept completion is a success or failure event.
- Go's `int` is 64 bits wide. `int(uint64)` wraps to a negative number above
  `MaxInt64`. `uint32(x)` keeps the low 32 bits.

Behaviours of the written code the model keeps:

- Message ids wrap at 2^32 (`nextId += 1` on a `uint32`). Nothing checks
  whether an id is reused.
- Request envelopes carry tag 0, while `request_type::call` is 1. Both values
  are kept.

The bodies of `dispatch` live in `dispatcher.inl`, which is not part of this
model. Where the header leaves a choice open, the model makes it as follows:

- A message is converted by its tuple shape, and the tag is not compared with
  `request_type`.
- An unbound name is answered with MethodNotFound under the call's id, and a
  notification to an unbound name is dropped. Both hold whatever the
  suppression flag is.
- Every other invocation failure becomes an error response (for a call) or is
  dropped (for a notification) only with suppression on. With suppression off
  it throws out of `dispatch`. That includes a wrong argument count and
  parameters that are not an array: the header says `dispatch` throws when the
  parameters do not convert to the function's parameters, and that
  `enforce_arg_count` throws on a wrong count.
- A message that is neither tuple throws `NotAMessage` even with suppression
  on. It has no id to answer under, so no response can be written for it.

Two behaviours of the source are worth knowing:

- A Response whose id element is not an integer and whose error slot is nil is
  accepted with id 0 and no error (`ResponseOf`).
- `impl::parent_` is never updated by move-assignment. Sessions accepted after
  a move therefore point back at the moved-from server (`Impl.parent` is a
  constant).

## Model

| member | source | states |
|---|---|---|
| MsgPack.FixArrayHeader | clients/golang/client.go:138 | the header byte for an n-element fixarray announces exactly n elements |
| MsgPack.FixArrayArity | clients/golang/client.go:199 | a byte is a fixarray header iff it lies in 0x90..0x9f, and it then announces `b - 0x90` elements |
| GoClient.ToGoInt | clients/golang/client.go:215-232 | Go's `int(x)` gives a 64-bit result and is the identity on values that fit |
| GoClient.ToUint32 | clients/golang/client.go:184 | `uint32(x)` is the identity on values that fit in 32 bits, and otherwise differs from `x` by a multiple of 2^32 (the low 32 bits) |
| GoClient.NextId | clients/golang/client.go:119-120 | `nextId += 1` adds one, and wraps from 2^32-1 to 0 |
| GoClient.ToInteger | clients/golang/client.go:213-235 | succeeds exactly for the integer kinds, keeping the value (uint64 above MaxInt64 wraps negative); anything else is "Invalid message format" |
| GoClient.RequestFrame | clients/golang/client.go:136-150 | a Request is a 4-element array under header 0x94 whose first element is REQUEST (0) and whose second is the id |
| GoClient.NotificationFrame | clients/golang/client.go:198-201 | a Notification is a 3-element array under header 0x93 tagged NOTIFICATION (2) and carries no other integer, so no id |
| GoClient.ResponseOf | clients/golang/client.go:163-189 | "Invalid message format" iff the value is not a 4-array whose first element is an integer equal to RESPONSE; with a nil error slot, returns the id (0 when not an integer) and the 4th element with no error; otherwise the error value and no result |
| GoClient.ResponseAccepted | clients/golang/client.go:178-184 | a success Response is accepted with its id and result intact, whatever integer kinds the decoder chose |
| GoClient.ResponseRemoteError | clients/golang/client.go:179-182 | a non-nil error slot yields that error, the id and no result |
| GoClient.RequestIsNoResponse | clients/golang/client.go:168-177 | the client's own Request is rejected as a Response |
| GoClient.DialVia | clients/golang/client.go:63-70 | `net.Dial` is used iff the timeout is not positive, `net.DialTimeout` with the timeout otherwise |
| GoClient.Initial | clients/golang/client.go:34-37 | a fresh client has nextId 1, is connected, has auto-reconnect off and connTime now |
| GoClient.ConnectStep | clients/golang/client.go:39-49 | a client exists iff the dial with the first given timeout succeeds; it holds the dialed connection, the network and the address, and starts at nextId 1, not disconnected, with that timeout; a failed dial returns the dial's error |
| GoClient.ReconnectStep | clients/golang/client.go:51-61 | connTime is always reset; success installs the new connection and clears `disconnected`; failure leaves a nil connection and the flag as it was |
| GoClient.CheckConnectStep | clients/golang/client.go:92-102 | no state change and no error unless disconnected with auto-reconnect on; then "Connection is disconnected." iff at most ReconnectInterval has passed, and past it exactly the outcome of ReconnectStep; ids and settings never change |
| GoClient.HandleErrorStep | clients/golang/client.go:104-111 | `disconnected` becomes true only when auto-reconnect is on and there is an error, and is never cleared; nothing else changes |
| GoClient.WriteStep | clients/golang/client.go:140-149 | a frame reaches the writer iff encoding succeeded; success iff encoding and writing succeed; a failed encode returns the encoder's error, otherwise a failed write returns the writer's; failures go through handleError |
| GoClient.RequestStep | clients/golang/client.go:136-150 | writes the Request frame for the id exactly when encoding succeeds, and no other frame; succeeds iff encode and write succeed; a failed encode returns the encoder's error, otherwise a failed write returns the writer's, and either goes through handleError |
| GoClient.ResponseStep | clients/golang/client.go:152-162 | a read failure goes through handleError and returns id 0; a decoded value is validated and never marks the client disconnected |
| GoClient.CallStep | clients/golang/client.go:113-134 | a call rejected by checkConnect allocates no id and sends nothing; otherwise it uses the current nextId and advances it by one mod 2^32 even if later steps fail; the frame written carries that id; with a nil connection it fails with NilConnection, otherwise the frame is written iff encoding succeeds, and a failed encode or write fails the call with that error; a written request answered by a valid reply with the sent id succeeds with that reply's result; a reply error is passed through unchanged; "Message IDs don't match" exactly when a valid reply's id differs from the sent id; a rejected call leaves checkConnect's state, otherwise the state is checkConnect's with nextId advanced, passed through handleError with the network error, if any |
| GoClient.SendStep | clients/golang/client.go:192-211 | never allocates an id; any frame written is the Notification frame; after checkConnect passes, a failed encode fails the send with the encoder's error; with a connection the frame is written iff encoding succeeds, the send succeeds iff encode and write succeed, and a failed write returns the writer's error; with no connection an encoded send fails with NilConnection; the state is checkConnect's, passed through handleError with the network error, if any |
| GoClient.OnlyReconnectClears | clients/golang/client.go:92-111 | a disconnected client is connected after a `Call` or `Send` only if checkConnect reconnected it past ReconnectInterval with a successful dial |
| GoClient.RunAllocatesConsecutive | clients/golang/client.go:119-120 | over any run of calls, the allocated ids are consecutive mod 2^32 from the starting nextId |
| GoClient.ConsecutiveAt | clients/golang/client.go:119-120 | the i-th id allocated is start + i mod 2^32 |
| GoClient.ConsecutiveDistinct | clients/golang/client.go:119-120 | at most 2^32 consecutive ids are pairwise distinct |
| GoClient.RunIdsDistinct | clients/golang/client.go:113-134 | across any run of calls allocating at most 2^32 ids, all ids are pairwise distinct |
| GoClient.Client.NewClient | clients/golang/client.go:34-37 | the new object's fields are the initial state with no timeout |
| GoClient.Client.Dialed | clients/golang/client.go:48 | the object Connect returns has the initial state with the given timeout |
| GoClient.Client.Connect | clients/golang/client.go:39-49 | returns a fresh client iff the dial succeeds, else the dial error |
| GoClient.Client.Reconnect | clients/golang/client.go:51-61 | new fields and error are those of ReconnectStep |
| GoClient.Client.SetAutoReconnect | clients/golang/client.go:76-78 | only `autoReconnect` changes |
| GoClient.Client.CheckConnect | clients/golang/client.go:92-102 | new fields and error are those of CheckConnectStep |
| GoClient.Client.HandleError | clients/golang/client.go:104-111 | new fields are those of HandleErrorStep |
| GoClient.Client.Request | clients/golang/client.go:136-150 | new fields, error and written frame are those of RequestStep |
| GoClient.Client.Response | clients/golang/client.go:152-190 | new fields and reply are those of ResponseStep |
| GoClient.Client.Call | clients/golang/client.go:113-134 | new fields, result, error, id and written frame are those of CallStep |
| GoClient.Client.Send | clients/golang/client.go:192-211 | new fields, error and written frame are those of SendStep |
| Dispatcher.EnforceArgCount | include/rpc/dispatcher.h:43-46 | fails exactly when the found count differs from the expected one, and reports both counts |
| Dispatcher.BindStep | include/rpc/dispatcher.h:48-53 | binding a bound name fails with DuplicateName and changes nothing; a new name gains exactly its adaptor; every other binding stays |
| Dispatcher.BindAllFirstWins | include/rpc/dispatcher.h:41 | after any series of binds each name maps to its existing adaptor or else to its first bind's adaptor; nothing else is bound |
| Dispatcher.RequestTypeOf | include/rpc/dispatcher.h:119 | exactly codes 1 (call) and 2 (notification) are request types, and it inverts `Code` |
| Dispatcher.Classify | include/rpc/dispatcher.h:93-97 | a message converts iff it has the `call_t` shape (int8, uint32, string, params) or the `notification_t` shape (int8, string, params), keeping the type element, id, name and params |
| Dispatcher.CallRoundTrip | include/rpc/dispatcher.h:94 | a packed `call_t` converts back to itself |
| Dispatcher.NotificationRoundTrip | include/rpc/dispatcher.h:97 | a packed `notification_t` converts back to itself |
| Dispatcher.Invoke | include/rpc/dispatcher.h:36-46 | an unbound name is MethodNotFound; a wrong argument count is the enforce_arg_count error; success iff bound, the count matches and the adaptor returns, with its result |
| Dispatcher.Dispatch | include/rpc/dispatcher.h:100-132 | a non-message always throws; a call is answered under its id with the invoked function's result, or with the invocation error when suppressing or when the name is unbound; a notification is never answered; with suppression no call or notification throws; an unbound name never throws; without suppression any other invocation failure throws |
| Dispatcher.UnboundCallAnswered | include/rpc/dispatcher.h:108-117 | whatever the suppression flag, a call to an unbound name is answered with MethodNotFound under its id and a notification to it is dropped |
| Dispatcher.BindThenCall | include/rpc/dispatcher.h:48-53 | after binding a new name and a rejected second bind of it, a call with matching arity is answered with the first adaptor's result |
| Dispatcher.EventManager.constructor | include/rpc/dispatcher.h:28 | a new registry is empty |
| Dispatcher.EventManager.EnforceUniqueName | include/rpc/dispatcher.h:48 | fails with DuplicateName exactly when the name is bound |
| Dispatcher.EventManager.Bind | include/rpc/dispatcher.h:48-53 | new map and outcome are those of BindStep |
| Dispatcher.EventManager.Assign | include/rpc/dispatcher.h:30-34 | this registry takes the other's map, the other is unchanged, both have the same names |
| Dispatcher.DefaultDispatcher.constructor | include/rpc/dispatcher.h:88-92 | a new dispatcher owns a fresh, empty registry |
| Dispatcher.DefaultDispatcher.DispatchObject | include/rpc/dispatcher.h:116-117 | over its own registry, suppression defaulting to off: a call to a bound name with matching arity is answered under its id with the adaptor's result, a call to an unbound name with MethodNotFound; a notification is never answered; a non-message throws; a response carries the call's id; with suppression every call is answered; without it a failing call to a bound name throws; the outcome is Dispatch's over its registry |
| Server.IndexOf | lib/rpc/server.cc:191 | the first position holding the element, or the length iff it is absent |
| Server.EraseFirstAt | lib/rpc/server.cc:190-195 | erasing cuts out exactly the entry `find` locates, keeping the order of the rest; an absent element changes nothing |
| Server.EraseFirstCount | lib/rpc/server.cc:190-195 | erasing removes one occurrence of the element if present and nothing else |
| Server.Find | lib/rpc/server.cc:191 | the linear search returns the first matching position (or the length) |
| Server.Session.constructor | lib/rpc/server.cc:72-74 | a new session records its parent server and the suppression flag it was given |
| Server.Session.Start | lib/rpc/server.cc:75 | the session is started |
| Server.Session.Close | lib/rpc/server.cc:87 | the session is closed |
| Server.Impl.Listening | lib/rpc/server.cc:25-38 | the port and address constructors listen on their endpoint, with no sessions and suppression off |
| Server.Impl.Unbound | lib/rpc/server.cc:40-47 | the endpoint-less constructor does not listen, with no sessions and suppression off |
| Server.Impl.Accept | lib/rpc/server.cc:49-66 | on success the acceptor listens on the endpoint; on failure nothing changes |
| Server.Impl.StartAccept | lib/rpc/server.cc:68-69 | an accept is armed and nothing else changes |
| Server.Impl.AcceptCompleted | lib/rpc/server.cc:68-83 | success appends exactly one fresh, started session capturing the current suppression flag; failure leaves the registry unchanged; the completion consumes the armed accept and a new one is armed in both cases |
| Server.Impl.CloseSessions | lib/rpc/server.cc:85-90 | every tracked session is closed and the registry is empty |
| Server.Impl.Stop | lib/rpc/server.cc:92-95 | the reactor is stopped and no worker is left unjoined |
| Server.Server.FromPort | lib/rpc/server.cc:109-113 | listens on all IPv4 interfaces at the port and has an accept armed, with no sessions, suppression off, the reactor running, no workers and a fresh empty dispatcher |
| Server.Server.FromAddress | lib/rpc/server.cc:119-124 | listens on the address and port and has an accept armed, with no sessions, suppression off, the reactor running, no workers and a fresh empty dispatcher |
| Server.Server.NoEndpoint | lib/rpc/server.cc:126-131 | does not listen and has no accept armed, with no sessions, suppression off, the reactor running, no workers and a fresh empty dispatcher |
| Server.Server.WithDispatcher | lib/rpc/server.cc:133-138 | uses the given dispatcher; does not listen and has no accept armed, with no sessions, suppression off, the reactor running and no workers |
| Server.Server.MoveFrom | lib/rpc/server.cc:115-117 | takes over the other's pimpl and dispatcher and leaves both null there |
| Server.Server.Accept | lib/rpc/server.cc:140-152 | a successful bind leaves the server listening with an accept armed; a failed one is reported and arms nothing; sessions, suppression flag, reactor and workers are kept |
| Server.Server.MoveAssign | lib/rpc/server.cc:160-166 | the source's pimpl and dispatcher move over and both are null in the source; a self-move leaves null; the moved implementation keeps the moved-from server as its parent |
| Server.Server.Destroy | lib/rpc/server.cc:154-158 | stops the implementation only when pimpl is non-null |
| Server.Server.SuppressExceptions | lib/rpc/server.cc:168-170 | only the suppression flag changes |
| Server.Server.AsyncRun | lib/rpc/server.cc:177-184 | adds n workers on the shared reactor |
| Server.Server.Stop | lib/rpc/server.cc:186 | the reactor is stopped and all workers are joined; sessions, endpoint, listening, armed accept and suppression flag are kept |
| Server.Server.CloseSessions | lib/rpc/server.cc:188 | every tracked session is closed, keeping its started flag, and the registry is empty; endpoint, armed accept, suppression flag, reactor and workers are kept |
| Server.Server.CloseSession | lib/rpc/server.cc:190-195 | the registry loses only its first entry equal to the session; the session is not closed |
| Server.MoveThenDestroySource | lib/rpc/server.cc:154-166 | for any two distinct servers, moving one into the other and destroying the moved-from one leaves the handed-over implementation unchanged in its new owner |
| Interop.GoRequestIsCall | include/rpc/dispatcher.h:94-119 | a Go Request converts to `call_t` with id, name and arguments intact; its tag 0 is no `request_type` code |
| Interop.GoNotificationIsNotification | include/rpc/dispatcher.h:96-97 | a Go Notification converts to `notification_t`, tagged `request_type::notification` |
| Interop.GoNotificationNeverAnswered | include/rpc/dispatcher.h:130-132 | a Go Notification is never answered, whatever the registry and the suppression flag |
| Interop.GoCallRoundTrip | clients/golang/client.go:113-134 | a Go Request to a bound function with matching arity is answered under its id, and the Go client accepts that Response as the reply with the function's result |

## Left out

- Socket work in the server is not modelled. That covers `acceptor_.open/bind/listen`, `async_accept`, `run`/`run_one`/`poll`/`poll_one` and the `thread_group` workers. An accept completion and a bind outcome are inputs instead.
- Go networking and the clock are not modelled. That covers `net.Dial`/`DialTimeout`, `Close`, `SetDeadline`, `SetReadDeadline`, `SetWriteDeadline` and `time.Now`. The dial answer, the I/O outcomes and the current time are parameters.
- GoClient.Client.Reconnect: closing the previous connection is I/O and is not modelled.
- Byte-level msgpack encoding and decoding belong to foreign libraries and are not modelled. The integer kinds the decoder chooses are free inputs, and the argument list is encoded as an array.
- `fmt.Sprint` on the error slot is not modelled. A `Remote` error carries the error value itself.
- `ReconnectInterval` is a package variable in the source. The model fixes it at its default of one second.
- Overflow of Go's `time.Duration` arithmetic is not modelled.
- The template `bind` overloads, `pack` and the bodies in `dispatcher.inl` are not part of this model. `Dispatch` follows the header's declarations and comments, plus the choices listed above where they leave the behaviour open. `dispatch(sbuffer)` needs byte decoding and is left out.
- GoClient.CallStep and GoClient.SendStep: the source panics on a nil connection. In `Call` the panic is at the `io.Writer` assertion, after `nextId` has advanced. In `Send` it is at `conn.Write`, after encoding. The model returns a `NilConnection` error instead and keeps the state the panic would leave.
- Server.Server.Accept: every `server` method except the destructor requires a non-null `pimpl` (likewise Server.Server.SuppressExceptions, AsyncRun, Stop, CloseSessions and CloseSession). On a moved-from server the source dereferences a null `pimpl`, which is undefined behaviour and is not modelled.
- Dispatcher.Classify: it does not model tolerance for arrays longer than the tuple, because that conversion lives in the msgpack library.
- Concurrency is not modelled. That covers unlocked `sessions_` updates from worker threads and `std::atomic_bool`. Everything runs sequentially.
- Logging (`RPCLOG_*` and the log channels) is not modelled.
- The inner workings of `server_session` (read loop, write queue, its own deregistration) are not modelled. A session is only its started and closed flags.
- Server.Server.MoveAssign: destroying the implementation previously owned by the target is not modelled.
- Server.Server.FromPort: a constructor whose acceptor fails to bind throws in the source. The model assumes the bind succeeds (likewise Server.Server.FromAddress).
- The echo example client is an interactive CLI and is not modelled.
- The Go integration test makes no assertions and is not modelled.

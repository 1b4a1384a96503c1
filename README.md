# WebSocketConnection, modelled in Dafny

A model of the connection state machine of WalletConnectSwift's
`WebSocketConnection`. The class wraps a Starscream `WebSocket` for one
session URL. It keeps `isOpen` and a repeating 30-second ping timer in step
with the events the socket delivers on a serial callback queue, and calls
back the three optional closures the connection was created with. `send`
writes only while open and logs each outgoing text. The log line renders the
text as a JSON-RPC request if it decodes as one, else as a response, else
shows it raw.

Files:

- `wrappers.dfy`: `Option`, for Swift's optionals.
- `socket.dfy`: what the connection consumes from Starscream: every case of `WebSocketEvent`, the session URL and an opaque transport error.
- `trace.dfy`: the tagged effects and the callback projection of a trace. An effect is a socket call, a log line or a callback invocation.
- `outgoing_log.dfy`: a chain of fallback decodes and the outgoing log line built from it.
- `connection_model.dfy`: the connection's state as a value (`isOpen`, the ping timers, `pingTimer`, the effect trace). It has one pure transition per call, socket event or timer firing, and `Run` over a sequence of them.
- `connection.dfy`: the class `WebSocketConnection`. Its fields are updated in place. Each method's postcondition says what changes and equates the new state with the pure transition applied to the old one.
- `properties.dfy`: lemmas about whole runs.

Modelling choices:

- A callback invocation is an effect appended to the trace. Nothing is appended when the closure was not given (Swift's `onConnect?()`). `OnConnect` and `OnDisconnect` record the value of `isOpen` the callback sees. This captures that `isOpen` is assigned before the callback runs.
- `timers` is the run loop's record of every ping timer the connection scheduled. `pingTimer` is the index of the one the field refers to. `invalidate()` clears a timer's `valid` flag for good. The run loop never fires an invalidated timer, so `Tick(i)` of such a timer does nothing.
- The two serializers are the `Decoder` parameters, given to the constructor. Each one fuses `deserialize(text, url:)` and `.json().string` into one partial function, `None` when either throws.
- `open`, `close` and `send` may interleave freely with events and timer firings in `Run`. All the run lemmas hold for every such interleaving.

The code departs from some properties a reader might expect of it. The model follows the code:

- The ping interval is the class constant 30 (`PingInterval`), not a construction parameter.
- "Exactly one live heartbeat" holds only while the socket never reports `connected` on an open connection (`RunKeepsSingleHeartbeat`). A second `connected` overwrites `pingTimer` without invalidating the old timer. That timer then goes on pinging after a disconnect (`ConnectTwiceLeaksTimer`).
- `pingTimer` is never reset to `nil` after `invalidate()`. The invariant proved is therefore that the timer it refers to is live exactly while open (`HeartbeatIffLastConnected`), not that the field is non-nil exactly while open.
- `onDisconnect` is not limited to once per open cycle. Every terminal event calls it, even on a closed connection (`TerminalTwiceDisconnectsTwice`).

## Model

| member | source | states |
|---|---|---|
| `OutgoingLog.FirstSome` | Sources/Internal/WebSocketConnection.swift:57-62 | the result is the value of the first successful attempt, and the fallback when every attempt failed |
| `OutgoingLog.OutgoingLine` | Sources/Internal/WebSocketConnection.swift:56-64 | the line always starts with `"WC: ==> "`; it shows the decoded request whenever request decoding succeeds, the decoded response only when request decoding fails, and the raw text only when both fail |
| `ConnectionModel.Invalidated` | Sources/Internal/WebSocketConnection.swift:84 | invalidating keeps every timer's interval and repetition; exactly the current timer stops, and the others keep their state; nothing happens without a current timer |
| `ConnectionModel.OnSend` | Sources/Internal/WebSocketConnection.swift:50-54 | send never changes `isOpen` or the timers; while closed it adds no effect at all; while open it adds exactly the socket write of the text, then exactly one outgoing log line |
| `ConnectionModel.OnEvent` | Sources/Internal/WebSocketConnection.swift:68-110 | `connected` opens, schedules one repeating 30-second timer as the new current timer and then calls `onConnect`, which sees `isOpen` true; `disconnected`, `cancelled` and `error(e)` close, invalidate the current timer and then call `onDisconnect` with `nil`, or `e` unchanged for `error`, which sees `isOpen` false; `text(m)` calls only `onTextReceive(m)`; every other event changes nothing |
| `ConnectionModel.OnPingTick` | Sources/Internal/WebSocketConnection.swift:75-78 | a firing of a live timer adds the log line `"WC: ==> ping"` followed by one empty ping frame; a firing never changes `isOpen` or the timers, and a dead timer adds nothing |
| `ConnectionModel.Apply` | Sources/Internal/WebSocketConnection.swift:42-110 | every call, event or timer firing only appends to the effect trace |
| `Connection.WebSocketConnection.constructor` | Sources/Internal/WebSocketConnection.swift:27-40 | a new connection is closed, has no ping timer and has done nothing; it keeps its URL, callbacks and serializers |
| `Connection.WebSocketConnection.Open` | Sources/Internal/WebSocketConnection.swift:42-44 | only a socket connect is issued; `isOpen` and the timers are untouched |
| `Connection.WebSocketConnection.Close` | Sources/Internal/WebSocketConnection.swift:46-48 | only a socket disconnect is issued; `isOpen` and the timers are untouched |
| `Connection.WebSocketConnection.Send` | Sources/Internal/WebSocketConnection.swift:50-54 | while closed nothing is written or logged; while open the text is written unchanged and then logged once |
| `Connection.WebSocketConnection.Log` | Sources/Internal/WebSocketConnection.swift:56-64 | the imperative request-else-response-else-raw choice appends exactly the line of the fallback chain |
| `Connection.WebSocketConnection.PingTick` | Sources/Internal/WebSocketConnection.swift:75-78 | the timer closure logs `"WC: ==> ping"` and then writes an empty ping frame, only for a live timer, changing nothing else |
| `Connection.WebSocketConnection.DidReceive` | Sources/Internal/WebSocketConnection.swift:68-110 | a state-changing event sets `isOpen` to whether it is `connected`; other events leave `isOpen` and the timers alone; the whole new state is the event transition of the old one |
| `Connection.WebSocketConnection.InvalidatePingTimer` | Sources/Internal/WebSocketConnection.swift:84 | `pingTimer?.invalidate()` stops exactly the current timer |
| `ConnectionProperties.RunIsOpen` | Sources/Internal/WebSocketConnection.swift:68-110 | over any run, `isOpen` is the value fixed by the last `connected` or terminal event; it is the initial value when there was none |
| `ConnectionProperties.IsOpenIffLastConnected` | Sources/Internal/WebSocketConnection.swift:25-35 | from a fresh connection, `isOpen` holds iff the last state-changing event was `connected` |
| `ConnectionProperties.InitialInv` | Sources/Internal/WebSocketConnection.swift:15-35 | a fresh connection is closed with no live heartbeat, and satisfies the invariant |
| `ConnectionProperties.ApplyKeepsInv` | Sources/Internal/WebSocketConnection.swift:71-108 | every step keeps the invariant that the current timer is live exactly while open |
| `ConnectionProperties.RunKeepsInv` | Sources/Internal/WebSocketConnection.swift:71-108 | any run keeps that invariant |
| `ConnectionProperties.HeartbeatIffLastConnected` | Sources/Internal/WebSocketConnection.swift:71-108 | from a fresh connection, the current ping timer runs iff the last state-changing event was `connected`; no terminal event leaves it running |
| `ConnectionProperties.NoPingAfterTerminal` | Sources/Internal/WebSocketConnection.swift:80-85 | after a terminal event, a firing of the current ping timer sends nothing |
| `ConnectionProperties.Reaction` | Sources/Internal/WebSocketConnection.swift:79-108 | an action causes at most one callback; `onConnect` sees the connection open and `onDisconnect` sees it closed; `onDisconnect` is only called for a terminal event, with a non-nil cause only for `error` carrying that cause; `onTextReceive(m)` only for `text(m)` |
| `ConnectionProperties.CallbacksOfEvent` | Sources/Internal/WebSocketConnection.swift:68-110 | the callbacks an event adds to the trace are exactly its reaction |
| `ConnectionProperties.CallbacksOfApply` | Sources/Internal/WebSocketConnection.swift:42-110 | calls and timer firings add no callback; an event adds exactly its reaction |
| `ConnectionProperties.CallbacksOfRun` | Sources/Internal/WebSocketConnection.swift:68-110 | over any run, the callbacks follow the order of the events that cause them, with none added and none lost |
| `ConnectionProperties.ConnectTextTextDisconnect` | Sources/Internal/WebSocketConnection.swift:71-88 | with all callbacks given, `connected, text("a"), text("b"), disconnected` calls `onConnect, onTextReceive("a"), onTextReceive("b"), onDisconnect(nil)` in that order |
| `ConnectionProperties.TerminalTwiceDisconnectsTwice` | Sources/Internal/WebSocketConnection.swift:80-108 | `disconnected` followed by `cancelled` calls `onDisconnect(nil)` twice |
| `ConnectionProperties.RunExtendsTrace` | Sources/Internal/WebSocketConnection.swift:42-110 | the effect trace of a run extends the one it started from |
| `ConnectionProperties.ApplyKeepsSingleHeartbeat` | Sources/Internal/WebSocketConnection.swift:71-108 | no timer other than the current one runs after any step, except `connected` arriving while open |
| `ConnectionProperties.RunKeepsSingleHeartbeat` | Sources/Internal/WebSocketConnection.swift:71-108 | if the socket never reports `connected` on an open connection, at most one ping timer runs at any time |
| `ConnectionProperties.ConnectTwiceLeaksTimer` | Sources/Internal/WebSocketConnection.swift:75 | after `connected, connected, disconnected` the connection is closed, but the first timer still runs and its firing sends a ping |

## Left out

- The Starscream socket itself: framing, connecting, disconnecting and building the `URLRequest`. Its calls appear only as effects in the trace, and the `client` argument of `didReceive` is not modelled.
- Real-time timer scheduling and the 30-second wait. A timer firing is an action the environment may perform at any point.
- `DispatchQueue` and the serial callback queue: events are delivered one at a time by assumption. The timer closure's weak capture of `self` is not modelled, so a firing always reaches the socket.
- The internals of `JSONRPCSerializer` and of `.json().string`: the serializers are arbitrary partial functions given to the constructor, where the source creates them itself.
- `LogService.shared` as a singleton: its lines are `Logged` effects. Every `print` call is left out.
- `WCURL` beyond the bridge URL and topic of the session.

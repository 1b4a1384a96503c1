/**
 * The state of a `WebSocketConnection` as a value, and one pure transition
 * per thing that can happen to it: a call of `open`, `close` or `send`, an
 * event delivered by the socket on the serial callback queue, or a firing
 * of a ping timer. The class in module Connection is proved to follow
 * these transitions; the properties of whole runs are proved about them.
 */
module ConnectionModel {
  import opened Wrappers
  import opened Socket
  import opened Trace
  import opened OutgoingLog

  /** The interval, in seconds, of the ping timer; a constant of the class. */
  const PingInterval: nat := 30

  /** What the connection is created with and never changes. */
  datatype Config = Config(
    url: WCURL,
    hasOnConnect: bool,
    hasOnDisconnect: bool,
    hasOnTextReceive: bool,
    decodeRequest: Decoder,
    decodeResponse: Decoder)

  /** A `Timer` scheduled on the run loop; `invalidate()` clears `valid` for good. */
  datatype PingTimer = PingTimer(interval: nat, repeats: bool, valid: bool)

  /**
   * `timers` holds every ping timer ever scheduled, in order; `pingTimer`
   * is the index of the one the `pingTimer` field refers to, if any.
   */
  datatype State = State(isOpen: bool, timers: seq<PingTimer>, pingTimer: Option<nat>, effects: seq<Effect>)

  /** A freshly constructed connection. */
  const Initial: State := State(false, [], None, [])

  datatype Action =
    | Open
    | Close
    | Send(text: string)
    | Deliver(event: WebSocketEvent)
      /** The run loop fires the timer with this index. */
    | Tick(timer: nat)

  /** Swift's `callback?(...)`: the call happens only when a callback was registered. */
  function Invoke(registered: bool, call: Effect): (r: seq<Effect>)
    ensures registered ==> r == [call]
    ensures !registered ==> r == []
  {
    if registered then [call] else []
  }

  /** `pingTimer?.invalidate()`: the current timer, if there is one, stops for good. */
  function Invalidated(timers: seq<PingTimer>, current: Option<nat>): (r: seq<PingTimer>)
    ensures |r| == |timers|
    ensures forall i | 0 <= i < |r| ::
              r[i].interval == timers[i].interval && r[i].repeats == timers[i].repeats
    ensures forall i | 0 <= i < |r| ::
              r[i].valid == (timers[i].valid && !(current.Some? && current.value == i))
  {
    if current.Some? && current.value < |timers| then
      timers[current.value := timers[current.value].(valid := false)]
    else
      timers
  }

  /** Shared by the three terminal events: closed, and the current timer invalidated. */
  function Closed(s: State): State {
    s.(isOpen := false, timers := Invalidated(s.timers, s.pingTimer))
  }

  function OnOpen(s: State): State {
    s.(effects := s.effects + [SocketConnect])
  }

  function OnClose(s: State): State {
    s.(effects := s.effects + [SocketDisconnect])
  }

  /** `send`: nothing at all unless open; else the write, then the log line. */
  function OnSend(c: Config, s: State, text: string): (t: State)
    ensures t.isOpen == s.isOpen && t.timers == s.timers && t.pingTimer == s.pingTimer
    ensures !s.isOpen ==> t.effects == s.effects
    ensures s.isOpen ==>
              t.effects == s.effects + [SocketWrite(text),
                                        Logged(OutgoingLine(text, c.url, c.decodeRequest, c.decodeResponse))]
  {
    if !s.isOpen then s
    else
      var written := s.(effects := s.effects + [SocketWrite(text)]);
      written.(effects := written.effects + [Logged(OutgoingLine(text, c.url, c.decodeRequest, c.decodeResponse))])
  }

  /** The transition of `didReceive(event:client:)`. */
  function OnEvent(c: Config, s: State, e: WebSocketEvent): (t: State)
    ensures e.Connected? ==>
              && t.isOpen
              && t.timers == s.timers + [PingTimer(PingInterval, true, true)]
              && t.pingTimer == Some(|s.timers|)
              && t.effects == s.effects + (if c.hasOnConnect then [OnConnect(true)] else [])
    ensures IsTerminal(e) ==>
              && !t.isOpen
              && t.timers == Invalidated(s.timers, s.pingTimer)
              && t.pingTimer == s.pingTimer
              && t.effects == s.effects + (if c.hasOnDisconnect
                                           then [OnDisconnect(if e.Error? then e.error else None, false)]
                                           else [])
    ensures e.Text? ==>
              && t.isOpen == s.isOpen && t.timers == s.timers && t.pingTimer == s.pingTimer
              && t.effects == s.effects + (if c.hasOnTextReceive then [OnTextReceive(e.message)] else [])
    ensures !ChangesState(e) && !e.Text? ==> t == s
  {
    match e
    case Connected(_) =>
      var started := s.(isOpen := true,
                       timers := s.timers + [PingTimer(PingInterval, true, true)],
                       pingTimer := Some(|s.timers|));
      started.(effects := started.effects + Invoke(c.hasOnConnect, OnConnect(started.isOpen)))
    case Disconnected(_, _) =>
      var closed := Closed(s);
      closed.(effects := closed.effects + Invoke(c.hasOnDisconnect, OnDisconnect(None, closed.isOpen)))
    case Text(message) =>
      s.(effects := s.effects + Invoke(c.hasOnTextReceive, OnTextReceive(message)))
    case Error(error) =>
      var closed := Closed(s);
      closed.(effects := closed.effects + Invoke(c.hasOnDisconnect, OnDisconnect(error, closed.isOpen)))
    case Cancelled =>
      var closed := Closed(s);
      closed.(effects := closed.effects + Invoke(c.hasOnDisconnect, OnDisconnect(None, closed.isOpen)))
    case _ => s
  }

  /** Whether the timer with index `i` would be fired by the run loop. */
  predicate Live(s: State, i: nat) {
    i < |s.timers| && s.timers[i].valid
  }

  /** The body of the ping timer's closure: log, then an empty ping frame. */
  function OnPingTick(s: State, i: nat): (t: State)
    ensures t.isOpen == s.isOpen && t.timers == s.timers && t.pingTimer == s.pingTimer
    ensures Live(s, i) ==> t.effects == s.effects + [Logged(PingLine), SocketPing([])]
    ensures !Live(s, i) ==> t.effects == s.effects
  {
    if !Live(s, i) then s
    else
      var logged := s.(effects := s.effects + [Logged(PingLine)]);
      logged.(effects := logged.effects + [SocketPing([])])
  }

  function Apply(c: Config, s: State, a: Action): (t: State)
    ensures s.effects <= t.effects
  {
    match a
    case Open => OnOpen(s)
    case Close => OnClose(s)
    case Send(text) => OnSend(c, s, text)
    case Deliver(e) => OnEvent(c, s, e)
    case Tick(i) => OnPingTick(s, i)
  }

  /** The state after the actions, performed one at a time in order. */
  function Run(c: Config, s: State, acts: seq<Action>): State
    decreases |acts|
  {
    if acts == [] then s
    else Apply(c, Run(c, s, acts[..|acts| - 1]), acts[|acts| - 1])
  }
}

/**
 * The class `WebSocketConnection` with its fields, updated in place. Every
 * method states what it changes and that its new state is the transition
 * of module ConnectionModel applied to the old one.
 */
module Connection {
  import opened Wrappers
  import opened Socket
  import opened Trace
  import opened OutgoingLog
  import opened ConnectionModel

  class WebSocketConnection {
    const url: WCURL
    /** Whether the optional `onConnect`, `onDisconnect`, `onTextReceive` closures were given. */
    const hasOnConnect: bool
    const hasOnDisconnect: bool
    const hasOnTextReceive: bool
    /** The request and response serializers, each followed by rendering to a JSON string. */
    const requestDecoder: Decoder
    const responseDecoder: Decoder

    var isOpen: bool
    /** The run loop's record of every ping timer this connection scheduled. */
    var timers: seq<PingTimer>
    /** The `pingTimer` field, as an index into `timers`. */
    var pingTimer: Option<nat>
    /** Everything done to the socket, the log sink and the callbacks, in order. */
    var effects: seq<Effect>

    /** `pingTimer` never refers to a timer that was not scheduled. */
    ghost predicate Valid()
      reads this
    {
      pingTimer.Some? ==> pingTimer.value < |timers|
    }

    function Snapshot(): State
      reads this
    {
      State(isOpen, timers, pingTimer, effects)
    }

    function Cfg(): Config {
      Config(url, hasOnConnect, hasOnDisconnect, hasOnTextReceive, requestDecoder, responseDecoder)
    }

    constructor (url: WCURL, onConnect: bool, onDisconnect: bool, onTextReceive: bool,
                 requestDecoder: Decoder, responseDecoder: Decoder)
      ensures Valid()
      ensures !isOpen && pingTimer == None && timers == [] && effects == []
      ensures Snapshot() == Initial
      ensures this.url == url && this.hasOnConnect == onConnect
      ensures this.hasOnDisconnect == onDisconnect && this.hasOnTextReceive == onTextReceive
      ensures this.requestDecoder == requestDecoder && this.responseDecoder == responseDecoder
    {
      this.url := url;
      this.hasOnConnect := onConnect;
      this.hasOnDisconnect := onDisconnect;
      this.hasOnTextReceive := onTextReceive;
      this.requestDecoder := requestDecoder;
      this.responseDecoder := responseDecoder;
      isOpen := false;
      timers := [];
      pingTimer := None;
      effects := [];
    }

    /** Only asks the socket to connect; `isOpen` changes when the event arrives. */
    method Open()
      modifies this`effects
      ensures effects == old(effects) + [SocketConnect]
      ensures Snapshot() == Apply(Cfg(), old(Snapshot()), Action.Open)
    {
      effects := effects + [SocketConnect];
    }

    /** Only asks the socket to disconnect; `isOpen` changes when the event arrives. */
    method Close()
      modifies this`effects
      ensures effects == old(effects) + [SocketDisconnect]
      ensures Snapshot() == Apply(Cfg(), old(Snapshot()), Action.Close)
    {
      effects := effects + [SocketDisconnect];
    }

    method Send(text: string)
      modifies this`effects
      ensures !old(isOpen) ==> effects == old(effects)
      ensures old(isOpen) ==>
                effects == old(effects) + [SocketWrite(text),
                                           Logged(OutgoingLine(text, url, requestDecoder, responseDecoder))]
      ensures Snapshot() == Apply(Cfg(), old(Snapshot()), Action.Send(text))
    {
      if !isOpen {
        return;
      }
      effects := effects + [SocketWrite(text)];
      Log(text);
    }

    /** The request rendering if there is one, else the response rendering, else the raw text. */
    method Log(text: string)
      modifies this`effects
      ensures effects == old(effects) + [Logged(OutgoingLine(text, url, requestDecoder, responseDecoder))]
    {
      var line: string;
      var request := requestDecoder(text, url);
      if request.Some? {
        line := Prefix + request.value;
      } else {
        var response := responseDecoder(text, url);
        if response.Some? {
          line := Prefix + response.value;
        } else {
          line := Prefix + text;
        }
      }
      effects := effects + [Logged(line)];
    }

    /** The body of the closure of the ping timer with index `i`, when the run loop fires it. */
    method PingTick(i: nat)
      modifies this`effects
      ensures Live(old(Snapshot()), i) ==> effects == old(effects) + [Logged(PingLine), SocketPing([])]
      ensures !Live(old(Snapshot()), i) ==> effects == old(effects)
      ensures Snapshot() == Apply(Cfg(), old(Snapshot()), Tick(i))
    {
      if i < |timers| && timers[i].valid {
        effects := effects + [Logged(PingLine)];
        effects := effects + [SocketPing([])];
      }
    }

    /** `didReceive(event:client:)`, run on the serial callback queue. */
    method DidReceive(event: WebSocketEvent)
      requires Valid()
      modifies this
      ensures Valid()
      ensures ChangesState(event) ==> isOpen == event.Connected?
      ensures !ChangesState(event) ==> isOpen == old(isOpen) && timers == old(timers) && pingTimer == old(pingTimer)
      ensures Snapshot() == Apply(Cfg(), old(Snapshot()), Deliver(event))
    {
      match event {
        case Connected(_) =>
          isOpen := true;
          timers := timers + [PingTimer(PingInterval, true, true)];
          pingTimer := Some(|timers| - 1);
          if hasOnConnect {
            effects := effects + [OnConnect(isOpen)];
          }
        case Disconnected(_, _) =>
          isOpen := false;
          InvalidatePingTimer();
          if hasOnDisconnect {
            effects := effects + [OnDisconnect(None, isOpen)];
          }
        case Text(message) =>
          if hasOnTextReceive {
            effects := effects + [OnTextReceive(message)];
          }
        case Binary(_) =>
        case Pong(_) =>
        case Ping(_) =>
        case Error(error) =>
          isOpen := false;
          InvalidatePingTimer();
          if hasOnDisconnect {
            effects := effects + [OnDisconnect(error, isOpen)];
          }
        case ViabilityChanged(_) =>
        case ReconnectSuggested(_) =>
        case Cancelled =>
          isOpen := false;
          InvalidatePingTimer();
          if hasOnDisconnect {
            effects := effects + [OnDisconnect(None, isOpen)];
          }
      }
    }

    /** `pingTimer?.invalidate()`. */
    method InvalidatePingTimer()
      requires Valid()
      modifies this`timers
      ensures Valid()
      ensures timers == Invalidated(old(timers), pingTimer)
    {
      if pingTimer.Some? {
        var i := pingTimer.value;
        timers := timers[i := timers[i].(valid := false)];
      }
    }
  }
}

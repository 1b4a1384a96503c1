/**
 * The interface of the Starscream socket library that the connection
 * consumes: the events its delegate receives, and the session URL the
 * socket is created for.
 */
module Socket {
  import opened Wrappers

  newtype byte = x: int | 0 <= x < 0x100

  newtype uint16 = x: int | 0 <= x < 0x1_0000

  /** The session URL; only the two parts the connection reads are modelled. */
  datatype WCURL = WCURL(bridgeURL: string, topic: string)

  /** An opaque Swift `Error`, carried by the `error` event and forwarded unchanged. */
  datatype TransportError = TransportError(description: string)

  /** Starscream's `WebSocketEvent`, one constructor per case. */
  datatype WebSocketEvent =
    | Connected(headers: map<string, string>)
    | Disconnected(reason: string, code: uint16)
    | Text(message: string)
    | Binary(data: seq<byte>)
    | Pong(pongData: Option<seq<byte>>)
    | Ping(pingData: Option<seq<byte>>)
    | Error(error: Option<TransportError>)
    | ViabilityChanged(viable: bool)
    | ReconnectSuggested(suggested: bool)
    | Cancelled

  /** The events that end an open cycle. */
  predicate IsTerminal(e: WebSocketEvent) {
    e.Disconnected? || e.Error? || e.Cancelled?
  }

  /** The events after which `isOpen` has a fixed value. */
  predicate ChangesState(e: WebSocketEvent) {
    e.Connected? || IsTerminal(e)
  }
}

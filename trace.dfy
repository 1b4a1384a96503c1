/**
 * What the connection does to the world, as an append-only trace: calls
 * into the socket, lines given to the log sink, and invocations of the
 * three callbacks the connection was created with.
 */
module Trace {
  import opened Wrappers
  import opened Socket

  datatype Effect =
    | SocketConnect
    | SocketDisconnect
    | SocketWrite(text: string)
    | SocketPing(data: seq<byte>)
    | Logged(line: string)
      /** `openSeen` is the value of `isOpen` the callback observes. */
    | OnConnect(openSeen: bool)
    | OnDisconnect(cause: Option<TransportError>, openSeen: bool)
    | OnTextReceive(message: string)

  predicate IsCallback(f: Effect) {
    f.OnConnect? || f.OnDisconnect? || f.OnTextReceive?
  }

  /** The callback invocations of a trace, in order. */
  function Callbacks(trace: seq<Effect>): (r: seq<Effect>)
    ensures |r| <= |trace|
    ensures forall f | f in r :: IsCallback(f) && f in trace
    ensures (forall f | f in trace :: !IsCallback(f)) ==> r == []
  {
    if trace == [] then []
    else (if IsCallback(trace[0]) then [trace[0]] else []) + Callbacks(trace[1..])
  }

  lemma {:induction false} CallbacksAppend(a: seq<Effect>, b: seq<Effect>)
    ensures Callbacks(a + b) == Callbacks(a) + Callbacks(b)
  {
    if a == [] {
      assert a + b == b;
    } else {
      assert (a + b)[0] == a[0];
      assert (a + b)[1..] == a[1..] + b;
      CallbacksAppend(a[1..], b);
    }
  }
}

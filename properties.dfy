/**
 * What holds over any run of a connection: any interleaving of calls of
 * `open`, `close` and `send`, socket events and timer firings.
 */
module ConnectionProperties {
  import opened Wrappers
  import opened Socket
  import opened Trace
  import opened OutgoingLog
  import opened ConnectionModel

  /**
   * The value `isOpen` must have after the actions, read off the last event
   * that fixes it: `Some(true)` for `connected`, `Some(false)` for a terminal
   * event, `None` when no such event happened.
   */
  function LastOpenSignal(acts: seq<Action>): (r: Option<bool>)
    decreases |acts|
  {
    if acts == [] then None
    else
      var a := acts[|acts| - 1];
      if a.Deliver? && ChangesState(a.event) then Some(a.event.Connected?)
      else LastOpenSignal(acts[..|acts| - 1])
  }

  lemma {:induction false} RunIsOpen(c: Config, s: State, acts: seq<Action>)
    ensures Run(c, s, acts).isOpen == (if LastOpenSignal(acts).Some? then LastOpenSignal(acts).value else s.isOpen)
    decreases |acts|
  {
    if acts != [] {
      RunIsOpen(c, s, acts[..|acts| - 1]);
    }
  }

  /** From a fresh connection, `isOpen` iff the last state-changing event was `connected`. */
  lemma IsOpenIffLastConnected(c: Config, acts: seq<Action>)
    ensures Run(c, Initial, acts).isOpen <==> LastOpenSignal(acts) == Some(true)
  {
    RunIsOpen(c, Initial, acts);
  }

  /** The timer the `pingTimer` field refers to is scheduled and not invalidated. */
  predicate HeartbeatLive(s: State) {
    s.pingTimer.Some? && Live(s, s.pingTimer.value)
  }

  /** `pingTimer` is in range, and its timer runs exactly while the connection is open. */
  predicate Inv(s: State) {
    && (s.pingTimer.Some? ==> s.pingTimer.value < |s.timers|)
    && (HeartbeatLive(s) <==> s.isOpen)
  }

  lemma InitialInv()
    ensures Inv(Initial) && !Initial.isOpen && !HeartbeatLive(Initial)
  {
  }

  lemma ApplyKeepsInv(c: Config, s: State, a: Action)
    requires Inv(s)
    ensures Inv(Apply(c, s, a))
  {
    if a.Deliver? && IsTerminal(a.event) {
      var t := Apply(c, s, a);
      assert !HeartbeatLive(t) by {
        if t.pingTimer.Some? && t.pingTimer.value < |t.timers| {
          assert !t.timers[t.pingTimer.value].valid;
        }
      }
    }
  }

  lemma {:induction false} RunKeepsInv(c: Config, s: State, acts: seq<Action>)
    requires Inv(s)
    ensures Inv(Run(c, s, acts))
    decreases |acts|
  {
    if acts != [] {
      RunKeepsInv(c, s, acts[..|acts| - 1]);
      ApplyKeepsInv(c, Run(c, s, acts[..|acts| - 1]), acts[|acts| - 1]);
    }
  }

  /** From a fresh connection, the heartbeat runs iff the last state-changing event was `connected`. */
  lemma HeartbeatIffLastConnected(c: Config, acts: seq<Action>)
    ensures HeartbeatLive(Run(c, Initial, acts)) <==> LastOpenSignal(acts) == Some(true)
  {
    RunKeepsInv(c, Initial, acts);
    RunIsOpen(c, Initial, acts);
  }

  /** After a terminal event, a firing of the current ping timer sends nothing. */
  lemma NoPingAfterTerminal(c: Config, s: State, e: WebSocketEvent)
    requires IsTerminal(e) && s.pingTimer.Some?
    ensures OnPingTick(OnEvent(c, s, e), s.pingTimer.value) == OnEvent(c, s, e)
  {
    var t := OnEvent(c, s, e);
    var i := s.pingTimer.value;
    if i < |t.timers| {
      assert !t.timers[i].valid;
    }
  }

  /** The callback invocations one action causes, by its kind alone. */
  function Reaction(c: Config, a: Action): (r: seq<Effect>)
    ensures |r| <= 1
    ensures forall f | f in r :: IsCallback(f)
    ensures forall f | f in r && f.OnConnect? :: f.openSeen
    ensures forall f | f in r && f.OnDisconnect? :: !f.openSeen && a.Deliver? && IsTerminal(a.event)
    ensures forall f | f in r && f.OnDisconnect? && f.cause.Some? :: a == Deliver(Error(f.cause))
    ensures forall f | f in r && f.OnTextReceive? :: a == Deliver(Text(f.message))
  {
    if !a.Deliver? then []
    else match a.event
      case Connected(_) => if c.hasOnConnect then [OnConnect(true)] else []
      case Disconnected(_, _) => if c.hasOnDisconnect then [OnDisconnect(None, false)] else []
      case Cancelled => if c.hasOnDisconnect then [OnDisconnect(None, false)] else []
      case Error(cause) => if c.hasOnDisconnect then [OnDisconnect(cause, false)] else []
      case Text(m) => if c.hasOnTextReceive then [OnTextReceive(m)] else []
      case _ => []
  }

  /** Appending effects that are not callbacks leaves the callbacks of a trace alone. */
  lemma CallbacksQuiet(before: seq<Effect>, added: seq<Effect>)
    requires forall f | f in added :: !IsCallback(f)
    ensures Callbacks(before + added) == Callbacks(before)
  {
    CallbacksAppend(before, added);
  }

  lemma CallbacksOfEvent(c: Config, s: State, e: WebSocketEvent)
    ensures Callbacks(OnEvent(c, s, e).effects) == Callbacks(s.effects) + Reaction(c, Deliver(e))
  {
    var r := Reaction(c, Deliver(e));
    assert OnEvent(c, s, e).effects == s.effects + r;
    CallbacksAppend(s.effects, r);
    if r != [] {
      assert r == [r[0]] + [];
      CallbacksAppend([r[0]], []);
    }
  }

  lemma CallbacksOfApply(c: Config, s: State, a: Action)
    ensures Callbacks(Apply(c, s, a).effects) == Callbacks(s.effects) + Reaction(c, a)
  {
    match a {
      case Open => CallbacksQuiet(s.effects, [SocketConnect]);
      case Close => CallbacksQuiet(s.effects, [SocketDisconnect]);
      case Send(text) =>
        if s.isOpen {
          CallbacksQuiet(s.effects, [SocketWrite(text),
                                     Logged(OutgoingLine(text, c.url, c.decodeRequest, c.decodeResponse))]);
        }
      case Tick(i) =>
        if Live(s, i) {
          CallbacksQuiet(s.effects, [Logged(PingLine), SocketPing([])]);
        }
      case Deliver(e) => CallbacksOfEvent(c, s, e);
    }
  }

  /** The callback invocations the actions cause, in order. */
  function ExpectedCallbacks(c: Config, acts: seq<Action>): seq<Effect>
    decreases |acts|
  {
    if acts == [] then []
    else ExpectedCallbacks(c, acts[..|acts| - 1]) + Reaction(c, acts[|acts| - 1])
  }

  /** Callbacks run in the order of the events that cause them, none added, none lost. */
  lemma {:induction false} CallbacksOfRun(c: Config, s: State, acts: seq<Action>)
    ensures Callbacks(Run(c, s, acts).effects) == Callbacks(s.effects) + ExpectedCallbacks(c, acts)
    decreases |acts|
  {
    if acts != [] {
      var init := acts[..|acts| - 1];
      CallbacksOfRun(c, s, init);
      CallbacksOfApply(c, Run(c, s, init), acts[|acts| - 1]);
    }
  }

  lemma ExpectedCallbacksOfFour(c: Config, a0: Action, a1: Action, a2: Action, a3: Action)
    ensures ExpectedCallbacks(c, [a0, a1, a2, a3])
            == Reaction(c, a0) + Reaction(c, a1) + Reaction(c, a2) + Reaction(c, a3)
  {
    assert ExpectedCallbacks(c, [a0]) == Reaction(c, a0) by {
      assert [a0][..0] == [];
    }
    assert ExpectedCallbacks(c, [a0, a1]) == ExpectedCallbacks(c, [a0]) + Reaction(c, a1) by {
      assert [a0, a1][..1] == [a0];
    }
    assert ExpectedCallbacks(c, [a0, a1, a2]) == ExpectedCallbacks(c, [a0, a1]) + Reaction(c, a2) by {
      assert [a0, a1, a2][..2] == [a0, a1];
    }
    assert ExpectedCallbacks(c, [a0, a1, a2, a3]) == ExpectedCallbacks(c, [a0, a1, a2]) + Reaction(c, a3) by {
      assert [a0, a1, a2, a3][..3] == [a0, a1, a2];
    }
  }

  /**
   * With every callback registered, `connected`, `text("a")`, `text("b")`,
   * `disconnected` call back `onConnect`, `onTextReceive("a")`,
   * `onTextReceive("b")`, `onDisconnect(nil)`, in that order.
   */
  lemma ConnectTextTextDisconnect(c: Config, s: State, headers: map<string, string>, reason: string, code: uint16)
    requires c.hasOnConnect && c.hasOnDisconnect && c.hasOnTextReceive
    ensures var acts := [Deliver(Connected(headers)), Deliver(Text("a")), Deliver(Text("b")),
                         Deliver(Disconnected(reason, code))];
            Callbacks(Run(c, s, acts).effects)
            == Callbacks(s.effects) + [OnConnect(true), OnTextReceive("a"), OnTextReceive("b"), OnDisconnect(None, false)]
  {
    var a0, a1, a2, a3 := Deliver(Connected(headers)), Deliver(Text("a")), Deliver(Text("b")),
                          Deliver(Disconnected(reason, code));
    assert Reaction(c, a0) + Reaction(c, a1) + Reaction(c, a2) + Reaction(c, a3)
        == [OnConnect(true), OnTextReceive("a"), OnTextReceive("b"), OnDisconnect(None, false)];
    ExpectedCallbacksOfFour(c, a0, a1, a2, a3);
    CallbacksOfRun(c, s, [a0, a1, a2, a3]);
  }

  /**
   * `onDisconnect` is not limited to once per open cycle: every terminal
   * event calls it, also one that arrives when the connection is already closed.
   */
  lemma TerminalTwiceDisconnectsTwice(c: Config, s: State, reason: string, code: uint16)
    requires c.hasOnDisconnect
    ensures var acts := [Deliver(Disconnected(reason, code)), Deliver(Cancelled)];
            Callbacks(Run(c, s, acts).effects)
            == Callbacks(s.effects) + [OnDisconnect(None, false), OnDisconnect(None, false)]
  {
    var a0, a1 := Deliver(Disconnected(reason, code)), Deliver(Cancelled);
    assert Reaction(c, a0) + Reaction(c, a1) == [OnDisconnect(None, false), OnDisconnect(None, false)];
    assert ExpectedCallbacks(c, [a0]) == Reaction(c, a0) by {
      assert [a0][..0] == [];
    }
    assert ExpectedCallbacks(c, [a0, a1]) == ExpectedCallbacks(c, [a0]) + Reaction(c, a1) by {
      assert [a0, a1][..1] == [a0];
    }
    CallbacksOfRun(c, s, [a0, a1]);
  }

  /** The trace is append-only: a run only adds effects after the ones already there. */
  lemma {:induction false} RunExtendsTrace(c: Config, s: State, acts: seq<Action>)
    ensures s.effects <= Run(c, s, acts).effects
    decreases |acts|
  {
    if acts != [] {
      RunExtendsTrace(c, s, acts[..|acts| - 1]);
    }
  }

  /** No timer runs except, possibly, the one `pingTimer` refers to. */
  predicate SingleHeartbeat(s: State) {
    forall i: nat | i < |s.timers| && Live(s, i) :: s.pingTimer == Some(i)
  }

  /** Single heartbeat is kept by every action except `connected` arriving while already open. */
  lemma ApplyKeepsSingleHeartbeat(c: Config, s: State, a: Action)
    requires Inv(s) && SingleHeartbeat(s)
    requires a.Deliver? && a.event.Connected? ==> !s.isOpen
    ensures SingleHeartbeat(Apply(c, s, a))
  {
    var t := Apply(c, s, a);
    if a.Deliver? && a.event.Connected? {
      assert forall j: nat | j < |s.timers| :: !Live(s, j);
      assert forall j: nat | j < |s.timers| :: t.timers[j] == s.timers[j];
    } else {
      assert forall j: nat | j < |t.timers| && Live(t, j) :: Live(s, j);
    }
  }

  /** The transport never reports `connected` on a connection it has already reported connected. */
  predicate NoConnectWhileOpen(acts: seq<Action>) {
    forall k | 0 <= k < |acts| && acts[k].Deliver? && acts[k].event.Connected? ::
      LastOpenSignal(acts[..k]) != Some(true)
  }

  /** Under that assumption, at most one ping timer ever runs at a time. */
  lemma {:induction false} RunKeepsSingleHeartbeat(c: Config, acts: seq<Action>)
    requires NoConnectWhileOpen(acts)
    ensures SingleHeartbeat(Run(c, Initial, acts))
    decreases |acts|
  {
    if acts != [] {
      var n := |acts| - 1;
      var init := acts[..n];
      assert NoConnectWhileOpen(init) by {
        forall k | 0 <= k < |init| && init[k].Deliver? && init[k].event.Connected?
          ensures LastOpenSignal(init[..k]) != Some(true)
        {
          assert init[..k] == acts[..k];
          assert acts[k] == init[k];
        }
      }
      RunKeepsSingleHeartbeat(c, init);
      RunKeepsInv(c, Initial, init);
      RunIsOpen(c, Initial, init);
      ApplyKeepsSingleHeartbeat(c, Run(c, Initial, init), acts[n]);
    }
  }

  /**
   * Without that assumption the single heartbeat is lost: a second `connected`
   * overwrites `pingTimer` without invalidating the first timer, which keeps
   * sending pings after the connection has been disconnected.
   */
  lemma ConnectTwiceLeaksTimer(c: Config, headers: map<string, string>, reason: string, code: uint16)
    ensures var s := Run(c, Initial, [Deliver(Connected(headers)), Deliver(Connected(headers)),
                                      Deliver(Disconnected(reason, code))]);
            && !s.isOpen
            && Live(s, 0)
            && OnPingTick(s, 0).effects == s.effects + [Logged(PingLine), SocketPing([])]
  {
    var acts := [Deliver(Connected(headers)), Deliver(Connected(headers)), Deliver(Disconnected(reason, code))];
    var s1 := OnEvent(c, Initial, Connected(headers));
    var s2 := OnEvent(c, s1, Connected(headers));
    var s3 := OnEvent(c, s2, Disconnected(reason, code));
    assert Run(c, Initial, acts[..1]) == s1 by {
      assert acts[..1][..0] == [];
    }
    assert Run(c, Initial, acts[..2]) == s2 by {
      assert acts[..2][..1] == acts[..1];
    }
    assert Run(c, Initial, acts) == s3;
    assert s2.timers[0].valid && s2.pingTimer == Some(1);
    assert s3.timers[0] == s2.timers[0];
  }
}

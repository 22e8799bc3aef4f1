/** The browser client as an object. */
module BrowserClient {
  import opened Options
  import opened Reconnect
  import OnceListeners

  class SignalingClient {
    var ws: Option<SocketId>
    var reconnectAttempts: nat
    var reconnectTimeout: Option<TimerId>
    var heartbeatInterval: Option<TimerId>
    var intentionalClose: bool
    var isConnected: bool
    var isReconnecting: bool
    var onceListeners: map<string, seq<OnceListeners.Handler>>
    // the browser's sockets and timers
    var sockets: map<SocketId, Socket>
    var timers: set<TimerId>
    var intervals: set<TimerId>
    var nextTimer: TimerId
    ghost var delays: seq<nat>

    constructor ()
      ensures State() == NEW && onceListeners == map[]
    {
      ws, reconnectAttempts, reconnectTimeout, intentionalClose := None, 0, None, false;
      isConnected, isReconnecting, onceListeners := false, false, map[];
      heartbeatInterval := None;
      sockets, timers, intervals, nextTimer, delays := map[], {}, {}, 0, [];
    }

    ghost function State(): Client
      reads this
    {
      Client(ws, reconnectAttempts, reconnectTimeout, intentionalClose, isConnected, isReconnecting, sockets, timers,
             nextTimer, delays, heartbeatInterval, intervals)
    }

    method StartHeartbeat()
      modifies this`heartbeatInterval, this`intervals, this`nextTimer
      ensures State() == Reconnect.StartHeartbeat(old(State()))
    {
      StopHeartbeat();
      heartbeatInterval := Some(nextTimer);
      intervals := intervals + {nextTimer};
      nextTimer := nextTimer + 1;
    }

    method StopHeartbeat()
      modifies this`heartbeatInterval, this`intervals
      ensures State() == Reconnect.StopHeartbeat(old(State()))
    {
      if heartbeatInterval.Some? {
        intervals := intervals - {heartbeatInterval.value};
        heartbeatInterval := None;
      }
    }

    method Detach(closes: set<Phase>)
      modifies this`sockets
      ensures State() == LetGo(old(State()), closes)
    {
      if ws.Some? && ws.value in sockets {
        var s := sockets[ws.value];
        sockets := sockets[ws.value := Socket(if s.phase in closes then Closing else s.phase, false)];
      }
    }

    method Connect(made: Option<SocketId>)
      modifies this
      ensures State() == Reconnect.Connect(old(State()), made) && onceListeners == old(onceListeners)
    {
      Detach({Open, Connecting});
      intentionalClose := false;
      if made.None? {
        ScheduleReconnect();
      } else {
        ws := made;
        sockets := sockets[made.value := Socket(Connecting, true)];
      }
    }

    method ScheduleReconnect()
      modifies this
      ensures State() == Reconnect.ScheduleReconnect(old(State())) && onceListeners == old(onceListeners)
    {
      if intentionalClose || reconnectAttempts >= MAX_ATTEMPTS {
        isReconnecting := false;
        return;
      }
      isReconnecting := true;
      var delay := BASE_DELAY * Pow2(reconnectAttempts);
      if MAX_DELAY < delay {
        delay := MAX_DELAY;
      }
      reconnectTimeout := SetTimeout(delay);
    }

    /** The browser's setTimeout. */
    method SetTimeout(delay: nat) returns (handle: Option<TimerId>)
      modifies this`timers, this`nextTimer, this`delays
      ensures handle == Some(old(nextTimer)) && nextTimer == old(nextTimer) + 1
      ensures timers == old(timers) + {old(nextTimer)} && delays == old(delays) + [delay]
    {
      handle := Some(nextTimer);
      timers := timers + {nextTimer};
      nextTimer := nextTimer + 1;
      delays := delays + [delay];
    }

    method ClearReconnectTimeout()
      modifies this`reconnectTimeout, this`timers
      ensures State() == WithoutTimer(old(State()))
    {
      if reconnectTimeout.Some? {
        timers := timers - {reconnectTimeout.value};
        reconnectTimeout := None;
      }
    }

    method Disconnect()
      modifies this
      ensures State() == Reconnect.Disconnect(old(State())) && onceListeners == map[]
    {
      hide LetGo, Reconnect.StopHeartbeat, Reconnect.Disconnect, WithoutTimer;
      DisconnectInOrder(State());
      intentionalClose := true;
      ClearReconnectTimeout();
      StopHeartbeat();
      Detach({Open});
      Forget();
      onceListeners := map[];
    }

    /** The last assignments of disconnect(). */
    method Forget()
      modifies this`ws, this`isConnected, this`isReconnecting, this`reconnectAttempts
      ensures State() == old(State()).(ws := None, isConnected := false, isReconnecting := false, attempts := 0)
    {
      ws := None;
      isConnected, isReconnecting, reconnectAttempts := false, false, 0;
    }

    method OnTimer(t: TimerId, made: Option<SocketId>)
      requires Possible(State(), TimerFires(t, made))
      modifies this
      ensures State() == Next(old(State()), TimerFires(t, made))
    {
      timers := timers - {t};
      reconnectAttempts := reconnectAttempts + 1;
      Connect(made);
    }

    method OnOpen(s: SocketId)
      requires Possible(State(), Opens(s))
      modifies this
      ensures State() == Next(old(State()), Opens(s))
    {
      sockets := sockets[s := sockets[s].(phase := Open)];
      if sockets[s].attached {
        isConnected, isReconnecting, reconnectAttempts := true, false, 0;
        StartHeartbeat();
      }
    }

    method OnClose(s: SocketId)
      requires Possible(State(), Closes(s))
      modifies this
      ensures State() == Next(old(State()), Closes(s))
    {
      sockets := sockets[s := sockets[s].(phase := Closed)];
      if sockets[s].attached {
        isConnected := false;
        StopHeartbeat();
        if !intentionalClose {
          ScheduleReconnect();
        }
      }
    }

    /** The other side begins the closing handshake. */
    method OnClosing(s: SocketId)
      requires Possible(State(), StartsClosing(s))
      modifies this`sockets
      ensures State() == Next(old(State()), StartsClosing(s))
    {
      sockets := sockets[s := sockets[s].(phase := Closing)];
    }

    method Once(event: string, handler: OnceListeners.Handler)
      modifies this`onceListeners
      ensures onceListeners == OnceListeners.Next(old(onceListeners), OnceListeners.Once(event, handler))
    {
      var handlers := if event in onceListeners then onceListeners[event] else [];
      handlers := handlers + [handler];
      onceListeners := onceListeners[event := handlers];
    }

    method OnMessage(event: string) returns (called: Option<OnceListeners.Handler>)
      modifies this`onceListeners
      ensures called == OnceListeners.Called(old(onceListeners), event)
      ensures onceListeners == OnceListeners.Next(old(onceListeners), OnceListeners.Message(event))
    {
      if event == "pong" || event !in onceListeners || |onceListeners[event]| == 0 {
        return None;
      }
      var onceHandlers := onceListeners[event];
      called := Some(onceHandlers[0]);
      onceHandlers := onceHandlers[1..];
      onceListeners := if |onceHandlers| == 0 then onceListeners - {event} else onceListeners[event := onceHandlers];
    }
  }

  function WithoutTimer(c: Client): Client {
    c.(handle := None, timers := if c.handle.Some? then c.timers - {c.handle.value} else c.timers)
  }

  /** disconnect() takes the timer, the heartbeat and the socket away, in this order. */
  lemma DisconnectInOrder(c: Client)
    ensures Reconnect.Disconnect(c) ==
            LetGo(StopHeartbeat(WithoutTimer(c.(intentionalClose := true))), {Open}).(
              ws := None, isConnected := false, isReconnecting := false, attempts := 0)
  {
  }

  /**
   * A call of the application or an event of the browser: no second socket or timer while no call overtakes a retry.
   */
  method HandleEvent(client: SignalingClient, step: Step)
    requires Inv(client.State()) && Signals(client.State()) && Possible(client.State(), step)
    modifies client
    ensures client.State() == Next(old(client.State()), step)
    ensures old(Calm(client.State(), step)) ==> Inv(client.State()) && Signals(client.State())
  {
    if Calm(client.State(), step) {
      StepKeeps(client.State(), step);
    }
    match step
    case ConnectCall(made) => client.Connect(made);
    case DisconnectCall => client.Disconnect();
    case TimerFires(t, made) => client.OnTimer(t, made);
    case Opens(s) => client.OnOpen(s);
    case StartsClosing(s) => client.OnClosing(s);
    case Closes(s) => client.OnClose(s);
  }
}

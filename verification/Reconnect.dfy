/** The browser client's connection: its sockets, its reconnect timers, and the back-off between attempts. */
module Reconnect {
  import opened Options

  type SocketId = nat
  type TimerId = nat

  datatype Phase = Connecting | Open | Closing | Closed

  /** `attached`: the client's event handlers are still on it. */
  datatype Socket = Socket(phase: Phase, attached: bool)

  datatype Client = Client(
    ws: Option<SocketId>, attempts: nat, handle: Option<TimerId>, intentionalClose: bool,
    isConnected: bool, isReconnecting: bool,
    // the browser's side
    sockets: map<SocketId, Socket>, timers: set<TimerId>, nextTimer: TimerId,
    delays: seq<nat>,                        // every delay passed to setTimeout so far
    heartbeat: Option<TimerId>, intervals: set<TimerId>)

  const MAX_ATTEMPTS := 10
  const BASE_DELAY := 500
  const MAX_DELAY := 16000

  function Pow2(n: nat): nat {
    if n == 0 then 1 else 2 * Pow2(n - 1)
  }

  function Delay(attempts: nat): nat {
    var d := BASE_DELAY * Pow2(attempts);
    if d < MAX_DELAY then d else MAX_DELAY
  }

  // ---- the client's methods ------------------------------------------------------------------------

  function ScheduleReconnect(c: Client): Client {
    if c.intentionalClose || c.attempts >= MAX_ATTEMPTS then c.(isReconnecting := false)
    else
      c.(isReconnecting := true, handle := Some(c.nextTimer), timers := c.timers + {c.nextTimer},
         nextTimer := c.nextTimer + 1,
         delays := c.delays + [Delay(c.attempts)])
  }

  function StopHeartbeat(c: Client): Client {
    c.(heartbeat := None, intervals := if c.heartbeat.Some? then c.intervals - {c.heartbeat.value} else c.intervals)
  }

  function StartHeartbeat(c: Client): Client {
    var d := StopHeartbeat(c);
    d.(heartbeat := Some(d.nextTimer), intervals := d.intervals + {d.nextTimer}, nextTimer := d.nextTimer + 1)
  }

  /** `ws.close()` on a socket whose handlers were taken off. */
  function Released(s: Socket, closes: set<Phase>): Socket {
    Socket(if s.phase in closes then Closing else s.phase, false)
  }

  function LetGo(c: Client, closes: set<Phase>): Client {
    if c.ws.Some? && c.ws.value in c.sockets
    then c.(sockets := c.sockets[c.ws.value := Released(c.sockets[c.ws.value], closes)])
    else c
  }

  /** connect(). `made` is the new socket, or None if the WebSocket constructor throws. */
  function Connect(c: Client, made: Option<SocketId>): Client {
    var d := LetGo(c, {Open, Connecting}).(intentionalClose := false);
    match made
    case None => ScheduleReconnect(d)
    case Some(s) => d.(ws := made, sockets := d.sockets[s := Socket(Connecting, true)])
  }

  function Disconnect(c: Client): Client {
    LetGo(StopHeartbeat(c), {Open}).(
      intentionalClose := true, timers := if c.handle.Some? then c.timers - {c.handle.value} else c.timers,
      handle := None,
      ws := None, isConnected := false, isReconnecting := false, attempts := 0)
  }

  // ---- steps ---------------------------------------------------------------------------------------------

  datatype Step =
    | ConnectCall(made: Option<SocketId>)            // the application calls connect()
    | DisconnectCall
    | TimerFires(t: TimerId, made: Option<SocketId>)
    | Opens(s: SocketId)
    | StartsClosing(s: SocketId)                     // the other side begins the closing handshake
    | Closes(s: SocketId)

  predicate FreshSocket(c: Client, made: Option<SocketId>) {
    made.Some? ==> made.value !in c.sockets
  }

  predicate Possible(c: Client, step: Step) {
    match step
    case ConnectCall(made) => FreshSocket(c, made)
    case DisconnectCall => true
    case TimerFires(t, made) => t in c.timers && FreshSocket(c, made)
    case Opens(s) => s in c.sockets && c.sockets[s].phase == Connecting
    case StartsClosing(s) => s in c.sockets && c.sockets[s].phase == Open
    case Closes(s) => s in c.sockets && c.sockets[s].phase != Closed
  }

  function Next(c: Client, step: Step): Client
    requires Possible(c, step)
  {
    match step
    case ConnectCall(made) => Connect(c, made)
    case DisconnectCall => Disconnect(c)
    case TimerFires(t, made) => Connect(c.(timers := c.timers - {t}, attempts := c.attempts + 1), made)
    case Opens(s) =>
      var d := c.(sockets := c.sockets[s := c.sockets[s].(phase := Open)]);
      if c.sockets[s].attached
      then StartHeartbeat(d.(isConnected := true, isReconnecting := false, attempts := 0)) else d
    case StartsClosing(s) => c.(sockets := c.sockets[s := c.sockets[s].(phase := Closing)])
    case Closes(s) =>
      var d := c.(sockets := c.sockets[s := c.sockets[s].(phase := Closed)]);
      if !c.sockets[s].attached then d
      else
        var e := StopHeartbeat(d.(isConnected := false));
        if e.intentionalClose then e else ScheduleReconnect(e)
  }

  predicate AllPossible(c: Client, steps: seq<Step>)
    decreases |steps|
  {
    steps == [] || (Possible(c, steps[0]) && AllPossible(Next(c, steps[0]), steps[1..]))
  }

  function After(c: Client, steps: seq<Step>): Client
    requires AllPossible(c, steps)
    decreases |steps|
  {
    if steps == [] then c else After(Next(c, steps[0]), steps[1..])
  }

  const NEW := Client(None, 0, None, false, false, false, map[], {}, 0, [], None, {})

  // ---- at most one thing is going on --------------------------------------------------------------------

  /** The sockets that can still make the client do something. */
  function Heard(c: Client): set<SocketId> {
    set s | s in c.sockets && c.sockets[s].attached && c.sockets[s].phase != Closed
  }

  /** The socket in `ws` still has the client's handlers and is not closed yet. */
  predicate InUse(c: Client) {
    c.ws.Some? && c.ws.value in c.sockets && c.sockets[c.ws.value].attached && c.sockets[c.ws.value].phase != Closed
  }

  /** The current socket has opened, and the client has not heard of its end. */
  predicate HasOpened(c: Client) {
    InUse(c) && !c.sockets[c.ws.value].phase.Connecting?
  }

  /** What the client's own fields show while it waits for its next attempt: reconnecting, and no socket in use. */
  predicate WaitsToRetry(c: Client) {
    c.isReconnecting && !InUse(c)
  }

  /** `connect()` is not called while the client waits for its next attempt. */
  predicate Calm(c: Client, step: Step) {
    step.ConnectCall? ==> !WaitsToRetry(c)
  }

  ghost predicate Inv(c: Client) {
    && (forall t | t in c.timers :: c.handle == Some(t))
    && (forall t | t in c.timers :: t < c.nextTimer)
    && (c.handle.Some? ==> c.handle.value < c.nextTimer)
    && (c.ws.Some? ==> c.ws.value in c.sockets)
    && (forall s | s in Heard(c) :: c.ws == Some(s) && c.timers == {})
    && c.attempts <= MAX_ATTEMPTS
    && (c.timers != {} ==> c.attempts < MAX_ATTEMPTS)
    && (c.intentionalClose ==> Heard(c) == {} && c.timers == {})
  }

  /** The fields tell whether a timer runs. */
  ghost predicate Signals(c: Client) {
    c.timers != {} <==> WaitsToRetry(c)
  }

  lemma UseIsHeard(c: Client)
    requires Inv(c)
    ensures InUse(c) <==> Heard(c) != {}
  {
    if InUse(c) {
      assert c.ws.value in Heard(c);
    }
  }

  lemma ScheduleKeeps(c: Client)
    requires Inv(c) && c.timers == {} && Heard(c) == {}
    ensures Inv(ScheduleReconnect(c))
  {
  }

  lemma LetGoHeard(c: Client, closes: set<Phase>)
    requires Inv(c)
    ensures Heard(LetGo(c, closes)) == {}
  {
    var d := LetGo(c, closes);
    forall s | s in d.sockets
      ensures s !in Heard(d)
    {
      assert s in Heard(c) ==> c.ws == Some(s);
    }
  }

  lemma ConnectKeeps(c: Client, made: Option<SocketId>)
    requires Inv(c) && c.timers == {} && FreshSocket(c, made)
    ensures Inv(Connect(c, made))
  {
    var d := LetGo(c, {Open, Connecting}).(intentionalClose := false);
    LetGoHeard(c, {Open, Connecting});
    assert Heard(d) == {};
    if made.None? {
      ScheduleKeeps(d);
    } else {
      assert forall s | s in Heard(Connect(c, made)) && s != made.value :: s in Heard(d);
    }
  }

  lemma CloseKeeps(c: Client, s: SocketId)
    requires Inv(c) && Possible(c, Closes(s))
    ensures Inv(Next(c, Closes(s)))
  {
    hide Delay;
    var e := c.(sockets := c.sockets[s := c.sockets[s].(phase := Closed)]);
    assert Heard(e) == Heard(c) - {s};
    if c.sockets[s].attached {
      assert s in Heard(c) && forall x | x in Heard(c) :: x == s;
      var f := StopHeartbeat(e.(isConnected := false));
      assert Heard(f) == Heard(e) == {};
      ScheduleKeeps(f);
    }
  }

  lemma DisconnectKeeps(c: Client)
    requires Inv(c)
    ensures Inv(Disconnect(c))
  {
  }

  lemma TimerKeeps(c: Client, t: TimerId, made: Option<SocketId>)
    requires Inv(c) && Possible(c, TimerFires(t, made))
    ensures Inv(Next(c, TimerFires(t, made)))
  {
    hide Connect;
    assert c.timers == {t};
    var e := c.(timers := c.timers - {t}, attempts := c.attempts + 1);
    assert Heard(e) == Heard(c);
    ConnectKeeps(e, made);
  }

  lemma ConnectSignals(c: Client, made: Option<SocketId>)
    requires Inv(c) && c.timers == {} && FreshSocket(c, made)
    ensures Signals(Connect(c, made))
  {
    hide Delay;
    ConnectKeeps(c, made);
    UseIsHeard(Connect(c, made));
    if made.Some? {
      assert made.value in Heard(Connect(c, made));
    } else {
      LetGoHeard(c, {Open, Connecting});
      assert Heard(Connect(c, made)) == Heard(LetGo(c, {Open, Connecting}));
    }
  }

  lemma CloseSignals(c: Client, s: SocketId)
    requires Inv(c) && Signals(c) && Possible(c, Closes(s))
    ensures Signals(Next(c, Closes(s)))
  {
    hide Delay;
    if c.sockets[s].attached {
      assert s in Heard(c);
    }
  }

  lemma StepKeeps(c: Client, step: Step)
    requires Inv(c) && Signals(c) && Possible(c, step) && Calm(c, step)
    ensures Inv(Next(c, step)) && Signals(Next(c, step))
  {
    hide Connect, ScheduleReconnect;
    match step
    case ConnectCall(made) =>
      ConnectKeeps(c, made);
      ConnectSignals(c, made);
    case DisconnectCall => DisconnectKeeps(c);
    case TimerFires(t, made) =>
      TimerKeeps(c, t, made);
      TimerSignals(c, t, made);
    case Closes(s) =>
      CloseKeeps(c, s);
      CloseSignals(c, s);
    case Opens(s) =>
      assert Heard(Next(c, step)) == Heard(c);
      assert c.sockets[s].attached ==> s in Heard(c);
    case StartsClosing(s) =>
      assert Heard(Next(c, step)) == Heard(c);
  }

  lemma TimerSignals(c: Client, t: TimerId, made: Option<SocketId>)
    requires Inv(c) && Possible(c, TimerFires(t, made))
    ensures Signals(Next(c, TimerFires(t, made)))
  {
    hide Connect;
    assert c.timers == {t};
    var e := c.(timers := c.timers - {t}, attempts := c.attempts + 1);
    assert Heard(e) == Heard(c);
    ConnectSignals(e, made);
  }

  predicate AllCalm(c: Client, steps: seq<Step>)
    requires AllPossible(c, steps)
    decreases |steps|
  {
    steps == [] || (Calm(c, steps[0]) && AllCalm(Next(c, steps[0]), steps[1..]))
  }

  lemma {:induction false} InvOverRuns(c: Client, steps: seq<Step>)
    requires Inv(c) && Signals(c) && AllPossible(c, steps) && AllCalm(c, steps)
    ensures Inv(After(c, steps)) && Signals(After(c, steps))
    decreases |steps|
  {
    if steps != [] {
      StepKeeps(c, steps[0]);
      InvOverRuns(Next(c, steps[0]), steps[1..]);
    }
  }

  lemma AtMostOne<T>(a: set<T>, x: T)
    requires forall y | y in a :: y == x
    ensures |a| <= 1
  {
    if a != {} {
      assert a == {x};
    }
  }

  lemma OneAtMost(c: Client)
    requires Inv(c)
    ensures |Heard(c)| + |c.timers| <= 1
  {
    if c.timers != {} {
      AtMostOne(c.timers, c.handle.value);
      assert Heard(c) == {};
    } else if Heard(c) != {} {
      AtMostOne(Heard(c), c.ws.value);
    }
  }

  /** Over every calm run: one socket or one timer at most, and never more than ten attempts. */
  lemma OneThingAtATime(steps: seq<Step>)
    requires AllPossible(NEW, steps) && AllCalm(NEW, steps)
    ensures var c := After(NEW, steps); |Heard(c)| + |c.timers| <= 1 && c.attempts <= MAX_ATTEMPTS
  {
    InvOverRuns(NEW, steps);
    OneAtMost(After(NEW, steps));
  }

  /** After a calm run, one more connect() leaves one thing live exactly if the client was not waiting to retry. */
  lemma ConnectKeepsOne(steps: seq<Step>, made: Option<SocketId>)
    requires AllPossible(NEW, steps) && AllCalm(NEW, steps) && FreshSocket(After(NEW, steps), made)
    ensures var c := After(NEW, steps);
            |Heard(Connect(c, made))| + |Connect(c, made).timers| <= 1 <==> !WaitsToRetry(c)
    ensures var c := After(NEW, steps); !c.isReconnecting ==> |Heard(Connect(c, made))| + |Connect(c, made).timers| <= 1
  {
    InvOverRuns(NEW, steps);
    var c := After(NEW, steps);
    if c.timers == {} {
      ConnectKeeps(c, made);
      OneAtMost(Connect(c, made));
    } else {
      ConnectAddsOne(c, made);
    }
  }

  lemma ConnectAddsOne(c: Client, made: Option<SocketId>)
    requires Inv(c) && c.timers != {} && FreshSocket(c, made)
    ensures |Heard(Connect(c, made))| + |Connect(c, made).timers| > 1
  {
    var t :| t in c.timers;
    assert c.timers == {t} && t < c.nextTimer;
    var d := Connect(c, made);
    if made.Some? {
      assert made.value in Heard(d) && d.timers == {t};
      assert {made.value} <= Heard(d);
      Larger({made.value}, Heard(d));
    } else {
      assert d.timers == {t, c.nextTimer};
    }
  }

  lemma Larger<T>(a: set<T>, b: set<T>)
    requires a <= b
    ensures |a| <= |b|
  {
    assert a + (b - a) == b;
  }

  // ---- after disconnect() ----------------------------------------------------------------------------------

  /** Nothing that can still happen makes the client act. */
  ghost predicate Quiet(c: Client) {
    c.timers == {} && Heard(c) == {}
  }

  /** disconnect() would leave this timer running. */
  predicate Survives(c: Client, t: TimerId) {
    t in c.timers && c.handle != Some(t)
  }

  ghost predicate OnlyCurrentHeard(c: Client) {
    forall s | s in Heard(c) :: c.ws == Some(s)
  }

  lemma DisconnectSilences(c: Client)
    requires OnlyCurrentHeard(c) && (c.ws.Some? ==> c.ws.value in c.sockets)
    ensures Quiet(Disconnect(c)) <==> forall t :: !Survives(c, t)
  {
    var d := Disconnect(c);
    forall s | s in d.sockets
      ensures s !in Heard(d)
    {
      assert s in Heard(c) ==> c.ws == Some(s);
    }
    forall t
      ensures t in d.timers <==> Survives(c, t)
    {
    }
  }

  /** What a quiet client does until the next connect(): nothing. */
  lemma {:induction false} QuietStays(c: Client, steps: seq<Step>)
    requires Quiet(c) && AllPossible(c, steps)
    requires forall step | step in steps :: !step.ConnectCall? && !step.DisconnectCall?
    ensures var d := After(c, steps);
            Quiet(d) && d.(sockets := c.sockets) == c && forall s | s in d.sockets :: s in c.sockets
    decreases |steps|
  {
    if steps != [] {
      var step := steps[0];
      assert step in steps;
      if step.Opens? || step.StartsClosing? || step.Closes? {
        assert step.s !in Heard(c);
        var d := Next(c, step);
        assert Heard(d) <= Heard(c);
      }
      QuietStays(Next(c, step), steps[1..]);
    }
  }

  /** Over every calm run, disconnect() ends all activity. */
  lemma SilentAfterDisconnect(steps: seq<Step>, later: seq<Step>)
    requires AllPossible(NEW, steps) && AllCalm(NEW, steps)
    requires AllPossible(Disconnect(After(NEW, steps)), later)
    requires forall step | step in later :: !step.ConnectCall? && !step.DisconnectCall?
    ensures var c := Disconnect(After(NEW, steps));
            After(c, later).(sockets := c.sockets) == c
  {
    InvOverRuns(NEW, steps);
    DisconnectSilences(After(NEW, steps));
    QuietStays(Disconnect(After(NEW, steps)), later);
  }

  // ---- timers that disconnect() misses, sockets that it leaves open -----------------------------------------

  predicate Usable(s: Socket) {
    s.phase.Connecting? || s.phase.Open?
  }

  /** What holds over every run, calm or not. */
  ghost predicate Sane(c: Client) {
    && (forall t | t in c.timers :: t < c.nextTimer)
    && (c.handle.Some? ==> c.handle.value < c.nextTimer)
    && (c.ws.Some? ==> c.ws.value in c.sockets)
    && (forall s | s in c.sockets && c.sockets[s].attached :: c.ws == Some(s))
    && (c.ws.Some? && !c.sockets[c.ws.value].attached ==> !Usable(c.sockets[c.ws.value]))
  }

  lemma LetGoSane(c: Client, closes: set<Phase>)
    requires Sane(c)
    ensures var d := LetGo(c, closes);
            && d.(sockets := c.sockets) == c && d.sockets.Keys == c.sockets.Keys
            && (forall s | s in d.sockets :: !d.sockets[s].attached)
            && (forall s | s in d.sockets ::
                  Usable(d.sockets[s]) <==> Usable(c.sockets[s]) && (c.ws == Some(s) ==> c.sockets[s].phase !in closes))
            && (forall s | s in d.sockets && c.ws != Some(s) :: d.sockets[s] == c.sockets[s])
  {
  }

  lemma ConnectSane(c: Client, made: Option<SocketId>)
    requires Sane(c) && FreshSocket(c, made)
    ensures Sane(Connect(c, made))
  {
    hide Delay, LetGo;
    LetGoSane(c, {Open, Connecting});
  }

  lemma DisconnectSane(c: Client)
    requires Sane(c)
    ensures Sane(Disconnect(c))
  {
    hide LetGo;
    LetGoSane(StopHeartbeat(c), {Open});
  }

  lemma StepSane(c: Client, step: Step)
    requires Sane(c) && Possible(c, step)
    ensures Sane(Next(c, step))
  {
    hide Delay, Connect, Disconnect;
    match step
    case ConnectCall(made) => ConnectSane(c, made);
    case DisconnectCall => DisconnectSane(c);
    case TimerFires(t, made) => ConnectSane(c.(timers := c.timers - {t}, attempts := c.attempts + 1), made);
    case _ =>
  }

  /** connect() lets go of the socket that has opened; the field and the heartbeat do not follow. */
  lemma ConnectAnew(c: Client, made: Option<SocketId>)
    requires Sane(c) && FreshSocket(c, made)
    ensures var d := Connect(c, made);
            && d.intervals == c.intervals && d.heartbeat == c.heartbeat && d.isConnected == c.isConnected
            && !HasOpened(d)
  {
    hide Delay, LetGo;
    LetGoSane(c, {Open, Connecting});
  }

  lemma DisconnectEnds(c: Client)
    ensures var d := Disconnect(c);
            && d.heartbeat == None && !d.isConnected && !HasOpened(d)
            && d.intervals == if c.heartbeat.Some? then c.intervals - {c.heartbeat.value} else c.intervals
  {
    hide Released;
  }

  /** The step sets a reconnect timer. */
  predicate Schedules(c: Client, step: Step)
    requires Possible(c, step)
  {
    match step
    case ConnectCall(made) => made.None? && c.attempts < MAX_ATTEMPTS
    case TimerFires(_, made) => made.None? && c.attempts + 1 < MAX_ATTEMPTS
    case Closes(s) => c.sockets[s].attached && !c.intentionalClose && c.attempts < MAX_ATTEMPTS
    case _ => false
  }

  predicate Fires(step: Step, t: TimerId) {
    step.TimerFires? && step.t == t
  }

  predicate NeverFires(steps: seq<Step>, t: TimerId) {
    forall step | step in steps :: !Fires(step, t)
  }

  /** A further timer was set while `t` ran, and `t` has not fired since. */
  predicate Overtaken(c: Client, steps: seq<Step>, t: TimerId)
    requires AllPossible(c, steps)
    decreases |steps|
  {
    steps != [] &&
    ((t in c.timers && Schedules(c, steps[0]) && NeverFires(steps, t)) || Overtaken(Next(c, steps[0]), steps[1..], t))
  }

  lemma SurvivorStep(c: Client, step: Step, t: TimerId)
    requires Sane(c) && Possible(c, step)
    ensures Survives(Next(c, step), t) <==> !Fires(step, t) && (Survives(c, t) || (t in c.timers && Schedules(c, step)))
  {
    hide Delay;
  }

  lemma NeverFiresRest(steps: seq<Step>, t: TimerId)
    requires steps != []
    ensures NeverFires(steps, t) <==> !Fires(steps[0], t) && NeverFires(steps[1..], t)
  {
    assert steps == [steps[0]] + steps[1..];
  }

  lemma {:induction false} SurvivorsOverRuns(c: Client, steps: seq<Step>, t: TimerId)
    requires Sane(c) && AllPossible(c, steps)
    ensures Sane(After(c, steps))
    ensures Survives(After(c, steps), t) <==> (Survives(c, t) && NeverFires(steps, t)) || Overtaken(c, steps, t)
    decreases |steps|
  {
    hide Next, Sane, Schedules, Survives;
    if steps != [] {
      StepSane(c, steps[0]);
      SurvivorStep(c, steps[0], t);
      NeverFiresRest(steps, t);
      SurvivorsOverRuns(Next(c, steps[0]), steps[1..], t);
    }
  }

  /**
   * Over all runs: disconnect() misses a timer exactly if a further one was set while it ran and it has not fired
   * since.
   */
  lemma MissedTimers(steps: seq<Step>, t: TimerId)
    requires AllPossible(NEW, steps)
    ensures t in Disconnect(After(NEW, steps)).timers <==> Overtaken(NEW, steps, t)
  {
    SurvivorsOverRuns(NEW, steps, t);
  }

  /** So disconnect() ends all activity exactly if no timer of the run was overtaken. */
  lemma SilencedExactly(steps: seq<Step>)
    requires AllPossible(NEW, steps)
    ensures Quiet(Disconnect(After(NEW, steps))) <==> forall t :: !Overtaken(NEW, steps, t)
  {
    var c := After(NEW, steps);
    SurvivorsOverRuns(NEW, steps, 0);
    DisconnectSilences(c);
    if Quiet(Disconnect(c)) {
      forall t
        ensures !Overtaken(NEW, steps, t)
      {
        SurvivorsOverRuns(NEW, steps, t);
      }
    } else {
      var t :| Survives(c, t);
      SurvivorsOverRuns(NEW, steps, t);
    }
  }

  /** Timer `t` runs beside socket `s`, which connect() opened while the client was waiting. */
  ghost predicate Beside(c: Client, t: TimerId, s: SocketId) {
    && Sane(c) && c.timers == {t} && c.handle == Some(t) && c.attempts < MAX_ATTEMPTS && !c.intentionalClose
    && c.ws == Some(s) && c.sockets[s].attached && c.sockets[s].phase != Closed
  }

  predicate IsEvent(step: Step, t: TimerId) {
    !step.ConnectCall? && !step.DisconnectCall? && !Fires(step, t)
  }

  lemma BesideStep(c: Client, t: TimerId, s: SocketId, step: Step)
    requires Beside(c, t, s) && Possible(c, step) && IsEvent(step, t)
    ensures if step == Closes(s) then Survives(Next(c, step), t) else Beside(Next(c, step), t, s)
  {
    hide Delay;
    StepSane(c, step);
  }

  lemma {:induction false} BesideRun(c: Client, t: TimerId, s: SocketId, steps: seq<Step>)
    requires Beside(c, t, s) && AllPossible(c, steps) && forall step | step in steps :: IsEvent(step, t)
    ensures Survives(After(c, steps), t) <==> Closes(s) in steps
    decreases |steps|
  {
    hide Next, Sane;
    if steps != [] {
      assert steps == [steps[0]] + steps[1..];
      BesideStep(c, t, s, steps[0]);
      if steps[0] == Closes(s) {
        BesideSane(c, t, s);
        StepSane(c, steps[0]);
        assert NeverFires(steps[1..], t) by {
          assert forall step | step in steps[1..] :: step in steps && IsEvent(step, t);
        }
        SurvivorsOverRuns(Next(c, steps[0]), steps[1..], t);
      } else {
        BesideRun(Next(c, steps[0]), t, s, steps[1..]);
      }
    }
  }

  lemma BesideSane(c: Client, t: TimerId, s: SocketId)
    requires Beside(c, t, s)
    ensures Sane(c)
  {
  }

  /**
   * What comes of a connect() while the client waits to retry: as long as its timer has not fired and the application
   * stays out of it, disconnect() would miss that timer exactly if the new socket could not be made or has closed
   * again.
   */
  lemma UncalmConnect(c: Client, t: TimerId, made: Option<SocketId>, steps: seq<Step>)
    requires Inv(c) && Sane(c) && c.timers == {t} && FreshSocket(c, made) && AllPossible(Connect(c, made), steps)
    requires forall step | step in steps :: IsEvent(step, t)
    ensures t in Disconnect(After(Connect(c, made), steps)).timers <==> made.None? || Closes(made.value) in steps
  {
    StepSane(c, ConnectCall(made));
    var d := Connect(c, made);
    if made.None? {
      SurvivorsOverRuns(d, steps, t);
    } else {
      BesideRun(d, t, made.value, steps);
    }
  }

  /** The client has let go of the socket without closing it. */
  predicate Loose(c: Client, s: SocketId) {
    s in c.sockets && !c.sockets[s].attached && Usable(c.sockets[s])
  }

  predicate Ends(step: Step, s: SocketId) {
    step == Closes(s) || step == StartsClosing(s)
  }

  /** disconnect() met the socket while it was connecting, and it has not begun to close since. */
  predicate Abandoned(c: Client, steps: seq<Step>, s: SocketId)
    requires AllPossible(c, steps)
    decreases |steps|
  {
    steps != [] &&
    ((steps[0].DisconnectCall? && c.ws == Some(s) && s in c.sockets && c.sockets[s] == Socket(Connecting, true)
      && forall step | step in steps :: !Ends(step, s))
     || Abandoned(Next(c, steps[0]), steps[1..], s))
  }

  /** connect() closes the socket it lets go of. */
  lemma ConnectLoose(c: Client, made: Option<SocketId>, s: SocketId)
    requires Sane(c) && FreshSocket(c, made)
    ensures Loose(Connect(c, made), s) <==> Loose(c, s)
  {
    hide Delay, LetGo;
    LetGoSane(c, {Open, Connecting});
  }

  lemma LooseStep(c: Client, step: Step, s: SocketId)
    requires Sane(c) && Possible(c, step)
    ensures Loose(Next(c, step), s) <==>
            !Ends(step, s) && (Loose(c, s) ||
                               (step.DisconnectCall? && c.ws == Some(s) && s in c.sockets &&
                                c.sockets[s] == Socket(Connecting, true)))
  {
    hide Delay, Connect, LetGo;
    match step
    case ConnectCall(made) => ConnectLoose(c, made, s);
    case DisconnectCall => LetGoSane(StopHeartbeat(c), {Open});
    case TimerFires(t, made) => ConnectLoose(c.(timers := c.timers - {t}, attempts := c.attempts + 1), made, s);
    case _ =>
  }

  lemma {:induction false} LooseOverRuns(c: Client, steps: seq<Step>, s: SocketId)
    requires Sane(c) && AllPossible(c, steps)
    ensures Loose(After(c, steps), s) <==>
              (Loose(c, s) && forall step | step in steps :: !Ends(step, s)) || Abandoned(c, steps, s)
    decreases |steps|
  {
    hide Next, Sane, Loose;
    if steps != [] {
      assert steps == [steps[0]] + steps[1..];
      StepSane(c, steps[0]);
      LooseStep(c, steps[0], s);
      LooseOverRuns(Next(c, steps[0]), steps[1..], s);
    }
  }

  /**
   * Over all runs: a socket stays open behind the client's back exactly if disconnect() met it while it was connecting.
   */
  lemma AbandonedSockets(steps: seq<Step>, s: SocketId)
    requires AllPossible(NEW, steps)
    ensures Loose(After(NEW, steps), s) <==> Abandoned(NEW, steps, s)
  {
    LooseOverRuns(NEW, steps, s);
  }
}

/**
 * What becomes of a browser client that cannot connect: how often it retries, after which delays, and when it stops.
 */
module BackOff {
  import opened Options
  import opened Reconnect

  /** No connection is made in this step, and the application stays out of it. */
  predicate Failing(c: Client, step: Step)
    requires Possible(c, step)
  {
    !step.ConnectCall? && !step.DisconnectCall? && (step.Opens? ==> !c.sockets[step.s].attached)
  }

  predicate AllFailing(c: Client, steps: seq<Step>)
    requires AllPossible(c, steps)
    decreases |steps|
  {
    steps == [] || (Failing(c, steps[0]) && AllFailing(Next(c, steps[0]), steps[1..]))
  }

  // ---- the delays of a failing run -------------------------------------------------------------------------

  function Delays(n: nat): seq<nat> {
    seq(n, i requires 0 <= i < n => Delay(i))
  }

  /** How many delays of the table are used up: a running timer has its delay already. */
  function Used(c: Client): nat {
    if c.timers == {} then c.attempts else c.attempts + 1
  }

  /** The delays still to come if every attempt fails. */
  function Remaining(c: Client): seq<nat>
    requires Used(c) <= MAX_ATTEMPTS
  {
    Delays(MAX_ATTEMPTS)[Used(c)..]
  }

  /** Since the delays were `base` and `a` of the table used up, the next ones were used; nobody gives up early. */
  ghost predicate OnSchedule(c: Client, base: seq<nat>, a: nat) {
    && Inv(c) && !c.intentionalClose
    && a <= Used(c) && c.delays == base + Delays(Used(c))[a..]
    && (Quiet(c) ==> c.attempts == MAX_ATTEMPTS && !c.isReconnecting)
  }

  lemma DelaysGrow(n: nat, a: nat)
    requires a <= n
    ensures Delays(n)[a..] + [Delay(n)] == Delays(n + 1)[a..]
  {
  }

  lemma ScheduleOnSchedule(c: Client, base: seq<nat>, a: nat)
    requires Inv(c) && !c.intentionalClose && c.timers == {} && Heard(c) == {}
    requires a <= c.attempts && c.delays == base + Delays(c.attempts)[a..]
    ensures OnSchedule(ScheduleReconnect(c), base, a)
  {
    ScheduleKeeps(c);
    DelaysGrow(c.attempts, a);
    if c.attempts < MAX_ATTEMPTS {
      assert c.nextTimer in ScheduleReconnect(c).timers;
    }
  }

  lemma ConnectOnSchedule(c: Client, made: Option<SocketId>, base: seq<nat>, a: nat)
    requires Inv(c) && c.timers == {} && FreshSocket(c, made)
    requires a <= c.attempts && c.delays == base + Delays(c.attempts)[a..]
    ensures OnSchedule(Connect(c, made), base, a)
  {
    hide Delays, Delay;
    ConnectKeeps(c, made);
    LetGoHeard(c, {Open, Connecting});
    var d := LetGo(c, {Open, Connecting}).(intentionalClose := false);
    assert Heard(d) == {};
    if made.None? {
      ScheduleOnSchedule(d, base, a);
    } else {
      assert made.value in Heard(Connect(c, made));
    }
  }

  lemma TimerOnSchedule(c: Client, t: TimerId, made: Option<SocketId>, base: seq<nat>, a: nat)
    requires OnSchedule(c, base, a) && Possible(c, TimerFires(t, made))
    ensures OnSchedule(Next(c, TimerFires(t, made)), base, a)
  {
    hide Delays, Connect;
    assert c.timers == {t} && Heard(c) == {};
    var e := c.(timers := c.timers - {t}, attempts := c.attempts + 1);
    assert Heard(e) == {} && e.timers == {};
    ConnectOnSchedule(e, made, base, a);
  }

  lemma CloseOnSchedule(c: Client, s: SocketId, base: seq<nat>, a: nat)
    requires OnSchedule(c, base, a) && Possible(c, Closes(s))
    ensures OnSchedule(Next(c, Closes(s)), base, a)
  {
    hide Delays, Delay;
    CloseKeeps(c, s);
    var e := c.(sockets := c.sockets[s := c.sockets[s].(phase := Closed)]);
    assert Heard(e) == Heard(c) - {s};
    if c.sockets[s].attached {
      assert s in Heard(c) && c.timers == {} && forall x | x in Heard(c) :: x == s;
      var f := StopHeartbeat(e.(isConnected := false));
      assert Heard(f) == {};
      ScheduleOnSchedule(f, base, a);
    } else {
      assert s !in Heard(c);
      assert Heard(e) == Heard(c);
    }
  }

  lemma FailingStep(c: Client, step: Step, base: seq<nat>, a: nat)
    requires OnSchedule(c, base, a) && Possible(c, step) && Failing(c, step)
    ensures OnSchedule(Next(c, step), base, a)
  {
    hide Delays, Connect;
    match step
    case TimerFires(t, made) => TimerOnSchedule(c, t, made, base, a);
    case Closes(s) => CloseOnSchedule(c, s, base, a);
    case Opens(s) => assert Heard(Next(c, step)) == Heard(c);
    case StartsClosing(s) => assert Heard(Next(c, step)) == Heard(c);
  }

  lemma {:induction false} FailingRun(c: Client, steps: seq<Step>, base: seq<nat>, a: nat)
    requires OnSchedule(c, base, a) && AllPossible(c, steps) && AllFailing(c, steps)
    ensures OnSchedule(After(c, steps), base, a)
    decreases |steps|
  {
    hide OnSchedule, Next, Failing;
    if steps != [] {
      FailingStep(c, steps[0], base, a);
      FailingRun(Next(c, steps[0]), steps[1..], base, a);
    }
  }

  lemma StartsOnSchedule(c: Client)
    requires Inv(c) && !Quiet(c)
    ensures OnSchedule(c, c.delays, Used(c)) && Used(c) <= MAX_ATTEMPTS
  {
    assert Delays(Used(c))[Used(c)..] == [];
  }

  /**
   * From any state in which something can still happen: as long as no connection is made, the client uses the delays
   * that remain, in order, and nothing is left to happen exactly when it has made its tenth attempt and that has
   * failed.
   */
  lemma RetriesLeft(c: Client, steps: seq<Step>)
    requires Inv(c) && !Quiet(c) && AllPossible(c, steps) && AllFailing(c, steps)
    ensures Used(c) <= MAX_ATTEMPTS && c.delays <= After(c, steps).delays <= c.delays + Remaining(c)
    ensures var d := After(c, steps);
            Quiet(d) ==> d.delays == c.delays + Remaining(c) && d.attempts == MAX_ATTEMPTS && !d.isReconnecting
    ensures var d := After(c, steps); Quiet(d) <==> d.attempts == MAX_ATTEMPTS && Heard(d) == {}
  {
    StartsOnSchedule(c);
    FailingRun(c, steps, c.delays, Used(c));
    var d := After(c, steps);
    PartOfTable(Used(d), Used(c));
  }

  lemma PartOfTable(n: nat, a: nat)
    requires a <= n <= MAX_ATTEMPTS
    ensures Delays(n)[a..] <= Delays(MAX_ATTEMPTS)[a..]
  {
  }

  // ---- how many, and how long -------------------------------------------------------------------------------

  function Sum(s: seq<nat>): nat {
    if s == [] then 0 else s[0] + Sum(s[1..])
  }

  /** What remains of the table after its first `a` delays takes this long. */
  function TimeLeft(a: nat): nat
    requires a <= MAX_ATTEMPTS
    decreases MAX_ATTEMPTS - a
  {
    if a == MAX_ATTEMPTS then 0 else Delay(a) + TimeLeft(a + 1)
  }

  lemma {:induction false} TimeIsSum(a: nat)
    requires a <= MAX_ATTEMPTS
    ensures Sum(Delays(MAX_ATTEMPTS)[a..]) == TimeLeft(a)
    decreases MAX_ATTEMPTS - a
  {
    hide Delay;
    var s := Delays(MAX_ATTEMPTS)[a..];
    if a < MAX_ATTEMPTS {
      TimeIsSum(a + 1);
      assert s[1..] == Delays(MAX_ATTEMPTS)[a + 1..] && s[0] == Delay(a);
    }
  }

  lemma DelayValues()
    ensures Delays(10) == [500, 1000, 2000, 4000, 8000, 16000, 16000, 16000, 16000, 16000]
  {
    assert Pow2(0) == 1 && Pow2(1) == 2 && Pow2(2) == 4 && Pow2(3) == 8 && Pow2(4) == 16 && Pow2(5) == 32;
    assert Pow2(6) == 64 && Pow2(7) == 128 && Pow2(8) == 256 && Pow2(9) == 512;
  }

  lemma TimeValues()
    ensures TimeLeft(0) == 95500 && forall a: nat :: 0 < a <= MAX_ATTEMPTS ==> TimeLeft(a) <= 95000
  {
    DelayValues();
    assert forall i :: 0 <= i < 10 ==> Delays(10)[i] == Delay(i);
    hide Delay, Delays;
    assert TimeLeft(10) == 0;
    assert TimeLeft(9) == 16000;
    assert TimeLeft(8) == 32000;
    assert TimeLeft(7) == 48000;
    assert TimeLeft(6) == 64000;
    assert TimeLeft(5) == 80000;
    assert TimeLeft(4) == 88000;
    assert TimeLeft(3) == 92000;
    assert TimeLeft(2) == 94000;
    assert TimeLeft(1) == 95000;
  }

  /** The retries after the first `a`: ten of them, 95.5 seconds in all, exactly if none is used up. */
  lemma AllTen(a: nat)
    requires a <= MAX_ATTEMPTS
    ensures |Delays(MAX_ATTEMPTS)[a..]| == MAX_ATTEMPTS - a
    ensures Sum(Delays(MAX_ATTEMPTS)[a..]) == 95500 <==> a == 0
  {
    TimeIsSum(a);
    TimeValues();
  }

  /** The timers that have fired since the last connection or disconnect(), given `n` before the run. */
  function FiredSince(c: Client, steps: seq<Step>, n: nat): nat
    requires AllPossible(c, steps)
    decreases |steps|
  {
    if steps == [] then n
    else
      var fired :=
        if steps[0].TimerFires? then n + 1
        else if steps[0].DisconnectCall? || (steps[0].Opens? && c.sockets[steps[0].s].attached) then 0
        else n;
      FiredSince(Next(c, steps[0]), steps[1..], fired)
  }

  lemma {:induction false} AttemptsFired(c: Client, steps: seq<Step>)
    requires AllPossible(c, steps)
    ensures After(c, steps).attempts == FiredSince(c, steps, c.attempts)
    decreases |steps|
  {
    if steps != [] {
      StepFired(c, steps[0]);
      hide Next;
      AttemptsFired(Next(c, steps[0]), steps[1..]);
    }
  }

  lemma StepFired(c: Client, step: Step)
    requires Possible(c, step)
    ensures Next(c, step).attempts ==
            if step.TimerFires? then c.attempts + 1
            else if step.DisconnectCall? || (step.Opens? && c.sockets[step.s].attached) then 0
            else c.attempts
  {
  }

  /** What a failing run from `c` has added when nothing is left to happen. */
  ghost predicate RetriedFrom(c: Client, d: Client, a: nat) {
    && a <= MAX_ATTEMPTS && c.delays <= d.delays
    && d.delays[|c.delays|..] == Delays(MAX_ATTEMPTS)[a..]
    && d.attempts == MAX_ATTEMPTS && !d.isReconnecting
  }

  lemma ConnectRetries(c: Client, made: Option<SocketId>, steps: seq<Step>)
    requires Inv(c) && c.timers == {} && FreshSocket(c, made)
    requires AllPossible(Connect(c, made), steps) && AllFailing(Connect(c, made), steps)
    requires Quiet(After(Connect(c, made), steps))
    ensures RetriedFrom(c, After(Connect(c, made), steps), c.attempts)
  {
    assert Delays(c.attempts)[c.attempts..] == [];
    ConnectOnSchedule(c, made, c.delays, c.attempts);
    FailingRun(Connect(c, made), steps, c.delays, c.attempts);
  }

  /**
   * connect() after any calm run, called while no timer waits: if no attempt succeeds from then on, the client retries
   * ten times less one for each timer that fired since the last connection or disconnect(). It makes all ten retries,
   * in 95.5 seconds, exactly if there was none.
   */
  lemma RetriesAfterConnect(before: seq<Step>, made: Option<SocketId>, steps: seq<Step>)
    requires AllPossible(NEW, before) && AllCalm(NEW, before) && !WaitsToRetry(After(NEW, before))
    requires FreshSocket(After(NEW, before), made)
    requires AllPossible(Connect(After(NEW, before), made), steps)
    requires AllFailing(Connect(After(NEW, before), made), steps)
    requires Quiet(After(Connect(After(NEW, before), made), steps))
    ensures var c, fired := After(NEW, before), FiredSince(NEW, before, 0);
            var d := After(Connect(c, made), steps);
            && RetriedFrom(c, d, fired)
            && |d.delays[|c.delays|..]| == MAX_ATTEMPTS - fired
            && (Sum(d.delays[|c.delays|..]) == 95500 <==> fired == 0)
  {
    InvOverRuns(NEW, before);
    AttemptsFired(NEW, before);
    ConnectRetries(After(NEW, before), made, steps);
    AllTen(FiredSince(NEW, before, 0));
  }

  /** So after a first connect() that never succeeds: exactly ten retries, with these delays. */
  lemma TenRetries(made: Option<SocketId>, steps: seq<Step>)
    requires AllPossible(Connect(NEW, made), steps) && AllFailing(Connect(NEW, made), steps)
    requires Quiet(After(Connect(NEW, made), steps))
    ensures var c := After(Connect(NEW, made), steps);
            && c.delays == [500, 1000, 2000, 4000, 8000, 16000, 16000, 16000, 16000, 16000]
            && Sum(c.delays) == 95500 && c.attempts == 10 && !c.isReconnecting
  {
    RetriesAfterConnect([], made, steps);
    DelayValues();
  }

  // ---- a connection that breaks -----------------------------------------------------------------------------------

  ghost predicate Rested(c: Client) {
    HasOpened(c) ==> c.attempts == 0
  }

  lemma StepRested(c: Client, step: Step)
    requires Sane(c) && Rested(c) && Possible(c, step)
    ensures Rested(Next(c, step))
  {
    hide Delay, Connect, Disconnect;
    match step
    case ConnectCall(made) => ConnectAnew(c, made);
    case DisconnectCall => DisconnectEnds(c);
    case TimerFires(t, made) => ConnectAnew(c.(timers := c.timers - {t}, attempts := c.attempts + 1), made);
    case _ =>
  }

  lemma {:induction false} RestedOverRuns(c: Client, steps: seq<Step>)
    requires Sane(c) && Rested(c) && AllPossible(c, steps)
    ensures Rested(After(c, steps))
    decreases |steps|
  {
    hide Sane, Rested, Next;
    if steps != [] {
      StepSane(c, steps[0]);
      StepRested(c, steps[0]);
      RestedOverRuns(Next(c, steps[0]), steps[1..]);
    }
  }

  /**
   * Whenever a calm run has brought up a connection, and from then on it breaks and no attempt succeeds: exactly ten
   * retries, with the same delays, whatever happened before.
   */
  lemma TenRetriesAfterDrop(before: seq<Step>, steps: seq<Step>)
    requires AllPossible(NEW, before) && AllCalm(NEW, before) && HasOpened(After(NEW, before))
    requires AllPossible(After(NEW, before), steps) && AllFailing(After(NEW, before), steps)
    requires Quiet(After(After(NEW, before), steps))
    ensures var c := After(NEW, before);
            var d := After(c, steps);
            && d.delays == c.delays + [500, 1000, 2000, 4000, 8000, 16000, 16000, 16000, 16000, 16000]
            && Sum(d.delays[|c.delays|..]) == 95500 && d.attempts == 10 && !d.isReconnecting
  {
    InvOverRuns(NEW, before);
    RestedOverRuns(NEW, before);
    var c := After(NEW, before);
    UseIsHeard(c);
    RetriesLeft(c, steps);
    DelayValues();
    AllTen(0);
    var d := After(c, steps);
    assert c.timers == {} && Remaining(c) == Delays(10);
    assert d.delays[|c.delays|..] == Delays(10)[0..];
  }

  // ---- failing runs end --------------------------------------------------------------------------------------------

  function InPhase(c: Client, phases: set<Phase>): set<SocketId> {
    set s | s in c.sockets && c.sockets[s].phase in phases
  }

  /** What sockets can still go through on their way from Connecting to Closed. */
  function Ahead(c: Client): nat {
    |InPhase(c, {Connecting})| + |InPhase(c, {Connecting, Open})| + |InPhase(c, {Connecting, Open, Closing})|
  }

  /** Every step of a failing run uses up some of this. */
  function Patience(c: Client): nat
    requires c.attempts <= MAX_ATTEMPTS
  {
    4 * (MAX_ATTEMPTS - c.attempts) + Ahead(c)
  }

  lemma Fewer<T>(a: set<T>, b: set<T>)
    requires a <= b
    ensures |a| <= |b| && (a != b ==> |a| < |b|)
  {
    assert b == a + (b - a);
  }

  /** One socket moves on. */
  lemma MovedAhead(c: Client, d: Client, s: SocketId, phase: Phase)
    requires s in c.sockets && d.sockets == c.sockets[s := c.sockets[s].(phase := phase)]
    requires Rank(phase) < Rank(c.sockets[s].phase)
    ensures Ahead(d) < Ahead(c)
  {
    assert forall phases :: s !in InPhase(d, phases) || phase in phases;
    ShrinksTo(c, d, s, phase, {Connecting});
    ShrinksTo(c, d, s, phase, {Connecting, Open});
    ShrinksTo(c, d, s, phase, {Connecting, Open, Closing});
  }

  function Rank(p: Phase): nat {
    match p
    case Connecting => 3
    case Open => 2
    case Closing => 1
    case Closed => 0
  }

  lemma ShrinksTo(c: Client, d: Client, s: SocketId, phase: Phase, phases: set<Phase>)
    requires s in c.sockets && d.sockets == c.sockets[s := c.sockets[s].(phase := phase)]
    requires phase in phases ==> c.sockets[s].phase in phases
    ensures |InPhase(d, phases)| == |InPhase(c, phases)| -
            if c.sockets[s].phase in phases && phase !in phases then 1 else 0
  {
    if c.sockets[s].phase in phases && phase !in phases {
      assert InPhase(d, phases) == InPhase(c, phases) - {s};
    } else {
      assert InPhase(d, phases) == InPhase(c, phases);
    }
  }

  lemma LetGoAhead(c: Client)
    ensures var d := LetGo(c, {Open, Connecting});
            Ahead(d) <= Ahead(c) && d.attempts == c.attempts && d.sockets.Keys == c.sockets.Keys
  {
    var d := LetGo(c, {Open, Connecting});
    Fewer(InPhase(d, {Connecting}), InPhase(c, {Connecting}));
    Fewer(InPhase(d, {Connecting, Open}), InPhase(c, {Connecting, Open}));
    Fewer(InPhase(d, {Connecting, Open, Closing}), InPhase(c, {Connecting, Open, Closing}));
  }

  lemma NewAhead(c: Client, d: Client, s: SocketId)
    requires s !in c.sockets && d.sockets == c.sockets[s := Socket(Connecting, true)]
    ensures Ahead(d) == Ahead(c) + 3
  {
    assert InPhase(d, {Connecting}) == InPhase(c, {Connecting}) + {s};
    assert InPhase(d, {Connecting, Open}) == InPhase(c, {Connecting, Open}) + {s};
    assert InPhase(d, {Connecting, Open, Closing}) == InPhase(c, {Connecting, Open, Closing}) + {s};
  }

  lemma ConnectAhead(c: Client, made: Option<SocketId>)
    requires FreshSocket(c, made)
    ensures Ahead(Connect(c, made)) <= Ahead(c) + 3 && Connect(c, made).attempts == c.attempts
  {
    hide LetGo, Delay, Ahead;
    var d := LetGo(c, {Open, Connecting});
    LetGoAhead(c);
    if made.Some? {
      NewAhead(d, Connect(c, made), made.value);
    } else {
      SameAhead(d, Connect(c, made));
    }
  }

  lemma SameAhead(c: Client, d: Client)
    requires c.sockets == d.sockets
    ensures Ahead(c) == Ahead(d)
  {
    assert forall phases :: InPhase(c, phases) == InPhase(d, phases);
  }

  lemma FailingStepShrinks(c: Client, step: Step)
    requires Inv(c) && Possible(c, step) && Failing(c, step)
    ensures Next(c, step).attempts <= MAX_ATTEMPTS && Patience(Next(c, step)) < Patience(c)
  {
    hide Heard, Delay, Connect, Ahead;
    match step
    case TimerFires(t, made) =>
      var e := c.(timers := c.timers - {t}, attempts := c.attempts + 1);
      SameAhead(c, e);
      ConnectAhead(e, made);
    case Closes(s) => MovedAhead(c, Next(c, step), s, Closed);
    case Opens(s) => MovedAhead(c, Next(c, step), s, Open);
    case StartsClosing(s) => MovedAhead(c, Next(c, step), s, Closing);
  }

  /** A failing run from anywhere is finite, and it can go on as long as the client is not quiet. */
  lemma {:induction false} FailingRunEnds(c: Client, steps: seq<Step>)
    requires Inv(c) && !Quiet(c) && AllPossible(c, steps) && AllFailing(c, steps)
    ensures |steps| <= Patience(c)
    ensures var d := After(c, steps); !Quiet(d) ==> exists step :: Possible(d, step) && Failing(d, step)
    decreases |steps|
  {
    StartsOnSchedule(c);
    FailingRunBounded(c, steps, c.delays, Used(c));
    FailingRun(c, steps, c.delays, Used(c));
    var d := After(c, steps);
    if d.timers != {} {
      var t :| t in d.timers;
      assert Possible(d, TimerFires(t, None)) && Failing(d, TimerFires(t, None));
    } else if Heard(d) != {} {
      var s :| s in Heard(d);
      assert Possible(d, Closes(s)) && Failing(d, Closes(s));
    }
  }

  lemma {:induction false} FailingRunBounded(c: Client, steps: seq<Step>, base: seq<nat>, a: nat)
    requires OnSchedule(c, base, a) && AllPossible(c, steps) && AllFailing(c, steps)
    ensures |steps| <= Patience(c)
    decreases |steps|
  {
    hide Next, Failing, Ahead;
    if steps != [] {
      FailingStep(c, steps[0], base, a);
      FailingStepShrinks(c, steps[0]);
      FailingRunBounded(Next(c, steps[0]), steps[1..], base, a);
    }
  }

  // ---- a client that has given up ----------------------------------------------------------------------------------

  /** The state after a connect() and `n` timers, if the WebSocket constructor throws each time. */
  function Waiting(n: nat): Client {
    Client(None, n, Some(n), false, false, true, map[], {n}, n + 1, Delays(n + 1), None, {})
  }

  const GIVEN_UP := Waiting(9).(attempts := 10, isReconnecting := false, timers := {})

  function Firings(n: nat): seq<Step>
    requires n <= MAX_ATTEMPTS
    decreases MAX_ATTEMPTS - n
  {
    if n == MAX_ATTEMPTS then [] else [TimerFires(n, None)] + Firings(n + 1)
  }

  lemma FiringStep(n: nat)
    requires n < MAX_ATTEMPTS
    ensures Possible(Waiting(n), TimerFires(n, None))
    ensures Next(Waiting(n), TimerFires(n, None)) == if n + 1 == MAX_ATTEMPTS then GIVEN_UP else Waiting(n + 1)
  {
    hide Delay;
    DelaysGrow(n + 1, 0);
  }

  lemma OneMore(c: Client, step: Step, rest: seq<Step>)
    requires Possible(c, step) && AllPossible(Next(c, step), rest)
    ensures AllPossible(c, [step] + rest) && After(c, [step] + rest) == After(Next(c, step), rest)
    ensures Calm(c, step) && AllCalm(Next(c, step), rest) ==> AllCalm(c, [step] + rest)
  {
    assert ([step] + rest)[1..] == rest;
  }

  lemma {:induction false} FiringsRun(n: nat, rest: seq<Step>)
    requires n < MAX_ATTEMPTS && AllPossible(GIVEN_UP, rest) && AllCalm(GIVEN_UP, rest)
    ensures var steps := Firings(n) + rest;
            AllPossible(Waiting(n), steps) && AllCalm(Waiting(n), steps) &&
                After(Waiting(n), steps) == After(GIVEN_UP, rest)
    decreases MAX_ATTEMPTS - n
  {
    hide Next, Possible;
    FiringStep(n);
    if n + 1 < MAX_ATTEMPTS {
      FiringsRun(n + 1, rest);
    } else {
      assert Firings(n + 1) + rest == rest;
    }
    OneMore(Waiting(n), TimerFires(n, None), Firings(n + 1) + rest);
    assert Firings(n) + rest == [TimerFires(n, None)] + (Firings(n + 1) + rest);
  }

  /** It comes to that: after ten retries in vain, a further connect() whose socket closes is not retried at all. */
  lemma NoRetryLeft(s: SocketId)
    ensures var before := [ConnectCall(None)] + Firings(0);
            var steps := [ConnectCall(None)] + (Firings(0) + [ConnectCall(Some(s)), Closes(s)]);
            && AllPossible(NEW, before) && Quiet(After(NEW, before)) && |After(NEW, before).delays| == 10
            && AllPossible(NEW, steps) && AllCalm(NEW, steps) && Quiet(After(NEW, steps))
            && After(NEW, steps).delays == After(NEW, before).delays
  {
    var last := [ConnectCall(Some(s)), Closes(s)];
    var c := Next(GIVEN_UP, ConnectCall(Some(s)));
    OneMore(c, Closes(s), []);
    OneMore(GIVEN_UP, ConnectCall(Some(s)), [Closes(s)]);
    assert [Closes(s)] + [] == [Closes(s)] && [ConnectCall(Some(s))] + [Closes(s)] == last;
    FiringsRun(0, last);
    FiringsRun(0, []);
    assert Firings(0) + [] == Firings(0);
    FirstWaits();
    OneMore(NEW, ConnectCall(None), Firings(0) + last);
    OneMore(NEW, ConnectCall(None), Firings(0));
  }

  lemma FirstWaits()
    ensures Next(NEW, ConnectCall(None)) == Waiting(0)
  {
    assert Delays(1) == [Delay(0)];
  }
}

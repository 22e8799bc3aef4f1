/** The browser client's heartbeat interval, and what its `isConnected` field says. */
module Heartbeat {
  import opened Options
  import opened Reconnect

  /** The interval of the handle runs, and no other; there is one exactly while the client calls itself connected. */
  ghost predicate Beating(c: Client) {
    && c.intervals == (if c.heartbeat.Some? then {c.heartbeat.value} else {})
    && (c.heartbeat.Some? <==> c.isConnected)
    && (HasOpened(c) ==> c.isConnected)
  }

  lemma StepBeating(c: Client, step: Step)
    requires Sane(c) && Beating(c) && Possible(c, step)
    ensures Beating(Next(c, step))
  {
    hide Delay, Connect, Disconnect;
    match step
    case ConnectCall(made) => ConnectAnew(c, made);
    case DisconnectCall => DisconnectEnds(c);
    case TimerFires(t, made) => ConnectAnew(c.(timers := c.timers - {t}, attempts := c.attempts + 1), made);
    case _ =>
  }

  lemma {:induction false} BeatingOverRuns(c: Client, steps: seq<Step>)
    requires Sane(c) && Beating(c) && AllPossible(c, steps)
    ensures Sane(After(c, steps)) && Beating(After(c, steps))
    decreases |steps|
  {
    hide Sane, Beating, Next;
    if steps != [] {
      StepSane(c, steps[0]);
      StepBeating(c, steps[0]);
      BeatingOverRuns(Next(c, steps[0]), steps[1..]);
    }
  }

  /** The client hears of the end of its connection, or the application ends it. */
  predicate Drops(c: Client, step: Step)
    requires Possible(c, step)
  {
    step.DisconnectCall? || (step.Closes? && c.sockets[step.s].attached)
  }

  /** The client hears its socket open. */
  predicate Heralds(c: Client, step: Step)
    requires Possible(c, step)
  {
    step.Opens? && c.sockets[step.s].attached
  }

  predicate NeverDrops(c: Client, steps: seq<Step>)
    requires AllPossible(c, steps)
    decreases |steps|
  {
    steps == [] || (!Drops(c, steps[0]) && NeverDrops(Next(c, steps[0]), steps[1..]))
  }

  /** The client hears a socket open in the run, and of no end after that. */
  predicate OpensForGood(c: Client, steps: seq<Step>)
    requires AllPossible(c, steps)
    decreases |steps|
  {
    steps != [] &&
    ((Heralds(c, steps[0]) && NeverDrops(Next(c, steps[0]), steps[1..]))
     || OpensForGood(Next(c, steps[0]), steps[1..]))
  }

  lemma StepConnected(c: Client, step: Step)
    requires Possible(c, step)
    ensures Next(c, step).isConnected <==>
              (c.isConnected && !Drops(c, step)) || Heralds(c, step)
  {
    hide Delay;
  }

  lemma {:induction false} ConnectedOverRuns(c: Client, steps: seq<Step>)
    requires AllPossible(c, steps)
    ensures After(c, steps).isConnected <==> (c.isConnected && NeverDrops(c, steps)) || OpensForGood(c, steps)
    decreases |steps|
  {
    hide Next;
    if steps != [] {
      StepConnected(c, steps[0]);
      ConnectedOverRuns(Next(c, steps[0]), steps[1..]);
    }
  }

  /**
   * Over all runs, calm or not: one interval runs while the client calls itself connected, and none otherwise; it does
   * so while its current socket has opened and not closed; and after disconnect() no interval is left.
   */
  lemma OneHeartbeat(steps: seq<Step>)
    requires AllPossible(NEW, steps)
    ensures var c := After(NEW, steps);
            && |c.intervals| == (if c.isConnected then 1 else 0)
            && (HasOpened(c) ==> c.isConnected)
            && Disconnect(c).intervals == {} && !Disconnect(c).isConnected
  {
    BeatingOverRuns(NEW, steps);
    StepBeating(After(NEW, steps), DisconnectCall);
  }

  /**
   * Over all runs: the client calls itself connected exactly if it has heard a socket open and of no end since. A
   * connect() is no such end: called on an open socket, it leaves the field true and the interval running.
   */
  lemma ConnectedExactly(steps: seq<Step>)
    requires AllPossible(NEW, steps)
    ensures After(NEW, steps).isConnected <==> OpensForGood(NEW, steps)
  {
    ConnectedOverRuns(NEW, steps);
  }

  // ---- a field that says too much --------------------------------------------------------------------------------

  /** The client calls itself connected, but its current socket is not the one that opened. */
  predicate Stale(c: Client) {
    c.isConnected && !HasOpened(c)
  }

  /** The client hears of no opening and no end of a connection. */
  predicate NoNews(c: Client, steps: seq<Step>)
    requires AllPossible(c, steps)
    decreases |steps|
  {
    steps == [] || (!Drops(c, steps[0]) && !Heralds(c, steps[0]) && NoNews(Next(c, steps[0]), steps[1..]))
  }

  /** A connected client connects anew, by a call or a timer, and hears of no opening and no end after that. */
  predicate Overridden(c: Client, steps: seq<Step>)
    requires AllPossible(c, steps)
    decreases |steps|
  {
    steps != [] &&
    ((c.isConnected && (steps[0].ConnectCall? || steps[0].TimerFires?) && NoNews(Next(c, steps[0]), steps[1..]))
     || Overridden(Next(c, steps[0]), steps[1..]))
  }

  lemma StepStale(c: Client, step: Step)
    requires Sane(c) && Possible(c, step)
    ensures Stale(Next(c, step)) <==>
              && !Drops(c, step) && !Heralds(c, step)
              && (Stale(c) || (c.isConnected && (step.ConnectCall? || step.TimerFires?)))
  {
    hide Delay, Connect, Disconnect;
    match step
    case ConnectCall(made) => ConnectAnew(c, made);
    case DisconnectCall => DisconnectEnds(c);
    case TimerFires(t, made) => ConnectAnew(c.(timers := c.timers - {t}, attempts := c.attempts + 1), made);
    case _ =>
  }

  lemma {:induction false} StaleOverRuns(c: Client, steps: seq<Step>)
    requires Sane(c) && AllPossible(c, steps)
    ensures Stale(After(c, steps)) <==> (Stale(c) && NoNews(c, steps)) || Overridden(c, steps)
    decreases |steps|
  {
    hide Next, Sane, Stale;
    if steps != [] {
      StepSane(c, steps[0]);
      StepStale(c, steps[0]);
      StaleOverRuns(Next(c, steps[0]), steps[1..]);
    }
  }

  /**
   * Over all runs: the client calls itself connected without an opened current socket exactly if it connected anew
   * while it did so, and has heard of no opening and no end since.
   */
  lemma StaleExactly(steps: seq<Step>)
    requires AllPossible(NEW, steps)
    ensures Stale(After(NEW, steps)) <==> Overridden(NEW, steps)
  {
    StaleOverRuns(NEW, steps);
  }

  // ---- the other fields -----------------------------------------------------------------------------------------

  /** The client gives up in this step: an attempt fails, and it was the last. */
  predicate GivesUp(c: Client, step: Step)
    requires Possible(c, step)
  {
    match step
    case ConnectCall(made) => made.None? && c.attempts >= 10
    case TimerFires(_, made) => made.None? && c.attempts + 1 >= 10
    case Closes(s) => c.sockets[s].attached && !c.intentionalClose && c.attempts >= 10
    case _ => false
  }

  lemma StepReconnecting(c: Client, step: Step)
    requires Possible(c, step)
    ensures Next(c, step).isReconnecting <==>
              || Schedules(c, step)
              || (c.isReconnecting && !step.DisconnectCall? && !Heralds(c, step) && !GivesUp(c, step))
    ensures Next(c, step).intentionalClose <==>
              step.DisconnectCall? || (c.intentionalClose && !step.ConnectCall? && !step.TimerFires?)
  {
    hide Delay;
  }

  predicate KeepsOn(c: Client, steps: seq<Step>)
    requires AllPossible(c, steps)
    decreases |steps|
  {
    steps == [] ||
    (!steps[0].DisconnectCall? && !Heralds(c, steps[0]) && !GivesUp(c, steps[0]) &&
     KeepsOn(Next(c, steps[0]), steps[1..]))
  }

  /** A retry is scheduled, and the client hears of no opening, does not give up, and is not disconnected after that. */
  predicate SchedulesForGood(c: Client, steps: seq<Step>)
    requires AllPossible(c, steps)
    decreases |steps|
  {
    steps != [] &&
    ((Schedules(c, steps[0]) && KeepsOn(Next(c, steps[0]), steps[1..])) ||
     SchedulesForGood(Next(c, steps[0]), steps[1..]))
  }

  lemma {:induction false} ReconnectingOverRuns(c: Client, steps: seq<Step>)
    requires AllPossible(c, steps)
    ensures After(c, steps).isReconnecting <==> (c.isReconnecting && KeepsOn(c, steps)) || SchedulesForGood(c, steps)
    decreases |steps|
  {
    hide Next, Schedules, GivesUp;
    if steps != [] {
      StepReconnecting(c, steps[0]);
      SchedulesOrEnds(c, steps[0]);
      ReconnectingOverRuns(Next(c, steps[0]), steps[1..]);
    }
  }

  lemma SchedulesOrEnds(c: Client, step: Step)
    requires Possible(c, step)
    ensures Schedules(c, step) ==> !step.DisconnectCall? && !Heralds(c, step) && !GivesUp(c, step)
  {
  }

  /**
   * Over all runs: the client calls itself reconnecting exactly since a retry was scheduled, until it opens, gives up
   * or disconnects.
   */
  lemma ReconnectingExactly(steps: seq<Step>)
    requires AllPossible(NEW, steps)
    ensures After(NEW, steps).isReconnecting <==> SchedulesForGood(NEW, steps)
  {
    ReconnectingOverRuns(NEW, steps);
  }
}

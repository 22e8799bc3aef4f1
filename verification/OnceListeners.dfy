/**
 * One-time listeners of the browser client: each message hands over to the listener that waits longest for its event.
 */
module OnceListeners {
  import opened Options

  type Handler = nat
  type Queues = map<string, seq<Handler>>

  datatype Step =
    | Once(event: string, handler: Handler)
    | Message(event: string)

  function Waiting(q: Queues, event: string): seq<Handler> {
    if event in q then q[event] else []
  }

  /** The handler that a message calls, if any; pong messages are dropped before the queues are looked at. */
  function Called(q: Queues, event: string): Option<Handler> {
    if event == "pong" || Waiting(q, event) == [] then None else Some(Waiting(q, event)[0])
  }

  function Next(q: Queues, step: Step): Queues {
    match step
    case Once(event, handler) => q[event := Waiting(q, event) + [handler]]
    case Message(event) =>
      if Called(q, event).None? then q
      else if |q[event]| == 1 then q - {event}
      else q[event := q[event][1..]]
  }

  function After(q: Queues, steps: seq<Step>): Queues {
    if steps == [] then q else Next(After(q, steps[..|steps| - 1]), steps[|steps| - 1])
  }

  function Registered(steps: seq<Step>, event: string): seq<Handler> {
    if steps == [] then []
    else
      var last := steps[|steps| - 1];
      Registered(steps[..|steps| - 1], event) + if last.Once? && last.event == event then [last.handler] else []
  }

  function Delivered(q: Queues, steps: seq<Step>, event: string): seq<Handler> {
    if steps == [] then []
    else
      var front, last := steps[..|steps| - 1], steps[|steps| - 1];
      var called := if last.Message? && last.event == event then Called(After(q, front), event) else None;
      Delivered(q, front, event) + if called.Some? then [called.value] else []
  }

  /** Nothing is lost, repeated or overtaken: those called, then those still waiting, are those registered, in order. */
  lemma {:induction false} FirstInFirstOut(steps: seq<Step>, event: string)
    ensures Delivered(map[], steps, event) + Waiting(After(map[], steps), event) == Registered(steps, event)
  {
    if steps != [] {
      var front, last := steps[..|steps| - 1], steps[|steps| - 1];
      FirstInFirstOut(front, event);
      var q := After(map[], front);
      if last.event == event {
        if last.Message? && Called(q, event).Some? {
          assert Waiting(q, event) == [Waiting(q, event)[0]] + Waiting(Next(q, last), event);
        } else if last.Once? {
          assert Waiting(Next(q, last), event) == Waiting(q, event) + [last.handler];
        }
      }
    }
  }

  /** Whoever registered first and was not called yet is called by the next message of its event, except for pong. */
  lemma NextInLine(steps: seq<Step>, event: string)
    ensures var queue, done := Registered(steps, event), Delivered(map[], steps, event);
            && |done| <= |queue|
            && Called(After(map[], steps), event) ==
               if event != "pong" && |done| < |queue| then Some(queue[|done|]) else None
  {
    FirstInFirstOut(steps, event);
    var queue, done := Registered(steps, event), Delivered(map[], steps, event);
    var waiting := Waiting(After(map[], steps), event);
    assert waiting != [] ==> queue[|done|] == waiting[0];
  }
}

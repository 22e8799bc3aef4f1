/**
 * The transports, producers and consumers of one router, and the maps that follow them through close events.
 * About mediasoup this assumes: closing a transport closes what is on it at once and fires `transportclose` on each;
 * closing a producer queues one `producerclose` for each of its consumers; calls on closed objects are refused.
 */
module MediaGraph {
  import opened Options
  import opened RoomTypes

  /** `session` is the transport id a WHIP producer carries in its appData. */
  datatype Source = Source(transport: Id, session: Option<Id>)
  datatype Sink = Sink(transport: Id, producer: Id)

  datatype Graph = Graph(
    // RoomRouter's maps
    transports: set<Id>, producers: map<Id, Source>, consumers: map<Id, Sink>,
    // what mediasoup has open
    liveTransports: set<Id>, liveProducers: map<Id, Source>, liveConsumers: map<Id, Sink>,
    queued: set<Id>,                        // consumers whose producerclose is not yet delivered
    producing: map<nat, Source>,            // produce and consume calls waiting for mediasoup
    consuming: map<nat, Sink>,
    closed: bool)                           // closeRouter has run

  const EMPTY := Graph({}, map[], map[], {}, map[], map[], {}, map[], map[], false)

  // ---- what mediasoup does ---------------------------------------------------------------------

  function SinksOf(sinks: map<Id, Sink>, producers: set<Id>): set<Id> {
    set c | c in sinks && sinks[c].producer in producers
  }

  function SinksOn(sinks: map<Id, Sink>, transports: set<Id>): set<Id> {
    set c | c in sinks && sinks[c].transport in transports
  }

  function SourcesOn(sources: map<Id, Source>, transports: set<Id>): set<Id> {
    set p | p in sources && sources[p].transport in transports
  }

  /** `producer.close()` for every producer in `ks`. */
  function CloseProducers(g: Graph, ks: set<Id>): Graph {
    g.(liveProducers := g.liveProducers - ks, queued := g.queued + SinksOf(g.liveConsumers, ks * g.liveProducers.Keys))
  }

  function CloseConsumers(g: Graph, cs: set<Id>): Graph {
    g.(liveConsumers := g.liveConsumers - cs, queued := g.queued - cs)
  }

  /** `transport.close()`, with the `transportclose` handlers of what was on it. */
  function CloseTransport(g: Graph, t: Id): Graph {
    if t !in g.liveTransports then g
    else
      var ps, cs := SourcesOn(g.liveProducers, {t}), SinksOn(g.liveConsumers, {t});
      g.(liveTransports := g.liveTransports - {t},
         liveProducers := g.liveProducers - ps, liveConsumers := g.liveConsumers - cs,
         queued := g.queued + SinksOf(g.liveConsumers, ps) - cs,
         producers := g.producers - ps, consumers := g.consumers - cs)
  }

  // ---- steps -----------------------------------------------------------------------------------------

  datatype Step =
    | TransportCreated(id: Id)
    | BeginProduce(n: nat, source: Source)
    | Produced(n: nat, made: Option<Id>)
    | BeginConsume(n: nat, sink: Sink)
    | Consumed(n: nat, made: Option<Id>)
    | CloseProducer(id: Id)
    | TransportFailed(id: Id)               // DTLS failed or ICE closed
    | DeleteWhip(id: Id)
    | Deliver(id: Id)                       // a queued producerclose reaches its consumer
    | CloseRouter

  /** Ids are fresh, and mediasoup makes nothing on a closed transport. */
  ghost predicate Possible(g: Graph, step: Step) {
    match step
    case TransportCreated(id) => !g.closed && id !in g.transports
    case BeginProduce(n, _) => n !in g.producing
    case Produced(n, made) =>
      && n in g.producing
      && (made.Some? ==> g.producing[n].transport in g.liveTransports && made.value !in g.producers)
    case BeginConsume(n, _) => n !in g.consuming
    case Consumed(n, made) =>
      && n in g.consuming
      && (made.Some? ==>
            && g.consuming[n].transport in g.liveTransports
            && made.value !in g.consumers && made.value !in g.queued)
    case TransportFailed(id) => id in g.liveTransports
    case Deliver(id) => id in g.queued
    case _ => true
  }

  function SessionProducers(g: Graph, t: Id): set<Id> {
    set p | p in g.producers && g.producers[p].session == Some(t)
  }

  function Next(g: Graph, step: Step): Graph
    requires Possible(g, step)
  {
    match step
    case TransportCreated(id) => g.(transports := g.transports + {id}, liveTransports := g.liveTransports + {id})
    case BeginProduce(n, source) =>
      if source.transport in g.transports then g.(producing := g.producing[n := source]) else g
    case Produced(n, made) =>
      var rest := g.(producing := g.producing - {n});
      if made.None? then rest
      else rest.(producers := g.producers[made.value := g.producing[n]],
                 liveProducers := g.liveProducers[made.value := g.producing[n]])
    case BeginConsume(n, sink) =>
      if sink.transport in g.transports && sink.producer in g.producers
      then g.(consuming := g.consuming[n := sink]) else g
    case Consumed(n, made) =>
      var rest := g.(consuming := g.consuming - {n});
      if made.None? then rest
      else
        // a producer that closed in the meantime has a producerclose on its way to the new consumer
        var sink := g.consuming[n];
        rest.(consumers := g.consumers[made.value := sink], liveConsumers := g.liveConsumers[made.value := sink],
              queued := if sink.producer in g.liveProducers then g.queued else g.queued + {made.value})
    case CloseProducer(id) =>
      if id !in g.producers then g
      else
        var after := CloseProducers(g, {id});
        after.(producers := after.producers - {id})
    case TransportFailed(id) =>
      var after := CloseTransport(g, id);
      after.(transports := after.transports - {id})
    case DeleteWhip(id) =>
      if id !in g.transports then g
      else
        var ps := SessionProducers(g, id);
        var stripped := CloseProducers(g, ps).(producers := g.producers - ps);
        var after := CloseTransport(stripped, id);
        after.(transports := after.transports - {id})
    case Deliver(id) => CloseConsumers(g, {id}).(consumers := g.consumers - {id})
    case CloseRouter =>
      var quiet := CloseProducers(CloseConsumers(g, g.consumers.Keys), g.producers.Keys);
      CloseAll(quiet, g.transports).(closed := true)
  }

  /** `transport.close()` for every transport in `ts` when nothing on them is open any more. */
  function CloseAll(g: Graph, ts: set<Id>): Graph {
    g.(liveTransports := g.liveTransports - ts)
  }

  ghost predicate AllPossible(g: Graph, steps: seq<Step>)
    decreases |steps|
  {
    steps == [] || (Possible(g, steps[0]) && AllPossible(Next(g, steps[0]), steps[1..]))
  }

  ghost function After(g: Graph, steps: seq<Step>): Graph
    requires AllPossible(g, steps)
    decreases |steps|
  {
    if steps == [] then g else After(Next(g, steps[0]), steps[1..])
  }

  // ---- the invariant --------------------------------------------------------------------------------

  /** Until the router closes, its maps list exactly what mediasoup has open. */
  ghost predicate InStep(g: Graph) {
    g.transports == g.liveTransports && g.producers == g.liveProducers && g.consumers == g.liveConsumers
  }

  /** Producers and consumers hang on transports in the map; a consumer has its producer or a producerclose coming. */
  ghost predicate Attached(g: Graph) {
    && (forall p | p in g.producers :: g.producers[p].transport in g.transports)
    && (forall c | c in g.consumers :: g.consumers[c].transport in g.transports)
    && (forall c | c in g.consumers :: g.consumers[c].producer in g.producers || c in g.queued)
  }

  ghost predicate AllShut(g: Graph) {
    g.liveTransports == {} && g.liveProducers == map[] && g.liveConsumers == map[]
  }

  ghost predicate Inv(g: Graph) {
    if g.closed then AllShut(g) else InStep(g) && Attached(g)
  }

  lemma StepKeeps(g: Graph, step: Step)
    requires Inv(g) && Possible(g, step)
    ensures Inv(Next(g, step))
  {
  }

  /** Over every run: maps and graph agree until closeRouter, and from then on nothing of the router is open. */
  lemma {:induction false} GraphOverRuns(g: Graph, steps: seq<Step>)
    requires Inv(g) && AllPossible(g, steps)
    ensures Inv(After(g, steps))
    decreases |steps|
  {
    if steps != [] {
      StepKeeps(g, steps[0]);
      GraphOverRuns(Next(g, steps[0]), steps[1..]);
    }
  }

  /** What that says of a router that started empty: the maps' shape before closeRouter, everything shut after it. */
  lemma ResourcesOverRuns(steps: seq<Step>)
    requires AllPossible(EMPTY, steps)
    ensures var g := After(EMPTY, steps);
            if g.closed then AllShut(g)
            else
              && (forall p | p in g.producers :: g.producers[p].transport in g.transports)
              && (forall c | c in g.consumers :: g.consumers[c].transport in g.transports)
              && (forall c | c in g.consumers :: g.consumers[c].producer in g.producers || c in g.queued)
              && g.producers.Keys == g.liveProducers.Keys && g.consumers.Keys == g.liveConsumers.Keys
              && g.transports == g.liveTransports
  {
    GraphOverRuns(EMPTY, steps);
  }
}

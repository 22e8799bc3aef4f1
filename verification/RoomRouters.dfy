/** A room's router record as an object, with the loops that close its resources. */
module RoomRouters {
  import opened Options
  import opened RoomTypes
  import opened MediaGraph

  class RoomRouter {
    // the record's own maps
    var transports: set<Id>
    var producers: map<Id, Source>
    var consumers: map<Id, Sink>
    // mediasoup's side of it
    var liveTransports: set<Id>
    var liveProducers: map<Id, Source>
    var liveConsumers: map<Id, Sink>
    var queued: set<Id>
    var producing: map<nat, Source>
    var consuming: map<nat, Sink>
    var closed: bool

    constructor ()
      ensures State() == EMPTY
    {
      transports, producers, consumers := {}, map[], map[];
      liveTransports, liveProducers, liveConsumers := {}, map[], map[];
      queued, producing, consuming, closed := {}, map[], map[], false;
    }

    ghost function State(): Graph
      reads this
    {
      Graph(transports, producers, consumers, liveTransports, liveProducers, liveConsumers, queued, producing,
            consuming, closed)
    }

    /** mediasoup: producer.close(). */
    method ShutProducer(id: Id)
      modifies this`liveProducers, this`queued
      ensures State() == CloseProducers(old(State()), {id})
    {
      queued := queued + SinksOf(liveConsumers, {id} * liveProducers.Keys);
      liveProducers := liveProducers - {id};
    }

    /** mediasoup: consumer.close(). */
    method ShutConsumer(id: Id)
      modifies this`liveConsumers, this`queued
      ensures State() == CloseConsumers(old(State()), {id})
    {
      queued := queued - {id};
      liveConsumers := liveConsumers - {id};
    }

    /** mediasoup: transport.close(), with the transportclose handlers that createTransport and produce installed. */
    method ShutTransport(id: Id)
      modifies this`liveTransports, this`liveProducers, this`liveConsumers, this`queued, this`producers, this`consumers
      ensures State() == CloseTransport(old(State()), id)
    {
      if id in liveTransports {
        var ps, cs := SourcesOn(liveProducers, {id}), SinksOn(liveConsumers, {id});
        queued := queued + SinksOf(liveConsumers, ps) - cs;
        liveTransports, liveProducers, liveConsumers := liveTransports - {id}, liveProducers - ps, liveConsumers - cs;
        producers, consumers := producers - ps, consumers - cs;
      }
    }

    method CloseProducer(id: Id)
      modifies this`producers, this`liveProducers, this`queued
      ensures State() == Next(old(State()), Step.CloseProducer(id))
    {
      if id in producers {
        ShutProducer(id);
        producers := producers - {id};
      }
    }

    method AddTransport(id: Id)
      requires Possible(State(), TransportCreated(id))
      modifies this`transports, this`liveTransports
      ensures State() == Next(old(State()), TransportCreated(id))
    {
      liveTransports := liveTransports + {id};
      transports := transports + {id};
    }

    /** produce up to its await. */
    method Produce(n: nat, source: Source)
      requires n !in producing
      modifies this`producing
      ensures State() == Next(old(State()), BeginProduce(n, source))
    {
      if source.transport in transports {
        producing := producing[n := source];
      }
    }

    method FinishProduce(n: nat, made: Option<Id>)
      requires Possible(State(), Produced(n, made))
      modifies this`producing, this`producers, this`liveProducers
      ensures State() == Next(old(State()), Produced(n, made))
    {
      if made.Some? {
        liveProducers := liveProducers[made.value := producing[n]];
        producers := producers[made.value := producing[n]];
      }
      producing := producing - {n};
    }

    /** consume up to its await. */
    method Consume(n: nat, sink: Sink)
      requires n !in consuming
      modifies this`consuming
      ensures State() == Next(old(State()), BeginConsume(n, sink))
    {
      if sink.transport in transports && sink.producer in producers {
        consuming := consuming[n := sink];
      }
    }

    method FinishConsume(n: nat, made: Option<Id>)
      requires Possible(State(), Consumed(n, made))
      modifies this`consuming, this`consumers, this`liveConsumers, this`queued
      ensures State() == Next(old(State()), Consumed(n, made))
    {
      if made.Some? {
        var sink := consuming[n];
        if sink.producer !in liveProducers {
          queued := queued + {made.value};
        }
        liveConsumers := liveConsumers[made.value := sink];
        consumers := consumers[made.value := sink];
      }
      consuming := consuming - {n};
    }

    /** The handler of a transport whose DTLS failed or whose ICE closed. */
    method OnTransportFailed(id: Id)
      requires Possible(State(), TransportFailed(id))
      modifies this`transports, this`liveTransports, this`liveProducers, this`liveConsumers, this`queued,
          this`producers, this`consumers
      ensures State() == Next(old(State()), TransportFailed(id))
    {
      ShutTransport(id);
      transports := transports - {id};
    }

    /** The handler of producerclose. */
    method OnProducerClose(id: Id)
      requires Possible(State(), Deliver(id))
      modifies this`consumers, this`liveConsumers, this`queued
      ensures State() == Next(old(State()), Deliver(id))
    {
      ShutConsumer(id);
      consumers := consumers - {id};
    }

    /** False stands for "Transport not found". */
    method DeleteWhipSession(id: Id) returns (ok: bool)
      modifies this`transports, this`liveTransports, this`liveProducers, this`liveConsumers, this`queued,
          this`producers, this`consumers
      ensures State() == Next(old(State()), DeleteWhip(id)) && (ok <==> id in old(transports))
    {
      if id !in transports {
        return false;
      }
      DropSession(id);
      ShutTransport(id);
      transports := transports - {id};
      return true;
    }

    method DropSession(id: Id)
      modifies this`producers, this`liveProducers, this`queued
      ensures State() == Dropped(old(State()), SessionProducers(old(State()), id))
    {
      hide Dropped, Next, SessionProducers;
      ghost var g := State();
      ghost var gone: set<Id> := {};
      DropNone(g);
      SessionEnds(g, id);
      var todo := producers.Keys;
      while todo != {}
        invariant todo <= producers.Keys && gone <= g.producers.Keys && producers == g.producers - gone
        invariant gone == SessionProducers(g, id) - todo && State() == Dropped(g, gone)
        decreases |todo|
      {
        var k :| k in todo;
        SessionStep(g, id, todo, k);
        if producers[k].session == Some(id) {
          DropOneMore(g, gone, k);
          CloseProducer(k);
          gone := gone + {k};
        }
        todo := todo - {k};
      }
    }

    method CloseRouter()
      requires Inv(State())
      modifies this
      ensures State() == Next(old(State()), Step.CloseRouter) && AllShut(State())
    {
      ShutConsumers();
      ShutProducers();
      ShutTransports();
      closed := true;
    }

    method ShutConsumers()
      modifies this`liveConsumers, this`queued
      ensures State() == CloseConsumers(old(State()), consumers.Keys)
    {
      var todo := consumers.Keys;
      while todo != {}
        invariant todo <= consumers.Keys
        invariant State() == CloseConsumers(old(State()), consumers.Keys - todo)
        decreases |todo|
      {
        var k :| k in todo;
        ghost var before := State();
        ShutConsumer(k);
        assert consumers.Keys - (todo - {k}) == (consumers.Keys - todo) + {k};
        todo := todo - {k};
      }
    }

    method ShutProducers()
      modifies this`liveProducers, this`queued
      ensures State() == CloseProducers(old(State()), producers.Keys)
    {
      hide MediaGraph.CloseProducers;
      ghost var g := State();
      var todo := producers.Keys;
      assert producers.Keys - todo == {};
      ShutNone(g);
      while todo != {}
        invariant todo <= producers.Keys
        invariant State() == CloseProducers(g, producers.Keys - todo)
        decreases |todo|
      {
        var k :| k in todo;
        ShutOneMore(g, producers.Keys - todo, k);
        ShutProducer(k);
        assert producers.Keys - (todo - {k}) == (producers.Keys - todo) + {k};
        todo := todo - {k};
      }
      assert producers.Keys - todo == producers.Keys;
    }

    method ShutTransports()
      requires liveProducers == map[] && liveConsumers == map[]
      modifies this`liveTransports, this`liveProducers, this`liveConsumers, this`queued, this`producers, this`consumers
      ensures State() == CloseAll(old(State()), transports)
    {
      hide MediaGraph.CloseTransport, MediaGraph.CloseAll;
      ghost var g := State();
      var todo := transports;
      assert transports - todo == {};
      CloseAllNone(g);
      while todo != {}
        invariant todo <= transports && liveProducers == map[] && liveConsumers == map[]
        invariant State() == CloseAll(g, transports - todo)
        decreases |todo|
      {
        var k :| k in todo;
        CloseQuiet(State(), k);
        CloseAllOneMore(g, transports - todo, k);
        ShutTransport(k);
        assert transports - (todo - {k}) == (transports - todo) + {k};
        todo := todo - {k};
      }
      assert transports - todo == transports;
    }
  }

  /** Every call and event keeps the maps in step with mediasoup, and after closeRouter nothing is open. */
  method HandleStep(router: RoomRouter, step: Step)
    requires Inv(router.State()) && Possible(router.State(), step)
    modifies router
    ensures router.State() == Next(old(router.State()), step) && Inv(router.State())
  {
    StepKeeps(router.State(), step);
    hide Inv;
    match step
    case TransportCreated(id) => router.AddTransport(id);
    case BeginProduce(n, source) => router.Produce(n, source);
    case Produced(n, made) => router.FinishProduce(n, made);
    case BeginConsume(n, sink) => router.Consume(n, sink);
    case Consumed(n, made) => router.FinishConsume(n, made);
    case CloseProducer(id) => router.CloseProducer(id);
    case TransportFailed(id) => router.OnTransportFailed(id);
    case DeleteWhip(id) => var _ := router.DeleteWhipSession(id);
    case Deliver(id) => router.OnProducerClose(id);
    case CloseRouter => router.CloseRouter();
  }

  lemma ShutNone(g: Graph)
    ensures CloseProducers(g, {}) == g
  {
  }

  lemma CloseAllNone(g: Graph)
    ensures CloseAll(g, {}) == g
  {
  }

  lemma CloseAllOneMore(g: Graph, gone: set<Id>, k: Id)
    ensures CloseAll(CloseAll(g, gone), {k}) == CloseAll(g, gone + {k})
  {
  }

  lemma ShutOneMore(g: Graph, gone: set<Id>, k: Id)
    requires k !in gone
    ensures CloseProducers(CloseProducers(g, gone), {k}) == CloseProducers(g, gone + {k})
  {
  }

  /** Closing a transport with nothing open on it only takes the transport away. */
  lemma CloseQuiet(g: Graph, k: Id)
    requires g.liveProducers == map[] && g.liveConsumers == map[]
    ensures CloseTransport(g, k) == CloseAll(g, {k})
    ensures CloseAll(g, {k}).liveProducers == map[] && CloseAll(g, {k}).liveConsumers == map[]
  {
  }

  /** `g` after the producers in `ps` were closed and taken out of the map. */
  ghost function Dropped(g: Graph, ps: set<Id>): Graph {
    CloseProducers(g, ps).(producers := g.producers - ps)
  }

  lemma SessionStep(g: Graph, t: Id, todo: set<Id>, k: Id)
    requires k in todo && k in g.producers
    ensures SessionProducers(g, t) - (todo - {k}) ==
            (SessionProducers(g, t) - todo) + if g.producers[k].session == Some(t) then {k} else {}
    ensures k !in SessionProducers(g, t) - todo
  {
  }

  lemma SessionEnds(g: Graph, t: Id)
    ensures SessionProducers(g, t) - g.producers.Keys == {} && SessionProducers(g, t) - {} == SessionProducers(g, t)
  {
  }

  lemma DropNone(g: Graph)
    ensures Dropped(g, {}) == g
  {
  }

  lemma DropOneMore(g: Graph, gone: set<Id>, k: Id)
    requires k !in gone && k in g.producers
    ensures Dropped(g, gone).producers == g.producers - gone
    ensures Dropped(g, gone + {k}).producers == g.producers - (gone + {k})
    ensures Next(Dropped(g, gone), CloseProducer(k)) == Dropped(g, gone + {k})
  {
  }
}

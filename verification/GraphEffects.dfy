/** What each call and event does to the transports, producers and consumers of a router, told item by item. */
module GraphEffects {
  import opened Options
  import opened RoomTypes
  import opened MediaGraph

  /** The map keeps the entries whose keys are not in `gone`, and nothing else. */
  ghost predicate Less<V(!new)>(before: map<Id, V>, after: map<Id, V>, gone: set<Id>) {
    && (forall k :: k in after <==> k in before && k !in gone)
    && (forall k | k in after :: after[k] == before[k])
  }

  ghost predicate More<V(!new)>(before: map<Id, V>, after: map<Id, V>, k: Id, v: V) {
    && (forall x :: x in after <==> x == k || x in before)
    && k in after && after[k] == v && forall x | x in before && x != k :: after[x] == before[x]
  }

  /** No call is answered, and the router is as open as it was. */
  predicate SameCalls(g: Graph, h: Graph) {
    h.producing == g.producing && h.consuming == g.consuming && h.closed == g.closed
  }

  /**
   * The transports, producers and consumers given go, from the maps and from mediasoup; everything else stays. A
   * consumer that stays while its producer goes has a producerclose coming.
   */
  ghost predicate Takes(g: Graph, h: Graph, transports: set<Id>, producers: set<Id>, consumers: set<Id>) {
    && h.transports == g.transports - transports && h.liveTransports == g.liveTransports - transports
    && Less(g.producers, h.producers, producers) && Less(g.liveProducers, h.liveProducers, producers)
    && Less(g.consumers, h.consumers, consumers) && Less(g.liveConsumers, h.liveConsumers, consumers)
    && (forall c :: c in h.queued <==>
          c !in consumers && (c in g.queued || (c in g.consumers && g.consumers[c].producer in producers)))
    && SameCalls(g, h)
  }

  /** The producers on a transport, and with them the ones that name it as their session. */
  function Carried(g: Graph, t: Id): set<Id> {
    set p | p in g.producers && g.producers[p].transport == t
  }

  function Sessions(g: Graph, t: Id): set<Id> {
    set p | p in g.producers && g.producers[p].session == Some(t)
  }

  function Heard(g: Graph, t: Id): set<Id> {
    set c | c in g.consumers && g.consumers[c].transport == t
  }

  /**
   * Deleting a WHIP session takes its transport, the producers that name it as their session, and all that is on the
   * transport; deleting an unknown one does nothing.
   */
  lemma WhipTakes(g: Graph, id: Id)
    requires Inv(g) && !g.closed
    ensures var h := Next(g, DeleteWhip(id));
            if id in g.transports then Takes(g, h, {id}, Sessions(g, id) + Carried(g, id), Heard(g, id)) else h == g
  {
  }

  /** Nothing of the session is left. */
  lemma WhipGone(g: Graph, id: Id)
    requires Inv(g) && !g.closed && id in g.transports
    ensures var h := Next(g, DeleteWhip(id));
            && id !in h.transports && id !in h.liveTransports
            && (forall p | p in h.producers || p in h.liveProducers ::
                  p in g.producers && g.producers[p].transport != id && g.producers[p].session != Some(id))
            && (forall c | c in h.consumers || c in h.liveConsumers ::
                 c in g.consumers && g.consumers[c].transport != id)
            && Next(h, DeleteWhip(id)) == h
  {
    WhipTakes(g, id);
  }

  /** A transport that fails takes all that is on it. */
  lemma FailureTakes(g: Graph, id: Id)
    requires Inv(g) && !g.closed && Possible(g, TransportFailed(id))
    ensures Takes(g, Next(g, TransportFailed(id)), {id}, Carried(g, id), Heard(g, id))
  {
  }

  /** Closing a producer takes that producer; closing an unknown one does nothing. */
  lemma CloseTakes(g: Graph, id: Id)
    requires Inv(g) && !g.closed
    ensures var h := Next(g, CloseProducer(id)); if id in g.producers then Takes(g, h, {}, {id}, {}) else h == g
  {
  }

  /** A delivered producerclose takes its consumer. */
  lemma DeliveryTakes(g: Graph, id: Id)
    requires Inv(g) && !g.closed && Possible(g, Deliver(id))
    ensures Takes(g, Next(g, Deliver(id)), {}, {}, {id})
  {
  }

  lemma CloseRouterShuts(g: Graph)
    requires Inv(g)
    ensures var h := Next(g, CloseRouter);
            h.closed && AllShut(h) && h.producing == g.producing && h.consuming == g.consuming
  {
  }

  // ---- creations --------------------------------------------------------------------------------------------------

  lemma TransportAdds(g: Graph, id: Id)
    requires Possible(g, TransportCreated(id))
    ensures var h := Next(g, TransportCreated(id));
            && h.transports == g.transports + {id} && h.liveTransports == g.liveTransports + {id}
            && h.(transports := g.transports, liveTransports := g.liveTransports) == g
  {
  }

  /** A produce call waits for mediasoup exactly if its transport is in the map. */
  lemma ProduceWaits(g: Graph, n: nat, source: Source)
    requires Possible(g, BeginProduce(n, source))
    ensures var h := Next(g, BeginProduce(n, source));
            && h.(producing := g.producing) == g
            && (n in h.producing <==> source.transport in g.transports) &&
                 (n in h.producing ==> h.producing[n] == source)
            && h.producing - {n} == g.producing
  {
  }

  /** A consume call needs its transport and its producer. */
  lemma ConsumeWaits(g: Graph, n: nat, sink: Sink)
    requires Possible(g, BeginConsume(n, sink))
    ensures var h := Next(g, BeginConsume(n, sink));
            && h.(consuming := g.consuming) == g
            && (n in h.consuming <==> sink.transport in g.transports && sink.producer in g.producers)
            && (n in h.consuming ==> h.consuming[n] == sink)
            && h.consuming - {n} == g.consuming
  {
  }

  /** The answer ends the call and adds what was made. */
  lemma ProducedAdds(g: Graph, n: nat, made: Option<Id>)
    requires Possible(g, Produced(n, made))
    ensures var h := Next(g, Produced(n, made));
            && h.producing == g.producing - {n}
            && h.(producing := g.producing, producers := g.producers, liveProducers := g.liveProducers) == g
            && (made.None? ==> h.producers == g.producers && h.liveProducers == g.liveProducers)
            && (made.Some? ==>
                  && More(g.producers, h.producers, made.value, g.producing[n])
                  && More(g.liveProducers, h.liveProducers, made.value, g.producing[n]))
  {
  }

  /** Likewise; a consumer whose producer has closed in the meantime has a producerclose coming. */
  lemma ConsumedAdds(g: Graph, n: nat, made: Option<Id>)
    requires Possible(g, Consumed(n, made))
    ensures var h := Next(g, Consumed(n, made));
            && h.consuming == g.consuming - {n}
            && h.(consuming := g.consuming, consumers := g.consumers, liveConsumers := g.liveConsumers,
                  queued := g.queued) == g
            && (made.None? ==> h.consumers == g.consumers && h.liveConsumers == g.liveConsumers && h.queued == g.queued)
            && (made.Some? ==>
                  && More(g.consumers, h.consumers, made.value, g.consuming[n])
                  && More(g.liveConsumers, h.liveConsumers, made.value, g.consuming[n])
                  && (forall c :: c in h.queued <==>
                        c in g.queued || (c == made.value && g.consuming[n].producer !in g.liveProducers)))
  {
  }
}

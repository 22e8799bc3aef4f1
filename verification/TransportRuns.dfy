/** Which transports participants have: the ones the SFU made for them, each for the direction it was asked for. */
module TransportRuns {
  import opened Options
  import opened JsMaps
  import opened RoomTypes
  import opened Rooms
  import opened Agreement
  import opened Tables
  import opened Signaling
  import opened SeatTables
  import opened SignalingRuns

  /** The transports are among those made so far for their direction, and nobody consumes without a receiving one. */
  ghost predicate Sourced(p: Participant, sends: set<Id>, recvs: set<Id>) {
    && (p.send.Some? ==> p.send.value in sends)
    && (p.recv.Some? ==> p.recv.value in recvs)
    && (p.consumers.at != map[] ==> p.recv.Some?)
  }

  ghost predicate MembersSourced(m: JsMap<ParticipantId, Participant>, sends: set<Id>, recvs: set<Id>) {
    forall pid | pid in m.at :: Sourced(m.at[pid], sends, recvs)
  }

  ghost predicate AllSourced(rooms: map<RoomId, Room>, sends: set<Id>, recvs: set<Id>) {
    forall r | r in rooms :: MembersSourced(rooms[r].participants, sends, recvs)
  }

  /** The transports that a step's reply adds for a direction. */
  function MadeBy(step: Step, direction: Direction): set<Id> {
    if step.CreatingTransport? && step.direction == direction && step.transport.Some? then {step.transport.value}
        else {}
  }

  function Made(steps: seq<Step>, direction: Direction): set<Id> {
    if steps == [] then {} else MadeBy(steps[0], direction) + Made(steps[1..], direction)
  }

  lemma MembersMonotone(m: JsMap<ParticipantId, Participant>, sends: set<Id>, recvs: set<Id>, sends': set<Id>,
                        recvs': set<Id>)
    requires MembersSourced(m, sends, recvs) && sends <= sends' && recvs <= recvs'
    ensures MembersSourced(m, sends', recvs')
  {
  }

  lemma Monotone(rooms: map<RoomId, Room>, sends: set<Id>, recvs: set<Id>, sends': set<Id>, recvs': set<Id>)
    requires AllSourced(rooms, sends, recvs) && sends <= sends' && recvs <= recvs'
    ensures AllSourced(rooms, sends', recvs')
  {
    hide MembersSourced;
    forall r | r in rooms
      ensures MembersSourced(rooms[r].participants, sends', recvs')
    {
      MembersMonotone(rooms[r].participants, sends, recvs, sends', recvs');
    }
  }

  lemma SetSourced(m: JsMap<ParticipantId, Participant>, pid: ParticipantId, p: Participant, sends: set<Id>,
                   recvs: set<Id>)
    requires MembersSourced(m, sends, recvs) && Sourced(p, sends, recvs)
    ensures MembersSourced(Set(m, pid, p), sends, recvs)
  {
  }

  lemma WithoutSourced(m: JsMap<ParticipantId, Participant>, gone: set<ParticipantId>, sends: set<Id>, recvs: set<Id>)
    requires MembersSourced(m, sends, recvs)
    ensures MembersSourced(Without(m, gone), sends, recvs)
  {
  }

  lemma StripSourced(m: JsMap<ParticipantId, Participant>, gone: set<Id>, sends: set<Id>, recvs: set<Id>)
    requires MembersSourced(m, sends, recvs)
    ensures MembersSourced(StripProducers(m, gone), sends, recvs)
  {
    hide Without;
  }

  lemma ReplaceSourced(rooms: map<RoomId, Room>, r: RoomId, room: Room, sends: set<Id>, recvs: set<Id>)
    requires AllSourced(rooms, sends, recvs) && MembersSourced(room.participants, sends, recvs)
    ensures AllSourced(rooms[r := room], sends, recvs)
  {
    hide MembersSourced;
  }

  lemma JoinSourced(s: Server, c: ClientId, r: RoomId, role: string, name: string, caps: Option<Caps>, now: nat,
                    reply: CreateReply, sends: set<Id>, recvs: set<Id>)
    requires c in s.clients && Coherent(s.cluster) && AllSourced(s.cluster.rooms, sends, recvs)
    ensures AllSourced(HandleJoin(s, c, r, role, name, caps, now, reply).cluster.rooms, sends, recvs)
  {
    hide JoinRoom, MembersSourced, FirstWithUser, Broadcast, Evict;
    if s.clients[c].user.Some? {
      var user := s.clients[c].user.value;
      var w := DropOldEntry(s, c, r, FindByUser(s.cluster, r, user)).cluster;
      if r in s.cluster.rooms {
        var gone := FindByUser(s.cluster, r, user);
        WithoutSourced(s.cluster.rooms[r].participants, if gone.Some? then {gone.value} else {}, sends, recvs);
      }
      EnterSourced(w, r, user, role, name, caps, now, reply, sends, recvs);
    }
  }

  lemma EnterSourced(w: Cluster, r: RoomId, user: UserId, role: string, name: string, caps: Option<Caps>, now: nat,
                     reply: CreateReply, sends: set<Id>, recvs: set<Id>)
    requires (r in w.rooms || Coherent(w)) && AllSourced(w.rooms, sends, recvs)
    ensures AllSourced(JoinRoom(w, r, user, role, name, caps, now, reply).rooms, sends, recvs)
  {
    hide JoinRoom;
    JoinRooms(w, r, user, role, name, caps, now, reply);
    var w' := JoinRoom(w, r, user, role, name, caps, now, reply);
    if r in w'.rooms {
      SetSourced(ParticipantsAt(w, r), ParticipantId(user, now), NewParticipant(user, role, name, caps, now), sends,
                 recvs);
      ReplaceSourced(w.rooms, r, w'.rooms[r], sends, recvs);
    }
  }

  lemma LeaveSourced(s: Server, c: ClientId, failing: set<Id>, closed: bool, sends: set<Id>, recvs: set<Id>)
    requires c in s.clients && AllSourced(s.cluster.rooms, sends, recvs)
    ensures AllSourced(HandleLeave(s, c, failing, closed).cluster.rooms, sends, recvs)
  {
    hide MembersSourced, LeaveRoom, StripProducers, Broadcast;
    var me := s.clients[c];
    if InRoom(me) && me.room.value in s.cluster.rooms {
      var r, gone := me.room.value, me.producers - failing;
      var m := s.cluster.rooms[r].participants;
      StripSourced(m, gone, sends, recvs);
      WithoutSourced(StripProducers(m, gone), {me.participant.value}, sends, recvs);
      LeftRooms(StripRoom(s.cluster, r, gone), r, me.participant.value, closed);
    } else if InRoom(me) {
      AbsentLeft(s.cluster, me.room.value, me.participant.value, closed);
    }
  }

  lemma AbsentLeft(w: Cluster, r: RoomId, pid: ParticipantId, closed: bool)
    requires r !in w.rooms
    ensures LeaveRoom(w, r, pid, closed) == w
  {
  }

  lemma UpdateSourced(w: Cluster, r: RoomId, pid: ParticipantId, p: Participant, sends: set<Id>, recvs: set<Id>)
    requires AllSourced(w.rooms, sends, recvs) && r in w.rooms && Sourced(p, sends, recvs)
    ensures AllSourced(Persist(SetParticipant(w, r, pid, p), r).rooms, sends, recvs)
  {
    SetSourced(w.rooms[r].participants, pid, p, sends, recvs);
  }

  lemma CreateTransportSourced(s: Server, c: ClientId, direction: Direction, reply: Option<Id>, sends: set<Id>,
                               recvs: set<Id>)
    requires c in s.clients && AllSourced(s.cluster.rooms, sends, recvs)
    ensures var step := CreatingTransport(c, direction, reply);
            AllSourced(HandleCreateTransport(s, c, direction, reply).cluster.rooms, sends + MadeBy(step, Send),
                       recvs + MadeBy(step, Recv))
  {
    hide AllSourced, Persist, SetParticipant;
    var step := CreatingTransport(c, direction, reply);
    var sends', recvs' := sends + MadeBy(step, Send), recvs + MadeBy(step, Recv);
    Monotone(s.cluster.rooms, sends, recvs, sends', recvs');
    var me := s.clients[c];
    if InRoom(me) && reply.Some? && Present(s.cluster, me.room.value, me.participant.value) {
      var p := s.cluster.rooms[me.room.value].participants.at[me.participant.value];
      MemberSourced(s.cluster, me.room.value, me.participant.value, sends', recvs');
      var q := if direction == Send then p.(send := reply) else p.(recv := reply);
      UpdateSourced(s.cluster, me.room.value, me.participant.value, q, sends', recvs');
    }
  }

  lemma MemberSourced(w: Cluster, r: RoomId, pid: ParticipantId, sends: set<Id>, recvs: set<Id>)
    requires AllSourced(w.rooms, sends, recvs) && Present(w, r, pid)
    ensures Sourced(w.rooms[r].participants.at[pid], sends, recvs)
  {
    assert MembersSourced(w.rooms[r].participants, sends, recvs);
  }

  lemma ProduceSourced(s: Server, c: ClientId, kind: Kind, source: string, reply: Option<Id>, sends: set<Id>,
                       recvs: set<Id>)
    requires c in s.clients && AllSourced(s.cluster.rooms, sends, recvs)
    ensures AllSourced(HandleProduce(s, c, kind, source, reply).cluster.rooms, sends, recvs)
  {
    hide AllSourced, Persist, SetParticipant, Broadcast;
    var me := s.clients[c];
    if InRoom(me) && reply.Some? && Present(s.cluster, me.room.value, me.participant.value) {
      var k := Producer(reply.value, kind, source, false);
      var p := s.cluster.rooms[me.room.value].participants.at[me.participant.value];
      MemberSourced(s.cluster, me.room.value, me.participant.value, sends, recvs);
      UpdateSourced(s.cluster, me.room.value, me.participant.value, p.(producers := Set(p.producers, k.id, k)), sends,
                    recvs);
    }
  }

  lemma ConsumeSourced(s: Server, c: ClientId, producer: Id, reply: ConsumeReply, sends: set<Id>, recvs: set<Id>)
    requires c in s.clients && AllSourced(s.cluster.rooms, sends, recvs)
    ensures AllSourced(HandleConsume(s, c, producer, reply).cluster.rooms, sends, recvs)
  {
    hide AllSourced, Persist, SetParticipant, HasProducer;
    var me := s.clients[c];
    if InRoom(me) && reply.Consuming? && Present(s.cluster, me.room.value, me.participant.value) {
      var p := s.cluster.rooms[me.room.value].participants.at[me.participant.value];
      MemberSourced(s.cluster, me.room.value, me.participant.value, sends, recvs);
      if p.recv.Some? {
        var k := Consumer(reply.id, producer, reply.kind, true);
        UpdateSourced(s.cluster, me.room.value, me.participant.value, p.(consumers := Set(p.consumers, k.id, k)),
                      sends, recvs);
      }
    }
  }

  lemma CloseProducerSourced(s: Server, c: ClientId, producer: Id, ok: bool, sends: set<Id>, recvs: set<Id>)
    requires c in s.clients && AllSourced(s.cluster.rooms, sends, recvs)
    ensures AllSourced(HandleCloseProducer(s, c, producer, ok).cluster.rooms, sends, recvs)
  {
    hide MembersSourced, StripProducers, Broadcast;
    var me := s.clients[c];
    if me.room.Some? && me.room.value in s.cluster.rooms {
      StripSourced(s.cluster.rooms[me.room.value].participants, {producer}, sends, recvs);
    }
  }

  lemma StepSourced(s: Server, step: Step, sends: set<Id>, recvs: set<Id>)
    requires Coherent(s.cluster) && Possible(s, step) && AllSourced(s.cluster.rooms, sends, recvs)
    ensures AllSourced(Next(s, step).cluster.rooms, sends + MadeBy(step, Send), recvs + MadeBy(step, Recv))
  {
    hide HandleJoin, HandleLeave, HandleCreateTransport, HandleProduce, HandleConsume, HandleCloseProducer,
        MembersSourced, HonestReply, Coherent;
    if !step.CreatingTransport? {
      assert sends + MadeBy(step, Send) == sends && recvs + MadeBy(step, Recv) == recvs;
    }
    match step
    case Joining(c, r, role, name, caps, now, reply) =>
      JoinSourced(s, c, r, role, name, caps, now, reply, sends, recvs);
    case Leaving(c, failing, closed) => LeaveSourced(s, c, failing, closed, sends, recvs);
    case Disconnecting(c, failing, closed) => LeaveSourced(s, c, failing, closed, sends, recvs);
    case CreatingTransport(c, direction, reply) => CreateTransportSourced(s, c, direction, reply, sends, recvs);
    case Producing(c, kind, source, reply) => ProduceSourced(s, c, kind, source, reply, sends, recvs);
    case ConsumingFrom(c, producer, reply) => ConsumeSourced(s, c, producer, reply, sends, recvs);
    case ClosingProducer(c, producer, ok) => CloseProducerSourced(s, c, producer, ok, sends, recvs);
    case _ =>
  }

  lemma {:induction false} SourcedOverRuns(s: Server, steps: seq<Step>, sends: set<Id>, recvs: set<Id>)
    requires Agreed(s.cluster) && AllPossible(s, steps) && AllSourced(s.cluster.rooms, sends, recvs)
    ensures AllSourced(After(s, steps).cluster.rooms, sends + Made(steps, Send), recvs + Made(steps, Recv))
    decreases |steps|
  {
    hide AllSourced, Next;
    if steps == [] {
      assert sends + {} == sends && recvs + {} == recvs;
    } else {
      StepAgrees(s, steps[0]);
      StepSourced(s, steps[0], sends, recvs);
      var sends', recvs' := sends + MadeBy(steps[0], Send), recvs + MadeBy(steps[0], Recv);
      SourcedOverRuns(Next(s, steps[0]), steps[1..], sends', recvs');
      assert sends' + Made(steps[1..], Send) == sends + Made(steps, Send);
      assert recvs' + Made(steps[1..], Recv) == recvs + Made(steps, Recv);
    }
  }

  lemma {:induction false} MadeInRun(steps: seq<Step>, direction: Direction, id: Id)
    requires id in Made(steps, direction)
    ensures exists step :: step in steps && id in MadeBy(step, direction)
  {
    if id in MadeBy(steps[0], direction) {
      assert steps[0] in steps;
    } else {
      MadeInRun(steps[1..], direction, id);
      var step :| step in steps[1..] && id in MadeBy(step, direction);
      assert step in steps;
    }
  }

  /**
   * Over every run: a participant's sending transport came from a request for a sending one, its receiving transport
   * from a request for a receiving one, and whoever consumes has asked for a receiving one.
   */
  lemma TransportsAsRequested(nodes: seq<SfuNode>, steps: seq<Step>, r: RoomId, pid: ParticipantId)
    requires AllPossible(Initial(nodes), steps) && Present(After(Initial(nodes), steps).cluster, r, pid)
    ensures var p := After(Initial(nodes), steps).cluster.rooms[r].participants.at[pid];
            && (p.send.Some? ==> exists step :: step in steps && p.send.value in MadeBy(step, Send))
            && (p.recv.Some? ==> exists step :: step in steps && p.recv.value in MadeBy(step, Recv))
            && (p.consumers.at != map[] ==> exists step :: step in steps && MadeBy(step, Recv) != {})
  {
    InitialInv(nodes);
    SourcedOverRuns(Initial(nodes), steps, {}, {});
    var w := After(Initial(nodes), steps).cluster;
    MemberSourced(w, r, pid, {} + Made(steps, Send), {} + Made(steps, Recv));
    var p := w.rooms[r].participants.at[pid];
    if p.send.Some? {
      MadeInRun(steps, Send, p.send.value);
    }
    if p.recv.Some? {
      MadeInRun(steps, Recv, p.recv.value);
    }
  }
}

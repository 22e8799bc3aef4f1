/** What is left in every table when a client or a room goes, and when Redis has a room's copy. */
module Departures {
  import opened Options
  import opened JsMaps
  import opened RoomTypes
  import opened Rooms
  import opened Agreement
  import opened Membership
  import opened Tables
  import opened Signaling
  import opened SeatTables
  import opened SignalingRuns
  import opened JoinOutcome
  import opened Ledgers

  // ---- rooms that go ------------------------------------------------------------------------------------------

  /** The room is in none of the tables; its router is gone from its node if the node could be asked to close it. */
  ghost predicate Gone(w: Cluster, w': Cluster, r: RoomId, closed: bool) {
    && w'.rooms == w.rooms - {r} && w'.snapshots == w.snapshots - {r} && w'.records == w.records - {r}
    && w'.nodes == w.nodes
    && w'.routers == if closed && HasRecord(w,
                                            r) then w.routers - {Router(w.records[r].origin.value,
                                                w.records[r].routerId)}
                     else w.routers
  }

  /** The control plane's close takes the room out of every table, whether or not the node can be reached. */
  lemma DestroyGone(s: Server, r: RoomId, closed: bool)
    ensures Gone(s.cluster, Next(s, ClosingRoom(r, closed)).cluster, r, closed)
    ensures Next(s, ClosingRoom(r, closed)).clients == s.clients
  {
  }

  /** The room without one of its participants, the same in every other respect, with its copy in Redis. */
  ghost predicate Remains(w: Cluster, w': Cluster, r: RoomId, pid: ParticipantId) {
    && r in w.rooms && r in w'.rooms && w'.rooms == w.rooms[r := w'.rooms[r]]
    && w'.rooms[r].(participants := w.rooms[r].participants) == w.rooms[r]
    && w'.rooms[r].participants == Without(w.rooms[r].participants, {pid})
    && w'.snapshots == w.snapshots[r := SnapshotOf(w'.rooms[r])]
    && w'.records == w.records && w'.routers == w.routers && w'.nodes == w.nodes
  }

  lemma LeaveRoomIs(w: Cluster, r: RoomId, pid: ParticipantId, closed: bool)
    requires r in w.rooms
    ensures var w' := LeaveRoom(w, r, pid, closed);
            if w.rooms[r].participants.at - {pid} == map[] then Gone(w, w', r, closed) else Remains(w, w', r, pid)
  {
    hide SnapshotOf;
    var w' := LeaveRoom(w, r, pid, closed);
    if w.rooms[r].participants.at - {pid} == map[] {
      assert w.rooms[r := w.rooms[r].(participants := Without(w.rooms[r].participants, {pid}))] - {r} == w.rooms - {r};
    }
  }

  /** Closing its producers first makes no difference to a room that the participant then leaves. */
  lemma StripThenLeave(w: Cluster, r: RoomId, pid: ParticipantId, gone: set<Id>, closed: bool)
    requires r in w.rooms && pid in w.rooms[r].participants.at
    requires var m := w.rooms[r].participants;
             StripProducers(m, gone) == Set(m, pid, m.at[pid].(producers := Without(m.at[pid].producers, gone)))
    ensures var w' := LeaveRoom(StripRoom(w, r, gone), r, pid, closed);
            if w.rooms[r].participants.at - {pid} == map[] then Gone(w, w', r, closed) else Remains(w, w', r, pid)
  {
    hide StripProducers, LeaveRoom, SnapshotOf, Without, Set;
    var m := w.rooms[r].participants;
    var q := m.at[pid].(producers := Without(m.at[pid].producers, gone));
    var w1 := StripRoom(w, r, gone);
    LeaveRoomIs(w1, r, pid, closed);
    SetThenWithout(m, pid, q);
    assert w1.rooms - {r} == w.rooms - {r};
  }

  lemma SetThenWithout<K, V>(m: JsMap<K, V>, k: K, v: V)
    requires k in m.at
    ensures Without(Set(m, k, v), {k}) == Without(m, {k}) && Set(m, k, v).at - {k} == m.at - {k}
  {
  }

  lemma LeaveClients(s: Server, c: ClientId, failing: set<Id>, closed: bool)
    requires c in s.clients && InRoom(s.clients[c])
    ensures var me, s' := s.clients[c], HandleLeave(s, c, failing, closed);
            && s'.clients.Keys == s.clients.Keys && s'.clients[c] == Cleared(me)
            && forall x | x in s.clients && x != c ::
                 s'.clients[x] == if s.clients[x].room != me.room then s.clients[x]
                                  else s.clients[x].(inbox :=
                                      Received(s.clients[x].inbox, ParticipantLeft(me.participant.value)))
  {
  }

  /**
   * Whoever leaves is in no room and owns nothing afterwards, and the others are told. Its participant alone goes; the
   * last one takes the room out of every table, even if the node cannot be reached.
   */
  lemma LeaveLeaves(s: Server, c: ClientId, failing: set<Id>, closed: bool)
    requires Inv(s) && c in s.clients && s.clients[c].room.Some?
    ensures var me, s' := s.clients[c], HandleLeave(s, c, failing, closed);
            && me.participant.Some? && Present(s.cluster, me.room.value, me.participant.value)
            && (if s.cluster.rooms[me.room.value].participants.at - {me.participant.value} == map[]
                then Gone(s.cluster, s'.cluster, me.room.value, closed)
                else Remains(s.cluster, s'.cluster, me.room.value, me.participant.value))
            && s'.clients.Keys == s.clients.Keys && s'.clients[c] == Cleared(me)
            && forall x | x in s.clients && x != c ::
                 s'.clients[x] == if s.clients[x].room != me.room then s.clients[x]
                                  else s.clients[x].(inbox :=
                                      Received(s.clients[x].inbox, ParticipantLeft(me.participant.value)))
  {
    hide Inv, LeaveRoom, Broadcast, StripProducers, Gone, Remains;
    var me := s.clients[c];
    PlayerSeat(s, c);
    InvPlays(s, c);
    OwnStripped(s, c, me.producers - failing);
    StripThenLeave(s.cluster, me.room.value, me.participant.value, me.producers - failing, closed);
    LeaveClients(s, c, failing, closed);
  }

  /** A closed connection leaves its room and the client table. */
  lemma DisconnectLeaves(s: Server, c: ClientId, failing: set<Id>, closed: bool)
    requires c in s.clients
    ensures var left, s' := HandleLeave(s, c, failing, closed), HandleDisconnect(s, c, failing, closed);
            s'.cluster == left.cluster && s'.clients == left.clients - {c}
  {
  }

  /** A producer that the SFU does not close stays in every table. */
  lemma FailedCloseKeeps(w: Cluster, r: RoomId, producer: Id)
    ensures Rooms.CloseProducer(w, r, producer, false) == w
  {
  }

  // ---- who is connected, and as whom -------------------------------------------------------------------------------

  /** A client is in the table from its connection to its disconnection, as the user it authenticated as last. */
  lemma ClientsFollow(s: Server, step: Step, c: ClientId)
    requires Known(s, step)
    ensures var clients, clients' := s.clients, Next(s, step).clients;
            && (c in clients' <==> step == Connecting(c) || (c in clients && !(step.Disconnecting? && step.c == c)))
            && (c in clients' ==>
                  clients'[c].user == if step == Connecting(c) then None
                                      else if step.Authenticating? && step.c == c then Some(step.user)
                                      else clients[c].user)
  {
    hide JoinRoom, LeaveRoom, StripRoom, Rooms.CreateTransport, Rooms.Produce, Rooms.Consume, Rooms.CloseProducer,
        HasProducer,
        FirstWithUser, Others;
  }

  /** The copy of a room expires, and nothing else happens. */
  lemma ExpiryForgets(s: Server, r: RoomId)
    ensures var s' := Next(s, Expiring(r));
            r !in s'.cluster.snapshots && s'.cluster.snapshots == s.cluster.snapshots - {r}
            && s' == s.(cluster := s.cluster.(snapshots := s'.cluster.snapshots))
  {
  }

  // ---- copies that stay -------------------------------------------------------------------------------------------

  /** The step changes the room, or brings it up. */
  predicate Touches(w: Cluster, w': Cluster, r: RoomId) {
    r in w'.rooms && (r !in w.rooms || w'.rooms[r] != w.rooms[r])
  }

  /** What a step leaves behind for a resident room: a copy if it changed the room, and the copy it had otherwise. */
  ghost predicate Copied(w: Cluster, w': Cluster, r: RoomId) {
    && (Touches(w, w', r) ==> r in w'.snapshots)
    && (r in w.snapshots && r in w'.rooms ==> r in w'.snapshots)
  }

  lemma PersistCopies(w: Cluster, w1: Cluster, q: RoomId, r: RoomId)
    requires q in w1.rooms && w1.rooms - {q} == w.rooms - {q} && w1.snapshots == w.snapshots
    ensures Copied(w, Persist(w1, q), r)
  {
    assert r in w1.rooms && r != q ==> r in w1.rooms - {q};
    assert r in w.rooms && r != q ==> r in w.rooms - {q};
  }

  lemma SetOnly(w: Cluster, r: RoomId, pid: ParticipantId, p: Participant)
    requires r in w.rooms
    ensures var w1 := SetParticipant(w, r, pid, p);
            r in w1.rooms && w1.rooms - {r} == w.rooms - {r} && w1.snapshots == w.snapshots
  {
  }

  lemma UpdateCopies(w: Cluster, q: RoomId, pid: ParticipantId, p: Participant, r: RoomId)
    requires q in w.rooms
    ensures Copied(w, Persist(SetParticipant(w, q, pid, p), q), r)
  {
    SetOnly(w, q, pid, p);
    PersistCopies(w, SetParticipant(w, q, pid, p), q, r);
  }

  lemma JoinCopies(s: Server, c: ClientId, q: RoomId, role: string, name: string, caps: Option<Caps>, now: nat,
                   reply: CreateReply, r: RoomId)
    requires Agreed(s.cluster) && c in s.clients
    ensures Copied(s.cluster, HandleJoin(s, c, q, role, name, caps, now, reply).cluster, r)
  {
    hide HandleJoin, Agreed, Founded, SnapshotOf;
    var s' := HandleJoin(s, c, q, role, name, caps, now, reply);
    if s.clients[c].user.Some? && q in s'.cluster.rooms {
      JoinFounds(s, c, q, role, name, caps, now, reply);
      if r != q {
        JoinOthers(s, c, q, role, name, caps, now, reply, r);
      }
    } else {
      JoinFails(s, c, q, role, name, caps, now, reply);
    }
  }

  lemma JoinOthers(s: Server, c: ClientId, q: RoomId, role: string, name: string, caps: Option<Caps>, now: nat,
                   reply: CreateReply, r: RoomId)
    requires Agreed(s.cluster) && c in s.clients && s.clients[c].user.Some? && r != q
    ensures var w' := HandleJoin(s, c, q, role, name, caps, now, reply).cluster;
            r in w'.rooms ==> r in s.cluster.rooms && w'.rooms[r] == s.cluster.rooms[r]
  {
    hide JoinRoom, FirstWithUser, Broadcast, DropOldEntry, Agreed, Coherent, SnapshotOf;
    var previous := FindByUser(s.cluster, q, s.clients[c].user.value);
    var w := DropOldEntry(s, c, q, previous).cluster;
    AgreedCoherent(s.cluster);
    DroppedEntryKeeps(s, c, q, previous);
    DroppedOthers(s, c, q, previous, r);
    JoinRooms(w, q, s.clients[c].user.value, role, name, caps, now, reply);
  }

  lemma DroppedOthers(s: Server, c: ClientId, q: RoomId, previous: Option<ParticipantId>, r: RoomId)
    requires r != q
    ensures var w := DropOldEntry(s, c, q, previous).cluster;
            r in w.rooms ==> r in s.cluster.rooms && w.rooms[r] == s.cluster.rooms[r]
  {
    hide Evict;
  }

  lemma LeaveCopies(s: Server, c: ClientId, failing: set<Id>, closed: bool, r: RoomId)
    requires c in s.clients
    ensures Copied(s.cluster, HandleLeave(s, c, failing, closed).cluster, r)
  {
    hide StripProducers, Broadcast, SnapshotOf;
    var me := s.clients[c];
    if InRoom(me) && me.room.value in s.cluster.rooms {
      LeaveRoomIs(StripRoom(s.cluster, me.room.value, me.producers - failing), me.room.value, me.participant.value,
                  closed);
    }
  }

  lemma TransportCopies(s: Server, c: ClientId, direction: Direction, reply: Option<Id>, r: RoomId)
    requires c in s.clients
    ensures Copied(s.cluster, HandleCreateTransport(s, c, direction, reply).cluster, r)
  {
    hide Persist, SetParticipant;
    var me := s.clients[c];
    if InRoom(me) && Present(s.cluster, me.room.value, me.participant.value) && reply.Some? {
      HandleCreateTransportIs(s, c, direction, reply.value);
      var p := s.cluster.rooms[me.room.value].participants.at[me.participant.value];
      UpdateCopies(s.cluster, me.room.value, me.participant.value, WithTransport(p, direction, reply.value), r);
    } else {
      assert HandleCreateTransport(s, c, direction, reply) == s;
    }
  }

  lemma ProduceCopies(s: Server, c: ClientId, kind: Kind, source: string, reply: Option<Id>, r: RoomId)
    requires c in s.clients
    ensures Copied(s.cluster, HandleProduce(s, c, kind, source, reply).cluster, r)
  {
    hide Persist, SetParticipant, Broadcast;
    var me := s.clients[c];
    if InRoom(me) && Present(s.cluster, me.room.value, me.participant.value) && reply.Some? {
      var k := Producer(reply.value, kind, source, false);
      HandleProduceIs(s, c, k);
      var p := s.cluster.rooms[me.room.value].participants.at[me.participant.value];
      UpdateCopies(s.cluster, me.room.value, me.participant.value, p.(producers := Set(p.producers, k.id, k)), r);
    } else {
      assert HandleProduce(s, c, kind, source, reply) == s;
    }
  }

  lemma ConsumeCopies(s: Server, c: ClientId, producer: Id, reply: ConsumeReply, r: RoomId)
    requires c in s.clients
    ensures Copied(s.cluster, HandleConsume(s, c, producer, reply).cluster, r)
  {
    hide Persist, SetParticipant, HasProducer;
    var me := s.clients[c];
    if InRoom(me) && reply.Consuming? && Present(s.cluster, me.room.value, me.participant.value) {
      HandleConsumeIs(s, c, producer, reply);
      var k := Consumer(reply.id, producer, reply.kind, true);
      var p := s.cluster.rooms[me.room.value].participants.at[me.participant.value];
      UpdateCopies(s.cluster, me.room.value, me.participant.value, p.(consumers := Set(p.consumers, k.id, k)), r);
    } else {
      assert HandleConsume(s, c, producer, reply) == s;
    }
  }

  lemma CloseCopies(s: Server, c: ClientId, producer: Id, ok: bool, r: RoomId)
    requires c in s.clients
    ensures Copied(s.cluster, HandleCloseProducer(s, c, producer, ok).cluster, r)
  {
    hide Broadcast, StripProducers, SnapshotOf;
    var me := s.clients[c];
    if me.room.Some? && me.room.value in s.cluster.rooms {
      PersistCopies(s.cluster, StripRoom(s.cluster, me.room.value, {producer}), me.room.value, r);
    }
  }

  /**
   * Every step but the expiry itself leaves the copies of resident rooms in place, and writes one for each room it
   * changes.
   */
  lemma StepCopies(s: Server, step: Step, r: RoomId)
    requires Agreed(s.cluster) && Possible(s, step) && step != Expiring(r)
    ensures Copied(s.cluster, Next(s, step).cluster, r)
  {
    hide HandleJoin, HandleLeave, HandleCreateTransport, HandleProduce, HandleConsume, HandleCloseProducer,
        HonestReply, Agreed,
        AllocateRoom;
    match step
    case Joining(c, q, role, name, caps, now, reply) => JoinCopies(s, c, q, role, name, caps, now, reply, r);
    case Leaving(c, failing, closed) => LeaveCopies(s, c, failing, closed, r);
    case Disconnecting(c, failing, closed) => LeaveCopies(s, c, failing, closed, r);
    case CreatingTransport(c, direction, reply) => TransportCopies(s, c, direction, reply, r);
    case Producing(c, kind, source, reply) => ProduceCopies(s, c, kind, source, reply, r);
    case ConsumingFrom(c, producer, reply) => ConsumeCopies(s, c, producer, reply, r);
    case ClosingProducer(c, producer, ok) => CloseCopies(s, c, producer, ok, r);
    case Allocating(q, reply) => AllocationRecorded(s.cluster, q, reply);
    case _ =>
  }

  /** The copy of the room expires, and no later step changes the room. */
  ghost predicate ExpiredSince(s: Server, steps: seq<Step>, r: RoomId)
    requires AllPossible(s, steps)
    decreases |steps|
  {
    steps != [] &&
    ((steps[0] == Expiring(r) && Untouched(Next(s, steps[0]), steps[1..], r))
     || ExpiredSince(Next(s, steps[0]), steps[1..], r))
  }

  ghost predicate Untouched(s: Server, steps: seq<Step>, r: RoomId)
    requires AllPossible(s, steps)
    decreases |steps|
  {
    steps == [] || (!Touches(s.cluster, Next(s, steps[0]).cluster, r) && Untouched(Next(s, steps[0]), steps[1..], r))
  }

  lemma {:induction false} CopiesOverRuns(s: Server, steps: seq<Step>, r: RoomId)
    requires Agreed(s.cluster) && AllPossible(s, steps)
    ensures var w := After(s, steps).cluster;
            r in w.rooms && r !in w.snapshots ==>
              (r in s.cluster.rooms && r !in s.cluster.snapshots && Untouched(s, steps, r)) || ExpiredSince(s, steps, r)
    decreases |steps|
  {
    hide Agreed, Next;
    if steps != [] {
      StepAgrees(s, steps[0]);
      CopiesOverRuns(Next(s, steps[0]), steps[1..], r);
      if steps[0] != Expiring(r) {
        StepCopies(s, steps[0], r);
      }
    }
  }

  /**
   * Over every run from the start: Redis has the exact copy of a resident room, unless it expired and nothing changed
   * since.
   */
  lemma CopiesInRedis(nodes: seq<SfuNode>, steps: seq<Step>, r: RoomId)
    requires AllPossible(Initial(nodes), steps) && r in After(Initial(nodes), steps).cluster.rooms
    ensures var w := After(Initial(nodes), steps).cluster;
            (r in w.snapshots && w.snapshots[r] == SnapshotOf(w.rooms[r])) || ExpiredSince(Initial(nodes), steps, r)
  {
    InitialInv(nodes);
    AgreementOverRuns(Initial(nodes), steps);
    AgreedCoherent(After(Initial(nodes), steps).cluster);
    CopiesOverRuns(Initial(nodes), steps, r);
  }
}

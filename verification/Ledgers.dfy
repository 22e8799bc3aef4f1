/** What stands in a participant's record: exactly what its own client asked for, step by step, since it joined. */
module Ledgers {
  import opened Options
  import opened JsMaps
  import opened RoomTypes
  import opened Rooms
  import opened Agreement
  import opened Membership
  import opened Tables
  import opened Signaling
  import opened SeatTables
  import opened SignalingRuns
  import opened JoinOutcome

  /** A participant's record, apart from the order of its maps. */
  datatype Ledger = Ledger(
    user: UserId, name: string, role: string, caps: Option<Caps>, send: Option<Id>, recv: Option<Id>,
    producers: map<Id, Producer>, consumers: map<Id, Consumer>)

  function LedgerOf(p: Participant): Ledger {
    Ledger(p.user, p.name, p.role, p.rtpCapabilities, p.send, p.recv, p.producers.at, p.consumers.at)
  }

  // ---- the book-keeping, from the requests alone --------------------------------------------------------------------

  predicate IsPlayedBy(s: Server, c: ClientId, pid: ParticipantId) {
    c in s.clients && s.clients[c].room.Some? && s.clients[c].participant == Some(pid)
  }

  /** Somebody in the client's room produces this. */
  ghost predicate Offered(s: Server, c: ClientId, producer: Id)
    requires c in s.clients && s.clients[c].room.Some?
  {
    exists r, q ::
      && s.clients[c].room == Some(r) && r in s.cluster.rooms && q in s.cluster.rooms[r].participants.at
      && producer in s.cluster.rooms[r].participants.at[q].producers.at
  }

  ghost predicate LetsIn(s: Server, r: RoomId, reply: CreateReply) {
    r in s.cluster.rooms || HasRecord(s.cluster, r) || GetsRouter(s.cluster, r, reply)
  }

  /** The entry that step makes for participant `pid`. */
  ghost function Booked(s: Server, step: Step, pid: ParticipantId, was: Ledger): Ledger
    requires Known(s, step)
  {
    match step
    case Joining(c, r, role, name, caps, now, reply) =>
      if s.clients[c].user.Some? && pid == ParticipantId(s.clients[c].user.value, now) && LetsIn(s, r, reply)
      then Ledger(pid.user, name, role, caps, None, None, map[], map[]) else was
    case CreatingTransport(c, direction, reply) =>
      if !IsPlayedBy(s, c, pid) || reply.None? then was
      else if direction.Send? then was.(send := reply) else was.(recv := reply)
    case Producing(c, kind, source, reply) =>
      if !IsPlayedBy(s, c, pid) || reply.None? then was
      else was.(producers := was.producers[reply.value := Producer(reply.value, kind, source, false)])
    case ConsumingFrom(c, producer, reply) =>
      if IsPlayedBy(s, c, pid) && reply.Consuming? && Offered(s, c, producer) && was.recv.Some? && was.recv.value != ""
      then was.(consumers := was.consumers[reply.id := Consumer(reply.id, producer, reply.kind, true)]) else was
    case ClosingProducer(c, producer, ok) =>
      if IsPlayedBy(s, c, pid) && ok then was.(producers := was.producers - {producer}) else was
    case _ => was
  }

  ghost function Booking(s: Server, steps: seq<Step>, pid: ParticipantId, was: Ledger): Ledger
    requires AllPossible(s, steps)
    decreases |steps|
  {
    if steps == [] then was else Booking(Next(s, steps[0]), steps[1..], pid, Booked(s, steps[0], pid, was))
  }

  // ---- each step is booked
  // -------------------------------------------------------------------------------------------

  /** `was` is the participant's record before the step; if it has none, anything. */
  ghost predicate Before(w: Cluster, r: RoomId, pid: ParticipantId, was: Ledger) {
    Present(w, r, pid) ==> was == LedgerOf(w.rooms[r].participants.at[pid])
  }

  lemma PlayerSeat(s: Server, c: ClientId)
    requires Inv(s) && c in s.clients && s.clients[c].room.Some?
    ensures InRoom(s.clients[c]) && Present(s.cluster, s.clients[c].room.value, s.clients[c].participant.value)
    ensures Owns(s.clients[c],
                 SeatOf(s.cluster.rooms[s.clients[c].room.value].participants.at[s.clients[c].participant.value]))
  {
    assert ClientInStep(s.clients[c], TablesOf(s).rooms);
  }

  /** An update of the client's own participant leaves every other one alone. */
  lemma OwnUpdate(s: Server, c: ClientId, p: Participant, r: RoomId, pid: ParticipantId)
    requires Inv(s) && c in s.clients && s.clients[c].room.Some? && InRoom(s.clients[c])
    requires Present(s.cluster, s.clients[c].room.value, s.clients[c].participant.value)
    requires Present(SetParticipant(s.cluster, s.clients[c].room.value, s.clients[c].participant.value, p), r, pid)
    ensures var w' := SetParticipant(s.cluster, s.clients[c].room.value, s.clients[c].participant.value, p);
            if IsPlayedBy(s, c, pid) then r == s.clients[c].room.value && w'.rooms[r].participants.at[pid] == p
            else
              && Present(s.cluster, r, pid)
              && w'.rooms[r].participants.at[pid] == s.cluster.rooms[r].participants.at[pid]
  {
    if IsPlayedBy(s, c, pid) {
      assert Present(s.cluster, r, pid);
      SeatInOneRoom(TablesOf(s), r, s.clients[c].room.value, pid);
    }
  }

  lemma TransportBooked(s: Server, c: ClientId, direction: Direction, reply: Option<Id>, r: RoomId, pid: ParticipantId,
                        was: Ledger)
    requires Inv(s) && c in s.clients && Before(s.cluster, r, pid, was)
    requires Present(HandleCreateTransport(s, c, direction, reply).cluster, r, pid)
    ensures LedgerOf(HandleCreateTransport(s, c, direction, reply).cluster.rooms[r].participants.at[pid]) ==
            Booked(s, CreatingTransport(c, direction, reply), pid, was)
  {
    hide Inv, Persist, SetParticipant, Owns;
    var me := s.clients[c];
    if me.room.Some? {
      PlayerSeat(s, c);
    }
    if me.room.Some? && reply.Some? {
      HandleCreateTransportIs(s, c, direction, reply.value);
      var p := s.cluster.rooms[me.room.value].participants.at[me.participant.value];
      PersistRooms(SetParticipant(s.cluster, me.room.value, me.participant.value,
                                  WithTransport(p, direction, reply.value)),
                   me.room.value);
      OwnUpdate(s, c, WithTransport(p, direction, reply.value), r, pid);
    } else {
      assert HandleCreateTransport(s, c, direction, reply) == s;
    }
  }

  lemma PersistRooms(w: Cluster, r: RoomId)
    ensures Persist(w, r).rooms == w.rooms
  {
  }

  lemma ProduceCases(s: Server, c: ClientId, kind: Kind, source: string, reply: Option<Id>)
    requires Inv(s) && c in s.clients
    ensures var me, w' := s.clients[c], HandleProduce(s, c, kind, source, reply).cluster;
            if me.room.None? || reply.None? then w'.rooms == s.cluster.rooms
            else
              && InRoom(me) && Present(s.cluster, me.room.value, me.participant.value)
              && var p := s.cluster.rooms[me.room.value].participants.at[me.participant.value];
                 w'.rooms == SetParticipant(s.cluster, me.room.value, me.participant.value,
                   p.(producers := Set(p.producers, reply.value, Producer(reply.value, kind, source, false)))).rooms
  {
    hide Inv, Persist, SetParticipant, Owns, Broadcast, HandleProduce;
    var me := s.clients[c];
    NothingProduced(s, c, kind, source, reply);
    if me.room.Some? && reply.Some? {
      PlayerSeat(s, c);
      var k := Producer(reply.value, kind, source, false);
      HandleProduceIs(s, c, k);
      var p := s.cluster.rooms[me.room.value].participants.at[me.participant.value];
      PersistRooms(SetParticipant(s.cluster, me.room.value, me.participant.value,
                                  p.(producers := Set(p.producers, k.id, k))),
                   me.room.value);
    }
  }

  lemma NothingProduced(s: Server, c: ClientId, kind: Kind, source: string, reply: Option<Id>)
    requires c in s.clients
    ensures s.clients[c].room.None? || reply.None? ==> HandleProduce(s, c, kind, source, reply) == s
  {
  }

  lemma ProduceBooked(s: Server, c: ClientId, kind: Kind, source: string, reply: Option<Id>, r: RoomId,
                      pid: ParticipantId, was: Ledger)
    requires Inv(s) && c in s.clients && Before(s.cluster, r, pid, was)
    requires Present(HandleProduce(s, c, kind, source, reply).cluster, r, pid)
    ensures LedgerOf(HandleProduce(s, c, kind, source, reply).cluster.rooms[r].participants.at[pid]) ==
            Booked(s, Producing(c, kind, source, reply), pid, was)
  {
    hide Inv, SetParticipant, HandleProduce, LedgerOf, Set;
    var me := s.clients[c];
    ProduceCases(s, c, kind, source, reply);
    if me.room.Some? && reply.Some? {
      var p := s.cluster.rooms[me.room.value].participants.at[me.participant.value];
      var k := Producer(reply.value, kind, source, false);
      OwnUpdate(s, c, p.(producers := Set(p.producers, k.id, k)), r, pid);
      ProducedLedger(p, k);
    }
  }

  lemma ProducedLedger(p: Participant, k: Producer)
    ensures LedgerOf(p.(producers := Set(p.producers, k.id, k))) ==
            LedgerOf(p).(producers := LedgerOf(p).producers[k.id := k])
  {
  }

  lemma ConsumeCases(s: Server, c: ClientId, producer: Id, reply: ConsumeReply)
    requires Inv(s) && c in s.clients && s.clients[c].room.Some?
    requires InRoom(s.clients[c]) && Present(s.cluster, s.clients[c].room.value, s.clients[c].participant.value)
    ensures var me := s.clients[c];
            var p := s.cluster.rooms[me.room.value].participants.at[me.participant.value];
            HandleConsume(s, c, producer, reply).cluster.rooms ==
            if reply.Consuming? && Offered(s, c, producer) && p.recv.Some? && p.recv.value != ""
            then SetParticipant(s.cluster, me.room.value, me.participant.value,
                   p.(consumers := Set(p.consumers, reply.id, Consumer(reply.id, producer, reply.kind, true)))).rooms
            else s.cluster.rooms
  {
    hide Inv, SnapshotOf;
    assert Offered(s, c, producer) <==> HasProducer(s.cluster, s.clients[c].room.value, producer);
  }

  lemma ConsumeBooked(s: Server, c: ClientId, producer: Id, reply: ConsumeReply, r: RoomId, pid: ParticipantId,
                      was: Ledger)
    requires Inv(s) && c in s.clients && Before(s.cluster, r, pid, was)
    requires Present(HandleConsume(s, c, producer, reply).cluster, r, pid)
    ensures LedgerOf(HandleConsume(s, c, producer, reply).cluster.rooms[r].participants.at[pid]) ==
            Booked(s, ConsumingFrom(c, producer, reply), pid, was)
  {
    hide Inv, Persist, SetParticipant, Owns, HasProducer, HandleConsume, Offered;
    var me := s.clients[c];
    if me.room.Some? {
      PlayerSeat(s, c);
      ConsumeCases(s, c, producer, reply);
      var p := s.cluster.rooms[me.room.value].participants.at[me.participant.value];
      if reply.Consuming? && Offered(s, c, producer) && p.recv.Some? && p.recv.value != "" {
        var q := p.(consumers := Set(p.consumers, reply.id, Consumer(reply.id, producer, reply.kind, true)));
        OwnUpdate(s, c, q, r, pid);
      } else if IsPlayedBy(s, c, pid) && Present(s.cluster, r, pid) {
        OnlySeat(s, c, r, pid);
      }
    } else {
      NoRoomConsumes(s, c, producer, reply);
    }
  }

  lemma NoRoomConsumes(s: Server, c: ClientId, producer: Id, reply: ConsumeReply)
    requires c in s.clients && s.clients[c].room.None?
    ensures HandleConsume(s, c, producer, reply) == s
  {
  }

  lemma OnlySeat(s: Server, c: ClientId, r: RoomId, pid: ParticipantId)
    requires Inv(s) && IsPlayedBy(s, c, pid) && Present(s.cluster, r, pid)
    requires Present(s.cluster, s.clients[c].room.value, pid)
    ensures r == s.clients[c].room.value
  {
    SeatInOneRoom(TablesOf(s), r, s.clients[c].room.value, pid);
  }

  lemma CloseCases(s: Server, c: ClientId, producer: Id, ok: bool)
    requires Inv(s) && c in s.clients
    ensures var me, w' := s.clients[c], HandleCloseProducer(s, c, producer, ok).cluster;
            if me.room.None? || producer !in me.producers || !ok then w'.rooms == s.cluster.rooms
            else
              && InRoom(me) && Present(s.cluster, me.room.value, me.participant.value)
              && var p := s.cluster.rooms[me.room.value].participants.at[me.participant.value];
                 w'.rooms == SetParticipant(s.cluster, me.room.value, me.participant.value,
                                            p.(producers := Without(p.producers, {producer}))).rooms
  {
    hide Inv, Persist, SetParticipant, StripRoom, Broadcast;
    var me := s.clients[c];
    if me.room.Some? {
      PlayerSeat(s, c);
      if producer in me.producers && ok {
        InvPlays(s, c);
        CloseIsSet(s, c, producer);
        PersistRooms(StripRoom(s.cluster, me.room.value, {producer}), me.room.value);
      }
    }
  }

  lemma CloseBooked(s: Server, c: ClientId, producer: Id, ok: bool, r: RoomId, pid: ParticipantId, was: Ledger)
    requires Inv(s) && c in s.clients && Before(s.cluster, r, pid, was)
    requires Present(HandleCloseProducer(s, c, producer, ok).cluster, r, pid)
    ensures LedgerOf(HandleCloseProducer(s, c, producer, ok).cluster.rooms[r].participants.at[pid]) ==
            Booked(s, ClosingProducer(c, producer, ok), pid, was)
  {
    hide Inv, SetParticipant, HandleCloseProducer, Owns, SeatOf;
    var me := s.clients[c];
    CloseCases(s, c, producer, ok);
    if me.room.Some? {
      PlayerSeat(s, c);
      var p := s.cluster.rooms[me.room.value].participants.at[me.participant.value];
      if producer in me.producers && ok {
        OwnUpdate(s, c, p.(producers := Without(p.producers, {producer})), r, pid);
      } else if IsPlayedBy(s, c, pid) {
        OnlySeat(s, c, r, pid);
        if ok {
          NothingToClose(me, p, producer);
        }
      }
    }
  }

  lemma NothingToClose(me: Client, p: Participant, producer: Id)
    requires Owns(me, SeatOf(p)) && producer !in me.producers
    ensures p.producers.at - {producer} == p.producers.at
  {
  }

  lemma InvPlays(s: Server, c: ClientId)
    requires Inv(s) && c in s.clients && s.clients[c].room.Some?
    ensures s.clients[c].participant.Some? &&
            Plays(TablesOf(s), c, s.clients[c].room.value, s.clients[c].participant.value)
  {
    assert ClientInStep(s.clients[c], TablesOf(s).rooms);
  }

  /** Who leaves takes only its own producers along. */
  lemma LeaveBooked(s: Server, c: ClientId, failing: set<Id>, closed: bool, r: RoomId, pid: ParticipantId, was: Ledger)
    requires Inv(s) && c in s.clients && Before(s.cluster, r, pid, was)
    requires Present(HandleLeave(s, c, failing, closed).cluster, r, pid)
    ensures LedgerOf(HandleLeave(s, c, failing, closed).cluster.rooms[r].participants.at[pid]) == was
  {
    hide Inv, Without, Set, StripProducers, HandleLeave;
    var me := s.clients[c];
    if me.room.Some? {
      PlayerSeat(s, c);
      InvPlays(s, c);
      OwnStripped(s, c, me.producers - failing);
      LeaveCases(s, c, failing, closed);
      var m := s.cluster.rooms[me.room.value].participants;
      var q := m.at[me.participant.value].(
                 producers := Without(m.at[me.participant.value].producers, me.producers - failing));
      OthersStay(s.cluster.rooms, HandleLeave(s, c, failing, closed).cluster.rooms, me.room.value,
                 me.participant.value, q, r,
                 pid);
    } else {
      NoRoomLeaves(s, c, failing, closed);
    }
  }

  lemma NoRoomLeaves(s: Server, c: ClientId, failing: set<Id>, closed: bool)
    requires c in s.clients && s.clients[c].room.None?
    ensures HandleLeave(s, c, failing, closed) == s
  {
  }

  lemma OthersStay(rooms: map<RoomId, Room>, rooms': map<RoomId, Room>, r0: RoomId, self: ParticipantId, q: Participant,
                   r: RoomId, pid: ParticipantId)
    requires r0 in rooms && r in rooms' && pid in rooms'[r].participants.at
    requires var m := Without(Set(rooms[r0].participants, self, q), {self});
             rooms' == if m.at == map[] then rooms - {r0} else rooms[r0 := rooms[r0].(participants := m)]
    ensures r in rooms && pid in rooms[r].participants.at
    ensures rooms'[r].participants.at[pid] == rooms[r].participants.at[pid]
  {
  }

  lemma LeaveCases(s: Server, c: ClientId, failing: set<Id>, closed: bool)
    requires c in s.clients && InRoom(s.clients[c]) && s.clients[c].room.value in s.cluster.rooms
    ensures var me := s.clients[c];
            var r0 := me.room.value;
            var m := Without(StripProducers(s.cluster.rooms[r0].participants, me.producers - failing),
                             {me.participant.value});
            HandleLeave(s, c, failing, closed).cluster.rooms ==
            if m.at == map[] then s.cluster.rooms - {r0}
            else s.cluster.rooms[r0 := s.cluster.rooms[r0].(participants := m)]
  {
    hide StripProducers, Broadcast;
    var me := s.clients[c];
    LeftRooms(StripRoom(s.cluster, me.room.value, me.producers - failing), me.room.value, me.participant.value, closed);
  }

  lemma OwnStripped(s: Server, c: ClientId, gone: set<Id>)
    requires Inv(s) && c in s.clients && InRoom(s.clients[c]) && gone <= s.clients[c].producers
    requires Present(s.cluster, s.clients[c].room.value, s.clients[c].participant.value)
    requires Plays(TablesOf(s), c, s.clients[c].room.value, s.clients[c].participant.value)
    ensures var m, pid := s.cluster.rooms[s.clients[c].room.value].participants, s.clients[c].participant.value;
            StripProducers(m, gone) == Set(m, pid, m.at[pid].(producers := Without(m.at[pid].producers, gone)))
  {
    var r, pid := s.clients[c].room.value, s.clients[c].participant.value;
    var m := s.cluster.rooms[r].participants;
    forall q, k | q in m.at && q != pid && k in gone
      ensures k !in m.at[q].producers.at
    {
      ElsewhereAbsent(TablesOf(s), c, r, pid, q, k);
      assert k !in SeatOf(m.at[q]).producers;
    }
    StripIsSet(m, pid, gone);
  }

  lemma JoinBooked(s: Server, c: ClientId, r0: RoomId, role: string, name: string, caps: Option<Caps>, now: nat,
                   reply: CreateReply, r: RoomId, pid: ParticipantId, was: Ledger)
    requires Inv(s) && c in s.clients && Before(s.cluster, r, pid, was) && FreshStamp(s, c, now)
    requires Present(HandleJoin(s, c, r0, role, name, caps, now, reply).cluster, r, pid)
    ensures LedgerOf(HandleJoin(s, c, r0, role, name, caps, now, reply).cluster.rooms[r].participants.at[pid]) ==
            Booked(s, Joining(c, r0, role, name, caps, now, reply), pid, was)
  {
    hide HandleJoin, Inv, SnapshotOf, Founded, HeardOf, Welcomed, SeatedIn, LetsIn, Agreed, InStep;
    InvParts(s, r0);
    LetsInIs(s, r0, reply);
    var s' := HandleJoin(s, c, r0, role, name, caps, now, reply);
    if s.clients[c].user.Some? && r0 in s'.cluster.rooms {
      JoinsExactly(s, c, r0, role, name, caps, now, reply);
      JoinSeats(s, c, r0, role, name, caps, now, reply);
      JoinedAt(s.cluster, s'.cluster, r0, NewParticipant(s.clients[c].user.value, role, name, caps, now), r, pid);
    } else {
      JoinFails(s, c, r0, role, name, caps, now, reply);
      if s.clients[c].user.Some? {
        JoinsExactly(s, c, r0, role, name, caps, now, reply);
      }
    }
  }

  lemma JoinedAt(w: Cluster, w': Cluster, r0: RoomId, p: Participant, r: RoomId, pid: ParticipantId)
    requires r0 in w'.rooms && SeatedIn(w, r0, p, w'.rooms[r0]) && w'.rooms - {r0} == w.rooms - {r0}
    requires forall x | x in w.rooms :: p.id !in w.rooms[x].participants.at
    requires Present(w', r, pid)
    ensures if pid == p.id then w'.rooms[r].participants.at[pid] == p
            else Present(w, r, pid) && w'.rooms[r].participants.at[pid] == w.rooms[r].participants.at[pid]
  {
    assert r != r0 ==> r in w'.rooms - {r0};
  }

  lemma LetsInIs(s: Server, r: RoomId, reply: CreateReply)
    ensures LetsIn(s, r, reply) <==> r in s.cluster.rooms || HasRecord(s.cluster, r) || GetsRouter(s.cluster, r, reply)
  {
  }

  lemma StepBooks(s: Server, step: Step, r: RoomId, pid: ParticipantId, was: Ledger)
    requires Inv(s) && Disciplined(s, step) && Present(Next(s, step).cluster, r, pid) && Before(s.cluster, r, pid, was)
    ensures LedgerOf(Next(s, step).cluster.rooms[r].participants.at[pid]) == Booked(s, step, pid, was)
  {
    hide Inv, HandleJoin, HandleLeave, HandleCreateTransport, HandleProduce, HandleConsume, HandleCloseProducer,
        HonestReply,
        LedgerOf, AllocateRoom;
    match step
    case Joining(c, r0, role, name, caps, now, reply) => JoinBooked(s, c, r0, role, name, caps, now, reply, r, pid,
                                                                    was);
    case Leaving(c, failing, closed) => LeaveBooked(s, c, failing, closed, r, pid, was);
    case Disconnecting(c, failing, closed) => LeaveBooked(s, c, failing, closed, r, pid, was);
    case CreatingTransport(c, direction, reply) => TransportBooked(s, c, direction, reply, r, pid, was);
    case Producing(c, kind, source, reply) => ProduceBooked(s, c, kind, source, reply, r, pid, was);
    case ConsumingFrom(c, producer, reply) => ConsumeBooked(s, c, producer, reply, r, pid, was);
    case ClosingProducer(c, producer, ok) => CloseBooked(s, c, producer, ok, r, pid, was);
    case Allocating(r0, reply) => AllocationRecorded(s.cluster, r0, reply);
    case _ =>
  }

  // ---- and so is every run
  // ----------------------------------------------------------------------------------------------

  /**
   * Over every disciplined run: the record of a participant is what its own client's requests add up to since it
   * joined, whatever everybody else did in between.
   */
  lemma {:induction false} RecordIsLedger(s: Server, steps: seq<Step>, r: RoomId, pid: ParticipantId, was: Ledger)
    requires Inv(s) && AllDisciplined(s, steps) && AllPossible(s, steps)
    requires Present(After(s, steps).cluster, r, pid)
    requires forall x | Present(s.cluster, x, pid) :: was == LedgerOf(s.cluster.rooms[x].participants.at[pid])
    ensures LedgerOf(After(s, steps).cluster.rooms[r].participants.at[pid]) == Booking(s, steps, pid, was)
    decreases |steps|
  {
    hide Inv, Next, Disciplined, LedgerOf;
    if steps != [] {
      var booked := Booked(s, steps[0], pid, was);
      StepKeeps(s, steps[0]);
      forall x | Present(Next(s, steps[0]).cluster, x, pid)
        ensures booked == LedgerOf(Next(s, steps[0]).cluster.rooms[x].participants.at[pid])
      {
        StepBooks(s, steps[0], x, pid, was);
      }
      RecordIsLedger(Next(s, steps[0]), steps[1..], r, pid, booked);
    }
  }

  /** From the start, where nobody is in any room. */
  lemma LedgerFromStart(nodes: seq<SfuNode>, steps: seq<Step>, r: RoomId, pid: ParticipantId, any: Ledger)
    requires AllDisciplined(Initial(nodes), steps) && AllPossible(Initial(nodes), steps)
    requires Present(After(Initial(nodes), steps).cluster, r, pid)
    ensures LedgerOf(After(Initial(nodes), steps).cluster.rooms[r].participants.at[pid]) ==
            Booking(Initial(nodes), steps, pid, any)
  {
    InitialInv(nodes);
    RecordIsLedger(Initial(nodes), steps, r, pid, any);
  }
}

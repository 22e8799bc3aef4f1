/** The client and seat tables inside the server state, and what each handler does to them. */
module SeatTables {
  import opened Options
  import opened JsMaps
  import opened RoomTypes
  import opened Rooms
  import opened Agreement
  import opened Membership
  import opened Tables
  import opened Signaling

  function RoomSeats(rooms: map<RoomId, Room>): map<RoomId, Seats> {
    map r | r in rooms :: SeatsOf(rooms[r].participants.at)
  }

  function TablesOf(s: Server): Tables {
    Tables(s.clients, RoomSeats(s.cluster.rooms))
  }

  // ---- joining ----------------------------------------------------------------------------------------

  lemma FirstWithUserFinds(ps: seq<Participant>, user: UserId)
    ensures var found := FirstWithUser(ps, user);
            if found.Some? then exists p :: p in ps && p.user == user && p.id == found.value
            else forall p | p in ps :: p.user != user
  {
  }

  /** Participants sit under their own ids, and no user sits twice. */
  ghost predicate Seating(at: map<ParticipantId, Participant>) {
    && (forall pid | pid in at :: at[pid].id == pid && at[pid].user == pid.user)
    && (forall a, b | a in at && b in at && a.user == b.user :: a == b)
  }

  lemma SeatsSoundSeating(at: map<ParticipantId, Participant>)
    requires SeatsSound(SeatsOf(at))
    ensures Seating(at)
  {
  }

  function HeldBy(at: map<ParticipantId, Participant>, user: UserId): set<ParticipantId> {
    set pid | pid in at && pid.user == user
  }

  lemma HeldInSeats(at: map<ParticipantId, Participant>, user: UserId)
    ensures Held(SeatsOf(at), user) == HeldBy(at, user)
  {
  }

  /** The first match is the only one. */
  lemma FindIsHeld(m: JsMap<ParticipantId, Participant>, user: UserId)
    requires Seating(m.at)
    ensures var found := FirstWithUser(Values(m), user);
            HeldBy(m.at, user) == if found.Some? then {found.value} else {}
  {
    hide FirstWithUser, Values;
    FirstWithUserFinds(Values(m), user);
    ValuesMembers(m);
    var found := FirstWithUser(Values(m), user);
    if found.Some? {
      var p :| p in Values(m) && p.user == user && p.id == found.value;
      var pid :| pid in m.at && m.at[pid] == p;
      HeldAlone(m.at, pid, user);
    } else {
      forall pid | pid in m.at
        ensures pid.user != user
      {
        assert m.at[pid] in Values(m);
      }
    }
  }

  lemma HeldAlone(at: map<ParticipantId, Participant>, pid: ParticipantId, user: UserId)
    requires Seating(at) && pid in at && at[pid].user == user
    ensures pid == at[pid].id && HeldBy(at, user) == {pid}
  {
  }

  function ParticipantsAt(w: Cluster, r: RoomId): JsMap<ParticipantId, Participant> {
    if r in w.rooms then w.rooms[r].participants else Empty()
  }

  /** joinRoom adds one participant to the room and leaves all others alone. */
  lemma JoinRooms(w: Cluster, r: RoomId, user: UserId, role: string, name: string, caps: Option<Caps>, now: nat,
                  reply: CreateReply)
    requires r in w.rooms || Coherent(w)
    ensures var w' := JoinRoom(w, r, user, role, name, caps, now, reply);
            if r in w'.rooms then
              && w'.rooms == w.rooms[r := w'.rooms[r]]
              && w'.rooms[r].participants ==
                   Set(ParticipantsAt(w, r), ParticipantId(user, now), NewParticipant(user, role, name, caps, now))
            else w'.rooms == w.rooms
  {
    hide OpenRoom, NewParticipant, SnapshotOf, Coherent;
    if r in w.rooms {
      OpenResident(w, r, now, reply);
    } else {
      OpenRooms(w, r, now, reply);
    }
  }

  lemma SeatsOfSet(m: JsMap<ParticipantId, Participant>, p: Participant)
    ensures SeatsOf(Set(m, p.id, p).at) == SeatsOf(m.at)[p.id := SeatOf(p)]
  {
  }

  lemma SeatsOfWithout(m: JsMap<ParticipantId, Participant>, gone: set<ParticipantId>)
    ensures SeatsOf(Without(m, gone).at) == SeatsOf(m.at) - gone
  {
  }

  lemma EvictNobody(clients: Clients, c: ClientId)
    ensures Evict(clients, {}, c) == clients
  {
  }

  function NewSeat(user: UserId, role: string, name: string, caps: Option<Caps>, now: nat): Seat {
    SeatOf(NewParticipant(user, role, name, caps, now))
  }

  lemma NewSeatOk(user: UserId, role: string, name: string, caps: Option<Caps>, now: nat)
    ensures NewParticipantOk(NewSeat(user, role, name, caps, now)) &&
            NewSeat(user, role, name, caps, now).id == ParticipantId(user, now)
    ensures NewSeat(user, role, name, caps, now).user == user
  {
  }

  /** After the reconnect branch, the room's table has exactly the seats of the other users. */
  lemma DropIsEvict(s: Server, c: ClientId, r: RoomId, user: UserId)
    requires r in s.cluster.rooms ==> Seating(s.cluster.rooms[r].participants.at)
    ensures var s1 := DropOldEntry(s, c, r, FindByUser(s.cluster, r, user));
            var m := ParticipantsAt(s.cluster, r);
            && s1.clients == Evict(s.clients, HeldBy(m.at, user), c)
            && ParticipantsAt(s1.cluster, r).at == m.at - HeldBy(m.at, user)
            && s1.cluster.rooms.Keys == s.cluster.rooms.Keys
            && s1.cluster.rooms - {r} == s.cluster.rooms - {r}
            && (r !in s.cluster.rooms ==> s1 == s)
  {
    hide Evict, RemoveEntry, FirstWithUser, HeldBy, Seating;
    if r in s.cluster.rooms {
      FindIsHeld(s.cluster.rooms[r].participants, user);
      if FindByUser(s.cluster, r, user).Some? {
        RemovedFrom(s.cluster, r, FindByUser(s.cluster, r, user).value);
      }
    } else {
      HeldByNobody(user);
    }
    EvictNobody(s.clients, c);
  }

  lemma HeldByNobody(user: UserId)
    ensures HeldBy(map[], user) == {}
  {
  }

  lemma RemovedFrom(w: Cluster, r: RoomId, pid: ParticipantId)
    requires r in w.rooms
    ensures var w' := RemoveEntry(w, r, pid);
            && r in w'.rooms && w'.rooms.Keys == w.rooms.Keys && w'.rooms - {r} == w.rooms - {r}
            && w'.rooms[r].participants.at == w.rooms[r].participants.at - {pid}
  {
  }

  /** The tables of two room maps that differ in one room. */
  lemma RoomSeatsBut(rooms: map<RoomId, Room>, rooms': map<RoomId, Room>, r: RoomId, seats: Seats)
    requires rooms - {r} == rooms' - {r} && r in rooms' && SeatsOf(rooms'[r].participants.at) == seats
    ensures RoomSeats(rooms') == RoomSeats(rooms)[r := seats]
  {
    forall x | x in rooms'
      ensures x == r || (x in rooms && rooms[x] == rooms'[x])
    {
      assert x != r ==> x in rooms' - {r};
    }
    forall x | x in rooms && x != r
      ensures x in rooms'
    {
      assert x in rooms - {r};
    }
  }

  lemma SeatAdded(rooms0: map<RoomId, Room>, rooms: map<RoomId, Room>, r: RoomId,
                  before: JsMap<ParticipantId, Participant>, p: Participant, seats0: Seats)
    requires rooms0 - {r} == rooms - {r} && r in rooms && rooms[r].participants == Set(before, p.id, p)
    requires SeatsOf(before.at) == seats0 - Held(seats0, p.user)
    ensures RoomSeats(rooms) == RoomSeats(rooms0)[r := SeatsWith(seats0, SeatOf(p))]
  {
    SeatsOfSet(before, p);
    RoomSeatsBut(rooms0, rooms, r, SeatsWith(seats0, SeatOf(p)));
  }

  lemma SeatsAtOf(s: Server, r: RoomId)
    ensures SeatsAt(TablesOf(s), r) == SeatsOf(ParticipantsAt(s.cluster, r).at)
  {
  }

  lemma SeatedIsEntered(s: Server, s1: Server, w: Cluster, c: ClientId, r: RoomId, p: Participant, isReconnect: bool)
    requires c in s.clients && r in w.rooms && w.rooms - {r} == s.cluster.rooms - {r}
    requires var before := ParticipantsAt(s.cluster, r);
             && s1.clients == Evict(s.clients, HeldBy(before.at, p.user), c)
             && ParticipantsAt(s1.cluster, r).at == before.at - HeldBy(before.at, p.user)
             && w.rooms[r].participants == Set(ParticipantsAt(s1.cluster, r), p.id, p)
    ensures var joined := JoinedEvent(w.rooms[r], r, p.id, isReconnect);
            TablesOf(Server(Broadcast(s1.clients[c := Entered(s1.clients[c], r, p.id, joined)], r, c,
                                      ParticipantJoined(p.id, p.user, p.name, p.role, isReconnect)), w)) ==
            Enter(TablesOf(s), c, r, SeatOf(p), joined, isReconnect)
  {
    var before := ParticipantsAt(s.cluster, r);
    SeatsAtOf(s, r);
    HeldInSeats(before.at, p.user);
    SeatsOfWithout(before, HeldBy(before.at, p.user));
    SeatAdded(s.cluster.rooms, w.rooms, r, ParticipantsAt(s1.cluster, r), p, SeatsAt(TablesOf(s), r));
  }

  lemma JoinedRooms(s: Server, s1: Server, c: ClientId, r: RoomId, user: UserId, role: string, name: string,
                    caps: Option<Caps>, now: nat, reply: CreateReply)
    requires Coherent(s.cluster) && (r in s.cluster.rooms ==> Seating(s.cluster.rooms[r].participants.at))
    requires s1 == DropOldEntry(s, c, r, FindByUser(s.cluster, r, user))
    requires r in JoinRoom(s1.cluster, r, user, role, name, caps, now, reply).rooms
    ensures var w := JoinRoom(s1.cluster, r, user, role, name, caps, now, reply);
            var before := ParticipantsAt(s.cluster, r);
            && w.rooms - {r} == s.cluster.rooms - {r}
            && s1.clients == Evict(s.clients, HeldBy(before.at, user), c)
            && ParticipantsAt(s1.cluster, r).at == before.at - HeldBy(before.at, user)
            && w.rooms[r].participants == Set(ParticipantsAt(s1.cluster, r), ParticipantId(user, now),
                                              NewParticipant(user, role, name, caps, now))
  {
    hide JoinRoom, DropOldEntry, FindByUser, Evict, Seating, HeldBy;
    DropIsEvict(s, c, r, user);
    JoinRooms(s1.cluster, r, user, role, name, caps, now, reply);
    var w := JoinRoom(s1.cluster, r, user, role, name, caps, now, reply);
    assert w.rooms - {r} == s1.cluster.rooms - {r};
  }

  /** The tables after a successful join are those after the abstract operation of entering. */
  lemma JoinIsEnter(s: Server, c: ClientId, r: RoomId, role: string, name: string, caps: Option<Caps>, now: nat,
                    reply: CreateReply)
    requires c in s.clients && s.clients[c].user.Some? && Coherent(s.cluster)
    requires r in s.cluster.rooms ==> Seating(s.cluster.rooms[r].participants.at)
    requires r in HandleJoin(s, c, r, role, name, caps, now, reply).cluster.rooms
    ensures var user := s.clients[c].user.value;
            var s' := HandleJoin(s, c, r, role, name, caps, now, reply);
            var isReconnect := FindByUser(s.cluster, r, user).Some?;
            TablesOf(s') == Enter(TablesOf(s), c, r, SeatOf(NewParticipant(user, role, name, caps, now)),
                                  JoinedEvent(s'.cluster.rooms[r], r, ParticipantId(user, now), isReconnect),
                                  isReconnect)
  {
    hide JoinRoom, DropOldEntry, FindByUser, Enter, Evict, Broadcast, Others, Coherent, Seating, ParticipantsAt, HeldBy;
    var user := s.clients[c].user.value;
    var s1 := DropOldEntry(s, c, r, FindByUser(s.cluster, r, user));
    var w := JoinRoom(s1.cluster, r, user, role, name, caps, now, reply);
    JoinedRooms(s, s1, c, r, user, role, name, caps, now, reply);
    SeatedIsEntered(s, s1, w, c, r, NewParticipant(user, role, name, caps, now), FindByUser(s.cluster, r, user).Some?);
  }

  // ---- the other handlers ---------------------------------------------------------------------------

  lemma ChangedSeat(w: Cluster, r: RoomId, pid: ParticipantId, p: Participant)
    requires Present(w, r, pid) && p.id == pid
    ensures RoomSeats(Persist(SetParticipant(w, r, pid, p), r).rooms) ==
            RoomSeats(w.rooms)[r := SeatsOf(w.rooms[r].participants.at)[pid := SeatOf(p)]]
  {
    SeatsOfSet(w.rooms[r].participants, p);
    RoomSeatsBut(w.rooms, SetParticipant(w, r, pid, p).rooms, r, SeatsOf(w.rooms[r].participants.at)[pid := SeatOf(p)]);
  }

  lemma SeatAfterStrip(p: Participant, gone: set<Id>)
    ensures SeatOf(p.(producers := Without(p.producers, gone))) == SeatOf(p).(producers := SeatOf(p).producers - gone)
  {
  }

  lemma StrippedPointwise(seats: Seats, after: Seats, gone: set<Id>)
    requires seats.Keys == after.Keys
    requires forall pid | pid in seats :: after[pid] == seats[pid].(producers := seats[pid].producers - gone)
    ensures after == Strip(seats, gone)
  {
  }

  lemma SeatStrippedAt(m: JsMap<ParticipantId, Participant>, gone: set<Id>, pid: ParticipantId)
    requires pid in m.at
    ensures SeatOf(StripProducers(m, gone).at[pid]) ==
            SeatOf(m.at[pid]).(producers := SeatOf(m.at[pid]).producers - gone)
  {
    SeatAfterStrip(m.at[pid], gone);
  }

  lemma SeatsAfterStrip(m: JsMap<ParticipantId, Participant>, gone: set<Id>)
    ensures SeatsOf(StripProducers(m, gone).at) == Strip(SeatsOf(m.at), gone)
  {
    var seats, after := SeatsOf(m.at), SeatsOf(StripProducers(m, gone).at);
    forall pid | pid in seats
      ensures after[pid] == seats[pid].(producers := seats[pid].producers - gone)
    {
      SeatStrippedAt(m, gone, pid);
    }
    StrippedPointwise(seats, after, gone);
  }

  lemma StrippedSeats(w: Cluster, r: RoomId, gone: set<Id>)
    requires r in w.rooms
    ensures RoomSeats(StripRoom(w, r, gone).rooms) ==
            RoomSeats(w.rooms)[r := Strip(SeatsOf(w.rooms[r].participants.at), gone)]
  {
    var stripped := StripProducers(w.rooms[r].participants, gone);
    SeatsAfterStrip(w.rooms[r].participants, gone);
    ReplacedRoom(w.rooms, r, w.rooms[r].(participants := stripped));
  }

  lemma ReplacedRoom(rooms: map<RoomId, Room>, r: RoomId, room: Room)
    ensures RoomSeats(rooms[r := room]) == RoomSeats(rooms)[r := SeatsOf(room.participants.at)]
  {
  }

  lemma RemovedRoom(rooms: map<RoomId, Room>, r: RoomId)
    ensures RoomSeats(rooms - {r}) == RoomSeats(rooms) - {r}
  {
  }

  /** leaveRoom on the room table alone. */
  lemma LeftRooms(w: Cluster, r: RoomId, pid: ParticipantId, closed: bool)
    requires r in w.rooms
    ensures var room := w.rooms[r].(participants := Without(w.rooms[r].participants, {pid}));
            LeaveRoom(w, r, pid, closed).rooms == if room.participants.at == map[] then w.rooms - {r}
                else w.rooms[r := room]
  {
  }

  lemma LeftSeats(rooms: map<RoomId, Room>, r: RoomId, pid: ParticipantId, room: Room, rooms': map<RoomId, Room>)
    requires r in rooms && room.participants == Without(rooms[r].participants, {pid})
    requires rooms' == if room.participants.at == map[] then rooms - {r} else rooms[r := room]
    ensures var seats := SeatsOf(rooms[r].participants.at) - {pid};
            RoomSeats(rooms') == if seats == map[] then RoomSeats(rooms) - {r} else RoomSeats(rooms)[r := seats]
  {
    SeatsOfWithout(rooms[r].participants, {pid});
    EmptySeats(room.participants.at);
    RemovedRoom(rooms, r);
    ReplacedRoom(rooms, r, room);
  }

  lemma EmptySeats(at: map<ParticipantId, Participant>)
    ensures SeatsOf(at) == map[] <==> at == map[]
  {
  }

  lemma UpdateTwice(before: map<RoomId, Seats>, r: RoomId, first: Seats, second: Seats)
    ensures before[r := first] - {r} == before - {r} && before[r := first][r := second] == before[r := second]
  {
  }

  /** Leaving after closing producers, on the seats. */
  lemma StrippedLeftSeats(w: Cluster, r: RoomId, pid: ParticipantId, gone: set<Id>, closed: bool)
    requires r in w.rooms
    ensures var seats := Strip(SeatsOf(w.rooms[r].participants.at), gone) - {pid};
            RoomSeats(LeaveRoom(StripRoom(w, r, gone), r, pid, closed).rooms) ==
            if seats == map[] then RoomSeats(w.rooms) - {r} else RoomSeats(w.rooms)[r := seats]
  {
    var w1 := StripRoom(w, r, gone);
    SeatsAfterStrip(w.rooms[r].participants, gone);
    StrippedSeats(w, r, gone);
    LeftRooms(w1, r, pid, closed);
    var room := w1.rooms[r].(participants := Without(w1.rooms[r].participants, {pid}));
    LeftSeats(w1.rooms, r, pid, room, LeaveRoom(w1, r, pid, closed).rooms);
    var stripped := Strip(SeatsOf(w.rooms[r].participants.at), gone);
    UpdateTwice(RoomSeats(w.rooms), r, stripped, stripped - {pid});
  }
}

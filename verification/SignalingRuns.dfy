/** Whole runs of the signaling server: the tables stay in step, Redis stays coherent, clients stay informed. */
module SignalingRuns {
  import opened Options
  import opened JsMaps
  import opened RoomTypes
  import opened Rooms
  import opened Agreement
  import opened Membership
  import opened Tables
  import opened Signaling
  import opened SeatTables
  import opened Cleanup

  /** Producers and consumers are stored under their own ids. */
  ghost predicate AllWellKeyed(m: JsMap<ParticipantId, Participant>) {
    forall pid | pid in m.at :: WellKeyedParticipant(m.at[pid])
  }

  ghost predicate KeyedRoom(room: Room) {
    AllWellKeyed(room.participants)
  }

  ghost predicate Keyed(rooms: map<RoomId, Room>) {
    forall r | r in rooms :: KeyedRoom(rooms[r])
  }

  ghost predicate Inv(s: Server) {
    Agreed(s.cluster) && Keyed(s.cluster.rooms) && InStep(TablesOf(s)) && AllInformed(TablesOf(s))
  }

  lemma RoomSeating(s: Server, r: RoomId)
    requires InStep(TablesOf(s)) && r in s.cluster.rooms
    ensures Seating(s.cluster.rooms[r].participants.at)
  {
    assert r in TablesOf(s).rooms;
    SeatsSoundSeating(s.cluster.rooms[r].participants.at);
  }

  // ---- joining ------------------------------------------------------------------------------------

  /** No participant has the id that the joining user would get. */
  ghost predicate FreshStamp(s: Server, c: ClientId, now: nat)
    requires c in s.clients
  {
    s.clients[c].user.Some? ==> forall r | r in s.cluster.rooms ::
      ParticipantId(s.clients[c].user.value, now) !in s.cluster.rooms[r].participants.at
  }

  /** Joining, the client would leave nothing behind. */
  predicate FreeToJoin(s: Server, c: ClientId, r: RoomId)
    requires c in s.clients
  {
    s.clients[c].user.Some? ==> FreeToEnter(s.clients[c], r, s.clients[c].user.value)
  }

  lemma DropAgrees(s: Server, c: ClientId, r: RoomId, previous: Option<ParticipantId>)
    requires Agreed(s.cluster) && (previous.Some? ==> r in s.cluster.rooms)
    ensures var w := DropOldEntry(s, c, r, previous).cluster;
            if r in w.rooms then AgreedBut(w, r) else w == s.cluster
  {
  }

  /** Agreement survives a join, whether or not it succeeds and whoever makes it. */
  lemma HandleJoinAgrees(s: Server, c: ClientId, r: RoomId, role: string, name: string, caps: Option<Caps>, now: nat,
                         reply: CreateReply)
    requires c in s.clients && Agreed(s.cluster) && HonestReply(s.cluster, r, reply)
    ensures Agreed(HandleJoin(s, c, r, role, name, caps, now, reply).cluster)
  {
    if s.clients[c].user.Some? {
      var user := s.clients[c].user.value;
      var previous := FindByUser(s.cluster, r, user);
      DropAgrees(s, c, r, previous);
      JoinAgrees(DropOldEntry(s, c, r, previous).cluster, r, user, role, name, caps, now, reply);
    }
  }

  lemma JoinKeyed(s: Server, c: ClientId, r: RoomId, role: string, name: string, caps: Option<Caps>, now: nat,
                  reply: CreateReply)
    requires c in s.clients && Coherent(s.cluster) && Keyed(s.cluster.rooms)
    requires r in s.cluster.rooms ==> Seating(s.cluster.rooms[r].participants.at)
    ensures Keyed(HandleJoin(s, c, r, role, name, caps, now, reply).cluster.rooms)
  {
    hide JoinRoom, Keyed, Evict, Broadcast, FirstWithUser, Others;
    if s.clients[c].user.Some? {
      var user := s.clients[c].user.value;
      var s1 := DropOldEntry(s, c, r, FindByUser(s.cluster, r, user));
      KeyedAfterDrop(s.cluster, r, FindByUser(s.cluster, r, user));
      KeyedAfterJoin(s1.cluster, r, user, role, name, caps, now, reply);
    }
  }

  lemma KeyedAfterDrop(w: Cluster, r: RoomId, previous: Option<ParticipantId>)
    requires Keyed(w.rooms) && Coherent(w)
    ensures previous.Some? ==> Keyed(RemoveEntry(w, r, previous.value).rooms)
    ensures previous.Some? && r !in w.rooms ==> RemoveEntry(w, r, previous.value) == w
  {
    if previous.Some? && r in w.rooms {
      assert KeyedRoom(w.rooms[r]);
    }
  }

  lemma KeyedAfterJoin(w: Cluster, r: RoomId, user: UserId, role: string, name: string, caps: Option<Caps>, now: nat,
                       reply: CreateReply)
    requires Keyed(w.rooms) && (r in w.rooms || Coherent(w))
    ensures Keyed(JoinRoom(w, r, user, role, name, caps, now, reply).rooms)
  {
    hide JoinRoom, NewParticipant, KeyedRoom, WellKeyedParticipant;
    JoinRooms(w, r, user, role, name, caps, now, reply);
    var w' := JoinRoom(w, r, user, role, name, caps, now, reply);
    if r in w'.rooms {
      NewcomerKeyed(ParticipantsAt(w, r), w'.rooms[r], user, role, name, caps, now) by {
        assert r in w.rooms ==> KeyedRoom(w.rooms[r]);
        KeyedParticipants(w, r);
      }
    }
  }

  lemma KeyedParticipants(w: Cluster, r: RoomId)
    requires r in w.rooms ==> KeyedRoom(w.rooms[r])
    ensures AllWellKeyed(ParticipantsAt(w, r))
  {
  }

  lemma NewcomerKeyed(before: JsMap<ParticipantId, Participant>, room: Room, user: UserId, role: string, name: string,
                      caps: Option<Caps>, now: nat)
    requires AllWellKeyed(before)
    requires room.participants == Set(before, ParticipantId(user, now), NewParticipant(user, role, name, caps, now))
    ensures KeyedRoom(room)
  {
  }

  /** The newcomer's snapshot is right: it lists everyone in the room after the join, with what they produce. */
  lemma JoinedEventRight(room: Room, r: RoomId, pid: ParticipantId, isReconnect: bool)
    requires SeatsSound(SeatsOf(room.participants.at)) && KeyedRoom(room)
    ensures Matches(ViewOf(JoinedEvent(room, r, pid, isReconnect).participants), SeatsOf(room.participants.at), pid)
  {
    SeatsSoundSeating(room.participants.at);
    SnapshotMatches(room.participants, pid);
  }

  lemma EnteredKeeps(t: Tables, c: ClientId, r: RoomId, p: Seat, room: Room, isReconnect: bool)
    requires InStep(t) && AllInformed(t) && CanEnter(t, c, r, p) && KeyedRoom(room)
    requires SeatsOf(room.participants.at) == SeatsWith(SeatsAt(t, r), p)
    ensures var t' := Enter(t, c, r, p, JoinedEvent(room, r, p.id, isReconnect), isReconnect);
            InStep(t') && AllInformed(t')
  {
    SeatsWithSound(SeatsAt(t, r), p);
    JoinedEventRight(room, r, p.id, isReconnect);
    EnterKeeps(t, c, r, p, JoinedEvent(room, r, p.id, isReconnect), isReconnect);
  }

  lemma JoinCanEnter(s: Server, c: ClientId, r: RoomId, role: string, name: string, caps: Option<Caps>, now: nat)
    requires c in s.clients && s.clients[c].user.Some? && FreeToJoin(s, c, r) && r != "" && FreshStamp(s, c, now)
    ensures CanEnter(TablesOf(s), c, r, NewSeat(s.clients[c].user.value, role, name, caps, now))
  {
  }

  lemma JoinedKeeps(s: Server, s': Server, c: ClientId, r: RoomId, p: Seat, isReconnect: bool)
    requires Inv(s) && CanEnter(TablesOf(s), c, r, p) && r in s'.cluster.rooms && Keyed(s'.cluster.rooms)
    requires TablesOf(s') == Enter(TablesOf(s), c, r, p, JoinedEvent(s'.cluster.rooms[r], r, p.id, isReconnect),
                                   isReconnect)
    ensures InStep(TablesOf(s')) && AllInformed(TablesOf(s'))
  {
    var room := s'.cluster.rooms[r];
    assert KeyedRoom(room);
    assert SeatsOf(room.participants.at) == TablesOf(s').rooms[r];
    EnteredKeeps(TablesOf(s), c, r, p, room, isReconnect);
  }

  lemma JoinKeepsTables(s: Server, c: ClientId, r: RoomId, role: string, name: string, caps: Option<Caps>, now: nat,
                        reply: CreateReply)
    requires Inv(s) && c in s.clients && s.clients[c].user.Some? && FreeToJoin(s, c, r) && r != ""
    requires FreshStamp(s, c, now)
    requires Keyed(HandleJoin(s, c, r, role, name, caps, now, reply).cluster.rooms)
    requires r in HandleJoin(s, c, r, role, name, caps, now, reply).cluster.rooms
    ensures var t := TablesOf(HandleJoin(s, c, r, role, name, caps, now, reply)); InStep(t) && AllInformed(t)
  {
    var user := s.clients[c].user.value;
    if r in s.cluster.rooms {
      RoomSeating(s, r);
    }
    JoinIsEnter(s, c, r, role, name, caps, now, reply);
    JoinCanEnter(s, c, r, role, name, caps, now);
    NewSeatOk(user, role, name, caps, now);
    JoinedKeeps(s, HandleJoin(s, c, r, role, name, caps, now, reply), c, r, NewSeat(user, role, name, caps, now),
                FindByUser(s.cluster, r, user).Some?);
  }

  lemma FailedJoin(s: Server, c: ClientId, r: RoomId, role: string, name: string, caps: Option<Caps>, now: nat,
                   reply: CreateReply)
    requires Coherent(s.cluster) && c in s.clients
    requires r in s.cluster.rooms ==> Seating(s.cluster.rooms[r].participants.at)
    requires s.clients[c].user.None? || r !in HandleJoin(s, c, r, role, name, caps, now, reply).cluster.rooms
    ensures TablesOf(HandleJoin(s, c, r, role, name, caps, now, reply)) == TablesOf(s)
  {
    if s.clients[c].user.Some? {
      var user := s.clients[c].user.value;
      var s1 := DropOldEntry(s, c, r, FindByUser(s.cluster, r, user));
      DropIsEvict(s, c, r, user);
      JoinRooms(s1.cluster, r, user, role, name, caps, now, reply);
    }
  }

  /** A join succeeds exactly if its room is resident or can be opened. */
  lemma JoinSucceeds(s: Server, c: ClientId, r: RoomId, role: string, name: string, caps: Option<Caps>, now: nat,
                     reply: CreateReply)
    requires c in s.clients && s.clients[c].user.Some?
    ensures r in HandleJoin(s, c, r, role, name, caps, now, reply).cluster.rooms <==>
            r in OpenRoom(s.cluster, r, now, reply).rooms
  {
    hide AllocateRoom, RestoreRoom, FirstWithUser, Broadcast;
  }

  /** A client that is not free to join and joins all the same leaves the tables out of step. */
  lemma JoinBreaks(s: Server, c: ClientId, r: RoomId, role: string, name: string, caps: Option<Caps>, now: nat,
                   reply: CreateReply)
    requires Inv(s) && c in s.clients && FreshStamp(s, c, now)
    requires !FreeToJoin(s, c, r) && r in OpenRoom(s.cluster, r, now, reply).rooms
    ensures !InStep(TablesOf(HandleJoin(s, c, r, role, name, caps, now, reply)))
  {
    hide OpenRoom, HandleJoin, Agreed, Keyed, InStep, AllInformed;
    var user := s.clients[c].user.value;
    JoinSucceeds(s, c, r, role, name, caps, now, reply);
    if r in s.cluster.rooms {
      RoomSeating(s, r);
    }
    AgreedCoherent(s.cluster);
    JoinIsEnter(s, c, r, role, name, caps, now, reply);
    NewSeatOk(user, role, name, caps, now);
    var isReconnect := FindByUser(s.cluster, r, user).Some?;
    var s' := HandleJoin(s, c, r, role, name, caps, now, reply);
    EnterBreaks(TablesOf(s), c, r, NewSeat(user, role, name, caps, now),
                JoinedEvent(s'.cluster.rooms[r], r, ParticipantId(user, now), isReconnect), isReconnect);
  }

  lemma AgreedCoherent(w: Cluster)
    requires Agreed(w)
    ensures Coherent(w)
  {
  }

  lemma JoinKeeps(s: Server, c: ClientId, r: RoomId, role: string, name: string, caps: Option<Caps>, now: nat,
                  reply: CreateReply)
    requires Inv(s) && c in s.clients && FreshStamp(s, c, now) && HonestReply(s.cluster, r, reply)
    requires FreeToJoin(s, c, r) || r !in OpenRoom(s.cluster, r, now, reply).rooms
    ensures Inv(HandleJoin(s, c, r, role, name, caps, now, reply))
  {
    HandleJoinAgrees(s, c, r, role, name, caps, now, reply);
    if r in s.cluster.rooms {
      RoomSeating(s, r);
    }
    JoinKeyed(s, c, r, role, name, caps, now, reply);
    if s.clients[c].user.Some? {
      JoinSucceeds(s, c, r, role, name, caps, now, reply);
    }
    if s.clients[c].user.None? || r !in HandleJoin(s, c, r, role, name, caps, now, reply).cluster.rooms {
      FailedJoin(s, c, r, role, name, caps, now, reply);
    } else {
      JoinKeepsTables(s, c, r, role, name, caps, now, reply);
    }
  }

  // ---- leaving and disconnecting -----------------------------------------------------------------------

  lemma LeaveIsExit(s: Server, c: ClientId, failing: set<Id>, closed: bool)
    requires c in s.clients && InRoom(s.clients[c]) && s.clients[c].room.value in s.cluster.rooms
    ensures var me := s.clients[c];
            TablesOf(HandleLeave(s, c, failing, closed)) ==
            Exit(TablesOf(s), c, me.room.value, me.participant.value, me.producers - failing)
  {
    var me := s.clients[c];
    StrippedLeftSeats(s.cluster, me.room.value, me.participant.value, me.producers - failing, closed);
    SeatsAtOf(s, me.room.value);
  }

  lemma HandleLeaveAgrees(s: Server, c: ClientId, failing: set<Id>, closed: bool)
    requires c in s.clients && Agreed(s.cluster)
    ensures Agreed(HandleLeave(s, c, failing, closed).cluster)
  {
    var me := s.clients[c];
    if InRoom(me) {
      var r := me.room.value;
      if r in s.cluster.rooms {
        StripAgrees(s.cluster, r, me.producers - failing);
        LeaveAgrees(StripRoom(s.cluster, r, me.producers - failing), r, me.participant.value, closed);
      } else {
        LeaveAgrees(s.cluster, r, me.participant.value, closed);
      }
    }
  }

  lemma KeyedAfterStrip(w: Cluster, r: RoomId, gone: set<Id>)
    requires Keyed(w.rooms) && r in w.rooms
    ensures Keyed(StripRoom(w, r, gone).rooms)
  {
  }

  lemma KeyedAfterLeave(w: Cluster, r: RoomId, pid: ParticipantId, closed: bool)
    requires Keyed(w.rooms)
    ensures Keyed(LeaveRoom(w, r, pid, closed).rooms)
  {
    if r in w.rooms {
      LeftRooms(w, r, pid, closed);
      assert KeyedRoom(w.rooms[r]);
    }
  }

  lemma LeaveKeeps(s: Server, c: ClientId, failing: set<Id>, closed: bool)
    requires Inv(s) && c in s.clients
    ensures Inv(HandleLeave(s, c, failing, closed))
    ensures c in HandleLeave(s, c, failing, closed).clients && HandleLeave(s, c, failing, closed).clients[c].room.None?
  {
    var me := s.clients[c];
    assert ClientInStep(me, TablesOf(s).rooms);
    if InRoom(me) {
      var r := me.room.value;
      HandleLeaveAgrees(s, c, failing, closed);
      KeyedAfterStrip(s.cluster, r, me.producers - failing);
      KeyedAfterLeave(StripRoom(s.cluster, r, me.producers - failing), r, me.participant.value, closed);
      LeaveIsExit(s, c, failing, closed);
      ExitKeeps(TablesOf(s), c, r, me.participant.value, me.producers - failing);
    }
  }

  /** A client in no room can come and go unnoticed. */
  lemma ForgetKeeps(t: Tables, c: ClientId)
    requires InStep(t) && AllInformed(t) && c in t.clients && t.clients[c].room.None?
    ensures var t' := t.(clients := t.clients - {c}); InStep(t') && AllInformed(t')
  {
    var t' := t.(clients := t.clients - {c});
    ForgetBijective(t, c);
    forall x | x in t'.clients
      ensures ClientInStep(t'.clients[x], t'.rooms) && Informed(t'.clients[x], t'.rooms)
    {
      assert t'.clients[x] == t.clients[x];
    }
  }

  lemma ForgetBijective(t: Tables, c: ClientId)
    requires Bijective(t) && c in t.clients && t.clients[c].room.None?
    ensures Bijective(t.(clients := t.clients - {c}))
  {
    var t' := t.(clients := t.clients - {c});
    forall r, pid | r in t'.rooms && pid in t'.rooms[r]
      ensures exists x :: Plays(t', x, r, pid)
    {
      var x :| Plays(t, x, r, pid);
      assert Plays(t', x, r, pid);
    }
    forall x, y, r, s, pid | Plays(t', x, r, pid) && Plays(t', y, s, pid)
      ensures x == y
    {
      assert Plays(t, x, r, pid) && Plays(t, y, s, pid);
    }
  }

  lemma DisconnectKeeps(s: Server, c: ClientId, failing: set<Id>, closed: bool)
    requires Inv(s) && c in s.clients
    ensures Inv(HandleDisconnect(s, c, failing, closed))
  {
    LeaveKeeps(s, c, failing, closed);
    ForgetKeeps(TablesOf(HandleLeave(s, c, failing, closed)), c);
  }

  ghost predicate SameSeat(clients: Clients, c: ClientId, me: Client) {
    if c in clients then me == clients[c].(user := me.user) else me == NEW_CLIENT
  }

  lemma SameSeatBijective(t: Tables, c: ClientId, me: Client)
    requires Bijective(t) && SameSeat(t.clients, c, me)
    ensures Bijective(t.(clients := t.clients[c := me]))
  {
    var t' := t.(clients := t.clients[c := me]);
    forall x, r, pid
      ensures Plays(t', x, r, pid) <==> Plays(t, x, r, pid)
    {
    }
  }

  lemma SameSeatDisjoint(clients: Clients, c: ClientId, me: Client)
    requires ProducersDisjoint(clients) && SameSeat(clients, c, me)
    ensures ProducersDisjoint(clients[c := me])
  {
  }

  /** A new client, or a client that only changes its user, is in step. */
  lemma SameSeatKeeps(t: Tables, c: ClientId, me: Client)
    requires InStep(t) && AllInformed(t) && SameSeat(t.clients, c, me)
    ensures var t' := t.(clients := t.clients[c := me]); InStep(t') && AllInformed(t')
  {
    var t' := t.(clients := t.clients[c := me]);
    SameSeatBijective(t, c, me);
    SameSeatDisjoint(t.clients, c, me);
    forall x | x in t'.clients
      ensures ClientInStep(t'.clients[x], t'.rooms) && Informed(t'.clients[x], t'.rooms)
    {
      assert x in t.clients ==> ClientInStep(t.clients[x], t.rooms) && Informed(t.clients[x], t.rooms);
    }
  }

  // ---- transports, consumers, producers ---------------------------------------------------------------------

  lemma ChangeIs(s: Server, c: ClientId, me: Client, p: Participant, e: Option<Event>)
    requires c in s.clients && me.room.Some? && Present(s.cluster, me.room.value, p.id)
    ensures var r := me.room.value;
            TablesOf(Server(Tell(s.clients[c := me], r, c, e), Persist(SetParticipant(s.cluster, r, p.id, p), r))) ==
            Change(TablesOf(s), c, r, me, SeatOf(p), e)
  {
    ChangedSeat(s.cluster, me.room.value, p.id, p);
    SeatsAtOf(s, me.room.value);
  }

  lemma KeyedAfterSet(w: Cluster, r: RoomId, p: Participant)
    requires Keyed(w.rooms) && r in w.rooms && WellKeyedParticipant(p)
    ensures Keyed(Persist(SetParticipant(w, r, p.id, p), r).rooms)
  {
  }

  /** Everything a handler that only touches its own participant needs. */
  lemma OwnSeat(s: Server, c: ClientId)
    requires Inv(s) && c in s.clients && InRoom(s.clients[c])
    ensures var r, pid := s.clients[c].room.value, s.clients[c].participant.value;
            && Present(s.cluster, r, pid) && Plays(TablesOf(s), c, r, pid)
            && var p := s.cluster.rooms[r].participants.at[pid];
               && p.id == pid && p.user == pid.user && WellKeyedParticipant(p)
               && TablesOf(s).rooms[r][pid] == SeatOf(p) && Owns(s.clients[c], SeatOf(p))
  {
    assert ClientInStep(s.clients[c], TablesOf(s).rooms);
    var r := s.clients[c].room.value;
    RoomSeating(s, r);
    assert KeyedRoom(s.cluster.rooms[r]);
  }

  /** A change of one's own participant that nobody is told about, because no message would mention it. */
  lemma QuietKeeps(s: Server, c: ClientId, me: Client, p: Participant)
    requires Inv(s) && c in s.clients && InRoom(s.clients[c])
    requires me.room == s.clients[c].room && me.participant == s.clients[c].participant && me.participant == Some(p.id)
    requires me.inbox == s.clients[c].inbox && me.producers == s.clients[c].producers
    requires Present(s.cluster, me.room.value, p.id) && p.user == p.id.user && WellKeyedParticipant(p) &&
             Owns(me, SeatOf(p))
    requires EntryOf(SeatOf(p)) == EntryOf(SeatOf(s.cluster.rooms[me.room.value].participants.at[p.id]))
    ensures Inv(Server(s.clients[c := me], Persist(SetParticipant(s.cluster, me.room.value, p.id, p), me.room.value)))
  {
    var r, t := me.room.value, TablesOf(s);
    OwnSeat(s, c);
    UpdateAgrees(s.cluster, r, p.id, p);
    KeyedAfterSet(s.cluster, r, p);
    ChangeIs(s, c, me, p, None);
    forall x | x in t.clients && x != c && t.clients[x].room == Some(r) && t.clients[x].participant.Some?
      ensures Matches(Fold(t.clients[x].inbox), SeatsAt(t, r)[p.id := SeatOf(p)], t.clients[x].participant.value)
    {
      assert Informed(t.clients[x], t.rooms);
      QuietMatches(Fold(t.clients[x].inbox), t.rooms[r], SeatOf(p), t.clients[x].participant.value);
    }
    ChangeKeeps(t, c, r, me, SeatOf(p), None);
  }

  function WithTransport(p: Participant, direction: Direction, id: Id): Participant {
    if direction == Send then p.(send := Some(id)) else p.(recv := Some(id))
  }

  lemma TransportSeat(me: Client, p: Participant, direction: Direction, id: Id)
    requires WellKeyedParticipant(p) && Owns(me, SeatOf(p))
    ensures var q := WithTransport(p, direction, id);
            && WellKeyedParticipant(q) && Owns(me.(transports := me.transports + {id}), SeatOf(q))
            && EntryOf(SeatOf(q)) == EntryOf(SeatOf(p)) && q.id == p.id && q.user == p.user
  {
  }

  lemma TransportAdded(s: Server, c: ClientId, direction: Direction, id: Id)
    requires Inv(s) && c in s.clients && InRoom(s.clients[c])
    requires Present(s.cluster, s.clients[c].room.value, s.clients[c].participant.value)
    ensures var me := s.clients[c];
            var p := s.cluster.rooms[me.room.value].participants.at[me.participant.value];
            Inv(Server(s.clients[c := me.(transports := me.transports + {id})],
                       Persist(SetParticipant(s.cluster, me.room.value, me.participant.value,
                                              WithTransport(p, direction, id)), me.room.value)))
  {
    hide Inv, InStep, AllInformed, Agreed, Owns, WellKeyedParticipant, SeatOf, EntryOf, Persist, SetParticipant,
        WithTransport;
    OwnSeat(s, c);
    var me := s.clients[c];
    var p := s.cluster.rooms[me.room.value].participants.at[me.participant.value];
    TransportSeat(me, p, direction, id);
    QuietKeeps(s, c, me.(transports := me.transports + {id}), WithTransport(p, direction, id));
  }

  lemma HandleCreateTransportIs(s: Server, c: ClientId, direction: Direction, id: Id)
    requires c in s.clients && InRoom(s.clients[c])
    requires Present(s.cluster, s.clients[c].room.value, s.clients[c].participant.value)
    ensures var me := s.clients[c];
            var p := s.cluster.rooms[me.room.value].participants.at[me.participant.value];
            HandleCreateTransport(s, c, direction, Some(id)) ==
            Server(s.clients[c := me.(transports := me.transports + {id})],
                   Persist(SetParticipant(s.cluster, me.room.value, me.participant.value,
                                          WithTransport(p, direction, id)), me.room.value))
  {
  }

  lemma CreateTransportKeeps(s: Server, c: ClientId, direction: Direction, reply: Option<Id>)
    requires Inv(s) && c in s.clients
    ensures Inv(HandleCreateTransport(s, c, direction, reply))
  {
    hide Inv, Persist, SetParticipant, WithTransport;
    if InRoom(s.clients[c]) && reply.Some? &&
        Present(s.cluster, s.clients[c].room.value, s.clients[c].participant.value) {
      TransportAdded(s, c, direction, reply.value);
      HandleCreateTransportIs(s, c, direction, reply.value);
    } else {
      assert HandleCreateTransport(s, c, direction, reply) == s;
    }
  }

  lemma AfterConsume(p: Participant, k: Consumer)
    requires WellKeyedParticipant(p)
    ensures var q := p.(consumers := Set(p.consumers, k.id, k));
            WellKeyedParticipant(q) && SeatOf(q) == SeatOf(p).(consumers := SeatOf(p).consumers + {k.id})
  {
  }

  lemma ConsumerAdded(s: Server, c: ClientId, k: Consumer)
    requires Inv(s) && c in s.clients && InRoom(s.clients[c])
    requires Present(s.cluster, s.clients[c].room.value, s.clients[c].participant.value)
    ensures var me := s.clients[c];
            var p := s.cluster.rooms[me.room.value].participants.at[me.participant.value];
            Inv(Server(s.clients[c := me.(consumers := me.consumers + {k.id})],
                       Persist(SetParticipant(s.cluster, me.room.value, me.participant.value,
                                              p.(consumers := Set(p.consumers, k.id, k))), me.room.value)))
  {
    OwnSeat(s, c);
    var me := s.clients[c];
    var p := s.cluster.rooms[me.room.value].participants.at[me.participant.value];
    AfterConsume(p, k);
    QuietKeeps(s, c, me.(consumers := me.consumers + {k.id}), p.(consumers := Set(p.consumers, k.id, k)));
  }

  lemma HandleConsumeIs(s: Server, c: ClientId, producer: Id, reply: ConsumeReply)
    requires c in s.clients && InRoom(s.clients[c]) && reply.Consuming?
    requires Present(s.cluster, s.clients[c].room.value, s.clients[c].participant.value)
    ensures var me := s.clients[c];
            var p := s.cluster.rooms[me.room.value].participants.at[me.participant.value];
            var k := Consumer(reply.id, producer, reply.kind, true);
            HandleConsume(s, c, producer, reply) == s ||
            HandleConsume(s, c, producer, reply) ==
            Server(s.clients[c := me.(consumers := me.consumers + {k.id})],
                   Persist(SetParticipant(s.cluster, me.room.value, me.participant.value,
                                          p.(consumers := Set(p.consumers, k.id, k))), me.room.value))
  {
  }

  lemma ConsumeKeeps(s: Server, c: ClientId, producer: Id, reply: ConsumeReply)
    requires Inv(s) && c in s.clients
    ensures Inv(HandleConsume(s, c, producer, reply))
  {
    var me := s.clients[c];
    if InRoom(me) && reply.Consuming? && Present(s.cluster, me.room.value, me.participant.value) {
      ConsumerAdded(s, c, Consumer(reply.id, producer, reply.kind, true));
      HandleConsumeIs(s, c, producer, reply);
    } else {
      assert HandleConsume(s, c, producer, reply) == s;
    }
  }

  ghost predicate ToldRight(seats: Seats, p: Seat, e: Event) {
    forall view, self | Matches(view, seats, self) && self != p.id :: Matches(Apply(view, e), seats[p.id := p], self)
  }

  ghost predicate OwnProducers(clients: Clients, c: ClientId, producers: set<Id>) {
    forall k, x | x in clients && k in producers && k in clients[x].producers :: x == c
  }

  /** A change of one's own producers that the others are told about. */
  lemma ToldKeeps(s: Server, c: ClientId, me: Client, p: Participant, e: Event)
    requires Inv(s) && c in s.clients && InRoom(s.clients[c])
    requires me == s.clients[c].(producers := me.producers) && me.participant == Some(p.id)
    requires Present(s.cluster, me.room.value, p.id) && p.user == p.id.user && WellKeyedParticipant(p) &&
             Owns(me, SeatOf(p))
    requires OwnProducers(s.clients, c, me.producers) && ToldRight(TablesOf(s).rooms[me.room.value], SeatOf(p), e)
    ensures Inv(Server(Broadcast(s.clients[c := me], me.room.value, c, e),
                       Persist(SetParticipant(s.cluster, me.room.value, p.id, p), me.room.value)))
  {
    var r, t := me.room.value, TablesOf(s);
    OwnSeat(s, c);
    UpdateAgrees(s.cluster, r, p.id, p);
    KeyedAfterSet(s.cluster, r, p);
    ChangeIs(s, c, me, p, Some(e));
    forall x | x in t.clients && x != c && t.clients[x].room == Some(r) && t.clients[x].participant.Some?
      ensures Matches(ApplyAny(Fold(t.clients[x].inbox), Some(e)), SeatsAt(t, r)[p.id := SeatOf(p)],
                      t.clients[x].participant.value)
    {
      assert Informed(t.clients[x], t.rooms);
      assert Plays(t, x, r, p.id) && Plays(t, c, r, p.id) ==> x == c;
    }
    ChangeKeeps(t, c, r, me, SeatOf(p), Some(e));
  }

  lemma AfterProduce(p: Participant, k: Producer)
    requires WellKeyedParticipant(p)
    ensures var q := p.(producers := Set(p.producers, k.id, k));
            WellKeyedParticipant(q) && SeatOf(q) == SeatOf(p).(producers := SeatOf(p).producers[k.id := k.kind])
  {
  }

  lemma ProduceTold(seats: Seats, p: Seat, k: Id, kind: Kind)
    requires SeatsSound(seats) && p.id in seats && seats[p.id] == p
    ensures ToldRight(seats, p.(producers := p.producers[k := kind]), NewProducer(k, p.id, kind))
  {
    forall view, self | Matches(view, seats, self) && self != p.id
      ensures Matches(Apply(view, NewProducer(k, p.id, kind)), seats[p.id := p.(producers := p.producers[k := kind])],
                      self)
    {
      ProduceMatches(view, seats, p, k, kind, self);
    }
  }

  lemma NewProducerTold(s: Server, r: RoomId, p: Participant, k: Producer)
    requires InStep(TablesOf(s)) && Present(s.cluster, r, p.id) && TablesOf(s).rooms[r][p.id] == SeatOf(p) &&
             WellKeyedParticipant(p)
    ensures ToldRight(TablesOf(s).rooms[r], SeatOf(p.(producers := Set(p.producers, k.id, k))),
                      NewProducer(k.id, p.id, k.kind))
  {
    var seats := TablesOf(s).rooms[r];
    assert SeatsSound(seats);
    AfterProduce(p, k);
    ProduceTold(seats, SeatOf(p), k.id, k.kind);
  }

  lemma FreshMine(clients: Clients, c: ClientId, k: Id)
    requires ProducersDisjoint(clients) && c in clients
    requires forall x | x in clients :: k !in clients[x].producers
    ensures OwnProducers(clients, c, clients[c].producers + {k})
  {
  }

  lemma OwnsAfterProduce(me: Client, p: Participant, k: Producer)
    requires Owns(me, SeatOf(p)) && WellKeyedParticipant(p)
    ensures var q := p.(producers := Set(p.producers, k.id, k));
            WellKeyedParticipant(q) && Owns(me.(producers := me.producers + {k.id}), SeatOf(q))
  {
  }

  lemma ProduceOwned(s: Server, c: ClientId, r: RoomId, p: Participant, k: Producer)
    requires InStep(TablesOf(s)) && c in s.clients && Owns(s.clients[c], SeatOf(p)) && WellKeyedParticipant(p)
    requires Present(s.cluster, r, p.id) && TablesOf(s).rooms[r][p.id] == SeatOf(p)
    requires forall x | x in s.clients :: k.id !in s.clients[x].producers
    ensures var mine := s.clients[c].(producers := s.clients[c].producers + {k.id});
            var q := p.(producers := Set(p.producers, k.id, k));
            && WellKeyedParticipant(q) && Owns(mine, SeatOf(q)) && OwnProducers(s.clients, c, mine.producers)
            && ToldRight(TablesOf(s).rooms[r], SeatOf(q), NewProducer(k.id, p.id, k.kind))
  {
    OwnsAfterProduce(s.clients[c], p, k);
    NewProducerTold(s, r, p, k);
    FreshMine(s.clients, c, k.id);
  }

  lemma ProducerAdded(s: Server, c: ClientId, k: Producer)
    requires Inv(s) && c in s.clients && InRoom(s.clients[c])
    requires Present(s.cluster, s.clients[c].room.value, s.clients[c].participant.value)
    requires forall x | x in s.clients :: k.id !in s.clients[x].producers
    ensures var me := s.clients[c];
            var p := s.cluster.rooms[me.room.value].participants.at[me.participant.value];
            Inv(Server(Broadcast(s.clients[c := me.(producers := me.producers + {k.id})], me.room.value, c,
                                 NewProducer(k.id, me.participant.value, k.kind)),
                       Persist(SetParticipant(s.cluster, me.room.value, me.participant.value,
                                              p.(producers := Set(p.producers, k.id, k))), me.room.value)))
  {
    OwnSeat(s, c);
    var me := s.clients[c];
    var r, pid := me.room.value, me.participant.value;
    var p := s.cluster.rooms[r].participants.at[pid];
    var mine, q := me.(producers := me.producers + {k.id}), p.(producers := Set(p.producers, k.id, k));
    ProduceOwned(s, c, r, p, k);
    ToldKeeps(s, c, mine, q, NewProducer(k.id, pid, k.kind));
  }

  lemma HandleProduceIs(s: Server, c: ClientId, k: Producer)
    requires c in s.clients && InRoom(s.clients[c]) && !k.paused
    requires Present(s.cluster, s.clients[c].room.value, s.clients[c].participant.value)
    ensures var me := s.clients[c];
            var p := s.cluster.rooms[me.room.value].participants.at[me.participant.value];
            HandleProduce(s, c, k.kind, k.source, Some(k.id)) ==
            Server(Broadcast(s.clients[c := me.(producers := me.producers + {k.id})], me.room.value, c,
                             NewProducer(k.id, me.participant.value, k.kind)),
                   Persist(SetParticipant(s.cluster, me.room.value, me.participant.value,
                                          p.(producers := Set(p.producers, k.id, k))), me.room.value))
  {
  }

  lemma ProduceKeeps(s: Server, c: ClientId, kind: Kind, source: string, reply: Option<Id>)
    requires Inv(s) && c in s.clients
    requires reply.Some? ==> forall x | x in s.clients :: reply.value !in s.clients[x].producers
    ensures Inv(HandleProduce(s, c, kind, source, reply))
  {
    var me := s.clients[c];
    if InRoom(me) && reply.Some? && Present(s.cluster, me.room.value, me.participant.value) {
      var k := Producer(reply.value, kind, source, false);
      ProducerAdded(s, c, k);
      HandleProduceIs(s, c, k);
    } else {
      assert HandleProduce(s, c, kind, source, reply) == s;
    }
  }

  /** Deleting producers that only one participant has is an update of that participant. */
  lemma StripIsSet(m: JsMap<ParticipantId, Participant>, pid: ParticipantId, gone: set<Id>)
    requires pid in m.at
    requires forall q, k | q in m.at && q != pid && k in gone :: k !in m.at[q].producers.at
    ensures StripProducers(m, gone) == Set(m, pid, m.at[pid].(producers := Without(m.at[pid].producers, gone)))
  {
    hide StripProducers, Without;
    forall q | q in m.at && q != pid
      ensures Without(m.at[q].producers, gone) == m.at[q].producers
    {
      WithoutAbsent(m.at[q].producers, gone);
    }
    var out := Set(m, pid, m.at[pid].(producers := Without(m.at[pid].producers, gone)));
    assert IsStripped(m, gone, out);
    StripIsStripped(m, gone);
    StrippedOnce(m, StripProducers(m, gone), out, gone);
  }

  lemma CloseIsSet(s: Server, c: ClientId, producer: Id)
    requires Inv(s) && c in s.clients && InRoom(s.clients[c]) && producer in s.clients[c].producers
    requires Present(s.cluster, s.clients[c].room.value, s.clients[c].participant.value)
    requires Plays(TablesOf(s), c, s.clients[c].room.value, s.clients[c].participant.value)
    ensures var r, pid := s.clients[c].room.value, s.clients[c].participant.value;
            var p := s.cluster.rooms[r].participants.at[pid];
            StripRoom(s.cluster, r, {producer}) ==
                SetParticipant(s.cluster, r, pid, p.(producers := Without(p.producers, {producer})))
  {
    var r, pid := s.clients[c].room.value, s.clients[c].participant.value;
    var m := s.cluster.rooms[r].participants;
    forall q | q in m.at && q != pid
      ensures producer !in m.at[q].producers.at
    {
      ElsewhereAbsent(TablesOf(s), c, r, pid, q, producer);
      assert producer !in SeatOf(m.at[q]).producers;
    }
    StripIsSet(m, pid, {producer});
  }

  lemma CloseProducerKeeps(s: Server, c: ClientId, producer: Id, ok: bool)
    requires Inv(s) && c in s.clients
    ensures Inv(HandleCloseProducer(s, c, producer, ok))
  {
    var me := s.clients[c];
    assert ClientInStep(me, TablesOf(s).rooms);
    if InRoom(me) && producer in me.producers && ok {
      OwnSeat(s, c);
      var r, pid := me.room.value, me.participant.value;
      var p := s.cluster.rooms[r].participants.at[pid];
      var q := p.(producers := Without(p.producers, {producer}));
      SeatAfterStrip(p, {producer});
      CloseIsSet(s, c, producer);
      CloseTold(s, c, producer);
      ToldKeeps(s, c, me.(producers := me.producers - {producer}), q, ProducerClosed(producer));
    }
  }

  lemma CloseTold(s: Server, c: ClientId, producer: Id)
    requires Inv(s) && c in s.clients && InRoom(s.clients[c]) && producer in s.clients[c].producers
    requires Seated(TablesOf(s), s.clients[c].room.value, s.clients[c].participant.value)
    ensures var pid, seats := s.clients[c].participant.value, TablesOf(s).rooms[s.clients[c].room.value];
            ToldRight(seats, seats[pid].(producers := seats[pid].producers - {producer}), ProducerClosed(producer))
  {
    var r, pid := s.clients[c].room.value, s.clients[c].participant.value;
    var seats := TablesOf(s).rooms[r];
    assert SeatsSound(seats) && seats[pid].id == pid;
    forall q | q in seats && q != pid
      ensures producer !in seats[q].producers
    {
      ElsewhereAbsent(TablesOf(s), c, r, pid, q, producer);
    }
    forall view, self | Matches(view, seats, self) && self != pid
      ensures Matches(Apply(view, ProducerClosed(producer)),
                      seats[pid := seats[pid].(producers := seats[pid].producers - {producer})], self)
    {
      CloseMatches(view, seats, seats[pid], producer, self);
    }
  }

  // ---- runs -----------------------------------------------------------------------------------------

  /** What every run satisfies: handlers are called for connected clients, and the SFU does not reuse router ids. */
  ghost predicate Possible(s: Server, step: Step) {
    && Known(s, step)
    && (step.Joining? || step.Allocating? ==> HonestReply(s.cluster, step.r, step.reply))
  }

  /** The step asks an SFU node to create a router for room `q`. */
  predicate Asks(s: Server, step: Step, q: RoomId)
    requires Known(s, step)
  {
    && (step.Allocating? || (step.Joining? && s.clients[step.c].user.Some?))
    && step.r == q && q !in s.cluster.rooms && q !in s.cluster.records && BestNode(s.cluster.nodes).Some?
  }

  /** What the client tables additionally rely on. */
  ghost predicate Disciplined(s: Server, step: Step) {
    && Possible(s, step)
    && NewIds(s, step) && Clean(s, step)
  }

  /**
   * No client or participant loses its counterpart: no resident room is dropped, and who joins leaves nothing behind.
   */
  predicate Clean(s: Server, step: Step)
    requires Known(s, step)
  {
    match step
    case Joining(c, r, _, _, _, now, reply) => FreeToJoin(s, c, r) || r !in OpenRoom(s.cluster, r, now, reply).rooms
    case ClosingRoom(r, _) => r !in s.cluster.rooms
    case _ => true
  }

  /** Join times and the SFU make ids that are new. */
  ghost predicate NewIds(s: Server, step: Step)
    requires Known(s, step)
  {
    && (step.Joining? ==> FreshStamp(s, step.c, step.now))
    && (step.Producing? && step.producer.Some? ==> forall x | x in s.clients ::
         step.producer.value !in s.clients[x].producers)
  }

  ghost predicate AllPossible(s: Server, steps: seq<Step>)
    decreases |steps|
  {
    steps == [] || (Possible(s, steps[0]) && AllPossible(Next(s, steps[0]), steps[1..]))
  }

  ghost predicate AllDisciplined(s: Server, steps: seq<Step>)
    decreases |steps|
  {
    steps == [] || (Disciplined(s, steps[0]) && AllDisciplined(Next(s, steps[0]), steps[1..]))
  }

  ghost function After(s: Server, steps: seq<Step>): Server
    requires AllPossible(s, steps)
    decreases |steps|
  {
    if steps == [] then s else After(Next(s, steps[0]), steps[1..])
  }

  lemma {:induction false} DisciplinedIsPossible(s: Server, steps: seq<Step>)
    requires AllDisciplined(s, steps)
    ensures AllPossible(s, steps)
    decreases |steps|
  {
    if steps != [] {
      DisciplinedIsPossible(Next(s, steps[0]), steps[1..]);
    }
  }

  lemma CreateTransportAgrees(s: Server, c: ClientId, direction: Direction, reply: Option<Id>)
    requires Agreed(s.cluster) && c in s.clients
    ensures Agreed(HandleCreateTransport(s, c, direction, reply).cluster)
  {
    hide Agreed, Persist, SetParticipant, WithTransport;
    var me := s.clients[c];
    if InRoom(me) && Present(s.cluster, me.room.value, me.participant.value) && reply.Some? {
      var p := s.cluster.rooms[me.room.value].participants.at[me.participant.value];
      HandleCreateTransportIs(s, c, direction, reply.value);
      UpdateAgrees(s.cluster, me.room.value, me.participant.value, WithTransport(p, direction, reply.value));
    } else {
      assert HandleCreateTransport(s, c, direction, reply) == s;
    }
  }

  lemma CloseProducerAgrees(s: Server, c: ClientId, producer: Id, ok: bool)
    requires Agreed(s.cluster) && c in s.clients
    ensures Agreed(HandleCloseProducer(s, c, producer, ok).cluster)
  {
    hide Agreed, AgreedBut, StripRoom, Persist;
    var me := s.clients[c];
    if me.room.Some? && me.room.value in s.cluster.rooms {
      StripAgrees(s.cluster, me.room.value, {producer});
      PersistAgrees(StripRoom(s.cluster, me.room.value, {producer}), me.room.value);
    }
  }

  lemma ProduceAgrees(s: Server, c: ClientId, kind: Kind, source: string, reply: Option<Id>)
    requires Agreed(s.cluster) && c in s.clients
    ensures Agreed(HandleProduce(s, c, kind, source, reply).cluster)
  {
    var me := s.clients[c];
    if InRoom(me) && reply.Some? && Present(s.cluster, me.room.value, me.participant.value) {
      var k := Producer(reply.value, kind, source, false);
      var p := s.cluster.rooms[me.room.value].participants.at[me.participant.value];
      HandleProduceIs(s, c, k);
      UpdateAgrees(s.cluster, me.room.value, me.participant.value, p.(producers := Set(p.producers, k.id, k)));
    } else {
      assert HandleProduce(s, c, kind, source, reply) == s;
    }
  }

  lemma ConsumeAgrees(s: Server, c: ClientId, producer: Id, reply: ConsumeReply)
    requires Agreed(s.cluster) && c in s.clients
    ensures Agreed(HandleConsume(s, c, producer, reply).cluster)
  {
    var me := s.clients[c];
    if InRoom(me) && reply.Consuming? && Present(s.cluster, me.room.value, me.participant.value) {
      var k := Consumer(reply.id, producer, reply.kind, true);
      var p := s.cluster.rooms[me.room.value].participants.at[me.participant.value];
      HandleConsumeIs(s, c, producer, reply);
      UpdateAgrees(s.cluster, me.room.value, me.participant.value, p.(consumers := Set(p.consumers, k.id, k)));
    } else {
      assert HandleConsume(s, c, producer, reply) == s;
    }
  }

  /** Every handler and every control-plane call keeps the four tables in agreement. */
  lemma StepAgrees(s: Server, step: Step)
    requires Agreed(s.cluster) && Possible(s, step)
    ensures Agreed(Next(s, step).cluster)
  {
    match step
    case Connecting(c) =>
    case Authenticating(c, user) =>
    case Joining(c, r, role, name, caps, now, reply) => HandleJoinAgrees(s, c, r, role, name, caps, now, reply);
    case Leaving(c, failing, closed) => HandleLeaveAgrees(s, c, failing, closed);
    case Disconnecting(c, failing, closed) => HandleLeaveAgrees(s, c, failing, closed);
    case CreatingTransport(c, direction, reply) => CreateTransportAgrees(s, c, direction, reply);
    case Producing(c, kind, source, reply) => ProduceAgrees(s, c, kind, source, reply);
    case ConsumingFrom(c, producer, reply) => ConsumeAgrees(s, c, producer, reply);
    case ClosingProducer(c, producer, ok) => CloseProducerAgrees(s, c, producer, ok);
    case Allocating(r, reply) => AllocateAgrees(s.cluster, r, reply);
    case ClosingRoom(r, closed) => DestroyAgrees(s.cluster, r, closed);
    case Expiring(r) =>
    case CheckingHealth(nodes) =>
  }

  lemma StepKeeps(s: Server, step: Step)
    requires Inv(s) && Disciplined(s, step)
    ensures Inv(Next(s, step))
  {
    match step
    case Connecting(c) => SameSeatKeeps(TablesOf(s), c, NEW_CLIENT);
    case Authenticating(c, user) => SameSeatKeeps(TablesOf(s), c, s.clients[c].(user := Some(user)));
    case Joining(c, r, role, name, caps, now, reply) => JoinKeeps(s, c, r, role, name, caps, now, reply);
    case Leaving(c, failing, closed) => LeaveKeeps(s, c, failing, closed);
    case Disconnecting(c, failing, closed) => DisconnectKeeps(s, c, failing, closed);
    case CreatingTransport(c, direction, reply) => CreateTransportKeeps(s, c, direction, reply);
    case Producing(c, kind, source, reply) => ProduceKeeps(s, c, kind, source, reply);
    case ConsumingFrom(c, producer, reply) => ConsumeKeeps(s, c, producer, reply);
    case ClosingProducer(c, producer, ok) => CloseProducerKeeps(s, c, producer, ok);
    case Allocating(r, reply) => AllocateKeeps(s, r, reply);
    case ClosingRoom(r, closed) => CloseRoomKeeps(s, r, closed);
    case Expiring(r) =>
    case CheckingHealth(nodes) =>
  }

  lemma CloseRoomKeeps(s: Server, r: RoomId, closed: bool)
    requires Inv(s) && r !in s.cluster.rooms
    ensures Inv(s.(cluster := DestroyRoom(s.cluster, r, closed)))
  {
    hide Agreed, Keyed, InStep, AllInformed;
    DestroyAgrees(s.cluster, r, closed);
    assert DestroyRoom(s.cluster, r, closed).rooms == s.cluster.rooms;
  }

  lemma CloseRoomBreaks(s: Server, r: RoomId, closed: bool)
    requires Inv(s) && r in s.cluster.rooms
    ensures !InStep(TablesOf(s.(cluster := DestroyRoom(s.cluster, r, closed))))
  {
    hide Agreed, Keyed, InStep, AllInformed;
    assert DestroyRoom(s.cluster, r, closed).rooms == s.cluster.rooms - {r};
    RemovedRoom(s.cluster.rooms, r);
    DropBreaks(TablesOf(s), r);
  }

  /** Among the steps with new ids, the clean ones are exactly those that keep everything in step. */
  lemma StepExactly(s: Server, step: Step)
    requires Inv(s) && Possible(s, step) && NewIds(s, step)
    ensures Inv(Next(s, step)) <==> Clean(s, step)
  {
    if Clean(s, step) {
      StepKeeps(s, step);
    } else {
      match step
      case Joining(c, r, role, name, caps, now, reply) => JoinBreaks(s, c, r, role, name, caps, now, reply);
      case ClosingRoom(r, closed) => CloseRoomBreaks(s, r, closed);
    }
  }

  lemma AllocateKeeps(s: Server, r: RoomId, reply: CreateReply)
    requires Inv(s) && HonestReply(s.cluster, r, reply)
    ensures Inv(s.(cluster := AllocateRoom(s.cluster, r, reply).0))
  {
    AllocateAgrees(s.cluster, r, reply);
    AllocationRecorded(s.cluster, r, reply);
  }

  /** Over every run, Redis, the rooms in memory and the routers on the SFU nodes agree. */
  lemma {:induction false} AgreementOverRuns(s: Server, steps: seq<Step>)
    requires Agreed(s.cluster) && AllPossible(s, steps)
    ensures Agreed(After(s, steps).cluster)
    decreases |steps|
  {
    if steps != [] {
      StepAgrees(s, steps[0]);
      AgreementOverRuns(Next(s, steps[0]), steps[1..]);
    }
  }

  /** Over every disciplined run, the tables are in step and every member's messages describe its room. */
  lemma {:induction false} InvOverRuns(s: Server, steps: seq<Step>)
    requires Inv(s) && AllDisciplined(s, steps)
    ensures AllPossible(s, steps) && Inv(After(s, steps))
    decreases |steps|
  {
    DisciplinedIsPossible(s, steps);
    if steps != [] {
      StepKeeps(s, steps[0]);
      InvOverRuns(Next(s, steps[0]), steps[1..]);
    }
  }

  lemma InitialInv(nodes: seq<SfuNode>)
    ensures Inv(Initial(nodes))
  {
  }

  // ---- what it comes to ------------------------------------------------------------------------------

  /**
   * Over every run from an empty service: a resident room's router record names its origin, router and capabilities,
   * that node runs that router for that room and no other room shares it; Redis has exact copies of resident rooms
   * only.
   */
  lemma AgreementFromStart(nodes: seq<SfuNode>, steps: seq<Step>)
    requires AllPossible(Initial(nodes), steps)
    ensures var w := After(Initial(nodes), steps).cluster;
            && (forall r | r in w.rooms ::
                  && r in w.records && w.records[r].origin == Some(w.rooms[r].origin)
                  && w.records[r].routerId == w.rooms[r].routerId && w.records[r].caps == w.rooms[r].caps
                  && Router(w.rooms[r].origin, w.rooms[r].routerId) in w.routers
                  && w.routers[Router(w.rooms[r].origin, w.rooms[r].routerId)] == r)
            && (forall r, s | r in w.rooms && s in w.rooms && r != s ::
                  w.rooms[r].origin != w.rooms[s].origin || w.rooms[r].routerId != w.rooms[s].routerId)
            && (forall r | r in w.snapshots :: r in w.rooms && w.snapshots[r] == SnapshotOf(w.rooms[r]))
            && (forall r | r in w.snapshots :: w.records[r].routerId == w.snapshots[r].routerId)
  {
    InitialInv(nodes);
    AgreementOverRuns(Initial(nodes), steps);
    var w := After(Initial(nodes), steps).cluster;
    forall r, s | r in w.rooms && s in w.rooms && r != s
      ensures w.rooms[r].origin != w.rooms[s].origin || w.rooms[r].routerId != w.rooms[s].routerId
    {
      if w.rooms[r].origin == w.rooms[s].origin && w.rooms[r].routerId == w.rooms[s].routerId {
        RoutersDistinct(w, r, s);
      }
    }
    forall r | r in w.snapshots
      ensures w.records[r].routerId == w.snapshots[r].routerId
    {
      SnapshotNamesRouter(w, r);
    }
  }

  /** Messages determine membership: the folded messages of a client in a room are the room, without the client. */
  lemma MembershipOverRuns(nodes: seq<SfuNode>, steps: seq<Step>, c: ClientId)
    requires AllDisciplined(Initial(nodes), steps)
    requires AllPossible(Initial(nodes), steps) && c in After(Initial(nodes), steps).clients
    requires InRoom(After(Initial(nodes), steps).clients[c])
    ensures var s := After(Initial(nodes), steps);
            var me := s.clients[c];
            Present(s.cluster, me.room.value, me.participant.value)
            && var at, view := s.cluster.rooms[me.room.value].participants.at, Fold(me.inbox);
               && (forall pid | pid in at && pid != me.participant.value ::
                     pid.user in view && view[pid.user] ==
                         Entry(pid, at[pid].name, at[pid].role, Kinds(at[pid].producers.at)))
               && (forall u | u in view ::
                     view[u].id in at && view[u].id != me.participant.value && at[view[u].id].user == u)
  {
    InitialInv(nodes);
    InvOverRuns(Initial(nodes), steps);
    var s := After(Initial(nodes), steps);
    OwnSeat(s, c);
    var me := s.clients[c];
    var at := s.cluster.rooms[me.room.value].participants.at;
    assert Informed(me, TablesOf(s).rooms);
    RoomSeating(s, me.room.value);
    assert forall pid | pid in at :: TablesOf(s).rooms[me.room.value][pid] == SeatOf(at[pid]);
  }

  /** In step means: each participant is played by exactly one connected client, who owns what the record lists. */
  lemma {:induction false} PlayedOnce(s: Server, r: RoomId, pid: ParticipantId) returns (c: ClientId)
    requires Inv(s) && Present(s.cluster, r, pid)
    ensures c in s.clients && s.clients[c].room == Some(r) && s.clients[c].participant == Some(pid)
    ensures forall d | d in s.clients && s.clients[d].participant == Some(pid) :: d == c
  {
    var t := TablesOf(s);
    assert r in t.rooms && pid in t.rooms[r];
    c :| Plays(t, c, r, pid);
    forall d | d in s.clients && s.clients[d].participant == Some(pid)
      ensures d == c
    {
      assert ClientInStep(s.clients[d], t.rooms);
      assert Plays(t, d, s.clients[d].room.value, pid) && Plays(t, c, r, pid);
    }
  }

  /** The client's id sets are the keys of its participant's maps, and its transports include the participant's two. */
  ghost predicate OwnsWhatIsListed(s: Server, c: ClientId)
    requires c in s.clients
  {
    var me := s.clients[c];
    && InRoom(me) && Present(s.cluster, me.room.value, me.participant.value)
    && var p := s.cluster.rooms[me.room.value].participants.at[me.participant.value];
       && me.producers == p.producers.at.Keys && me.consumers == p.consumers.at.Keys
       && (p.send.Some? ==> p.send.value in me.transports)
       && (p.recv.Some? ==> p.recv.value in me.transports)
  }

  lemma OwnsListed(s: Server, c: ClientId)
    requires Inv(s) && c in s.clients && InRoom(s.clients[c])
    ensures OwnsWhatIsListed(s, c)
  {
    OwnSeat(s, c);
    var me := s.clients[c];
    SeatKeys(s.cluster.rooms[me.room.value].participants.at[me.participant.value]);
  }

  lemma SeatKeys(p: Participant)
    ensures SeatOf(p).producers.Keys == p.producers.at.Keys && SeatOf(p).consumers == p.consumers.at.Keys
  {
  }

  /** Over every disciplined run: the room tables list exactly what connected clients own, and no room is empty. */
  lemma TablesInStepOverRuns(nodes: seq<SfuNode>, steps: seq<Step>)
    requires AllDisciplined(Initial(nodes), steps)
    ensures AllPossible(Initial(nodes), steps)
    ensures var s := After(Initial(nodes), steps);
            && (forall r, pid | Present(s.cluster, r, pid) ::
                  exists c :: c in s.clients && s.clients[c].room == Some(r) && s.clients[c].participant == Some(pid))
            && (forall c, d | c in s.clients && d in s.clients && s.clients[c].participant.Some? &&
                s.clients[c].participant == s.clients[d].participant :: c == d)
            && (forall c | c in s.clients :: if s.clients[c].room.None? then s.clients[c] == Cleared(s.clients[c])
                 else OwnsWhatIsListed(s, c))
            && (forall r | r in s.cluster.rooms :: s.cluster.rooms[r].participants.at != map[])
  {
    InitialInv(nodes);
    InvOverRuns(Initial(nodes), steps);
    InvInStep(After(Initial(nodes), steps));
  }

  lemma InvInStep(s: Server)
    requires Inv(s)
    ensures forall r, pid | Present(s.cluster, r, pid) ::
              exists c :: c in s.clients && s.clients[c].room == Some(r) && s.clients[c].participant == Some(pid)
    ensures forall c, d | c in s.clients && d in s.clients && s.clients[c].participant.Some? &&
            s.clients[c].participant == s.clients[d].participant :: c == d
    ensures forall c | c in s.clients :: if s.clients[c].room.None? then s.clients[c] == Cleared(s.clients[c])
              else OwnsWhatIsListed(s, c)
    ensures forall r | r in s.cluster.rooms :: s.cluster.rooms[r].participants.at != map[]
  {
    var t := TablesOf(s);
    forall r, pid | Present(s.cluster, r, pid)
      ensures exists c :: c in s.clients && s.clients[c].room == Some(r) && s.clients[c].participant == Some(pid)
    {
      var c := PlayedOnce(s, r, pid);
    }
    forall c, d | c in s.clients && d in s.clients && s.clients[c].participant.Some? &&
        s.clients[c].participant == s.clients[d].participant
      ensures c == d
    {
      assert ClientInStep(s.clients[c], t.rooms);
      var pid := s.clients[c].participant.value;
      assert Present(s.cluster, s.clients[c].room.value, pid);
      var x := PlayedOnce(s, s.clients[c].room.value, pid);
    }
    forall c | c in s.clients
      ensures if s.clients[c].room.None? then s.clients[c] == Cleared(s.clients[c]) else OwnsWhatIsListed(s, c)
    {
      assert ClientInStep(s.clients[c], t.rooms);
      if s.clients[c].room.Some? {
        OwnsListed(s, c);
      }
    }
    forall r | r in s.cluster.rooms
      ensures s.cluster.rooms[r].participants.at != map[]
    {
      assert r in t.rooms;
      EmptySeats(s.cluster.rooms[r].participants.at);
    }
  }

  // ---- the empty room id ------------------------------------------------------------------------------

  /** A join under the empty id finds no room and gets none, so nothing changes. */
  lemma EmptyIdJoinsNothing(s: Server, c: ClientId, role: string, name: string, caps: Option<Caps>, now: nat,
                            reply: CreateReply)
    requires Agreed(s.cluster) && HonestReply(s.cluster, "", reply) && c in s.clients
    ensures HandleJoin(s, c, "", role, name, caps, now, reply) == s
  {
  }

  /** Room and participant are set and cleared together, and never to the empty id. */
  ghost predicate Placed(c: Client) {
    (c.room.Some? <==> c.participant.Some?) && c.room != Some("")
  }

  ghost predicate AllPlaced(clients: Clients) {
    forall c | c in clients :: Placed(clients[c])
  }

  lemma JoinPlaces(s: Server, c: ClientId, r: RoomId, role: string, name: string, caps: Option<Caps>, now: nat,
                   reply: CreateReply)
    requires Agreed(s.cluster) && HonestReply(s.cluster, r, reply) && AllPlaced(s.clients) && c in s.clients
    ensures AllPlaced(HandleJoin(s, c, r, role, name, caps, now, reply).clients)
  {
    hide JoinRoom, Others, Agreed, HonestReply, FindByUser, Broadcast, Evict, RemoveEntry;
    if r == "" {
      EmptyIdJoinsNothing(s, c, role, name, caps, now, reply);
    } else if s.clients[c].user.Some? {
      var user := s.clients[c].user.value;
      var previous := FindByUser(s.cluster, r, user);
      DropPlaces(s, c, r, previous);
      FinishPlaces(DropOldEntry(s, c, r, previous), c, r, user, role, name, caps, now, reply, previous.Some?);
    }
  }

  lemma DropPlaces(s: Server, c: ClientId, r: RoomId, previous: Option<ParticipantId>)
    requires AllPlaced(s.clients) && c in s.clients
    ensures var d := DropOldEntry(s, c, r, previous); AllPlaced(d.clients) && c in d.clients
  {
  }

  lemma FinishPlaces(s: Server, c: ClientId, r: RoomId, user: UserId, role: string, name: string, caps: Option<Caps>,
                     now: nat, reply: CreateReply, isReconnect: bool)
    requires AllPlaced(s.clients) && c in s.clients && r != ""
    ensures AllPlaced(FinishJoin(s, c, r, user, role, name, caps, now, reply, isReconnect).clients)
  {
    hide JoinRoom, Others;
  }

  lemma StepPlaces(s: Server, step: Step)
    requires Agreed(s.cluster) && AllPlaced(s.clients) && Possible(s, step)
    ensures AllPlaced(Next(s, step).clients)
  {
    hide HandleJoin, Agreed, HonestReply, LeaveRoom, StripRoom, Rooms.CreateTransport, Rooms.Produce,
        Rooms.CloseProducer, HasProducer;
    if step.Joining? {
      JoinPlaces(s, step.c, step.r, step.role, step.name, step.caps, step.now, step.reply);
    }
  }

  lemma {:induction false} PlacedOverRuns(s: Server, steps: seq<Step>)
    requires Agreed(s.cluster) && AllPlaced(s.clients) && AllPossible(s, steps)
    ensures AllPlaced(After(s, steps).clients)
    decreases |steps|
  {
    if steps != [] {
      StepAgrees(s, steps[0]);
      StepPlaces(s, steps[0]);
      PlacedOverRuns(Next(s, steps[0]), steps[1..]);
    }
  }

  /** The handlers test a client's room id for truth. Over every run from the start, that is being in a room. */
  lemma GuardsMeanMembership(nodes: seq<SfuNode>, steps: seq<Step>)
    requires AllPossible(Initial(nodes), steps)
    ensures var s := After(Initial(nodes), steps);
            && (forall c | c in s.clients :: InRoom(s.clients[c]) <==> s.clients[c].room.Some?)
            && "" !in s.cluster.rooms && "" !in s.cluster.records && "" !in s.cluster.snapshots
  {
    InitialInv(nodes);
    AgreementOverRuns(Initial(nodes), steps);
    PlacedOverRuns(Initial(nodes), steps);
  }
}

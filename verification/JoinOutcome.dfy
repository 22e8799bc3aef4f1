/** When a join lets its client in, and what it leaves behind in every table. */
module JoinOutcome {
  import opened Options
  import opened JsMaps
  import opened RoomTypes
  import opened Rooms
  import opened Placement
  import opened Agreement
  import opened Membership
  import opened Tables
  import opened Signaling
  import opened SeatTables
  import opened SignalingRuns

  // ---- who gets in --------------------------------------------------------------------------------------------

  /** Redis has the room's router record, with the origin of its node. */
  predicate HasRecord(w: Cluster, r: RoomId) {
    r in w.records && w.records[r].origin.Some?
  }

  /** Redis has no record of the room, some node is healthy, and the node that is asked answers with a router. */
  ghost predicate GetsRouter(w: Cluster, r: RoomId, reply: CreateReply) {
    r !in w.records && (exists k :: 0 <= k < |w.nodes| && w.nodes[k].healthy) && reply.Created?
  }

  lemma NothingRestored(w: Cluster, r: RoomId, now: nat)
    requires r !in w.rooms && r !in w.snapshots && !HasRecord(w, r)
    ensures RestoreRoom(w, r, now) == w
  {
  }

  lemma RecordRestored(w: Cluster, r: RoomId, now: nat)
    requires r !in w.rooms && r !in w.snapshots && HasRecord(w, r)
    requires w.records[r].origin.value != "" && w.records[r].routerId != ""
    ensures var rec := w.records[r];
            RestoreRoom(w, r, now) ==
            w.(rooms := w.rooms[r := Room(r, HostOf(rec.origin.value), rec.origin.value, rec.routerId, rec.caps,
                                          Empty(),
                                          now)])
  {
    hide HostOf;
  }

  /** The node that gets a new room: the first of the healthy ones with the least load. */
  ghost predicate Hosts(w: Cluster, k: nat, room: Room) {
    && k < |w.nodes| && FirstHealthyLeast(w.nodes, k)
    && room.sfuNode == w.nodes[k].address && room.origin == "http://" + w.nodes[k].address
  }

  lemma RouterAllocated(w: Cluster, r: RoomId, reply: CreateReply)
    requires r !in w.records
    ensures var (w', a) := AllocateRoom(w, r, reply);
            && (a.Some? <==> GetsRouter(w, r, reply))
            && (a.Some? ==>
                  && a.value.routerId == reply.id && a.value.caps == reply.caps
                  && exists k: nat ::
                       && k < |w.nodes| && FirstHealthyLeast(w.nodes, k)
                       && a.value.node == w.nodes[k].address && a.value.origin == "http://" + w.nodes[k].address
                       && w'.records == w.records[r :=
                            RouterRecord(w.nodes[k].id, reply.id, Some(a.value.origin), reply.caps)])
  {
    hide BestNode, FirstHealthyLeast;
    BestNodeIsBest(w.nodes);
    if BestNode(w.nodes).Some? {
      HealthySome(w.nodes);
    }
  }

  lemma HealthySome(nodes: seq<SfuNode>)
    requires exists i :: 0 <= i < |nodes| && FirstHealthyLeast(nodes, i)
    ensures exists k :: 0 <= k < |nodes| && nodes[k].healthy
  {
  }

  lemma Incomplete(w: Cluster, r: RoomId, reply: CreateReply)
    requires r in w.records && !HasRecord(w, r)
    ensures AllocateRoom(w, r, reply) == (w, None)
  {
  }

  /** What the control plane gets: the allocation that the complete record stands for, and nothing changes. */
  lemma RecordReused(w: Cluster, r: RoomId, reply: CreateReply)
    requires HasRecord(w, r)
    ensures var rec := w.records[r];
            AllocateRoom(w, r, reply) ==
            (w, Some(Allocation(HostOf(rec.origin.value), rec.origin.value, rec.routerId, rec.caps)))
  {
    hide HostOf;
  }

  /**
   * A new router at node `k`, in the node's table and in the record that says so: complete only if its reply arrived.
   */
  ghost predicate Recorded(w: Cluster, w': Cluster, r: RoomId, k: nat, reply: CreateReply) {
    && !reply.Refused? && k < |w.nodes| && FirstHealthyLeast(w.nodes, k)
    && var router := Router("http://" + w.nodes[k].address, reply.id);
       if reply.Lost? && router in w.routers then w' == w
       else
         && w' == w.(routers := w.routers[router := r], records := w'.records)
         && w'.records == w.records[r := if reply.Lost? then RouterRecord(w.nodes[k].id, reply.id, None, "{}")
                                         else RouterRecord(w.nodes[k].id, reply.id, Some(router.origin), reply.caps)]
  }

  /** Without a record, the least busy healthy node is asked, and the tables follow its answer. */
  lemma AllocationFollows(w: Cluster, r: RoomId, reply: CreateReply)
    requires r !in w.records
    ensures var w' := AllocateRoom(w, r, reply).0;
            if reply.Refused? || forall k :: 0 <= k < |w.nodes| ==> !w.nodes[k].healthy then w' == w
            else exists k: nat :: Recorded(w, w', r, k, reply)
  {
    hide BestNode, FirstHealthyLeast;
    BestNodeIsBest(w.nodes);
    if BestNode(w.nodes).Some? {
      HealthySome(w.nodes);
      var k :| 0 <= k < |w.nodes| && w.nodes[k] == BestNode(w.nodes).value && FirstHealthyLeast(w.nodes, k);
      assert !reply.Refused? ==> Recorded(w, AllocateRoom(w, r, reply).0, r, k, reply);
    }
  }

  lemma AgreedRecord(w: Cluster, r: RoomId)
    requires Agreed(w)
    ensures HasRecord(w, r) ==> w.records[r].origin.value != "" && w.records[r].routerId != ""
    ensures r !in w.rooms ==> r !in w.snapshots
    ensures r in w.rooms ==> HasRecord(w, r)
  {
  }

  /** A new room, from the record in Redis or from the node's answer. */
  ghost predicate Opened(w: Cluster, r: RoomId, now: nat, reply: CreateReply, room: Room) {
    && room.id == r && room.participants == Empty() && room.createdAt == now
    && if HasRecord(w, r) then
         && Some(room.origin) == w.records[r].origin && room.sfuNode == HostOf(room.origin)
         && room.routerId == w.records[r].routerId && room.caps == w.records[r].caps
       else
         && reply.Created? && room.routerId == reply.id && room.caps == reply.caps
         && exists k: nat :: Hosts(w, k, room)
  }

  lemma AllocatedOpens(w: Cluster, r: RoomId, now: nat, reply: CreateReply)
    requires r !in w.rooms && RestoreRoom(w, r, now) == w
    ensures var (w1, a) := AllocateRoom(w, r, reply);
            OpenRoom(w, r, now, reply) ==
            if a.None? then w1
            else w1.(rooms := w1.rooms[r := Room(r, a.value.node, a.value.origin, a.value.routerId, a.value.caps,
                                                 Empty(),
                                                 now)])
  {
    hide AllocateRoom, RestoreRoom;
  }

  lemma OpensExactly(w: Cluster, r: RoomId, now: nat, reply: CreateReply)
    requires Agreed(w) && r !in w.rooms
    ensures var w' := OpenRoom(w, r, now, reply);
            && (r in w'.rooms <==> HasRecord(w, r) || GetsRouter(w, r, reply))
            && (r in w'.rooms ==> Opened(w, r, now, reply, w'.rooms[r]))
  {
    hide HostOf, AllocateRoom, RestoreRoom, Agreed, FirstHealthyLeast;
    AgreedRecord(w, r);
    if HasRecord(w, r) {
      RecordRestored(w, r, now);
    } else {
      NothingRestored(w, r, now);
      if r in w.records {
        Incomplete(w, r, reply);
      } else {
        RouterAllocated(w, r, reply);
        AllocationRecorded(w, r, reply);
        AllocatedOpens(w, r, now, reply);
        var (w1, a) := AllocateRoom(w, r, reply);
        assert w1.rooms == w.rooms;
        assert a.Some? <==> r in OpenRoom(w, r, now, reply).rooms;
        if a.Some? {
          var k: nat :| k < |w.nodes| && FirstHealthyLeast(w.nodes, k) && a.value.node == w.nodes[k].address &&
              a.value.origin == "http://" + w.nodes[k].address;
          assert Hosts(w, k, OpenRoom(w, r, now, reply).rooms[r]);
        }
      }
    }
  }

  /**
   * Whoever is authenticated gets into a room exactly if it is resident, or Redis has its complete record, or Redis has
   * none, a node is healthy and it answers with a router.
   */
  lemma JoinsExactly(s: Server, c: ClientId, r: RoomId, role: string, name: string, caps: Option<Caps>, now: nat,
                     reply: CreateReply)
    requires Agreed(s.cluster) && c in s.clients && s.clients[c].user.Some?
    ensures r in HandleJoin(s, c, r, role, name, caps, now, reply).cluster.rooms <==>
            r in s.cluster.rooms || HasRecord(s.cluster, r) || GetsRouter(s.cluster, r, reply)
  {
    hide OpenRoom, HandleJoin, Agreed;
    JoinSucceeds(s, c, r, role, name, caps, now, reply);
    if r in s.cluster.rooms {
      OpenResident(s.cluster, r, now, reply);
    } else {
      OpensExactly(s.cluster, r, now, reply);
    }
  }

  /** A join that fails leaves the clients, the rooms and the copies as they were. */
  lemma JoinFails(s: Server, c: ClientId, r: RoomId, role: string, name: string, caps: Option<Caps>, now: nat,
                  reply: CreateReply)
    requires Agreed(s.cluster) && c in s.clients
    requires s.clients[c].user.None? || r !in HandleJoin(s, c, r, role, name, caps, now, reply).cluster.rooms
    ensures var s' := HandleJoin(s, c, r, role, name, caps, now, reply);
            s'.clients == s.clients && s'.cluster.rooms == s.cluster.rooms &&
                s'.cluster.snapshots == s.cluster.snapshots
  {
    hide OpenRoom, SnapshotOf, Evict, Broadcast, FirstWithUser, Others;
    if s.clients[c].user.Some? {
      JoinSucceeds(s, c, r, role, name, caps, now, reply);
      OpeningKeepsCopies(s.cluster, r, now, reply);
      if r in s.cluster.rooms {
        OpenResident(s.cluster, r, now, reply);
      } else {
        AgreedCoherent(s.cluster);
        OpenRooms(s.cluster, r, now, reply);
      }
    }
  }

  // ---- what a successful join leaves behind -----------------------------------------------------------------------

  /** The user has a participant in the room already. */
  ghost predicate WasThere(w: Cluster, r: RoomId, user: UserId) {
    r in w.rooms && exists pid :: pid in w.rooms[r].participants.at && pid.user == user
  }

  lemma FoundIfThere(w: Cluster, r: RoomId, user: UserId)
    requires r in w.rooms ==> Seating(w.rooms[r].participants.at)
    ensures FindByUser(w, r, user).Some? <==> WasThere(w, r, user)
  {
    hide FirstWithUser, Seating;
    if r in w.rooms {
      var at := w.rooms[r].participants.at;
      FindIsHeld(w.rooms[r].participants, user);
      if FindByUser(w, r, user).Some? {
        assert FindByUser(w, r, user).value in HeldBy(at, user);
      } else {
        assert forall pid | pid in at && pid.user == user :: pid in HeldBy(at, user);
      }
    }
  }

  /** joinRoom on everything of the room but its participants, and on the copies. */
  lemma JoinedRoom(w: Cluster, r: RoomId, user: UserId, role: string, name: string, caps: Option<Caps>, now: nat,
                   reply: CreateReply)
    requires r in JoinRoom(w, r, user, role, name, caps, now, reply).rooms
    ensures var open, w' := OpenRoom(w, r, now, reply), JoinRoom(w, r, user, role, name, caps, now, reply);
            && r in open.rooms && w'.rooms[r].(participants := open.rooms[r].participants) == open.rooms[r]
            && w'.snapshots == open.snapshots[r := SnapshotOf(w'.rooms[r])]
  {
    hide OpenRoom, SnapshotOf;
  }

  lemma OpeningKeepsCopies(w: Cluster, r: RoomId, now: nat, reply: CreateReply)
    ensures OpenRoom(w, r, now, reply).snapshots == w.snapshots
  {
    hide HostOf, BestNode;
  }

  /** The room after the join: the newcomer, and everyone who was there but the user's own earlier participant. */
  ghost predicate SeatedIn(w: Cluster, r: RoomId, p: Participant, room: Room) {
    && p.id in room.participants.at && room.participants.at[p.id] == p
    && (forall q :: q in room.participants.at <==>
          q == p.id || (r in w.rooms && q in w.rooms[r].participants.at && q.user != p.user))
    && (forall q | q in room.participants.at && q != p.id :: room.participants.at[q] == w.rooms[r].participants.at[q])
  }

  lemma SeatTaken(w: Cluster, r: RoomId, p: Participant, before: JsMap<ParticipantId, Participant>, room: Room)
    requires p.user == p.id.user
    requires before.at == ParticipantsAt(w, r).at - HeldBy(ParticipantsAt(w, r).at, p.user)
    requires room.participants == Set(before, p.id, p)
    ensures SeatedIn(w, r, p, room)
  {
  }

  /** A room that stays is the same room; a new one is what Redis or the node says. */
  ghost predicate Founded(w: Cluster, r: RoomId, now: nat, reply: CreateReply, room: Room) {
    if r in w.rooms then room.(participants := w.rooms[r].participants) == w.rooms[r]
    else Opened(w, r, now, reply, room.(participants := Empty()))
  }

  lemma DroppedEntryKeeps(s: Server, c: ClientId, r: RoomId, previous: Option<ParticipantId>)
    requires previous.Some? ==> r in s.cluster.rooms
    ensures var s1 := DropOldEntry(s, c, r, previous);
            && s1.cluster.snapshots == s.cluster.snapshots
            && if r in s.cluster.rooms then
                 && r in s1.cluster.rooms
                 && s1.cluster.rooms[r].(participants := s.cluster.rooms[r].participants) == s.cluster.rooms[r]
               else s1.cluster == s.cluster
  {
    hide Evict;
  }

  lemma JoinFounds(s: Server, c: ClientId, r: RoomId, role: string, name: string, caps: Option<Caps>, now: nat,
                   reply: CreateReply)
    requires Agreed(s.cluster) && c in s.clients && s.clients[c].user.Some?
    requires r in HandleJoin(s, c, r, role, name, caps, now, reply).cluster.rooms
    ensures var w' := HandleJoin(s, c, r, role, name, caps, now, reply).cluster;
            && Founded(s.cluster, r, now, reply, w'.rooms[r])
            && w'.snapshots == s.cluster.snapshots[r := SnapshotOf(w'.rooms[r])]
  {
    hide OpenRoom, JoinRoom, SnapshotOf, Agreed, Evict, Broadcast, FirstWithUser, HostOf, Hosts;
    var user := s.clients[c].user.value;
    var previous := FindByUser(s.cluster, r, user);
    var w := DropOldEntry(s, c, r, previous).cluster;
    DroppedEntryKeeps(s, c, r, previous);
    JoinedRoom(w, r, user, role, name, caps, now, reply);
    OpeningKeepsCopies(w, r, now, reply);
    if r in s.cluster.rooms {
      OpenResident(w, r, now, reply);
    } else {
      OpensExactly(s.cluster, r, now, reply);
    }
  }

  /** Everyone in the room is told who came, and whether it was there before; whoever held its seat forgets the room. */
  ghost predicate HeardOf(x: ClientId, was: Client, now: Client, r: RoomId, p: Participant, again: bool) {
    if was.participant.Some? && was.participant.value.user == p.user && was.room == Some(r) then now == Cleared(was)
    else if was.room == Some(r) then
      now == was.(inbox := Received(was.inbox, ParticipantJoined(p.id, p.user, p.name, p.role, again)))
    else now == was
  }

  /** Whoever holds one of the user's seats in the room is in the room. */
  lemma HoldersAreThere(s: Server, r: RoomId, user: UserId, x: ClientId)
    requires InStep(TablesOf(s)) && x in s.clients
    ensures var was := s.clients[x];
            was.participant.Some? && was.participant.value in HeldBy(ParticipantsAt(s.cluster, r).at, user) <==>
            was.participant.Some? && was.participant.value.user == user && was.room == Some(r)
  {
    var was := s.clients[x];
    assert ClientInStep(was, TablesOf(s).rooms);
    if was.participant.Some? && was.participant.value in HeldBy(ParticipantsAt(s.cluster, r).at, user) {
      SeatInOneRoom(TablesOf(s), r, was.room.value, was.participant.value);
    }
  }

  lemma Told(clients: Clients, seats: set<ParticipantId>, c: ClientId, me: Client, r: RoomId, e: Event, x: ClientId)
    requires c in clients && x in clients && x != c
    ensures var now := Broadcast(Evict(clients, seats, c)[c := me], r, c, e)[x];
            var was := clients[x];
            now == if was.participant.Some? && was.participant.value in seats then Cleared(was)
                   else if was.room == Some(r) then was.(inbox := Received(was.inbox, e))
                   else was
  {
  }

  lemma JoinTells(s: Server, c: ClientId, me: Client, r: RoomId, p: Participant, again: bool, x: ClientId)
    requires InStep(TablesOf(s)) && c in s.clients && x in s.clients && x != c
    ensures var seats := HeldBy(ParticipantsAt(s.cluster, r).at, p.user);
            HeardOf(x, s.clients[x],
                    Broadcast(Evict(s.clients, seats, c)[c := me], r, c,
                              ParticipantJoined(p.id, p.user, p.name, p.role, again))[x],
                    r, p, again)
  {
    hide InStep, Broadcast, Evict, HeldBy, ParticipantsAt;
    HoldersAreThere(s, r, p.user, x);
    Told(s.clients, HeldBy(ParticipantsAt(s.cluster, r).at, p.user), c, me, r,
         ParticipantJoined(p.id, p.user, p.name, p.role, again), x);
  }

  /** The clients after a successful join. */
  lemma JoinClients(s: Server, c: ClientId, r: RoomId, role: string, name: string, caps: Option<Caps>, now: nat,
                    reply: CreateReply)
    requires c in s.clients && s.clients[c].user.Some? && Coherent(s.cluster)
    requires r in s.cluster.rooms ==> Seating(s.cluster.rooms[r].participants.at)
    requires r in HandleJoin(s, c, r, role, name, caps, now, reply).cluster.rooms
    ensures var user := s.clients[c].user.value;
            var s', pid := HandleJoin(s, c, r, role, name, caps, now, reply), ParticipantId(user, now);
            var again := FindByUser(s.cluster, r, user).Some?;
            var me := Entered(s.clients[c], r, pid, JoinedEvent(s'.cluster.rooms[r], r, pid, again));
            s'.clients == Broadcast(Evict(s.clients, HeldBy(ParticipantsAt(s.cluster, r).at, user), c)[c := me], r, c,
                                    ParticipantJoined(pid, user, name, role, again))
  {
    hide JoinRoom, FindByUser, Broadcast, Others, Coherent, Seating, ParticipantsAt, HeldBy, SnapshotOf;
    var user := s.clients[c].user.value;
    var s1 := DropOldEntry(s, c, r, FindByUser(s.cluster, r, user));
    JoinedRooms(s, s1, c, r, user, role, name, caps, now, reply);
    SelfNotEvicted(s.clients, HeldBy(ParticipantsAt(s.cluster, r).at, user), c);
  }

  lemma SelfNotEvicted(clients: Clients, seats: set<ParticipantId>, c: ClientId)
    requires c in clients
    ensures c in Evict(clients, seats, c) && Evict(clients, seats, c)[c] == clients[c]
  {
  }

  lemma SelfNotTold(clients: Clients, r: RoomId, c: ClientId, e: Event)
    requires c in clients
    ensures c in Broadcast(clients, r, c, e) && Broadcast(clients, r, c, e)[c] == clients[c]
    ensures Broadcast(clients, r, c, e).Keys == clients.Keys
  {
  }

  /** What the newcomer hears. */
  ghost predicate Welcomed(was: Client, me: Client, r: RoomId, pid: ParticipantId, room: Room, again: bool) {
    && me == was.(room := Some(r), participant := Some(pid), inbox := me.inbox)
    && me.inbox.Received? && me.inbox.earlier == was.inbox && me.inbox.event.RoomJoined?
    && me.inbox.event.room == r && me.inbox.event.self == pid && me.inbox.event.isReconnect == again
    && me.inbox.event.participants == Others(Values(room.participants), pid)
  }

  /**
   * After a successful join: the client is in the room as a new participant with what it asked for, the user's earlier
   * one is gone and nobody else is; the room is the one that was there, or the one Redis or the least busy healthy node
   * stands for; Redis has its copy; the newcomer and the others are told whether the user was there before.
   */
  lemma JoinSeats(s: Server, c: ClientId, r: RoomId, role: string, name: string, caps: Option<Caps>, now: nat,
                  reply: CreateReply)
    requires Inv(s) && c in s.clients && s.clients[c].user.Some?
    requires r in HandleJoin(s, c, r, role, name, caps, now, reply).cluster.rooms
    ensures var user := s.clients[c].user.value;
            var s', pid := HandleJoin(s, c, r, role, name, caps, now, reply), ParticipantId(user, now);
            var w, w' := s.cluster, s'.cluster;
            var p := Participant(pid, user, name, role, caps, None, None, Empty(), Empty());
            var again := WasThere(w, r, user);
            && SeatedIn(w, r, p, w'.rooms[r]) && Founded(w, r, now, reply, w'.rooms[r])
            && w'.rooms - {r} == w.rooms - {r}
            && w'.snapshots == w.snapshots[r := SnapshotOf(w'.rooms[r])]
            && s'.clients.Keys == s.clients.Keys
            && Welcomed(s.clients[c], s'.clients[c], r, pid, w'.rooms[r], again)
            && forall x | x in s.clients && x != c :: HeardOf(x, s.clients[x], s'.clients[x], r, p, again)
  {
    hide HandleJoin, Inv, InStep, FindByUser, WasThere, SeatedIn, Founded, HeardOf, Broadcast, Evict, HeldBy,
        ParticipantsAt,
        SnapshotOf, Seating, Coherent, Others;
    InvParts(s, r);
    var user := s.clients[c].user.value;
    var s' := HandleJoin(s, c, r, role, name, caps, now, reply);
    var seats := HeldBy(ParticipantsAt(s.cluster, r).at, user);
    var p := Participant(ParticipantId(user, now), user, name, role, caps, None, None, Empty(), Empty());
    JoinFounds(s, c, r, role, name, caps, now, reply);
    JoinedSeats(s, c, r, role, name, caps, now, reply);
    FoundIfThere(s.cluster, r, user);
    JoinClients(s, c, r, role, name, caps, now, reply);
    var again := FindByUser(s.cluster, r, user).Some?;
    var me := Entered(s.clients[c], r, p.id, JoinedEvent(s'.cluster.rooms[r], r, p.id, again));
    EvictKeys(s.clients, seats, c);
    SelfNotTold(Evict(s.clients, seats, c)[c := me], r, c, ParticipantJoined(p.id, user, name, role, again));
    forall x | x in s.clients && x != c
      ensures HeardOf(x, s.clients[x], s'.clients[x], r, p, again)
    {
      JoinTells(s, c, me, r, p, again, x);
    }
  }

  lemma EvictKeys(clients: Clients, seats: set<ParticipantId>, c: ClientId)
    ensures Evict(clients, seats, c).Keys == clients.Keys
  {
  }

  lemma InvParts(s: Server, r: RoomId)
    requires Inv(s)
    ensures Agreed(s.cluster) && Coherent(s.cluster) && InStep(TablesOf(s))
    ensures r in s.cluster.rooms ==> Seating(s.cluster.rooms[r].participants.at)
  {
    AgreedCoherent(s.cluster);
    if r in s.cluster.rooms {
      RoomSeating(s, r);
    }
  }

  lemma JoinedSeats(s: Server, c: ClientId, r: RoomId, role: string, name: string, caps: Option<Caps>, now: nat,
                    reply: CreateReply)
    requires c in s.clients && s.clients[c].user.Some? && Coherent(s.cluster)
    requires r in s.cluster.rooms ==> Seating(s.cluster.rooms[r].participants.at)
    requires r in HandleJoin(s, c, r, role, name, caps, now, reply).cluster.rooms
    ensures var user, w' := s.clients[c].user.value, HandleJoin(s, c, r, role, name, caps, now, reply).cluster;
            var p := Participant(ParticipantId(user, now), user, name, role, caps, None, None, Empty(), Empty());
            SeatedIn(s.cluster, r, p, w'.rooms[r]) && w'.rooms - {r} == s.cluster.rooms - {r}
  {
    hide JoinRoom, FindByUser, Evict, Broadcast, Others, Coherent, Seating, SnapshotOf, HeldBy, SeatedIn,
        ParticipantsAt;
    var user := s.clients[c].user.value;
    var s1 := DropOldEntry(s, c, r, FindByUser(s.cluster, r, user));
    JoinedRooms(s, s1, c, r, user, role, name, caps, now, reply);
    SeatTaken(s.cluster, r, NewParticipant(user, role, name, caps, now), ParticipantsAt(s1.cluster, r),
              HandleJoin(s, c, r, role, name, caps, now, reply).cluster.rooms[r]);
  }
}

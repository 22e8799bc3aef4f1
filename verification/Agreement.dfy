/** What the room table, the two Redis tables and the SFU nodes' routers agree on, and that every operation keeps it. */
module Agreement {
  import opened Options
  import opened JsMaps
  import opened RoomTypes
  import opened Rooms

  /** A complete router record names a router that lives and serves that room. No room goes by the empty id. */
  ghost predicate RecordsLive(w: Cluster) {
    "" !in w.records &&
    forall r | r in w.records && w.records[r].origin.Some? ::
      var k := Router(w.records[r].origin.value, w.records[r].routerId);
      k.origin != "" && k.id != "" && k in w.routers && w.routers[k] == r
  }

  /** A resident room has a complete record, and it names the room's own router, origin and capabilities. */
  ghost predicate RoomsRecorded(w: Cluster) {
    forall r | r in w.rooms ::
      && r in w.records && w.records[r].origin == Some(w.rooms[r].origin)
      && w.records[r].routerId == w.rooms[r].routerId && w.records[r].caps == w.rooms[r].caps
  }

  /** Redis holds the snapshot of a resident room or nothing. `r` is exempt from equality. */
  ghost predicate CoherentBut(w: Cluster, r: RoomId) {
    forall s | s in w.snapshots :: s in w.rooms && (s == r || w.snapshots[s] == SnapshotOf(w.rooms[s]))
  }

  ghost predicate Coherent(w: Cluster) {
    forall s | s in w.snapshots :: s in w.rooms && w.snapshots[s] == SnapshotOf(w.rooms[s])
  }

  /** Agreement with Redis allowed to lag behind for room `r`, as it does inside a handler. */
  ghost predicate AgreedBut(w: Cluster, r: RoomId) {
    RecordsLive(w) && RoomsRecorded(w) && CoherentBut(w, r)
  }

  ghost predicate Agreed(w: Cluster) {
    RecordsLive(w) && RoomsRecorded(w) && Coherent(w)
  }

  /**
   * The node answers with a router that it has for this room or that nobody has yet. Under the empty id the request has
   * no room in its path, and no route of the node takes it.
   */
  ghost predicate HonestReply(w: Cluster, r: RoomId, reply: CreateReply) {
    !reply.Refused? ==>
      && r != "" && reply.id != ""
      && forall k | k in w.routers && k.id == reply.id :: w.routers[k] == r
  }

  // ---- each operation --------------------------------------------------------------------------

  lemma PersistAgrees(w: Cluster, r: RoomId)
    requires AgreedBut(w, r)
    ensures Agreed(Persist(w, r))
  {
  }

  lemma AllocateAgrees(w: Cluster, r: RoomId, reply: CreateReply)
    requires Agreed(w) && HonestReply(w, r, reply)
    ensures Agreed(AllocateRoom(w, r, reply).0)
  {
  }

  /** Whatever allocateRoom hands out is what the record says. */
  lemma AllocationRecorded(w: Cluster, r: RoomId, reply: CreateReply)
    ensures var (w', a) := AllocateRoom(w, r, reply);
            && w'.rooms == w.rooms && w'.snapshots == w.snapshots
            && (a.Some? ==>
                  && r in w'.records && w'.records[r].origin == Some(a.value.origin)
                  && w'.records[r].routerId == a.value.routerId && w'.records[r].caps == a.value.caps)
  {
  }

  lemma AdmitRoomAgrees(w: Cluster, r: RoomId, room: Room)
    requires Agreed(w) && r !in w.rooms
    requires r in w.records && w.records[r].origin == Some(room.origin) && w.records[r].routerId == room.routerId &&
             w.records[r].caps == room.caps
    ensures AgreedBut(w.(rooms := w.rooms[r := room]), r)
  {
  }

  lemma OpenAgrees(w: Cluster, r: RoomId, now: nat, reply: CreateReply)
    requires Agreed(w) && HonestReply(w, r, reply)
    ensures AgreedBut(OpenRoom(w, r, now, reply), r)
  {
    var open := OpenRoom(w, r, now, reply);
    if r !in w.rooms {
      assert r !in w.snapshots;
      if r in RestoreRoom(w, r, now).rooms {
        AdmitRoomAgrees(w, r, open.rooms[r]);
      } else {
        AllocateAgrees(w, r, reply);
        AllocationRecorded(w, r, reply);
        var (w1, a) := AllocateRoom(w, r, reply);
        if a.Some? {
          AdmitRoomAgrees(w1, r, open.rooms[r]);
        }
      }
    }
  }

  lemma OpenResident(w: Cluster, r: RoomId, now: nat, reply: CreateReply)
    requires r in w.rooms
    ensures OpenRoom(w, r, now, reply) == w
  {
  }

  /** Opening a room leaves the other rooms alone and starts a new one empty, unless Redis has participants for it. */
  lemma OpenRooms(w: Cluster, r: RoomId, now: nat, reply: CreateReply)
    requires Coherent(w)
    ensures var w' := OpenRoom(w, r, now, reply);
            && (w'.rooms == w.rooms || (r !in w.rooms && r in w'.rooms && w'.rooms == w.rooms[r := w'.rooms[r]]))
            && (r in w'.rooms && r !in w.rooms ==> w'.rooms[r].participants == Empty())
  {
    hide AllocateRoom, Rebuild;
    AllocationRecorded(w, r, reply);
  }

  lemma ReplaceRoomAgrees(w: Cluster, r: RoomId, room: Room)
    requires AgreedBut(w, r) && r in w.rooms && room.(participants := w.rooms[r].participants) == w.rooms[r]
    ensures AgreedBut(w.(rooms := w.rooms[r := room]), r)
  {
  }

  lemma JoinAgrees(w: Cluster, r: RoomId, user: UserId, role: string, name: string, caps: Option<Caps>, now: nat,
                   reply: CreateReply)
    requires if r in w.rooms then AgreedBut(w, r) else Agreed(w) && HonestReply(w, r, reply)
    ensures Agreed(JoinRoom(w, r, user, role, name, caps, now, reply))
  {
    var open := OpenRoom(w, r, now, reply);
    if r !in w.rooms {
      OpenAgrees(w, r, now, reply);
    }
    if r in open.rooms {
      var pid := ParticipantId(user, now);
      var room := open.rooms[r].(participants :=
          Set(open.rooms[r].participants, pid, NewParticipant(user, role, name, caps, now)));
      ReplaceRoomAgrees(open, r, room);
      PersistAgrees(open.(rooms := open.rooms[r := room]), r);
    }
  }

  lemma RemoveEntryAgrees(w: Cluster, r: RoomId, pid: ParticipantId)
    requires AgreedBut(w, r)
    ensures AgreedBut(RemoveEntry(w, r, pid), r)
  {
  }

  /** A room disappears from every table; its router may stay behind on the node. */
  lemma CloseRoomAgrees(w: Cluster, r: RoomId, closed: bool)
    requires AgreedBut(w, r)
    ensures var w' := ReleaseRoom(w, r, closed);
            Agreed(w'.(rooms := w'.rooms - {r}, snapshots := w'.snapshots - {r}))
  {
  }

  lemma LeaveAgrees(w: Cluster, r: RoomId, pid: ParticipantId, closed: bool)
    requires if r in w.rooms then AgreedBut(w, r) else Agreed(w)
    ensures Agreed(LeaveRoom(w, r, pid, closed))
  {
    if r in w.rooms {
      RemoveEntryAgrees(w, r, pid);
      var removed := RemoveEntry(w, r, pid);
      CloseRoomAgrees(removed, r, closed);
      PersistAgrees(removed, r);
    }
  }

  lemma DestroyAgrees(w: Cluster, r: RoomId, closed: bool)
    requires Agreed(w)
    ensures Agreed(DestroyRoom(w, r, closed))
  {
  }

  lemma UpdateAgrees(w: Cluster, r: RoomId, pid: ParticipantId, p: Participant)
    requires Agreed(w) && r in w.rooms
    ensures Agreed(Persist(SetParticipant(w, r, pid, p), r))
  {
  }

  lemma StripAgrees(w: Cluster, r: RoomId, gone: set<Id>)
    requires Agreed(w) && r in w.rooms
    ensures AgreedBut(StripRoom(w, r, gone), r)
  {
  }

  lemma ResidentRecorded(w: Cluster, r: RoomId)
    requires Agreed(w)
    ensures r in w.rooms ==> r in w.records
  {
  }

  /** Distinct rooms run on distinct routers. */
  lemma RoutersDistinct(w: Cluster, r: RoomId, s: RoomId)
    requires Agreed(w) && r in w.rooms && s in w.rooms
    requires w.rooms[r].origin == w.rooms[s].origin && w.rooms[r].routerId == w.rooms[s].routerId
    ensures r == s
  {
  }

  /** Each Redis copy of a room names the router that serves it. */
  lemma SnapshotNamesRouter(w: Cluster, r: RoomId)
    requires Agreed(w) && r in w.snapshots
    ensures r in w.records && w.records[r].routerId == w.snapshots[r].routerId
    ensures w.records[r].origin == Some(w.snapshots[r].origin)
  {
  }
}

/** What RoomManager and SFUManager do to the tables, as functions of the tables and of the replies the SFU gives. */
module Rooms {
  import opened Options
  import opened JsMaps
  import opened Sorting
  import opened RoomTypes

  /** How an SFU node answers "create a router for this room". */
  datatype CreateReply =
    | Refused                        // the call failed and nothing was created
    | Lost(id: Id)                   // the node has the router, but the caller sees a failure
    | Created(id: Id, caps: Caps)

  datatype ConsumeReply = ConsumeFailed | CannotConsume | Consuming(id: Id, kind: Kind)

  datatype Allocation = Allocation(node: string, origin: string, routerId: Id, caps: Caps)

  // ---- persistence -------------------------------------------------------------------------

  function SnapshotOfParticipant(p: Participant): ParticipantSnapshot {
    ParticipantSnapshot(p.id, p.user, p.name, p.role, p.send, p.recv, Values(p.producers), Values(p.consumers))
  }

  function SnapshotsOf(ps: seq<Participant>): (r: seq<ParticipantSnapshot>)
    ensures |r| == |ps|
    ensures forall i :: 0 <= i < |r| ==> r[i] == SnapshotOfParticipant(ps[i])
  {
    seq(|ps|, i requires 0 <= i < |ps| => SnapshotOfParticipant(ps[i]))
  }

  function SnapshotOf(room: Room): RoomSnapshot {
    RoomSnapshot(SnapshotsOf(Values(room.participants)), room.routerId, room.sfuNode, room.origin, room.caps)
  }

  function Persist(w: Cluster, r: RoomId): Cluster {
    if r in w.rooms then w.(snapshots := w.snapshots[r := SnapshotOf(w.rooms[r])]) else w
  }

  /** The map a loop of `map.set(key(v), v)` over `vs` builds. */
  function Rebuild<K, V>(vs: seq<V>, key: V -> K): JsMap<K, V> {
    if vs == [] then Empty() else Set(Rebuild(vs[..|vs| - 1], key), key(vs[|vs| - 1]), vs[|vs| - 1])
  }

  function ProducerKey(p: Producer): Id { p.id }
  function ConsumerKey(c: Consumer): Id { c.id }
  function ParticipantKey(p: Participant): ParticipantId { p.id }

  function RestoreParticipant(s: ParticipantSnapshot): Participant {
    Participant(s.id, s.user, s.name, s.role, None, s.send, s.recv,
                Rebuild(s.producers, ProducerKey), Rebuild(s.consumers, ConsumerKey))
  }

  function RestoreParticipants(ss: seq<ParticipantSnapshot>): (r: seq<Participant>)
    ensures |r| == |ss|
    ensures forall i :: 0 <= i < |r| ==> r[i] == RestoreParticipant(ss[i])
  {
    seq(|ss|, i requires 0 <= i < |ss| => RestoreParticipant(ss[i]))
  }

  function RoomFromSnapshot(r: RoomId, s: RoomSnapshot, now: nat): Room {
    Room(r, s.sfuNode, s.origin, s.routerId, s.caps,
         Rebuild(RestoreParticipants(s.participants), ParticipantKey), now)
  }

  function LoadRoomState(w: Cluster, r: RoomId, now: nat): Cluster {
    if r in w.snapshots && w.snapshots[r].routerId != ""
    then w.(rooms := w.rooms[r := RoomFromSnapshot(r, w.snapshots[r], now)])
    else w
  }

  function HasPrefix(s: string, p: string): bool {
    |p| <= |s| && s[..|p|] == p
  }

  function UpToSlash(s: string): string {
    if s == "" || s[0] == '/' then "" else [s[0]] + UpToSlash(s[1..])
  }

  /** The host and port of an HTTP origin. */
  function HostOf(origin: string): string {
    UpToSlash(
      if HasPrefix(origin, "http://") then origin[7..]
      else if HasPrefix(origin, "https://") then origin[8..]
      else origin)
  }

  /** restoreRoomFromCluster: the full record first, else the router record if it is complete. */
  function RestoreRoom(w: Cluster, r: RoomId, now: nat): Cluster {
    var loaded := LoadRoomState(w, r, now);
    if r in loaded.rooms then loaded
    else if r in w.records && w.records[r].origin.Some? && w.records[r].origin.value != "" &&
        w.records[r].routerId != "" then
      var rec := w.records[r];
      w.(rooms := w.rooms[r := Room(r, HostOf(rec.origin.value), rec.origin.value, rec.routerId, rec.caps, Empty(),
                                    now)])
    else w
  }

  // ---- SFUManager --------------------------------------------------------------------------

  function LoadOf(n: SfuNode): int { n.load }
  predicate NoBusier(a: SfuNode, b: SfuNode) { a.load <= b.load }

  function Healthy(nodes: seq<SfuNode>): seq<SfuNode> {
    if nodes == [] then []
    else Healthy(nodes[..|nodes| - 1]) + if nodes[|nodes| - 1].healthy then [nodes[|nodes| - 1]] else []
  }

  function BestNode(nodes: seq<SfuNode>): Option<SfuNode> {
    if Healthy(nodes) == [] then None else Some(Sort(Healthy(nodes), NoBusier)[0])
  }

  /** allocateRoom. A record without an origin makes the existing-record branch throw. */
  function AllocateRoom(w: Cluster, r: RoomId, reply: CreateReply): (Cluster, Option<Allocation>) {
    if r in w.records then
      var rec := w.records[r];
      (w, if rec.origin.Some? then Some(Allocation(HostOf(rec.origin.value), rec.origin.value, rec.routerId,
                                                   rec.caps)) else None)
    else if BestNode(w.nodes).None? then (w, None)
    else
      var node := BestNode(w.nodes).value;
      var origin := "http://" + node.address;
      match reply
      case Refused => (w, None)
      case Lost(id) =>
        (if Router(origin, id) in w.routers then w
         else w.(routers := w.routers[Router(origin, id) := r],
                 records := w.records[r := RouterRecord(node.id, id, None, "{}")]),
         None)
      case Created(id, caps) =>
        (w.(routers := w.routers[Router(origin, id) := r],
            records := w.records[r := RouterRecord(node.id, id, Some(origin), caps)]),
         Some(Allocation(node.address, origin, id, caps)))
  }

  /** releaseRoom. `closed` says whether the node really closed the router; a failure is logged and ignored. */
  function ReleaseRoom(w: Cluster, r: RoomId, closed: bool): Cluster {
    if r in w.records && w.records[r].origin.Some? && closed
    then w.(routers := w.routers - {Router(w.records[r].origin.value, w.records[r].routerId)},
            records := w.records - {r})
    else w.(records := w.records - {r})
  }

  // ---- RoomManager -------------------------------------------------------------------------

  function NewParticipant(user: UserId, role: string, name: string, caps: Option<Caps>, now: nat): Participant {
    Participant(ParticipantId(user, now), user, name, role, caps, None, None, Empty(), Empty())
  }

  /** The participant record is updated where it stands in the room's map. */
  function SetParticipant(w: Cluster, r: RoomId, pid: ParticipantId, p: Participant): Cluster
    requires r in w.rooms
  {
    var room := w.rooms[r];
    w.(rooms := w.rooms[r := room.(participants := Set(room.participants, pid, p))])
  }

  /** The room is made resident: already there, restored from Redis, or allocated; unchanged otherwise. */
  function OpenRoom(w: Cluster, r: RoomId, now: nat, reply: CreateReply): Cluster {
    var restored := if r in w.rooms then w else RestoreRoom(w, r, now);
    if r in restored.rooms then restored
    else
      var (w1, a) := AllocateRoom(restored, r, reply);
      if a.None? then w1
      else w1.(rooms := w1.rooms[r := Room(r, a.value.node, a.value.origin, a.value.routerId, a.value.caps, Empty(),
                                           now)])
  }

  function SetCapabilities(w: Cluster, r: RoomId, pid: ParticipantId, caps: Option<Caps>): Cluster {
    if Present(w, r, pid) && caps.Some?
    then SetParticipant(w, r, pid, w.rooms[r].participants.at[pid].(rtpCapabilities := caps))
    else w
  }

  /** joinRoom followed by setParticipantRtpCapabilities, if the client sent any. */
  function JoinRoom(w: Cluster, r: RoomId, user: UserId, role: string, name: string, caps: Option<Caps>, now: nat,
                    reply: CreateReply): Cluster {
    var open := OpenRoom(w, r, now, reply);
    if r in open.rooms
    then Persist(SetParticipant(open, r, ParticipantId(user, now), NewParticipant(user, role, name, caps, now)), r)
    else open
  }

  function RemoveEntry(w: Cluster, r: RoomId, pid: ParticipantId): Cluster {
    if r in w.rooms
    then w.(rooms := w.rooms[r := w.rooms[r].(participants := Without(w.rooms[r].participants, {pid}))])
    else w
  }

  function LeaveRoom(w: Cluster, r: RoomId, pid: ParticipantId, closed: bool): Cluster {
    var removed := RemoveEntry(w, r, pid);
    if r !in w.rooms then w
    else if removed.rooms[r].participants.at == map[] then
      var released := ReleaseRoom(removed, r, closed);
      released.(rooms := released.rooms - {r}, snapshots := released.snapshots - {r})
    else Persist(removed, r)
  }

  function DestroyRoom(w: Cluster, r: RoomId, closed: bool): Cluster {
    ReleaseRoom(w.(rooms := w.rooms - {r}, snapshots := w.snapshots - {r}), r, closed)
  }

  predicate Present(w: Cluster, r: RoomId, pid: ParticipantId) {
    r in w.rooms && pid in w.rooms[r].participants.at
  }

  function CreateTransport(w: Cluster, r: RoomId, pid: ParticipantId, direction: Direction,
                           reply: Option<Id>): Cluster {
    if !Present(w, r, pid) || reply.None? then w
    else
      var p := w.rooms[r].participants.at[pid];
      var q := if direction == Send then p.(send := reply) else p.(recv := reply);
      Persist(SetParticipant(w, r, pid, q), r)
  }

  function Produce(w: Cluster, r: RoomId, pid: ParticipantId, kind: Kind, source: string, reply: Option<Id>): Cluster {
    if !Present(w, r, pid) || reply.None? then w
    else
      var p := w.rooms[r].participants.at[pid];
      Persist(SetParticipant(w, r, pid, p.(producers :=
          Set(p.producers, reply.value, Producer(reply.value, kind, source, false)))), r)
  }

  function Consume(w: Cluster, r: RoomId, pid: ParticipantId, producer: Id, reply: ConsumeReply)
    : (Cluster, Option<Id>)
  {
    if !Present(w, r, pid) || !w.rooms[r].participants.at[pid].recv.Some? ||
        w.rooms[r].participants.at[pid].recv == Some("") || !reply.Consuming? then (w, None)
    else
      var p := w.rooms[r].participants.at[pid];
      (Persist(SetParticipant(w, r, pid, p.(consumers :=
          Set(p.consumers, reply.id, Consumer(reply.id, producer, reply.kind, true)))), r),
       Some(reply.id))
  }

  /** Every participant loses the producers in `gone`. */
  function StripProducers(m: JsMap<ParticipantId, Participant>, gone: set<Id>): JsMap<ParticipantId, Participant> {
    Entries(m.order, map pid | pid in m.at :: m.at[pid].(producers := Without(m.at[pid].producers, gone)))
  }

  function StripRoom(w: Cluster, r: RoomId, gone: set<Id>): Cluster
    requires r in w.rooms
  {
    w.(rooms := w.rooms[r := w.rooms[r].(participants := StripProducers(w.rooms[r].participants, gone))])
  }

  function CloseProducer(w: Cluster, r: RoomId, producer: Id, ok: bool): Cluster {
    if r in w.rooms && ok then Persist(StripRoom(w, r, {producer}), r) else w
  }

  /** `findParticipantByUserId`: the first participant, in map order, that the user entered as. */
  function FirstWithUser(ps: seq<Participant>, user: UserId): Option<ParticipantId> {
    if ps == [] then None
    else if ps[0].user == user then Some(ps[0].id)
    else FirstWithUser(ps[1..], user)
  }

  function FindByUser(w: Cluster, r: RoomId, user: UserId): Option<ParticipantId> {
    if r in w.rooms then FirstWithUser(Values(w.rooms[r].participants), user) else None
  }

  predicate HasProducer(w: Cluster, r: RoomId, producer: Id) {
    r in w.rooms &&
    exists pid ::
      pid in w.rooms[r].participants.at && producer in w.rooms[r].participants.at[pid].producers.at
  }
}

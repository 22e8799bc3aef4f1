/** The records behind one signaling instance: rooms, participants, and what Redis and the SFU nodes keep about them. */
module RoomTypes {
  import opened Options
  import opened JsMaps

  type RoomId = string
  type UserId = string
  type ClientId = string
  type Id = string            // transport, producer, consumer and router ids handed out by the SFU
  type Caps = string          // RTP capabilities, opaque JSON

  /** The text `p-${user}-${joinedAt}`; Decimal.ParticipantTextInjective shows that the text determines both parts. */
  datatype ParticipantId = ParticipantId(user: UserId, joinedAt: nat)

  datatype Kind = Audio | Video
  datatype Direction = Send | Recv

  datatype Producer = Producer(id: Id, kind: Kind, source: string, paused: bool)
  datatype Consumer = Consumer(id: Id, producer: Id, kind: Kind, paused: bool)

  datatype Participant = Participant(
    id: ParticipantId, user: UserId, name: string, role: string, rtpCapabilities: Option<Caps>,
    send: Option<Id>, recv: Option<Id>,
    producers: JsMap<Id, Producer>, consumers: JsMap<Id, Consumer>)

  datatype Room = Room(
    id: RoomId, sfuNode: string, origin: string, routerId: Id, caps: Caps,
    participants: JsMap<ParticipantId, Participant>, createdAt: nat)

  /** The hash `room:state:<id>`, after JSON encoding and decoding. */
  datatype ParticipantSnapshot = ParticipantSnapshot(
    id: ParticipantId, user: UserId, name: string, role: string, send: Option<Id>, recv: Option<Id>,
    producers: seq<Producer>, consumers: seq<Consumer>)
  datatype RoomSnapshot = RoomSnapshot(
    participants: seq<ParticipantSnapshot>, routerId: Id, sfuNode: string, origin: string, caps: Caps)

  /** A value of the hash `room:routers`. The record an SFU node writes by itself has no origin. */
  datatype RouterRecord = RouterRecord(nodeId: string, routerId: Id, origin: Option<string>, caps: Caps)

  datatype SfuNode = SfuNode(id: string, address: string, healthy: bool, load: nat)

  /** A router, named by the node that runs it and its id there. */
  datatype Router = Router(origin: string, id: Id)

  /** Every table that RoomManager and SFUManager read or write. */
  datatype Cluster = Cluster(
    rooms: map<RoomId, Room>,                // RoomManager.rooms
    snapshots: map<RoomId, RoomSnapshot>,    // Redis room:state:*
    records: map<RoomId, RouterRecord>,      // Redis room:routers
    routers: map<Router, RoomId>,            // the routers that live on the SFU nodes, with their rooms
    nodes: seq<SfuNode>)                     // SFUManager.nodes

  /** Everything is stored under its own key. */
  ghost predicate WellKeyedParticipant(p: Participant) {
    && (forall k | k in p.producers.at :: p.producers.at[k].id == k)
    && (forall k | k in p.consumers.at :: p.consumers.at[k].id == k)
  }

  ghost predicate WellKeyed(room: Room) {
    && (forall k | k in room.participants.at :: room.participants.at[k].id == k)
    && (forall k | k in room.participants.at :: WellKeyedParticipant(room.participants.at[k]))
  }
}

/** SignalingServer's message handlers as functions of the client table and the cluster tables. */
module Signaling {
  import opened Options
  import opened JsMaps
  import opened RoomTypes
  import opened Rooms
  import opened Membership
  import opened Tables

  datatype Server = Server(clients: Clients, cluster: Cluster)

  /** `client.roomId && client.participantId`: the empty room id counts as no room. */
  predicate InRoom(c: Client) {
    c.room.Some? && c.room.value != "" && c.participant.Some?
  }

  const NEW_CLIENT := Client(None, None, None, {}, {}, {}, Nothing)

  function Connect(s: Server, c: ClientId): Server {
    s.(clients := s.clients[c := NEW_CLIENT])
  }

  function Authenticate(s: Server, c: ClientId, user: UserId): Server
    requires c in s.clients
  {
    s.(clients := s.clients[c := s.clients[c].(user := Some(user))])
  }

  /** The reconnect branch: the old client forgets the room, and the old entry goes. */
  function DropOldEntry(s: Server, c: ClientId, r: RoomId, previous: Option<ParticipantId>): Server {
    if previous.Some?
    then Server(Evict(s.clients, {previous.value}, c), RemoveEntry(s.cluster, r, previous.value))
    else s
  }

  function JoinedEvent(room: Room, r: RoomId, pid: ParticipantId, isReconnect: bool): Event {
    RoomJoined(r, pid, Others(Values(room.participants), pid), isReconnect)
  }

  /** joinRoom, then the snapshot for the newcomer and the announcement for the others. */
  function FinishJoin(s: Server, c: ClientId, r: RoomId, user: UserId, role: string, name: string, caps: Option<Caps>,
                      now: nat, reply: CreateReply, isReconnect: bool): Server
    requires c in s.clients
  {
    var w := JoinRoom(s.cluster, r, user, role, name, caps, now, reply);
    if r !in w.rooms then s.(cluster := w)
    else
      var pid := ParticipantId(user, now);
      var me := Entered(s.clients[c], r, pid, JoinedEvent(w.rooms[r], r, pid, isReconnect));
      Server(Broadcast(s.clients[c := me], r, c, ParticipantJoined(pid, user, name, role, isReconnect)), w)
  }

  function HandleJoin(s: Server, c: ClientId, r: RoomId, role: string, name: string, caps: Option<Caps>, now: nat,
                      reply: CreateReply): Server
    requires c in s.clients
  {
    if s.clients[c].user.None? then s
    else
      var user := s.clients[c].user.value;
      var previous := FindByUser(s.cluster, r, user);
      FinishJoin(DropOldEntry(s, c, r, previous), c, r, user, role, name, caps, now, reply, previous.Some?)
  }

  /**
   * cleanupClientRoom. `failing` are the producers the SFU refuses to close, `closed` whether the router was closed.
   */
  function HandleLeave(s: Server, c: ClientId, failing: set<Id>, closed: bool): Server
    requires c in s.clients
  {
    var me := s.clients[c];
    if !InRoom(me) then s
    else
      var r, pid, w := me.room.value, me.participant.value, s.cluster;
      var stripped := if r in w.rooms then StripRoom(w, r, me.producers - failing) else w;
      Server(Broadcast(s.clients, r, c, ParticipantLeft(pid))[c := Cleared(me)], LeaveRoom(stripped, r, pid, closed))
  }

  function HandleDisconnect(s: Server, c: ClientId, failing: set<Id>, closed: bool): Server
    requires c in s.clients
  {
    var left := HandleLeave(s, c, failing, closed);
    left.(clients := left.clients - {c})
  }

  function HandleCreateTransport(s: Server, c: ClientId, direction: Direction, reply: Option<Id>): Server
    requires c in s.clients
  {
    var me := s.clients[c];
    if !InRoom(me) || !Present(s.cluster, me.room.value, me.participant.value) || reply.None? then s
    else
      Server(s.clients[c := me.(transports := me.transports + {reply.value})],
             CreateTransport(s.cluster, me.room.value, me.participant.value, direction, reply))
  }

  function HandleProduce(s: Server, c: ClientId, kind: Kind, source: string, reply: Option<Id>): Server
    requires c in s.clients
  {
    var me := s.clients[c];
    if !InRoom(me) || !Present(s.cluster, me.room.value, me.participant.value) || reply.None? then s
    else
      var r, pid := me.room.value, me.participant.value;
      Server(Broadcast(s.clients[c := me.(producers := me.producers + {reply.value})], r, c,
                       NewProducer(reply.value, pid, kind)),
             Produce(s.cluster, r, pid, kind, source, reply))
  }

  function HandleConsume(s: Server, c: ClientId, producer: Id, reply: ConsumeReply): Server
    requires c in s.clients
  {
    var me := s.clients[c];
    if !InRoom(me) || !HasProducer(s.cluster, me.room.value, producer) then s
    else
      var (w, id) := Consume(s.cluster, me.room.value, me.participant.value, producer, reply);
      if id.None? then s else Server(s.clients[c := me.(consumers := me.consumers + {id.value})], w)
  }

  function HandleCloseProducer(s: Server, c: ClientId, producer: Id, ok: bool): Server
    requires c in s.clients
  {
    var me := s.clients[c];
    if me.room.None? || me.room.value == "" || producer !in me.producers || me.room.value !in s.cluster.rooms ||
        !ok then s
    else
      Server(Broadcast(s.clients[c := me.(producers := me.producers - {producer})], me.room.value, c,
                       ProducerClosed(producer)),
             CloseProducer(s.cluster, me.room.value, producer, ok))
  }

  // ---- runs ----------------------------------------------------------------------------------------

  datatype Step =
    | Connecting(c: ClientId)
    | Authenticating(c: ClientId, user: UserId)
    | Joining(c: ClientId, r: RoomId, role: string, name: string, caps: Option<Caps>, now: nat, reply: CreateReply)
    | Leaving(c: ClientId, failing: set<Id>, closed: bool)
    | Disconnecting(c: ClientId, failing: set<Id>, closed: bool)
    | CreatingTransport(c: ClientId, direction: Direction, transport: Option<Id>)
    | Producing(c: ClientId, kind: Kind, source: string, producer: Option<Id>)
    | ConsumingFrom(c: ClientId, from: Id, consumer: ConsumeReply)
    | ClosingProducer(c: ClientId, from: Id, ok: bool)
    | Allocating(r: RoomId, reply: CreateReply)       // control plane: allocate a room ahead of its first client
    | ClosingRoom(r: RoomId, closed: bool)            // control plane: drop a room
    | Expiring(r: RoomId)                             // the snapshot's TTL runs out
    | CheckingHealth(nodes: seq<SfuNode>)             // new health and load figures

  predicate Known(s: Server, step: Step) {
    match step
    case Connecting(c) => c !in s.clients
    case Authenticating(c, _) => c in s.clients
    case Joining(c, _, _, _, _, _, _) => c in s.clients
    case Leaving(c, _, _) => c in s.clients
    case Disconnecting(c, _, _) => c in s.clients
    case CreatingTransport(c, _, _) => c in s.clients
    case Producing(c, _, _, _) => c in s.clients
    case ConsumingFrom(c, _, _) => c in s.clients
    case ClosingProducer(c, _, _) => c in s.clients
    case _ => true
  }

  function Next(s: Server, step: Step): Server
    requires Known(s, step)
  {
    match step
    case Connecting(c) => Connect(s, c)
    case Authenticating(c, user) => Authenticate(s, c, user)
    case Joining(c, r, role, name, caps, now, reply) => HandleJoin(s, c, r, role, name, caps, now, reply)
    case Leaving(c, failing, closed) => HandleLeave(s, c, failing, closed)
    case Disconnecting(c, failing, closed) => HandleDisconnect(s, c, failing, closed)
    case CreatingTransport(c, direction, reply) => HandleCreateTransport(s, c, direction, reply)
    case Producing(c, kind, source, reply) => HandleProduce(s, c, kind, source, reply)
    case ConsumingFrom(c, producer, reply) => HandleConsume(s, c, producer, reply)
    case ClosingProducer(c, producer, ok) => HandleCloseProducer(s, c, producer, ok)
    case Allocating(r, reply) => s.(cluster := AllocateRoom(s.cluster, r, reply).0)
    case ClosingRoom(r, closed) => s.(cluster := DestroyRoom(s.cluster, r, closed))
    case Expiring(r) => s.(cluster := s.cluster.(snapshots := s.cluster.snapshots - {r}))
    case CheckingHealth(nodes) => s.(cluster := s.cluster.(nodes := nodes))
  }

  function Initial(nodes: seq<SfuNode>): Server {
    Server(map[], Cluster(map[], map[], map[], map[], nodes))
  }
}

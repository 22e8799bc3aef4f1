/**
 * The signaling services as objects that update their tables in place; every method is tied to its function in Rooms.
 */
module Services {
  import opened Options
  import opened JsMaps
  import opened Sorting
  import opened RoomTypes
  import opened Rooms
  import opened Cleanup
  import opened Health

  /** The first participant with that producer has it with that kind. */
  ghost predicate FirstHolds(m: JsMap<ParticipantId, Participant>, producer: Id, kind: Kind) {
    exists i ::
      && 0 <= i < |m.order| && producer in m.at[m.order[i]].producers.at
      && m.at[m.order[i]].producers.at[producer].kind == kind
      && forall j :: 0 <= j < i ==> producer !in m.at[m.order[j]].producers.at
  }

  class RedisService {
    var roomStates: map<RoomId, RoomSnapshot>
    var roomRouters: map<RoomId, RouterRecord>

    constructor ()
      ensures roomStates == map[] && roomRouters == map[]
    {
      roomStates, roomRouters := map[], map[];
    }
  }

  /**
   * The SFU nodes behind their HTTP interface: the routers they run, and the record they write when they create one.
   */
  class SfuNodes {
    var routers: map<Router, RoomId>
    const redis: RedisService

    constructor (redis: RedisService)
      ensures this.redis == redis && routers == map[]
    {
      this.redis := redis;
      routers := map[];
    }

    /** POST /api/rooms/:roomId/router at one node. */
    method CreateRouter(node: SfuNode, origin: string, r: RoomId, reply: CreateReply)
      modifies this, redis`roomRouters
      ensures reply.Refused? || Router(origin, reply.id) in old(routers) ==> redis.roomRouters == old(redis.roomRouters)
      ensures reply.Refused? || (reply.Lost? && Router(origin, reply.id) in old(routers)) ==> routers == old(routers)
      ensures !reply.Refused? && Router(origin, reply.id) !in old(routers) ==>
                redis.roomRouters == old(redis.roomRouters)[r := RouterRecord(node.id, reply.id, None, "{}")]
      ensures reply.Created? || (reply.Lost? && Router(origin, reply.id) !in old(routers)) ==>
                routers == old(routers)[Router(origin, reply.id) := r]
    {
      if !reply.Refused? {
        var k := Router(origin, reply.id);
        if k !in routers {
          redis.roomRouters := redis.roomRouters[r := RouterRecord(node.id, reply.id, None, "{}")];
        }
        if k !in routers || reply.Created? {
          routers := routers[k := r];
        }
      }
    }
  }

  class SFUManager {
    var nodes: seq<SfuNode>
    const redis: RedisService
    const sfu: SfuNodes

    constructor (redis: RedisService, sfu: SfuNodes, nodes: seq<SfuNode>)
      ensures this.redis == redis && this.sfu == sfu && this.nodes == nodes
    {
      this.redis, this.sfu, this.nodes := redis, sfu, nodes;
    }

    ghost predicate Valid() {
      sfu.redis == redis
    }

    method GetBestNode() returns (best: Option<SfuNode>)
      ensures best == BestNode(nodes)
    {
      var healthyNodes := [];
      var i := 0;
      while i < |nodes|
        invariant i <= |nodes| && healthyNodes == Healthy(nodes[..i])
      {
        if nodes[i].healthy {
          healthyNodes := healthyNodes + [nodes[i]];
        }
        assert nodes[..i + 1][..i] == nodes[..i];
        i := i + 1;
      }
      assert nodes[..i] == nodes;
      if healthyNodes == [] {
        return None;
      }
      return Some(Sort(healthyNodes, NoBusier)[0]);
    }

    method AllocateRoom(ghost rooms: map<RoomId, Room>, r: RoomId, reply: CreateReply) returns (a: Option<Allocation>)
      requires Valid()
      modifies redis`roomRouters, sfu
      ensures (Cluster(rooms, redis.roomStates, redis.roomRouters, sfu.routers, nodes), a) ==
              Rooms.AllocateRoom(old(Cluster(rooms, redis.roomStates, redis.roomRouters, sfu.routers, nodes)), r, reply)
    {
      if r in redis.roomRouters {
        var existing := redis.roomRouters[r];
        if existing.origin.None? {
          return None;   // reading `replace` of an absent origin throws
        }
        return Some(Allocation(HostOf(existing.origin.value), existing.origin.value, existing.routerId, existing.caps));
      }
      var node := GetBestNode();
      if node.None? {
        return None;
      }
      var origin := "http://" + node.value.address;
      sfu.CreateRouter(node.value, origin, r, reply);
      if !reply.Created? {
        return None;
      }
      redis.roomRouters := redis.roomRouters[r := RouterRecord(node.value.id, reply.id, Some(origin), reply.caps)];
      assert redis.roomRouters == old(redis.roomRouters)[r := redis.roomRouters[r]];
      return Some(Allocation(node.value.address, origin, reply.id, reply.caps));
    }

    method ReleaseRoom(ghost rooms: map<RoomId, Room>, r: RoomId, closed: bool)
      requires Valid()
      modifies redis`roomRouters, sfu
      ensures Cluster(rooms, redis.roomStates, redis.roomRouters, sfu.routers, nodes) ==
              Rooms.ReleaseRoom(old(Cluster(rooms, redis.roomStates, redis.roomRouters, sfu.routers, nodes)), r, closed)
    {
      if r in redis.roomRouters {
        var rec := redis.roomRouters[r];
        if rec.origin.Some? && closed {
          sfu.routers := sfu.routers - {Router(rec.origin.value, rec.routerId)};
        }
      }
      redis.roomRouters := redis.roomRouters - {r};
    }

    method CheckHealth(reports: seq<NodeReport>)
      requires |reports| == |nodes|
      modifies this
      ensures nodes == AfterCheck(old(nodes), reports)
    {
      var i := 0;
      while i < |nodes|
        invariant i <= |nodes| == |old(nodes)|
        invariant forall j :: 0 <= j < i ==> nodes[j] == Checked(old(nodes[j]), reports[j])
        invariant forall j :: i <= j < |nodes| ==> nodes[j] == old(nodes[j])
      {
        match reports[i] {
          case Unreadable =>
            nodes := nodes[i := nodes[i].(healthy := false)];
          case Report(age, routers) =>
            if age.Some? {
              nodes := nodes[i := nodes[i].(healthy := age.value < HEARTBEAT_LIMIT)];
            }
            if routers.Some? {
              nodes := nodes[i := nodes[i].(load := routers.value)];
            }
        }
        i := i + 1;
      }
    }
  }

  class RoomManager {
    var rooms: map<RoomId, Room>
    const sfuManager: SFUManager
    const redis: RedisService

    constructor (sfuManager: SFUManager, redis: RedisService)
      ensures this.sfuManager == sfuManager && this.redis == redis && rooms == map[]
    {
      this.sfuManager, this.redis, rooms := sfuManager, redis, map[];
    }

    ghost predicate Valid() {
      sfuManager.Valid() && sfuManager.redis == redis
    }

    ghost function Tables(): Cluster
      reads this, redis, sfuManager, sfuManager.sfu
    {
      Cluster(rooms, redis.roomStates, redis.roomRouters, sfuManager.sfu.routers, sfuManager.nodes)
    }

    method PersistRoomState(r: RoomId)
      modifies redis`roomStates
      ensures Tables() == Persist(old(Tables()), r)
    {
      if r in rooms {
        redis.roomStates := redis.roomStates[r := SnapshotOf(rooms[r])];
      }
    }

    method LoadRoomState(r: RoomId, now: nat) returns (found: bool)
      modifies this`rooms
      ensures Tables() == Rooms.LoadRoomState(old(Tables()), r, now)
      ensures found <==> r in redis.roomStates && redis.roomStates[r].routerId != ""
    {
      if r !in redis.roomStates || redis.roomStates[r].routerId == "" {
        return false;
      }
      var data := redis.roomStates[r];
      var participants: JsMap<ParticipantId, Participant> := Empty();
      var i := 0;
      while i < |data.participants|
        invariant i <= |data.participants| && rooms == old(rooms)
        invariant participants == Rebuild(RestoreParticipants(data.participants[..i]), ParticipantKey)
      {
        var snap := data.participants[i];
        var p := LoadParticipant(snap);
        participants := Set(participants, snap.id, p);
        RestoreOneMore(data.participants, i);
        i := i + 1;
      }
      assert data.participants[..i] == data.participants;
      rooms := rooms[r := Room(r, data.sfuNode, data.origin, data.routerId, data.caps, participants, now)];
      return true;
    }

    method RestoreRoomFromCluster(r: RoomId, now: nat) returns (found: bool)
      requires r !in rooms
      modifies this`rooms
      ensures Tables() == RestoreRoom(old(Tables()), r, now)
      ensures found <==> r in rooms
    {
      found := LoadRoomState(r, now);
      if found || r !in redis.roomRouters {
        return;
      }
      var rec := redis.roomRouters[r];
      if rec.origin.None? || rec.origin.value == "" || rec.routerId == "" {
        return;
      }
      rooms := rooms[r := Room(r, HostOf(rec.origin.value), rec.origin.value, rec.routerId, rec.caps, Empty(), now)];
      found := true;
    }

    /** None when no room could be had; the caller then sees an exception. */
    method JoinRoom(r: RoomId, user: UserId, role: string, name: string, now: nat, reply: CreateReply)
      returns (joined: Option<ParticipantId>)
      requires Valid()
      modifies this`rooms, redis, sfuManager.sfu
      ensures Tables() == Rooms.JoinRoom(old(Tables()), r, user, role, name, None, now, reply)
      ensures joined == if r in rooms then Some(ParticipantId(user, now)) else None
    {
      var found := r in rooms;
      if !found {
        found := RestoreRoomFromCluster(r, now);
      }
      if !found {
        var a := sfuManager.AllocateRoom(rooms, r, reply);
        if a.None? {
          return None;
        }
        rooms := rooms[r := Room(r, a.value.node, a.value.origin, a.value.routerId, a.value.caps, Empty(), now)];
      }
      var pid := ParticipantId(user, now);
      var room := rooms[r];
      rooms := rooms[r := room.(participants :=
          Set(room.participants, pid, NewParticipant(user, role, name, None, now)))];
      PersistRoomState(r);
      return Some(pid);
    }

    method SetParticipantRtpCapabilities(r: RoomId, pid: ParticipantId, caps: Caps)
      modifies this`rooms
      ensures Tables() == SetCapabilities(old(Tables()), r, pid, Some(caps))
    {
      if r in rooms {
        var room := rooms[r];
        if pid in room.participants.at {
          var p := room.participants.at[pid];
          rooms := rooms[r := room.(participants := Set(room.participants, pid, p.(rtpCapabilities := Some(caps))))];
        }
      }
    }

    method LeaveRoom(r: RoomId, pid: ParticipantId, closed: bool)
      requires Valid()
      modifies this`rooms, redis, sfuManager.sfu
      ensures Tables() == Rooms.LeaveRoom(old(Tables()), r, pid, closed)
    {
      if r in rooms {
        RemoveParticipantEntry(r, pid);
        if rooms[r].participants.at == map[] {
          sfuManager.ReleaseRoom(rooms, r, closed);
          rooms := rooms - {r};
          redis.roomStates := redis.roomStates - {r};
        } else {
          PersistRoomState(r);
        }
      }
    }

    method RemoveParticipantEntry(r: RoomId, pid: ParticipantId)
      modifies this`rooms
      ensures Tables() == RemoveEntry(old(Tables()), r, pid)
    {
      if r in rooms {
        var room := rooms[r];
        rooms := rooms[r := room.(participants := Without(room.participants, {pid}))];
      }
    }

    method DestroyRoom(r: RoomId, closed: bool)
      requires Valid()
      modifies this`rooms, redis, sfuManager.sfu
      ensures Tables() == Rooms.DestroyRoom(old(Tables()), r, closed)
    {
      rooms := rooms - {r};
      redis.roomStates := redis.roomStates - {r};
      sfuManager.ReleaseRoom(rooms, r, closed);
    }

    /** False stands for the exceptions: no such room, no such participant, or the SFU call failed. */
    method CreateTransport(r: RoomId, pid: ParticipantId, direction: Direction, reply: Option<Id>) returns (ok: bool)
      modifies this`rooms, redis`roomStates
      ensures Tables() == Rooms.CreateTransport(old(Tables()), r, pid, direction, reply)
      ensures ok <==> Present(old(Tables()), r, pid) && reply.Some?
    {
      if r !in rooms || pid !in rooms[r].participants.at || reply.None? {
        return false;
      }
      var room := rooms[r];
      var p := room.participants.at[pid];
      if direction == Send {
        rooms := rooms[r := room.(participants := Set(room.participants, pid, p.(send := reply)))];
      } else {
        rooms := rooms[r := room.(participants := Set(room.participants, pid, p.(recv := reply)))];
      }
      PersistRoomState(r);
      return true;
    }

    method Produce(r: RoomId, pid: ParticipantId, kind: Kind, source: string, reply: Option<Id>) returns (ok: bool)
      modifies this`rooms, redis`roomStates
      ensures Tables() == Rooms.Produce(old(Tables()), r, pid, kind, source, reply)
      ensures ok <==> Present(old(Tables()), r, pid) && reply.Some?
    {
      if r !in rooms || pid !in rooms[r].participants.at || reply.None? {
        return false;
      }
      var room := rooms[r];
      var p := room.participants.at[pid];
      var producers := Set(p.producers, reply.value, Producer(reply.value, kind, source, false));
      rooms := rooms[r := room.(participants := Set(room.participants, pid, p.(producers := producers)))];
      PersistRoomState(r);
      return true;
    }

    method RemoveConsumer(r: RoomId, pid: ParticipantId, consumer: Id)
      modifies this`rooms
      ensures !Present(old(Tables()), r, pid) ==> rooms == old(rooms)
      ensures Present(old(Tables()), r, pid) ==>
                var p := old(rooms)[r].participants.at[pid];
                Tables() == SetParticipant(old(Tables()), r, pid, p.(consumers := Without(p.consumers, {consumer})))
    {
      if r in rooms {
        var room := rooms[r];
        if pid in room.participants.at {
          var p := room.participants.at[pid];
          rooms := rooms[r := room.(participants :=
              Set(room.participants, pid, p.(consumers := Without(p.consumers, {consumer}))))];
        }
      }
    }

    method FindProducerKind(r: RoomId, producer: Id) returns (kind: Option<Kind>)
      ensures kind.Some? <==> HasProducer(Tables(), r, producer)
      ensures kind.Some? ==> r in rooms && FirstHolds(rooms[r].participants, producer, kind.value)
    {
      if r !in rooms {
        return None;
      }
      var participants := rooms[r].participants;
      var i := 0;
      while i < |participants.order|
        invariant i <= |participants.order|
        invariant forall j :: 0 <= j < i ==> producer !in participants.at[participants.order[j]].producers.at
      {
        var pid := participants.order[i];
        if producer in participants.at[pid].producers.at {
          return Some(participants.at[pid].producers.at[producer].kind);
        }
        i := i + 1;
      }
      return None;
    }

    method Consume(r: RoomId, pid: ParticipantId, producer: Id, reply: ConsumeReply) returns (consumer: Option<Id>)
      modifies this`rooms, redis`roomStates
      ensures (Tables(), consumer) == Rooms.Consume(old(Tables()), r, pid, producer, reply)
    {
      if r !in rooms || pid !in rooms[r].participants.at {
        return None;
      }
      var room := rooms[r];
      var p := room.participants.at[pid];
      if p.recv.None? || p.recv.value == "" || !reply.Consuming? {
        return None;
      }
      var consumers := Set(p.consumers, reply.id, Consumer(reply.id, producer, reply.kind, true));
      rooms := rooms[r := room.(participants := Set(room.participants, pid, p.(consumers := consumers)))];
      PersistRoomState(r);
      return Some(reply.id);
    }

    method CloseProducer(r: RoomId, producer: Id, ok: bool) returns (done: bool)
      modifies this`rooms, redis`roomStates
      ensures Tables() == Rooms.CloseProducer(old(Tables()), r, producer, ok)
      ensures done <==> r in old(rooms) && ok
    {
      if r !in rooms || !ok {
        return false;
      }
      DeleteEverywhere(r, producer);
      PersistRoomState(r);
      return true;
    }

    method DeleteEverywhere(r: RoomId, producer: Id)
      requires r in rooms
      modifies this`rooms
      ensures var room := old(rooms)[r];
              rooms == old(rooms)[r := room.(participants := StripProducers(room.participants, {producer}))]
    {
      hide StripsFirst, Without, Set, SnapshotOf;
      var room := rooms[r];
      var i := 0;
      NothingStripped(room.participants, {producer});
      while i < |room.participants.order|
        invariant i <= |room.participants.order|
        invariant r in rooms && rooms == old(rooms)[r := room.(participants := rooms[r].participants)]
        invariant StripsFirst(room.participants, {producer}, i, rooms[r].participants)
      {
        StripsNext(room.participants, {producer}, i, rooms[r].participants);
        DeleteProducer(r, room.participants.order[i], producer);
        i := i + 1;
      }
      StripsEvery(room.participants, {producer}, rooms[r].participants);
    }

    method DeleteProducer(r: RoomId, pid: ParticipantId, producer: Id)
      requires r in rooms && pid in rooms[r].participants.at
      modifies this`rooms
      ensures var room := old(rooms)[r];
              var p := room.participants.at[pid];
              rooms == old(rooms)[r := room.(participants :=
                  Set(room.participants, pid, p.(producers := Without(p.producers, {producer}))))]
    {
      var room := rooms[r];
      var p := room.participants.at[pid];
      rooms := rooms[r := room.(participants :=
          Set(room.participants, pid, p.(producers := Without(p.producers, {producer}))))];
    }

    method FindParticipantByUserId(r: RoomId, user: UserId) returns (found: Option<ParticipantId>)
      ensures found == FindByUser(Tables(), r, user)
    {
      if r !in rooms {
        return None;
      }
      var ps := Values(rooms[r].participants);
      var i := 0;
      while i < |ps|
        invariant i <= |ps| && FirstWithUser(ps, user) == FirstWithUser(ps[i..], user)
      {
        if ps[i].user == user {
          return Some(ps[i].id);
        }
        assert ps[i..][1..] == ps[i + 1..];
        i := i + 1;
      }
      assert ps[i..] == [];
      return None;
    }
  }

  method LoadParticipant(snap: ParticipantSnapshot) returns (p: Participant)
    ensures p == RestoreParticipant(snap)
  {
    var producers := RebuildMap(snap.producers, ProducerKey);
    var consumers := RebuildMap(snap.consumers, ConsumerKey);
    return Participant(snap.id, snap.user, snap.name, snap.role, None, snap.send, snap.recv, producers, consumers);
  }

  method RebuildMap<K(==), V>(vs: seq<V>, key: V -> K) returns (m: JsMap<K, V>)
    ensures m == Rebuild(vs, key)
  {
    m := Empty();
    var i := 0;
    while i < |vs|
      invariant i <= |vs| && m == Rebuild(vs[..i], key)
    {
      assert vs[..i + 1][..i] == vs[..i];
      m := Set(m, key(vs[i]), vs[i]);
      i := i + 1;
    }
    assert vs[..i] == vs;
  }

  lemma RestoreOneMore(ss: seq<ParticipantSnapshot>, i: nat)
    requires i < |ss|
    ensures Rebuild(RestoreParticipants(ss[..i + 1]), ParticipantKey) ==
            Set(Rebuild(RestoreParticipants(ss[..i]), ParticipantKey), ss[i].id, RestoreParticipant(ss[i]))
  {
    assert RestoreParticipants(ss[..i + 1])[..i] == RestoreParticipants(ss[..i]);
  }

  /** `now` is `before` after the first `n` participants lost the producers in `gone`. */
  ghost predicate StripsFirst(before: JsMap<ParticipantId, Participant>, gone: set<Id>, n: nat,
                              now: JsMap<ParticipantId, Participant>)
    requires n <= |before.order|
  {
    && now.order == before.order && now.at.Keys == before.at.Keys
    && (forall pid | pid in before.at && pid in before.order[..n] ::
         now.at[pid] == before.at[pid].(producers := Without(before.at[pid].producers, gone)))
    && (forall pid | pid in before.at && pid !in before.order[..n] :: now.at[pid] == before.at[pid])
  }

  lemma NothingStripped(m: JsMap<ParticipantId, Participant>, gone: set<Id>)
    ensures StripsFirst(m, gone, 0, m)
  {
  }

  lemma StripsNext(before: JsMap<ParticipantId, Participant>, gone: set<Id>, n: nat,
                   now: JsMap<ParticipantId, Participant>)
    requires n < |before.order| && StripsFirst(before, gone, n, now)
    ensures before.order[n] in now.at
    ensures var p := now.at[before.order[n]];
            StripsFirst(before, gone, n + 1, Set(now, before.order[n], p.(producers := Without(p.producers, gone))))
  {
    hide Without;
    var pid := before.order[n];
    assert before.order[..n + 1] == before.order[..n] + [pid] && pid !in before.order[..n];
    assert pid in before.at && now.at[pid] == before.at[pid];
  }

  lemma StripsEvery(before: JsMap<ParticipantId, Participant>, gone: set<Id>, now: JsMap<ParticipantId, Participant>)
    requires StripsFirst(before, gone, |before.order|, now)
    ensures now == StripProducers(before, gone)
  {
    assert before.order[..|before.order|] == before.order;
    StripIsStripped(before, gone);
    StrippedOnce(before, now, StripProducers(before, gone), gone);
  }
}

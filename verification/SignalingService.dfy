/** The signaling server as an object: its handlers update connected clients and the managers in place. */
module SignalingService {
  import opened Options
  import opened JsMaps
  import opened RoomTypes
  import opened Rooms
  import opened Membership
  import opened Tables
  import opened Signaling
  import opened Services
  import opened Cleanup
  import opened SignalingRuns

  class ConnectedClient {
    const id: ClientId
    var user: Option<UserId>
    var room: Option<RoomId>
    var participant: Option<ParticipantId>
    var transports: set<Id>
    var producers: set<Id>
    var consumers: set<Id>
    var inbox: Inbox              // what was sent over the client's socket

    constructor (id: ClientId)
      ensures this.id == id && View() == NEW_CLIENT
    {
      this.id := id;
      user, room, participant := None, None, None;
      transports, producers, consumers := {}, {}, {};
      inbox := Nothing;
    }

    ghost function View(): Client
      reads this
    {
      Client(user, room, participant, transports, producers, consumers, inbox)
    }

    method Send(e: Event)
      modifies this`inbox
      ensures inbox == Received(old(inbox), e)
    {
      inbox := Received(inbox, e);
    }

    method ForgetRoom()
      modifies this
      ensures View() == Cleared(old(View()))
    {
      room, participant := None, None;
      transports, producers, consumers := {}, {}, {};
    }
  }

  class SignalingServer {
    var clients: map<ClientId, ConnectedClient>
    const roomManager: RoomManager

    constructor (roomManager: RoomManager)
      ensures this.roomManager == roomManager && clients == map[]
    {
      this.roomManager, clients := roomManager, map[];
    }

    ghost predicate Valid()
      reads this
    {
      roomManager.Valid() && Named()
    }

    ghost predicate Named()
      reads this
    {
      forall c | c in clients :: clients[c].id == c
    }

    ghost function View(): Clients
      reads this, clients.Values
    {
      map c | c in clients :: clients[c].View()
    }

    ghost function State(): Server
      reads this, clients.Values
      reads roomManager, roomManager.redis, roomManager.sfuManager, roomManager.sfuManager.sfu
    {
      Server(View(), roomManager.Tables())
    }

    method BroadcastToRoom(r: RoomId, exclude: ClientId, e: Event)
      requires Named()
      modifies clients.Values
      ensures View() == Broadcast(old(View()), r, exclude, e)
    {
      var todo := clients.Keys;
      while todo != {}
        invariant todo <= clients.Keys
        invariant forall x | x in todo :: clients[x].View() == old(clients[x].View())
        invariant forall x | x in clients.Keys - todo ::
                    clients[x].View() == Heard(old(clients[x].View()), x, r, exclude, e)
        decreases |todo|
      {
        var c :| c in todo;
        var client := clients[c];
        if client.room == Some(r) && client.id != exclude {
          client.Send(e);
        }
        todo := todo - {c};
      }
      EveryoneHeard(old(View()), View(), r, exclude, e);
    }

    /** The lingering socket of a participant that reconnects as `keep` forgets its room. */
    method EvictOldClients(pid: ParticipantId, keep: ClientId)
      requires Named()
      modifies clients.Values
      ensures View() == Evict(old(View()), {pid}, keep)
    {
      var todo := clients.Keys;
      while todo != {}
        invariant todo <= clients.Keys
        invariant forall x | x in todo :: clients[x].View() == old(clients[x].View())
        invariant forall x | x in clients.Keys - todo ::
                    clients[x].View() == Evicted(old(clients[x].View()), x, pid, keep)
        decreases |todo|
      {
        var c :| c in todo;
        var client := clients[c];
        if client.participant == Some(pid) && client.id != keep {
          client.ForgetRoom();
        }
        todo := todo - {c};
      }
      EveryoneEvicted(old(View()), View(), pid, keep);
    }

    method HandleConnection(c: ClientId)
      requires Valid() && c !in clients
      modifies this`clients
      ensures Valid() && State() == Connect(old(State()), c)
    {
      var client := new ConnectedClient(c);
      clients := clients[c := client];
    }

    method HandleAuthenticate(c: ClientId, user: UserId)
      requires Valid() && c in clients
      modifies clients.Values
      ensures Valid() && State() == Authenticate(old(State()), c, user)
    {
      clients[c].user := Some(user);
    }

    method HandleJoinRoom(c: ClientId, r: RoomId, role: string, name: string, caps: Option<Caps>, now: nat,
                          reply: CreateReply)
      requires Valid() && c in clients
      modifies clients.Values, roomManager`rooms, roomManager.redis, roomManager.sfuManager.sfu
      ensures Valid() && State() == HandleJoin(old(State()), c, r, role, name, caps, now, reply)
    {
      var client := clients[c];
      if client.user.None? {
        return;
      }
      var user := client.user.value;
      var previous := roomManager.FindParticipantByUserId(r, user);
      DropOldParticipant(c, r, previous);
      AdmitClient(c, r, user, role, name, caps, now, reply, previous.Some?);
    }

    method DropOldParticipant(c: ClientId, r: RoomId, previous: Option<ParticipantId>)
      requires Valid() && c in clients
      modifies clients.Values, roomManager`rooms
      ensures State() == DropOldEntry(old(State()), c, r, previous)
    {
      if previous.Some? {
        EvictOldClients(previous.value, c);
        roomManager.RemoveParticipantEntry(r, previous.value);
      }
    }

    method AdmitClient(c: ClientId, r: RoomId, user: UserId, role: string, name: string, caps: Option<Caps>, now: nat,
                       reply: CreateReply, isReconnect: bool)
      requires Valid() && c in clients
      modifies clients.Values, roomManager`rooms, roomManager.redis, roomManager.sfuManager.sfu
      ensures Valid() && State() == FinishJoin(old(State()), c, r, user, role, name, caps, now, reply, isReconnect)
    {
      hide FinishJoin, Rooms.JoinRoom, SetCapabilities, Announced, JoinedEvent;
      var pid := roomManager.JoinRoom(r, user, role, name, now, reply);
      if pid.Some? && caps.Some? {
        roomManager.SetParticipantRtpCapabilities(r, pid.value, caps.value);
      }
      CapabilitiesAfterJoin(old(roomManager.Tables()), r, user, role, name, caps, now, reply);
      if pid.Some? {
        AnnounceJoin(c, r, pid.value, roomManager.rooms[r],
                     ParticipantJoined(pid.value, user, name, role, isReconnect), isReconnect);
      }
      FinishJoinIs(old(State()), roomManager.Tables(), c, r, user, role, name, caps, now, reply, isReconnect);
    }

    method AnnounceJoin(c: ClientId, r: RoomId, pid: ParticipantId, room: Room, e: Event, isReconnect: bool)
      requires Named() && c in clients
      modifies clients.Values
      ensures View() == Announced(old(View()), c, r, pid, JoinedEvent(room, r, pid, isReconnect), e)
    {
      var client := clients[c];
      client.room, client.participant := Some(r), Some(pid);
      client.Send(RoomJoined(r, pid, Others(Values(room.participants), pid), isReconnect));
      assert View() == old(View())[c := Entered(old(client.View()), r, pid, JoinedEvent(room, r, pid, isReconnect))];
      BroadcastToRoom(r, c, e);
    }

    method HandleLeaveRoom(c: ClientId, failing: set<Id>, closed: bool)
      requires Valid() && c in clients
      modifies clients.Values, roomManager`rooms, roomManager.redis, roomManager.sfuManager.sfu
      ensures Valid() && State() == HandleLeave(old(State()), c, failing, closed)
    {
      CleanupClientRoom(c, failing, closed);
    }

    method HandleClose(c: ClientId, failing: set<Id>, closed: bool)
      requires Valid() && c in clients
      modifies this`clients, clients.Values, roomManager`rooms, roomManager.redis, roomManager.sfuManager.sfu
      ensures Valid() && State() == HandleDisconnect(old(State()), c, failing, closed)
    {
      hide HandleLeave;
      CleanupClientRoom(c, failing, closed);
      ghost var left := View();
      clients := clients - {c};
      assert View() == left - {c};
    }

    method CleanupClientRoom(c: ClientId, failing: set<Id>, closed: bool)
      requires Valid() && c in clients
      modifies clients.Values, roomManager`rooms, roomManager.redis, roomManager.sfuManager.sfu
      ensures Valid() && State() == HandleLeave(old(State()), c, failing, closed)
    {
      hide Rooms.LeaveRoom, StripIfThere, Broadcast, Signaling.HandleLeave;
      HandleLeaveCases(State(), c, failing, closed);
      var client := clients[c];
      if client.room.None? || client.room.value == "" || client.participant.None? {
        return;
      }
      var r, pid := client.room.value, client.participant.value;
      RetireParticipant(client, r, pid, failing, closed);
      SayGoodbye(c, r, pid);
    }

    /** Closes the producers one by one, drops the consumers one by one, then leaves the room. */
    method RetireParticipant(client: ConnectedClient, r: RoomId, pid: ParticipantId, failing: set<Id>, closed: bool)
      requires roomManager.Valid()
      modifies roomManager`rooms, roomManager.redis, roomManager.sfuManager.sfu
      ensures roomManager.Tables() ==
                LeaveRoom(StripIfThere(old(roomManager.Tables()), r, client.producers - failing), r, pid, closed)
    {
      hide Rooms.LeaveRoom;
      ghost var target := StripIfThere(roomManager.Tables(), r, client.producers - failing);
      CloseProducers(client, r, failing);
      RemoveConsumers(client, r, pid, target);
      if r in target.rooms {
        LeavesAlike(roomManager.Tables(), target, r, pid, closed);
      }
      roomManager.LeaveRoom(r, pid, closed);
    }

    method CloseProducers(client: ConnectedClient, r: RoomId, failing: set<Id>)
      modifies roomManager`rooms, roomManager.redis`roomStates
      ensures LagsAt(roomManager.Tables(), StripIfThere(old(roomManager.Tables()), r, client.producers - failing), r)
      ensures r !in old(roomManager.rooms) ==> roomManager.Tables() == old(roomManager.Tables())
    {
      hide Rooms.CloseProducer, Cleanup.LagsAt, StripIfThere;
      ghost var w := roomManager.Tables();
      var todo := client.producers;
      assert client.producers - todo - failing == {};
      NothingClosed(w, r);
      while todo != {}
        invariant todo <= client.producers
        invariant LagsAt(roomManager.Tables(), StripIfThere(w, r, client.producers - todo - failing), r)
        invariant r !in w.rooms ==> roomManager.Tables() == w
        decreases |todo|
      {
        var k :| k in todo;
        OneMoreClosed(w, roomManager.Tables(), r, client.producers - todo - failing, k, k !in failing);
        assert client.producers - (todo - {k}) - failing ==
               client.producers - todo - failing + if k in failing then {} else {k};
        var done := roomManager.CloseProducer(r, k, k !in failing);
        todo := todo - {k};
      }
      assert client.producers - todo - failing == client.producers - failing;
    }

    method RemoveConsumers(client: ConnectedClient, r: RoomId, pid: ParticipantId, ghost target: Cluster)
      requires LagsAt(roomManager.Tables(), target, r)
      modifies roomManager`rooms
      ensures r in target.rooms ==> LeavesAs(roomManager.Tables(), target, r, pid)
      ensures r !in target.rooms ==> roomManager.Tables() == old(roomManager.Tables())
    {
      if r in target.rooms {
        LagLeavesAs(roomManager.Tables(), target, r, pid);
      }
      var todo := client.consumers;
      while todo != {}
        invariant todo <= client.consumers
        invariant r in target.rooms ==> LeavesAs(roomManager.Tables(), target, r, pid)
        invariant r !in target.rooms ==> roomManager.Tables() == old(roomManager.Tables())
        decreases |todo|
      {
        var k :| k in todo;
        ghost var before := roomManager.Tables();
        roomManager.RemoveConsumer(r, pid, k);
        if Present(before, r, pid) {
          var p := before.rooms[r].participants.at[pid];
          ReplaceLeavesAs(before, target, r, pid, p.(consumers := Without(p.consumers, {k})));
        }
        todo := todo - {k};
      }
    }

    method SayGoodbye(c: ClientId, r: RoomId, pid: ParticipantId)
      requires Named() && c in clients
      modifies clients.Values
      ensures View() == Broadcast(old(View()), r, c, ParticipantLeft(pid))[c := Cleared(old(View())[c])]
    {
      BroadcastToRoom(r, c, ParticipantLeft(pid));
      clients[c].ForgetRoom();
    }

    method Owns(c: ClientId, transports: set<Id>, producers: set<Id>, consumers: set<Id>)
      requires Named() && c in clients
      modifies clients.Values
      ensures View() == old(View())[c := old(View())[c].(transports := transports, producers := producers,
                                                         consumers := consumers)]
    {
      var client := clients[c];
      client.transports, client.producers, client.consumers := transports, producers, consumers;
    }

    method OwnsAndTells(c: ClientId, producers: set<Id>, r: RoomId, e: Event)
      requires Named() && c in clients
      modifies clients.Values
      ensures View() == Broadcast(old(View())[c := old(View())[c].(producers := producers)], r, c, e)
    {
      hide Broadcast;
      Owns(c, clients[c].transports, producers, clients[c].consumers);
      BroadcastToRoom(r, c, e);
    }

    method HandleCreateTransport(c: ClientId, direction: Direction, reply: Option<Id>)
      requires Valid() && c in clients
      modifies clients.Values, roomManager`rooms, roomManager.redis`roomStates
      ensures Valid() && State() == Signaling.HandleCreateTransport(old(State()), c, direction, reply)
    {
      hide Rooms.CreateTransport, Rooms.Present, Signaling.HandleCreateTransport;
      HandleCreateTransportCases(State(), c, direction, reply);
      var client := clients[c];
      if client.room.None? || client.room.value == "" || client.participant.None? {
        return;
      }
      var ok := roomManager.CreateTransport(client.room.value, client.participant.value, direction, reply);
      if ok {
        Owns(c, client.transports + {reply.value}, client.producers, client.consumers);
      }
    }

    method HandleProduce(c: ClientId, kind: Kind, source: string, reply: Option<Id>)
      requires Valid() && c in clients
      modifies clients.Values, roomManager`rooms, roomManager.redis`roomStates
      ensures Valid() && State() == Signaling.HandleProduce(old(State()), c, kind, source, reply)
    {
      hide Rooms.Produce, Rooms.Present, Broadcast, Signaling.HandleProduce;
      HandleProduceCases(State(), c, kind, source, reply);
      var client := clients[c];
      if client.room.None? || client.room.value == "" || client.participant.None? {
        return;
      }
      var ok := roomManager.Produce(client.room.value, client.participant.value, kind, source, reply);
      if ok {
        OwnsAndTells(c, client.producers + {reply.value}, client.room.value,
                     NewProducer(reply.value, client.participant.value, kind));
      }
    }

    method HandleConsume(c: ClientId, producer: Id, reply: ConsumeReply)
      requires Valid() && c in clients
      modifies clients.Values, roomManager`rooms, roomManager.redis`roomStates
      ensures Valid() && State() == Signaling.HandleConsume(old(State()), c, producer, reply)
    {
      hide Rooms.Consume, Rooms.HasProducer, FirstHolds, Signaling.HandleConsume, InRoom;
      HandleConsumeCases(State(), c, producer, reply);
      var client := clients[c];
      InRoomIs(client.View());
      if client.room.None? || client.room.value == "" || client.participant.None? {
        return;
      }
      var kind := roomManager.FindProducerKind(client.room.value, producer);
      if kind.None? {
        return;
      }
      var consumer := roomManager.Consume(client.room.value, client.participant.value, producer, reply);
      assert roomManager.Valid() && Named() && View() == old(View());
      if consumer.Some? {
        Owns(c, client.transports, client.producers, client.consumers + {consumer.value});
      }
    }

    method HandleCloseProducer(c: ClientId, producer: Id, ok: bool)
      requires Valid() && c in clients
      modifies clients.Values, roomManager`rooms, roomManager.redis`roomStates
      ensures Valid() && State() == Signaling.HandleCloseProducer(old(State()), c, producer, ok)
    {
      hide Rooms.CloseProducer, Broadcast, Signaling.HandleCloseProducer;
      HandleCloseProducerCases(State(), c, producer, ok);
      var client := clients[c];
      if client.room.None? || client.room.value == "" || producer !in client.producers {
        return;
      }
      var done := roomManager.CloseProducer(client.room.value, producer, ok);
      if done {
        OwnsAndTells(c, client.producers - {producer}, client.room.value, ProducerClosed(producer));
      }
    }
  }

  predicate IsMessage(step: Step) {
    match step
    case Authenticating(_, _) => true
    case Joining(_, _, _, _, _, _, _) => true
    case Leaving(_, _, _) => true
    case CreatingTransport(_, _, _) => true
    case Producing(_, _, _, _) => true
    case ConsumingFrom(_, _, _) => true
    case ClosingProducer(_, _, _) => true
    case _ => false
  }

  /** handleMessage's dispatch, with what the whole-run results need of it. */
  method HandleMessage(server: SignalingServer, message: Step)
    requires server.Valid() && IsMessage(message) && Known(server.State(), message)
    modifies server.clients.Values, server.roomManager`rooms, server.roomManager.redis,
        server.roomManager.sfuManager.sfu
    ensures server.Valid() && server.State() == Next(old(server.State()), message)
    ensures Inv(old(server.State())) && Disciplined(old(server.State()), message) ==> Inv(server.State())
  {
    hide *;
    ghost var before := server.State();
    Dispatch(server, message);
    if Inv(before) && Disciplined(before, message) {
      StepKeeps(before, message);
    }
  }

  method Dispatch(server: SignalingServer, message: Step)
    requires server.Valid() && IsMessage(message) && Known(server.State(), message)
    modifies server.clients.Values, server.roomManager`rooms, server.roomManager.redis,
        server.roomManager.sfuManager.sfu
    ensures server.Valid() && server.State() == Next(old(server.State()), message)
  {
    hide Signaling.Authenticate, Signaling.HandleJoin, Signaling.HandleLeave, Signaling.HandleCreateTransport,
         Signaling.HandleProduce, Signaling.HandleConsume, Signaling.HandleCloseProducer;
    match message
    case Authenticating(c, user) => server.HandleAuthenticate(c, user);
    case Joining(c, r, role, name, caps, now, reply) => server.HandleJoinRoom(c, r, role, name, caps, now, reply);
    case Leaving(c, failing, closed) => server.HandleLeaveRoom(c, failing, closed);
    case CreatingTransport(c, direction, reply) => server.HandleCreateTransport(c, direction, reply);
    case Producing(c, kind, source, reply) => server.HandleProduce(c, kind, source, reply);
    case ConsumingFrom(c, producer, reply) => server.HandleConsume(c, producer, reply);
    case ClosingProducer(c, producer, ok) => server.HandleCloseProducer(c, producer, ok);
  }

  lemma InRoomIs(c: Client)
    ensures InRoom(c) <==> !(c.room.None? || c.room.value == "" || c.participant.None?)
  {
  }

  lemma HandleCreateTransportCases(s: Server, c: ClientId, direction: Direction, reply: Option<Id>)
    requires c in s.clients
    ensures var me := s.clients[c];
            if !InRoom(me) then Signaling.HandleCreateTransport(s, c, direction, reply) == s
            else
              var w := Rooms.CreateTransport(s.cluster, me.room.value, me.participant.value, direction, reply);
              if Present(s.cluster, me.room.value, me.participant.value) && reply.Some?
              then Signaling.HandleCreateTransport(s, c, direction, reply) ==
                   Server(s.clients[c := me.(transports := me.transports + {reply.value})], w)
              else w == s.cluster && Signaling.HandleCreateTransport(s, c, direction, reply) == s
  {
  }

  lemma HandleProduceCases(s: Server, c: ClientId, kind: Kind, source: string, reply: Option<Id>)
    requires c in s.clients
    ensures var me := s.clients[c];
            if !InRoom(me) then Signaling.HandleProduce(s, c, kind, source, reply) == s
            else
              var w := Rooms.Produce(s.cluster, me.room.value, me.participant.value, kind, source, reply);
              if Present(s.cluster, me.room.value, me.participant.value) && reply.Some?
              then Signaling.HandleProduce(s, c, kind, source, reply) ==
                   Server(Broadcast(s.clients[c := me.(producers := me.producers + {reply.value})], me.room.value, c,
                                    NewProducer(reply.value, me.participant.value, kind)), w)
              else w == s.cluster && Signaling.HandleProduce(s, c, kind, source, reply) == s
  {
  }

  lemma HandleConsumeCases(s: Server, c: ClientId, producer: Id, reply: ConsumeReply)
    requires c in s.clients
    ensures var me := s.clients[c];
            if !InRoom(me) || !HasProducer(s.cluster, me.room.value, producer)
            then Signaling.HandleConsume(s, c, producer, reply) == s
            else
              var (w, id) := Rooms.Consume(s.cluster, me.room.value, me.participant.value, producer, reply);
              if id.None? then w == s.cluster && Signaling.HandleConsume(s, c, producer, reply) == s
              else Signaling.HandleConsume(s, c, producer, reply) ==
                   Server(s.clients[c := me.(consumers := me.consumers + {id.value})], w)
  {
  }

  lemma HandleCloseProducerCases(s: Server, c: ClientId, producer: Id, ok: bool)
    requires c in s.clients
    ensures var me := s.clients[c];
            if me.room.None? || me.room.value == "" || producer !in me.producers
            then Signaling.HandleCloseProducer(s, c, producer, ok) == s
            else
              var w := Rooms.CloseProducer(s.cluster, me.room.value, producer, ok);
              if me.room.value in s.cluster.rooms && ok
              then Signaling.HandleCloseProducer(s, c, producer, ok) ==
                   Server(Broadcast(s.clients[c := me.(producers := me.producers - {producer})], me.room.value, c,
                                    ProducerClosed(producer)), w)
              else w == s.cluster && Signaling.HandleCloseProducer(s, c, producer, ok) == s
  {
  }

  lemma HandleLeaveCases(s: Server, c: ClientId, failing: set<Id>, closed: bool)
    requires c in s.clients
    ensures var me := s.clients[c];
            HandleLeave(s, c, failing, closed) ==
            if !InRoom(me) then s
            else
              var r, pid := me.room.value, me.participant.value;
              Server(Broadcast(s.clients, r, c, ParticipantLeft(pid))[c := Cleared(me)],
                     LeaveRoom(StripIfThere(s.cluster, r, me.producers - failing), r, pid, closed))
  {
  }

  function StripIfThere(w: Cluster, r: RoomId, gone: set<Id>): Cluster {
    if r in w.rooms then StripRoom(w, r, gone) else w
  }

  lemma NothingClosed(w: Cluster, r: RoomId)
    ensures LagsAt(w, StripIfThere(w, r, {}), r)
  {
    if r in w.rooms {
      StripNothing(w, r);
    }
  }

  lemma OneMoreClosed(w: Cluster, now: Cluster, r: RoomId, gone: set<Id>, k: Id, ok: bool)
    requires LagsAt(now, StripIfThere(w, r, gone), r)
    requires r !in w.rooms ==> now == w
    ensures LagsAt(Rooms.CloseProducer(now, r, k, ok), StripIfThere(w, r, gone + if ok then {k} else {}), r)
    ensures r !in w.rooms ==> Rooms.CloseProducer(now, r, k, ok) == w
  {
    if r in w.rooms {
      CloseOne(w, now, r, gone, k, ok);
      assert ok || gone + {} == gone;
    }
  }

  function Heard(c: Client, x: ClientId, r: RoomId, exclude: ClientId, e: Event): Client {
    if c.room == Some(r) && x != exclude then c.(inbox := Received(c.inbox, e)) else c
  }

  lemma EveryoneHeard(before: Clients, after: Clients, r: RoomId, exclude: ClientId, e: Event)
    requires before.Keys == after.Keys && forall x | x in before :: after[x] == Heard(before[x], x, r, exclude, e)
    ensures after == Broadcast(before, r, exclude, e)
  {
  }

  function Evicted(c: Client, x: ClientId, pid: ParticipantId, keep: ClientId): Client {
    if c.participant == Some(pid) && x != keep then Cleared(c) else c
  }

  lemma EveryoneEvicted(before: Clients, after: Clients, pid: ParticipantId, keep: ClientId)
    requires before.Keys == after.Keys && forall x | x in before :: after[x] == Evicted(before[x], x, pid, keep)
    ensures after == Evict(before, {pid}, keep)
  {
  }

  ghost function Announced(clients: Clients, c: ClientId, r: RoomId, pid: ParticipantId, joined: Event,
                           e: Event): Clients
    requires c in clients
  {
    Broadcast(clients[c := Entered(clients[c], r, pid, joined)], r, c, e)
  }

  lemma SetTwice(m: JsMap<ParticipantId, Participant>, pid: ParticipantId, p: Participant, q: Participant)
    ensures Set(Set(m, pid, p), pid, q) == Set(m, pid, q)
  {
  }

  /** Redis does not hold capabilities. */
  lemma SnapshotWithoutCapabilities(room: Room, pid: ParticipantId, p: Participant, caps: Option<Caps>)
    ensures SnapshotOf(room.(participants := Set(room.participants, pid, p))) ==
            SnapshotOf(room.(participants := Set(room.participants, pid, p.(rtpCapabilities := caps))))
  {
  }

  lemma CapabilitiesInPlace(w: Cluster, r: RoomId, p: Participant, caps: Option<Caps>)
    requires r in w.rooms && caps.Some?
    ensures SetCapabilities(Persist(SetParticipant(w, r, p.id, p), r), r, p.id, caps) ==
            Persist(SetParticipant(w, r, p.id, p.(rtpCapabilities := caps)), r)
  {
    hide SnapshotOf;
    var room := w.rooms[r];
    SnapshotWithoutCapabilities(room, p.id, p, caps);
    SetTwice(room.participants, p.id, p, p.(rtpCapabilities := caps));
    var a := room.(participants := Set(room.participants, p.id, p));
    var b := room.(participants := Set(room.participants, p.id, p.(rtpCapabilities := caps)));
    assert w.rooms[r := a][r := b] == w.rooms[r := b];
  }

  /** So it makes no difference that they are set after the room was persisted. */
  lemma CapabilitiesAfterJoin(w: Cluster, r: RoomId, user: UserId, role: string, name: string, caps: Option<Caps>,
                              now: nat, reply: CreateReply)
    ensures var bare := JoinRoom(w, r, user, role, name, None, now, reply);
            && JoinRoom(w, r, user, role, name, caps, now, reply) ==
               (if r in bare.rooms && caps.Some? then SetCapabilities(bare, r, ParticipantId(user, now), caps)
                   else bare)
            && (r in bare.rooms <==> r in JoinRoom(w, r, user, role, name, caps, now, reply).rooms)
  {
    hide OpenRoom, SnapshotOf, SetCapabilities;
    var open := OpenRoom(w, r, now, reply);
    if r in open.rooms && caps.Some? {
      CapabilitiesInPlace(open, r, NewParticipant(user, role, name, None, now), caps);
    }
  }

  lemma FinishJoinIs(s: Server, w: Cluster, c: ClientId, r: RoomId, user: UserId, role: string, name: string,
                     caps: Option<Caps>, now: nat, reply: CreateReply, isReconnect: bool)
    requires c in s.clients && w == JoinRoom(s.cluster, r, user, role, name, caps, now, reply)
    ensures var pid := ParticipantId(user, now);
            FinishJoin(s, c, r, user, role, name, caps, now, reply, isReconnect) ==
            if r !in w.rooms then s.(cluster := w)
            else Server(Announced(s.clients, c, r, pid, JoinedEvent(w.rooms[r], r, pid, isReconnect),
                                  ParticipantJoined(pid, user, name, role, isReconnect)), w)
  {
  }
}

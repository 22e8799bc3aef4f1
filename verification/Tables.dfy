/**
 * The client table against the participant tables: what entering, leaving and producing do to both, and what that
 * keeps.
 */
module Tables {
  import opened Options
  import opened RoomTypes
  import opened Membership

  datatype Client = Client(
    user: Option<UserId>, room: Option<RoomId>, participant: Option<ParticipantId>,
    transports: set<Id>, producers: set<Id>, consumers: set<Id>, inbox: Inbox)

  type Clients = map<ClientId, Client>
  datatype Tables = Tables(clients: Clients, rooms: map<RoomId, Seats>)

  function Cleared(c: Client): Client {
    c.(room := None, participant := None, transports := {}, producers := {}, consumers := {})
  }

  /** broadcastToRoom: everyone in the room but the sender gets the message. */
  function Broadcast(clients: Clients, r: RoomId, sender: ClientId, e: Event): Clients {
    map x | x in clients ::
      if clients[x].room == Some(r) && x != sender then clients[x].(inbox := Received(clients[x].inbox, e))
          else clients[x]
  }

  // ---- what "in step" means ----------------------------------------------------------------------

  ghost predicate Plays(t: Tables, c: ClientId, r: RoomId, pid: ParticipantId) {
    c in t.clients && t.clients[c].room == Some(r) && t.clients[c].participant == Some(pid)
  }

  ghost predicate Seated(t: Tables, r: RoomId, pid: ParticipantId) {
    r in t.rooms && pid in t.rooms[r]
  }

  /** A client in no room owns nothing; a client in a room owns exactly what its participant record lists. */
  ghost predicate ClientInStep(c: Client, rooms: map<RoomId, Seats>) {
    && (c.room.None? ==> c == Cleared(c))
    && (c.room.Some? ==>
          && c.room.value != "" && c.participant.Some?
          && c.room.value in rooms && c.participant.value in rooms[c.room.value]
          && Owns(c, rooms[c.room.value][c.participant.value]))
  }

  ghost predicate Owns(c: Client, p: Seat) {
    && c.producers == p.producers.Keys
    && c.consumers == p.consumers
    && (p.send.Some? ==> p.send.value in c.transports)
    && (p.recv.Some? ==> p.recv.value in c.transports)
  }

  ghost predicate SeatsSound(seats: Seats) {
    && seats != map[]
    && (forall pid | pid in seats :: seats[pid].id == pid && seats[pid].user == pid.user)
    && (forall a, b | a in seats && b in seats && a.user == b.user :: a == b)
  }

  ghost predicate Bijective(t: Tables) {
    && (forall r, pid | r in t.rooms && pid in t.rooms[r] :: exists c :: Plays(t, c, r, pid))
    && (forall c, d, r, s, pid | Plays(t, c, r, pid) && Plays(t, d, s, pid) :: c == d)
  }

  ghost predicate ProducersDisjoint(clients: Clients) {
    forall c, d, k | c in clients && d in clients && k in clients[c].producers && k in clients[d].producers :: c == d
  }

  ghost predicate InStep(t: Tables) {
    && (forall c | c in t.clients :: ClientInStep(t.clients[c], t.rooms))
    && (forall r | r in t.rooms :: SeatsSound(t.rooms[r]))
    && Bijective(t)
    && ProducersDisjoint(t.clients)
  }

  /** What the client in `c` has been told is what the server knows. */
  ghost predicate Informed(c: Client, rooms: map<RoomId, Seats>) {
    c.room.Some? && c.participant.Some? && c.room.value in rooms ==>
      Matches(Fold(c.inbox), rooms[c.room.value], c.participant.value)
  }

  ghost predicate AllInformed(t: Tables) {
    forall c | c in t.clients :: Informed(t.clients[c], t.rooms)
  }

  function SeatsAt(t: Tables, r: RoomId): Seats {
    if r in t.rooms then t.rooms[r] else map[]
  }

  /** No seat is in two rooms. */
  lemma SeatInOneRoom(t: Tables, r: RoomId, s: RoomId, pid: ParticipantId)
    requires Bijective(t) && Seated(t, r, pid) && Seated(t, s, pid)
    ensures r == s
  {
  }

  // ---- entering a room ----------------------------------------------------------------------------

  function Held(seats: Seats, user: UserId): set<ParticipantId> {
    set pid | pid in seats && pid.user == user
  }

  /** The seats after `p` takes one; a user who was there already gives up the earlier seat. */
  function SeatsWith(seats: Seats, p: Seat): Seats {
    (seats - Held(seats, p.user))[p.id := p]
  }

  /** Reconnect: whoever holds one of the given seats, other than `c`, forgets its room. */
  function Evict(clients: Clients, seats: set<ParticipantId>, c: ClientId): Clients {
    map x | x in clients ::
      if clients[x].participant.Some? && clients[x].participant.value in seats && x != c then Cleared(clients[x])
          else clients[x]
  }

  function Entered(me: Client, r: RoomId, pid: ParticipantId, joined: Event): Client {
    me.(room := Some(r), participant := Some(pid), inbox := Received(me.inbox, joined))
  }

  function Announcement(p: Seat, isReconnect: bool): Event {
    ParticipantJoined(p.id, p.user, p.name, p.role, isReconnect)
  }

  function Enter(t: Tables, c: ClientId, r: RoomId, p: Seat, joined: Event, isReconnect: bool): Tables
    requires c in t.clients
  {
    var clients := Evict(t.clients, Held(SeatsAt(t, r), p.user), c);
    Tables(Broadcast(clients[c := Entered(clients[c], r, p.id, joined)], r, c, Announcement(p, isReconnect)),
           t.rooms[r := SeatsWith(SeatsAt(t, r), p)])
  }

  ghost predicate NewParticipantOk(p: Seat) {
    p.user == p.id.user && p.producers == map[] && p.consumers == {} && p.send.None? && p.recv.None?
  }

  /** The client is in no room, or it takes its own seat again and owns no producers or consumers. */
  predicate FreeToEnter(me: Client, r: RoomId, user: UserId) {
    || me.room.None?
    || (me.room == Some(r) && me.participant.Some? && me.participant.value.user == user
        && me.producers == {} && me.consumers == {})
  }

  ghost predicate CanEnter(t: Tables, c: ClientId, r: RoomId, p: Seat) {
    && c in t.clients && FreeToEnter(t.clients[c], r, p.user) && r != "" && NewParticipantOk(p)
    && (forall s | s in t.rooms :: p.id !in t.rooms[s])
  }

  lemma SeatsWithSound(seats: Seats, p: Seat)
    requires seats != map[] ==> SeatsSound(seats)
    requires NewParticipantOk(p)
    ensures SeatsSound(SeatsWith(seats, p))
  {
    assert p.id in SeatsWith(seats, p);
  }

  lemma EnterClient(t: Tables, c: ClientId, r: RoomId, p: Seat, joined: Event, isReconnect: bool, x: ClientId)
    requires c in t.clients && x in t.clients && r != ""
    requires ClientInStep(t.clients[c], t.rooms) && FreeToEnter(t.clients[c], r, p.user)
    requires ClientInStep(t.clients[x], t.rooms)
    requires NewParticipantOk(p) && p.id !in SeatsAt(t, r)
    ensures var t' := Enter(t, c, r, p, joined, isReconnect); ClientInStep(t'.clients[x], t'.rooms)
  {
  }

  lemma EnterPlayed(t: Tables, c: ClientId, r: RoomId, p: Seat, joined: Event, isReconnect: bool, x: ClientId,
                    s: RoomId, pid: ParticipantId)
    requires c in t.clients && FreeToEnter(t.clients[c], r, p.user)
    requires Plays(t, x, s, pid) && (s == r || pid !in SeatsAt(t, r))
    requires pid in SeatsWith(SeatsAt(t, r), p) || s != r
    requires pid != p.id
    ensures Plays(Enter(t, c, r, p, joined, isReconnect), x, s, pid)
  {
  }

  lemma EnterPlayedBefore(t: Tables, c: ClientId, r: RoomId, p: Seat, joined: Event, isReconnect: bool, x: ClientId,
                          s: RoomId, pid: ParticipantId)
    requires c in t.clients && Plays(Enter(t, c, r, p, joined, isReconnect), x, s, pid)
    ensures if x == c then s == r && pid == p.id else Plays(t, x, s, pid)
  {
  }

  lemma EnterBijective(t: Tables, c: ClientId, r: RoomId, p: Seat, joined: Event, isReconnect: bool)
    requires Bijective(t) && CanEnter(t, c, r, p)
    requires forall x | x in t.clients :: ClientInStep(t.clients[x], t.rooms)
    ensures Bijective(Enter(t, c, r, p, joined, isReconnect))
  {
    var t' := Enter(t, c, r, p, joined, isReconnect);
    forall s, pid | s in t'.rooms && pid in t'.rooms[s]
      ensures exists x :: Plays(t', x, s, pid)
    {
      if pid == p.id {
        assert Plays(t', c, r, pid);
      } else {
        var x :| Plays(t, x, s, pid);
        if s != r && pid in SeatsAt(t, r) {
          SeatInOneRoom(t, r, s, pid);
        }
        EnterPlayed(t, c, r, p, joined, isReconnect, x, s, pid);
      }
    }
    forall x, y, s, u, pid | Plays(t', x, s, pid) && Plays(t', y, u, pid)
      ensures x == y
    {
      EnterPlayedBefore(t, c, r, p, joined, isReconnect, x, s, pid);
      EnterPlayedBefore(t, c, r, p, joined, isReconnect, y, u, pid);
      assert x != c ==> ClientInStep(t.clients[x], t.rooms);
      assert y != c ==> ClientInStep(t.clients[y], t.rooms);
    }
  }

  lemma EnterProducersDisjoint(t: Tables, c: ClientId, r: RoomId, p: Seat, joined: Event, isReconnect: bool)
    requires c in t.clients && ProducersDisjoint(t.clients)
    ensures ProducersDisjoint(Enter(t, c, r, p, joined, isReconnect).clients)
  {
  }

  lemma EnterMatches(view: View, seats: Seats, p: Seat, self: ParticipantId, isReconnect: bool)
    requires Matches(view, seats, self) && NewParticipantOk(p) && p.id !in seats && self.user != p.user
    ensures Matches(Apply(view, Announcement(p, isReconnect)), SeatsWith(seats, p), self)
  {
  }

  lemma EnterInformed(t: Tables, c: ClientId, r: RoomId, p: Seat, joined: Event, isReconnect: bool, x: ClientId)
    requires c in t.clients && x in t.clients && FreeToEnter(t.clients[c], r, p.user)
    requires ClientInStep(t.clients[x], t.rooms) && Informed(t.clients[x], t.rooms)
    requires NewParticipantOk(p) && p.id !in SeatsAt(t, r)
    requires joined.RoomJoined? && Matches(ViewOf(joined.participants), SeatsWith(SeatsAt(t, r), p), p.id)
    ensures var t' := Enter(t, c, r, p, joined, isReconnect); Informed(t'.clients[x], t'.rooms)
  {
    if x != c && t.clients[x].room == Some(r) && t.clients[x].participant.value.user != p.user {
      EnterMatches(Fold(t.clients[x].inbox), t.rooms[r], p, t.clients[x].participant.value, isReconnect);
    }
  }

  /** Entering a room, as a newcomer or as a reconnecting user, keeps the tables in step and every member informed. */
  lemma EnterKeeps(t: Tables, c: ClientId, r: RoomId, p: Seat, joined: Event, isReconnect: bool)
    requires InStep(t) && AllInformed(t) && CanEnter(t, c, r, p)
    requires joined.RoomJoined? && Matches(ViewOf(joined.participants), SeatsWith(SeatsAt(t, r), p), p.id)
    ensures var t' := Enter(t, c, r, p, joined, isReconnect); InStep(t') && AllInformed(t')
  {
    var t' := Enter(t, c, r, p, joined, isReconnect);
    forall x | x in t'.clients
      ensures ClientInStep(t'.clients[x], t'.rooms) && Informed(t'.clients[x], t'.rooms)
    {
      EnterClient(t, c, r, p, joined, isReconnect, x);
      EnterInformed(t, c, r, p, joined, isReconnect, x);
    }
    SeatsWithSound(SeatsAt(t, r), p);
    EnterBijective(t, c, r, p, joined, isReconnect);
    EnterProducersDisjoint(t, c, r, p, joined, isReconnect);
  }

  /**
   * A client that is not free to enter leaves a seat behind that nobody plays, or owns what its new seat does not list.
   */
  lemma EnterBreaks(t: Tables, c: ClientId, r: RoomId, p: Seat, joined: Event, isReconnect: bool)
    requires InStep(t) && c in t.clients && NewParticipantOk(p) && forall s | s in t.rooms :: p.id !in t.rooms[s]
    requires !FreeToEnter(t.clients[c], r, p.user)
    ensures !InStep(Enter(t, c, r, p, joined, isReconnect))
  {
    var me := t.clients[c];
    var t' := Enter(t, c, r, p, joined, isReconnect);
    assert ClientInStep(me, t.rooms);
    var r0, pid := me.room.value, me.participant.value;
    if r0 == r && pid.user == p.user {
      assert !ClientInStep(t'.clients[c], t'.rooms);
    } else {
      assert Plays(t, c, r0, pid) && pid in t'.rooms[r0];
      forall x | Plays(t', x, r0, pid)
        ensures false
      {
        EnterPlayedBefore(t, c, r, p, joined, isReconnect, x, r0, pid);
      }
      assert !Bijective(t');
    }
  }

  // ---- changing one's own seat: transports, consumers, producers -------------------------------------

  function Tell(clients: Clients, r: RoomId, sender: ClientId, e: Option<Event>): Clients {
    if e.Some? then Broadcast(clients, r, sender, e.value) else clients
  }

  function ApplyAny(view: View, e: Option<Event>): View {
    if e.Some? then Apply(view, e.value) else view
  }

  /** Client `me` and its participant record `p` are replaced together, and the room is told. */
  function Change(t: Tables, c: ClientId, r: RoomId, me: Client, p: Seat, e: Option<Event>): Tables {
    Tables(Tell(t.clients[c := me], r, c, e), t.rooms[r := SeatsAt(t, r)[p.id := p]])
  }

  ghost predicate CanChange(t: Tables, c: ClientId, r: RoomId, me: Client, p: Seat) {
    && Plays(t, c, r, p.id) && me.room == Some(r) && me.participant == Some(p.id) && me.inbox == t.clients[c].inbox
    && p.user == p.id.user && Owns(me, p)
  }

  lemma ChangeClient(t: Tables, c: ClientId, r: RoomId, me: Client, p: Seat, e: Option<Event>, x: ClientId)
    requires CanChange(t, c, r, me, p) && x in t.clients && ClientInStep(t.clients[c], t.rooms) &&
             ClientInStep(t.clients[x], t.rooms)
    requires x != c ==> !Plays(t, x, r, p.id)
    ensures var t' := Change(t, c, r, me, p, e); ClientInStep(t'.clients[x], t'.rooms)
  {
  }

  lemma ChangePlays(t: Tables, c: ClientId, r: RoomId, me: Client, p: Seat, e: Option<Event>, x: ClientId, s: RoomId,
                    pid: ParticipantId)
    requires CanChange(t, c, r, me, p)
    ensures Plays(t, x, s, pid) <==> Plays(Change(t, c, r, me, p, e), x, s, pid)
  {
  }

  lemma ChangeBijective(t: Tables, c: ClientId, r: RoomId, me: Client, p: Seat, e: Option<Event>)
    requires Bijective(t) && CanChange(t, c, r, me, p) && ClientInStep(t.clients[c], t.rooms)
    ensures Bijective(Change(t, c, r, me, p, e))
  {
    var t' := Change(t, c, r, me, p, e);
    forall s, pid | s in t'.rooms && pid in t'.rooms[s]
      ensures exists x :: Plays(t', x, s, pid)
    {
      var x :| Plays(t, x, s, pid);
      ChangePlays(t, c, r, me, p, e, x, s, pid);
    }
    forall x, y, s, u, pid | Plays(t', x, s, pid) && Plays(t', y, u, pid)
      ensures x == y
    {
      ChangePlays(t, c, r, me, p, e, x, s, pid);
      ChangePlays(t, c, r, me, p, e, y, u, pid);
    }
  }

  lemma ChangeProducersDisjoint(t: Tables, c: ClientId, r: RoomId, me: Client, p: Seat, e: Option<Event>)
    requires c in t.clients && ProducersDisjoint(t.clients)
    requires forall k, x | x in t.clients && k in me.producers && k in t.clients[x].producers :: x == c
    ensures ProducersDisjoint(Change(t, c, r, me, p, e).clients)
  {
  }

  lemma ChangeInformed(t: Tables, c: ClientId, r: RoomId, me: Client, p: Seat, e: Option<Event>, x: ClientId)
    requires CanChange(t, c, r, me, p) && x in t.clients && r in t.rooms && p.id in t.rooms[r]
    requires Informed(t.clients[x], t.rooms) && Informed(t.clients[c], t.rooms)
    requires x != c && t.clients[x].room == Some(r) && t.clients[x].participant.Some? ==>
               Matches(ApplyAny(Fold(t.clients[x].inbox), e), t.rooms[r][p.id := p], t.clients[x].participant.value)
    ensures var t' := Change(t, c, r, me, p, e); Informed(t'.clients[x], t'.rooms)
  {
  }

  /** A change of one's own seat keeps the tables in step, and everyone informed if the message says what changed. */
  lemma ChangeKeeps(t: Tables, c: ClientId, r: RoomId, me: Client, p: Seat, e: Option<Event>)
    requires InStep(t) && AllInformed(t) && CanChange(t, c, r, me, p)
    requires forall k, x | x in t.clients && k in me.producers && k in t.clients[x].producers :: x == c
    requires forall x | x in t.clients && x != c && t.clients[x].room == Some(r) && t.clients[x].participant.Some? ::
               Matches(ApplyAny(Fold(t.clients[x].inbox), e), SeatsAt(t, r)[p.id := p], t.clients[x].participant.value)
    ensures var t' := Change(t, c, r, me, p, e); InStep(t') && AllInformed(t')
  {
    var t' := Change(t, c, r, me, p, e);
    assert ClientInStep(t.clients[c], t.rooms);
    forall x | x in t'.clients
      ensures ClientInStep(t'.clients[x], t'.rooms) && Informed(t'.clients[x], t'.rooms)
    {
      assert Plays(t, x, r, p.id) && Plays(t, c, r, p.id) ==> x == c;
      ChangeClient(t, c, r, me, p, e, x);
      ChangeInformed(t, c, r, me, p, e, x);
    }
    ChangeSeats(t.rooms[r], p);
    ChangeBijective(t, c, r, me, p, e);
    ChangeProducersDisjoint(t, c, r, me, p, e);
  }

  lemma ChangeSeats(seats: Seats, p: Seat)
    requires SeatsSound(seats) && p.id in seats && p.user == p.id.user
    ensures SeatsSound(seats[p.id := p])
  {
  }

  /** Transports and consumers are nobody else's business. */
  lemma QuietMatches(view: View, seats: Seats, p: Seat, self: ParticipantId)
    requires Matches(view, seats, self) && p.id in seats && EntryOf(p) == EntryOf(seats[p.id])
    ensures Matches(view, seats[p.id := p], self)
  {
  }

  lemma ProduceMatches(view: View, seats: Seats, p: Seat, k: Id, kind: Kind, self: ParticipantId)
    requires Matches(view, seats, self) && p.id in seats && seats[p.id] == p && self != p.id
    requires forall o | o in seats :: seats[o].id == o
    ensures Matches(Apply(view, NewProducer(k, p.id, kind)), seats[p.id := p.(producers := p.producers[k := kind])],
                    self)
  {
  }

  /** If only the row of `p` changes in the view, and to its new entry, the view follows the seat. */
  lemma OneRowMatches(view: View, view': View, seats: Seats, p: Seat, self: ParticipantId)
    requires Matches(view, seats, self) && p.id in seats && self != p.id
    requires forall o | o in seats :: seats[o].id == o
    requires view'.Keys == view.Keys
    requires forall u | u in view :: view'[u] == if view[u].id == p.id then EntryOf(p) else view[u]
    ensures Matches(view', seats[p.id := p], self)
  {
  }

  lemma CloseMatches(view: View, seats: Seats, p: Seat, k: Id, self: ParticipantId)
    requires Matches(view, seats, self) && p.id in seats && seats[p.id] == p && self != p.id
    requires forall o | o in seats :: seats[o].id == o
    requires forall q | q in seats && q != p.id :: k !in seats[q].producers
    ensures Matches(Apply(view, ProducerClosed(k)), seats[p.id := p.(producers := p.producers - {k})], self)
  {
    var view' := Apply(view, ProducerClosed(k));
    var q := p.(producers := p.producers - {k});
    forall u | u in view
      ensures view'[u] == if view[u].id == p.id then EntryOf(q) else view[u]
    {
      assert view[u] == EntryOf(seats[view[u].id]);
      assert view[u].id != p.id ==> view[u].producers - {k} == view[u].producers;
    }
    OneRowMatches(view, view', seats, q, self);
  }

  /** Every room has a member, and its client does not hear of the room being dropped. */
  lemma DropBreaks(t: Tables, r: RoomId)
    requires InStep(t) && r in t.rooms
    ensures !InStep(Tables(t.clients, t.rooms - {r}))
  {
    assert SeatsSound(t.rooms[r]);
    var pid :| pid in t.rooms[r];
    var c :| Plays(t, c, r, pid);
    assert !ClientInStep(t.clients[c], t.rooms - {r});
  }

  // ---- leaving a room ------------------------------------------------------------------------------------

  function Strip(seats: Seats, gone: set<Id>): Seats {
    map pid | pid in seats :: seats[pid].(producers := seats[pid].producers - gone)
  }

  /** Producers of one client are in no other seat. */
  lemma ElsewhereAbsent(t: Tables, c: ClientId, r: RoomId, pid: ParticipantId, q: ParticipantId, k: Id)
    requires InStep(t) && Plays(t, c, r, pid) && k in t.clients[c].producers
    requires Seated(t, r, q) && q != pid
    ensures k !in t.rooms[r][q].producers
  {
    var d :| Plays(t, d, r, q);
    assert ClientInStep(t.clients[d], t.rooms);
  }

  /** Closing one's own producers in every seat of the room only touches one's own seat. */
  lemma StripOwn(t: Tables, c: ClientId, r: RoomId, pid: ParticipantId, gone: set<Id>)
    requires InStep(t) && Plays(t, c, r, pid) && Seated(t, r, pid) && gone <= t.clients[c].producers
    ensures var p := t.rooms[r][pid]; Strip(t.rooms[r], gone) == t.rooms[r][pid := p.(producers := p.producers - gone)]
  {
    forall q, k | q in t.rooms[r] && q != pid && k in gone
      ensures k !in t.rooms[r][q].producers
    {
      ElsewhereAbsent(t, c, r, pid, q, k);
    }
    StripSeats(t.rooms[r], pid, gone);
  }

  lemma StripSeats(seats: Seats, pid: ParticipantId, gone: set<Id>)
    requires pid in seats
    requires forall q, k | q in seats && q != pid && k in gone :: k !in seats[q].producers
    ensures Strip(seats, gone) == seats[pid := seats[pid].(producers := seats[pid].producers - gone)]
  {
    forall q | q in seats && q != pid
      ensures seats[q].producers - gone == seats[q].producers
    {
    }
  }

  /** The client's producers in `gone` are closed, its seat is removed, the room is told, and an empty room goes. */
  function Exit(t: Tables, c: ClientId, r: RoomId, pid: ParticipantId, gone: set<Id>): Tables
    requires c in t.clients
  {
    var seats := Strip(SeatsAt(t, r), gone) - {pid};
    Tables(Broadcast(t.clients, r, c, ParticipantLeft(pid))[c := Cleared(t.clients[c])],
           if seats == map[] then t.rooms - {r} else t.rooms[r := seats])
  }

  lemma ExitSeats(t: Tables, c: ClientId, r: RoomId, pid: ParticipantId, gone: set<Id>)
    requires InStep(t) && Plays(t, c, r, pid) && Seated(t, r, pid) && gone <= t.clients[c].producers
    ensures Strip(t.rooms[r], gone) - {pid} == t.rooms[r] - {pid}
  {
    StripOwn(t, c, r, pid, gone);
  }

  lemma ExitClient(t: Tables, c: ClientId, r: RoomId, pid: ParticipantId, gone: set<Id>, x: ClientId)
    requires Plays(t, c, r, pid) && Seated(t, r, pid) && x in t.clients && ClientInStep(t.clients[x], t.rooms)
    requires Strip(t.rooms[r], gone) - {pid} == t.rooms[r] - {pid}
    requires Plays(t, x, r, pid) ==> x == c
    ensures var t' := Exit(t, c, r, pid, gone); ClientInStep(t'.clients[x], t'.rooms)
  {
    if x != c && t.clients[x].room == Some(r) {
      assert t.clients[x].participant.value in t.rooms[r] - {pid};
    }
  }

  lemma ExitPlays(t: Tables, c: ClientId, r: RoomId, pid: ParticipantId, gone: set<Id>, x: ClientId, s: RoomId,
                  q: ParticipantId)
    requires c in t.clients
    ensures Plays(Exit(t, c, r, pid, gone), x, s, q) <==> x != c && Plays(t, x, s, q)
  {
  }

  lemma ExitBijective(t: Tables, c: ClientId, r: RoomId, pid: ParticipantId, gone: set<Id>)
    requires Bijective(t) && Plays(t, c, r, pid) && Seated(t, r, pid)
    requires Strip(t.rooms[r], gone) - {pid} == t.rooms[r] - {pid}
    ensures Bijective(Exit(t, c, r, pid, gone))
  {
    var t' := Exit(t, c, r, pid, gone);
    forall s, q | s in t'.rooms && q in t'.rooms[s]
      ensures exists x :: Plays(t', x, s, q)
    {
      var x :| Plays(t, x, s, q);
      ExitPlays(t, c, r, pid, gone, x, s, q);
    }
    forall x, y, s, u, q | Plays(t', x, s, q) && Plays(t', y, u, q)
      ensures x == y
    {
      ExitPlays(t, c, r, pid, gone, x, s, q);
      ExitPlays(t, c, r, pid, gone, y, u, q);
    }
  }

  lemma ExitMatches(view: View, seats: Seats, pid: ParticipantId, self: ParticipantId)
    requires Matches(view, seats, self) && self != pid
    requires forall o | o in seats :: seats[o].id == o
    ensures Matches(Apply(view, ParticipantLeft(pid)), seats - {pid}, self)
  {
  }

  lemma ExitInformed(t: Tables, c: ClientId, r: RoomId, pid: ParticipantId, gone: set<Id>, x: ClientId)
    requires Plays(t, c, r, pid) && Seated(t, r, pid) && SeatsSound(t.rooms[r]) && x in t.clients
    requires Strip(t.rooms[r], gone) - {pid} == t.rooms[r] - {pid}
    requires Informed(t.clients[x], t.rooms) && (Plays(t, x, r, pid) ==> x == c)
    ensures var t' := Exit(t, c, r, pid, gone); Informed(t'.clients[x], t'.rooms)
  {
    if x != c && t.clients[x].room == Some(r) && t.clients[x].participant.Some? {
      ExitMatches(Fold(t.clients[x].inbox), t.rooms[r], pid, t.clients[x].participant.value);
    }
  }

  lemma ExitRooms(t: Tables, c: ClientId, r: RoomId, pid: ParticipantId, gone: set<Id>)
    requires c in t.clients && r in t.rooms && Strip(t.rooms[r], gone) - {pid} == t.rooms[r] - {pid}
    requires forall s | s in t.rooms :: SeatsSound(t.rooms[s])
    ensures var t' := Exit(t, c, r, pid, gone); forall s | s in t'.rooms :: SeatsSound(t'.rooms[s])
  {
  }

  lemma ExitProducersDisjoint(t: Tables, c: ClientId, r: RoomId, pid: ParticipantId, gone: set<Id>)
    requires c in t.clients && ProducersDisjoint(t.clients)
    ensures ProducersDisjoint(Exit(t, c, r, pid, gone).clients)
  {
  }

  lemma ExitAll(t: Tables, c: ClientId, r: RoomId, pid: ParticipantId, gone: set<Id>)
    requires InStep(t) && AllInformed(t) && Plays(t, c, r, pid) && Seated(t, r, pid)
    requires Strip(t.rooms[r], gone) - {pid} == t.rooms[r] - {pid}
    ensures var t' := Exit(t, c, r, pid, gone);
            forall x | x in t'.clients :: ClientInStep(t'.clients[x], t'.rooms) && Informed(t'.clients[x], t'.rooms)
  {
    hide ClientInStep, Informed, SeatsSound, ProducersDisjoint, Strip;
    var t' := Exit(t, c, r, pid, gone);
    forall x | x in t'.clients
      ensures ClientInStep(t'.clients[x], t'.rooms) && Informed(t'.clients[x], t'.rooms)
    {
      assert Plays(t, x, r, pid) && Plays(t, c, r, pid) ==> x == c;
      ExitClient(t, c, r, pid, gone, x);
      ExitInformed(t, c, r, pid, gone, x);
    }
  }

  /** Leaving, whichever of the producers could be closed, keeps the tables in step and the others informed. */
  lemma ExitKeeps(t: Tables, c: ClientId, r: RoomId, pid: ParticipantId, gone: set<Id>)
    requires InStep(t) && AllInformed(t) && Plays(t, c, r, pid) && gone <= t.clients[c].producers
    ensures var t' := Exit(t, c, r, pid, gone); InStep(t') && AllInformed(t')
  {
    assert ClientInStep(t.clients[c], t.rooms);
    ExitSeats(t, c, r, pid, gone);
    ExitAll(t, c, r, pid, gone);
    ExitRooms(t, c, r, pid, gone);
    ExitBijective(t, c, r, pid, gone);
    ExitProducersDisjoint(t, c, r, pid, gone);
  }
}

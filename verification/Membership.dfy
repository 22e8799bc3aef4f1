/** The messages that tell a client who is in its room, and what a client can conclude from them. */
module Membership {
  import opened Options
  import opened JsMaps
  import opened RoomTypes

  datatype ProducerInfo = ProducerInfo(id: Id, kind: Kind, source: string)
  datatype ParticipantInfo = ParticipantInfo(
    id: ParticipantId, user: UserId, name: string, role: string, producers: seq<ProducerInfo>)

  datatype Event =
    | RoomJoined(room: RoomId, self: ParticipantId, participants: seq<ParticipantInfo>, isReconnect: bool)
    | ParticipantJoined(participant: ParticipantId, user: UserId, name: string, role: string, isReconnect: bool)
    | ParticipantLeft(participant: ParticipantId)
    | NewProducer(producer: Id, participant: ParticipantId, kind: Kind)
    | ProducerClosed(producer: Id)

  /** Everything a client has received, the latest message outermost. */
  datatype Inbox = Nothing | Received(earlier: Inbox, event: Event)

  // ---- the client's side: folding the messages -----------------------------------------------

  datatype Entry = Entry(id: ParticipantId, name: string, role: string, producers: map<Id, Kind>)
  type View = map<UserId, Entry>

  function KindsIn(infos: seq<ProducerInfo>): map<Id, Kind> {
    if infos == [] then map[] else KindsIn(infos[..|infos| - 1])[infos[|infos| - 1].id := infos[|infos| - 1].kind]
  }

  function ViewOf(infos: seq<ParticipantInfo>): View {
    if infos == [] then map[]
    else
      var last := infos[|infos| - 1];
      ViewOf(infos[..|infos| - 1])[last.user := Entry(last.id, last.name, last.role, KindsIn(last.producers))]
  }

  function Apply(view: View, e: Event): View {
    match e
    case RoomJoined(_, _, participants, _) => ViewOf(participants)
    case ParticipantJoined(pid, user, name, role, _) => view[user := Entry(pid, name, role, map[])]
    case ParticipantLeft(pid) => map u | u in view && view[u].id != pid :: view[u]
    case NewProducer(k, pid, kind) =>
      map u | u in view :: if view[u].id == pid then view[u].(producers := view[u].producers[k := kind]) else view[u]
    case ProducerClosed(k) => map u | u in view :: view[u].(producers := view[u].producers - {k})
  }

  function Fold(inbox: Inbox): View {
    match inbox
    case Nothing => map[]
    case Received(earlier, e) => Apply(Fold(earlier), e)
  }

  // ---- the server's side: the table the view should be ----------------------------------------

  function Kinds(producers: map<Id, Producer>): map<Id, Kind> {
    map k | k in producers :: producers[k].kind
  }

  /** A participant record without the parts that no client table and no message mentions. */
  datatype Seat = Seat(
    id: ParticipantId, user: UserId, name: string, role: string, send: Option<Id>, recv: Option<Id>,
    producers: map<Id, Kind>, consumers: set<Id>)
  type Seats = map<ParticipantId, Seat>

  function SeatOf(p: Participant): Seat {
    Seat(p.id, p.user, p.name, p.role, p.send, p.recv, Kinds(p.producers.at), p.consumers.at.Keys)
  }

  function SeatsOf(at: map<ParticipantId, Participant>): Seats {
    map pid | pid in at :: SeatOf(at[pid])
  }

  function EntryOf(p: Seat): Entry {
    Entry(p.id, p.name, p.role, p.producers)
  }

  /** `view` is exactly the table of user to participant of `seats`, without the viewer's own row. */
  ghost predicate Matches(view: View, seats: Seats, self: ParticipantId) {
    && (forall pid | pid in seats && pid != self :: pid.user in view && view[pid.user] == EntryOf(seats[pid]))
    && (forall u | u in view :: view[u].id in seats && view[u].id != self && view[u].id.user == u)
  }

  // ---- the room-joined snapshot -----------------------------------------------------------------

  function ProducerInfos(ps: seq<Producer>): seq<ProducerInfo> {
    seq(|ps|, i requires 0 <= i < |ps| => ProducerInfo(ps[i].id, ps[i].kind, ps[i].source))
  }

  function InfoOf(p: Participant): ParticipantInfo {
    ParticipantInfo(p.id, p.user, p.name, p.role, ProducerInfos(Values(p.producers)))
  }

  /** getParticipants, filtered to everyone but `self`. */
  function Others(ps: seq<Participant>, self: ParticipantId): seq<ParticipantInfo> {
    if ps == [] then []
    else
      var front := Others(ps[..|ps| - 1], self);
      if ps[|ps| - 1].id == self then front else front + [InfoOf(ps[|ps| - 1])]
  }

  /** A producer list rebuilt from the wire has the same ids and kinds. */
  lemma {:induction false} KindsOfPrefix(m: JsMap<Id, Producer>, n: nat)
    requires n <= |m.order|
    requires forall k | k in m.at :: m.at[k].id == k
    ensures var kinds := KindsIn(ProducerInfos(Values(m))[..n]);
            (forall k :: k in kinds <==> k in m.order[..n]) && forall k | k in kinds :: kinds[k] == m.at[k].kind
  {
    hide KindsIn;
    var infos := ProducerInfos(Values(m));
    if n == 0 {
      NoKinds();
      assert infos[..0] == [];
    } else {
      KindsOfPrefix(m, n - 1);
      KindsOneMore(infos[..n - 1], infos[n - 1]);
      assert infos[..n] == infos[..n - 1] + [infos[n - 1]];
      assert m.order[..n] == m.order[..n - 1] + [m.order[n - 1]];
    }
  }

  lemma NoKinds()
    ensures KindsIn([]) == map[]
  {
  }

  lemma KindsOneMore(infos: seq<ProducerInfo>, info: ProducerInfo)
    ensures KindsIn(infos + [info]) == KindsIn(infos)[info.id := info.kind]
  {
    assert (infos + [info])[..|infos|] == infos;
  }

  lemma KindsOfList(m: JsMap<Id, Producer>)
    requires forall k | k in m.at :: m.at[k].id == k
    ensures KindsIn(ProducerInfos(Values(m))) == Kinds(m.at)
  {
    var infos := ProducerInfos(Values(m));
    KindsOfPrefix(m, |m.order|);
    assert infos[..|m.order|] == infos;
    assert m.order[..|m.order|] == m.order;
  }

  ghost predicate Sound(p: Participant) {
    p.user == p.id.user && WellKeyedParticipant(p)
  }

  function Told(info: ParticipantInfo): Entry {
    Entry(info.id, info.name, info.role, KindsIn(info.producers))
  }

  lemma ViewOfInfos(infos: seq<ParticipantInfo>)
    requires forall a, b | a in infos && b in infos && a.user == b.user :: a == b
    ensures forall a | a in infos :: a.user in ViewOf(infos) && ViewOf(infos)[a.user] == Told(a)
    ensures forall u | u in ViewOf(infos) :: exists a :: a in infos && a.user == u
  {
  }

  lemma OthersMembers(ps: seq<Participant>, self: ParticipantId)
    ensures forall p | p in ps && p.id != self :: InfoOf(p) in Others(ps, self)
    ensures forall a | a in Others(ps, self) :: exists p :: p in ps && p.id != self && a == InfoOf(p)
  {
  }

  lemma ToldOfInfo(p: Participant)
    requires Sound(p)
    ensures Told(InfoOf(p)) == EntryOf(SeatOf(p))
  {
    KindsOfList(p.producers);
  }

  /** `infos` lists the participants of `m` other than `self`, each as it is. */
  ghost predicate Describes(infos: seq<ParticipantInfo>, m: JsMap<ParticipantId, Participant>, self: ParticipantId) {
    && (forall a | a in infos :: a.id in m.at && a.id != self && a == InfoOf(m.at[a.id]))
    && (forall pid | pid in m.at && pid != self :: InfoOf(m.at[pid]) in infos)
  }

  lemma OthersDescribe(m: JsMap<ParticipantId, Participant>, self: ParticipantId)
    requires forall pid | pid in m.at :: m.at[pid].id == pid
    ensures Describes(Others(Values(m), self), m, self)
  {
    hide Others, InfoOf;
    OthersMembers(Values(m), self);
    ValuesMembers(m);
    forall a | a in Others(Values(m), self)
      ensures a.id in m.at && a.id != self && a == InfoOf(m.at[a.id])
    {
      var p :| p in Values(m) && p.id != self && a == InfoOf(p);
      InfoKeepsId(p);
    }
  }

  lemma InfoKeepsId(p: Participant)
    ensures InfoOf(p).id == p.id && InfoOf(p).user == p.user
  {
  }

  lemma DescriptionMatches(infos: seq<ParticipantInfo>, m: JsMap<ParticipantId, Participant>, self: ParticipantId)
    requires forall pid | pid in m.at :: m.at[pid].id == pid && Sound(m.at[pid])
    requires forall a, b | a in m.at && b in m.at && a.user == b.user :: a == b
    requires Describes(infos, m, self)
    ensures Matches(ViewOf(infos), SeatsOf(m.at), self)
  {
    hide KindsIn, Kinds, InfoOf;
    forall a | a in infos
      ensures a.user == a.id.user && Told(a) == EntryOf(SeatOf(m.at[a.id]))
    {
      ToldOfInfo(m.at[a.id]);
      InfoKeepsId(m.at[a.id]);
    }
    ViewOfInfos(infos);
    forall pid | pid in m.at && pid != self
      ensures pid.user in ViewOf(infos) && ViewOf(infos)[pid.user] == EntryOf(SeatOf(m.at[pid]))
    {
      InfoKeepsId(m.at[pid]);
    }
  }

  /** The room-joined message describes the room exactly, provided each user is in it once. */
  lemma {:induction false} SnapshotMatches(m: JsMap<ParticipantId, Participant>, self: ParticipantId)
    requires forall pid | pid in m.at :: m.at[pid].id == pid && Sound(m.at[pid])
    requires forall a, b | a in m.at && b in m.at && a.user == b.user :: a == b
    ensures Matches(ViewOf(Others(Values(m), self)), SeatsOf(m.at), self)
  {
    OthersDescribe(m, self);
    DescriptionMatches(Others(Values(m), self), m, self);
  }

  // ---- the snapshot, item by item --------------------------------------------------------------------------------

  /**
   * What the snapshot says of a participant: who it is, and each of its producers with id, kind and source, in order.
   */
  ghost predicate InfoIs(info: ParticipantInfo, p: Participant) {
    && info.id == p.id && info.user == p.user && info.name == p.name && info.role == p.role
    && |info.producers| == |p.producers.order|
    && forall i :: 0 <= i < |info.producers| ==>
         var k := p.producers.at[p.producers.order[i]];
         info.producers[i].id == k.id && info.producers[i].kind == k.kind && info.producers[i].source == k.source
  }

  /** It describes everyone but the newcomer, in the order of the room. */
  lemma {:induction false} OthersDescribed(ps: seq<Participant>, self: ParticipantId) returns (at: seq<nat>)
    ensures |at| == |Others(ps, self)|
    ensures forall i :: 0 <= i < |at| ==> at[i] < |ps| && ps[at[i]].id != self && InfoIs(Others(ps, self)[i], ps[at[i]])
    ensures forall i, j :: 0 <= i < j < |at| ==> at[i] < at[j]
    ensures forall k :: 0 <= k < |ps| && ps[k].id != self ==> k in at
  {
    at := [];
    if ps != [] {
      var n := |ps| - 1;
      at := OthersDescribed(ps[..n], self);
      if ps[n].id != self {
        at := at + [n];
        assert n == at[|at| - 1];
      }
      forall k | 0 <= k < |ps| && ps[k].id != self
        ensures k in at
      {
        assert k < n ==> ps[..n][k] == ps[k];
      }
    }
  }
}

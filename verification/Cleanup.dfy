/** Why cleaning up a client one producer and one consumer at a time comes to the same as stripping the room at once. */
module Cleanup {
  import opened Options
  import opened JsMaps
  import opened RoomTypes
  import opened Rooms

  lemma StripNothing(w: Cluster, r: RoomId)
    requires r in w.rooms
    ensures StripRoom(w, r, {}) == w
  {
    var m := w.rooms[r].participants;
    forall pid | pid in m.at
      ensures m.at[pid].(producers := Without(m.at[pid].producers, {})) == m.at[pid]
    {
      WithoutAbsent(m.at[pid].producers, {});
    }
    assert StripProducers(m, {}).at == m.at;
    assert w.rooms[r].(participants := StripProducers(m, {})) == w.rooms[r];
  }

  ghost predicate IsStripped(m: JsMap<ParticipantId, Participant>, gone: set<Id>,
                             out: JsMap<ParticipantId, Participant>) {
    && out.order == m.order && out.at.Keys == m.at.Keys
    && forall pid | pid in m.at :: out.at[pid] == m.at[pid].(producers := Without(m.at[pid].producers, gone))
  }

  lemma StripIsStripped(m: JsMap<ParticipantId, Participant>, gone: set<Id>)
    ensures IsStripped(m, gone, StripProducers(m, gone))
  {
  }

  lemma StrippedOnce(m: JsMap<ParticipantId, Participant>, a: JsMap<ParticipantId, Participant>,
                     b: JsMap<ParticipantId, Participant>, gone: set<Id>)
    requires IsStripped(m, gone, a) && IsStripped(m, gone, b)
    ensures a == b
  {
  }

  lemma StrippedAgain(m: JsMap<ParticipantId, Participant>, once: JsMap<ParticipantId, Participant>,
                      twice: JsMap<ParticipantId, Participant>, a: set<Id>, b: set<Id>)
    requires IsStripped(m, a, once) && IsStripped(once, b, twice)
    ensures IsStripped(m, a + b, twice)
  {
    forall pid | pid in m.at
      ensures twice.at[pid] == m.at[pid].(producers := Without(m.at[pid].producers, a + b))
    {
      WithoutTwice(m.at[pid].producers, a, b);
    }
  }

  lemma StripTwice(m: JsMap<ParticipantId, Participant>, a: set<Id>, b: set<Id>)
    ensures StripProducers(StripProducers(m, a), b) == StripProducers(m, a + b)
  {
    var once := StripProducers(m, a);
    var twice, both := StripProducers(once, b), StripProducers(m, a + b);
    StripIsStripped(m, a);
    StripIsStripped(once, b);
    StripIsStripped(m, a + b);
    StrippedAgain(m, once, twice, a, b);
    StrippedOnce(m, twice, both, a + b);
  }

  lemma ReplaceTwice(w: Cluster, r: RoomId, first: Room, second: Room)
    ensures var once := w.(rooms := w.rooms[r := first]);
            once.(rooms := once.rooms[r := second]) == w.(rooms := w.rooms[r := second])
  {
  }

  lemma StripRoomTwice(w: Cluster, r: RoomId, a: set<Id>, b: set<Id>)
    requires r in w.rooms
    ensures StripRoom(StripRoom(w, r, a), r, b) == StripRoom(w, r, a + b)
  {
    var m := w.rooms[r].participants;
    StripTwice(m, a, b);
    ReplaceTwice(w, r, w.rooms[r].(participants := StripProducers(m, a)),
                 w.rooms[r].(participants := StripProducers(m, a + b)));
  }

  /** `w` is `target`, except that Redis may hold another snapshot of room `r`. */
  ghost predicate LagsAt(w: Cluster, target: Cluster, r: RoomId) {
    w.snapshots - {r} == target.snapshots - {r} && w.(snapshots := target.snapshots) == target
  }

  lemma CloseLags(w: Cluster, target: Cluster, r: RoomId, k: Id)
    requires r in target.rooms && LagsAt(w, target, r)
    ensures LagsAt(CloseProducer(w, r, k, true), StripRoom(target, r, {k}), r)
  {
  }

  lemma CloseOne(w0: Cluster, w: Cluster, r: RoomId, gone: set<Id>, k: Id, ok: bool)
    requires r in w0.rooms && LagsAt(w, StripRoom(w0, r, gone), r)
    ensures LagsAt(CloseProducer(w, r, k, ok), StripRoom(w0, r, if ok then gone + {k} else gone), r)
  {
    if ok {
      CloseLags(w, StripRoom(w0, r, gone), r, k);
      StripRoomTwice(w0, r, gone, {k});
    }
  }

  /** `w` and `target` differ in Redis' copy of `r` and in the participant `pid` of `r` only. */
  ghost predicate LeavesAs(w: Cluster, target: Cluster, r: RoomId, pid: ParticipantId) {
    && r in w.rooms && r in target.rooms
    && RemoveEntry(w, r, pid).rooms == RemoveEntry(target, r, pid).rooms
    && w.snapshots - {r} == target.snapshots - {r}
    && w.records == target.records && w.routers == target.routers && w.nodes == target.nodes
  }

  lemma LagLeavesAs(w: Cluster, target: Cluster, r: RoomId, pid: ParticipantId)
    requires LagsAt(w, target, r) && r in target.rooms
    ensures LeavesAs(w, target, r, pid)
  {
  }

  lemma SetThenRemove(m: JsMap<ParticipantId, Participant>, pid: ParticipantId, p: Participant)
    requires pid in m.at
    ensures Without(Set(m, pid, p), {pid}) == Without(m, {pid})
  {
  }

  lemma ReplaceLeavesAs(w: Cluster, target: Cluster, r: RoomId, pid: ParticipantId, p: Participant)
    requires LeavesAs(w, target, r, pid) && pid in w.rooms[r].participants.at
    ensures LeavesAs(SetParticipant(w, r, pid, p), target, r, pid)
  {
    SetThenRemove(w.rooms[r].participants, pid, p);
    assert RemoveEntry(SetParticipant(w, r, pid, p), r, pid).rooms == RemoveEntry(w, r, pid).rooms;
  }

  /** Leaving forgets the participant and rewrites or drops Redis' copy, so it erases both differences. */
  lemma LeavesAlike(w: Cluster, target: Cluster, r: RoomId, pid: ParticipantId, closed: bool)
    requires LeavesAs(w, target, r, pid)
    ensures LeaveRoom(w, r, pid, closed) == LeaveRoom(target, r, pid, closed)
  {
    var a, b := RemoveEntry(w, r, pid), RemoveEntry(target, r, pid);
    assert a.rooms[r] == b.rooms[r];
    assert a.snapshots - {r} == b.snapshots - {r};
    assert Persist(a, r).snapshots == Persist(b, r).snapshots by {
      SameButAt(a.snapshots, b.snapshots, r, SnapshotOf(a.rooms[r]));
    }
  }

  lemma SameButAt(a: map<RoomId, RoomSnapshot>, b: map<RoomId, RoomSnapshot>, r: RoomId, v: RoomSnapshot)
    requires a - {r} == b - {r}
    ensures a[r := v] == b[r := v]
  {
    var a', b' := a[r := v], b[r := v];
    forall x | x in a'
      ensures x in b' && b'[x] == a'[x]
    {
      assert x != r ==> x in a - {r};
    }
    forall x | x in b'
      ensures x in a'
    {
      assert x != r ==> x in b - {r};
    }
  }
}

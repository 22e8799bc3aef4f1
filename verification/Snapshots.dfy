/** What a restart keeps of a room: loadRoomState against persistRoomState. */
module Snapshots {
  import opened Options
  import opened JsMaps
  import opened RoomTypes
  import opened Rooms

  /** `built` holds the first `n` entries of `m`. */
  ghost predicate IsPrefix<K(!new), V>(built: JsMap<K, V>, m: JsMap<K, V>, n: nat)
    requires n <= |m.order|
  {
    && built.order == m.order[..n]
    && (forall k :: k in built.at <==> k in m.order[..n])
    && (forall k | k in built.at :: built.at[k] == m.at[k])
  }

  lemma PrefixGrows<K(!new), V>(built: JsMap<K, V>, m: JsMap<K, V>, n: nat)
    requires n < |m.order| && IsPrefix(built, m, n)
    ensures IsPrefix(Set(built, m.order[n], m.at[m.order[n]]), m, n + 1)
  {
  }

  lemma {:induction false} RebuildPrefix<K(!new), V>(m: JsMap<K, V>, key: V -> K, n: nat)
    requires n <= |m.order| && forall k | k in m.at :: key(m.at[k]) == k
    ensures IsPrefix(Rebuild(Values(m)[..n], key), m, n)
  {
    if n > 0 {
      hide IsPrefix, Set;
      RebuildPrefix(m, key, n - 1);
      assert Values(m)[..n][..n - 1] == Values(m)[..n - 1];
      assert m.order[n - 1] in m.at;
      PrefixGrows(Rebuild(Values(m)[..n - 1], key), m, n - 1);
    }
  }

  /** A loop of `set(key(v), v)` over a map's own values builds the map again, insertion order included. */
  lemma RebuildInverts<K(!new), V>(m: JsMap<K, V>, key: V -> K)
    requires forall k | k in m.at :: key(m.at[k]) == k
    ensures Rebuild(Values(m), key) == m
  {
    hide Rebuild, Values;
    RebuildPrefix(m, key, |m.order|);
    assert IsPrefix(Rebuild(Values(m)[..|m.order|], key), m, |m.order|);
    assert Values(m)[..|m.order|] == Values(m);
    assert m.order[..|m.order|] == m.order;
  }

  function Forgetful(p: Participant): Participant {
    p.(rtpCapabilities := None)
  }

  /** The participants in their order, without their RTP capabilities. */
  function AllForgetful(m: JsMap<ParticipantId, Participant>): JsMap<ParticipantId, Participant> {
    Entries(m.order, map k | k in m.at :: Forgetful(m.at[k]))
  }

  lemma ParticipantRoundTrip(p: Participant)
    requires WellKeyedParticipant(p)
    ensures RestoreParticipant(SnapshotOfParticipant(p)) == Forgetful(p)
  {
    RebuildInverts(p.producers, ProducerKey);
    RebuildInverts(p.consumers, ConsumerKey);
  }

  lemma {:induction false} ParticipantsRoundTrip(room: Room)
    requires WellKeyed(room)
    ensures RestoreParticipants(SnapshotsOf(Values(room.participants))) == Values(AllForgetful(room.participants))
  {
    var m := room.participants;
    forall i | 0 <= i < |m.order|
      ensures RestoreParticipants(SnapshotsOf(Values(m)))[i] == Values(AllForgetful(m))[i]
    {
      ParticipantRoundTrip(m.at[m.order[i]]);
    }
  }

  lemma {:induction false} RoomRoundTrip(r: RoomId, room: Room, now: nat)
    requires WellKeyed(room) && room.id == r
    ensures RoomFromSnapshot(r, SnapshotOf(room), now) ==
            room.(participants := AllForgetful(room.participants), createdAt := now)
  {
    ParticipantsRoundTrip(room);
    RebuildInverts(AllForgetful(room.participants), ParticipantKey);
  }

  /**
   * A restarted instance that loads what was persisted has the same room but for RTP capabilities and creation time,
   * exactly when the room's router id is not empty; otherwise it finds nothing.
   */
  lemma {:induction false} LoadAfterPersist(w: Cluster, r: RoomId, now: nat)
    requires r in w.rooms && WellKeyed(w.rooms[r]) && w.rooms[r].id == r
    ensures var room := w.rooms[r];
            var restarted := Persist(w, r).(rooms := map[]);
            LoadRoomState(restarted, r, now).rooms ==
            if room.routerId == "" then map[]
            else map[r := room.(participants := AllForgetful(room.participants), createdAt := now)]
  {
    RoomRoundTrip(r, w.rooms[r], now);
  }

  /** Persisting a loaded room again writes the same record. */
  lemma {:induction false} PersistAfterLoad(r: RoomId, room: Room, now: nat)
    requires WellKeyed(room) && room.id == r
    ensures SnapshotOf(RoomFromSnapshot(r, SnapshotOf(room), now)) == SnapshotOf(room)
  {
    RoomRoundTrip(r, room, now);
    var ps, qs := Values(room.participants), Values(AllForgetful(room.participants));
    assert forall i :: 0 <= i < |ps| ==> qs[i] == Forgetful(ps[i]);
  }
}

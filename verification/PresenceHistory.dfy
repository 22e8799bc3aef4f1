/** What every row of the three tables says about the calls that were made: who inserted it, who changed it last. */
module PresenceHistory {
  import opened Options
  import opened Presence

  // ---- participants -------------------------------------------------------------------------------------------

  /** A join of a room that exists, by a member of its organisation or to a public room. */
  predicate Admits(db: Db, step: Step) {
    step.Join? && step.room in db.rooms && (step.member || db.rooms[step.room].isPublic)
  }

  /** Exactly such joins insert a row, one each, at the end; the others change nothing. */
  lemma JoinInserts(db: Db, step: Step)
    requires step.Join?
    ensures |Next(db, step).participants| == |db.participants| + if Admits(db, step) then 1 else 0
    ensures !Admits(db, step) ==> Next(db, step) == db
  {
  }

  /** The row the join inserts: with the session that is open then, and as host exactly for the room's creator. */
  ghost predicate InsertedBy(db: Db, step: Step, row: ParticipantRow) {
    && Admits(db, step)
    && row.id == step.id && row.room == step.room && row.user == step.user && row.name == step.name
    && row.joinedAt == step.now && row.session == ActiveId(db.sessions, row.room)
    && row.role == if db.rooms[row.room].createdBy == row.user then "host" else "viewer"
  }

  /** The step ends the user's presence in the room: it leaves, is removed, or joins anew. */
  predicate Parts(db: Db, step: Step, room: Uuid, user: Uuid) {
    (step.Leave? || Admits(db, step)) && step.room == room && step.user == user
  }

  predicate PartsAt(steps: seq<Step>, j: nat, row: ParticipantRow)
    requires j < |steps|
  {
    Parts(Before(steps, j), steps[j], row.room, row.user)
  }

  /** Since step `i` nobody ended the presence. */
  ghost predicate StillThere(steps: seq<Step>, i: nat, row: ParticipantRow) {
    row.leftAt.None? && row.connected && forall j: nat :: i < j < |steps| ==> !PartsAt(steps, j, row)
  }

  /** Step `j` was the first after step `i` to end it. */
  ghost predicate LeftBy(steps: seq<Step>, i: nat, j: nat, row: ParticipantRow) {
    && i < j < |steps| && PartsAt(steps, j, row) && row.leftAt == Some(steps[j].now) && !row.connected
    && forall m: nat :: i < m < j ==> !PartsAt(steps, m, row)
  }

  /** Step `i` inserted the row, and the row tells whether and when the presence ended. */
  ghost predicate RowOf(steps: seq<Step>, i: nat, row: ParticipantRow) {
    && i < |steps| && InsertedBy(Before(steps, i), steps[i], row)
    && (StillThere(steps, i, row) || exists j: nat :: LeftBy(steps, i, j, row))
  }

  lemma BeforeIs(steps: seq<Step>, j: nat)
    requires j < |steps|
    ensures j + 1 < |steps| ==> Before(steps[..|steps| - 1], j) == Before(steps, j)
    ensures j + 1 == |steps| ==> Before(steps, j) == After(EMPTY, steps[..|steps| - 1])
  {
    if j + 1 < |steps| {
      BeforeFront(steps, j);
    }
  }

  lemma PartsFront(steps: seq<Step>, row: ParticipantRow, row': ParticipantRow)
    requires steps != [] && row'.room == row.room && row'.user == row.user
    ensures var n := |steps| - 1;
            && (forall j: nat | j < n :: PartsAt(steps, j, row') <==> PartsAt(steps[..n], j, row))
            && (PartsAt(steps, n, row') <==> Parts(After(EMPTY, steps[..n]), steps[n], row.room, row.user))
  {
    var n := |steps| - 1;
    forall j: nat | j < n
      ensures PartsAt(steps, j, row') <==> PartsAt(steps[..n], j, row)
    {
      BeforeIs(steps, j);
    }
    BeforeIs(steps, n);
  }

  /** One more step: the row stays as it is, or it is marked as left by that step. */
  lemma StepRow(db: Db, step: Step, k: nat)
    requires k < |db.participants|
    ensures var row, row' := db.participants[k], Next(db, step).participants[k];
            row' == if row.leftAt.None? && Parts(db, step, row.room, row.user)
                    then row.(leftAt := Some(step.now), connected := false) else row
  {
  }

  lemma RowEarlier(steps: seq<Step>, i: nat, row: ParticipantRow, row': ParticipantRow)
    requires steps != [] && RowOf(steps[..|steps| - 1], i, row)
    requires var n := |steps| - 1;
             row' == if row.leftAt.None? && Parts(After(EMPTY, steps[..n]), steps[n], row.room, row.user)
                     then row.(leftAt := Some(steps[n].now), connected := false) else row
    ensures RowOf(steps, i, row')
  {
    hide Parts, InsertedBy;
    var n := |steps| - 1;
    BeforeIs(steps, i);
    InsertedSame(Before(steps, i), steps[i], row, row');
    PartsFront(steps, row, row');
    if row.leftAt.None? {
      assert StillThere(steps[..n], i, row);
      if PartsAt(steps, n, row') {
        assert LeftBy(steps, i, n, row');
      } else {
        assert StillThere(steps, i, row');
      }
    } else {
      var j: nat :| LeftBy(steps[..n], i, j, row);
      assert LeftBy(steps, i, j, row');
    }
  }

  lemma InsertedSame(db: Db, step: Step, row: ParticipantRow, row': ParticipantRow)
    requires InsertedBy(db, step, row) && row' == row.(leftAt := row'.leftAt, connected := row'.connected)
    ensures InsertedBy(db, step, row')
  {
  }

  lemma NewRow(steps: seq<Step>, row: ParticipantRow)
    requires steps != [] && InsertedBy(After(EMPTY, steps[..|steps| - 1]), steps[|steps| - 1], row)
    requires row.leftAt.None? && row.connected
    ensures RowOf(steps, |steps| - 1, row)
  {
    BeforeIs(steps, |steps| - 1);
    assert StillThere(steps, |steps| - 1, row);
  }

  /**
   * Over every run, for every participant row: which join inserted it, and which step ended the presence, if any did.
   */
  lemma {:induction false} RowHistory(steps: seq<Step>, k: nat) returns (i: nat)
    requires AllPossible(EMPTY, steps) && k < |After(EMPTY, steps).participants|
    ensures RowOf(steps, i, After(EMPTY, steps).participants[k])
    decreases |steps|
  {
    hide RowOf, InsertedBy, Parts;
    var n := |steps| - 1;
    var d, last := After(EMPTY, steps[..n]), steps[n];
    if k < |d.participants| {
      i := RowHistory(steps[..n], k);
      StepRow(d, last, k);
      RowEarlier(steps, i, d.participants[k], Next(d, last).participants[k]);
    } else {
      i := n;
      AppendedRow(d, last, k);
      NewRow(steps, Next(d, last).participants[k]);
    }
  }

  lemma AppendedRow(db: Db, step: Step, k: nat)
    requires |db.participants| <= k < |Next(db, step).participants|
    ensures var row := Next(db, step).participants[k]; InsertedBy(db, step, row) && row.leftAt.None? && row.connected
  {
  }

  // ---- rooms --------------------------------------------------------------------------------------------------------

  /** The step changes the room's status, and to what. */
  function Turns(db: Db, step: Step, r: Uuid): Option<Status> {
    match step
    case Create(room, _, _, _) => if room == r then Some(Scheduled) else None
    case Start(room, _, _, _) => if room == r && r in db.rooms then Some(Live) else None
    case End(room, _) => if room == r && r in db.rooms then Some(Ended) else None
    case Cancel(room, _) => if room == r && r in db.rooms then Some(Cancelled) else None
    case _ => None
  }

  function TurnsAt(steps: seq<Step>, j: nat, r: Uuid): Option<Status>
    requires j < |steps|
  {
    Turns(Before(steps, j), steps[j], r)
  }

  /** Step `i` created the room with this creator and visibility, and step `j` was the last to change its status. */
  ghost predicate RoomOf(steps: seq<Step>, i: nat, j: nat, r: Uuid, room: RoomRow) {
    && i <= j < |steps| && steps[i].Create? && steps[i].room == r && room.id == r
    && room.createdBy == steps[i].user && room.isPublic == steps[i].isPublic
    && TurnsAt(steps, j, r) == Some(room.status) && forall m: nat :: j < m < |steps| ==> TurnsAt(steps, m, r).None?
  }

  lemma StepRoom(db: Db, step: Step, r: Uuid)
    requires Possible(db, step) && r in db.rooms
    ensures var room, room' := db.rooms[r], Next(db, step).rooms[r];
            && room'.id == room.id && room'.createdBy == room.createdBy && room'.isPublic == room.isPublic
            && room'.status == if Turns(db, step, r).Some? then Turns(db, step, r).value else room.status
  {
  }

  lemma TurnsFront(steps: seq<Step>, r: Uuid)
    requires steps != []
    ensures var n := |steps| - 1;
            && (forall j: nat | j < n :: TurnsAt(steps, j, r) == TurnsAt(steps[..n], j, r))
            && TurnsAt(steps, n, r) == Turns(After(EMPTY, steps[..n]), steps[n], r)
  {
    var n := |steps| - 1;
    forall j: nat | j < n
      ensures TurnsAt(steps, j, r) == TurnsAt(steps[..n], j, r)
    {
      BeforeIs(steps, j);
    }
    BeforeIs(steps, n);
  }

  /** Over every run, for every room: who created it and how, and which step its status comes from. */
  lemma {:induction false} RoomHistory(steps: seq<Step>, r: Uuid) returns (i: nat, j: nat)
    requires AllPossible(EMPTY, steps) && r in After(EMPTY, steps).rooms
    ensures RoomOf(steps, i, j, r, After(EMPTY, steps).rooms[r])
    decreases |steps|
  {
    hide Turns;
    var n := |steps| - 1;
    var d, last := After(EMPTY, steps[..n]), steps[n];
    TurnsFront(steps, r);
    if r in d.rooms {
      i, j := RoomHistory(steps[..n], r);
      StepRoom(d, last, r);
      if Turns(d, last, r).Some? {
        j := n;
      }
    } else {
      CreatedRoom(d, last, r);
      i, j := n, n;
    }
  }

  lemma CreatedRoom(db: Db, step: Step, r: Uuid)
    requires r !in db.rooms && r in Next(db, step).rooms
    ensures var room := Next(db, step).rooms[r];
            && step.Create? && step.room == r && room.id == r
            && room.createdBy == step.user && room.isPublic == step.isPublic && Turns(db, step, r) == Some(room.status)
  {
  }

  /** Nobody from outside the organisation is ever in a room that is not public. */
  lemma PrivateRoomsClosed(steps: seq<Step>, k: nat) returns (i: nat)
    requires AllPossible(EMPTY, steps) && k < |After(EMPTY, steps).participants|
    ensures var db := After(EMPTY, steps);
            var row := db.participants[k];
            && i < |steps| && steps[i].Join? && steps[i].id == row.id && row.room in db.rooms
            && (db.rooms[row.room].isPublic || steps[i].member)
            && (row.role == "host" <==> db.rooms[row.room].createdBy == row.user)
  {
    hide After, AllPossible, Next;
    i := RowHistory(steps, k);
    RoomsKept(steps, i, After(EMPTY, steps).participants[k].room);
  }

  lemma {:induction false} RoomsKept(steps: seq<Step>, i: nat, r: Uuid)
    requires AllPossible(EMPTY, steps) && i < |steps| && r in Before(steps, i).rooms
    ensures var room, db := Before(steps, i).rooms[r], After(EMPTY, steps);
            r in db.rooms && db.rooms[r].createdBy == room.createdBy && db.rooms[r].isPublic == room.isPublic
    decreases |steps|
  {
    hide Next;
    var n := |steps| - 1;
    BeforeIs(steps, i);
    if i < n {
      RoomsKept(steps[..n], i, r);
    }
    RoomStays(After(EMPTY, steps[..n]), steps[n], r);
  }

  lemma RoomStays(db: Db, step: Step, r: Uuid)
    requires Possible(db, step) && r in db.rooms
    ensures r in Next(db, step).rooms && Next(db, step).rooms[r].createdBy == db.rooms[r].createdBy
    ensures Next(db, step).rooms[r].isPublic == db.rooms[r].isPublic
  {
  }

  // ---- sessions --------------------------------------------------------------------------------------------------

  predicate EndsAt(steps: seq<Step>, j: nat, s: SessionRow)
    requires j < |steps|
  {
    steps[j].End? && steps[j].room == s.room && s.room in Before(steps, j).rooms
  }

  /** Step `i` started the session, and the first end of its room after that ended it, if there was one. */
  ghost predicate SessionOf(steps: seq<Step>, i: nat, s: SessionRow) {
    && i < |steps| && steps[i].Start? && steps[i].room == s.room && s.room in Before(steps, i).rooms
    && s.id == steps[i].session && s.host == steps[i].user && s.startedAt == steps[i].now
    && ((s.endedAt.None? && forall j: nat :: i < j < |steps| ==> !EndsAt(steps, j, s))
        || exists j: nat :: EndedBy(steps, i, j, s))
  }

  ghost predicate EndedBy(steps: seq<Step>, i: nat, j: nat, s: SessionRow) {
    && i < j < |steps| && EndsAt(steps, j, s) && s.endedAt == Some(steps[j].now)
    && forall m: nat :: i < m < j ==> !EndsAt(steps, m, s)
  }

  lemma StepSession(db: Db, step: Step, k: nat)
    requires k < |db.sessions|
    ensures k < |Next(db, step).sessions|
    ensures var s := db.sessions[k];
            Next(db, step).sessions[k] ==
            if s.endedAt.None? && step.End? && step.room == s.room &&
                s.room in db.rooms then s.(endedAt := Some(step.now))
            else s
  {
  }

  lemma AppendedSession(db: Db, step: Step, k: nat)
    requires |db.sessions| <= k < |Next(db, step).sessions|
    ensures var s := Next(db, step).sessions[k];
            && step.Start? && step.room == s.room && s.room in db.rooms && s.endedAt.None?
            && s.id == step.session && s.host == step.user && s.startedAt == step.now
  {
  }

  lemma EndsFront(steps: seq<Step>, s: SessionRow, s': SessionRow)
    requires steps != [] && s'.room == s.room
    ensures var n := |steps| - 1;
            && (forall j: nat | j < n :: EndsAt(steps, j, s') <==> EndsAt(steps[..n], j, s))
            && (EndsAt(steps, n, s') <==>
                  steps[n].End? && steps[n].room == s.room && s.room in After(EMPTY, steps[..n]).rooms)
  {
    var n := |steps| - 1;
    forall j: nat | j < n
      ensures EndsAt(steps, j, s') <==> EndsAt(steps[..n], j, s)
    {
      BeforeIs(steps, j);
    }
    BeforeIs(steps, n);
  }

  lemma SessionEarlier(steps: seq<Step>, i: nat, s: SessionRow, s': SessionRow)
    requires steps != [] && SessionOf(steps[..|steps| - 1], i, s)
    requires var n := |steps| - 1;
             s' == if s.endedAt.None? && steps[n].End? && steps[n].room == s.room &&
                 s.room in After(EMPTY, steps[..n]).rooms
                   then s.(endedAt := Some(steps[n].now)) else s
    ensures SessionOf(steps, i, s')
  {
    var n := |steps| - 1;
    BeforeIs(steps, i);
    EndsFront(steps, s, s');
    if s.endedAt.None? {
      if EndsAt(steps, n, s') {
        assert EndedBy(steps, i, n, s');
      }
    } else {
      var j: nat :| EndedBy(steps[..n], i, j, s);
      assert EndedBy(steps, i, j, s');
    }
  }

  /** Over every run, for every session: which start opened it, and which end closed it, if any did. */
  lemma {:induction false} SessionHistory(steps: seq<Step>, k: nat) returns (i: nat)
    requires AllPossible(EMPTY, steps) && k < |After(EMPTY, steps).sessions|
    ensures SessionOf(steps, i, After(EMPTY, steps).sessions[k])
    decreases |steps|
  {
    hide Next;
    var n := |steps| - 1;
    var d, last := After(EMPTY, steps[..n]), steps[n];
    if k < |d.sessions| {
      i := SessionHistory(steps[..n], k);
      StepSession(d, last, k);
      SessionEarlier(steps, i, d.sessions[k], Next(d, last).sessions[k]);
    } else {
      i := n;
      AppendedSession(d, last, k);
      BeforeIs(steps, n);
    }
  }
}

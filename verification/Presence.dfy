/** Rooms, their live sessions and who is present: the three tables and what the API handlers do to them. */
module Presence {
  import opened Options
  import opened Sorting

  type Uuid = nat
  type Time = nat

  datatype Status = Scheduled | Live | Ended | Cancelled

  datatype RoomRow = RoomRow(id: Uuid, createdBy: Uuid, isPublic: bool, status: Status, actualStart: Option<Time>,
                             actualEnd: Option<Time>)
  datatype SessionRow = SessionRow(id: Uuid, room: Uuid, host: Uuid, startedAt: Time, endedAt: Option<Time>)
  datatype ParticipantRow = ParticipantRow(
    id: Uuid, room: Uuid, session: Option<Uuid>, user: Uuid, role: string, name: string, connected: bool,
    joinedAt: Time, leftAt: Option<Time>)

  /** Rows are kept in the order they were inserted. */
  datatype Db = Db(rooms: map<Uuid, RoomRow>, sessions: seq<SessionRow>, participants: seq<ParticipantRow>)

  // ---- statements ---------------------------------------------------------------------------------

  predicate IsActive(p: ParticipantRow, room: Uuid, user: Uuid) {
    p.room == room && p.user == user && p.leftAt.None?
  }

  function Left(p: ParticipantRow, room: Uuid, user: Uuid, now: Time): ParticipantRow {
    if IsActive(p, room, user) then p.(leftAt := Some(now), connected := false) else p
  }

  /** The update that marks a user's active rows in a room as left. */
  function MarkLeft(ps: seq<ParticipantRow>, room: Uuid, user: Uuid, now: Time): (r: seq<ParticipantRow>)
    ensures |r| == |ps| && forall i :: 0 <= i < |r| ==> r[i] == Left(ps[i], room, user, now)
  {
    seq(|ps|, i requires 0 <= i < |ps| => Left(ps[i], room, user, now))
  }

  predicate IsOpen(s: SessionRow, room: Uuid) {
    s.room == room && s.endedAt.None?
  }

  function Closed(s: SessionRow, room: Uuid, now: Time): SessionRow {
    if IsOpen(s, room) then s.(endedAt := Some(now)) else s
  }

  /** The update that ends a room's open sessions. */
  function CloseActive(ss: seq<SessionRow>, room: Uuid, now: Time): (r: seq<SessionRow>)
    ensures |r| == |ss| && forall i :: 0 <= i < |r| ==> r[i] == Closed(ss[i], room, now)
  {
    seq(|ss|, i requires 0 <= i < |ss| => Closed(ss[i], room, now))
  }

  /** The open session of the room that started last; among equal times, the row inserted last. */
  function Active(ss: seq<SessionRow>, room: Uuid): (r: Option<SessionRow>)
    ensures r.Some? ==> r.value in ss && IsOpen(r.value, room) && forall s | s in ss && IsOpen(s, room) ::
              s.startedAt <= r.value.startedAt
    ensures r.None? ==> forall s | s in ss :: !IsOpen(s, room)
  {
    if ss == [] then None
    else
      var front, last := Active(ss[..|ss| - 1], room), ss[|ss| - 1];
      assert ss == ss[..|ss| - 1] + [last];
      if IsOpen(last, room) && (front.None? || front.value.startedAt <= last.startedAt) then Some(last) else front
  }

  function ActiveId(ss: seq<SessionRow>, room: Uuid): Option<Uuid> {
    if Active(ss, room).None? then None else Some(Active(ss, room).value.id)
  }

  // ---- handlers -----------------------------------------------------------------------------------------

  datatype Step =
    | Create(room: Uuid, user: Uuid, isPublic: bool, now: Time)
    | Start(room: Uuid, user: Uuid, session: Uuid, now: Time)
    | End(room: Uuid, now: Time)
    | Join(room: Uuid, user: Uuid, member: bool, name: string, id: Uuid, now: Time)
    | Leave(room: Uuid, user: Uuid, now: Time)        // leave, and the kick of moderate
    | Cancel(room: Uuid, now: Time)

  /** Generated ids are new. */
  ghost predicate Possible(db: Db, step: Step) {
    && (step.Create? ==> step.room !in db.rooms)
    && (step.Start? ==> forall s | s in db.sessions :: s.id != step.session)
    && (step.Join? ==> forall p | p in db.participants :: p.id != step.id)
  }

  predicate MayJoin(room: RoomRow, member: bool) {
    member || room.isPublic
  }

  function Next(db: Db, step: Step): Db {
    match step
    case Create(room, user, isPublic, now) => db.(rooms :=
        db.rooms[room := RoomRow(room, user, isPublic, Scheduled, None, None)])
    case Start(room, user, session, now) =>
      if room !in db.rooms then db
      else
        var row := db.rooms[room];
        db.(sessions := db.sessions + [SessionRow(session, room, user, now, None)],
           rooms := db.rooms[room := row.(
             status := Live, actualStart := if row.actualStart.Some? then row.actualStart else Some(now))])
    case End(room, now) =>
      if room !in db.rooms then db
      else
        db.(sessions := CloseActive(db.sessions, room, now),
           rooms := db.rooms[room := db.rooms[room].(status := Ended, actualEnd := Some(now))])
    case Join(room, user, member, name, id, now) =>
      if room !in db.rooms || !MayJoin(db.rooms[room], member) then db
      else
        var role := if db.rooms[room].createdBy == user then "host" else "viewer";
        db.(participants := MarkLeft(db.participants, room, user, now)
                           + [ParticipantRow(id, room, ActiveId(db.sessions, room), user, role, name, true, now, None)])
    case Leave(room, user, now) => db.(participants := MarkLeft(db.participants, room, user, now))
    case Cancel(room, now) =>
      if room !in db.rooms then db else db.(rooms := db.rooms[room := db.rooms[room].(status := Cancelled)])
  }

  function After(db: Db, steps: seq<Step>): Db
    decreases |steps|
  {
    if steps == [] then db else Next(After(db, steps[..|steps| - 1]), steps[|steps| - 1])
  }

  ghost predicate AllPossible(db: Db, steps: seq<Step>)
    decreases |steps|
  {
    steps == [] ||
    (AllPossible(db, steps[..|steps| - 1]) && Possible(After(db, steps[..|steps| - 1]), steps[|steps| - 1]))
  }

  const EMPTY := Db(map[], [], [])

  // ---- invariants -------------------------------------------------------------------------------------------

  ghost predicate OneActive(ps: seq<ParticipantRow>) {
    forall i, j :: 0 <= i < j < |ps| && ps[i].leftAt.None? && ps[j].leftAt.None? ==>
        ps[i].room != ps[j].room || ps[i].user != ps[j].user
  }

  /** A live room has an open session and a start time; an ended one has no open session and an end time. */
  ghost predicate StatusOk(room: RoomRow, ss: seq<SessionRow>) {
    && (room.status.Live? ==> room.actualStart.Some? && exists s :: s in ss && IsOpen(s, room.id))
    && (room.status.Ended? ==> room.actualEnd.Some? && forall s | s in ss :: !IsOpen(s, room.id))
  }

  ghost predicate RoomsOk(db: Db) {
    forall r | r in db.rooms :: db.rooms[r].id == r && StatusOk(db.rooms[r], db.sessions)
  }

  ghost predicate SessionsUnique(ss: seq<SessionRow>) {
    forall i, j :: 0 <= i < j < |ss| ==> ss[i].id != ss[j].id
  }

  ghost predicate Inv(db: Db) {
    OneActive(db.participants) && RoomsOk(db) && SessionsUnique(db.sessions)
  }

  /** What a participant row keeps for ever. */
  ghost predicate SameRow(p: ParticipantRow, q: ParticipantRow) {
    && q.(leftAt := p.leftAt, connected := p.connected) == p
    && (p.leftAt.Some? ==> q == p)
  }

  ghost predicate SameSession(s: SessionRow, t: SessionRow) {
    t.(endedAt := s.endedAt) == s && (s.endedAt.Some? ==> t == s)
  }

  /** Nothing is forgotten: rows stay, with their identity; a start time, once set, stays. */
  ghost predicate Remembers(a: Db, b: Db) {
    && |a.participants| <= |b.participants|
    && (forall i :: 0 <= i < |a.participants| ==> SameRow(a.participants[i], b.participants[i]))
    && |a.sessions| <= |b.sessions| && (forall i :: 0 <= i < |a.sessions| ==> SameSession(a.sessions[i], b.sessions[i]))
    && (forall r | r in a.rooms ::
          r in b.rooms && (a.rooms[r].actualStart.Some? ==> b.rooms[r].actualStart == a.rooms[r].actualStart))
  }

  // ---- one step ---------------------------------------------------------------------------------------------

  lemma MarkLeftOne(ps: seq<ParticipantRow>, room: Uuid, user: Uuid, now: Time)
    requires OneActive(ps)
    ensures OneActive(MarkLeft(ps, room, user, now))
    ensures forall p | p in MarkLeft(ps, room, user, now) :: !IsActive(p, room, user)
  {
  }

  lemma StartStatus(row: RoomRow, ss: seq<SessionRow>, s: SessionRow, other: RoomRow)
    requires s.room == row.id && s.endedAt.None? && row.status.Live? && row.actualStart.Some?
    requires StatusOk(other, ss) && other.id != row.id
    ensures StatusOk(row, ss + [s]) && StatusOk(other, ss + [s])
  {
    assert s in ss + [s] && IsOpen(s, row.id);
    if other.status.Live? {
      var t :| t in ss && IsOpen(t, other.id);
      assert t in ss + [s];
    }
  }

  lemma StartedIsOk(row: RoomRow, ss: seq<SessionRow>, s: SessionRow)
    requires s.room == row.id && s.endedAt.None? && row.status.Live? && row.actualStart.Some?
    ensures StatusOk(row, ss + [s])
  {
    assert s in ss + [s] && IsOpen(s, row.id);
  }

  lemma StartKeeps(db: Db, step: Step)
    requires Inv(db) && Possible(db, step) && step.Start? && step.room in db.rooms
    ensures Inv(Next(db, step))
  {
    hide StatusOk, OneActive;
    var d, s := Next(db, step), SessionRow(step.session, step.room, step.user, step.now, None);
    forall r | r in d.rooms
      ensures d.rooms[r].id == r && StatusOk(d.rooms[r], d.sessions)
    {
      StartedIsOk(d.rooms[step.room], db.sessions, s);
      if r != step.room {
        StartStatus(d.rooms[step.room], db.sessions, s, db.rooms[r]);
      }
    }
  }

  lemma EndKeeps(db: Db, step: Step)
    requires Inv(db) && Possible(db, step) && step.End? && step.room in db.rooms
    ensures Inv(Next(db, step))
  {
  }

  lemma JoinKeeps(db: Db, step: Step)
    requires Inv(db) && step.Join? && step.room in db.rooms && MayJoin(db.rooms[step.room], step.member)
    ensures Inv(Next(db, step))
  {
    hide StatusOk;
  }

  lemma StepKeeps(db: Db, step: Step)
    requires Inv(db) && Possible(db, step)
    ensures Inv(Next(db, step))
  {
    match step
    case Start(room, user, session, now) =>
      if room in db.rooms {
        StartKeeps(db, step);
      }
    case End(room, now) =>
      if room in db.rooms {
        EndKeeps(db, step);
      }
    case Join(room, user, member, name, id, now) =>
      if room in db.rooms && MayJoin(db.rooms[room], member) {
        JoinKeeps(db, step);
      }
    case Leave(room, user, now) => MarkLeftOne(db.participants, room, user, now);
    case _ =>
  }

  lemma StepRemembers(db: Db, step: Step)
    requires Possible(db, step)
    ensures Remembers(db, Next(db, step))
  {
  }

  lemma RemembersChain(a: Db, b: Db, c: Db)
    requires Remembers(a, b) && Remembers(b, c)
    ensures Remembers(a, c)
  {
  }

  // ---- runs -----------------------------------------------------------------------------------------------------

  /** Over every sequence of handlers: the tables stay consistent, and no row is lost or rewritten. */
  lemma {:induction false} PresenceOverRuns(db: Db, steps: seq<Step>)
    requires Inv(db) && AllPossible(db, steps)
    ensures Inv(After(db, steps)) && Remembers(db, After(db, steps))
    decreases |steps|
  {
    if steps != [] {
      var d, last := After(db, steps[..|steps| - 1]), steps[|steps| - 1];
      PresenceOverRuns(db, steps[..|steps| - 1]);
      StepKeeps(d, last);
      StepRemembers(d, last);
      RemembersChain(db, d, Next(d, last));
    }
  }

  /** From empty tables: one active row per room and user, and sessions match room status. */
  lemma LifecycleFromStart(steps: seq<Step>)
    requires AllPossible(EMPTY, steps)
    ensures var db := After(EMPTY, steps);
            && (forall i, j ::
                  && 0 <= i < j < |db.participants|
                  && db.participants[i].leftAt.None? && db.participants[j].leftAt.None?
                  ==>
                  || db.participants[i].room != db.participants[j].room
                  || db.participants[i].user != db.participants[j].user)
            && (forall r | r in db.rooms && db.rooms[r].status.Live? ::
                  db.rooms[r].actualStart.Some? && ActiveId(db.sessions, r).Some?)
            && (forall r | r in db.rooms && db.rooms[r].status.Ended? ::
                  db.rooms[r].actualEnd.Some? && ActiveId(db.sessions, r).None?)
  {
    PresenceOverRuns(EMPTY, steps);
    var db := After(EMPTY, steps);
    forall r | r in db.rooms
      ensures db.rooms[r].status.Live? ==> db.rooms[r].actualStart.Some? && ActiveId(db.sessions, r).Some?
      ensures db.rooms[r].status.Ended? ==> db.rooms[r].actualEnd.Some? && ActiveId(db.sessions, r).None?
    {
      assert StatusOk(db.rooms[r], db.sessions);
    }
  }

  // ---- what the rows say about the run --------------------------------------------------------------------------

  /** The tables just before step `i`. */
  function Before(steps: seq<Step>, i: nat): Db
    requires i < |steps|
  {
    After(EMPTY, steps[..i])
  }

  lemma BeforeFront(steps: seq<Step>, i: nat)
    requires i + 1 < |steps|
    ensures Before(steps, i) == Before(steps[..|steps| - 1], i)
  {
    assert steps[..|steps| - 1][..i] == steps[..i];
  }

  /** The step takes effect on the room. */
  predicate StartsRoom(steps: seq<Step>, i: nat, r: Uuid)
    requires i < |steps|
  {
    steps[i].Start? && steps[i].room == r && r in Before(steps, i).rooms
  }

  predicate EndsRoom(steps: seq<Step>, i: nat, r: Uuid)
    requires i < |steps|
  {
    steps[i].End? && steps[i].room == r && r in Before(steps, i).rooms
  }

  /** Step `i` is the first that started the room. */
  ghost predicate FirstStart(steps: seq<Step>, i: nat, r: Uuid) {
    i < |steps| && StartsRoom(steps, i, r) && forall j :: 0 <= j < i ==> !StartsRoom(steps, j, r)
  }

  /** Step `i` is the last that ended the room. */
  ghost predicate LastEnd(steps: seq<Step>, i: nat, r: Uuid) {
    i < |steps| && EndsRoom(steps, i, r) && forall j :: i < j < |steps| ==> !EndsRoom(steps, j, r)
  }

  function StartOf(db: Db, r: Uuid): Option<Time> {
    if r in db.rooms then db.rooms[r].actualStart else None
  }

  function EndOf(db: Db, r: Uuid): Option<Time> {
    if r in db.rooms then db.rooms[r].actualEnd else None
  }

  lemma StartTimeStep(db: Db, step: Step, r: Uuid)
    requires Possible(db, step)
    ensures StartOf(Next(db, step), r) ==
            if StartOf(db, r).None? && step.Start? && step.room == r && r in db.rooms then Some(step.now)
                else StartOf(db, r)
    ensures EndOf(Next(db, step), r) == if step.End? && step.room == r && r in db.rooms then Some(step.now)
              else EndOf(db, r)
  {
  }

  /** A room's start time is that of the first start it had, however often it was started, ended and cancelled since. */
  lemma {:induction false} StartTimeIsFirst(steps: seq<Step>, r: Uuid) returns (i: nat)
    requires AllPossible(EMPTY, steps)
    ensures var start := StartOf(After(EMPTY, steps), r);
            if start.Some? then FirstStart(steps, i, r) && steps[i].now == start.value
            else forall j :: 0 <= j < |steps| ==> !StartsRoom(steps, j, r)
    decreases |steps|
  {
    i := 0;
    if steps != [] {
      hide Next, Possible;
      var n := |steps| - 1;
      i := StartTimeIsFirst(steps[..n], r);
      StartTimeStep(After(EMPTY, steps[..n]), steps[n], r);
      forall j | 0 <= j < n
        ensures StartsRoom(steps, j, r) <==> StartsRoom(steps[..n], j, r)
      {
        BeforeFront(steps, j);
      }
      if StartOf(After(EMPTY, steps[..n]), r).None? {
        i := n;
      }
    }
  }

  /** A room's end time is that of the last end it had. */
  lemma {:induction false} EndTimeIsLast(steps: seq<Step>, r: Uuid) returns (i: nat)
    requires AllPossible(EMPTY, steps)
    ensures var end := EndOf(After(EMPTY, steps), r);
            if end.Some? then LastEnd(steps, i, r) && steps[i].now == end.value
            else forall j :: 0 <= j < |steps| ==> !EndsRoom(steps, j, r)
    decreases |steps|
  {
    i := 0;
    if steps != [] {
      hide Next, Possible;
      var n := |steps| - 1;
      i := EndTimeIsLast(steps[..n], r);
      StartTimeStep(After(EMPTY, steps[..n]), steps[n], r);
      forall j | 0 <= j < n
        ensures EndsRoom(steps, j, r) <==> EndsRoom(steps[..n], j, r)
      {
        BeforeFront(steps, j);
      }
      if EndsRoom(steps, n, r) {
        i := n;
      }
    }
  }

  // ---- who is in the room ----------------------------------------------------------------------------------------

  predicate JoinedBefore(a: ParticipantRow, b: ParticipantRow) {
    a.joinedAt <= b.joinedAt
  }

  /** The active rows of the room, ordered by the time of joining. */
  function ListActive(db: Db, room: Uuid): seq<ParticipantRow> {
    Sort(Select(db.participants, (p: ParticipantRow) => p.room == room && p.leftAt.None?), JoinedBefore)
  }

  lemma {:induction false} SelectPicks(ps: seq<ParticipantRow>, keep: ParticipantRow -> bool, n: nat)
    requires n <= |ps|
    ensures forall p :: p in Select(ps[..n], keep) <==> p in ps[..n] && keep(p)
  {
    if n > 0 {
      SelectPicks(ps, keep, n - 1);
      assert ps[..n][..n - 1] == ps[..n - 1];
      assert ps[..n] == ps[..n - 1] + [ps[n - 1]];
    }
  }

  /** The list is the active rows of the room, each user once, in order of joining. */
  lemma ListActiveIs(db: Db, room: Uuid)
    requires Inv(db)
    ensures forall p :: p in ListActive(db, room) <==> p in db.participants && p.room == room && p.leftAt.None?
    ensures forall p, q | p in ListActive(db, room) && q in ListActive(db, room) && p.user == q.user :: p == q
    ensures var rows := ListActive(db, room);
            forall i, j :: 0 <= i < j < |rows| ==> rows[i].joinedAt <= rows[j].joinedAt
  {
    var keep := (p: ParticipantRow) => p.room == room && p.leftAt.None?;
    var rows := Select(db.participants, keep);
    SelectPicks(db.participants, keep, |db.participants|);
    assert db.participants[..|db.participants|] == db.participants;
    SortSorted(rows, JoinedBefore);
    SortPermutes(rows, JoinedBefore);
    forall p
      ensures p in ListActive(db, room) <==> p in rows
    {
      assert p in multiset(ListActive(db, room)) <==> p in multiset(rows);
    }
    forall p, q | p in rows && q in rows && p.user == q.user
      ensures p == q
    {
      var i :| 0 <= i < |db.participants| && db.participants[i] == p;
      var j :| 0 <= j < |db.participants| && db.participants[j] == q;
    }
  }
}

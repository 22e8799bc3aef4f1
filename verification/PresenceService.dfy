/** The room lifecycle handlers as code over mutable tables: one loop for each UPDATE or search. */
module PresenceService {
  import opened Options
  import opened Presence

  datatype Reply<T> = Ok(value: T) | NotFound | Forbidden

  class Database {
    var rooms: map<Uuid, RoomRow>
    var sessions: seq<SessionRow>
    var participants: seq<ParticipantRow>

    constructor ()
      ensures State() == EMPTY
    {
      rooms, sessions, participants := map[], [], [];
    }

    ghost function State(): Db
      reads this
    {
      Db(rooms, sessions, participants)
    }

    // ---- participants.rs -----------------------------------------------------------------------

    method MarkParticipantLeft(room: Uuid, user: Uuid, now: Time)
      modifies this`participants
      ensures participants == MarkLeft(old(participants), room, user, now)
    {
      var i := 0;
      while i < |participants|
        invariant i <= |participants| == |old(participants)|
        invariant forall j :: 0 <= j < |participants| ==>
                    participants[j] == if j < i then Left(old(participants)[j], room, user, now)
                        else old(participants)[j]
      {
        var p := participants[i];
        if p.room == room && p.user == user && p.leftAt.None? {
          participants := participants[i := p.(leftAt := Some(now), connected := false)];
        }
        i := i + 1;
      }
    }

    method JoinParticipant(room: Uuid, session: Option<Uuid>, user: Uuid, role: string, name: string, id: Uuid,
                           now: Time)
      returns (row: ParticipantRow)
      modifies this`participants
      ensures row == ParticipantRow(id, room, session, user, role, name, true, now, None)
      ensures participants == MarkLeft(old(participants), room, user, now) + [row]
    {
      MarkParticipantLeft(room, user, now);
      row := ParticipantRow(id, room, session, user, role, name, true, now, None);
      participants := participants + [row];
    }

    // ---- sessions.rs ----------------------------------------------------------------------------

    method OpenSession(room: Uuid, host: Uuid, id: Uuid, now: Time)
      modifies this`sessions
      ensures sessions == old(sessions) + [SessionRow(id, room, host, now, None)]
    {
      sessions := sessions + [SessionRow(id, room, host, now, None)];
    }

    method ActiveSession(room: Uuid) returns (id: Option<Uuid>)
      ensures id == ActiveId(sessions, room)
    {
      var best: Option<SessionRow> := None;
      var i := 0;
      while i < |sessions|
        invariant i <= |sessions| && best == Active(sessions[..i], room)
      {
        assert sessions[..i + 1][..i] == sessions[..i];
        var s := sessions[i];
        if s.room == room && s.endedAt.None? && (best.None? || best.value.startedAt <= s.startedAt) {
          best := Some(s);
        }
        i := i + 1;
      }
      assert sessions[..i] == sessions;
      return if best.None? then None else Some(best.value.id);
    }

    method CloseActiveSessions(room: Uuid, now: Time)
      modifies this`sessions
      ensures sessions == CloseActive(old(sessions), room, now)
    {
      var i := 0;
      while i < |sessions|
        invariant i <= |sessions| == |old(sessions)|
        invariant forall j :: 0 <= j < |sessions| ==>
                    sessions[j] == if j < i then Closed(old(sessions)[j], room, now) else old(sessions)[j]
      {
        var s := sessions[i];
        if s.room == room && s.endedAt.None? {
          sessions := sessions[i := s.(endedAt := Some(now))];
        }
        i := i + 1;
      }
    }

    // ---- rooms.rs ------------------------------------------------------------------------------

    method MarkLive(room: Uuid, now: Time)
      requires room in rooms
      modifies this`rooms
      ensures var row := old(rooms)[room];
              rooms == old(rooms)[room := row.(
                status := Live, actualStart := if row.actualStart.Some? then row.actualStart else Some(now))]
    {
      var row := rooms[room].(status := Live);
      if row.actualStart.None? {
        row := row.(actualStart := Some(now));
      }
      rooms := rooms[room := row];
    }

    method MarkEnded(room: Uuid, now: Time)
      requires room in rooms
      modifies this`rooms
      ensures rooms == old(rooms)[room := old(rooms)[room].(status := Ended, actualEnd := Some(now))]
    {
      rooms := rooms[room := rooms[room].(status := Ended, actualEnd := Some(now))];
    }

    // ---- rooms_live.rs -------------------------------------------------------------------------

    method HandleStart(room: Uuid, user: Uuid, session: Uuid, now: Time) returns (reply: Reply<Uuid>)
      modifies this
      ensures State() == Next(old(State()), Start(room, user, session, now))
      ensures reply == if room in old(rooms) then Ok(session) else NotFound
    {
      if room !in rooms {
        return NotFound;
      }
      OpenSession(room, user, session, now);
      MarkLive(room, now);
      return Ok(session);
    }

    method HandleEnd(room: Uuid, now: Time) returns (reply: Reply<RoomRow>)
      modifies this
      ensures State() == Next(old(State()), End(room, now))
      ensures reply == if room in old(rooms) then Ok(rooms[room]) else NotFound
    {
      if room !in rooms {
        return NotFound;
      }
      CloseActiveSessions(room, now);
      MarkEnded(room, now);
      return Ok(rooms[room]);
    }

    method HandleJoin(room: Uuid, user: Uuid, member: bool, name: string, id: Uuid, now: Time)
      returns (reply: Reply<ParticipantRow>)
      modifies this
      ensures State() == Next(old(State()), Join(room, user, member, name, id, now))
      ensures reply.NotFound? <==> room !in old(rooms)
      ensures reply.Forbidden? <==> room in old(rooms) && !member && !old(rooms)[room].isPublic
      ensures reply.Ok? ==> participants != [] && reply.value == participants[|participants| - 1]
    {
      if room !in rooms {
        return NotFound;
      }
      if !member && !rooms[room].isPublic {
        return Forbidden;
      }
      var role := if rooms[room].createdBy == user then "host" else "viewer";
      var session := ActiveSession(room);
      var row := JoinParticipant(room, session, user, role, name, id, now);
      return Ok(row);
    }

    method CreateRoom(room: Uuid, user: Uuid, isPublic: bool, now: Time)
      modifies this`rooms
      ensures State() == Next(old(State()), Create(room, user, isPublic, now))
    {
      rooms := rooms[room := RoomRow(room, user, isPublic, Scheduled, None, None)];
    }

    /** leave, and the kick of moderate. */
    method HandleLeave(room: Uuid, user: Uuid, now: Time)
      modifies this
      ensures State() == Next(old(State()), Leave(room, user, now))
    {
      MarkParticipantLeft(room, user, now);
    }

    method CancelRoom(room: Uuid, now: Time)
      modifies this
      ensures State() == Next(old(State()), Cancel(room, now))
    {
      if room in rooms {
        rooms := rooms[room := rooms[room].(status := Cancelled)];
      }
    }
  }

  /** Every request keeps the tables consistent. */
  method HandleRequest(db: Database, step: Step)
    requires Inv(db.State()) && Possible(db.State(), step)
    modifies db
    ensures db.State() == Next(old(db.State()), step) && Inv(db.State())
  {
    StepKeeps(db.State(), step);
    match step
    case Create(room, user, isPublic, now) => db.CreateRoom(room, user, isPublic, now);
    case Start(room, user, session, now) => var _ := db.HandleStart(room, user, session, now);
    case End(room, now) => var _ := db.HandleEnd(room, now);
    case Join(room, user, member, name, id, now) => var _ := db.HandleJoin(room, user, member, name, id, now);
    case Leave(room, user, now) => db.HandleLeave(room, user, now);
    case Cancel(room, now) => db.CancelRoom(room, now);
  }
}

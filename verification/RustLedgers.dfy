/** What a participant's record in the Rust room manager consists of, what becomes of a room, and what is released. */
module RustLedgers {
  import opened Options
  import opened RoomTypes
  import opened RustRooms

  // ---- participants -------------------------------------------------------------------------------------------

  /** The entry that a step makes for participant `pid` of room `r`. */
  function Booked(s: State, step: Step, r: RoomId, pid: ParticipantId, was: Member): Member
    requires Possible(s, step)
  {
    match step
    case Join(_, r0, user, role, name, now) =>
      if r0 == r && r in s.rooms && ParticipantId(user, now) == pid
      then Member(pid, user, name, role, None, None, None, map[], map[]) else was
    case Allocated(t, reply, now) =>
      var task := s.tasks[t];
      if reply.Some? && task.r == r && ParticipantId(task.user, now) == pid
      then Member(pid, task.user, task.name, task.role, None, None, None, map[], map[]) else was
    case SetCapabilities(r0, pid0, caps) => if r0 == r && pid0 == pid then was.(rtpCapabilities := Some(caps)) else was
    case Answered(t, id, kind) => if id.None? then was else Answer(s.tasks[t], id.value, kind, r, pid, was)
    case _ => was
  }

  /** What the SFU's answer adds to the participant it was asked for; a closed producer is taken from everyone. */
  function Answer(task: Task, id: Id, kind: Kind, r: RoomId, pid: ParticipantId, was: Member): Member {
    match task
    case Allocating(_, _, _, _) => was
    case MakingTransport(r0, pid0, direction) =>
      if r0 != r || pid0 != pid then was
      else if direction == "send" then was.(send := Some(id))
      else if direction == "recv" then was.(recv := Some(id))
      else was
    case Producing(r0, pid0, k, source) =>
      if r0 != r || pid0 != pid then was else was.(producers := was.producers[id := Producer(id, k, source, false)])
    case Consuming(r0, pid0, producer) =>
      if r0 != r || pid0 != pid then was else was.(consumers := was.consumers[id := Consumer(id, producer, kind, true)])
    case ClosingProducer(r0, producer) => if r0 != r then was else was.(producers := was.producers - {producer})
  }

  lemma AnswerBooked(s: State, task: Task, id: Id, kind: Kind, r: RoomId, pid: ParticipantId)
    requires IsThere(s, r, pid)
    ensures IsThere(Finish(s, task, id, kind), r, pid)
    ensures Finish(s, task, id, kind).rooms[r].participants[pid] ==
            Answer(task, id, kind, r, pid, s.rooms[r].participants[pid])
  {
  }

  lemma AnswerSeatsNobody(s: State, task: Task, id: Id, kind: Kind, r: RoomId, pid: ParticipantId)
    ensures IsThere(Finish(s, task, id, kind), r, pid) ==> IsThere(s, r, pid)
  {
  }

  lemma StepBooks(s: State, step: Step, r: RoomId, pid: ParticipantId, was: Member)
    requires Possible(s, step) && IsThere(Next(s, step), r, pid)
    requires IsThere(s, r, pid) ==> was == s.rooms[r].participants[pid]
    ensures Next(s, step).rooms[r].participants[pid] == Booked(s, step, r, pid, was)
  {
    hide Answer, Finish;
    if step.Answered? && step.id.Some? {
      var rest := s.(tasks := s.tasks - {step.t});
      AnswerSeatsNobody(rest, s.tasks[step.t], step.id.value, step.kind, r, pid);
      AnswerBooked(rest, s.tasks[step.t], step.id.value, step.kind, r, pid);
    }
  }

  function Booking(s: State, steps: seq<Step>, r: RoomId, pid: ParticipantId, was: Member): Member
    requires AllPossible(s, steps)
    decreases |steps|
  {
    if steps == [] then was else Booking(Next(s, steps[0]), steps[1..], r, pid, Booked(s, steps[0], r, pid, was))
  }

  /** Over every interleaving of lock sections: the record is what the answers to its own calls add up to. */
  lemma {:induction false} MemberIsLedger(s: State, steps: seq<Step>, r: RoomId, pid: ParticipantId, was: Member)
    requires AllPossible(s, steps) && IsThere(After(s, steps), r, pid)
    requires IsThere(s, r, pid) ==> was == s.rooms[r].participants[pid]
    ensures After(s, steps).rooms[r].participants[pid] == Booking(s, steps, r, pid, was)
    decreases |steps|
  {
    hide Next, Booked;
    if steps != [] {
      if IsThere(Next(s, steps[0]), r, pid) {
        StepBooks(s, steps[0], r, pid, was);
      }
      MemberIsLedger(Next(s, steps[0]), steps[1..], r, pid, Booked(s, steps[0], r, pid, was));
    }
  }

  // ---- calls ------------------------------------------------------------------------------------------------------

  /**
   * A call goes on to the SFU exactly if its room is there, and to consume, if the participant is there and has a
   * receiving transport. Nothing else changes, and it waits until it is answered.
   */
  lemma CallsWait(s: State, t: nat, task: Task)
    requires Possible(s, CallSfu(t, task))
    ensures var s' := Next(s, CallSfu(t, task));
            && s'.rooms == s.rooms && s'.released == s.released
            && (t in s'.tasks <==>
                  && task.r in s.rooms
                  && (task.Consuming? ==> task.pid in s.rooms[task.r].participants
                                          && s.rooms[task.r].participants[task.pid].recv.Some?))
            && s'.tasks == if t in s'.tasks then s.tasks[t := task] else s.tasks
  {
  }

  /** A join that finds no room waits for one, with what it was asked for; an answer ends its call. */
  lemma TasksFollow(s: State, step: Step)
    requires Possible(s, step) && !step.CallSfu?
    ensures Next(s, step).tasks ==
            if step.Join? && step.r !in s.rooms
            then s.tasks[step.t := Allocating(step.r, step.user, step.role, step.name)]
            else if step.Allocated? || step.Answered? then s.tasks - {step.t}
            else s.tasks
  {
    hide NewMember, OfUser, Without;
  }

  // ---- rooms ------------------------------------------------------------------------------------------------------

  /** A room comes with an allocation and stays as it came until the next one for it, or until it goes. */
  lemma RoomsFollow(s: State, step: Step, r: RoomId)
    requires Possible(s, step) && r in Next(s, step).rooms
    ensures var room := Next(s, step).rooms[r];
            if step.Allocated? && step.reply.Some? && s.tasks[step.t].r == r then
              && room.id == r && room.node == step.reply.value.node && room.origin == step.reply.value.origin
              && room.routerId == step.reply.value.routerId && room.caps == step.reply.value.caps
            else r in s.rooms && room.(participants := s.rooms[r].participants) == s.rooms[r]
  {
    hide NewMember, OfUser, Without;
  }

  /** The room goes in this step: the last participant leaves, or it is destroyed. */
  predicate Closes(s: State, step: Step, r: RoomId) {
    && r in s.rooms
    && (step == Destroy(r) || (step.Leave? && step.r == r && s.rooms[r].participants.Keys <= {step.pid}))
  }

  /** A room leaves the table exactly then, and its router is released exactly then. */
  lemma ClosedRoomsReleased(s: State, step: Step, r: RoomId)
    requires Possible(s, step)
    ensures r in s.rooms ==> (r !in Next(s, step).rooms <==> Closes(s, step, r))
    ensures Closes(s, step, r) ==> Next(s, step).released == s.released + [(s.rooms[r].origin, s.rooms[r].routerId)]
    ensures (forall q :: !Closes(s, step, q)) ==> Next(s, step).released == s.released
  {
    hide NewMember, OfUser, Without, Finish;
    match step
    case Leave(q, pid) =>
      assert Closes(s, step, q) <==> q in s.rooms && s.rooms[q].participants.Keys <= {pid};
      if q in s.rooms {
        NobodyElse(s.rooms[q].participants, pid);
      }
    case Destroy(q) => assert Closes(s, step, q) <==> q in s.rooms;
    case Answered(t, id, kind) =>
      if id.Some? {
        FinishKeepsRooms(s.(tasks := s.tasks - {t}), s.tasks[t], id.value, kind);
      }
    case _ =>
  }

  lemma NobodyElse(ms: Members, pid: ParticipantId)
    ensures ms - {pid} == map[] <==> ms.Keys <= {pid}
  {
    if ms.Keys <= {pid} {
      assert forall k :: k !in ms - {pid};
    }
    if ms - {pid} == map[] {
      forall k | k in ms.Keys
        ensures k == pid
      {
        assert k != pid ==> k in ms - {pid};
      }
    }
  }

  lemma FinishKeepsRooms(s: State, task: Task, id: Id, kind: Kind)
    ensures Finish(s, task, id, kind).rooms.Keys == s.rooms.Keys && Finish(s, task, id, kind).released == s.released
  {
    hide Without;
  }
}

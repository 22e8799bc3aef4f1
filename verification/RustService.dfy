/** The Rust room manager as an object: each method is one section under the write lock. */
module RustService {
  import opened Options
  import opened RoomTypes
  import opened RustRooms

  class RoomManager {
    var rooms: map<RoomId, LiveRoom>
    var tasks: map<nat, Task>                  // the calls between two sections
    var released: seq<(string, Id)>            // the release requests sent to SFU nodes

    constructor ()
      ensures State() == START
    {
      rooms, tasks, released := map[], map[], [];
    }

    ghost function State(): RustRooms.State
      reads this
    {
      RustRooms.State(rooms, tasks, released)
    }

    method FindByUser(r: RoomId, user: UserId) returns (found: Option<ParticipantId>)
      requires r in rooms && Orderly(rooms[r].participants)
      ensures OfUser(rooms[r].participants, user) == if found.Some? then {found.value} else {}
    {
      var ms := rooms[r].participants;
      var todo := ms.Keys;
      while todo != {}
        invariant todo <= ms.Keys
        invariant forall pid | pid in ms && pid !in todo :: ms[pid].user != user
        decreases |todo|
      {
        var pid :| pid in todo;
        if ms[pid].user == user {
          assert forall b | b in ms && ms[b].user == user :: b == pid;
          return Some(ms[pid].id);
        }
        todo := todo - {pid};
      }
      return None;
    }

    /** Joins at once when the room is there; otherwise the call goes on to allocate it. */
    method JoinRoom(t: nat, r: RoomId, user: UserId, role: string, name: string, now: nat)
      returns (joined: bool, isReconnect: bool)
      requires Inv(State()) && t !in tasks
      modifies this`rooms, this`tasks
      ensures State() == Next(old(State()), Join(t, r, user, role, name, now))
      ensures joined <==> r in old(rooms)
      ensures isReconnect <==> r in old(rooms) && OfUser(old(rooms)[r].participants, user) != {}
    {
      if r !in rooms {
        tasks := tasks[t := Allocating(r, user, role, name)];
        return false, false;
      }
      var existing := FindByUser(r, user);
      var room := rooms[r];
      var ms := room.participants;
      if existing.Some? {
        ms := ms - {existing.value};
      } else {
        NobodyGone(ms);
      }
      rooms := rooms[r := room.(participants := ms[ParticipantId(user, now) := NewMember(user, role, name, now)])];
      return true, existing.Some?;
    }

    method FinishAllocation(t: nat, reply: Option<Allocation>, now: nat)
      requires t in tasks && tasks[t].Allocating?
      modifies this`rooms, this`tasks
      ensures State() == Next(old(State()), Allocated(t, reply, now))
    {
      var task := tasks[t];
      tasks := tasks - {t};
      if reply.Some? {
        var a := reply.value;
        var participant := NewMember(task.user, task.role, task.name, now);
        rooms := rooms[task.r := LiveRoom(task.r, a.node, a.origin, a.routerId, a.caps,
                                          map[ParticipantId(task.user, now) := participant])];
      }
    }

    method LeaveRoom(r: RoomId, pid: ParticipantId)
      modifies this`rooms, this`released
      ensures State() == Next(old(State()), Leave(r, pid))
    {
      if r in rooms {
        var room := rooms[r].(participants := rooms[r].participants - {pid});
        if room.participants == map[] {
          released := released + [(room.origin, room.routerId)];
          rooms := rooms - {r};
        } else {
          rooms := rooms[r := room];
        }
      }
    }

    method RemoveParticipantEntry(r: RoomId, pid: ParticipantId)
      modifies this`rooms
      ensures State() == Next(old(State()), RemoveEntry(r, pid))
    {
      if r in rooms {
        rooms := rooms[r := rooms[r].(participants := rooms[r].participants - {pid})];
      }
    }

    method DestroyRoom(r: RoomId)
      modifies this`rooms, this`released
      ensures State() == Next(old(State()), Destroy(r))
    {
      if r in rooms {
        released := released + [(rooms[r].origin, rooms[r].routerId)];
        rooms := rooms - {r};
      }
    }

    method SetRtpCapabilities(r: RoomId, pid: ParticipantId, caps: Caps)
      modifies this`rooms
      ensures State() == Next(old(State()), SetCapabilities(r, pid, caps))
    {
      if r in rooms && pid in rooms[r].participants {
        SetParticipant(r, pid, rooms[r].participants[pid].(rtpCapabilities := Some(caps)));
      }
    }

    method SetParticipant(r: RoomId, pid: ParticipantId, m: Member)
      requires r in rooms
      modifies this`rooms
      ensures State() == SetMember(old(State()), r, pid, m)
    {
      rooms := rooms[r := rooms[r].(participants := rooms[r].participants[pid := m])];
    }

    /** The first section of create_transport, produce, consume and close_producer: false if they fail there. */
    method BeginCall(t: nat, task: Task) returns (ok: bool)
      requires t !in tasks && !task.Allocating?
      modifies this`tasks
      ensures State() == Next(old(State()), CallSfu(t, task)) && (ok <==> CanCall(State(), task))
    {
      if task.r !in rooms {
        return false;
      }
      var ms := rooms[task.r].participants;
      if task.Consuming? && (task.pid !in ms || ms[task.pid].recv.None?) {
        return false;
      }
      tasks := tasks[t := task];
      return true;
    }

    method CallFailed(t: nat, kind: Kind)
      requires t in tasks && !tasks[t].Allocating?
      modifies this`tasks
      ensures State() == Next(old(State()), Answered(t, None, kind))
    {
      tasks := tasks - {t};
    }

    /** The second sections of create_transport, produce and consume. */
    method TransportMade(t: nat, id: Id, kind: Kind)
      requires t in tasks && tasks[t].MakingTransport?
      modifies this`rooms, this`tasks
      ensures State() == Next(old(State()), Answered(t, Some(id), kind))
    {
      var task := tasks[t];
      tasks := tasks - {t};
      if task.r in rooms && task.pid in rooms[task.r].participants {
        var m := rooms[task.r].participants[task.pid];
        if task.direction == "send" {
          m := m.(send := Some(id));
        } else if task.direction == "recv" {
          m := m.(recv := Some(id));
        }
        SetParticipant(task.r, task.pid, m);
      }
    }

    method ProducerMade(t: nat, id: Id, kind: Kind)
      requires t in tasks && tasks[t].Producing?
      modifies this`rooms, this`tasks
      ensures State() == Next(old(State()), Answered(t, Some(id), kind))
    {
      var task := tasks[t];
      tasks := tasks - {t};
      if task.r in rooms && task.pid in rooms[task.r].participants {
        var m := rooms[task.r].participants[task.pid];
        var p := Producer(id, task.kind, task.source, false);
        SetParticipant(task.r, task.pid, m.(producers := m.producers[id := p]));
      }
    }

    method ConsumerMade(t: nat, id: Id, kind: Kind)
      requires t in tasks && tasks[t].Consuming?
      modifies this`rooms, this`tasks
      ensures State() == Next(old(State()), Answered(t, Some(id), kind))
    {
      var task := tasks[t];
      tasks := tasks - {t};
      if task.r in rooms && task.pid in rooms[task.r].participants {
        var m := rooms[task.r].participants[task.pid];
        var c := Consumer(id, task.producer, kind, true);
        SetParticipant(task.r, task.pid, m.(consumers := m.consumers[id := c]));
      }
    }

    /** The second section of close_producer, once the SFU has closed it. */
    method ProducerClosed(t: nat, id: Id, kind: Kind)
      requires t in tasks && tasks[t].ClosingProducer?
      modifies this`rooms, this`tasks
      ensures State() == Next(old(State()), Answered(t, Some(id), kind))
    {
      var r, producer := tasks[t].r, tasks[t].producer;
      tasks := tasks - {t};
      if r in rooms {
        var ms := RemoveProducer(rooms[r].participants, producer);
        rooms := rooms[r := rooms[r].(participants := ms)];
      }
    }
  }

  /** Whichever section runs next: one participant per user under its own id, and no empty room but by RemoveEntry. */
  method RunSection(m: RoomManager, step: Step)
    requires Inv(m.State()) && Possible(m.State(), step)
    modifies m
    ensures m.State() == Next(old(m.State()), step) && Inv(m.State())
    ensures old(NoneEmpty(m.State())) && !step.RemoveEntry? ==> NoneEmpty(m.State())
  {
    StepKeeps(m.State(), step);
    if NoneEmpty(m.State()) {
      StepNoneEmpty(m.State(), step);
    }
    hide Inv, NoneEmpty;
    match step
    case Join(t, r, user, role, name, now) => var _, _ := m.JoinRoom(t, r, user, role, name, now);
    case Allocated(t, reply, now) => m.FinishAllocation(t, reply, now);
    case Leave(r, pid) => m.LeaveRoom(r, pid);
    case RemoveEntry(r, pid) => m.RemoveParticipantEntry(r, pid);
    case SetCapabilities(r, pid, caps) => m.SetRtpCapabilities(r, pid, caps);
    case CallSfu(t, task) => var _ := m.BeginCall(t, task);
    case Answered(t, id, kind) => RunAnswer(m, t, id, kind);
    case Destroy(r) => m.DestroyRoom(r);
  }

  method RunAnswer(m: RoomManager, t: nat, id: Option<Id>, kind: Kind)
    requires Possible(m.State(), Answered(t, id, kind))
    modifies m
    ensures m.State() == Next(old(m.State()), Answered(t, id, kind))
  {
    if id.None? {
      m.CallFailed(t, kind);
    } else {
      match m.tasks[t]
      case MakingTransport(_, _, _) => m.TransportMade(t, id.value, kind);
      case Producing(_, _, _, _) => m.ProducerMade(t, id.value, kind);
      case Consuming(_, _, _) => m.ConsumerMade(t, id.value, kind);
      case ClosingProducer(_, _) => m.ProducerClosed(t, id.value, kind);
    }
  }

  method RemoveProducer(before: Members, producer: Id) returns (ms: Members)
    ensures ms == Without(before, producer)
  {
    ms := before;
    var todo := ms.Keys;
    while todo != {}
      invariant todo <= ms.Keys == before.Keys
      invariant forall pid | pid in todo :: ms[pid] == before[pid]
      invariant forall pid | pid in before.Keys - todo ::
                  ms[pid] == before[pid].(producers := before[pid].producers - {producer})
      decreases |todo|
    {
      var pid :| pid in todo;
      ms := ms[pid := ms[pid].(producers := ms[pid].producers - {producer})];
      todo := todo - {pid};
    }
    assert forall pid | pid in before :: pid in before.Keys - todo;
  }

  lemma NobodyGone(ms: Members)
    ensures ms - {} == ms
  {
  }
}

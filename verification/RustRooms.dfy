/**
 * The Rust room manager: rooms behind one lock, each lock section one step, and the steps of concurrent calls
 * interleave.
 */
module RustRooms {
  import opened Options
  import opened RoomTypes

  datatype Member = Member(
    id: ParticipantId, user: UserId, name: string, role: string, rtpCapabilities: Option<Caps>,
    send: Option<Id>, recv: Option<Id>, producers: map<Id, Producer>, consumers: map<Id, Consumer>)

  type Members = map<ParticipantId, Member>
  datatype LiveRoom = LiveRoom(id: RoomId, node: string, origin: string, routerId: Id, caps: Caps,
                               participants: Members)
  datatype Allocation = Allocation(node: string, origin: string, routerId: Id, caps: Caps)

  /** A call between its lock sections, waiting for the SFU. */
  datatype Task =
    | Allocating(r: RoomId, user: UserId, role: string, name: string)
    | MakingTransport(r: RoomId, pid: ParticipantId, direction: string)
    | Producing(r: RoomId, pid: ParticipantId, kind: Kind, source: string)
    | Consuming(r: RoomId, pid: ParticipantId, producer: Id)
    | ClosingProducer(r: RoomId, producer: Id)

  datatype State = State(rooms: map<RoomId, LiveRoom>, tasks: map<nat, Task>, released: seq<(string, Id)>)

  datatype Step =
    | Join(t: nat, r: RoomId, user: UserId, role: string, name: string, now: nat)
    | Allocated(t: nat, reply: Option<Allocation>, now: nat)
    | Leave(r: RoomId, pid: ParticipantId)
    | RemoveEntry(r: RoomId, pid: ParticipantId)
    | SetCapabilities(r: RoomId, pid: ParticipantId, caps: Caps)
    | CallSfu(t: nat, task: Task)                                // the first lock section of the other calls
    | Answered(t: nat, id: Option<Id>, kind: Kind)               // their second one
    | Destroy(r: RoomId)

  function NewMember(user: UserId, role: string, name: string, now: nat): Member {
    Member(ParticipantId(user, now), user, name, role, None, None, None, map[], map[])
  }

  predicate Possible(s: State, step: Step) {
    match step
    case Join(t, _, _, _, _, _) => t !in s.tasks
    case Allocated(t, _, _) => t in s.tasks && s.tasks[t].Allocating?
    case CallSfu(t, task) => t !in s.tasks && !task.Allocating?
    case Answered(t, _, _) => t in s.tasks && !s.tasks[t].Allocating?
    case _ => true
  }

  /** Whom a reconnecting user replaces. */
  function OfUser(ms: Members, user: UserId): set<ParticipantId> {
    set pid | pid in ms && ms[pid].user == user
  }

  function SetMember(s: State, r: RoomId, pid: ParticipantId, m: Member): State
    requires r in s.rooms
  {
    s.(rooms := s.rooms[r := s.rooms[r].(participants := s.rooms[r].participants[pid := m])])
  }

  predicate IsThere(s: State, r: RoomId, pid: ParticipantId) {
    r in s.rooms && pid in s.rooms[r].participants
  }

  /** The first lock section of a call checks what it needs before it asks the SFU. */
  predicate CanCall(s: State, task: Task) {
    task.r in s.rooms &&
    (task.Consuming? ==> task.pid in s.rooms[task.r].participants && s.rooms[task.r].participants[task.pid].recv.Some?)
  }

  function Drop(s: State, r: RoomId): State
    requires r in s.rooms
  {
    s.(rooms := s.rooms - {r}, released := s.released + [(s.rooms[r].origin, s.rooms[r].routerId)])
  }

  function Without(ms: Members, k: Id): Members {
    map pid | pid in ms :: ms[pid].(producers := ms[pid].producers - {k})
  }

  function Finish(s: State, task: Task, id: Id, kind: Kind): State {
    match task
    case Allocating(_, _, _, _) => s
    case ClosingProducer(r, producer) =>
      if r in s.rooms then s.(rooms := s.rooms[r :=
          s.rooms[r].(participants := Without(s.rooms[r].participants, producer))]) else s
    case MakingTransport(r, pid, direction) =>
      if !IsThere(s, r, pid) then s
      else
        var m := s.rooms[r].participants[pid];
        SetMember(s, r, pid, if direction == "send" then m.(send := Some(id))
            else if direction == "recv" then m.(recv := Some(id)) else m)
    case Producing(r, pid, k, source) =>
      if !IsThere(s, r, pid) then s
      else
        var m := s.rooms[r].participants[pid];
        SetMember(s, r, pid, m.(producers := m.producers[id := Producer(id, k, source, false)]))
    case Consuming(r, pid, producer) =>
      if !IsThere(s, r, pid) then s
      else
        var m := s.rooms[r].participants[pid];
        SetMember(s, r, pid, m.(consumers := m.consumers[id := Consumer(id, producer, kind, true)]))
  }

  function Next(s: State, step: Step): State
    requires Possible(s, step)
  {
    match step
    case Join(t, r, user, role, name, now) =>
      if r in s.rooms then
        var ms := s.rooms[r].participants;
        s.(rooms := s.rooms[r := s.rooms[r].(participants :=
            (ms - OfUser(ms, user))[ParticipantId(user, now) := NewMember(user, role, name, now)])])
      else s.(tasks := s.tasks[t := Allocating(r, user, role, name)])
    case Allocated(t, reply, now) =>
      var task := s.tasks[t];
      var rest := s.(tasks := s.tasks - {t});
      if reply.None? then rest
      else
        var a := reply.value;
        var members := map[ParticipantId(task.user, now) := NewMember(task.user, task.role, task.name, now)];
        rest.(rooms := s.rooms[task.r := LiveRoom(task.r, a.node, a.origin, a.routerId, a.caps, members)])
    case Leave(r, pid) =>
      if r !in s.rooms then s
      else
        var room := s.rooms[r].(participants := s.rooms[r].participants - {pid});
        if room.participants == map[] then Drop(s, r) else s.(rooms := s.rooms[r := room])
    case RemoveEntry(r, pid) =>
      if r !in s.rooms then s
      else s.(rooms := s.rooms[r := s.rooms[r].(participants := s.rooms[r].participants - {pid})])
    case SetCapabilities(r, pid, caps) =>
      if !IsThere(s, r, pid) then s
      else SetMember(s, r, pid, s.rooms[r].participants[pid].(rtpCapabilities := Some(caps)))
    case CallSfu(t, task) =>
      if CanCall(s, task) then s.(tasks := s.tasks[t := task]) else s
    case Answered(t, id, kind) =>
      var rest := s.(tasks := s.tasks - {t});
      if id.None? then rest else Finish(rest, s.tasks[t], id.value, kind)
    case Destroy(r) =>
      if r in s.rooms then Drop(s, r) else s
  }

  predicate AllPossible(s: State, steps: seq<Step>)
    decreases |steps|
  {
    steps == [] || (Possible(s, steps[0]) && AllPossible(Next(s, steps[0]), steps[1..]))
  }

  function After(s: State, steps: seq<Step>): State
    requires AllPossible(s, steps)
    decreases |steps|
  {
    if steps == [] then s else After(Next(s, steps[0]), steps[1..])
  }

  const START := State(map[], map[], [])

  // ---- invariants --------------------------------------------------------------------------------

  ghost predicate KeyedMember(m: Member) {
    && m.user == m.id.user
    && (forall k | k in m.producers :: m.producers[k].id == k)
    && (forall k | k in m.consumers :: m.consumers[k].id == k)
  }

  /** Everyone is stored under the right id, and nobody is there twice. */
  ghost predicate Orderly(ms: Members) {
    && (forall pid | pid in ms :: ms[pid].id == pid && KeyedMember(ms[pid]))
    && (forall a, b | a in ms && b in ms && ms[a].user == ms[b].user :: a == b)
  }

  ghost predicate Inv(s: State) {
    forall r | r in s.rooms :: s.rooms[r].id == r && Orderly(s.rooms[r].participants)
  }

  ghost predicate NoneEmpty(s: State) {
    forall r | r in s.rooms :: s.rooms[r].participants != map[]
  }

  lemma JoinOrderly(ms: Members, user: UserId, role: string, name: string, now: nat)
    requires Orderly(ms)
    ensures Orderly((ms - OfUser(ms, user))[ParticipantId(user, now) := NewMember(user, role, name, now)])
  {
  }

  lemma FewerOrderly(ms: Members, gone: set<ParticipantId>)
    requires Orderly(ms)
    ensures Orderly(ms - gone)
  {
  }

  lemma UpdateKeeps(s: State, r: RoomId, pid: ParticipantId, m: Member)
    requires Inv(s) && IsThere(s, r, pid)
    requires var was := s.rooms[r].participants[pid];
             KeyedMember(was) ==> m.id == was.id && m.user == was.user && KeyedMember(m)
    ensures Inv(SetMember(s, r, pid, m))
  {
  }

  lemma FinishKeeps(s: State, task: Task, id: Id, kind: Kind)
    requires Inv(s)
    ensures Inv(Finish(s, task, id, kind))
  {
    hide Inv, SetMember, Without;
    match task
    case Allocating(_, _, _, _) =>
    case ClosingProducer(r, producer) => ClosedKeeps(s, r, producer);
    case MakingTransport(r, pid, direction) =>
      if IsThere(s, r, pid) {
        var m := s.rooms[r].participants[pid];
        UpdateKeeps(s, r, pid, if direction == "send" then m.(send := Some(id))
            else if direction == "recv" then m.(recv := Some(id)) else m);
      }
    case Producing(r, pid, k, source) =>
      if IsThere(s, r, pid) {
        var m := s.rooms[r].participants[pid];
        UpdateKeeps(s, r, pid, m.(producers := m.producers[id := Producer(id, k, source, false)]));
      }
    case Consuming(r, pid, producer) =>
      if IsThere(s, r, pid) {
        var m := s.rooms[r].participants[pid];
        UpdateKeeps(s, r, pid, m.(consumers := m.consumers[id := Consumer(id, producer, kind, true)]));
      }
  }

  lemma ClosedKeeps(s: State, r: RoomId, producer: Id)
    requires Inv(s)
    ensures r in s.rooms ==> Inv(s.(rooms :=
            s.rooms[r := s.rooms[r].(participants := Without(s.rooms[r].participants, producer))]))
  {
  }

  lemma StepKeeps(s: State, step: Step)
    requires Inv(s) && Possible(s, step)
    ensures Inv(Next(s, step))
  {
    hide Orderly, OfUser, NewMember, Finish;
    match step
    case Join(t, r, user, role, name, now) =>
      if r in s.rooms {
        JoinOrderly(s.rooms[r].participants, user, role, name, now);
      }
    case Allocated(t, reply, now) => AloneOrderly(s.tasks[t].user, s.tasks[t].role, s.tasks[t].name, now);
    case Leave(r, pid) =>
      if r in s.rooms {
        FewerOrderly(s.rooms[r].participants, {pid});
      }
    case RemoveEntry(r, pid) =>
      if r in s.rooms {
        FewerOrderly(s.rooms[r].participants, {pid});
      }
    case SetCapabilities(r, pid, caps) =>
      if IsThere(s, r, pid) {
        UpdateKeeps(s, r, pid, s.rooms[r].participants[pid].(rtpCapabilities := Some(caps)));
      }
    case Answered(t, id, kind) =>
      if id.Some? {
        FinishKeeps(s.(tasks := s.tasks - {t}), s.tasks[t], id.value, kind);
      }
    case _ =>
  }

  lemma AloneOrderly(user: UserId, role: string, name: string, now: nat)
    ensures Orderly(map[ParticipantId(user, now) := NewMember(user, role, name, now)])
  {
  }

  lemma FinishKeepsMembers(s: State, task: Task, id: Id, kind: Kind)
    ensures var s' := Finish(s, task, id, kind);
            s'.rooms.Keys == s.rooms.Keys && forall r | r in s.rooms ::
                s'.rooms[r].participants.Keys == s.rooms[r].participants.Keys
  {
  }

  lemma NotEmpty<K, V>(m: map<K, V>)
    ensures m == map[] <==> m.Keys == {}
  {
  }

  /** A step empties a room exactly if it is remove_participant_entry on the last one in it. */
  lemma StepNoneEmpty(s: State, step: Step)
    requires NoneEmpty(s) && Possible(s, step)
    ensures NoneEmpty(Next(s, step)) <==> !(step.RemoveEntry? && step.r in s.rooms &&
                                            s.rooms[step.r].participants.Keys <= {step.pid})
  {
    match step
    case Answered(t, id, kind) =>
      if id.Some? {
        var rest := s.(tasks := s.tasks - {t});
        FinishKeepsMembers(rest, s.tasks[t], id.value, kind);
        var s' := Next(s, step);
        forall r | r in s'.rooms
          ensures s'.rooms[r].participants != map[]
        {
          NotEmpty(s.rooms[r].participants);
          NotEmpty(s'.rooms[r].participants);
        }
      }
    case RemoveEntry(r, pid) =>
      if r in s.rooms {
        NotEmpty(s.rooms[r].participants - {pid});
        NotEmpty(s.rooms[r].participants);
        if s.rooms[r].participants.Keys <= {pid} {
          assert Next(s, step).rooms[r].participants == map[];
        }
      }
    case Join(t, r, user, role, name, now) =>
      if r in s.rooms {
        assert ParticipantId(user, now) in Next(s, step).rooms[r].participants;
      }
    case Allocated(t, reply, now) =>
      if reply.Some? {
        assert ParticipantId(s.tasks[t].user, now) in Next(s, step).rooms[s.tasks[t].r].participants;
      }
    case SetCapabilities(r, pid, caps) =>
      if IsThere(s, r, pid) {
        assert pid in Next(s, step).rooms[r].participants;
      }
    case _ =>
  }

  /**
   * Under every interleaving: one participant per user and room, stored under its own id, and no empty room without
   * remove_participant_entry.
   */
  lemma {:induction false} RoomsOverRuns(s: State, steps: seq<Step>)
    requires Inv(s) && AllPossible(s, steps)
    ensures Inv(After(s, steps))
    ensures NoneEmpty(s) && (forall step | step in steps :: !step.RemoveEntry?) ==> NoneEmpty(After(s, steps))
    decreases |steps|
  {
    if steps != [] {
      StepKeeps(s, steps[0]);
      if NoneEmpty(s) {
        StepNoneEmpty(s, steps[0]);
      }
      assert steps[0] in steps;
      RoomsOverRuns(Next(s, steps[0]), steps[1..]);
    }
  }

  lemma OrderlyFromStart(steps: seq<Step>)
    requires AllPossible(START, steps)
    ensures var rooms := After(START, steps).rooms;
            && (forall r, a, b | r in rooms && a in rooms[r].participants && b in rooms[r].participants &&
                a.user == b.user :: a == b)
            && (forall r, pid | r in rooms && pid in rooms[r].participants :: rooms[r].participants[pid].id == pid)
            && ((forall step | step in steps :: !step.RemoveEntry?) ==> forall r | r in rooms ::
                 rooms[r].participants != map[])
  {
    RoomsOverRuns(START, steps);
    var rooms := After(START, steps).rooms;
    forall r, a, b | r in rooms && a in rooms[r].participants && b in rooms[r].participants && a.user == b.user
      ensures a == b
    {
      assert Orderly(rooms[r].participants);
      assert KeyedMember(rooms[r].participants[a]) && KeyedMember(rooms[r].participants[b]);
    }
  }

  // ---- who loses its place --------------------------------------------------------------------------

  /** Finishing an allocation keeps everyone exactly if the room is not there yet or holds nobody but the newcomer. */
  lemma AllocationKeepsEveryone(s: State, t: nat, a: Allocation, now: nat)
    requires Possible(s, Allocated(t, Some(a), now))
    ensures var r := s.tasks[t].r;
            var newcomer := ParticipantId(s.tasks[t].user, now);
            (forall pid | IsThere(s, r, pid) :: IsThere(Next(s, Allocated(t, Some(a), now)), r, pid)) <==>
            r !in s.rooms || forall pid | pid in s.rooms[r].participants :: pid == newcomer
  {
    var r := s.tasks[t].r;
    var s' := Next(s, Allocated(t, Some(a), now));
    assert s'.rooms[r].participants.Keys == {ParticipantId(s.tasks[t].user, now)};
    if r in s.rooms && !(forall pid | pid in s.rooms[r].participants :: pid == ParticipantId(s.tasks[t].user, now)) {
      var pid :| pid in s.rooms[r].participants && pid != ParticipantId(s.tasks[t].user, now);
      assert IsThere(s, r, pid) && !IsThere(s', r, pid);
    }
  }

  /** The step asks for this participant to go, or replaces the room it is in. */
  predicate Displaces(s: State, step: Step, r: RoomId, pid: ParticipantId)
    requires Possible(s, step)
  {
    match step
    case Leave(r', pid') => r' == r && pid' == pid
    case RemoveEntry(r', pid') => r' == r && pid' == pid
    case Destroy(r') => r' == r
    case Join(_, r', user, _, _, now) => r' == r && user == pid.user && ParticipantId(user, now) != pid
    case Allocated(t, reply, now) => reply.Some? && s.tasks[t].r == r && ParticipantId(s.tasks[t].user, now) != pid
    case _ => false
  }

  /** A participant loses its place in exactly these steps. */
  lemma DisplacedExactly(s: State, step: Step, r: RoomId, pid: ParticipantId)
    requires Inv(s) && Possible(s, step) && IsThere(s, r, pid)
    ensures !IsThere(Next(s, step), r, pid) <==> Displaces(s, step, r, pid)
  {
    assert Orderly(s.rooms[r].participants) && KeyedMember(s.rooms[r].participants[pid]);
    if step.Leave? && step.r == r && step.pid != pid {
      assert pid in s.rooms[r].participants - {step.pid};
    }
    if step.Answered? && step.id.Some? {
      FinishKeepsMembers(s.(tasks := s.tasks - {step.t}), s.tasks[step.t], step.id.value, step.kind);
    }
  }

  /** The step that puts the participant into the room. */
  predicate Seats(s: State, step: Step, r: RoomId, pid: ParticipantId)
    requires Possible(s, step)
  {
    match step
    case Join(_, r', user, _, _, now) => r' == r && r in s.rooms && ParticipantId(user, now) == pid
    case Allocated(t, reply, now) => reply.Some? && s.tasks[t].r == r && ParticipantId(s.tasks[t].user, now) == pid
    case _ => false
  }

  lemma SeatedExactly(s: State, step: Step, r: RoomId, pid: ParticipantId)
    requires Inv(s) && Possible(s, step) && !IsThere(s, r, pid)
    ensures IsThere(Next(s, step), r, pid) <==> Seats(s, step, r, pid)
  {
    if step.Answered? && step.id.Some? {
      FinishKeepsMembers(s.(tasks := s.tasks - {step.t}), s.tasks[step.t], step.id.value, step.kind);
    }
  }

  /** No step of the run displaces the participant. */
  predicate NeverDisplaced(s: State, steps: seq<Step>, r: RoomId, pid: ParticipantId)
    requires AllPossible(s, steps)
    decreases |steps|
  {
    steps == [] || (!Displaces(s, steps[0], r, pid) && NeverDisplaced(Next(s, steps[0]), steps[1..], r, pid))
  }

  predicate SeatedForGood(s: State, steps: seq<Step>, r: RoomId, pid: ParticipantId)
    requires AllPossible(s, steps)
    decreases |steps|
  {
    steps != [] &&
    ((Seats(s, steps[0], r, pid) && NeverDisplaced(Next(s, steps[0]), steps[1..], r, pid))
     || SeatedForGood(Next(s, steps[0]), steps[1..], r, pid))
  }

  /**
   * After any run a participant is in a room exactly if it was there or was put there, and no step displaced it since.
   */
  lemma {:induction false} PresentExactly(s: State, steps: seq<Step>, r: RoomId, pid: ParticipantId)
    requires Inv(s) && AllPossible(s, steps)
    ensures IsThere(After(s, steps), r, pid) <==>
            (IsThere(s, r, pid) && NeverDisplaced(s, steps, r, pid)) || SeatedForGood(s, steps, r, pid)
    decreases |steps|
  {
    hide Next, Inv, IsThere;
    if steps != [] {
      var step, s' := steps[0], Next(s, steps[0]);
      StepKeeps(s, step);
      PresentExactly(s', steps[1..], r, pid);
      SeatsOrDisplaces(s, step, r, pid);
      if IsThere(s, r, pid) {
        DisplacedExactly(s, step, r, pid);
      } else {
        SeatedExactly(s, step, r, pid);
      }
    }
  }

  lemma SeatsOrDisplaces(s: State, step: Step, r: RoomId, pid: ParticipantId)
    requires Possible(s, step)
    ensures !(Seats(s, step, r, pid) && Displaces(s, step, r, pid))
  {
  }

  /**
   * Two users who both find the room missing: whoever's allocation finishes last is alone in it, and such runs exist.
   */
  lemma LastAllocationWins(s: State, r: RoomId, j1: Step, j2: Step, a1: Allocation, a2: Allocation, now1: nat,
                           now2: nat)
    requires r !in s.rooms && j1.Join? && j2.Join? && j1.r == r && j2.r == r && j1.t !in s.tasks &&
             j2.t !in s.tasks && j1.t != j2.t
    ensures var steps := [j1, j2, Allocated(j1.t, Some(a1), now1), Allocated(j2.t, Some(a2), now2)];
            AllPossible(s, steps) && r in After(s, steps).rooms &&
                After(s, steps).rooms[r].participants.Keys == {ParticipantId(j2.user, now2)}
  {
    var steps := [j1, j2, Allocated(j1.t, Some(a1), now1), Allocated(j2.t, Some(a2), now2)];
    var s1 := Next(s, steps[0]);
    var s2 := Next(s1, steps[1]);
    var s3 := Next(s2, steps[2]);
    var s4 := Next(s3, steps[3]);
    assert AllPossible(s3, steps[3..]) && After(s3, steps[3..]) == s4 by {
      assert steps[3..] == [steps[3]] && steps[3..][1..] == [];
    }
    assert steps[2..][1..] == steps[3..] && steps[1..][1..] == steps[2..];
    assert AllPossible(s2, steps[2..]) && After(s2, steps[2..]) == s4;
    assert AllPossible(s1, steps[1..]) && After(s1, steps[1..]) == s4;
  }
}

/**
 * When an SFU node creates a router but its reply is lost, Redis keeps a record without an origin.
 * From then on nobody can enter the room, until the control plane closes it.
 */
module LostReplies {
  import opened Options
  import opened JsMaps
  import opened RoomTypes
  import opened Rooms
  import opened Agreement
  import opened Tables
  import opened Signaling
  import opened SeatTables
  import opened SignalingRuns

  ghost predicate Blocked(w: Cluster, r: RoomId) {
    r in w.records && w.records[r].origin.None?
  }

  lemma BlockedJoinFails(w: Cluster, r: RoomId, user: UserId, role: string, name: string, caps: Option<Caps>,
                         now: nat, reply: CreateReply)
    requires Agreed(w) && Blocked(w, r)
    ensures JoinRoom(w, r, user, role, name, caps, now, reply) == w
    ensures AllocateRoom(w, r, reply) == (w, None)
  {
  }

  lemma OpenRecords(w: Cluster, r: RoomId, q: RoomId, now: nat, reply: CreateReply)
    requires q in w.records && (r == q ==> r in w.rooms)
    ensures q in OpenRoom(w, r, now, reply).records && OpenRoom(w, r, now, reply).records[q] == w.records[q]
  {
  }

  /** The router records that joining one room leaves alone. */
  lemma JoinRecords(w: Cluster, r: RoomId, q: RoomId, user: UserId, role: string, name: string, caps: Option<Caps>,
                    now: nat, reply: CreateReply)
    requires (Agreed(w) && Blocked(w, q)) || (r in w.rooms && r != q && Blocked(w, q))
    ensures Blocked(JoinRoom(w, r, user, role, name, caps, now, reply), q)
  {
    if r == q {
      BlockedJoinFails(w, r, user, role, name, caps, now, reply);
    } else {
      OpenRecords(w, r, q, now, reply);
      assert JoinRoom(w, r, user, role, name, caps, now, reply).records == OpenRoom(w, r, now, reply).records;
    }
  }

  lemma LeaveRecords(w: Cluster, r: RoomId, q: RoomId, pid: ParticipantId, closed: bool)
    requires Blocked(w, q) && (r == q ==> r !in w.rooms)
    ensures Blocked(LeaveRoom(w, r, pid, closed), q)
  {
  }

  lemma HandleJoinBlocked(s: Server, q: RoomId, c: ClientId, r: RoomId, role: string, name: string,
                          caps: Option<Caps>, now: nat, reply: CreateReply)
    requires Agreed(s.cluster) && Blocked(s.cluster, q) && c in s.clients
    ensures Blocked(HandleJoin(s, c, r, role, name, caps, now, reply).cluster, q)
  {
    if s.clients[c].user.Some? {
      var user := s.clients[c].user.value;
      var previous := FindByUser(s.cluster, r, user);
      var w := DropOldEntry(s, c, r, previous).cluster;
      assert w.records == s.cluster.records && (previous.Some? ==> r in w.rooms && r != q);
      JoinRecords(w, r, q, user, role, name, caps, now, reply);
    }
  }

  lemma HandleLeaveBlocked(s: Server, q: RoomId, c: ClientId, failing: set<Id>, closed: bool)
    requires Agreed(s.cluster) && Blocked(s.cluster, q) && c in s.clients
    ensures Blocked(HandleLeave(s, c, failing, closed).cluster, q)
  {
    var me := s.clients[c];
    if InRoom(me) {
      var r := me.room.value;
      if r in s.cluster.rooms {
        LeaveRecords(StripRoom(s.cluster, r, me.producers - failing), r, q, me.participant.value, closed);
      }
    }
  }

  lemma OwnHandlersBlocked(s: Server, step: Step)
    requires Known(s, step) && (step.CreatingTransport? || step.Producing? || step.ConsumingFrom? ||
                                step.ClosingProducer?)
    ensures Next(s, step).cluster.records == s.cluster.records
  {
  }

  /** Only closing the room through the control plane lifts the block. */
  lemma BlockedStep(s: Server, step: Step, q: RoomId)
    requires Agreed(s.cluster) && Blocked(s.cluster, q) && Possible(s, step)
    ensures Blocked(Next(s, step).cluster, q) <==> !(step.ClosingRoom? && step.r == q)
  {
    match step
    case Joining(c, r, role, name, caps, now, reply) => HandleJoinBlocked(s, q, c, r, role, name, caps, now, reply);
    case Leaving(c, failing, closed) => HandleLeaveBlocked(s, q, c, failing, closed);
    case Disconnecting(c, failing, closed) => HandleLeaveBlocked(s, q, c, failing, closed);
    case CreatingTransport(_, _, _) => OwnHandlersBlocked(s, step);
    case Producing(_, _, _, _) => OwnHandlersBlocked(s, step);
    case ConsumingFrom(_, _, _) => OwnHandlersBlocked(s, step);
    case ClosingProducer(_, _, _) => OwnHandlersBlocked(s, step);
    case _ =>
  }

  /** The reply to a create request got lost although the node now has a new router for the room. */
  predicate LosesRouter(s: Server, step: Step, q: RoomId)
    requires Known(s, step)
  {
    Asks(s, step, q) && step.reply.Lost? &&
    Router("http://" + BestNode(s.cluster.nodes).value.address, step.reply.id) !in s.cluster.routers
  }

  lemma AllocationBlocks(w: Cluster, r: RoomId, q: RoomId, reply: CreateReply)
    requires !Blocked(w, q)
    ensures Blocked(AllocateRoom(w, r, reply).0, q) <==>
            && r == q && q !in w.records && BestNode(w.nodes).Some?
            && reply.Lost? && Router("http://" + BestNode(w.nodes).value.address, reply.id) !in w.routers
  {
  }

  lemma OpeningBlocks(w: Cluster, r: RoomId, q: RoomId, now: nat, reply: CreateReply)
    requires Agreed(w) && !Blocked(w, q)
    ensures Blocked(OpenRoom(w, r, now, reply), q) <==> r !in w.rooms && Blocked(AllocateRoom(w, r, reply).0, q)
  {
    AllocationBlocks(w, r, q, reply);
  }

  lemma JoinBlocks(s: Server, q: RoomId, c: ClientId, r: RoomId, role: string, name: string, caps: Option<Caps>,
                   now: nat, reply: CreateReply)
    requires Agreed(s.cluster) && !Blocked(s.cluster, q) && c in s.clients
    ensures Blocked(HandleJoin(s, c, r, role, name, caps, now, reply).cluster, q) <==>
            s.clients[c].user.Some? && r !in s.cluster.rooms && Blocked(AllocateRoom(s.cluster, r, reply).0, q)
  {
    hide AllocateRoom, OpenRoom, Agreed, FirstWithUser;
    if s.clients[c].user.Some? {
      var w := DropOldEntry(s, c, r, FindByUser(s.cluster, r, s.clients[c].user.value)).cluster;
      if r in s.cluster.rooms {
        OpenResident(w, r, now, reply);
      } else {
        OpeningBlocks(w, r, q, now, reply);
      }
    }
  }

  /** A room becomes blocked by exactly the steps that lose a router. */
  lemma BlockingStep(s: Server, step: Step, q: RoomId)
    requires Agreed(s.cluster) && !Blocked(s.cluster, q) && Possible(s, step)
    ensures Blocked(Next(s, step).cluster, q) <==> LosesRouter(s, step, q)
  {
    hide AllocateRoom, HandleJoin, Agreed, HonestReply;
    match step
    case Joining(c, r, role, name, caps, now, reply) =>
      JoinBlocks(s, q, c, r, role, name, caps, now, reply);
      AllocationBlocks(s.cluster, r, q, reply);
    case Allocating(r, reply) =>
      AllocationBlocks(s.cluster, r, q, reply);
      ResidentRecorded(s.cluster, r);
    case CreatingTransport(_, _, _) => OwnHandlersBlocked(s, step);
    case Producing(_, _, _, _) => OwnHandlersBlocked(s, step);
    case ConsumingFrom(_, _, _) => OwnHandlersBlocked(s, step);
    case ClosingProducer(_, _, _) => OwnHandlersBlocked(s, step);
    case _ =>
  }

  /** Without such a close, the room is never resident again, whatever else happens. */
  lemma {:induction false} BlockedOverRuns(s: Server, steps: seq<Step>, q: RoomId)
    requires Agreed(s.cluster) && Blocked(s.cluster, q) && AllPossible(s, steps)
    requires forall step | step in steps :: !(step.ClosingRoom? && step.r == q)
    ensures q !in After(s, steps).cluster.rooms && Blocked(After(s, steps).cluster, q)
    decreases |steps|
  {
    if steps != [] {
      assert steps[0] in steps;
      StepAgrees(s, steps[0]);
      BlockedStep(s, steps[0], q);
      BlockedOverRuns(Next(s, steps[0]), steps[1..], q);
    }
  }

  predicate NeverCloses(steps: seq<Step>, q: RoomId) {
    forall step | step in steps :: !(step.ClosingRoom? && step.r == q)
  }

  /** Somewhere in the run a router of `q` is lost, and the control plane does not close `q` after that. */
  ghost predicate LosesForGood(s: Server, steps: seq<Step>, q: RoomId)
    requires AllPossible(s, steps)
    decreases |steps|
  {
    steps != [] &&
    ((LosesRouter(s, steps[0], q) && NeverCloses(steps[1..], q)) || LosesForGood(Next(s, steps[0]), steps[1..], q))
  }

  /** After any run a room is blocked exactly if a lost reply blocked it and no control-plane close came after. */
  lemma {:induction false} BlockedExactly(s: Server, steps: seq<Step>, q: RoomId)
    requires Agreed(s.cluster) && AllPossible(s, steps)
    ensures Blocked(After(s, steps).cluster, q) <==>
            (Blocked(s.cluster, q) && NeverCloses(steps, q)) || LosesForGood(s, steps, q)
    decreases |steps|
  {
    hide Next, Agreed, Blocked, LosesRouter;
    if steps != [] {
      var step, rest, s' := steps[0], steps[1..], Next(s, steps[0]);
      assert NeverCloses(steps, q) <==> !(step.ClosingRoom? && step.r == q) && NeverCloses(rest, q) by {
        assert steps == [step] + rest;
      }
      StepAgrees(s, step);
      BlockedExactly(s', rest, q);
      if Blocked(s.cluster, q) {
        BlockedStep(s, step, q);
        BlockedLosesNothing(s, step, q);
      } else {
        BlockingStep(s, step, q);
      }
    }
  }

  lemma BlockedLosesNothing(s: Server, step: Step, q: RoomId)
    requires Blocked(s.cluster, q) && Known(s, step)
    ensures !LosesRouter(s, step, q)
  {
  }
}

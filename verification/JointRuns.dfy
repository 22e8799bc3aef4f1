/**
 * The signaling server together with the SFU nodes it calls, each node running the router code of SfuRouters. What the
 * agreement results take for granted about a node's replies is proved here of every joint run.
 */
module JointRuns {
  import opened Options
  import opened JsMaps
  import opened RoomTypes
  import opened Rooms
  import opened Agreement
  import opened Tables
  import opened Signaling
  import opened SignalingRuns
  import Placement
  import WorkerPool
  import S = SfuRouters

  type Nodes = map<string, S.Node>          // by HTTP origin
  type Routers = map<Router, RoomId>        // those that signaling sees, with the rooms they serve
  datatype Joint = Joint(server: Server, nodes: Nodes)

  /** How a create call goes: it does not arrive, the worker rejects it, its reply is lost, or it is answered. */
  datatype Outcome = Unreached | Rejected | Unanswered | Answered

  datatype JointStep =
    | Handler(step: Step, outcome: Outcome, router: Id, caps: Caps)     // `router` is the id a new router would get
    | AtNode(origin: string, own: S.Step)                               // worker deaths, replacements and usage reports

  function OriginOf(n: SfuNode): string {
    "http://" + n.address
  }

  // ---- one call to a node, from its first stretch of code to its last --------------------------------------

  ghost predicate Quiet(node: S.Node) {
    node.creating == map[] && node.closing == map[] && node.pending == {}
  }

  predicate Makes(node: S.Node, r: RoomId, outcome: Outcome) {
    && r != "" && (outcome.Unanswered? || outcome.Answered?)
    && !S.HasRouter(node.routers, r) && WorkerPool.LeastLoaded(node.workers, node.closed).Some?
  }

  /** What the node runs for a create call. No route takes a request under the empty room id. */
  function CreatePath(node: S.Node, r: RoomId, outcome: Outcome, router: Id): seq<S.Step> {
    if r == "" || outcome.Unreached? then []
    else if S.HasRouter(node.routers, r) then [S.BeginCreate(0, r)]
    else if WorkerPool.LeastLoaded(node.workers, node.closed).None? then [S.BeginCreate(0, r), S.EndCreate(0)]
    else if outcome.Rejected? then [S.BeginCreate(0, r), S.RouterMade(0, None), S.EndCreate(0)]
    else [S.BeginCreate(0, r), S.RouterMade(0, Some(router)), S.RecordWritten(0), S.EndCreate(0)]
  }

  ghost function RouterOf(node: S.Node, r: RoomId): (id: Id)
    requires S.HasRouter(node.routers, r)
    ensures id in node.routers && node.routers[id].room == r
  {
    var id :| id in node.routers && node.routers[id].room == r;
    id
  }

  /** What the caller gets to see of it. */
  ghost function ReplyOf(node: S.Node, r: RoomId, outcome: Outcome, router: Id, caps: Caps): CreateReply {
    if r == "" || outcome.Unreached? then Refused
    else if S.HasRouter(node.routers, r) then
      if outcome.Unanswered? then Lost(RouterOf(node, r)) else Created(RouterOf(node, r), caps)
    else if !Makes(node, r, outcome) then Refused
    else if outcome.Unanswered? then Lost(router)
    else Created(router, caps)
  }

  function ClosePath(node: S.Node, id: Id, reached: bool): seq<S.Step> {
    if !reached then []
    else if id in node.routers then [S.BeginClose(0, id), S.EndClose(0, true)]
    else [S.BeginClose(0, id)]
  }

  lemma CreateRuns(node: S.Node, r: RoomId, outcome: Outcome, router: Id)
    requires Quiet(node) && router !in node.routers
    ensures var path := CreatePath(node, r, outcome, router);
            S.AllPossible(node, path) &&
            var node' := S.After(node, path);
            && Quiet(node')
            && (!Makes(node, r, outcome) ==> node'.routers == node.routers)
            && (Makes(node, r, outcome) ==>
                  && router in node'.routers && node'.routers[router].room == r
                  && node'.routers == node.routers[router := node'.routers[router]])
  {
    var path := CreatePath(node, r, outcome, router);
    if path != [] {
      var s1 := S.Next(node, S.BeginCreate(0, r));
      if |path| == 1 {
        S.OneMore(node, path[0], []);
        assert path == [path[0]] + [];
      } else if |path| == 2 {
        S.OneMore(s1, S.EndCreate(0), []);
        S.OneMore(node, path[0], [S.EndCreate(0)]);
        assert path == [path[0]] + ([S.EndCreate(0)] + []);
      } else if |path| == 3 {
        var s2 := S.Next(s1, S.RouterMade(0, None));
        S.OneMore(s2, S.EndCreate(0), []);
        S.OneMore(s1, S.RouterMade(0, None), [S.EndCreate(0)]);
        S.OneMore(node, path[0], [S.RouterMade(0, None), S.EndCreate(0)]);
        assert path == [path[0]] + ([S.RouterMade(0, None)] + ([S.EndCreate(0)] + []));
      } else {
        MakeRuns(node, r, router);
      }
    }
  }

  lemma MakeRuns(node: S.Node, r: RoomId, router: Id)
    requires Quiet(node) && router !in node.routers
    requires !S.HasRouter(node.routers, r) && WorkerPool.LeastLoaded(node.workers, node.closed).Some?
    ensures var path := [S.BeginCreate(0, r), S.RouterMade(0, Some(router)), S.RecordWritten(0), S.EndCreate(0)];
            S.AllPossible(node, path) &&
            var node' := S.After(node, path);
            && Quiet(node') && router in node'.routers && node'.routers[router].room == r
            && node'.routers == node.routers[router := node'.routers[router]]
  {
    var made, written, over := S.RouterMade(0, Some(router)), S.RecordWritten(0), S.EndCreate(0);
    var s1 := S.Next(node, S.BeginCreate(0, r));
    var s2 := S.Next(s1, made);
    var s3 := S.Next(s2, written);
    S.OneMore(s3, over, []);
    S.OneMore(s2, written, [over]);
    S.OneMore(s1, made, [written, over]);
    S.OneMore(node, S.BeginCreate(0, r), [made, written, over]);
    assert [S.BeginCreate(0, r), made, written, over] == [S.BeginCreate(0, r)] + ([made] + ([written] + ([over] + [])));
  }

  lemma CloseRuns(node: S.Node, id: Id, reached: bool)
    requires Quiet(node)
    ensures var path := ClosePath(node, id, reached);
            S.AllPossible(node, path) &&
            var node' := S.After(node, path);
            Quiet(node') && node'.routers == if reached then node.routers - {id} else node.routers
  {
    var path := ClosePath(node, id, reached);
    if path != [] {
      var s1 := S.Next(node, path[0]);
      if |path| == 1 {
        S.OneMore(node, path[0], []);
        assert path == [path[0]] + [];
      } else {
        S.OneMore(s1, path[1], []);
        S.OneMore(node, path[0], [path[1]]);
        assert path == [path[0]] + ([path[1]] + []);
      }
    }
  }

  lemma QuietSingle(node: S.Node)
    requires Quiet(node)
    ensures S.SingleFlight(node)
  {
  }

  // ---- joint steps ---------------------------------------------------------------------------------------------

  /** The room that a step releases, if any: dropped by the control plane, or left by its last participant. */
  function Releases(s: Server, step: Step): Option<RoomId>
    requires Known(s, step)
  {
    match step
    case ClosingRoom(r, _) => Some(r)
    case Leaving(c, _, _) => LastOut(s, c)
    case Disconnecting(c, _, _) => LastOut(s, c)
    case _ => None
  }

  function LastOut(s: Server, c: ClientId): Option<RoomId>
    requires c in s.clients
  {
    var me := s.clients[c];
    if InRoom(me) && me.room.value in s.cluster.rooms
       && s.cluster.rooms[me.room.value].participants.at - {me.participant.value} == map[]
    then me.room else None
  }

  predicate TakesReply(step: Step) {
    step.Joining? || step.Allocating?
  }

  predicate CallsCreate(s: Server, step: Step)
    requires Known(s, step)
  {
    TakesReply(step) && Asks(s, step, step.r)
  }

  /** The release reaches a node: Redis has a complete record, and the call gets through. */
  predicate CallsClose(s: Server, step: Step)
    requires Known(s, step)
  {
    && Releases(s, step).Some? && step.closed
    && Releases(s, step).value in s.cluster.records && s.cluster.records[Releases(s, step).value].origin.Some?
  }

  function RecordOf(s: Server, step: Step): RouterRecord
    requires Known(s, step) && CallsClose(s, step)
  {
    s.cluster.records[Releases(s, step).value]
  }

  /** The signaling step with the reply that the node really gives. */
  ghost function Effective(j: Joint, h: JointStep): Step
    requires h.Handler? && Known(j.server, h.step)
  {
    if !TakesReply(h.step) then h.step
    else if !CallsCreate(j.server, h.step) || Best(j.server) !in j.nodes then h.step.(reply := Refused)
    else h.step.(reply := ReplyOf(j.nodes[Best(j.server)], h.step.r, h.outcome, h.router, h.caps))
  }

  /** The node that a create call goes to. */
  function Best(s: Server): string {
    if BestNode(s.cluster.nodes).None? then "" else OriginOf(BestNode(s.cluster.nodes).value)
  }

  ghost function RunAll(node: S.Node, path: seq<S.Step>): S.Node {
    if S.AllPossible(node, path) then S.After(node, path) else node
  }

  ghost function NodesAfter(j: Joint, h: JointStep): Nodes
    requires h.Handler? && Known(j.server, h.step)
  {
    if CallsCreate(j.server, h.step) && Best(j.server) in j.nodes then
      var node := j.nodes[Best(j.server)];
      j.nodes[Best(j.server) := RunAll(node, CreatePath(node, h.step.r, h.outcome, h.router))]
    else if CallsClose(j.server, h.step) && RecordOf(j.server, h.step).origin.value in j.nodes then
      var rec := RecordOf(j.server, h.step);
      var node := j.nodes[rec.origin.value];
      j.nodes[rec.origin.value := RunAll(node, ClosePath(node, rec.routerId, true))]
    else j.nodes
  }

  ghost predicate Configured(j: Joint) {
    forall n | n in j.server.cluster.nodes :: OriginOf(n) in j.nodes
  }

  ghost predicate NewId(nodes: Nodes, id: Id) {
    id != "" && forall o | o in nodes :: id !in nodes[o].routers
  }

  predicate Own(step: S.Step) {
    step.WorkerDied? || step.WorkerReplaced? || step.Monitored?
  }

  /**
   * Handlers run for connected clients, new router ids are new everywhere, and health checks keep to the configured
   * nodes.
   */
  ghost predicate JointPossible(j: Joint, h: JointStep) {
    match h
    case Handler(step, _, router, _) =>
      && Known(j.server, step) && NewId(j.nodes, router)
      && (step.CheckingHealth? ==> forall n | n in step.nodes :: OriginOf(n) in j.nodes)
    case AtNode(o, own) => o in j.nodes && Own(own) && S.Possible(j.nodes[o], own)
  }

  /** The routers that signaling sees at `origin` are those in the node's table. */
  ghost predicate Mirrors(seen: Routers, origin: string, node: S.Node) {
    && (forall id :: Router(origin, id) in seen <==> id in node.routers)
    && (forall id | id in node.routers :: seen[Router(origin, id)] == node.routers[id].room)
  }

  ghost predicate IdsGlobal(seen: Routers) {
    forall k, l | k in seen && l in seen && k.id == l.id :: k == l
  }

  ghost predicate NodesOk(seen: Routers, nodes: Nodes) {
    && (forall o | o in nodes :: Mirrors(seen, o, nodes[o]) && Quiet(nodes[o]) && S.OnePerRoom(nodes[o]))
    && (forall k | k in seen :: k.origin in nodes && k.id != "")
    && IdsGlobal(seen)
  }

  ghost predicate JInv(j: Joint) {
    Agreed(j.server.cluster) && Configured(j) && NodesOk(j.server.cluster.routers, j.nodes)
  }

  ghost function JointNext(j: Joint, h: JointStep): Joint
    requires JointPossible(j, h)
  {
    match h
    case Handler(step, _, _, _) =>
      EffectiveKnown(j, h);
      Joint(Next(j.server, Effective(j, h)), NodesAfter(j, h))
    case AtNode(o, own) => j.(nodes := j.nodes[o := S.Next(j.nodes[o], own)])
  }

  lemma EffectiveKnown(j: Joint, h: JointStep)
    requires h.Handler? && Known(j.server, h.step)
    ensures Known(j.server, Effective(j, h))
  {
  }

  // ---- what the nodes do is what signaling takes for granted ----------------------------------------------------

  lemma BestConfigured(j: Joint)
    requires Configured(j) && BestNode(j.server.cluster.nodes).Some?
    ensures Best(j.server) in j.nodes
  {
    Placement.BestNodeIsBest(j.server.cluster.nodes);
  }

  lemma ReplyHonest(w: Cluster, nodes: Nodes, o: string, r: RoomId, outcome: Outcome, router: Id, caps: Caps)
    requires NodesOk(w.routers, nodes) && o in nodes && NewId(nodes, router)
    ensures HonestReply(w, r, ReplyOf(nodes[o], r, outcome, router, caps))
  {
    var reply := ReplyOf(nodes[o], r, outcome, router, caps);
    if !reply.Refused? {
      if S.HasRouter(nodes[o].routers, r) {
        assert Mirrors(w.routers, o, nodes[o]) && Router(o, reply.id) in w.routers;
      } else {
        assert reply.id == router;
      }
    }
  }

  /** The step that the server takes is one of its possible steps: the node's reply is honest. */
  lemma EffectivePossible(j: Joint, h: JointStep)
    requires JInv(j) && JointPossible(j, h) && h.Handler?
    ensures Possible(j.server, Effective(j, h))
  {
    hide NodesOk, HonestReply, ReplyOf;
    EffectiveKnown(j, h);
    if TakesReply(h.step) {
      if CallsCreate(j.server, h.step) && Best(j.server) in j.nodes {
        ReplyHonest(j.server.cluster, j.nodes, Best(j.server), h.step.r, h.outcome, h.router, h.caps);
      } else {
        RefusalHonest(j.server.cluster, h.step.r);
      }
    }
  }

  lemma RefusalHonest(w: Cluster, r: RoomId)
    ensures HonestReply(w, r, Refused)
  {
  }

  // ---- the routers that signaling sees ----------------------------------------------------------------------------

  lemma OpenRouters(w: Cluster, r: RoomId, now: nat, reply: CreateReply)
    requires Agreed(w)
    ensures var w' := OpenRoom(w, r, now, reply);
            w'.nodes == w.nodes && w'.routers == if r in w.rooms then w.routers else AllocateRoom(w, r, reply).0.routers
  {
    hide AllocateRoom, RestoreRoom, Agreed;
    if r !in w.rooms {
      NotCopied(w, r);
      RestoredFromRecord(w, r, now);
      AllocationKeepsNodes(w, r, reply);
    }
  }

  lemma NotCopied(w: Cluster, r: RoomId)
    requires Agreed(w) && r !in w.rooms
    ensures r !in w.snapshots
  {
  }

  lemma RestoredFromRecord(w: Cluster, r: RoomId, now: nat)
    requires r !in w.rooms && r !in w.snapshots
    ensures var w' := RestoreRoom(w, r, now);
            && (r !in w'.rooms ==> w' == w)
            && (r in w'.rooms ==> r in w.records && w'.routers == w.routers && w'.nodes == w.nodes)
  {
    hide HostOf;
  }

  lemma AllocationKeepsNodes(w: Cluster, r: RoomId, reply: CreateReply)
    ensures var w' := AllocateRoom(w, r, reply).0; w'.nodes == w.nodes && (r in w.records ==> w'.routers == w.routers)
  {
    hide HostOf, BestNode;
  }

  lemma AllocationRouters(w: Cluster, r: RoomId, reply: CreateReply)
    requires HonestReply(w, r, reply)
    ensures var w' := AllocateRoom(w, r, reply).0;
            && w'.nodes == w.nodes
            && w'.routers ==
               if r in w.records || BestNode(w.nodes).None? || reply.Refused? then w.routers
               else w.routers[Router(OriginOf(BestNode(w.nodes).value), reply.id) := r]
  {
  }

  lemma JoinRouters(s: Server, c: ClientId, r: RoomId, role: string, name: string, caps: Option<Caps>, now: nat,
                    reply: CreateReply)
    requires Agreed(s.cluster) && c in s.clients
    ensures var w' := HandleJoin(s, c, r, role, name, caps, now, reply).cluster;
            && w'.nodes == s.cluster.nodes
            && w'.routers ==
               if s.clients[c].user.None? || r in s.cluster.rooms then s.cluster.routers
               else AllocateRoom(s.cluster, r, reply).0.routers
  {
    hide AllocateRoom, OpenRoom, Agreed, FirstWithUser, Broadcast;
    if s.clients[c].user.Some? {
      var w := DropOldEntry(s, c, r, FindByUser(s.cluster, r, s.clients[c].user.value)).cluster;
      if r in s.cluster.rooms {
        OpenResident(w, r, now, reply);
      } else {
        OpenRouters(w, r, now, reply);
      }
    }
  }

  lemma LeaveRouters(s: Server, c: ClientId, failing: set<Id>, closed: bool)
    requires c in s.clients
    ensures var w' := HandleLeave(s, c, failing, closed).cluster;
            && w'.nodes == s.cluster.nodes
            && w'.routers ==
               (if LastOut(s, c).Some? then ReleaseRoom(s.cluster, LastOut(s, c).value, closed) else s.cluster).routers
  {
    hide StripProducers, Broadcast;
    var me := s.clients[c];
    if InRoom(me) && me.room.value in s.cluster.rooms {
      SameMembers(s.cluster.rooms[me.room.value].participants, me.producers - failing, me.participant.value);
    }
  }

  lemma SameMembers(m: JsMap<ParticipantId, Participant>, gone: set<Id>, pid: ParticipantId)
    ensures StripProducers(m, gone).at - {pid} == map[] <==> m.at - {pid} == map[]
  {
    assert (StripProducers(m, gone).at - {pid}).Keys == (m.at - {pid}).Keys;
    NoKeys(StripProducers(m, gone).at - {pid});
    NoKeys(m.at - {pid});
  }

  lemma NoKeys<K, V>(m: map<K, V>)
    ensures m == map[] <==> m.Keys == {}
  {
    if m.Keys == {} {
      assert forall k :: k !in m;
    }
  }

  lemma OwnHandlersRouters(s: Server, step: Step)
    requires Known(s, step) && (step.CreatingTransport? || step.Producing? || step.ConsumingFrom? ||
                                step.ClosingProducer?)
    ensures Next(s, step).cluster.routers == s.cluster.routers && Next(s, step).cluster.nodes == s.cluster.nodes
  {
  }

  /** What a signaling step does to the routers it sees: it follows its create and close calls and nothing else. */
  lemma StepRouters(s: Server, step: Step)
    requires Agreed(s.cluster) && Possible(s, step)
    ensures var w, w' := s.cluster, Next(s, step).cluster;
            && w'.nodes == (if step.CheckingHealth? then step.nodes else w.nodes)
            && w'.routers ==
               if CallsCreate(s, step) && !step.reply.Refused? then w.routers[Router(Best(s), step.reply.id) := step.r]
               else if CallsClose(s, step) then
                 w.routers - {Router(RecordOf(s, step).origin.value, RecordOf(s, step).routerId)}
               else w.routers
  {
    hide AllocateRoom, HandleJoin, HandleLeave, Agreed, HonestReply, LastOut;
    match step
    case Joining(c, r, role, name, caps, now, reply) =>
      JoinRouters(s, c, r, role, name, caps, now, reply);
      AllocationRouters(s.cluster, r, reply);
    case Allocating(r, reply) =>
      AllocationRouters(s.cluster, r, reply);
      ResidentRecorded(s.cluster, r);
    case Leaving(c, failing, closed) => LeaveRouters(s, c, failing, closed);
    case Disconnecting(c, failing, closed) => LeaveRouters(s, c, failing, closed);
    case CreatingTransport(_, _, _) => OwnHandlersRouters(s, step);
    case Producing(_, _, _, _) => OwnHandlersRouters(s, step);
    case ConsumingFrom(_, _, _) => OwnHandlersRouters(s, step);
    case ClosingProducer(_, _, _) => OwnHandlersRouters(s, step);
    case _ =>
  }

  // ---- the tables of signaling and of the nodes stay in step ----------------------------------------------------

  lemma SameTables(seen: Routers, nodes: Nodes, o: string, node: S.Node)
    requires NodesOk(seen, nodes) && o in nodes && Quiet(node) && node.routers == nodes[o].routers
    ensures NodesOk(seen, nodes[o := node])
  {
  }

  lemma MirrorElsewhere(seen: Routers, seen': Routers, o: string, p: string, node: S.Node)
    requires Mirrors(seen, p, node) && p != o
    requires forall k: Router | k.origin != o :: (k in seen <==> k in seen') && (k in seen ==> seen[k] == seen'[k])
    ensures Mirrors(seen', p, node)
  {
  }

  lemma MirrorAdded(seen: Routers, o: string, before: S.Node, node: S.Node, r: RoomId, id: Id)
    requires Mirrors(seen, o, before) && id in node.routers && node.routers[id].room == r
    requires node.routers == before.routers[id := node.routers[id]]
    ensures Mirrors(seen[Router(o, id) := r], o, node)
  {
  }

  lemma MirrorRemoved(seen: Routers, o: string, before: S.Node, node: S.Node, id: Id)
    requires Mirrors(seen, o, before) && node.routers == before.routers - {id}
    ensures Mirrors(seen - {Router(o, id)}, o, node)
  {
  }

  lemma IdUnseen(seen: Routers, nodes: Nodes, id: Id)
    requires NodesOk(seen, nodes) && NewId(nodes, id)
    ensures forall k | k in seen :: k.id != id
  {
    forall k | k in seen ensures k.id != id {
      assert Mirrors(seen, k.origin, nodes[k.origin]) && Router(k.origin, k.id) in seen;
    }
  }

  lemma NodeReplaced(seen: Routers, seen': Routers, nodes: Nodes, o: string, node: S.Node)
    requires NodesOk(seen, nodes) && o in nodes
    requires forall k: Router | k.origin != o :: (k in seen <==> k in seen') && (k in seen ==> seen[k] == seen'[k])
    requires Mirrors(seen', o, node) && Quiet(node) && S.OnePerRoom(node)
    requires IdsGlobal(seen') && forall k | k in seen' :: k.id != ""
    ensures NodesOk(seen', nodes[o := node])
  {
    hide Mirrors, Quiet, IdsGlobal, S.OnePerRoom;
    forall p | p in nodes && p != o ensures Mirrors(seen', p, nodes[p]) {
      MirrorElsewhere(seen, seen', o, p, nodes[p]);
    }
  }

  lemma RouterAdded(seen: Routers, nodes: Nodes, o: string, node: S.Node, r: RoomId, id: Id)
    requires NodesOk(seen, nodes) && o in nodes && NewId(nodes, id)
    requires Quiet(node) && S.OnePerRoom(node) && id in node.routers && node.routers[id].room == r
    requires node.routers == nodes[o].routers[id := node.routers[id]]
    ensures NodesOk(seen[Router(o, id) := r], nodes[o := node])
  {
    hide Mirrors, Quiet, S.OnePerRoom;
    IdUnseen(seen, nodes, id);
    MirrorAdded(seen, o, nodes[o], node, r, id);
    NodeReplaced(seen, seen[Router(o, id) := r], nodes, o, node);
  }

  lemma RouterRemoved(seen: Routers, nodes: Nodes, o: string, node: S.Node, id: Id)
    requires NodesOk(seen, nodes) && o in nodes
    requires Quiet(node) && node.routers == nodes[o].routers - {id}
    ensures NodesOk(seen - {Router(o, id)}, nodes[o := node])
  {
    hide Mirrors, Quiet;
    MirrorRemoved(seen, o, nodes[o], node, id);
    NodeReplaced(seen, seen - {Router(o, id)}, nodes, o, node);
  }

  lemma CreateKeeps(seen: Routers, nodes: Nodes, o: string, r: RoomId, outcome: Outcome, router: Id, caps: Caps)
    requires NodesOk(seen, nodes) && o in nodes && NewId(nodes, router)
    ensures var reply := ReplyOf(nodes[o], r, outcome, router, caps);
            var seen' := if reply.Refused? then seen else seen[Router(o, reply.id) := r];
            NodesOk(seen', nodes[o := RunAll(nodes[o], CreatePath(nodes[o], r, outcome, router))])
  {
    hide CreatePath, Quiet, Mirrors;
    var node := nodes[o];
    var path := CreatePath(node, r, outcome, router);
    CreateRuns(node, r, outcome, router);
    QuietSingle(node);
    S.OneRouterPerRoom(node, path);
    var after := S.After(node, path);
    if Makes(node, r, outcome) {
      RouterAdded(seen, nodes, o, after, r, router);
    } else {
      SameTables(seen, nodes, o, after);
      if S.HasRouter(node.routers, r) {
        var id := RouterOf(node, r);
        KnownRouter(seen, nodes, o, id);
        assert seen[Router(o, id) := r] == seen;
      }
    }
  }

  lemma KnownRouter(seen: Routers, nodes: Nodes, o: string, id: Id)
    requires NodesOk(seen, nodes) && o in nodes && id in nodes[o].routers
    ensures Router(o, id) in seen && seen[Router(o, id)] == nodes[o].routers[id].room
  {
    assert Mirrors(seen, o, nodes[o]);
  }

  lemma CloseKeeps(seen: Routers, nodes: Nodes, o: string, id: Id)
    requires NodesOk(seen, nodes) && o in nodes
    ensures NodesOk(seen - {Router(o, id)}, nodes[o := RunAll(nodes[o], ClosePath(nodes[o], id, true))])
  {
    hide ClosePath, Quiet, Mirrors;
    CloseRuns(nodes[o], id, true);
    RouterRemoved(seen, nodes, o, S.After(nodes[o], ClosePath(nodes[o], id, true)), id);
  }

  lemma RecordConfigured(j: Joint, step: Step)
    requires JInv(j) && Known(j.server, step) && CallsClose(j.server, step)
    ensures RecordOf(j.server, step).origin.Some? && RecordOf(j.server, step).origin.value in j.nodes
  {
    hide Quiet, Mirrors, Releases;
    var rec := RecordOf(j.server, step);
    assert Router(rec.origin.value, rec.routerId) in j.server.cluster.routers;
  }

  lemma SameCalls(j: Joint, h: JointStep)
    requires h.Handler? && Known(j.server, h.step)
    ensures var e := Effective(j, h);
            && Known(j.server, e) && (TakesReply(e) ==> e.r == h.step.r)
            && (e.CheckingHealth? <==> h.step.CheckingHealth?) && (e.CheckingHealth? ==> e == h.step)
            && (CallsCreate(j.server, e) <==> CallsCreate(j.server, h.step))
            && (CallsClose(j.server, e) <==> CallsClose(j.server, h.step))
            && (CallsClose(j.server, e) ==> e == h.step)
  {
  }

  lemma HandlerKeeps(j: Joint, h: JointStep)
    requires JInv(j) && JointPossible(j, h) && h.Handler?
    ensures JInv(JointNext(j, h))
  {
    hide NodesOk, Agreed, ReplyOf, CallsCreate, CallsClose, Next, Possible, CreatePath, ClosePath, RunAll, Known,
        BestNode;
    var s, e := j.server, Effective(j, h);
    EffectivePossible(j, h);
    StepAgrees(s, e);
    StepRouters(s, e);
    SameCalls(j, h);
    if CallsCreate(s, h.step) {
      CreateHasNode(j, h.step);
      CreateKeeps(s.cluster.routers, j.nodes, Best(s), h.step.r, h.outcome, h.router, h.caps);
    } else if CallsClose(s, h.step) {
      RecordConfigured(j, h.step);
      var rec := RecordOf(s, h.step);
      CloseKeeps(s.cluster.routers, j.nodes, rec.origin.value, rec.routerId);
    }
  }

  lemma CreateHasNode(j: Joint, step: Step)
    requires Configured(j) && Known(j.server, step) && CallsCreate(j.server, step)
    ensures Best(j.server) in j.nodes && TakesReply(step) && !CallsClose(j.server, step)
  {
    BestConfigured(j);
  }

  lemma OwnKeeps(j: Joint, h: JointStep)
    requires JInv(j) && JointPossible(j, h) && h.AtNode?
    ensures JInv(JointNext(j, h))
  {
    hide NodesOk, Agreed;
    OwnStep(j.server.cluster.routers, j.nodes, h.origin, h.own);
  }

  lemma OwnStep(seen: Routers, nodes: Nodes, o: string, own: S.Step)
    requires NodesOk(seen, nodes) && o in nodes && Own(own) && S.Possible(nodes[o], own)
    ensures NodesOk(seen, nodes[o := S.Next(nodes[o], own)])
  {
    SameTables(seen, nodes, o, S.Next(nodes[o], own));
  }

  ghost predicate AllJointPossible(j: Joint, run: seq<JointStep>)
    decreases |run|
  {
    run == [] || (JointPossible(j, run[0]) && AllJointPossible(JointNext(j, run[0]), run[1..]))
  }

  ghost function JointAfter(j: Joint, run: seq<JointStep>): Joint
    requires AllJointPossible(j, run)
    decreases |run|
  {
    if run == [] then j else JointAfter(JointNext(j, run[0]), run[1..])
  }

  /** Over every joint run the two sides know the same routers, and no node has two of them for one room. */
  lemma {:induction false} JointOverRuns(j: Joint, run: seq<JointStep>)
    requires JInv(j) && AllJointPossible(j, run)
    ensures JInv(JointAfter(j, run))
    decreases |run|
  {
    hide JInv, JointPossible, JointNext;
    if run != [] {
      if run[0].Handler? {
        HandlerKeeps(j, run[0]);
      } else {
        OwnKeeps(j, run[0]);
      }
      JointOverRuns(JointNext(j, run[0]), run[1..]);
    }
  }

  /** What signaling does in a joint run, with the replies it really gets. */
  ghost function ServerRun(j: Joint, run: seq<JointStep>): seq<Step>
    requires AllJointPossible(j, run)
    decreases |run|
  {
    if run == [] then []
    else (if run[0].Handler? then [Effective(j, run[0])] else []) + ServerRun(JointNext(j, run[0]), run[1..])
  }

  /** It is a possible run of the signaling server: every result about those holds next to real nodes. */
  lemma {:induction false} ServerRunPossible(j: Joint, run: seq<JointStep>)
    requires JInv(j) && AllJointPossible(j, run)
    ensures AllPossible(j.server, ServerRun(j, run))
    ensures After(j.server, ServerRun(j, run)) == JointAfter(j, run).server
    decreases |run|
  {
    hide JInv, Possible, Next, NodesAfter, Effective;
    if run != [] {
      var rest := ServerRun(JointNext(j, run[0]), run[1..]);
      if run[0].Handler? {
        HandlerKeeps(j, run[0]);
        EffectivePossible(j, run[0]);
        ServerRunPossible(JointNext(j, run[0]), run[1..]);
        assert ([Effective(j, run[0])] + rest)[1..] == rest;
      } else {
        OwnKeeps(j, run[0]);
        ServerRunPossible(JointNext(j, run[0]), run[1..]);
        assert [] + rest == rest;
      }
    }
  }

  ghost predicate FreshNodes(nodes: Nodes) {
    forall o | o in nodes :: Quiet(nodes[o]) && nodes[o].routers == map[]
  }

  /**
   * From an empty service over nodes without routers: every resident room's router is in the table of the node at the
   * room's origin, under that room, and nothing else there serves the room; no other node has a router of that id.
   */
  lemma ResidentRoomsServed(infos: seq<SfuNode>, nodes: Nodes, run: seq<JointStep>)
    requires FreshNodes(nodes) && forall n | n in infos :: OriginOf(n) in nodes
    requires AllJointPossible(Joint(Initial(infos), nodes), run)
    ensures var j := JointAfter(Joint(Initial(infos), nodes), run);
            forall r | r in j.server.cluster.rooms ::
              var room := j.server.cluster.rooms[r];
              && room.origin in j.nodes && room.routerId in j.nodes[room.origin].routers
              && (forall id | id in j.nodes[room.origin].routers ::
                    j.nodes[room.origin].routers[id].room == r <==> id == room.routerId)
              && (forall o | o in j.nodes && room.routerId in j.nodes[o].routers :: o == room.origin)
  {
    var start := Joint(Initial(infos), nodes);
    InitialInv(infos);
    JointOverRuns(start, run);
    var j := JointAfter(start, run);
    forall r | r in j.server.cluster.rooms
      ensures var room := j.server.cluster.rooms[r];
              && room.origin in j.nodes && room.routerId in j.nodes[room.origin].routers
              && (forall id | id in j.nodes[room.origin].routers ::
                    j.nodes[room.origin].routers[id].room == r <==> id == room.routerId)
              && (forall o | o in j.nodes && room.routerId in j.nodes[o].routers :: o == room.origin)
    {
      RoomServed(j, r);
    }
  }

  lemma RoomServed(j: Joint, r: RoomId)
    requires JInv(j) && r in j.server.cluster.rooms
    ensures var room := j.server.cluster.rooms[r];
            && room.origin in j.nodes && room.routerId in j.nodes[room.origin].routers
            && (forall id | id in j.nodes[room.origin].routers ::
                  j.nodes[room.origin].routers[id].room == r <==> id == room.routerId)
            && (forall o | o in j.nodes && room.routerId in j.nodes[o].routers :: o == room.origin)
  {
    hide Coherent, Quiet;
    var w := j.server.cluster;
    var room := w.rooms[r];
    assert Router(room.origin, room.routerId) in w.routers;
    assert Mirrors(w.routers, room.origin, j.nodes[room.origin]);
    forall o | o in j.nodes && room.routerId in j.nodes[o].routers ensures o == room.origin {
      assert Mirrors(w.routers, o, j.nodes[o]) && Router(o, room.routerId) in w.routers;
    }
  }
}

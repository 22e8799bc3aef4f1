/**
 * Router creation and closing on an SFU node, cut at every `await`: each step is what runs between two awaits,
 * and the steps of concurrent calls, worker deaths and worker restarts interleave in any order.
 */
module SfuRouters {
  import opened Options
  import opened RoomTypes
  import opened WorkerPool

  /** `closes` counts the closeRouter calls that have begun on the router. */
  datatype RouterInfo = RouterInfo(room: RoomId, worker: WorkerId, closes: nat)

  /** A createRouter call that started a creation of its own. */
  datatype Creation =
    | Picked(room: RoomId, worker: WorkerId)      // the worker has been asked for a router
    | Stored(room: RoomId)                        // the router is in the table; Redis is being written
    | Settled(room: RoomId)                       // doCreateRouter is over, one way or the other

  datatype Node = Node(
    workers: seq<WorkerInfo>, closed: set<WorkerId>,
    routers: map<Id, RouterInfo>,
    pending: set<RoomId>,                         // the keys of pendingRouters
    creating: map<nat, Creation>, closing: map<nat, Id>)

  datatype Step =
    | BeginCreate(t: nat, room: RoomId)
    | RouterMade(t: nat, router: Option<Id>)      // None: worker.createRouter rejected
    | RecordWritten(t: nat)                       // setRoomRouter resolved or rejected
    | EndCreate(t: nat)                           // `finally`
    | BeginClose(t: nat, id: Id)
    | EndClose(t: nat, deleted: bool)             // deleteRoomRouter resolved or rejected
    | WorkerDied(worker: WorkerId)
    | WorkerReplaced(i: nat, worker: WorkerId)
    | Monitored(i: nat, cpu: real)

  predicate HasRouter(routers: map<Id, RouterInfo>, room: RoomId) {
    exists id :: id in routers && routers[id].room == room
  }

  /** A worker that no table, router or waiting call knows. */
  ghost predicate Unused(s: Node, w: WorkerId) {
    && (forall i :: 0 <= i < |s.workers| ==> s.workers[i].worker != w)
    && (forall id | id in s.routers :: s.routers[id].worker != w)
    && (forall t | t in s.creating && s.creating[t].Picked? :: s.creating[t].worker != w)
  }

  ghost predicate Possible(s: Node, step: Step) {
    match step
    case BeginCreate(t, _) => t !in s.creating
    case RouterMade(t, router) => t in s.creating && s.creating[t].Picked? &&
        (router.Some? ==> router.value !in s.routers && router.value !in s.closing.Values)
    case RecordWritten(t) => t in s.creating && s.creating[t].Stored?
    case EndCreate(t) => t in s.creating && s.creating[t].Settled?
    case BeginClose(t, _) => t !in s.closing
    case EndClose(t, _) => t in s.closing
    case WorkerDied(_) => true
    case WorkerReplaced(i, w) => i < |s.workers| && Unused(s, w)
    case Monitored(i, _) => i < |s.workers|
  }

  function Next(s: Node, step: Step): Node
    requires Possible(s, step)
  {
    match step
    case BeginCreate(t, room) =>
      if HasRouter(s.routers, room) || room in s.pending then s
      else
        var w := LeastLoaded(s.workers, s.closed);
        s.(pending := s.pending + {room},
           creating := s.creating[t := if w.None? then Settled(room) else Picked(room, s.workers[w.value].worker)])
    case RouterMade(t, router) =>
      var room, w := s.creating[t].room, s.creating[t].worker;
      if router.None? then s.(creating := s.creating[t := Settled(room)])
      else s.(workers := Counted(s.workers, w, 1), routers := s.routers[router.value := RouterInfo(room, w, 0)],
              creating := s.creating[t := Stored(room)])
    case RecordWritten(t) => s.(creating := s.creating[t := Settled(s.creating[t].room)])
    case EndCreate(t) => s.(pending := s.pending - {s.creating[t].room}, creating := s.creating - {t})
    case BeginClose(t, id) =>
      if id !in s.routers then s
      else
        var info := s.routers[id];
        s.(workers := Counted(s.workers, info.worker, -1),
           routers := s.routers[id := info.(closes := info.closes + 1)], closing := s.closing[t := id])
    case EndClose(t, deleted) =>
      s.(routers := if deleted then s.routers - {s.closing[t]} else s.routers, closing := s.closing - {t})
    case WorkerDied(w) => s.(closed := s.closed + {w})
    case WorkerReplaced(i, w) => s.(workers := s.workers[i := WorkerInfo(w, 0, 0.0)])
    case Monitored(i, cpu) => s.(workers := s.workers[i := s.workers[i].(cpu := cpu)])
  }

  ghost predicate AllPossible(s: Node, steps: seq<Step>)
    decreases |steps|
  {
    steps == [] || (Possible(s, steps[0]) && AllPossible(Next(s, steps[0]), steps[1..]))
  }

  ghost function After(s: Node, steps: seq<Step>): Node
    requires AllPossible(s, steps)
    decreases |steps|
  {
    if steps == [] then s else After(Next(s, steps[0]), steps[1..])
  }

  function Start(workers: seq<WorkerInfo>): Node {
    Node(workers, {}, map[], {}, map[], map[])
  }

  // ---- one router per room --------------------------------------------------------------------------

  ghost predicate OnePerRoom(s: Node) {
    forall a, b | a in s.routers && b in s.routers && s.routers[a].room == s.routers[b].room :: a == b
  }

  /** A room under creation is marked pending, by one call only, and has no router before that call stores it. */
  ghost predicate SingleFlight(s: Node) {
    && (forall t | t in s.creating :: s.creating[t].room in s.pending)
    && (forall t, u | t in s.creating && u in s.creating && s.creating[t].room == s.creating[u].room :: t == u)
    && (forall t | t in s.creating && s.creating[t].Picked? :: !HasRouter(s.routers, s.creating[t].room))
  }

  lemma StepKeepsOnePerRoom(s: Node, step: Step)
    requires OnePerRoom(s) && SingleFlight(s) && Possible(s, step)
    ensures OnePerRoom(Next(s, step))
  {
  }

  lemma StepKeepsSingleFlight(s: Node, step: Step)
    requires SingleFlight(s) && Possible(s, step)
    ensures SingleFlight(Next(s, step))
  {
  }

  /** However creations and closes interleave and fail, the table never holds two routers for one room. */
  lemma {:induction false} OneRouterPerRoom(s: Node, steps: seq<Step>)
    requires OnePerRoom(s) && SingleFlight(s) && AllPossible(s, steps)
    ensures OnePerRoom(After(s, steps)) && SingleFlight(After(s, steps))
    decreases |steps|
  {
    if steps != [] {
      StepKeepsOnePerRoom(s, steps[0]);
      StepKeepsSingleFlight(s, steps[0]);
      OneRouterPerRoom(Next(s, steps[0]), steps[1..]);
    }
  }

  // ---- router counts -----------------------------------------------------------------------------------

  /** The routers of worker `w` whose close has not begun. */
  function OpenRouters(routers: map<Id, RouterInfo>, w: WorkerId): set<Id> {
    set id | id in routers && routers[id].worker == w && routers[id].closes == 0
  }

  ghost predicate CountsBounded(s: Node) {
    forall i :: 0 <= i < |s.workers| ==> s.workers[i].routerCount <= |OpenRouters(s.routers, s.workers[i].worker)|
  }

  ghost predicate CountsExact(s: Node) {
    forall i :: 0 <= i < |s.workers| ==> s.workers[i].routerCount == |OpenRouters(s.routers, s.workers[i].worker)|
  }

  ghost predicate Tidy(s: Node) {
    && Distinct(s.workers)
    && (forall t | t in s.closing && s.closing[t] in s.routers :: s.routers[s.closing[t]].closes > 0)
  }

  lemma OpenAfterAdd(routers: map<Id, RouterInfo>, id: Id, room: RoomId, worker: WorkerId, w: WorkerId)
    requires id !in routers
    ensures |OpenRouters(routers[id := RouterInfo(room, worker, 0)], w)| ==
            |OpenRouters(routers, w)| + if worker == w then 1 else 0
  {
    var before, after := OpenRouters(routers, w), OpenRouters(routers[id := RouterInfo(room, worker, 0)], w);
    if worker == w {
      assert after == before + {id};
    } else {
      assert after == before;
    }
  }

  lemma OpenAfterBegin(routers: map<Id, RouterInfo>, id: Id, w: WorkerId)
    requires id in routers
    ensures var info := routers[id];
            |OpenRouters(routers[id := info.(closes := info.closes + 1)], w)| ==
            |OpenRouters(routers, w)| - if info.worker == w && info.closes == 0 then 1 else 0
  {
    var info := routers[id];
    var before, after := OpenRouters(routers, w), OpenRouters(routers[id := info.(closes := info.closes + 1)], w);
    assert after == before - {id};
  }

  lemma OpenAfterDelete(routers: map<Id, RouterInfo>, id: Id, w: WorkerId)
    requires id in routers ==> routers[id].closes > 0
    ensures OpenRouters(routers - {id}, w) == OpenRouters(routers, w)
  {
  }

  lemma OpenOfNobody(routers: map<Id, RouterInfo>, w: WorkerId)
    requires forall id | id in routers :: routers[id].worker != w
    ensures OpenRouters(routers, w) == {}
  {
  }

  lemma StepKeepsTidy(s: Node, step: Step)
    requires Tidy(s) && Possible(s, step)
    ensures Tidy(Next(s, step))
  {
  }

  /** What a step does to the count and to the open routers of the worker in place `i`. */
  lemma StepCounts(s: Node, step: Step, i: nat)
    requires Tidy(s) && Possible(s, step) && i < |s.workers|
    ensures var s' := Next(s, step);
            var w := s'.workers[i].worker;
            var count', open' := s'.workers[i].routerCount as int, |OpenRouters(s'.routers, w)| as int;
            |s'.workers| == |s.workers| &&
            if step.WorkerReplaced? && step.i == i then count' == 0 && open' == 0
            else
              var count, open := s.workers[i].routerCount, |OpenRouters(s.routers, s.workers[i].worker)|;
              if step.RouterMade? && step.router.Some? && s.creating[step.t].worker == w then count' == count + 1 &&
                  open' == open + 1
              else if step.BeginClose? && step.id in s.routers && s.routers[step.id].worker == w then
                && count' == (if count == 0 then 0 else count - 1)
                && open' == open - if s.routers[step.id].closes == 0 then 1 else 0
              else count' == count && open' == open
  {
    hide Counted, OpenRouters, LeastLoaded;
    var s' := Next(s, step);
    var w := s'.workers[i].worker;
    match step
    case RouterMade(t, router) =>
      if router.Some? {
        OpenAfterAdd(s.routers, router.value, s.creating[t].room, s.creating[t].worker, w);
      }
    case BeginClose(t, id) =>
      if id in s.routers {
        OpenAfterBegin(s.routers, id, w);
      }
    case EndClose(t, _) => OpenAfterDelete(s.routers, s.closing[t], w);
    case WorkerReplaced(j, v) =>
      if i == j {
        OpenOfNobody(s.routers, v);
      }
    case _ =>
  }

  /** The close starts for the first time. */
  ghost predicate Once(s: Node, step: Step) {
    step.BeginClose? && step.id in s.routers ==> s.routers[step.id].closes == 0
  }

  lemma OpenNotEmpty(routers: map<Id, RouterInfo>, id: Id)
    requires id in routers && routers[id].closes == 0
    ensures |OpenRouters(routers, routers[id].worker)| >= 1
  {
    assert id in OpenRouters(routers, routers[id].worker);
  }

  lemma StepKeepsBounded(s: Node, step: Step)
    requires Tidy(s) && CountsBounded(s) && Possible(s, step)
    ensures CountsBounded(Next(s, step))
  {
    hide Next, OpenRouters, Possible, Tidy;
    forall i | 0 <= i < |Next(s, step).workers|
      ensures Next(s, step).workers[i].routerCount <=
              |OpenRouters(Next(s, step).routers, Next(s, step).workers[i].worker)|
    {
      SameTable(s, step);
      StepCounts(s, step, i);
      assert s.workers[i].routerCount <= |OpenRouters(s.routers, s.workers[i].worker)|;
    }
  }

  lemma SameTable(s: Node, step: Step)
    requires Possible(s, step)
    ensures |Next(s, step).workers| == |s.workers|
  {
  }

  lemma StepKeepsExact(s: Node, step: Step)
    requires Tidy(s) && CountsExact(s) && Possible(s, step) && Once(s, step)
    ensures CountsExact(Next(s, step))
  {
    hide Next, OpenRouters, Possible, Tidy;
    forall i | 0 <= i < |Next(s, step).workers|
      ensures Next(s, step).workers[i].routerCount ==
              |OpenRouters(Next(s, step).routers, Next(s, step).workers[i].worker)|
    {
      SameTable(s, step);
      StepCounts(s, step, i);
      assert s.workers[i].routerCount == |OpenRouters(s.routers, s.workers[i].worker)|;
      if step.BeginClose? && step.id in s.routers {
        OpenNotEmpty(s.routers, step.id);
      }
    }
  }

  /**
   * In a node with exact counts, a step breaks them exactly if it closes a router again while its worker still has open
   * ones.
   */
  lemma ExactUnlessAgain(s: Node, step: Step)
    requires Tidy(s) && CountsExact(s) && Possible(s, step)
    ensures CountsExact(Next(s, step)) <==>
            !(&& step.BeginClose? && step.id in s.routers && s.routers[step.id].closes > 0
              && exists i :: 0 <= i < |s.workers| && s.workers[i].worker == s.routers[step.id].worker &&
                   s.workers[i].routerCount > 0)
  {
    if Once(s, step) {
      StepKeepsExact(s, step);
    } else {
      hide Next, OpenRouters, Possible, Tidy;
      SameTable(s, step);
      forall i | 0 <= i < |s.workers|
        ensures Next(s, step).workers[i].routerCount ==
                |OpenRouters(Next(s, step).routers, Next(s, step).workers[i].worker)| <==>
                !(s.workers[i].worker == s.routers[step.id].worker && s.workers[i].routerCount > 0)
      {
        StepCounts(s, step, i);
        KeptWorker(s, step, i);
        assert s.workers[i].routerCount == |OpenRouters(s.routers, s.workers[i].worker)|;
      }
    }
  }

  lemma OneMore(s: Node, step: Step, rest: seq<Step>)
    requires Possible(s, step) && AllPossible(Next(s, step), rest)
    ensures AllPossible(s, [step] + rest) && After(s, [step] + rest) == After(Next(s, step), rest)
  {
    assert ([step] + rest)[1..] == rest;
  }

  const CLOSES: seq<Step> := [BeginClose(0, "x"), BeginClose(1, "x")]

  /** It comes to that: two rooms on one worker, and two overlapping closes of one of their routers. */
  lemma CountTooLow(w: WorkerId, cpu: real)
    ensures var s := Start([WorkerInfo(w, 0, cpu)]);
            var second := [BeginCreate(1, "b")] + ([RouterMade(1, Some("y"))] + CLOSES);
            var steps := [BeginCreate(0, "a")] + ([RouterMade(0, Some("x"))] + second);
            AllPossible(s, steps) && !CountsExact(After(s, steps))
  {
    var begin1, made1 := BeginCreate(0, "a"), RouterMade(0, Some("x"));
    var begin2, made2 := BeginCreate(1, "b"), RouterMade(1, Some("y"));
    var s0 := Start([WorkerInfo(w, 0, cpu)]);
    var s1 := Next(s0, begin1);
    var s2 := Next(s1, made1);
    var s3 := Next(s2, begin2);
    TwoCloses(Next(s3, made2), w);
    OneMore(s3, made2, CLOSES);
    OneMore(s2, begin2, [made2] + CLOSES);
    OneMore(s1, made1, [begin2] + ([made2] + CLOSES));
    OneMore(s0, begin1, [made1] + ([begin2] + ([made2] + CLOSES)));
  }

  lemma TwoCloses(s: Node, w: WorkerId)
    requires |s.workers| == 1 && s.workers[0].worker == w && s.workers[0].routerCount == 2 && s.closing == map[]
    requires "x" in s.routers && "y" in s.routers && s.routers["x"].worker == w && s.routers["y"].worker == w &&
             s.routers["y"].closes == 0
    ensures AllPossible(s, CLOSES) && !CountsExact(After(s, CLOSES))
  {
    var s1 := Next(s, BeginClose(0, "x"));
    var s2 := Next(s1, BeginClose(1, "x"));
    OneMore(s1, BeginClose(1, "x"), []);
    OneMore(s, BeginClose(0, "x"), [BeginClose(1, "x")]);
    assert CLOSES == [BeginClose(0, "x")] + ([BeginClose(1, "x")] + []);
    assert s2.workers[0].routerCount == 0 && "y" in OpenRouters(s2.routers, w);
  }

  lemma KeptWorker(s: Node, step: Step, i: nat)
    requires Possible(s, step) && i < |s.workers| && !step.WorkerReplaced?
    ensures i < |Next(s, step).workers| && Next(s, step).workers[i].worker == s.workers[i].worker
  {
  }

  ghost predicate AllOnce(s: Node, steps: seq<Step>)
    requires AllPossible(s, steps)
    decreases |steps|
  {
    steps == [] || (Once(s, steps[0]) && AllOnce(Next(s, steps[0]), steps[1..]))
  }

  /**
   * No count ever exceeds the open routers, and the counts are exact on every run that starts each close at most once.
   */
  lemma {:induction false} CountsOverRuns(s: Node, steps: seq<Step>)
    requires Tidy(s) && CountsBounded(s) && AllPossible(s, steps)
    ensures Tidy(After(s, steps)) && CountsBounded(After(s, steps))
    ensures CountsExact(s) && AllOnce(s, steps) ==> CountsExact(After(s, steps))
    decreases |steps|
  {
    if steps != [] {
      StepKeepsTidy(s, steps[0]);
      StepKeepsBounded(s, steps[0]);
      if CountsExact(s) && Once(s, steps[0]) {
        StepKeepsExact(s, steps[0]);
      }
      CountsOverRuns(Next(s, steps[0]), steps[1..]);
    }
  }

  /** A fresh node satisfies everything above. */
  lemma StartIsGood(workers: seq<WorkerInfo>)
    requires Distinct(workers) && forall i :: 0 <= i < |workers| ==> workers[i].routerCount == 0
    ensures var s := Start(workers); OnePerRoom(s) && SingleFlight(s) && Tidy(s) && CountsBounded(s) && CountsExact(s)
  {
  }

  // ---- the table, step by step ---------------------------------------------------------------------------------

  /** The router table changes when a worker answers, when a close begins and when one ends, and only then and so. */
  lemma StepTable(s: Node, step: Step)
    requires Possible(s, step)
    ensures var routers, routers' := s.routers, Next(s, step).routers;
            if step.RouterMade? && step.router.Some? then
              && step.router.value !in routers && step.router.value in routers'
              && routers' - {step.router.value} == routers
              && routers'[step.router.value] == RouterInfo(s.creating[step.t].room, s.creating[step.t].worker, 0)
            else if step.BeginClose? && step.id in routers then
              && routers'.Keys == routers.Keys && routers' - {step.id} == routers - {step.id}
              && routers'[step.id].closes == routers[step.id].closes + 1
              && routers'[step.id].room == routers[step.id].room && routers'[step.id].worker == routers[step.id].worker
            else if step.EndClose? && step.deleted then routers' == routers - {s.closing[step.t]}
            else routers' == routers
  {
  }

  /**
   * A creation starts exactly if the room has no router and none is under way; it goes to the least loaded live worker.
   */
  lemma CreationStarts(s: Node, t: nat, room: RoomId)
    requires Possible(s, BeginCreate(t, room))
    ensures var s', w := Next(s, BeginCreate(t, room)), LeastLoaded(s.workers, s.closed);
            && (t in s'.creating <==> room !in s.pending && forall id | id in s.routers :: s.routers[id].room != room)
            && (t in s'.creating ==>
                  && room in s'.pending
                  && s'.creating[t] == if w.None? then Settled(room) else Picked(room, s.workers[w.value].worker))
            && (t !in s'.creating ==> s' == s)
  {
  }

  /** The room is free for another creation exactly when the call that runs it is over. */
  lemma CreationEnds(s: Node, step: Step, room: RoomId)
    requires SingleFlight(s) && Possible(s, step) && room in s.pending
    ensures room !in Next(s, step).pending <==> step.EndCreate? && s.creating[step.t].room == room
  {
  }

  /** A call that is under way: it waits for the worker, then for Redis, then for its own end. */
  lemma StepCreating(s: Node, step: Step, t: nat)
    requires Possible(s, step) && !step.BeginCreate?
    ensures var creating, creating' := s.creating, Next(s, step).creating;
            && (t in creating' <==> t in creating && step != EndCreate(t))
            && (t in creating' ==>
                  creating'[t] ==
                  if step.RouterMade? && step.t == t && step.router.Some? then Stored(creating[t].room)
                  else if (step.RouterMade? || step.RecordWritten?) && step.t == t then Settled(creating[t].room)
                  else creating[t])
  {
  }

  /** A close is under way from its beginning, if it finds the router, to its end. */
  lemma StepClosing(s: Node, step: Step, t: nat)
    requires Possible(s, step)
    ensures var closing, closing' := s.closing, Next(s, step).closing;
            && (t in closing' <==> (step.BeginClose? && step.t == t && step.id in s.routers)
                                   || (t in closing && !(step.EndClose? && step.t == t)))
            && (t in closing' ==> closing'[t] == if step.BeginClose? && step.t == t && t !in closing then step.id
                 else closing[t])
  {
  }

  /** A worker that dies is closed for ever; a usage report changes that worker's figure and a restart that worker. */
  lemma StepPool(s: Node, step: Step, i: nat)
    requires Possible(s, step) && i < |s.workers|
    ensures var s' := Next(s, step);
            && s'.closed == (if step.WorkerDied? then s.closed + {step.worker} else s.closed)
            && |s'.workers| == |s.workers|
            && s'.workers[i].worker == (if step.WorkerReplaced? && step.i == i then step.worker
                 else s.workers[i].worker)
            && s'.workers[i].cpu == if step.WorkerReplaced? && step.i == i then 0.0
                                    else if step.Monitored? && step.i == i then step.cpu else s.workers[i].cpu
  {
  }
}

/** RouterManager and WorkerManager as objects: each method is one stretch of code between two awaits. */
module RouterService {
  import opened Options
  import opened RoomTypes
  import opened WorkerPool
  import opened SfuRouters

  class RouterManager {
    const workerManager: WorkerManager
    var routers: map<Id, RouterInfo>
    var pendingRouters: set<RoomId>
    var creating: map<nat, Creation>       // calls waiting inside createRouter
    var closing: map<nat, Id>              // calls waiting inside closeRouter

    constructor (workerManager: WorkerManager)
      ensures this.workerManager == workerManager && fresh(this)
      ensures routers == map[] && pendingRouters == {} && creating == map[] && closing == map[]
    {
      this.workerManager := workerManager;
      routers, pendingRouters, creating, closing := map[], {}, map[], map[];
    }

    ghost function State(): Node
      reads this, workerManager
    {
      Node(workerManager.workers, workerManager.closed, routers, pendingRouters, creating, closing)
    }

    method FindByRoom(room: RoomId) returns (id: Option<Id>)
      ensures id.Some? <==> HasRouter(routers, room)
      ensures id.Some? ==> id.value in routers && routers[id.value].room == room
    {
      var todo := routers.Keys;
      while todo != {}
        invariant todo <= routers.Keys
        invariant forall k | k in routers && k !in todo :: routers[k].room != room
        decreases |todo|
      {
        var k :| k in todo;
        if routers[k].room == room {
          return Some(k);
        }
        todo := todo - {k};
      }
      return None;
    }

    /** The start of createRouter; returns the router id when the room has one already. */
    method CreateRouter(t: nat, room: RoomId) returns (existing: Option<Id>)
      requires t !in creating
      modifies this`pendingRouters, this`creating
      ensures State() == Next(old(State()), BeginCreate(t, room))
      ensures existing.Some? <==> HasRouter(routers, room)
      ensures existing.Some? ==> existing.value in routers && routers[existing.value].room == room
    {
      existing := FindByRoom(room);
      if existing.Some? || room in pendingRouters {
        return;
      }
      var w := workerManager.GetLeastLoadedWorker();
      creating := creating[t := if w.None? then Settled(room) else Picked(room, workerManager.workers[w.value].worker)];
      pendingRouters := pendingRouters + {room};
    }

    method WorkerAnswered(t: nat, router: Option<Id>)
      requires Distinct(workerManager.workers) && Possible(State(), RouterMade(t, router))
      modifies this`routers, this`creating, workerManager`workers
      ensures State() == Next(old(State()), RouterMade(t, router))
    {
      var room, w := creating[t].room, creating[t].worker;
      if router.None? {
        creating := creating[t := Settled(room)];
      } else {
        routers := routers[router.value := RouterInfo(room, w, 0)];
        workerManager.IncrementRouterCount(w);
        creating := creating[t := Stored(room)];
      }
    }

    method RedisAnswered(t: nat)
      requires Possible(State(), RecordWritten(t))
      modifies this`creating
      ensures State() == Next(old(State()), RecordWritten(t))
    {
      creating := creating[t := Settled(creating[t].room)];
    }

    method FinishCreate(t: nat)
      requires Possible(State(), EndCreate(t))
      modifies this`pendingRouters, this`creating
      ensures State() == Next(old(State()), EndCreate(t))
    {
      pendingRouters := pendingRouters - {creating[t].room};
      creating := creating - {t};
    }

    method CloseRouter(t: nat, id: Id)
      requires Distinct(workerManager.workers) && Possible(State(), BeginClose(t, id))
      modifies this`routers, this`closing, workerManager`workers
      ensures State() == Next(old(State()), BeginClose(t, id))
    {
      if id in routers {
        var info := routers[id];
        routers := routers[id := info.(closes := info.closes + 1)];
        workerManager.DecrementRouterCount(info.worker);
        closing := closing[t := id];
      }
    }

    method FinishClose(t: nat, deleted: bool)
      requires Possible(State(), EndClose(t, deleted))
      modifies this`routers, this`closing
      ensures State() == Next(old(State()), EndClose(t, deleted))
    {
      if deleted {
        routers := routers - {closing[t]};
      }
      closing := closing - {t};
    }
  }

  ghost predicate Sound(s: Node) {
    OnePerRoom(s) && SingleFlight(s) && Tidy(s) && CountsBounded(s)
  }

  /** Whichever stretch runs next: one router per room, and no count too high; exact counts stay so in a first close. */
  method RunStretch(m: RouterManager, step: Step)
    requires Sound(m.State()) && Possible(m.State(), step)
    modifies m, m.workerManager
    ensures m.State() == Next(old(m.State()), step) && Sound(m.State())
    ensures old(CountsExact(m.State()) && Once(m.State(), step)) ==> CountsExact(m.State())
  {
    ghost var s := m.State();
    SoundStep(s, step);
    match step
    case BeginCreate(t, room) => var _ := m.CreateRouter(t, room);
    case RouterMade(t, router) => m.WorkerAnswered(t, router);
    case RecordWritten(t) => m.RedisAnswered(t);
    case EndCreate(t) => m.FinishCreate(t);
    case BeginClose(t, id) => m.CloseRouter(t, id);
    case EndClose(t, deleted) => m.FinishClose(t, deleted);
    case WorkerDied(w) => m.workerManager.Died(w);
    case WorkerReplaced(i, w) => m.workerManager.Replace(i, WorkerInfo(w, 0, 0.0));
    case Monitored(i, cpu) => m.workerManager.Replace(i, m.workerManager.workers[i].(cpu := cpu));
  }

  lemma SoundStep(s: Node, step: Step)
    requires Sound(s) && Possible(s, step)
    ensures Sound(Next(s, step))
    ensures CountsExact(s) && Once(s, step) ==> CountsExact(Next(s, step))
  {
    hide OnePerRoom, SingleFlight, Tidy, CountsBounded, CountsExact, Next, Possible, Once;
    StepKeepsOnePerRoom(s, step);
    StepKeepsSingleFlight(s, step);
    StepKeepsTidy(s, step);
    StepKeepsBounded(s, step);
    if CountsExact(s) && Once(s, step) {
      StepKeepsExact(s, step);
    }
  }
}

/** The SFU node's workers: which one gets the next router, and how many routers each is thought to have. */
module WorkerPool {
  import opened Options

  type WorkerId = nat

  /** `cpu` is the CPU time of the last usage report in seconds, 0 before the first. */
  datatype WorkerInfo = WorkerInfo(worker: WorkerId, routerCount: nat, cpu: real)

  function LoadScore(w: WorkerInfo): real {
    w.routerCount as real + w.cpu
  }

  /** The first of the live workers with the lowest score. */
  function LeastLoaded(workers: seq<WorkerInfo>, closed: set<WorkerId>): (r: Option<nat>)
    ensures r.Some? ==>
              && r.value < |workers| && workers[r.value].worker !in closed
              && forall j :: 0 <= j < |workers| && workers[j].worker !in closed ==>
                   var best, other := workers[r.value], workers[j];
                   && best.routerCount as real + best.cpu <= other.routerCount as real + other.cpu
                   && (j < r.value ==> best.routerCount as real + best.cpu < other.routerCount as real + other.cpu)
    ensures r.None? ==> forall j :: 0 <= j < |workers| ==> workers[j].worker in closed
  {
    if workers == [] then None
    else
      var n := |workers| - 1;
      var best := LeastLoaded(workers[..n], closed);
      if workers[n].worker in closed then best
      else if best.None? || LoadScore(workers[n]) < LoadScore(workers[best.value]) then Some(n)
      else best
  }

  ghost predicate Distinct(workers: seq<WorkerInfo>) {
    forall i, j :: 0 <= i < j < |workers| ==> workers[i].worker != workers[j].worker
  }

  /** The entry of worker `w` after its count has changed by `change`, but never below zero. */
  function Adjusted(info: WorkerInfo, w: WorkerId, change: int): WorkerInfo {
    var count := info.routerCount + change;
    if info.worker == w then info.(routerCount := if count < 0 then 0 else count) else info
  }

  function Counted(workers: seq<WorkerInfo>, w: WorkerId, change: int): (r: seq<WorkerInfo>)
    ensures |r| == |workers| && forall i :: 0 <= i < |r| ==> r[i] == Adjusted(workers[i], w, change)
  {
    seq(|workers|, i requires 0 <= i < |workers| => Adjusted(workers[i], w, change))
  }

  /** The position `k` places behind `start` on a ring of `n`. */
  function Turned(start: nat, k: nat, n: nat): (r: nat)
    requires start < n && k <= n
    ensures r < n
  {
    if start + k < n then start + k else start + k - n
  }

  function Successor(i: nat, n: nat): (r: nat)
    requires i < n
    ensures r == if i + 1 == n then 0 else i + 1
  {
    (i + 1) % n
  }

  /** The first `k` workers of the ring from `start` are dead. */
  ghost predicate AllClosed(workers: seq<WorkerInfo>, closed: set<WorkerId>, start: nat, k: nat) {
    k <= |workers| && (k > 0 ==> start < |workers|) && forall j :: 0 <= j < k ==>
        workers[Turned(start, j, |workers|)].worker in closed
  }

  /** Worker `at` is the first live one when the ring is walked from `start`; it is `k` places away. */
  ghost predicate FirstLive(workers: seq<WorkerInfo>, closed: set<WorkerId>, start: nat, k: nat, at: nat) {
    && AllClosed(workers, closed, start, k) && start < |workers| && k < |workers|
    && at == Turned(start, k, |workers|) && workers[at].worker !in closed
  }

  lemma RingCovered(workers: seq<WorkerInfo>, closed: set<WorkerId>, start: nat)
    requires AllClosed(workers, closed, start, |workers|)
    ensures forall j :: 0 <= j < |workers| ==> workers[j].worker in closed
  {
    forall j | 0 <= j < |workers|
      ensures workers[j].worker in closed
    {
      var k := if start <= j then j - start else j + |workers| - start;
      assert Turned(start, k, |workers|) == j;
    }
  }

  class WorkerManager {
    var workers: seq<WorkerInfo>
    var closed: set<WorkerId>         // the workers that have died
    var nextWorkerIndex: nat

    constructor (workers: seq<WorkerInfo>)
      ensures this.workers == workers && closed == {} && nextWorkerIndex == 0
    {
      this.workers, closed, nextWorkerIndex := workers, {}, 0;
    }

    method GetLeastLoadedWorker() returns (w: Option<nat>)
      ensures w == LeastLoaded(workers, closed)
    {
      var minLoad: Option<real> := None;
      var selectedIndex := 0;
      var i := 0;
      while i < |workers|
        invariant i <= |workers|
        invariant LeastLoaded(workers[..i], closed) == if minLoad.None? then None else Some(selectedIndex)
        invariant minLoad.Some? ==> selectedIndex < i && minLoad.value == LoadScore(workers[selectedIndex])
      {
        assert workers[..i + 1][..i] == workers[..i];
        if workers[i].worker !in closed {
          var loadScore := LoadScore(workers[i]);
          if minLoad.None? || loadScore < minLoad.value {
            minLoad := Some(loadScore);
            selectedIndex := i;
          }
        }
        i := i + 1;
      }
      assert workers[..i] == workers;
      return if minLoad.None? then None else Some(selectedIndex);
    }

    /** Round robin: the first live worker from the cursor on, around the table; the cursor moves behind it. */
    method GetNextWorker() returns (w: Option<nat>, ghost skipped: nat)
      requires workers != [] ==> nextWorkerIndex < |workers|
      modifies this`nextWorkerIndex
      ensures w.None? ==> nextWorkerIndex == old(nextWorkerIndex) && forall j :: 0 <= j < |workers| ==>
                workers[j].worker in closed
      ensures w.Some? ==> FirstLive(workers, closed, old(nextWorkerIndex), skipped, w.value)
      ensures w.Some? ==> nextWorkerIndex == Turned(old(nextWorkerIndex), skipped + 1, |workers|)
    {
      hide Successor;
      var total := |workers|;
      var i := 0;
      ghost var start := nextWorkerIndex;
      while i < total
        invariant i <= total && (total > 0 ==> nextWorkerIndex == Turned(start, i, total))
        invariant total == 0 ==> nextWorkerIndex == start
        invariant AllClosed(workers, closed, start, i)
      {
        var at := nextWorkerIndex;
        nextWorkerIndex := Successor(nextWorkerIndex, total);
        if workers[at].worker !in closed {
          return Some(at), i;
        }
        i := i + 1;
      }
      RingCovered(workers, closed, start);
      return None, 0;
    }

    method IncrementRouterCount(w: WorkerId)
      requires Distinct(workers)
      modifies this`workers
      ensures workers == Counted(old(workers), w, 1)
    {
      var i := FindWorker(w);
      if i < |workers| {
        workers := workers[i := workers[i].(routerCount := workers[i].routerCount + 1)];
      }
    }

    method DecrementRouterCount(w: WorkerId)
      requires Distinct(workers)
      modifies this`workers
      ensures workers == Counted(old(workers), w, -1)
    {
      var i := FindWorker(w);
      if i < |workers| && workers[i].routerCount > 0 {
        workers := workers[i := workers[i].(routerCount := workers[i].routerCount - 1)];
      }
    }

    method Died(w: WorkerId)
      modifies this`closed
      ensures closed == old(closed) + {w}
    {
      closed := closed + {w};
    }

    /** The restart after a death, and a usage report. */
    method Replace(i: nat, info: WorkerInfo)
      requires i < |workers|
      modifies this`workers
      ensures workers == old(workers)[i := info]
    {
      workers := workers[i := info];
    }

    method FindWorker(w: WorkerId) returns (i: nat)
      ensures i <= |workers| && (forall j :: 0 <= j < i ==> workers[j].worker != w)
      ensures i < |workers| ==> workers[i].worker == w
    {
      i := 0;
      while i < |workers| && workers[i].worker != w
        invariant i <= |workers| && forall j :: 0 <= j < i ==> workers[j].worker != w
      {
        i := i + 1;
      }
    }
  }
}

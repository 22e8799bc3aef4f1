/** How even the router counts stay although a worker is picked before the await and counted after it. */
module LoadBalance {
  import opened Options
  import opened RoomTypes
  import opened WorkerPool
  import opened SfuRouters

  predicate IsCreation(step: Step) {
    step.BeginCreate? || step.RouterMade? || step.RecordWritten? || step.EndCreate?
  }

  /** The creations that have picked a worker and wait for its router. */
  function InFlight(s: Node): set<nat> {
    set t | t in s.creating && s.creating[t].Picked?
  }

  function InFlightOn(s: Node, w: WorkerId): set<nat> {
    set t | t in s.creating && s.creating[t].Picked? && s.creating[t].worker == w
  }

  /** All workers live, with equal CPU figures. */
  ghost predicate Uniform(s: Node) {
    s.closed == {} && forall i, j :: 0 <= i < |s.workers| && 0 <= j < |s.workers| ==>
        s.workers[i].cpu == s.workers[j].cpu
  }

  /** What a worker has and is about to get exceeds no other's count by more than `k`. */
  ghost predicate Balanced(s: Node, k: nat) {
    forall i, j :: 0 <= i < |s.workers| && 0 <= j < |s.workers| ==>
      s.workers[i].routerCount + |InFlightOn(s, s.workers[i].worker)| <= s.workers[j].routerCount + k
  }

  /** Only creations run, and no more than `k` of them are in flight at any time. */
  ghost predicate CreationsOnly(s: Node, steps: seq<Step>, k: nat)
    decreases |steps|
  {
    && |InFlight(s)| <= k
    && (steps == [] || (IsCreation(steps[0]) && Possible(s, steps[0]) &&
                        CreationsOnly(Next(s, steps[0]), steps[1..], k)))
  }

  lemma Subset(a: set<nat>, b: set<nat>)
    requires a <= b
    ensures |a| <= |b|
  {
    if a != {} {
      var x :| x in a;
      Subset(a - {x}, b - {x});
    }
  }

  lemma CreationKeepsUniform(s: Node, step: Step)
    requires Uniform(s) && Distinct(s.workers) && Possible(s, step) && IsCreation(step)
    ensures Uniform(Next(s, step)) && Distinct(Next(s, step).workers) && |Next(s, step).workers| == |s.workers|
  {
  }

  /** Who picks a worker picks one with the least count. */
  lemma PickedIsLeast(s: Node, i: nat, j: nat)
    requires Uniform(s) && LeastLoaded(s.workers, s.closed) == Some(i) && j < |s.workers|
    ensures s.workers[i].routerCount <= s.workers[j].routerCount
  {
  }

  lemma BeginKeepsBalance(s: Node, step: Step, k: nat, i: nat, j: nat)
    requires Uniform(s) && Distinct(s.workers) && Balanced(s, k) && Possible(s, step) && step.BeginCreate?
    requires |InFlight(Next(s, step))| <= k && i < |s.workers| && j < |s.workers|
    ensures s.workers[i].routerCount + |InFlightOn(Next(s, step), s.workers[i].worker)| <= s.workers[j].routerCount + k
  {
    hide HasRouter, Counted, LoadScore, Unused;
    var s', w := Next(s, step), s.workers[i].worker;
    assert s.workers[i].routerCount + |InFlightOn(s, w)| <= s.workers[j].routerCount + k;
    if s' != s && s'.creating[step.t].Picked? && s'.creating[step.t].worker == w {
      Subset(InFlightOn(s', w), InFlight(s'));
      PickedIsLeast(s, i, j);
    } else {
      assert InFlightOn(s', w) == InFlightOn(s, w);
    }
  }

  lemma MadeKeepsBalance(s: Node, step: Step, k: nat, i: nat, j: nat)
    requires Distinct(s.workers) && Balanced(s, k) && Possible(s, step) && IsCreation(step) && !step.BeginCreate?
    requires i < |s.workers| && j < |s.workers|
    ensures var s' := Next(s, step);
            && |s'.workers| == |s.workers|
            && s'.workers[i].routerCount + |InFlightOn(s', s'.workers[i].worker)| <= s'.workers[j].routerCount + k
  {
    hide HasRouter, LeastLoaded, Unused;
    var s', w := Next(s, step), s.workers[i].worker;
    assert s.workers[i].routerCount + |InFlightOn(s, w)| <= s.workers[j].routerCount + k;
    if step.RouterMade? && s.creating[step.t].worker == w {
      assert InFlightOn(s', w) == InFlightOn(s, w) - {step.t} && step.t in InFlightOn(s, w);
    } else {
      assert InFlightOn(s', w) == InFlightOn(s, w);
    }
  }

  lemma CreationKeepsBalance(s: Node, step: Step, k: nat)
    requires Uniform(s) && Distinct(s.workers) && Balanced(s, k) && Possible(s, step) && IsCreation(step)
    requires |InFlight(Next(s, step))| <= k
    ensures Balanced(Next(s, step), k)
  {
    hide LeastLoaded, InFlightOn, InFlight;
    var s' := Next(s, step);
    CreationKeepsUniform(s, step);
    forall i, j | 0 <= i < |s'.workers| && 0 <= j < |s'.workers|
      ensures s'.workers[i].routerCount + |InFlightOn(s', s'.workers[i].worker)| <= s'.workers[j].routerCount + k
    {
      if step.BeginCreate? {
        BeginKeepsBalance(s, step, k, i, j);
      } else {
        MadeKeepsBalance(s, step, k, i, j);
      }
    }
  }

  lemma {:induction false} BalanceOverRuns(s: Node, steps: seq<Step>, k: nat)
    requires Uniform(s) && Distinct(s.workers) && Balanced(s, k) && CreationsOnly(s, steps, k)
    ensures AllPossible(s, steps) && Balanced(After(s, steps), k)
    decreases |steps|
  {
    if steps != [] {
      var s' := Next(s, steps[0]);
      assert CreationsOnly(s', steps[1..], k);
      CreationKeepsUniform(s, steps[0]);
      CreationKeepsBalance(s, steps[0], k);
      BalanceOverRuns(s', steps[1..], k);
    }
  }

  /**
   * With at most `k` creations in flight, two workers' counts never differ by more than `k`; run one by one, by no more
   * than 1.
   */
  lemma CountsDifferByAtMost(workers: seq<WorkerInfo>, steps: seq<Step>, k: nat, i: nat, j: nat)
    requires Uniform(Start(workers)) && Distinct(workers) && CreationsOnly(Start(workers), steps, k)
    requires forall n :: 0 <= n < |workers| ==> workers[n].routerCount == 0
    requires AllPossible(Start(workers), steps)
    requires i < |After(Start(workers), steps).workers| && j < |After(Start(workers), steps).workers|
    ensures var counts := After(Start(workers), steps).workers;
            counts[i].routerCount <= counts[j].routerCount + k && counts[j].routerCount <= counts[i].routerCount + k
  {
    assert forall w :: InFlightOn(Start(workers), w) == {};
    BalanceOverRuns(Start(workers), steps, k);
  }
}

/**
 * Who may name which transport, producer and consumer, with every `await` of a handler a point where others run.
 * A client object outlives its place in the table while one of its handlers still waits, so none is ever removed here.
 */
module Ownership {
  import opened Options
  import opened RoomTypes

  datatype Resource = Transport | Production | Consumption

  datatype Item = Item(resource: Resource, id: Id)

  /** transportIds, producerIds and consumerIds together. */
  datatype Owner = Owner(inRoom: bool, owned: set<Item>)

  /** A handler between two awaits. */
  datatype Task =
    | Requesting(c: ClientId, resource: Resource)             // the SFU has been asked for a new resource
    | Persisting(c: ClientId, resource: Resource, id: Id)     // it answered; Redis is being written
    | Closing(c: ClientId, id: Id)                            // a close-producer call is under way
    | CleaningUp(c: ClientId)                                 // inside the loops of cleanupClientRoom

  /** What went over the wire to and from the SFU, in order. */
  datatype Entry =
    | Issued(c: ClientId, resource: Resource, id: Id)
    | Called(c: ClientId, resource: Resource, id: Id)         // connect-transport, pause, resume or close-producer

  datatype State = State(clients: map<ClientId, Owner>, tasks: map<nat, Task>, log: seq<Entry>)

  datatype Step =
    | Connect(c: ClientId)
    | EnterRoom(c: ClientId)
    | Evict(c: ClientId)                                      // the user's newer socket took over
    | Request(c: ClientId, resource: Resource, t: nat)
    | Answer(t: nat, reply: Option<Id>)
    | Settle(t: nat)
    | Call(c: ClientId, resource: Resource, id: Id)           // connect-transport, pause, resume
    | CloseProducer(c: ClientId, id: Id, t: nat)
    | ProducerClosed(t: nat, ok: bool)
    | CleanUp(c: ClientId, t: nat)
    | CleanUpNext(t: nat, id: Id)                             // the loop visits whatever the live set still holds
    | CleanUpEnd(t: nat)

  predicate Sound(s: State) {
    forall t | t in s.tasks :: s.tasks[t].c in s.clients
  }

  /**
   * Steps that can happen: no handler or client out of nowhere, and the SFU never hands out an id of one kind twice.
   */
  ghost predicate Possible(s: State, step: Step) {
    match step
    case Connect(c) => c !in s.clients
    case EnterRoom(c) => c in s.clients
    case Evict(c) => c in s.clients
    case Request(c, _, t) => c in s.clients && t !in s.tasks
    case Answer(t, reply) =>
      && t in s.tasks && s.tasks[t].Requesting?
      && (reply.Some? ==> forall d :: Issued(d, s.tasks[t].resource, reply.value) !in s.log)
    case Settle(t) => t in s.tasks && s.tasks[t].Persisting?
    case Call(c, resource, id) => c in s.clients && resource != Consumption
    case CloseProducer(c, id, t) => c in s.clients && t !in s.tasks
    case ProducerClosed(t, _) => t in s.tasks && s.tasks[t].Closing?
    case CleanUp(c, t) => c in s.clients && t !in s.tasks
    case CleanUpNext(t, id) => t in s.tasks && s.tasks[t].CleaningUp?
    case CleanUpEnd(t) => t in s.tasks && s.tasks[t].CleaningUp?
  }

  function Next(s: State, step: Step): State
    requires Sound(s) && Possible(s, step)
  {
    match step
    case Connect(c) => s.(clients := s.clients[c := Owner(false, {})])
    case EnterRoom(c) => s.(clients := s.clients[c := s.clients[c].(inRoom := true)])
    case Evict(c) => s.(clients := s.clients[c := Owner(false, {})])
    case Request(c, resource, t) =>
      if s.clients[c].inRoom then s.(tasks := s.tasks[t := Requesting(c, resource)]) else s
    case Answer(t, reply) =>
      var task := s.tasks[t];
      if reply.None? then s.(tasks := s.tasks - {t})
      else s.(tasks := s.tasks[t := Persisting(task.c, task.resource, reply.value)],
              log := s.log + [Issued(task.c, task.resource, reply.value)])
    case Settle(t) =>
      var task := s.tasks[t];
      var me := s.clients[task.c];
      State(s.clients[task.c := me.(owned := me.owned + {Item(task.resource, task.id)})], s.tasks - {t}, s.log)
    case Call(c, resource, id) =>
      if s.clients[c].inRoom && Item(resource, id) in s.clients[c].owned
      then s.(log := s.log + [Called(c, resource, id)]) else s
    case CloseProducer(c, id, t) =>
      if s.clients[c].inRoom && Item(Production, id) in s.clients[c].owned
      then s.(tasks := s.tasks[t := Closing(c, id)], log := s.log + [Called(c, Production, id)])
      else s
    case ProducerClosed(t, ok) =>
      var task := s.tasks[t];
      var me := s.clients[task.c];
      State(if ok then s.clients[task.c := me.(owned := me.owned - {Item(Production, task.id)})] else s.clients,
            s.tasks - {t}, s.log)
    case CleanUp(c, t) =>
      if s.clients[c].inRoom then s.(tasks := s.tasks[t := CleaningUp(c)]) else s
    case CleanUpNext(t, id) =>
      if Item(Production, id) in s.clients[s.tasks[t].c].owned
      then s.(log := s.log + [Called(s.tasks[t].c, Production, id)]) else s
    case CleanUpEnd(t) =>
      State(s.clients[s.tasks[t].c := Owner(false, {})], s.tasks - {t}, s.log)
  }

  ghost predicate AllPossible(s: State, steps: seq<Step>)
    decreases |steps|
  {
    steps == [] || (Sound(s) && Possible(s, steps[0]) && AllPossible(Next(s, steps[0]), steps[1..]))
  }

  ghost function After(s: State, steps: seq<Step>): State
    requires AllPossible(s, steps)
    decreases |steps|
  {
    if steps == [] then s else After(Next(s, steps[0]), steps[1..])
  }

  const START := State(map[], map[], [])

  // ---- the invariant ------------------------------------------------------------------------------

  /** Whatever a client owns, or is about to own, was issued to it. */
  ghost predicate OwnedIssued(s: State) {
    && (forall c, k | c in s.clients && k in s.clients[c].owned :: Issued(c, k.resource, k.id) in s.log)
    && (forall t | t in s.tasks && s.tasks[t].Persisting? ::
         Issued(s.tasks[t].c, s.tasks[t].resource, s.tasks[t].id) in s.log)
  }

  ghost predicate IssuedOnce(log: seq<Entry>) {
    forall c, d, resource, id | Issued(c, resource, id) in log && Issued(d, resource, id) in log :: c == d
  }

  /** Every call names an id that the SFU returned to the caller before the call. */
  ghost predicate CallsIssued(log: seq<Entry>) {
    forall i | 0 <= i < |log| && log[i].Called? :: Issued(log[i].c, log[i].resource, log[i].id) in log[..i]
  }

  ghost predicate Inv(s: State) {
    Sound(s) && OwnedIssued(s) && IssuedOnce(s.log) && CallsIssued(s.log)
  }

  lemma CallLogged(log: seq<Entry>, c: ClientId, resource: Resource, id: Id)
    requires CallsIssued(log) && IssuedOnce(log) && Issued(c, resource, id) in log
    ensures CallsIssued(log + [Called(c, resource, id)]) && IssuedOnce(log + [Called(c, resource, id)])
  {
    PrefixesStay(log, Called(c, resource, id));
  }

  lemma IssueLogged(log: seq<Entry>, c: ClientId, resource: Resource, id: Id)
    requires CallsIssued(log) && IssuedOnce(log) && forall d :: Issued(d, resource, id) !in log
    ensures CallsIssued(log + [Issued(c, resource, id)]) && IssuedOnce(log + [Issued(c, resource, id)])
  {
    PrefixesStay(log, Issued(c, resource, id));
  }

  lemma PrefixesStay(log: seq<Entry>, e: Entry)
    ensures forall i | 0 <= i <= |log| :: (log + [e])[..i] == log[..i]
  {
  }

  lemma StepKeeps(s: State, step: Step)
    requires Inv(s) && Possible(s, step)
    ensures Inv(Next(s, step))
  {
    match step
    case Answer(t, reply) =>
      if reply.Some? {
        IssueLogged(s.log, s.tasks[t].c, s.tasks[t].resource, reply.value);
      }
    case Call(c, resource, id) =>
      if s.clients[c].inRoom && Item(resource, id) in s.clients[c].owned {
        CallLogged(s.log, c, resource, id);
      }
    case CloseProducer(c, id, t) =>
      if s.clients[c].inRoom && Item(Production, id) in s.clients[c].owned {
        CallLogged(s.log, c, Production, id);
      }
    case CleanUpNext(t, id) =>
      if Item(Production, id) in s.clients[s.tasks[t].c].owned {
        CallLogged(s.log, s.tasks[t].c, Production, id);
      }
    case _ =>
  }

  lemma {:induction false} InvOverRuns(s: State, steps: seq<Step>)
    requires Inv(s) && AllPossible(s, steps)
    ensures Inv(After(s, steps))
    decreases |steps|
  {
    if steps != [] {
      StepKeeps(s, steps[0]);
      InvOverRuns(Next(s, steps[0]), steps[1..]);
    }
  }

  /** However handlers interleave: no two clients own the same id, and no client ever names another client's id. */
  lemma OwnershipOverRuns(steps: seq<Step>)
    requires AllPossible(START, steps)
    ensures var s := After(START, steps);
            && (forall c, d | c in s.clients && d in s.clients && c != d :: s.clients[c].owned !! s.clients[d].owned)
            && (forall i | 0 <= i < |s.log| && s.log[i].Called? ::
                  && Issued(s.log[i].c, s.log[i].resource, s.log[i].id) in s.log[..i]
                  && forall d | Issued(d, s.log[i].resource, s.log[i].id) in s.log :: d == s.log[i].c)
  {
    InvOverRuns(START, steps);
    var s := After(START, steps);
    forall c, d, k | c in s.clients && d in s.clients && k in s.clients[c].owned && k in s.clients[d].owned
      ensures c == d
    {
      assert Issued(c, k.resource, k.id) in s.log && Issued(d, k.resource, k.id) in s.log;
    }
    forall i, d | 0 <= i < |s.log| && s.log[i].Called? && Issued(d, s.log[i].resource, s.log[i].id) in s.log
      ensures d == s.log[i].c
    {
      assert Issued(s.log[i].c, s.log[i].resource, s.log[i].id) in s.log[..i];
    }
  }

  // ---- who owns and calls what, step by step -------------------------------------------------------------------

  /** The step in which a client comes to own an item: its own request has been answered and written down. */
  predicate Gains(s: State, step: Step, c: ClientId, k: Item)
    requires Possible(s, step)
  {
    step.Settle? && s.tasks[step.t] == Persisting(c, k.resource, k.id)
  }

  /** It loses it when it is evicted or cleaned up, or when its own close of the producer succeeds. */
  predicate Loses(s: State, step: Step, c: ClientId, k: Item)
    requires Possible(s, step)
  {
    || step == Evict(c)
    || (step.CleanUpEnd? && s.tasks[step.t].c == c)
    || (step.ProducerClosed? && step.ok && s.tasks[step.t].c == c && k == Item(Production, s.tasks[step.t].id))
  }

  predicate Holds(s: State, c: ClientId, k: Item) {
    c in s.clients && k in s.clients[c].owned
  }

  lemma StepHolds(s: State, step: Step, c: ClientId, k: Item)
    requires Sound(s) && Possible(s, step)
    ensures Holds(Next(s, step), c, k) <==> (Holds(s, c, k) && !Loses(s, step, c, k)) || Gains(s, step, c, k)
  {
  }

  ghost predicate NeverLoses(s: State, steps: seq<Step>, c: ClientId, k: Item)
    requires AllPossible(s, steps)
    decreases |steps|
  {
    steps == [] || (!Loses(s, steps[0], c, k) && NeverLoses(Next(s, steps[0]), steps[1..], c, k))
  }

  ghost predicate GainsForGood(s: State, steps: seq<Step>, c: ClientId, k: Item)
    requires AllPossible(s, steps)
    decreases |steps|
  {
    steps != [] &&
    ((Gains(s, steps[0], c, k) && NeverLoses(Next(s, steps[0]), steps[1..], c, k))
     || GainsForGood(Next(s, steps[0]), steps[1..], c, k))
  }

  /** After any run a client owns exactly what it owned or gained and did not lose since. */
  lemma {:induction false} HeldExactly(s: State, steps: seq<Step>, c: ClientId, k: Item)
    requires AllPossible(s, steps)
    ensures Holds(After(s, steps), c, k) <==>
              (Holds(s, c, k) && NeverLoses(s, steps, c, k)) || GainsForGood(s, steps, c, k)
    decreases |steps|
  {
    hide Next;
    if steps != [] {
      StepHolds(s, steps[0], c, k);
      GainsOrLoses(s, steps[0], c, k);
      HeldExactly(Next(s, steps[0]), steps[1..], c, k);
    }
  }

  lemma GainsOrLoses(s: State, step: Step, c: ClientId, k: Item)
    requires Possible(s, step)
    ensures !(Gains(s, step, c, k) && Loses(s, step, c, k))
  {
  }

  /** The client that a step makes name an item to the SFU, and the item. */
  predicate Names(s: State, step: Step, c: ClientId, k: Item)
    requires Possible(s, step)
  {
    match step
    case Call(d, resource, id) => d == c && k == Item(resource, id) && s.clients[c].inRoom
    case CloseProducer(d, id, _) => d == c && k == Item(Production, id) && s.clients[c].inRoom
    case CleanUpNext(t, id) => s.tasks[t].c == c && k == Item(Production, id)
    case _ => false
  }

  /**
   * A call goes to the SFU exactly if the client it is made for owns what it names; no step makes more than one entry.
   */
  lemma CalledExactly(s: State, step: Step, c: ClientId, k: Item)
    requires Sound(s) && Possible(s, step)
    ensures var log, log' := s.log, Next(s, step).log;
            && |log| <= |log'| <= |log| + 1 && log'[..|log|] == log
            && (|log'| > |log| && log'[|log|] == Called(c, k.resource, k.id) <==>
                 Names(s, step, c, k) && Holds(s, c, k))
            && (|log'| > |log| && log'[|log|] == Issued(c, k.resource, k.id) <==>
                  step.Answer? && step.reply == Some(k.id) && s.tasks[step.t] == Requesting(c, k.resource))
  {
  }

  predicate IsIn(s: State, c: ClientId) {
    c in s.clients && s.clients[c].inRoom
  }

  /** A client is in a room from entering it until it is evicted or its clean-up ends. */
  lemma StepIsIn(s: State, step: Step, c: ClientId)
    requires Sound(s) && Possible(s, step)
    ensures IsIn(Next(s, step), c) <==>
              step == EnterRoom(c) || (IsIn(s, c) && step != Evict(c) && !(step.CleanUpEnd? && s.tasks[step.t].c == c))
  {
  }

  /** The handler that a step starts or continues under number `t`, if it goes on to an await. */
  function Awaits(s: State, step: Step, t: nat): Option<Task>
    requires Possible(s, step)
  {
    match step
    case Request(c, resource, u) => if u == t && IsIn(s, c) then Some(Requesting(c, resource)) else None
    case Answer(u, reply) =>
      if u == t && reply.Some? then Some(Persisting(s.tasks[t].c, s.tasks[t].resource, reply.value)) else None
    case CloseProducer(c, id, u) =>
      if u == t && IsIn(s, c) && Holds(s, c, Item(Production, id)) then Some(Closing(c, id)) else None
    case CleanUp(c, u) => if u == t && IsIn(s, c) then Some(CleaningUp(c)) else None
    case _ => None
  }

  /** The step continues the handler to its end. */
  predicate Returns(step: Step, t: nat) {
    match step
    case Answer(u, reply) => u == t && reply.None?
    case Settle(u) => u == t
    case ProducerClosed(u, _) => u == t
    case CleanUpEnd(u) => u == t
    case _ => false
  }

  /** Only a client in a room can ask for a resource or clean up, and it closes only what it owns. */
  lemma StepTasks(s: State, step: Step, t: nat)
    requires Sound(s) && Possible(s, step)
    ensures var tasks, tasks' := s.tasks, Next(s, step).tasks;
            && (t in tasks' <==> Awaits(s, step, t).Some? || (t in tasks && !Returns(step, t)))
            && (t in tasks' ==> tasks'[t] == if Awaits(s, step, t).Some? then Awaits(s, step, t).value else tasks[t])
  {
  }
}

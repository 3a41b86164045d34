/**
  A running job and everything around it.  Between any two broker or journal calls of a scheduled
  job the broker, order placement and the other jobs may act (`Interfere`).  Each job is one history
  of the protocol, so that every theorem about histories holds at each of its steps.
*/
module Desks {
  import opened Foundations
  import opened OrderProtocol
  import opened OrderSafety
  import opened OrderTheorems

  /** The job that is running: a lifecycle poll, the killzone cleanup `j`, or the placement of order `t`. */
  datatype Job = Lifecycle | Killzone(j: nat) | Placing(t: Ticket)

  predicate Own(job: Job, e: Event) {
    match job
    case Lifecycle => ActorOf(e).LifecyclePoll? || ActorOf(e).LifecycleHandler?
    case Killzone(j) => ActorOf(e).Cleanup? && e.j == j
    case Placing(t) => ActorOf(e).Placement? && e.t == t
  }

  /** What may happen meanwhile: anything but the job's own steps, a crash, or a second startup. */
  predicate Foreign(job: Job, e: Event) {
    !Own(job, e) && !ActorOf(e).Recovery?
  }

  /** The job's own steps within a history. */
  function OwnEvents(job: Job, es: seq<Event>): seq<Event>
    decreases |es|
  {
    if es == [] then []
    else OwnEvents(job, es[..|es| - 1]) + (if Own(job, es[|es| - 1]) then [es[|es| - 1]] else [])
  }

  lemma OwnEventsStep(job: Job, es: seq<Event>, e: Event)
    ensures OwnEvents(job, es + [e]) == OwnEvents(job, es) + (if Own(job, e) then [e] else [])
  {
    assert (es + [e])[..|es + [e]| - 1] == es;
  }

  /** An exit deal of `t` is on record at the broker. */
  predicate HasExit(s: State, t: Ticket) { t in s.broker && s.broker[t].closed > 0.0 }

  predicate JournaledCancelled(s: State, t: Ticket) { t in s.journal && s.journal[t].status.Cancelled? }

  /** The broker's orders and the journal's rows under a ticket. */
  predicate SameOrder(t: Ticket, s: State, s': State) {
    && (t in s'.broker <==> t in s.broker) && (t in s'.placing <==> t in s.placing)
        && (t in s'.journal <==> t in s.journal)
    && (t in s.broker ==> s'.broker[t].placed == s.broker[t].placed)
  }

  /** What others cannot change about the job. */
  predicate SameJob(job: Job, s: State, s': State) {
    && s'.mode == s.mode
    && (job.Lifecycle? ==> s'.life == s.life)
    && (job.Killzone? ==>
        (job.j in s.cleaners <==> job.j in s'.cleaners)
        && (job.j in s.cleaners ==> s'.cleaners[job.j] == s.cleaners[job.j]))
    && (job.Placing? ==> SameOrder(job.t, s, s'))
  }

  // ---- what one step of each actor leaves alone -----------------------------------------------------

  /** The limit order left the broker's pending list. */
  predicate NotWorking(s: State, t: Ticket) { t in s.broker && !s.broker[t].phase.Working? }

  /** No order disappears, none returns to the pending list, no closed volume is taken back. */
  ghost predicate Advances(s: State, s': State) {
    forall t :: t in s.broker ==>
      && t in s'.broker && s'.broker[t].placed == s.broker[t].placed && s'.broker[t].closed >= s.broker[t].closed
      && (NotWorking(s, t) ==> NotWorking(s', t))
  }

  ghost predicate SameKeys(s: State, s': State) {
    s'.broker.Keys == s.broker.Keys && s'.journal.Keys == s.journal.Keys && s'.placing == s.placing
  }

  lemma BrokerLeaves(s: State, e: Event, s': State)
    requires s' == BrokerStep(s, e)
    ensures Advances(s, s') && SameKeys(s, s') && s'.mode == s.mode && s'.life == s.life && s'.cleaners == s.cleaners
  {
  }

  lemma PlacementLeaves(s: State, e: Event, s': State)
    requires s' == PlaceStep(s, e) && ActorOf(e).Placement?
    ensures Advances(s, s') && s'.mode == s.mode && s'.life == s.life && s'.cleaners == s.cleaners
    ensures forall t :: t != e.t ==> SameOrder(t, s, s')
  {
  }

  lemma PollLeaves(c: Config, s: State, e: Event, s': State)
    requires s' == LifeBegin(c, s, e)
    ensures Advances(s, s') && SameKeys(s, s') && s'.mode == s.mode && s'.cleaners == s.cleaners
  {
  }

  lemma HandlerLeaves(c: Config, s: State, e: Event, s': State)
    requires s.life.Running? && s.life.todo != [] && s' == LifeHandle(c, s, e)
    ensures SameKeys(s, s') && s'.mode == s.mode && s'.cleaners == s.cleaners
  {
  }

  lemma HandlerAdvances(c: Config, s: State, e: Event, s': State)
    requires s.life.Running? && s.life.todo != [] && s' == LifeHandle(c, s, e)
    ensures Advances(s, s')
  {
  }

  lemma CleanupLeaves(s: State, e: Event, s': State)
    requires s' == CleanStep(s, e) && ActorOf(e).Cleanup?
    ensures Advances(s, s') && SameKeys(s, s') && s'.mode == s.mode && s'.life == s.life
    ensures forall j ::
              j != e.j ==>
              (j in s'.cleaners <==> j in s.cleaners) && (j in s.cleaners ==> s'.cleaners[j] == s.cleaners[j])
  {
  }

  lemma StepForeign(c: Config, job: Job, s: State, e: Event, s': State)
    requires s' == Step(c, s, e) && !ActorOf(e).Recovery?
    ensures Advances(s, s') && (!Own(job, e) ==> SameJob(job, s, s'))
  {
    match ActorOf(e)
    case TheBroker => BrokerLeaves(s, e, s');
    case Placement => PlacementLeaves(s, e, s');
    case LifecyclePoll => PollLeaves(c, s, e, s');
    case LifecycleHandler =>
      if s.life.Running? && s.life.todo != [] {
        HandlerLeaves(c, s, e, s');
        HandlerAdvances(c, s, e, s');
      }
    case Cleanup => CleanupLeaves(s, e, s');
  }

  lemma StepKeepsCancelled(c: Config, s: State, e: Event, s': State)
    requires Inv(c, s) && s' == Step(c, s, e)
    ensures Inv(c, s') && forall t :: JournaledCancelled(s, t) ==> JournaledCancelled(s', t)
  {
    StepKeeps(c, s, e, s');
  }

  lemma ReachableExtends(c: Config, s: State, es: seq<Event>)
    requires Reachable(c, s)
    ensures Reachable(c, Run(c, s, es))
  {
    var fs :| s == Run(c, INITIAL, fs);
    RunAppend(c, INITIAL, fs, es);
  }

  /** What survives any steps of others. */
  ghost predicate Onward(c: Config, s: State, s': State) {
    && Advances(s, s')
    && (Inv(c, s) ==> Inv(c, s') && forall t :: JournaledCancelled(s, t) ==> JournaledCancelled(s', t))
  }

  lemma StepOnward(c: Config, job: Job, s: State, e: Event, s': State)
    requires !ActorOf(e).Recovery? && s' == Step(c, s, e)
    ensures Onward(c, s, s') && (!Own(job, e) ==> SameJob(job, s, s'))
  {
    StepForeign(c, job, s, e, s');
    if Inv(c, s) {
      StepKeepsCancelled(c, s, e, s');
    }
  }

  lemma OnwardTrans(c: Config, s: State, s': State, s'': State)
    requires Onward(c, s, s') && Onward(c, s', s'')
    ensures Onward(c, s, s'')
  {
  }

  // ---- rows a poll is done with -----------------------------------------------------------------------

  /** The row left `pending` and the poll in flight, if any, will not come back to it. */
  ghost predicate Stands(s: State, t: Ticket) {
    && t in s.journal && !s.journal[t].status.Pending? && !s.life.Snapped?
    && (s.life.Running? ==> forall i :: 0 <= i < |s.life.todo| ==> s.life.todo[i].ticket != t)
  }

  ghost predicate RowsStand(s: State, s': State) {
    forall t :: Stands(s, t) ==> Stands(s', t) && s'.journal[t] == s.journal[t]
  }

  /** The broker moves on, and rows that stand keep their status. */
  ghost predicate Settles(c: Config, s: State, s': State) {
    Advances(s, s') && (Inv(c, s) ==> Inv(c, s') && RowsStand(s, s'))
  }

  lemma HandlerSettles(c: Config, s: State, e: Event, s': State)
    requires s.life.Running? && s.life.todo != [] && s' == LifeHandle(c, s, e)
    ensures forall t :: Stands(s, t) ==> Stands(s', t) && s'.journal[t] == s.journal[t]
  {
  }

  lemma CleanupSettles(c: Config, s: State, e: Event, s': State)
    requires Inv(c, s) && s' == CleanStep(s, e)
    ensures forall t :: Stands(s, t) ==> Stands(s', t) && s'.journal[t] == s.journal[t]
  {
  }

  lemma OthersSettle(c: Config, s: State, e: Event, s': State)
    requires s' == BrokerStep(s, e) || s' == PlaceStep(s, e) || (s' == LifeBegin(c, s, e) && !e.LifeSnapshot?)
    ensures forall t :: Stands(s, t) ==> Stands(s', t) && s'.journal[t] == s.journal[t]
  {
  }

  /** Only a new poll, or a restart, can touch a row that stands. */
  lemma StepSettles(c: Config, s: State, e: Event, s': State)
    requires s' == Step(c, s, e) && !ActorOf(e).Recovery? && !e.LifeSnapshot?
    ensures Settles(c, s, s')
  {
    StepForeign(c, Job.Lifecycle, s, e, s');
    if Inv(c, s) {
      StepKeeps(c, s, e, s');
      match ActorOf(e)
      case LifecycleHandler =>
        if s.life.Running? && s.life.todo != [] {
          HandlerSettles(c, s, e, s');
        }
      case Cleanup => CleanupSettles(c, s, e, s');
      case _ => OthersSettle(c, s, e, s');
    }
  }

  lemma SettlesTrans(c: Config, s: State, s': State, s'': State)
    requires Settles(c, s, s') && Settles(c, s', s'')
    ensures Settles(c, s, s'')
  {
  }

  /** The tickets in some order, each once. */
  method Enumerate(tickets: set<Ticket>) returns (order: seq<Ticket>)
    ensures forall i, j :: 0 <= i < j < |order| ==> order[i] != order[j]
    ensures forall t :: t in order <==> t in tickets
  {
    var todo := tickets;
    order := [];
    while todo != {}
      invariant todo <= tickets
      invariant forall i, j :: 0 <= i < j < |order| ==> order[i] != order[j]
      invariant forall t :: t in order <==> t in tickets - todo
      decreases todo
    {
      assert (forall t: int :: t !in todo) ==> todo == {};
      var t :| t in todo;
      assert t !in order;
      order := order + [t];
      todo := todo - {t};
    }
  }

  class Desk {
    const c: Config
    /** The broker, the journal and every job in flight. */
    var s: State
    /** Where this job started, and the events since then. */
    ghost var start: State
    ghost var trace: seq<Event>

    ghost predicate Valid()
      reads this
    {
      s == Run(c, start, trace)
    }

    constructor (c: Config, s: State)
      ensures Valid() && this.c == c && this.s == s && start == s && trace == []
    {
      this.c, this.s, this.start, this.trace := c, s, s, [];
    }

    /** One atomic broker or journal step. */
    method Do(e: Event)
      requires Valid()
      modifies this
      ensures Valid() && s == Step(c, old(s), e) && start == old(start) && trace == old(trace) + [e]
    {
      s := Step(c, s, e);
      trace := trace + [e];
      assert trace[..|trace| - 1] == old(trace);
    }

    /** A step of the job itself. */
    method Act(job: Job, e: Event)
      requires Valid() && Own(job, e)
      modifies this
      ensures Valid() && s == Step(c, old(s), e) && start == old(start)
      ensures OwnEvents(job, trace) == old(OwnEvents(job, trace)) + [e]
    {
      OwnEventsStep(job, trace, e);
      Do(e);
    }

    /** The other jobs and the broker take any steps they like. */
    method Interfere(job: Job)
      requires Valid()
      modifies this
      ensures Valid() && start == old(start) && OwnEvents(job, trace) == old(OwnEvents(job, trace))
      ensures SameJob(job, old(s), s) && Onward(c, old(s), s)
      ensures job.Lifecycle? ==> Settles(c, old(s), s)
    {
      var others: seq<Event> := *;
      for i := 0 to |others|
        invariant Valid() && start == old(start) && OwnEvents(job, trace) == old(OwnEvents(job, trace))
        invariant SameJob(job, old(s), s) && Onward(c, old(s), s)
        invariant job.Lifecycle? ==> Settles(c, old(s), s)
      {
        if Foreign(job, others[i]) {
          OwnEventsStep(job, trace, others[i]);
          ghost var before := s;
          Do(others[i]);
          StepOnward(c, job, before, others[i], s);
          OnwardTrans(c, old(s), before, s);
          if job.Lifecycle? {
            StepSettles(c, before, others[i], s);
            SettlesTrans(c, old(s), before, s);
          }
        }
      }
    }
  }
}

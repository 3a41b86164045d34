/** Exactly when startup reconciliation gives up an order that is still live. */
module GivenUp {
  import opened OrderProtocol
  import opened OrderSafety
  import opened OrderTheorems

  /**
    One startup, from its position read to the row it handles next: which of its reads fail, and what
    happens, by whomever, between the two reads and after them.
  */
  datatype Startup = Startup(before: State, positionsFail: bool, orphans: seq<Ticket>, between: seq<Event>,
                             pendingFails: bool, rows: seq<Ticket>, after: seq<Event>) {
    function Snapped(c: Config): State { Step(c, before, RecSnapshot(positionsFail, orphans)) }

    function AtPending(c: Config): State { Run(c, Snapped(c), between) }

    function Listed(c: Config): State { Step(c, AtPending(c), RecRead(pendingFails, rows)) }

    function Now(c: Config): State { Run(c, Listed(c), after) }
  }

  ghost predicate NoCrash(es: seq<Event>) {
    forall i :: 0 <= i < |es| ==> !es[i].Crash?
  }

  ghost predicate Begun(c: Config, u: Startup) {
    && Reachable(c, u.before) && u.before.mode.Booting? && u.Snapped(c).mode.Orphans?
    && NoCrash(u.between) && u.AtPending(c).mode.Orphans?
  }

  ghost predicate Underway(c: Config, u: Startup) {
    Begun(c, u) && u.Listed(c).mode.Rows? && NoCrash(u.after) && u.Now(c).mode.Rows?
  }

  // ---- what a startup keeps -----------------------------------------------------------------------------

  /** Where a startup that is past its position read can get without a crash. */
  ghost predicate Follows(m: Mode, m': Mode) {
    match m
    case Booting => false
    case Orphans(positions, _) => m'.Up? || m'.Rows? || (m'.Orphans? && m'.positions == positions)
    case Rows(positions, working, rows) =>
      || m'.Up?
      || (m'.Rows? && m'.positions == positions && m'.working == working && forall p :: p in m'.rows ==> p in rows)
    case Up => m'.Up?
  }

  /** The same orders at the broker, and before the rows are handled the same journal. */
  ghost predicate SameOrders(s: State, s': State) {
    && (!s'.mode.Up? ==> s'.broker.Keys == s.broker.Keys)
    && (s'.mode.Orphans? ==> s'.journal == s.journal)
  }

  lemma RecoveryFollows(c: Config, s: State, e: Event)
    requires !e.Crash? && !s.mode.Booting?
    ensures var s' := RecoveryStep(c, s, e); Follows(s.mode, s'.mode) && SameOrders(s, s')
  {
  }

  lemma LifeKeepsMode(c: Config, s: State, e: Event)
    requires s.life.Running? && s.life.todo != []
    ensures LifeHandle(c, s, e).mode == s.mode
  {
  }

  lemma OthersKeepMode(c: Config, s: State, e: Event)
    ensures BrokerStep(s, e).mode == PlaceStep(s, e).mode == LifeBegin(c, s, e).mode == CleanStep(s, e).mode == s.mode
  {
  }

  /** During startup no other job is running, so only the broker moves. */
  lemma StartupIsAlone(c: Config, s: State, e: Event)
    requires Inv(c, s) && !s.mode.Up? && !ActorOf(e).Recovery? && !ActorOf(e).TheBroker?
    ensures Step(c, s, e) == s
  {
    assert s.life.Idle? && s.cleaners == map[] && s.placing == {};
  }

  lemma OthersFollow(c: Config, s: State, e: Event)
    requires Inv(c, s) && !ActorOf(e).Recovery? && !s.mode.Booting?
    ensures var s' := Step(c, s, e); s'.mode == s.mode && SameOrders(s, s')
  {
    OthersKeepMode(c, s, e);
    if s.mode.Up? {
      if s.life.Running? && s.life.todo != [] {
        LifeKeepsMode(c, s, e);
      }
    } else if !ActorOf(e).TheBroker? {
      StartupIsAlone(c, s, e);
    }
  }

  lemma {:induction false} RunFollows(c: Config, s: State, es: seq<Event>)
    requires Inv(c, s) && !s.mode.Booting? && NoCrash(es)
    ensures var s' := Run(c, s, es); Follows(s.mode, s'.mode) && SameOrders(s, s')
    decreases |es|
  {
    if es != [] {
      var mid, e := Run(c, s, es[..|es| - 1]), es[|es| - 1];
      RunFollows(c, s, es[..|es| - 1]);
      RunKeepsInv(c, s, es[..|es| - 1]);
      if ActorOf(e).Recovery? {
        RecoveryFollows(c, mid, e);
      } else {
        OthersFollow(c, mid, e);
      }
    }
  }

  // ---- what the reads saw ---------------------------------------------------------------------------------

  lemma FirstRead(c: Config, s: State, failed: bool, order: seq<Ticket>, s': State)
    requires s.mode.Booting? && s' == Step(c, s, RecSnapshot(failed, order)) && s'.mode.Orphans?
    ensures s'.mode.positions == (if failed then map[] else OpenPositions(s.broker))
    ensures s'.broker == s.broker && s'.journal == s.journal
  {
  }

  lemma SecondRead(c: Config, s: State, failed: bool, order: seq<Ticket>, s': State)
    requires s.mode.Orphans? && s' == Step(c, s, RecRead(failed, order)) && s'.mode.Rows?
    ensures s'.mode.positions == s.mode.positions && s'.broker == s.broker
    ensures s'.mode.working == (if failed then {} else WorkingOrders(s.broker))
    ensures forall p :: p in s'.mode.rows ==> p.ticket in s.journal && p.row == s.journal[p.ticket]
  {
  }

  lemma StartupInv(c: Config, u: Startup)
    requires Underway(c, u)
    ensures Inv(c, u.before) && Inv(c, u.Snapped(c)) && Inv(c, u.Listed(c)) && Inv(c, u.Now(c))
  {
    ReachableInv(c, u.before);
    StepKeeps(c, u.before, RecSnapshot(u.positionsFail, u.orphans), u.Snapped(c));
    RunKeepsInv(c, u.Snapped(c), u.between);
    StepKeeps(c, u.AtPending(c), RecRead(u.pendingFails, u.rows), u.Listed(c));
    RunKeepsInv(c, u.Listed(c), u.after);
  }

  /** What recovery works with in state `s`, in terms of the states `a` and `b` of its two reads. */
  ghost predicate Sees(a: State, positionsFail: bool, b: State, pendingFails: bool, s: State) {
    && s.mode.Rows?
    && s.mode.positions == (if positionsFail then map[] else OpenPositions(a.broker))
    && s.mode.working == (if pendingFails then {} else WorkingOrders(b.broker))
    && (forall p :: p in s.mode.rows ==> p.ticket in a.journal && p.row == a.journal[p.ticket])
    && s.broker.Keys == b.broker.Keys == a.broker.Keys
    && BrokerForward(a.broker, b.broker) && BrokerForward(b.broker, s.broker)
  }

  lemma StartupSees(c: Config, u: Startup)
    requires Underway(c, u)
    ensures Sees(u.before, u.positionsFail, u.AtPending(c), u.pendingFails, u.Now(c))
  {
    StartupInv(c, u);
    SeesBy(c, u.before, u.positionsFail, u.orphans, u.Snapped(c), u.between, u.AtPending(c), u.pendingFails, u.rows,
           u.Listed(c), u.after, u.Now(c));
  }

  lemma SeesBy(c: Config, a: State, positionsFail: bool, orphans: seq<Ticket>, a': State, between: seq<Event>, b: State,
               pendingFails: bool, rows: seq<Ticket>, b': State, after: seq<Event>, s: State)
    requires a.mode.Booting? && a' == Step(c, a, RecSnapshot(positionsFail, orphans)) && a'.mode.Orphans?
    requires Inv(c, a') && NoCrash(between) && b == Run(c, a', between) && b.mode.Orphans?
    requires b' == Step(c, b, RecRead(pendingFails, rows)) && b'.mode.Rows?
    requires Inv(c, b') && NoCrash(after) && s == Run(c, b', after) && s.mode.Rows?
    ensures Sees(a, positionsFail, b, pendingFails, s)
  {
    FirstRead(c, a, positionsFail, orphans, a');
    SecondRead(c, b, pendingFails, rows, b');
    RunFollows(c, a', between);
    RunForward(c, a', between);
    RunFollows(c, b', after);
    RunForward(c, b', after);
  }

  // ---- the rows given up -----------------------------------------------------------------------------------

  /** The order can still trade. */
  predicate Live(b: BrokerOrder) { b.phase.Working? || b.phase.Open? }

  /** The next row is given up, if the write succeeds. */
  ghost predicate GivesUp(c: Config, s: State, history: bool)
    requires s.mode.Rows? && s.mode.rows != []
  {
    var t := s.mode.rows[0].ticket;
    var journal := RecoveryStep(c, s, RecRow(history, true)).journal;
    t in journal && journal[t].status.Lost?
  }

  /**
    How a live order is overlooked in state `s`, by reads in the states `a` and `b`.  It works: the read
    of the pending orders failed.  It is open and its row filled: the position read failed and no exit
    is on record.  It is open and its row pending: the position read failed or came before the fill, and
    the read of the pending orders failed or came after it.
  */
  ghost predicate Overlooked(a: State, positionsFail: bool, b: State, pendingFails: bool, s: State, t: Ticket,
                             st: Status, exited: bool)
    requires t in a.broker && t in b.broker && t in s.broker
  {
    if s.broker[t].phase.Working? then pendingFails
    else if st.Filled? then positionsFail && !exited
    else (positionsFail || a.broker[t].phase.Working?) && (pendingFails || b.broker[t].phase.Open?)
  }

  /** The row is given up when its ticket is in neither list, and no exit is on record for a filled row. */
  lemma RowGivenUp(c: Config, s: State, history: bool)
    requires Inv(c, s) && s.mode.Rows? && s.mode.rows != []
    ensures var p := s.mode.rows[0];
            && p.ticket in s.broker && (p.row.status.Pending? || p.row.status.Filled?)
            && (p.row.status.Filled? ==> WasFilled(s.broker[p.ticket]))
            && (GivesUp(c, s, history) <==>
                p.ticket !in s.mode.positions
                    && if p.row.status.Pending? then p.ticket !in s.mode.working
                       else !(history && s.broker[p.ticket].closed > 0.0))
  {
    var p := s.mode.rows[0];
    assert PolledOk(s.broker, s.journal, p) && RowOk(c, s.journal[p.ticket], s.broker[p.ticket]);
  }

  /** The two lists lack a live order exactly when it was overlooked. */
  lemma MissingIff(a: State, positionsFail: bool, b: State, pendingFails: bool, s: State, p: Polled, exited: bool)
    requires Sees(a, positionsFail, b, pendingFails, s) && p in s.mode.rows && p.ticket in s.broker
    requires (p.row.status.Pending? || p.row.status.Filled?) && Live(s.broker[p.ticket])
    requires p.row.status.Filled? ==> p.ticket in a.broker && WasFilled(a.broker[p.ticket])
    ensures p.ticket in a.broker && p.ticket in b.broker
    ensures Overlooked(a, positionsFail, b, pendingFails, s, p.ticket, p.row.status, exited)
            <==> p.ticket !in s.mode.positions
                 && if p.row.status.Pending? then p.ticket !in s.mode.working else !exited
  {
    var t := p.ticket;
    assert t in s.broker.Keys;
    assert t in a.broker && t in b.broker;
    assert Forward(a.broker[t], b.broker[t]) && Forward(b.broker[t], s.broker[t]);
  }

  /** Startup gives up a live order exactly when its reads overlooked it. */
  lemma GivesUpLiveIff(c: Config, u: Startup, history: bool)
    requires Underway(c, u) && u.Now(c).mode.rows != []
    ensures var s := u.Now(c);
            var p := s.mode.rows[0];
            && p.ticket in u.before.broker && p.ticket in u.AtPending(c).broker && p.ticket in s.broker
            && (Live(s.broker[p.ticket]) ==>
                (GivesUp(c, s, history) <==>
                 Overlooked(u.before, u.positionsFail, u.AtPending(c), u.pendingFails, s, p.ticket, p.row.status,
                            history && s.broker[p.ticket].closed > 0.0)))
  {
    StartupInv(c, u);
    StartupSees(c, u);
    GivesUpBy(c, u.before, u.positionsFail, u.AtPending(c), u.pendingFails, u.Now(c), history);
  }

  lemma GivesUpBy(c: Config, a: State, positionsFail: bool, b: State, pendingFails: bool, s: State, history: bool)
    requires Inv(c, a) && Inv(c, s) && Sees(a, positionsFail, b, pendingFails, s) && s.mode.rows != []
    ensures var p := s.mode.rows[0];
            && p.ticket in a.broker && p.ticket in b.broker && p.ticket in s.broker
            && (Live(s.broker[p.ticket]) ==>
                (GivesUp(c, s, history) <==>
                 Overlooked(a, positionsFail, b, pendingFails, s, p.ticket, p.row.status,
                            history && s.broker[p.ticket].closed > 0.0)))
  {
    var p := s.mode.rows[0];
    RowGivenUp(c, s, history);
    assert p.ticket in s.broker.Keys;
    assert RowOk(c, a.journal[p.ticket], a.broker[p.ticket]);
    if Live(s.broker[p.ticket]) {
      MissingIff(a, positionsFail, b, pendingFails, s, p, history && s.broker[p.ticket].closed > 0.0);
    }
  }

  // ---- every row is handled in a startup ---------------------------------------------------------------------

  lemma RecoveryModes(c: Config, s: State, e: Event, m: Mode)
    requires m == RecoveryStep(c, s, e).mode
    ensures m.Orphans? ==> !e.Crash? && (s.mode.Orphans? || (s.mode.Booting? && e.RecSnapshot?))
    ensures m.Rows? ==> !e.Crash? && (s.mode.Rows? || (s.mode.Orphans? && e.RecRead?))
  {
  }

  lemma Modes(c: Config, s: State, e: Event, m: Mode)
    requires m == Step(c, s, e).mode
    ensures m.Orphans? ==> !e.Crash? && (s.mode.Orphans? || (s.mode.Booting? && e.RecSnapshot?))
    ensures m.Rows? ==> !e.Crash? && (s.mode.Rows? || (s.mode.Orphans? && e.RecRead?))
  {
    if ActorOf(e).Recovery? {
      RecoveryModes(c, s, e, m);
    } else {
      OthersKeepMode(c, s, e);
      if s.life.Running? && s.life.todo != [] {
        LifeKeepsMode(c, s, e);
      }
    }
  }

  lemma RunOn(c: Config, s: State, es: seq<Event>, e: Event)
    ensures Run(c, s, es + [e]) == Step(c, Run(c, s, es), e)
  {
    assert (es + [e])[..|es + [e]| - 1] == es;
  }

  lemma {:induction false} HistoryBegins(c: Config, es: seq<Event>) returns (u: Startup)
    requires Run(c, INITIAL, es).mode.Orphans?
    ensures Begun(c, u) && u.AtPending(c) == Run(c, INITIAL, es)
    decreases |es|
  {
    var init, e := es[..|es| - 1], es[|es| - 1];
    var s := Run(c, INITIAL, init);
    Modes(c, s, e, Run(c, INITIAL, es).mode);
    if s.mode.Orphans? {
      var v := HistoryBegins(c, init);
      RunOn(c, v.Snapped(c), v.between, e);
      u := v.(between := v.between + [e]);
    } else {
      u := Startup(s, e.failed, e.order, [], false, [], []);
    }
  }

  /** Whenever recovery handles rows, it does so in a startup of this form. */
  lemma {:induction false} HistoryIsStartup(c: Config, es: seq<Event>) returns (u: Startup)
    requires Run(c, INITIAL, es).mode.Rows?
    ensures Underway(c, u) && u.Now(c) == Run(c, INITIAL, es)
    decreases |es|
  {
    var init, e := es[..|es| - 1], es[|es| - 1];
    var s := Run(c, INITIAL, init);
    Modes(c, s, e, Run(c, INITIAL, es).mode);
    if s.mode.Rows? {
      var v := HistoryIsStartup(c, init);
      RunOn(c, v.Listed(c), v.after, e);
      u := v.(after := v.after + [e]);
    } else {
      var v := HistoryBegins(c, init);
      u := v.(pendingFails := e.failed, rows := e.order, after := []);
    }
  }

  lemma LifeWritesNoLost(c: Config, s: State, e: Event, t: Ticket)
    requires Inv(c, s) && s.life.Running? && s.life.todo != [] && t in s.journal && !s.journal[t].status.Lost?
    ensures t in LifeHandle(c, s, e).journal && !LifeHandle(c, s, e).journal[t].status.Lost?
  {
  }

  lemma CleanWritesNoLost(s: State, e: Event, t: Ticket)
    requires t in s.journal && !s.journal[t].status.Lost?
    ensures t in CleanStep(s, e).journal && !CleanStep(s, e).journal[t].status.Lost?
  {
  }

  lemma OthersWriteNoLost(c: Config, s: State, e: Event, t: Ticket)
    requires t in s.journal
    ensures t in PlaceStep(s, e).journal && PlaceStep(s, e).journal[t] == s.journal[t]
    ensures BrokerStep(s, e).journal == LifeBegin(c, s, e).journal == s.journal
  {
  }

  lemma RowWritesLost(c: Config, s: State, e: Event, t: Ticket, s': State)
    requires t in s.journal && !s.journal[t].status.Lost? && s' == RecoveryStep(c, s, e)
    requires t in s'.journal && s'.journal[t].status.Lost?
    ensures e.RecRow? && s.mode.Rows? && s.mode.rows != [] && s.mode.rows[0].ticket == t && GivesUp(c, s, e.history)
  {
  }

  /** Only recovery writes `lost`, and only for the row it handles. */
  lemma LostIsWrittenByRecovery(c: Config, s: State, e: Event, t: Ticket, s': State)
    requires Inv(c, s) && t in s.journal && !s.journal[t].status.Lost? && s' == Step(c, s, e)
    requires t in s'.journal && s'.journal[t].status.Lost?
    ensures e.RecRow? && s.mode.Rows? && s.mode.rows != [] && s.mode.rows[0].ticket == t && GivesUp(c, s, e.history)
  {
    match ActorOf(e)
    case LifecycleHandler =>
      if s.life.Running? && s.life.todo != [] {
        LifeWritesNoLost(c, s, e, t);
      }
    case Cleanup => CleanWritesNoLost(s, e, t);
    case Recovery => RowWritesLost(c, s, e, t, s');
    case _ => OthersWriteNoLost(c, s, e, t);
  }

  /** In every history, a live order that is given up was overlooked by the reads of that startup. */
  lemma GivenUpLiveWasOverlooked(c: Config, s: State, e: Event, t: Ticket) returns (u: Startup)
    requires Reachable(c, s) && t in s.journal && t in s.broker && Live(s.broker[t]) && !s.journal[t].status.Lost?
    requires t in Step(c, s, e).journal && Step(c, s, e).journal[t].status.Lost?
    ensures e.RecRow? && Underway(c, u) && u.Now(c) == s && t in u.before.broker && t in u.AtPending(c).broker
    ensures Overlooked(u.before, u.positionsFail, u.AtPending(c), u.pendingFails, s, t, s.journal[t].status,
                       e.history && s.broker[t].closed > 0.0)
  {
    ReachableInv(c, s);
    LostIsWrittenByRecovery(c, s, e, t, Step(c, s, e));
    var es :| s == Run(c, INITIAL, es);
    u := HistoryIsStartup(c, es);
    GivesUpLiveIff(c, u, e.history);
  }
}

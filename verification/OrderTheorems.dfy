/** What holds over every history of the auto-execution protocol, and exactly when. */
module OrderTheorems {
  import opened Foundations
  import opened OrderProtocol
  import opened OrderSafety
  import Recovery

  lemma {:induction false} RunKeepsInv(c: Config, s: State, es: seq<Event>)
    requires Inv(c, s)
    ensures Inv(c, Run(c, s, es))
    decreases |es|
  {
    if es != [] {
      RunKeepsInv(c, s, es[..|es| - 1]);
      StepKeeps(c, Run(c, s, es[..|es| - 1]), es[|es| - 1], Run(c, s, es));
    }
  }

  lemma ReachableInv(c: Config, s: State)
    requires Reachable(c, s)
    ensures Inv(c, s)
  {
    var es :| s == Run(c, INITIAL, es);
    RunKeepsInv(c, INITIAL, es);
  }

  lemma {:induction false} RunAppend(c: Config, s: State, es: seq<Event>, fs: seq<Event>)
    ensures Run(c, s, es + fs) == Run(c, Run(c, s, es), fs)
    decreases |fs|
  {
    if fs == [] {
      assert es + fs == es;
    } else {
      RunAppend(c, s, es, fs[..|fs| - 1]);
      assert (es + fs)[..|es + fs| - 1] == es + fs[..|fs| - 1];
    }
  }

  // ---- the two stores agree -------------------------------------------------------------------

  lemma LifeForward(c: Config, s: State, e: Event)
    requires StoresOk(c, s.broker, s.journal, s.placing) && s.life.Running? && s.life.todo != []
    ensures BrokerForward(s.broker, LifeHandle(c, s, e).broker)
  {
  }

  lemma CleanForward(c: Config, s: State, e: Event)
    requires StoresOk(c, s.broker, s.journal, s.placing)
    ensures BrokerForward(s.broker, CleanStep(s, e).broker)
  {
  }

  lemma RecoveryForward(c: Config, s: State, e: Event)
    requires StoresOk(c, s.broker, s.journal, s.placing)
    ensures BrokerForward(s.broker, RecoveryStep(c, s, e).broker)
  {
  }

  lemma StepForward(c: Config, s: State, e: Event, s': State)
    requires StoresOk(c, s.broker, s.journal, s.placing) && s' == Step(c, s, e)
    ensures BrokerForward(s.broker, s'.broker)
  {
    match ActorOf(e)
    case LifecycleHandler =>
      if s.life.Running? && s.life.todo != [] {
        LifeForward(c, s, e);
      }
    case Cleanup => CleanForward(c, s, e);
    case Recovery => RecoveryForward(c, s, e);
    case _ =>
  }

  lemma {:induction false} RunForward(c: Config, s: State, es: seq<Event>)
    requires Inv(c, s)
    ensures BrokerForward(s.broker, Run(c, s, es).broker)
    decreases |es|
  {
    if es != [] {
      RunForward(c, s, es[..|es| - 1]);
      RunKeepsInv(c, s, es[..|es| - 1]);
      StepForward(c, Run(c, s, es[..|es| - 1]), es[|es| - 1], Run(c, s, es));
    }
  }

  /**
    Once the journal says `cancelled` the order was never filled and never will be; once it says
    `filled` or anything later, the broker never removes the order unfilled.  `future` is any
    continuation: polls, cleanups, crashes, lost acknowledgements, failed writes.
  */
  lemma CancelAndFillNeverDisagree(c: Config, s: State, future: seq<Event>, t: Ticket)
    requires Reachable(c, s) && t in s.journal
    ensures t in Run(c, s, future).broker
    ensures s.journal[t].status.Cancelled? ==>
              Run(c, s, future).broker[t].phase.Removed? && Run(c, s, future).broker[t].closed == 0.0
    ensures SaysFilled(s.journal[t].status) ==> WasFilled(Run(c, s, future).broker[t])
  {
    ReachableInv(c, s);
    RunForward(c, s, future);
    RunKeepsInv(c, s, future);
    assert OrderOk(c, Run(c, s, future).broker[t]) && RowOk(c, s.journal[t], s.broker[t]);
  }

  /** Lots still working plus lots open plus lots closed are the lots placed, unless removed unfilled. */
  lemma VolumeConserved(c: Config, s: State, t: Ticket)
    requires Reachable(c, s) && t in s.broker
    ensures var b := s.broker[t];
            !b.phase.Removed? ==> (if b.phase.Working? then b.placed else 0.0) + b.open + b.closed == b.placed
    ensures t in s.journal ==> s.journal[t].volume == s.broker[t].placed
    ensures t in s.journal && s.journal[t].status.Tp1Hit? ==> s.broker[t].closed >= Share(c, s.journal[t].volume) > 0.0
  {
    ReachableInv(c, s);
    assert OrderOk(c, s.broker[t]);
  }

  // ---- the life of a status -------------------------------------------------------------------

  /** How many status changes an order can still undergo. */
  function Rank(st: Status): (r: nat)
    ensures forall st' :: Edge(st, st') ==> r > 0
  {
    match st case Pending => 3 case Filled => 2 case Tp1Hit => 1 case _ => 0
  }

  lemma EdgesDescend(a: Status, b: Status)
    requires Edge(a, b)
    ensures Rank(b) < Rank(a)
  {
  }

  /** How often the journal status of `t` changes during the history `es` from `s`. */
  ghost function Changes(c: Config, s: State, es: seq<Event>, t: Ticket): nat
    decreases |es|
  {
    if es == [] then 0
    else
      var before := Run(c, s, es[..|es| - 1]);
      var after := Run(c, s, es);
      Changes(c, s, es[..|es| - 1], t) +
      (if t in before.journal && t in after.journal && before.journal[t].status != after.journal[t].status then 1
       else 0)
  }

  /** Every event moves each journaled status along a documented edge or not at all. */
  lemma EveryStepFollowsAnEdge(c: Config, s: State, e: Event, t: Ticket)
    requires Reachable(c, s) && t in s.journal
    ensures var s' := Step(c, s, e);
            t in s'.journal
            && (s'.journal[t].status == s.journal[t].status || Edge(s.journal[t].status, s'.journal[t].status))
  {
    ReachableInv(c, s);
    StepKeeps(c, s, e, Step(c, s, e));
  }

  lemma {:induction false} ChangesSpendRank(c: Config, s: State, es: seq<Event>, t: Ticket)
    requires Inv(c, s) && t in s.journal
    ensures t in Run(c, s, es).journal
    ensures Changes(c, s, es, t) + Rank(Run(c, s, es).journal[t].status) <= Rank(s.journal[t].status)
    decreases |es|
  {
    if es != [] {
      var before := Run(c, s, es[..|es| - 1]);
      ChangesSpendRank(c, s, es[..|es| - 1], t);
      RunKeepsInv(c, s, es[..|es| - 1]);
      StepKeeps(c, before, es[|es| - 1], Run(c, s, es));
      if before.journal[t].status != Run(c, s, es).journal[t].status {
        EdgesDescend(before.journal[t].status, Run(c, s, es).journal[t].status);
      }
    }
  }

  /** Over any history a journaled order changes status at most three times. */
  lemma AtMostThreeStatusChanges(c: Config, s: State, es: seq<Event>, t: Ticket)
    requires Reachable(c, s) && t in s.journal
    ensures Changes(c, s, es, t) <= 3
  {
    ReachableInv(c, s);
    ChangesSpendRank(c, s, es, t);
  }

  // ---- histories that show a guard is needed ----------------------------------------------------

  lemma Extend(c: Config, s: State, e: Event)
    requires Reachable(c, s)
    ensures Reachable(c, Step(c, s, e))
  {
    var es :| s == Run(c, INITIAL, es);
    assert (es + [e])[..|es + [e]| - 1] == es;
    assert Step(c, s, e) == Run(c, INITIAL, es + [e]);
  }

  /** An order of `v` lots that waits, and the position it becomes. */
  function Placed(v: real): BrokerOrder { BrokerOrder(Working, v, 0.0, 0.0, 0) }

  function Held(v: real): BrokerOrder { BrokerOrder(Open, v, v, 0.0, 0) }

  /** One order, ticket 1, with no placement, cleanup or recovery in flight. */
  function One(b: BrokerOrder, st: Status, life: Life): State {
    State(map[1 := b], map[1 := Row(st, b.placed)], {}, life, map[], Up)
  }

  function OneFilled(b: BrokerOrder): State {
    One(b, Filled, Idle)
  }

  lemma OneBrokerEvent(c: Config, b: BrokerOrder, st: Status, e: Event, b': BrokerOrder)
    requires Reachable(c, One(b, st, Idle)) && b'.placed == b.placed
    requires || (e == BrokerFill(1) && b.phase.Working? && b' == b.(phase := Open, open := b.placed))
             || (e.BrokerReduce? && e.t == 1 && CanReduce(b, e.v) && b' == Reduce(b, e.v, false))
    ensures Reachable(c, One(b', st, Idle))
  {
    Extend(c, One(b, st, Idle), e);
    assert map[1 := b][1 := b'] == map[1 := b'];
  }

  lemma OneSnapshot(c: Config, b: BrokerOrder, st: Status, empty: bool)
    requires Reachable(c, One(b, st, Idle)) && b.phase.Open? && !(empty && c.pollReads) && st in ACTIVE
    ensures var positions := if empty then map[] else map[1 := b.open];
            Reachable(c, One(b, st, Running(positions, [Polled(1, Row(st, b.placed))], Fresh)))
  {
    var positions := if empty then map[] else map[1 := b.open];
    assert OpenPositions(map[1 := b]) == map[1 := b.open];
    Extend(c, One(b, st, Idle), LifeSnapshot(empty));
    var s := One(b, st, Snapped(positions));
    assert Lists(s.journal, [1], ACTIVE);
    assert Poll(s.journal, [1]) == [Polled(1, Row(st, b.placed))];
    Extend(c, s, LifeRead([1]));
  }

  lemma OneWorkingReachable(c: Config, v: real)
    requires v > 0.0
    ensures Reachable(c, One(BrokerOrder(Working, v, 0.0, 0.0, 0), Pending, Idle))
  {
    var b := BrokerOrder(Working, v, 0.0, 0.0, 0);
    assert INITIAL == Run(c, INITIAL, []);
    Extend(c, INITIAL, RecAbort);
    var s1 := INITIAL.(mode := Up);
    Extend(c, s1, Accept(1, v, true));
    var s2 := s1.(broker := map[1 := b], placing := {1});
    assert Step(c, s1, Accept(1, v, true)) == s2;
    Extend(c, s2, Insert(1, true));
    assert Step(c, s2, Insert(1, true)) == One(b, Pending, Idle);
  }

  /** A poll that finds the position journals the order as filled. */
  lemma OneMarkedFilled(c: Config, b: BrokerOrder)
    requires Reachable(c, One(b, Pending, Idle)) && b.phase.Open?
    ensures Reachable(c, OneFilled(b))
  {
    OneSnapshot(c, b, Pending, false);
    var positions := map[1 := b.open];
    var s := One(b, Pending, Running(positions, [Polled(1, Row(Pending, b.placed))], Fresh));
    Extend(c, s, LifeFilled(true));
    var s' := One(b, Filled, Running(positions, [], Fresh));
    assert s.life.todo[1..] == [] && s.journal[1 := Row(Filled, b.placed)] == s'.journal;
    assert Step(c, s, LifeFilled(true)) == s';
    Extend(c, s', LifeEnd);
  }

  lemma OneFilledReachable(c: Config, v: real)
    requires v > 0.0
    ensures Reachable(c, OneFilled(BrokerOrder(Open, v, v, 0.0, 0)))
  {
    var b := BrokerOrder(Open, v, v, 0.0, 0);
    OneWorkingReachable(c, v);
    OneBrokerEvent(c, BrokerOrder(Working, v, 0.0, 0.0, 0), Pending, BrokerFill(1), b);
    OneMarkedFilled(c, b);
  }

  /** A poll closes the TP1 share but the acknowledgement is lost, so the journal still says `filled`. */
  lemma PartialWithLostAck(c: Config, b: BrokerOrder)
    requires Reachable(c, OneFilled(b)) && b.phase.Open?
    requires b.open >= b.placed - VOLUME_EPSILON && CanReduce(b, Share(c, b.placed))
    ensures Reachable(c, OneFilled(Reduce(b, Share(c, b.placed), true)))
  {
    var b' := Reduce(b, Share(c, b.placed), true);
    var positions := map[1 := b.open];
    var p := Polled(1, Row(Filled, b.placed));
    OneSnapshot(c, b, Filled, false);
    var s := One(b, Filled, Running(positions, [p], Fresh));
    assert FullVolume(positions, p);
    Extend(c, s, LifePartial(true, false));
    var s' := One(b', Filled, Running(positions, [], Fresh));
    assert s.life.todo[1..] == [] && s.broker[1 := b'] == s'.broker;
    assert Step(c, s, LifePartial(true, false)) == s';
    Extend(c, s', LifeEnd);
  }

  /** The TP1 partial close of a `placed`-lot order takes effect at most once in every history. */
  ghost predicate AtMostOncePerTicket(c: Config, placed: real) {
    forall s, t :: Reachable(c, s) && t in s.broker && s.broker[t].placed == placed ==> s.broker[t].partials <= 1
  }

  /**
    The volume guard makes the TP1 close effective at most once per ticket exactly when the share
    it closes is larger than the guard's own tolerance (or too large to fit twice, or nothing).
  */
  lemma PartialCloseAtMostOnceIff(c: Config, placed: real)
    requires placed > 0.0
    ensures AtMostOncePerTicket(c, placed) <==> GuardWorks(c, placed)
  {
    if GuardWorks(c, placed) {
      forall s, t | Reachable(c, s) && t in s.broker && s.broker[t].placed == placed ensures s.broker[t].partials <= 1 {
        ReachableInv(c, s);
      }
    } else {
      var share := Share(c, placed);
      assert 2.0 * share <= placed by {
        assert placed * (1.0 - 2.0 * c.fraction) >= 0.0;
      }
      var b0 := BrokerOrder(Open, placed, placed, 0.0, 0);
      OneFilledReachable(c, placed);
      PartialWithLostAck(c, b0);
      var b1 := Reduce(b0, share, true);
      PartialWithLostAck(c, b1);
      var s := OneFilled(Reduce(b1, share, true));
      assert Reachable(c, s) && 1 in s.broker && s.broker[1].placed == placed && s.broker[1].partials == 2;
    }
  }

  /** An exit journaled as `sl_hit` or `tp_runner_hit` is a position the broker has fully closed. */
  ghost predicate ExitMeansClosed(c: Config) {
    forall s, t ::
          Reachable(c, s) && t in s.journal && (s.journal[t].status.SlHit? || s.journal[t].status.TpRunnerHit?) ==>
      t in s.broker && s.broker[t].phase.Closed?
  }

  /** A poll that sees no positions journals an exit as soon as the history holds one exit deal. */
  lemma ExitJournaled(c: Config, b: BrokerOrder) returns (s: State)
    requires Reachable(c, One(b, Filled, Running(map[], [Polled(1, Row(Filled, b.placed))], Fresh))) && b.closed > 0.0
    ensures Reachable(c, s) && s.broker == map[1 := b] && 1 in s.journal && s.journal[1].status == SlHit
  {
    var todo := [Polled(1, Row(Filled, b.placed))];
    Extend(c, One(b, Filled, Running(map[], todo, Fresh)), LifeHistory(SlHit));
    var s' := One(b, Filled, Running(map[], todo, HistoryRead(SlHit)));
    Extend(c, s', LifeExit(true));
    s := Step(c, s', LifeExit(true));
  }

  /**
    A failed poll read that looks like "no positions" lets a poll journal the exit of a half-closed,
    still open position.
  */
  lemma EmptyReadLosesAPosition(c: Config)
    requires !c.pollReads
    ensures !ExitMeansClosed(c)
  {
    var b := BrokerOrder(Open, 2.0, 1.0, 1.0, 0);
    HalfOpenReachable(c);
    OneSnapshot(c, b, Filled, true);
    var s := ExitJournaled(c, b);
    assert s.broker[1].phase == Open;
  }

  /** Half of the position was closed; the rest is open and journaled `filled`. */
  lemma HalfOpenReachable(c: Config)
    ensures Reachable(c, OneFilled(BrokerOrder(Open, 2.0, 1.0, 1.0, 0)))
  {
    OneFilledReachable(c, 2.0);
    OneBrokerEvent(c, BrokerOrder(Open, 2.0, 2.0, 0.0, 0), Filled, BrokerReduce(1, 1.0),
                   BrokerOrder(Open, 2.0, 1.0, 1.0, 0));
  }

  // ---- histories of startups ------------------------------------------------------------------------

  /** A history of events that `may` happen leads from `s` to `s'`. */
  ghost predicate Leads(c: Config, may: Event -> bool, s: State, s': State) {
    exists es :: s' == Run(c, s, es) && forall i :: 0 <= i < |es| ==> may(es[i])
  }

  lemma LeadsNowhere(c: Config, may: Event -> bool, s: State)
    ensures Leads(c, may, s, s)
  {
    assert s == Run(c, s, []);
  }

  lemma LeadsOn(c: Config, may: Event -> bool, s: State, s': State, e: Event, s'': State)
    requires Leads(c, may, s, s') && may(e) && s'' == Step(c, s', e)
    ensures Leads(c, may, s, s'')
  {
    var es :| s' == Run(c, s, es) && forall i :: 0 <= i < |es| ==> may(es[i]);
    var fs := es + [e];
    assert fs[..|fs| - 1] == es;
    assert s'' == Run(c, s, fs);
  }

  lemma LeadsReach(c: Config, may: Event -> bool, s: State, s': State)
    requires Reachable(c, s) && Leads(c, may, s, s')
    ensures Reachable(c, s')
  {
    var fs :| s == Run(c, INITIAL, fs);
    var es :| s' == Run(c, s, es) && forall i :: 0 <= i < |es| ==> may(es[i]);
    RunAppend(c, INITIAL, fs, es);
  }

  /** Crashes and startups, whatever fails in them. */
  predicate OnlyStartups(e: Event) { ActorOf(e).Recovery? }

  /** Crashes, the broker on its own, and startups in which no read, close or write fails. */
  predicate NothingFails(e: Event) {
    || e.Crash? || e.BrokerFill? || e.BrokerExit? || e.BrokerReduce? || e.BrokerRemove?
    || ((e.RecSnapshot? || e.RecRead?) && !e.failed) || (e.RecClose? && e.effect) || (e.RecRow? && e.ok)
  }

  /** The same, except that the reads of the pending orders may fail. */
  predicate OnlyPendingReadsFail(e: Event) { e.RecRead? || NothingFails(e) }

  /** The order of `One` during startup. */
  function OneStarting(b: BrokerOrder, st: Status, mode: Mode): State {
    One(b, st, Idle).(mode := mode)
  }

  function OneRow(b: BrokerOrder, st: Status): seq<Polled> { [Polled(1, Row(st, b.placed))] }

  lemma StartupBegins(c: Config, may: Event -> bool, s: State, b: BrokerOrder, st: Status, mode: Mode)
    requires Leads(c, may, s, OneStarting(b, st, mode)) && may(Crash)
    ensures Leads(c, may, s, OneStarting(b, st, Booting))
  {
    LeadsOn(c, may, s, OneStarting(b, st, mode), Crash, OneStarting(b, st, Booting));
  }

  /** The position read shows no position: it failed, or the order is not open. */
  lemma StartupSeesNothing(c: Config, may: Event -> bool, s: State, b: BrokerOrder, st: Status, failed: bool)
    requires Leads(c, may, s, OneStarting(b, st, Booting)) && may(RecSnapshot(failed, []))
    requires if failed then !c.recoveryReads && st in ACTIVE else b.phase.Working?
    ensures Leads(c, may, s, OneStarting(b, st, Orphans(map[], [])))
  {
    var s1 := OneStarting(b, st, Booting);
    assert b.phase.Working? ==> OpenPositions(map[1 := b]) == map[];
    LeadsOn(c, may, s, s1, RecSnapshot(failed, []), OneStarting(b, st, Orphans(map[], [])));
  }

  lemma StartupReadsRow(c: Config, may: Event -> bool, s: State, b: BrokerOrder, st: Status, failed: bool)
    requires Leads(c, may, s, OneStarting(b, st, Orphans(map[], []))) && may(RecRead(failed, [1]))
    requires st.Pending? || st.Filled?
    ensures var working := if failed then {} else WorkingOrders(map[1 := b]);
            Leads(c, may, s, OneStarting(b, st, Rows(map[], working, OneRow(b, st))))
  {
    var s1 := OneStarting(b, st, Orphans(map[], []));
    var working := if failed then {} else WorkingOrders(map[1 := b]);
    assert Lists(s1.journal, [1], {Pending, Filled});
    assert Poll(s1.journal, [1]) == OneRow(b, st);
    LeadsOn(c, may, s, s1, RecRead(failed, [1]), OneStarting(b, st, Rows(map[], working, OneRow(b, st))));
  }

  /** Recovery gives up a row in neither list; for a filled one an exit deal makes it look stopped out. */
  lemma StartupGivesUp(c: Config, may: Event -> bool, s: State, b: BrokerOrder, st: Status, working: set<Ticket>)
    requires Leads(c, may, s, OneStarting(b, st, Rows(map[], working, OneRow(b, st)))) && may(RecRow(true, true))
    requires st.Filled? || (st.Pending? && 1 !in working)
    ensures var st' := if st.Filled? && b.closed > 0.0 then SlHit else Lost;
            Leads(c, may, s, OneStarting(b, st', Rows(map[], working, [])))
  {
    var s1 := OneStarting(b, st, Rows(map[], working, OneRow(b, st)));
    var st' := if st.Filled? && b.closed > 0.0 then SlHit else Lost;
    var s2 := OneStarting(b, st', Rows(map[], working, []));
    assert OneRow(b, st)[1..] == [];
    assert s1.journal[1 := Row(st', b.placed)] == s2.journal;
    assert Step(c, s1, RecRow(true, true)) == s2;
    LeadsOn(c, may, s, s1, RecRow(true, true), s2);
  }

  function Filling(b: BrokerOrder): BrokerOrder { b.(phase := Open, open := b.placed) }

  lemma OrderFills(c: Config, may: Event -> bool, s: State, b: BrokerOrder, st: Status, mode: Mode)
    requires Leads(c, may, s, OneStarting(b, st, mode)) && may(BrokerFill(1)) && b.phase.Working?
    ensures Leads(c, may, s, OneStarting(Filling(b), st, mode))
  {
    var b' := Filling(b);
    assert map[1 := b][1 := b'] == map[1 := b'];
    LeadsOn(c, may, s, OneStarting(b, st, mode), BrokerFill(1), OneStarting(b', st, mode));
  }

  lemma StartupSeesOrphan(c: Config, may: Event -> bool, s: State, b: BrokerOrder)
    requires Leads(c, may, s, OneStarting(b, Lost, Booting)) && may(RecSnapshot(false, [1])) && b.phase.Open?
    ensures Leads(c, may, s, OneStarting(b, Lost, Orphans(map[1 := b.open], [1])))
  {
    var s1 := OneStarting(b, Lost, Booting);
    assert OpenPositions(s1.broker) == map[1 := b.open] && Orphan(s1.journal, 1);
    LeadsOn(c, may, s, s1, RecSnapshot(false, [1]), OneStarting(b, Lost, Orphans(map[1 := b.open], [1])));
  }

  lemma StartupClosesOrphan(c: Config, may: Event -> bool, s: State, b: BrokerOrder)
    requires Leads(c, may, s, OneStarting(b, Lost, Orphans(map[1 := b.open], [1]))) && may(RecClose(true))
    requires CanReduce(b, b.open)
    ensures Leads(c, may, s, OneStarting(Reduce(b, b.open, false), Lost, Orphans(map[1 := b.open], [])))
  {
    var s1, b' := OneStarting(b, Lost, Orphans(map[1 := b.open], [1])), Reduce(b, b.open, false);
    var s2 := OneStarting(b', Lost, Orphans(map[1 := b.open], []));
    assert s1.broker[1 := b'] == s2.broker && [1][1..] == [] && b'.placed == b.placed;
    assert Step(c, s1, RecClose(true)) == s2;
    LeadsOn(c, may, s, s1, RecClose(true), s2);
  }

  /** Order 1 is in this phase at the broker and has this status in the journal. */
  predicate Single(s: State, phase: Phase, st: Status) {
    1 in s.broker && s.broker[1].phase == phase && 1 in s.journal && s.journal[1].status == st
  }

  /** Once its row is given up, the next startup closes the position at market, without any failure. */
  lemma NextStartupCloses(c: Config, may: Event -> bool, b: BrokerOrder, mode: Mode) returns (s': State)
    requires b.phase.Open? && b.open > 0.0 && may(Crash) && may(RecSnapshot(false, [1])) && may(RecClose(true))
    ensures Leads(c, may, OneStarting(b, Lost, mode), s') && Single(s', Closed, Lost)
  {
    var s := OneStarting(b, Lost, mode);
    LeadsNowhere(c, may, s);
    StartupBegins(c, may, s, b, Lost, mode);
    StartupSeesOrphan(c, may, s, b);
    StartupClosesOrphan(c, may, s, b);
    s' := OneStarting(Reduce(b, b.open, false), Lost, Orphans(map[1 := b.open], []));
  }

  /** A startup whose position read fails gives up a filled row, or takes it for stopped out. */
  lemma FailedPositionRead(c: Config, b: BrokerOrder)
    requires !c.recoveryReads
    ensures var st := if b.closed > 0.0 then SlHit else Lost;
            Leads(c, OnlyStartups, OneFilled(b), OneStarting(b, st, Rows(map[], WorkingOrders(map[1 := b]), [])))
  {
    var s := OneFilled(b);
    LeadsNowhere(c, OnlyStartups, s);
    StartupBegins(c, OnlyStartups, s, b, Filled, Up);
    StartupSeesNothing(c, OnlyStartups, s, b, Filled, true);
    StartupReadsRow(c, OnlyStartups, s, b, Filled, false);
    StartupGivesUp(c, OnlyStartups, s, b, Filled, WorkingOrders(map[1 := b]));
  }

  /** A restart whose position read fails journals the exit of a half-closed, still open position. */
  lemma FailedRecoveryReadLosesAPosition(c: Config)
    requires !c.recoveryReads
    ensures !ExitMeansClosed(c)
  {
    var b := BrokerOrder(Open, 2.0, 1.0, 1.0, 0);
    HalfOpenReachable(c);
    FailedPositionRead(c, b);
    var s := OneStarting(b, SlHit, Rows(map[], WorkingOrders(map[1 := b]), []));
    LeadsReach(c, OnlyStartups, OneFilled(b), s);
    assert s.broker[1].phase == Open && s.journal[1].status == SlHit;
  }

  /**
    One startup with a failed position read and one after it: the live, correctly journaled position is
    closed at market.
  */
  lemma TwoRestartsCloseALivePosition(c: Config, v: real) returns (s: State, given: State, s': State)
    requires !c.recoveryReads && v > 0.0
    ensures Reachable(c, s) && Leads(c, OnlyStartups, s, given) && Leads(c, NothingFails, given, s')
    ensures Single(s, Open, Filled) && Single(given, Open, Lost) && Single(s', Closed, Lost)
  {
    var b := Held(v);
    OneFilledReachable(c, v);
    FailedPositionRead(c, b);
    s := OneFilled(b);
    given := OneStarting(b, Lost, Rows(map[], WorkingOrders(map[1 := b]), []));
    s' := NextStartupCloses(c, NothingFails, b, given.mode);
  }

  /** A startup begins while the order waits: it is not among the positions. */
  lemma WaitingIsNotOpen(c: Config, may: Event -> bool, w: BrokerOrder)
    requires w.phase.Working? && may(Crash) && may(RecSnapshot(false, []))
    ensures Leads(c, may, One(w, Pending, Idle), OneStarting(w, Pending, Orphans(map[], [])))
  {
    var s := One(w, Pending, Idle);
    LeadsNowhere(c, may, s);
    StartupBegins(c, may, s, w, Pending, Up);
    StartupSeesNothing(c, may, s, w, Pending, false);
  }

  lemma GivesUpUnseen(c: Config, may: Event -> bool, s: State, b: BrokerOrder, failed: bool)
    requires Leads(c, may, s, OneStarting(b, Pending, Orphans(map[], []))) && (failed || !b.phase.Working?)
    requires may(RecRead(failed, [1])) && may(RecRow(true, true))
    ensures Leads(c, may, s, OneStarting(b, Lost, Rows(map[], {}, [])))
  {
    StartupReadsRow(c, may, s, b, Pending, failed);
    assert !b.phase.Working? ==> WorkingOrders(map[1 := b]) == {};
    StartupGivesUp(c, may, s, b, Pending, {});
  }

  lemma FillBetweenReads(c: Config, may: Event -> bool, w: BrokerOrder)
    requires w.phase.Working? && may(Crash) && may(RecSnapshot(false, [])) && may(BrokerFill(1))
    requires may(RecRead(false, [1])) && may(RecRow(true, true))
    ensures Leads(c, may, One(w, Pending, Idle), OneStarting(Filling(w), Lost, Rows(map[], {}, [])))
  {
    var s := One(w, Pending, Idle);
    WaitingIsNotOpen(c, may, w);
    OrderFills(c, may, s, w, Pending, Orphans(map[], []));
    GivesUpUnseen(c, may, s, Filling(w), false);
  }

  lemma FailedPendingRead(c: Config, may: Event -> bool, w: BrokerOrder)
    requires w.phase.Working? && may(Crash) && may(RecSnapshot(false, [])) && may(RecRead(true, [1]))
    requires may(RecRow(true, true))
    ensures Leads(c, may, One(w, Pending, Idle), OneStarting(w, Lost, Rows(map[], {}, [])))
  {
    WaitingIsNotOpen(c, may, w);
    GivesUpUnseen(c, may, One(w, Pending, Idle), w, true);
  }

  lemma FillsLater(c: Config, may: Event -> bool, w: BrokerOrder, mode: Mode)
    requires w.phase.Working? && may(BrokerFill(1))
    ensures Leads(c, may, OneStarting(w, Lost, mode), OneStarting(Filling(w), Lost, mode))
  {
    LeadsNowhere(c, may, OneStarting(w, Lost, mode));
    OrderFills(c, may, OneStarting(w, Lost, mode), w, Lost, mode);
  }

  /**
    Nothing fails, but the order fills after the position read and before the read of the pending
    orders: it is in neither list, so it is given up while open, and the next startup closes it.
  */
  lemma FillBetweenReadsIsClosed(c: Config, v: real) returns (s: State, given: State, s': State)
    requires v > 0.0
    ensures Reachable(c, s) && Leads(c, NothingFails, s, given) && Leads(c, NothingFails, given, s')
    ensures Single(s, Working, Pending) && Single(given, Open, Lost) && Single(s', Closed, Lost)
  {
    OneWorkingReachable(c, v);
    s, given := One(Placed(v), Pending, Idle), OneStarting(Held(v), Lost, Rows(map[], {}, []));
    FillBetweenReads(c, NothingFails, Placed(v));
    s' := NextStartupCloses(c, NothingFails, Held(v), given.mode);
  }

  /**
    Only the read of the pending orders fails: a working order is given up, with nothing left open, fills
    later, and the next startup closes the position.
  */
  lemma FailedPendingReadClosesALaterFill(c: Config, v: real)
    returns (s: State, given: State, filled: State, s': State)
    requires v > 0.0
    ensures Reachable(c, s) && Leads(c, OnlyPendingReadsFail, s, given)
    ensures Leads(c, NothingFails, given, filled) && Leads(c, NothingFails, filled, s')
    ensures Single(s, Working, Pending) && Single(given, Working, Lost)
    ensures Single(filled, Open, Lost) && Single(s', Closed, Lost)
    ensures Recovery.LeftOpen(s.broker, s.journal, Recovery.Trouble(false, true, {}, {})) == {}
  {
    OneWorkingReachable(c, v);
    s, given := One(Placed(v), Pending, Idle), OneStarting(Placed(v), Lost, Rows(map[], {}, []));
    FailedPendingRead(c, OnlyPendingReadsFail, Placed(v));
    FillsLater(c, NothingFails, Placed(v), given.mode);
    filled := OneStarting(Held(v), Lost, given.mode);
    s' := NextStartupCloses(c, NothingFails, Held(v), filled.mode);
  }

  /** Journaled exits are real exits exactly when no failed position read is taken for an empty list. */
  lemma ExitMeansClosedIff(c: Config)
    ensures ExitMeansClosed(c) <==> c.Truthful()
  {
    if c.Truthful() {
      forall s, t | Reachable(c, s) && t in s.journal
          && (s.journal[t].status.SlHit? || s.journal[t].status.TpRunnerHit?)
        ensures t in s.broker && s.broker[t].phase.Closed?
      {
        ReachableInv(c, s);
      }
    } else if !c.pollReads {
      EmptyReadLosesAPosition(c);
    } else {
      FailedRecoveryReadLosesAPosition(c);
    }
  }
}

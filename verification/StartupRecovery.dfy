/** Startup reconciliation as the two passes that run it, on a broker that stays quiet meanwhile. */
module StartupRecovery {
  import opened Foundations
  import opened OrderProtocol
  import opened OrderSafety
  import opened OrderTheorems
  import opened Desks
  import Recovery

  /** Closes the orphans one by one; `stuck` are those whose close fails. */
  method CloseOrphans(desk: Desk, positions: map<Ticket, real>, orphans: set<Ticket>, order: seq<Ticket>,
                      stuck: set<Ticket>)
    returns (closed: set<Ticket>, failed: set<Ticket>)
    requires desk.Valid() && desk.s.mode == Orphans(positions, order)
    requires forall i, j :: 0 <= i < j < |order| ==> order[i] != order[j]
    requires forall t :: t in order <==> t in orphans
    requires forall t :: t in orphans ==> t in desk.s.broker && CanReduce(desk.s.broker[t], desk.s.broker[t].open)
    modifies desk
    ensures desk.Valid() && desk.start == old(desk.start) && desk.s.mode == Orphans(positions, [])
            && desk.s.journal == old(desk.s).journal
    ensures closed == orphans - stuck && failed == orphans * stuck
    ensures desk.s.broker == Recovery.Closing(old(desk.s).broker, closed)
  {
    closed, failed := {}, {};
    ghost var broker := desk.s.broker;
    assert desk.s.broker == Recovery.Closing(broker, {});
    for i := 0 to |order|
      invariant desk.Valid() && desk.start == old(desk.start) && desk.s.mode == Orphans(positions, order[i..])
                && desk.s.journal == old(desk.s).journal
      invariant closed <= orphans - stuck && failed <= orphans * stuck
      invariant forall j :: 0 <= j < |order| ==> (order[j] in closed + failed <==> j < i)
      invariant desk.s.broker == Recovery.Closing(broker, closed)
    {
      var t := order[i];
      assert t in order && t !in closed;
      assert order[i..][0] == t && order[i..][1..] == order[i + 1..];
      CloseOne(desk, t, t !in stuck, closed, broker);
      if t in stuck {
        failed := failed + {t};
      } else {
        closed := closed + {t};
      }
    }
    forall t | t in orphans ensures t in closed + failed {
      assert t in order;
    }
  }

  /** One `close_position_at_market`. */
  method CloseOne(desk: Desk, t: Ticket, works: bool, ghost closed: set<Ticket>, ghost broker: Recovery.Broker)
    requires desk.Valid() && desk.s.mode.Orphans? && desk.s.mode.todo != [] && desk.s.mode.todo[0] == t && t !in closed
    requires desk.s.broker == Recovery.Closing(broker, closed)
    requires t in broker && CanReduce(broker[t], broker[t].open)
    modifies desk
    ensures desk.Valid() && desk.start == old(desk.start) && desk.s.journal == old(desk.s).journal
    ensures desk.s.mode == Orphans(old(desk.s).mode.positions, old(desk.s).mode.todo[1..])
    ensures desk.s.broker == Recovery.Closing(broker, if works then closed + {t} else closed)
  {
    desk.Do(RecClose(works));
    if works {
      assert desk.s.broker == Recovery.Closing(broker, closed + {t});
    }
  }

  /** One row of the lost-pending / lost-filled passes. */
  method RecoverRow(desk: Desk, ghost done: set<Ticket>, ghost journal: Recovery.Journal, open: set<Ticket>,
                    lag: set<Ticket>)
    returns (lost: bool)
    requires desk.Valid() && desk.s.mode.Rows? && desk.s.mode.rows != []
    requires var p := desk.s.mode.rows[0];
             p.ticket in journal && p.row == journal[p.ticket] && p.ticket !in done
             && (p.row.status.Pending? || p.row.status.Filled?)
    requires desk.s.mode.positions.Keys == open
    requires desk.s.journal == Recovery.Recovering(journal, done, desk.s.mode.working, open, desk.s.broker, lag)
    modifies desk
    ensures desk.Valid() && desk.start == old(desk.start) && desk.s.broker == old(desk.s).broker
    ensures desk.s.mode == Rows(old(desk.s).mode.positions, old(desk.s).mode.working, old(desk.s).mode.rows[1..])
    ensures var t := old(desk.s).mode.rows[0].ticket;
            && desk.s.journal
                == Recovery.Recovering(journal, done + {t}, old(desk.s).mode.working, open, desk.s.broker, lag)
            && lost == Recovery.RecoveredRow(journal[t], t, old(desk.s).mode.working, open, desk.s.broker,
                                             lag).status.Lost?
  {
    var t := desk.s.mode.rows[0].ticket;
    desk.Do(RecRow(Recovery.HasHistory(desk.s.broker, lag, t), true));
    assert desk.s.journal
        == Recovery.Recovering(journal, done + {t}, old(desk.s).mode.working, open, desk.s.broker, lag);
    lost := desk.s.journal[t].status.Lost?;
  }

  /** The passes over the rows journaled `pending` and `filled`. */
  method RecoverRows(desk: Desk, rows: seq<Polled>, positions: map<Ticket, real>, working: set<Ticket>,
                     lag: set<Ticket>)
    returns (lost: set<Ticket>)
    requires desk.Valid() && Recovery.Polls(desk.s.journal, rows) && desk.s.mode == Rows(positions, working, rows)
    modifies desk
    ensures desk.Valid() && desk.start == old(desk.start) && desk.s.broker == old(desk.s).broker
            && desk.s.mode == Rows(positions, working, [])
    ensures desk.s.journal
            == Recovery.Recovering(old(desk.s).journal, old(desk.s).journal.Keys, working, positions.Keys,
                                   desk.s.broker, lag)
    ensures lost
            == Recovery.LostAmong(old(desk.s).journal, old(desk.s).journal.Keys, working, positions.Keys,
                                  desk.s.broker, lag)
  {
    ghost var journal, broker := desk.s.journal, desk.s.broker;
    ghost var done: set<Ticket> := {};
    lost := {};
    assert desk.s.journal == Recovery.Recovering(journal, {}, working, positions.Keys, broker, lag);
    for i := 0 to |rows|
      invariant desk.Valid() && desk.start == old(desk.start) && desk.s.broker == broker
      invariant desk.s.mode == Rows(positions, working, rows[i..])
      invariant forall j :: 0 <= j < |rows| ==> (rows[j].ticket in done <==> j < i)
      invariant forall t :: t in done ==> t in journal
      invariant desk.s.journal == Recovery.Recovering(journal, done, working, positions.Keys, broker, lag)
      invariant lost == Recovery.LostAmong(journal, done, working, positions.Keys, broker, lag)
    {
      var t := rows[i].ticket;
      assert rows[i..][0] == rows[i] && rows[i..][1..] == rows[i + 1..];
      var gone := RecoverRow(desk, done, journal, positions.Keys, lag);
      Recovery.OneMoreLost(journal, done, t, working, positions.Keys, broker, lag);
      lost := if gone then lost + {t} else lost;
      done := done + {t};
    }
    Recovery.AllRowsRecovered(journal, done, working, positions.Keys, broker, lag);
    Recovery.AllLostAmong(journal, done, working, positions.Keys, broker, lag);
  }

  /** `get_open_positions`; after an exception the list is empty. */
  method ReadPositions(desk: Desk, fails: bool, orphans: set<Ticket>, order: seq<Ticket>)
    returns (positions: map<Ticket, real>)
    requires desk.Valid() && desk.s.mode.Booting? && !(fails && desk.c.recoveryReads)
    requires orphans == Recovery.OrphansOf(desk.s.broker, desk.s.journal) && forall t :: t in order <==> t in orphans
    modifies desk
    ensures desk.Valid() && desk.start == old(desk.start) && desk.s.broker == old(desk.s).broker
            && desk.s.journal == old(desk.s).journal
    ensures desk.s.mode == Orphans(positions, if fails then [] else order)
    ensures positions.Keys == if fails then {} else Recovery.OpenTickets(desk.s.broker)
  {
    positions := if fails then map[] else OpenPositions(desk.s.broker);
    desk.Do(RecSnapshot(fails, order));
  }

  /** Reads the positions and closes the orphans among them. */
  method OrphanPass(desk: Desk, fails: bool, stuck: set<Ticket>)
    returns (positions: map<Ticket, real>, closed: set<Ticket>, errors: set<Ticket>)
    requires desk.Valid() && desk.s.mode.Booting? && !(fails && desk.c.recoveryReads) && Recovery.Sound(desk.s.broker)
    modifies desk
    ensures desk.Valid() && desk.start == old(desk.start) && desk.s.mode == Orphans(positions, [])
            && desk.s.journal == old(desk.s).journal
    ensures positions.Keys == if fails then {} else Recovery.OpenTickets(old(desk.s).broker)
    ensures closed == (if fails then {} else Recovery.OrphansOf(old(desk.s).broker, old(desk.s).journal) - stuck)
    ensures errors == (if fails then {} else Recovery.OrphansOf(old(desk.s).broker, old(desk.s).journal) * stuck)
    ensures desk.s.broker == Recovery.Closing(old(desk.s).broker, closed)
  {
    var orphans := Recovery.OrphansOf(desk.s.broker, desk.s.journal);
    var order := Enumerate(orphans);
    positions := ReadPositions(desk, fails, orphans, order);
    closed, errors := CloseOrphans(desk, positions, if fails then {} else orphans, if fails then [] else order, stuck);
  }

  /** Reads the pending orders, then the rows to reconcile. */
  method ReadRows(desk: Desk, fails: bool) returns (rows: seq<Polled>, working: set<Ticket>)
    requires desk.Valid() && desk.s.mode.Orphans? && desk.s.mode.todo == []
    modifies desk
    ensures desk.Valid() && desk.start == old(desk.start) && desk.s.broker == old(desk.s).broker
            && desk.s.journal == old(desk.s).journal
    ensures working == if fails then {} else WorkingOrders(desk.s.broker)
    ensures Recovery.Polls(desk.s.journal, rows) && desk.s.mode == Rows(old(desk.s).mode.positions, working, rows)
  {
    var order := Unsettled(desk.s.journal);
    Recovery.PollPolls(desk.s.journal, order);
    rows, working := Poll(desk.s.journal, order), if fails then {} else WorkingOrders(desk.s.broker);
    desk.Do(RecRead(fails, order));
  }

  /** `list_open_orders_with_status` for `pending` and `filled`. */
  method Unsettled(journal: Recovery.Journal) returns (order: seq<Ticket>)
    ensures Lists(journal, order, {Pending, Filled})
  {
    var wanted := set t | t in journal && journal[t].status in {Pending, Filled};
    order := Enumerate(wanted);
    assert forall t :: t in wanted <==> t in journal && journal[t].status in {Pending, Filled};
  }

  method FinishRecovery(desk: Desk)
    requires desk.Valid() && desk.s.mode.Rows? && desk.s.mode.rows == []
    modifies desk
    ensures desk.Valid() && desk.start == old(desk.start) && desk.s.mode.Up? && desk.s.broker == old(desk.s).broker
            && desk.s.journal == old(desk.s).journal
  {
    desk.Do(RecRow(false, true));
  }

  /** Reads the pending orders and reconciles the rows. */
  method RowPass(desk: Desk, fails: bool, lag: set<Ticket>) returns (lost: set<Ticket>)
    requires desk.Valid() && desk.s.mode.Orphans? && desk.s.mode.todo == []
    modifies desk
    ensures desk.Valid() && desk.start == old(desk.start) && desk.s.mode.Up? && desk.s.broker == old(desk.s).broker
    ensures var journal, working := old(desk.s).journal, if fails then {} else WorkingOrders(desk.s.broker);
            && desk.s.journal
                == Recovery.Recovering(journal, journal.Keys, working, old(desk.s).mode.positions.Keys, desk.s.broker,
                                       lag)
            && lost == Recovery.LostAmong(journal, journal.Keys, working, old(desk.s).mode.positions.Keys,
                                          desk.s.broker, lag)
  {
    var positions := desk.s.mode.positions;
    var rows, working := ReadRows(desk, fails);
    lost := RecoverRows(desk, rows, positions, working, lag);
    FinishRecovery(desk);
  }

  /** Every broker state a history leads to meets the precondition of the recovery theorems. */
  lemma ReachableIsSound(c: Config, s: State)
    requires Reachable(c, s)
    ensures Recovery.Sound(s.broker)
  {
    ReachableInv(c, s);
    forall t | t in s.broker ensures s.broker[t].phase == Open <==> s.broker[t].open > 0.0 {
      assert OrderOk(c, s.broker[t]);
    }
  }

  /**
    `RecoveryReport`: the orphans closed, the rows given up, the orphans that could not be closed, the
    reads that failed.
  */
  datatype Report = Report(closed: set<Ticket>, lost: set<Ticket>, stuck: set<Ticket>, failedReads: nat)

  /**
    `reconcile_orphan_positions` on a broker that stays quiet while it runs.  A failed read leaves
    an empty list; `stuck` positions cannot be closed; the history of `lag` is not available.
  */
  method ReconcileOrphanPositions(desk: Desk, x: Recovery.Trouble) returns (report: Report)
    requires desk.Valid() && desk.s.mode.Booting? && !(x.positionsFail && desk.c.recoveryReads)
             && Recovery.Sound(desk.s.broker)
    modifies desk
    ensures desk.Valid() && desk.start == old(desk.start) && desk.s.mode.Up?
    ensures var broker, journal := old(desk.s).broker, old(desk.s).journal;
            && report.closed == x.Orphans(broker, journal) - x.stuck
                && report.stuck == x.Orphans(broker, journal) * x.stuck
            && report.lost
                == Recovery.LostAmong(journal, journal.Keys, x.WorkingSeen(broker), x.Seen(broker), broker, x.lag)
            && desk.s.broker == x.BrokerAfter(broker, journal)
            && desk.s.journal == x.JournalAfter(broker, journal)
    ensures report.failedReads == (if x.positionsFail then 1 else 0) + (if x.pendingFails then 1 else 0)
    ensures Recovery.InSync(desk.s.broker, desk.s.journal)
            <==> report.stuck == {} && (x.positionsFail ==> EveryOpenIsTp1Hit(old(desk.s)))
  {
    ghost var s0 := desk.s;
    var positions, closed, errors := OrphanPass(desk, x.positionsFail, x.stuck);
    var lost := RowPass(desk, x.pendingFails, x.lag);
    Recovery.ClosingIsInvisible(s0.broker, s0.journal, closed, x.WorkingSeen(s0.broker), positions.Keys, x.lag);
    report := Report(closed, lost, errors, (if x.positionsFail then 1 else 0) + (if x.pendingFails then 1 else 0));
    SyncCondition(s0, x);
  }

  /** The first half of every open position was closed at TP1, as its row says. */
  ghost predicate EveryOpenIsTp1Hit(s: State) {
    forall t :: t in s.broker && s.broker[t].phase.Open? ==> t in s.journal && s.journal[t].status.Tp1Hit?
  }

  lemma SyncCondition(s: State, x: Recovery.Trouble)
    requires Recovery.Sound(s.broker)
    ensures Recovery.InSync(x.BrokerAfter(s.broker, s.journal), x.JournalAfter(s.broker, s.journal))
            <==> x.Orphans(s.broker, s.journal) * x.stuck == {} && (x.positionsFail ==> EveryOpenIsTp1Hit(s))
  {
    Recovery.InSyncAfterIff(s.broker, s.journal, x);
    var left := Recovery.LeftOpen(s.broker, s.journal, x);
    if x.positionsFail {
      assert forall t ::
            t in left <==> t in s.broker && s.broker[t].phase.Open? && !(t in s.journal && s.journal[t].status.Tp1Hit?);
      if !EveryOpenIsTp1Hit(s) {
        var t :| t in s.broker && s.broker[t].phase.Open? && !(t in s.journal && s.journal[t].status.Tp1Hit?);
        assert t in left;
      }
    }
  }
}

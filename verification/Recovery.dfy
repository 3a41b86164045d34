/** What startup reconciliation leaves behind when nothing else moves, and when it has nothing to do. */
module Recovery {
  import opened Foundations
  import opened OrderProtocol
  import OrderSafety

  type Broker = map<Ticket, BrokerOrder>
  type Journal = map<Ticket, Row>

  function OpenTickets(broker: Broker): set<Ticket> {
    set t | t in broker && broker[t].phase == Open
  }

  function OrphansOf(broker: Broker, journal: Journal): set<Ticket> {
    set t | t in broker && broker[t].phase == Open && Orphan(journal, t)
  }

  /** The broker after the positions `closed` were closed at market. */
  function Closing(broker: Broker, closed: set<Ticket>): Broker {
    map t | t in broker ::
      if t in closed && CanReduce(broker[t], broker[t].open) then Reduce(broker[t], broker[t].open, false)
          else broker[t]
  }

  /** Status of one row after recovery, from what the broker reads said about its ticket. */
  function RecoveredStatus(st: Status, working: bool, open: bool, history: bool): Status {
    match st
    case Pending => if working then Pending else if open then Filled else Lost
    case Filled => if open then Filled else if history then SlHit else Lost
    case _ => st
  }

  /** An exit deal of `t` is on record; the history of the tickets in `lag` is not available yet. */
  predicate HasHistory(broker: Broker, lag: set<Ticket>, t: Ticket) {
    t !in lag && t in broker && broker[t].closed > 0.0
  }

  function RecoveredRow(row: Row, t: Ticket, working: set<Ticket>, open: set<Ticket>, broker: Broker,
                        lag: set<Ticket>): Row {
    row.(status := RecoveredStatus(row.status, t in working, t in open, HasHistory(broker, lag, t)))
  }

  /** The journal after recovery wrote the rows of `done`. */
  function Recovering(journal: Journal, done: set<Ticket>, working: set<Ticket>, open: set<Ticket>, broker: Broker,
                      lag: set<Ticket>): Journal {
    map t | t in journal ::
      if t in done then RecoveredRow(journal[t], t, working, open, broker, lag) else journal[t]
  }

  /** The rows among `done` that recovery gives up. */
  function LostAmong(journal: Journal, done: set<Ticket>, working: set<Ticket>, open: set<Ticket>, broker: Broker,
                     lag: set<Ticket>): set<Ticket> {
    set t | t in done && t in journal && !journal[t].status.Lost?
        && RecoveredRow(journal[t], t, working, open, broker, lag).status.Lost?
  }

  /** The journal after a complete recovery whose reads all succeeded. */
  function RecoveredJournal(broker: Broker, journal: Journal, lag: set<Ticket>): Journal {
    Recovering(journal, journal.Keys, WorkingOrders(broker), OpenTickets(broker), broker, lag)
  }

  /** `rows` polls each row journaled `pending` or `filled` exactly once. */
  ghost predicate Polls(journal: Journal, rows: seq<Polled>) {
    && (forall i, j :: 0 <= i < j < |rows| ==> rows[i].ticket != rows[j].ticket)
    && (forall i :: 0 <= i < |rows| ==>
         rows[i].ticket in journal && rows[i].row == journal[rows[i].ticket]
             && (rows[i].row.status.Pending? || rows[i].row.status.Filled?))
    && (forall t :: t in journal && (journal[t].status.Pending? || journal[t].status.Filled?) ==>
         exists i :: 0 <= i < |rows| && rows[i].ticket == t)
  }

  lemma PollPolls(journal: Journal, order: seq<Ticket>)
    requires Lists(journal, order, {Pending, Filled})
    ensures Polls(journal, Poll(journal, order))
  {
    var rows := Poll(journal, order);
    forall i | 0 <= i < |rows| ensures rows[i].row.status in {Pending, Filled} {
      assert order[i] in order;
    }
    forall t | t in journal && journal[t].status in {Pending, Filled}
      ensures exists i :: 0 <= i < |rows| && rows[i].ticket == t {
      assert t in order;
      var i :| 0 <= i < |order| && order[i] == t;
      assert rows[i].ticket == t;
    }
  }

  /** Rows that are neither pending nor filled need no write. */
  lemma AllRowsRecovered(journal: Journal, done: set<Ticket>, working: set<Ticket>, open: set<Ticket>, broker: Broker,
                         lag: set<Ticket>)
    requires forall t :: t in journal && (journal[t].status.Pending? || journal[t].status.Filled?) ==> t in done
    ensures Recovering(journal, done, working, open, broker, lag)
            == Recovering(journal, journal.Keys, working, open, broker, lag)
  {
    var a, b := Recovering(journal, done, working, open, broker, lag),
        Recovering(journal, journal.Keys, working, open, broker, lag);
    assert forall t :: t in journal ==> a[t] == b[t];
  }

  lemma AllLostAmong(journal: Journal, done: set<Ticket>, working: set<Ticket>, open: set<Ticket>, broker: Broker,
                     lag: set<Ticket>)
    requires forall t :: t in journal && (journal[t].status.Pending? || journal[t].status.Filled?) ==> t in done
    requires forall t :: t in done ==> t in journal
    ensures LostAmong(journal, done, working, open, broker, lag)
            == LostAmong(journal, journal.Keys, working, open, broker, lag)
  {
  }

  lemma OneMoreLost(journal: Journal, done: set<Ticket>, t: Ticket, working: set<Ticket>, open: set<Ticket>,
                    broker: Broker, lag: set<Ticket>)
    requires t in journal && !journal[t].status.Lost?
    ensures LostAmong(journal, done + {t}, working, open, broker, lag)
            == LostAmong(journal, done, working, open, broker, lag)
               + (if RecoveredRow(journal[t], t, working, open, broker, lag).status.Lost? then {t} else {})
  {
  }

  /** Closing orphans changes nothing that the later passes read. */
  lemma ClosingIsInvisible(broker: Broker, journal: Journal, closed: set<Ticket>, working: set<Ticket>,
                           open: set<Ticket>, lag: set<Ticket>)
    requires forall t :: t in closed ==> Orphan(journal, t)
    ensures WorkingOrders(Closing(broker, closed)) == WorkingOrders(broker)
    ensures Recovering(journal, journal.Keys, working, open, Closing(broker, closed), lag)
            == Recovering(journal, journal.Keys, working, open, broker, lag)
    ensures LostAmong(journal, journal.Keys, working, open, Closing(broker, closed), lag)
            == LostAmong(journal, journal.Keys, working, open, broker, lag)
  {
    assert forall t :: t in broker ==> (Closing(broker, closed)[t].phase == Working <==> broker[t].phase == Working);
    var a, b := Recovering(journal, journal.Keys, working, open, Closing(broker, closed), lag),
        Recovering(journal, journal.Keys, working, open, broker, lag);
    assert forall t :: t in journal ==> a[t] == b[t];
  }

  /** The guarantee recovery is for. */
  ghost predicate InSync(broker: Broker, journal: Journal) {
    && (forall t :: t in broker && broker[t].phase == Open ==>
         t in journal && (journal[t].status == Filled || journal[t].status == Tp1Hit))
    && (forall t :: t in journal && journal[t].status == Pending ==> t in broker && broker[t].phase == Working)
    && (forall t :: t in journal && journal[t].status == Filled ==> t in broker && broker[t].phase == Open)
  }

  /** Positions only carry volume; other orders do not. */
  ghost predicate Sound(broker: Broker) {
    forall t :: t in broker ==> (broker[t].phase == Open <==> broker[t].open > 0.0)
  }

  /** With successful reads and closes, broker and journal agree after recovery. */
  lemma RecoveryEstablishesSync(broker: Broker, journal: Journal, lag: set<Ticket>)
    requires Sound(broker)
    ensures InSync(Closing(broker, OrphansOf(broker, journal)), RecoveredJournal(broker, journal, lag))
  {
    var broker', journal' := Closing(broker, OrphansOf(broker, journal)), RecoveredJournal(broker, journal, lag);
    forall t | t in broker' && broker'[t].phase == Open
      ensures t in journal' && (journal'[t].status == Filled || journal'[t].status == Tp1Hit)
    {
      assert broker[t].phase == Open && t !in OrphansOf(broker, journal);
    }
  }

  /** Recovery closes nothing and writes nothing exactly when the stores agree already. */
  lemma QuietIffInSync(broker: Broker, journal: Journal, lag: set<Ticket>)
    ensures (OrphansOf(broker, journal) == {} && RecoveredJournal(broker, journal, lag) == journal)
            <==> (InSync(broker, journal))
  {
    var journal' := RecoveredJournal(broker, journal, lag);
    if OrphansOf(broker, journal) == {} && journal' == journal {
      forall t | t in broker && broker[t].phase == Open
        ensures t in journal && (journal[t].status == Filled || journal[t].status == Tp1Hit)
      {
        assert t !in OrphansOf(broker, journal);
        assert t in journal && journal'[t] == journal[t];
        assert t !in WorkingOrders(broker);
      }
      forall t | t in journal && (journal[t].status == Pending || journal[t].status == Filled)
        ensures t in broker && broker[t].phase == (if journal[t].status == Pending then Working else Open)
      {
        assert journal'[t] == journal[t];
      }
    }
    if InSync(broker, journal) {
      assert forall t :: t in journal ==> journal'[t] == journal[t];
      assert journal' == journal;
    }
  }

  /** Running recovery again right away does nothing, even where the history has caught up meanwhile. */
  lemma SecondRecoveryIsQuiet(broker: Broker, journal: Journal, lag: set<Ticket>, lag': set<Ticket>)
    requires Sound(broker)
    ensures var broker', journal' :=
            Closing(broker, OrphansOf(broker, journal)), RecoveredJournal(broker, journal, lag);
            OrphansOf(broker', journal') == {} && RecoveredJournal(broker', journal', lag') == journal'
  {
    RecoveryEstablishesSync(broker, journal, lag);
    QuietIffInSync(Closing(broker, OrphansOf(broker, journal)), RecoveredJournal(broker, journal, lag), lag');
  }

  // ---- when reads or closes fail --------------------------------------------------------------------

  /** How a run of recovery goes: which of its two reads fail, which positions cannot be closed, which histories lag. */
  datatype Trouble = Trouble(positionsFail: bool, pendingFails: bool, stuck: set<Ticket>, lag: set<Ticket>) {
    function Seen(broker: Broker): set<Ticket> { if positionsFail then {} else OpenTickets(broker) }

    function Orphans(broker: Broker, journal: Journal): set<Ticket> {
      if positionsFail then {} else OrphansOf(broker, journal)
    }

    function WorkingSeen(broker: Broker): set<Ticket> { if pendingFails then {} else WorkingOrders(broker) }

    /** The broker after this run. */
    function BrokerAfter(broker: Broker, journal: Journal): Broker {
      Closing(broker, Orphans(broker, journal) - stuck)
    }

    /** The journal after this run. */
    function JournalAfter(broker: Broker, journal: Journal): Journal {
      Recovering(journal, journal.Keys, WorkingSeen(broker), Seen(broker), broker, lag)
    }
  }

  /**
    Open positions recovery closes in the next run if the broker stays quiet: those not journaled as half
    closed, or those it could not close.
  */
  function LeftOpen(broker: Broker, journal: Journal, x: Trouble): set<Ticket> {
    if x.positionsFail then set t | t in OpenTickets(broker) && !(t in journal && journal[t].status.Tp1Hit?)
    else OrphansOf(broker, journal) * x.stuck
  }

  /**
    What one run makes of each row.  A pending order becomes `filled` when it is seen open and is given up
    when it is seen neither working nor open; a filled one that is not seen open becomes `sl_hit` when its
    history shows an exit and is given up otherwise.  All other rows, and all volumes, stay.
  */
  lemma RowAfter(broker: Broker, journal: Journal, x: Trouble, t: Ticket)
    requires t in journal
    ensures var working, open := t in broker && broker[t].phase.Working? && !x.pendingFails,
                t in broker && broker[t].phase.Open? && !x.positionsFail;
            var exited := t in broker && broker[t].closed > 0.0 && t !in x.lag;
            t in x.JournalAfter(broker, journal)
            && x.JournalAfter(broker, journal)[t]
               == match journal[t].status
                  case Pending =>
                    if working then journal[t]
                    else Row(if open then Filled else Lost, journal[t].volume)
                  case Filled =>
                    if open then journal[t]
                    else Row(if exited then SlHit else Lost, journal[t].volume)
                  case _ => journal[t]
  {
  }

  /** The journal tracks no open position under this ticket any more, or never did. */
  predicate Untracked(journal: Journal, t: Ticket) {
    t in journal ==> var st := journal[t].status; st.TpRunnerHit? || st.SlHit? || st.Cancelled? || st.Lost?
  }

  /** One run closes the open positions it sees that are untracked and not stuck, whole, and touches no other order. */
  lemma BrokerAfterIs(broker: Broker, journal: Journal, x: Trouble, t: Ticket)
    requires Sound(broker) && t in broker
    ensures var b := broker[t];
            t in x.BrokerAfter(broker, journal)
            && x.BrokerAfter(broker, journal)[t]
               == if b.phase.Open? && !x.positionsFail && Untracked(journal, t) && t !in x.stuck
                  then BrokerOrder(Closed, b.placed, 0.0, b.closed + b.open, b.partials)
                  else b
  {
  }

  /** The rows reported lost are those that one run turns to `lost`. */
  lemma LostIff(broker: Broker, journal: Journal, x: Trouble, t: Ticket)
    ensures t in LostAmong(journal, journal.Keys, x.WorkingSeen(broker), x.Seen(broker), broker, x.lag)
            <==> t in journal && !journal[t].status.Lost? && x.JournalAfter(broker, journal)[t].status.Lost?
  {
  }

  /**
    What the next run would find to close on a quiet broker, exactly: after a failed position read every open position
    whose row does not say `tp1_hit`, else the orphans that could not be closed.
  */
  lemma NextOrphans(broker: Broker, journal: Journal, x: Trouble)
    requires Sound(broker)
    ensures OrphansOf(x.BrokerAfter(broker, journal), x.JournalAfter(broker, journal)) == LeftOpen(broker, journal, x)
  {
    var broker', journal' := x.BrokerAfter(broker, journal), x.JournalAfter(broker, journal);
    forall t ensures t in OrphansOf(broker', journal') <==> t in LeftOpen(broker, journal, x) {
      if t in broker && t in journal {
        assert journal'[t] == RecoveredRow(journal[t], t, x.WorkingSeen(broker), x.Seen(broker), broker, x.lag);
      }
    }
  }

  /** Whatever fails, a row recovery leaves `pending` or `filled` is right. */
  lemma UnsettledRowsAreRight(broker: Broker, journal: Journal, x: Trouble, t: Ticket)
    requires t in journal
    ensures var broker', st := x.BrokerAfter(broker, journal), x.JournalAfter(broker, journal)[t].status;
            && (st.Pending? ==> t in broker' && broker'[t].phase.Working?)
            && (st.Filled? ==> t in broker' && broker'[t].phase.Open?)
  {
    assert x.JournalAfter(broker, journal)[t]
           == RecoveredRow(journal[t], t, x.WorkingSeen(broker), x.Seen(broker), broker, x.lag);
  }

  /** Stores whose unsettled rows are right agree exactly when there is no orphan. */
  lemma InSyncIffNoOrphans(broker: Broker, journal: Journal)
    requires forall t :: t in journal ==>
               && (journal[t].status.Pending? ==> t in broker && broker[t].phase.Working?)
               && (journal[t].status.Filled? ==> t in broker && broker[t].phase.Open?)
    ensures InSync(broker, journal) <==> OrphansOf(broker, journal) == {}
  {
    if OrphansOf(broker, journal) == {} {
      forall t | t in broker && broker[t].phase == Open
        ensures t in journal && (journal[t].status == Filled || journal[t].status == Tp1Hit)
      {
        assert t !in OrphansOf(broker, journal);
      }
    }
  }

  /**
    After one run on a broker that stays quiet, whatever failed in it, the stores agree exactly when no
    orphan was stuck and, if the position read failed, every open position is journaled `tp1_hit`.
    An order given up while it still works counts as agreement here, until it fills: see `SafeLaterIff`.
  */
  lemma InSyncAfterIff(broker: Broker, journal: Journal, x: Trouble)
    requires Sound(broker)
    ensures InSync(x.BrokerAfter(broker, journal), x.JournalAfter(broker, journal))
            <==> LeftOpen(broker, journal, x) == {}
  {
    var broker', journal' := x.BrokerAfter(broker, journal), x.JournalAfter(broker, journal);
    NextOrphans(broker, journal, x);
    forall t | t in journal'
      ensures journal'[t].status.Pending? ==> t in broker' && broker'[t].phase.Working?
      ensures journal'[t].status.Filled? ==> t in broker' && broker'[t].phase.Open?
    {
      UnsettledRowsAreRight(broker, journal, x, t);
    }
    InSyncIffNoOrphans(broker', journal');
  }

  /** The next run whose reads succeed closes and writes nothing. */
  ghost predicate Quiet(broker: Broker, journal: Journal) {
    forall y: Trouble :: !y.positionsFail && !y.pendingFails ==>
      y.Orphans(broker, journal) == {} && y.JournalAfter(broker, journal) == journal
  }

  /** Calling recovery again is safe exactly when the first call left nothing open that it should not have. */
  lemma NextRunIsQuietIff(broker: Broker, journal: Journal, x: Trouble)
    requires Sound(broker)
    ensures Quiet(x.BrokerAfter(broker, journal), x.JournalAfter(broker, journal))
            <==> LeftOpen(broker, journal, x) == {}
  {
    var broker', journal' := x.BrokerAfter(broker, journal), x.JournalAfter(broker, journal);
    InSyncAfterIff(broker, journal, x);
    if InSync(broker', journal') {
      forall y: Trouble | !y.positionsFail && !y.pendingFails
        ensures y.Orphans(broker', journal') == {} && y.JournalAfter(broker', journal') == journal'
      {
        QuietIffInSync(broker', journal', y.lag);
      }
    }
    if Quiet(broker', journal') {
      var y := Trouble(false, false, {}, {});
      assert y.Orphans(broker', journal') == {} && y.JournalAfter(broker', journal') == journal';
      QuietIffInSync(broker', journal', y.lag);
    }
  }

  // ---- when the broker moves on before the next run ---------------------------------------------------

  /** The broker fills, closes and removes orders on its own; none is placed. */
  ghost predicate OnItsOwn(broker: Broker, now: Broker) {
    now.Keys == broker.Keys && OrderSafety.BrokerForward(broker, now)
  }

  /** Working orders that no row tracks after this run: it gave them up, or their row was terminal or missing. */
  function LeftWorking(broker: Broker, journal: Journal, x: Trouble): set<Ticket> {
    set t | t in WorkingOrders(broker)
        && !(t in journal && (journal[t].status.Tp1Hit? || (journal[t].status.Pending? && !x.pendingFails)))
  }

  lemma AfterWorking(broker: Broker, journal: Journal, x: Trouble, t: Ticket)
    requires t in broker && x.BrokerAfter(broker, journal)[t].phase.Working?
    ensures Orphan(x.JournalAfter(broker, journal), t) <==> t in LeftWorking(broker, journal, x)
  {
    if t in journal {
      assert x.JournalAfter(broker, journal)[t]
             == RecoveredRow(journal[t], t, x.WorkingSeen(broker), x.Seen(broker), broker, x.lag);
    }
  }

  /** The orphans of a later state of the broker: what was left open or left working and is open by then. */
  lemma LaterOrphans(broker: Broker, journal: Journal, x: Trouble, now: Broker)
    requires Sound(broker) && OnItsOwn(x.BrokerAfter(broker, journal), now)
    ensures OrphansOf(now, x.JournalAfter(broker, journal))
            == (LeftOpen(broker, journal, x) + LeftWorking(broker, journal, x)) * OpenTickets(now)
  {
    var broker', journal' := x.BrokerAfter(broker, journal), x.JournalAfter(broker, journal);
    NextOrphans(broker, journal, x);
    forall t | t in OpenTickets(now)
      ensures t in OrphansOf(now, journal')
              <==> t in LeftOpen(broker, journal, x) || t in LeftWorking(broker, journal, x)
    {
      assert t in broker'.Keys;
      assert OrderSafety.Forward(broker'[t], now[t]);
      if broker'[t].phase.Working? {
        AfterWorking(broker, journal, x, t);
        assert t !in OrphansOf(broker', journal');
      } else {
        assert t in OrphansOf(broker', journal') <==> Orphan(journal', t);
        assert broker[t].phase.Open?;
      }
    }
  }

  /** Whatever the broker does before it, the next run finds nothing to close. */
  ghost predicate SafeLater(broker: Broker, journal: Journal) {
    forall now :: OnItsOwn(broker, now) ==> OrphansOf(now, journal) == {}
  }

  lemma UntrackedFillIsOrphan(broker: Broker, journal: Journal, x: Trouble, t: Ticket) returns (now: Broker)
    requires Sound(broker) && t in LeftWorking(broker, journal, x)
    ensures OnItsOwn(x.BrokerAfter(broker, journal), now) && t in OrphansOf(now, x.JournalAfter(broker, journal))
  {
    var broker' := x.BrokerAfter(broker, journal);
    now := broker'[t := broker'[t].(phase := Open, open := broker'[t].placed)];
    LaterOrphans(broker, journal, x, now);
  }

  /**
    Calling recovery again later is safe, whatever the broker does in between, exactly when the first
    run left nothing open that it should not have and no working order untracked.
  */
  lemma SafeLaterIff(broker: Broker, journal: Journal, x: Trouble)
    requires Sound(broker)
    ensures SafeLater(x.BrokerAfter(broker, journal), x.JournalAfter(broker, journal))
            <==> LeftOpen(broker, journal, x) == {} && LeftWorking(broker, journal, x) == {}
  {
    var broker', journal' := x.BrokerAfter(broker, journal), x.JournalAfter(broker, journal);
    if SafeLater(broker', journal') {
      assert OnItsOwn(broker', broker');
      NextOrphans(broker, journal, x);
      forall t | t in LeftWorking(broker, journal, x) ensures false {
        var now := UntrackedFillIsOrphan(broker, journal, x, t);
      }
    } else {
      var now :| OnItsOwn(broker', now) && OrphansOf(now, journal') != {};
      LaterOrphans(broker, journal, x, now);
    }
  }

  /** Otherwise the next run with working reads and closes closes exactly those positions at market. */
  lemma LaterRunClosesThem(broker: Broker, journal: Journal, x: Trouble, now: Broker, y: Trouble, t: Ticket)
    requires Sound(broker) && Sound(now) && OnItsOwn(x.BrokerAfter(broker, journal), now)
    requires !y.positionsFail && y.stuck == {} && t in now
    ensures y.BrokerAfter(now, x.JournalAfter(broker, journal))[t]
            == if t in LeftOpen(broker, journal, x) + LeftWorking(broker, journal, x) && now[t].phase.Open?
               then Reduce(now[t], now[t].open, false)
               else now[t]
  {
    LaterOrphans(broker, journal, x, now);
    var journal' := x.JournalAfter(broker, journal);
    assert t in y.Orphans(now, journal') - y.stuck <==> t in OrphansOf(now, journal');
  }
}

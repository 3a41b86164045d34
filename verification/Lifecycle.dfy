/** The lifecycle poll: which steps it takes for which order, and what it reports. */
module Lifecycle {
  import opened Foundations
  import opened OrderProtocol
  import opened OrderSafety
  import opened OrderTheorems
  import opened Desks
  import Simulator

  // ---- one order ------------------------------------------------------------------------------------

  /** The prices of a journaled order. */
  datatype Terms = Terms(direction: Simulator.Direction, entry: real, stop: real, tp1: real, runner: real)

  datatype Quote = Quote(bid: real, ask: real)

  /**
    What the outside world answers while one order is handled: the quote, if the symbol could be
    read; whether the partial close takes effect and is acknowledged; the exit price in the deal
    history, if it is there yet; whether the journal write succeeds.
  */
  datatype Answers = Answers(quote: Option<Quote>, effect: bool, ack: bool, exit: Option<real>, written: bool)

  /** The price lies within half a percent of the entry from the runner target. */
  predicate NearRunner(o: Terms, price: real) {
    Abs(price - o.runner) <= 0.005 * Abs(o.entry)
  }

  /** The exit is a full win exactly near the runner, and counts as stopped everywhere else. */
  lemma ExitIff(o: Terms, price: real)
    ensures ClassifyExit(o, price) == if NearRunner(o, price) then TpRunnerHit else SlHit
  {
  }

  /** Exits at the runner, at the stop and at the entry, for a runner more than half a percent away from both. */
  lemma ExitAtPlannedPrices(o: Terms)
    requires Abs(o.stop - o.runner) > 0.005 * Abs(o.entry) && Abs(o.entry - o.runner) > 0.005 * Abs(o.entry)
    ensures NearRunner(o, o.runner) && !NearRunner(o, o.stop) && !NearRunner(o, o.entry)
  {
  }

  /** `_tp1_hit`: the side of the book at which the partial exit could be realised. */
  predicate Tp1Reached(o: Terms, q: Quote) {
    if o.direction.Long? then q.bid >= o.tp1 else q.ask <= o.tp1
  }

  /** `_classify_exit`; every exit away from the runner counts as the stop. */
  function ClassifyExit(o: Terms, price: real): Status {
    var tolerance := Abs(o.entry) * 0.001;
    if Abs(price - o.runner) <= tolerance * 5.0 then TpRunnerHit
    else if Abs(price - o.stop) <= tolerance * 5.0 then SlHit
    else if Abs(price - o.entry) <= tolerance * 5.0 then SlHit
    else SlHit
  }

  /** The position vanished: nothing while the history is missing, else the classified exit. */
  predicate Reconciled(o: Terms, a: Answers, es: seq<Event>) {
    || es == [LifeSkip]
    || (a.exit.Some?
        && es == [LifeHistory(if NearRunner(o, a.exit.value) then TpRunnerHit else SlHit), LifeExit(a.written)])
  }

  /** The steps the poll may take for one order, by journal status, snapshot and quote. */
  predicate Handled(o: Terms, positions: map<Ticket, real>, p: Polled, a: Answers, es: seq<Event>) {
    match p.row.status
    case Pending => es == [if p.ticket in positions then LifeFilled(a.written) else LifeSkip]
    case Filled =>
      if p.ticket !in positions then Reconciled(o, a, es)
      else if positions[p.ticket] >= p.row.volume - 0.000000001 && a.quote.Some?
              && (if o.direction.Long? then a.quote.value.bid >= o.tp1 else a.quote.value.ask <= o.tp1) then
        es == [LifePartial(a.effect, a.ack)]
            || (a.effect && a.ack && es == [LifePartial(true, true), LifeTp1(a.written)])
      else es == [LifeSkip]
    case Tp1Hit => if p.ticket in positions then es == [LifeSkip] else Reconciled(o, a, es)
    case _ => false
  }

  /** `LifecycleReport`. */
  datatype Report = Report(filled: nat, tp1Hit: nat, tpRunnerHit: nat, slHit: nat, errors: set<Ticket>)

  /** The report after the steps `es` for `t`: one count per successful write, an error per failed one. */
  function Counted(r: Report, t: Ticket, es: seq<Event>): Report {
    if es == [] then r
    else
      match es[|es| - 1]
      case LifeFilled(ok) => if ok then r.(filled := r.filled + 1) else r.(errors := r.errors + {t})
      case LifeTp1(ok) => if ok then r.(tp1Hit := r.tp1Hit + 1) else r.(errors := r.errors + {t})
      case LifeExit(ok) =>
        if !ok then r.(errors := r.errors + {t})
        else if |es| > 1 && es[|es| - 2] == LifeHistory(TpRunnerHit) then r.(tpRunnerHit := r.tpRunnerHit + 1)
        else r.(slHit := r.slHit + 1)
      case _ => r
  }

  /** The status the steps `es` wrote successfully, if any. */
  function Written(es: seq<Event>): Option<Status> {
    if es == [] then None
    else
      match es[|es| - 1]
      case LifeFilled(ok) => if ok then Some(Status.Filled) else None
      case LifeTp1(ok) => if ok then Some(Status.Tp1Hit) else None
      case LifeExit(ok) => if ok && |es| > 1 && es[|es| - 2].LifeHistory? then Some(es[|es| - 2].exit) else None
      case _ => None
  }

  /** The row of `t` carries the status the steps `es` wrote, and the poll is done with it. */
  ghost predicate Noted(s: State, t: Ticket, es: seq<Event>) {
    Written(es).Some? ==> Stands(s, t) && s.journal[t].status == Written(es).value
  }

  /** The rows handled so far are as the poll wrote them. */
  ghost predicate AllNoted(s: State, orders: seq<Polled>, ess: seq<seq<Event>>) {
    |ess| <= |orders| && forall i :: 0 <= i < |ess| ==> Noted(s, orders[i].ticket, ess[i])
  }

  lemma AllNotedGrows(c: Config, s: State, s': State, orders: seq<Polled>, ess: seq<seq<Event>>, es: seq<Event>)
    requires Inv(c, s) && Settles(c, s, s') && AllNoted(s, orders, ess) && |ess| < |orders|
    requires Noted(s', orders[|ess|].ticket, es)
    ensures Inv(c, s') && AllNoted(s', orders, ess + [es])
  {
  }

  lemma AllNotedStays(c: Config, s: State, s': State, orders: seq<Polled>, ess: seq<seq<Event>>)
    requires Inv(c, s) && Settles(c, s, s') && AllNoted(s, orders, ess)
    ensures AllNoted(s', orders, ess)
  {
  }

  /** What happens meanwhile and the poll's own steps leave the rows it is done with alone. */
  twostate predicate Keeps(desk: Desk)
    reads desk
  {
    Settles(desk.c, old(desk.s), desk.s)
  }

  /** A vanished position whose exit is on record and shown is journaled now, not at a later poll. */
  predicate Prompt(s: State, positions: map<Ticket, real>, p: Polled, a: Answers, es: seq<Event>) {
    !p.row.status.Pending? && p.ticket !in positions && a.exit.Some? && HasExit(s, p.ticket) ==> |es| == 2
  }

  ghost predicate AllPrompt(s: State, answers: Ticket -> Answers, positions: map<Ticket, real>, orders: seq<Polled>,
                            ess: seq<seq<Event>>) {
    && |ess| <= |orders|
    && forall i :: 0 <= i < |ess| ==> Prompt(s, positions, orders[i], answers(orders[i].ticket), ess[i])
  }

  lemma AllPromptGrows(s: State, here: State, answers: Ticket -> Answers, positions: map<Ticket, real>,
                       orders: seq<Polled>, ess: seq<seq<Event>>, es: seq<Event>)
    requires AllPrompt(s, answers, positions, orders, ess) && |ess| < |orders| && Advances(s, here)
    requires Prompt(here, positions, orders[|ess|], answers(orders[|ess|].ticket), es)
    ensures AllPrompt(s, answers, positions, orders, ess + [es])
  {
  }

  /** The poll stands at the first order of `todo`. */
  ghost predicate At(desk: Desk, positions: map<Ticket, real>, todo: seq<Polled>)
    reads desk
  {
    desk.Valid() && desk.s.mode.Up? && desk.s.life == Running(positions, todo, Fresh)
  }

  ghost function Mine(desk: Desk): seq<Event>
    reads desk
  {
    OwnEvents(Job.Lifecycle, desk.trace)
  }

  /** The poll moved from `todo` to its tail with the steps `es`, and counted them. */
  twostate predicate Moved(desk: Desk, positions: map<Ticket, real>, todo: seq<Polled>, report: Report, after: Report,
                           es: seq<Event>)
    requires todo != []
    reads desk
  {
    && At(desk, positions, todo[1..]) && desk.start == old(desk.start) && Mine(desk) == old(Mine(desk)) + es
    && after == Counted(report, todo[0].ticket, es)
  }

  method Skip(desk: Desk, positions: map<Ticket, real>, todo: seq<Polled>, report: Report)
    returns (ghost es: seq<Event>)
    requires At(desk, positions, todo) && todo != [] && !(todo[0].row.status.Pending? && todo[0].ticket in positions)
    modifies desk
    ensures Moved(desk, positions, todo, report, report, es) && es == [LifeSkip] && Keeps(desk)
  {
    desk.Interfere(Job.Lifecycle);
    ghost var before := desk.s;
    desk.Act(Job.Lifecycle, LifeSkip);
    StepSettles(desk.c, before, LifeSkip, desk.s);
    SettlesTrans(desk.c, old(desk.s), before, desk.s);
    es := [LifeSkip];
  }

  /** The journal write that ends the handling of the order at the head, after whatever happens in between. */
  method WriteStatus(desk: Desk, positions: map<Ticket, real>, todo: seq<Polled>, e: Event)
    requires desk.Valid() && desk.s.mode.Up? && todo != []
    requires || (e.LifeFilled? && desk.s.life == Running(positions, todo, Fresh) && todo[0].row.status.Pending?
                 && todo[0].ticket in positions)
             || (e.LifeTp1? && desk.s.life == Running(positions, todo, PartialAcked))
             || (e.LifeExit? && desk.s.life.Running? && desk.s.life.step.HistoryRead?
                 && desk.s.life == Running(positions, todo, desk.s.life.step))
    modifies desk
    ensures At(desk, positions, todo[1..]) && desk.start == old(desk.start) && Mine(desk) == old(Mine(desk)) + [e]
    ensures Keeps(desk) && (old(Inv(desk.c, desk.s)) ==> Noted(desk.s, todo[0].ticket, WithHistory(old(desk.s), e)))
  {
    desk.Interfere(Job.Lifecycle);
    ghost var before := desk.s;
    desk.Act(Job.Lifecycle, e);
    StepSettles(desk.c, before, e, desk.s);
    SettlesTrans(desk.c, old(desk.s), before, desk.s);
    if old(Inv(desk.c, desk.s)) {
      WriteIsNoted(desk.c, before, e, desk.s);
    }
  }

  /** The write `e`, after the history step that chose its status, if one did. */
  ghost function WithHistory(s: State, e: Event): seq<Event> {
    if s.life.Running? && s.life.step.HistoryRead? then [LifeHistory(s.life.step.exit), e] else [e]
  }

  lemma WriteIsNoted(c: Config, s: State, e: Event, s': State)
    requires Inv(c, s) && s.life.Running? && s.life.todo != [] && s' == Step(c, s, e)
    requires || (e.LifeFilled? && s.life.step.Fresh? && s.life.todo[0].row.status.Pending?
                 && s.life.todo[0].ticket in s.life.positions)
             || (e.LifeTp1? && s.life.step.PartialAcked?)
             || (e.LifeExit? && s.life.step.HistoryRead?)
    ensures Noted(s', s.life.todo[0].ticket, WithHistory(s, e))
  {
    var p := s.life.todo[0];
    assert PolledOk(s.broker, s.journal, p);
    assert HeadOk(s.broker, s.life.positions, p, s.life.step);
  }

  /** `_handle_pending`. */
  method HandlePending(desk: Desk, o: Terms, positions: map<Ticket, real>, todo: seq<Polled>, a: Answers,
                       report: Report)
    returns (after: Report, ghost es: seq<Event>)
    requires At(desk, positions, todo) && todo != [] && todo[0].row.status.Pending?
    modifies desk
    ensures Moved(desk, positions, todo, report, after, es) && Handled(o, positions, todo[0], a, es)
    ensures Keeps(desk) && (old(Inv(desk.c, desk.s)) ==> Noted(desk.s, todo[0].ticket, es))
  {
    if todo[0].ticket !in positions {
      es := Skip(desk, positions, todo, report);
      return report, es;
    }
    WriteStatus(desk, positions, todo, LifeFilled(a.written));
    es := [LifeFilled(a.written)];
    after := if a.written then report.(filled := report.filled + 1)
        else report.(errors := report.errors + {todo[0].ticket});
  }

  /** The deal history shows an exit only if some volume was closed, and may lag behind. */
  method ReadHistory(desk: Desk, o: Terms, positions: map<Ticket, real>, todo: seq<Polled>, a: Answers)
    returns (exit: Option<Status>)
    requires At(desk, positions, todo) && todo != [] && todo[0].ticket !in positions
    requires todo[0].row.status.Filled? || todo[0].row.status.Tp1Hit?
    modifies desk
    ensures desk.start == old(desk.start)
    ensures exit.None? ==> At(desk, positions, todo) && Mine(desk) == old(Mine(desk))
    ensures exit.Some? ==> a.exit.Some?
                           && exit.value == (if NearRunner(o, a.exit.value) then TpRunnerHit else SlHit)
                           && desk.Valid() && desk.s.mode.Up?
                           && desk.s.life == Running(positions, todo, HistoryRead(exit.value))
                           && Mine(desk) == old(Mine(desk)) + [LifeHistory(exit.value)]
    ensures a.exit.Some? && old(HasExit(desk.s, todo[0].ticket)) ==> exit.Some?
    ensures Keeps(desk) && (old(Inv(desk.c, desk.s)) ==> Inv(desk.c, desk.s))
  {
    desk.Interfere(Job.Lifecycle);
    if a.exit.None? || !HasExit(desk.s, todo[0].ticket) {
      return None;
    }
    ghost var before := desk.s;
    ExitIff(o, a.exit.value);
    var st := ClassifyExit(o, a.exit.value);
    SeeExit(desk, positions, todo, st);
    SettlesTrans(desk.c, old(desk.s), before, desk.s);
    exit := Some(st);
  }

  /** The history shows the exit `st`. */
  method SeeExit(desk: Desk, positions: map<Ticket, real>, todo: seq<Polled>, st: Status)
    requires At(desk, positions, todo) && todo != [] && todo[0].ticket !in positions
    requires todo[0].row.status.Filled? || todo[0].row.status.Tp1Hit?
    requires HasExit(desk.s, todo[0].ticket) && (st.TpRunnerHit? || st.SlHit?)
    modifies desk
    ensures desk.Valid() && desk.start == old(desk.start) && desk.s.mode.Up?
    ensures desk.s.life == Running(positions, todo, HistoryRead(st))
            && Mine(desk) == old(Mine(desk)) + [LifeHistory(st)]
    ensures Keeps(desk)
  {
    ghost var before := desk.s;
    desk.Act(Job.Lifecycle, LifeHistory(st));
    StepSettles(desk.c, before, LifeHistory(st), desk.s);
  }

  /** `_reconcile_closed_position`: an exit on record at the broker and shown by the history is journaled now. */
  method ReconcileClosedPosition(desk: Desk, o: Terms, positions: map<Ticket, real>, todo: seq<Polled>, a: Answers,
                                 report: Report)
    returns (after: Report, ghost es: seq<Event>)
    requires At(desk, positions, todo) && todo != [] && todo[0].ticket !in positions
    requires todo[0].row.status.Filled? || todo[0].row.status.Tp1Hit?
    modifies desk
    ensures Moved(desk, positions, todo, report, after, es) && Reconciled(o, a, es)
    ensures Keeps(desk) && (old(Inv(desk.c, desk.s)) ==> Noted(desk.s, todo[0].ticket, es))
    ensures a.exit.Some? && old(HasExit(desk.s, todo[0].ticket)) ==> |es| == 2
  {
    var exit := ReadHistory(desk, o, positions, todo, a);
    ghost var read := desk.s;
    if exit.None? {
      es := Skip(desk, positions, todo, report);
      SettlesTrans(desk.c, old(desk.s), read, desk.s);
      return report, es;
    }
    after := JournalExit(desk, positions, todo, exit.value, a, report);
    SettlesTrans(desk.c, old(desk.s), read, desk.s);
    es := [LifeHistory(exit.value), LifeExit(a.written)];
  }

  /** The exit goes into the journal and the report. */
  method JournalExit(desk: Desk, positions: map<Ticket, real>, todo: seq<Polled>, exit: Status, a: Answers,
                     report: Report)
    returns (after: Report)
    requires desk.Valid() && desk.s.mode.Up? && todo != [] && desk.s.life == Running(positions, todo, HistoryRead(exit))
    modifies desk
    ensures At(desk, positions, todo[1..]) && desk.start == old(desk.start)
    ensures Mine(desk) == old(Mine(desk)) + [LifeExit(a.written)]
    ensures after == Counted(report, todo[0].ticket, [LifeHistory(exit), LifeExit(a.written)])
    ensures Keeps(desk)
    ensures old(Inv(desk.c, desk.s)) ==> Noted(desk.s, todo[0].ticket, [LifeHistory(exit), LifeExit(a.written)])
  {
    WriteStatus(desk, positions, todo, LifeExit(a.written));
    after := if !a.written then report.(errors := report.errors + {todo[0].ticket})
             else if exit.TpRunnerHit? then report.(tpRunnerHit := report.tpRunnerHit + 1)
             else report.(slHit := report.slHit + 1);
  }

  /** `close_partial_position`: it may take effect or not, and be acknowledged or not. */
  method ClosePartial(desk: Desk, positions: map<Ticket, real>, todo: seq<Polled>, a: Answers) returns (acked: bool)
    requires At(desk, positions, todo) && todo != [] && todo[0].row.status.Filled? && FullVolume(positions, todo[0])
    modifies desk
    ensures desk.start == old(desk.start) && Mine(desk) == old(Mine(desk)) + [LifePartial(a.effect, a.ack)]
    ensures acked ==>
              a.effect && a.ack && desk.Valid() && desk.s.mode.Up?
              && desk.s.life == Running(positions, todo, PartialAcked)
    ensures !acked ==> At(desk, positions, todo[1..])
    ensures Keeps(desk)
  {
    desk.Interfere(Job.Lifecycle);
    ghost var before := desk.s;
    desk.Act(Job.Lifecycle, LifePartial(a.effect, a.ack));
    StepSettles(desk.c, before, LifePartial(a.effect, a.ack), desk.s);
    SettlesTrans(desk.c, old(desk.s), before, desk.s);
    acked := desk.s.life.step.PartialAcked?;
  }

  /** `_handle_filled`. */
  method HandleFilled(desk: Desk, o: Terms, positions: map<Ticket, real>, todo: seq<Polled>, a: Answers, report: Report)
    returns (after: Report, ghost es: seq<Event>)
    requires At(desk, positions, todo) && todo != [] && todo[0].row.status.Filled?
    modifies desk
    ensures Moved(desk, positions, todo, report, after, es) && Handled(o, positions, todo[0], a, es)
    ensures Keeps(desk) && (old(Inv(desk.c, desk.s)) ==> Noted(desk.s, todo[0].ticket, es))
    ensures todo[0].ticket !in positions && a.exit.Some? && old(HasExit(desk.s, todo[0].ticket)) ==> |es| == 2
  {
    if todo[0].ticket !in positions {
      after, es := ReconcileClosedPosition(desk, o, positions, todo, a, report);
    } else if positions[todo[0].ticket] < todo[0].row.volume - VOLUME_EPSILON || a.quote.None?
        || !Tp1Reached(o, a.quote.value) {
      es := Skip(desk, positions, todo, report);
      after := report;
    } else {
      after, es := TakePartial(desk, positions, todo, a, report);
    }
  }

  /** The position has full volume and the quote reached TP1: close the share, then journal it if that worked. */
  method TakePartial(desk: Desk, positions: map<Ticket, real>, todo: seq<Polled>, a: Answers, report: Report)
    returns (after: Report, ghost es: seq<Event>)
    requires At(desk, positions, todo) && todo != [] && todo[0].row.status.Filled? && FullVolume(positions, todo[0])
    modifies desk
    ensures Moved(desk, positions, todo, report, after, es)
    ensures es == [LifePartial(a.effect, a.ack)]
            || (a.effect && a.ack && es == [LifePartial(true, true), LifeTp1(a.written)])
    ensures Keeps(desk) && (old(Inv(desk.c, desk.s)) ==> Noted(desk.s, todo[0].ticket, es))
  {
    var acked := ClosePartial(desk, positions, todo, a);
    if !acked {
      return report, [LifePartial(a.effect, a.ack)];
    }
    ghost var closed := desk.s;
    WriteStatus(desk, positions, todo, LifeTp1(a.written));
    SettlesTrans(desk.c, old(desk.s), closed, desk.s);
    es := [LifePartial(a.effect, a.ack), LifeTp1(a.written)];
    after := if a.written then report.(tp1Hit := report.tp1Hit + 1)
        else report.(errors := report.errors + {todo[0].ticket});
  }

  /** One iteration of the polling loop. */
  method Handle(desk: Desk, o: Terms, positions: map<Ticket, real>, todo: seq<Polled>, a: Answers, report: Report)
    returns (after: Report, ghost es: seq<Event>)
    requires At(desk, positions, todo) && todo != [] && todo[0].row.status in ACTIVE
    modifies desk
    ensures Moved(desk, positions, todo, report, after, es) && Handled(o, positions, todo[0], a, es)
    ensures Keeps(desk) && (old(Inv(desk.c, desk.s)) ==> Noted(desk.s, todo[0].ticket, es))
    ensures Prompt(old(desk.s), positions, todo[0], a, es)
  {
    if todo[0].row.status.Pending? {
      after, es := HandlePending(desk, o, positions, todo, a, report);
    } else if todo[0].row.status.Filled? {
      after, es := HandleFilled(desk, o, positions, todo, a, report);
    } else if todo[0].ticket !in positions {
      after, es := ReconcileClosedPosition(desk, o, positions, todo, a, report);
    } else {
      es := Skip(desk, positions, todo, report);
      after := report;
    }
  }

  // ---- the poll -------------------------------------------------------------------------------------

  function Flat(ess: seq<seq<Event>>): seq<Event> {
    if ess == [] then [] else Flat(ess[..|ess| - 1]) + ess[|ess| - 1]
  }

  function Tickets(orders: seq<Polled>): (r: seq<Ticket>)
    ensures |r| == |orders| && forall i :: 0 <= i < |r| ==> r[i] == orders[i].ticket
  {
    seq(|orders|, i requires 0 <= i < |orders| => orders[i].ticket)
  }

  /** The report of a poll that took the steps `ess[i]` for `orders[i]`. */
  function ReportOf(orders: seq<Polled>, ess: seq<seq<Event>>): Report
    requires |orders| == |ess|
  {
    if ess == [] then Report(0, 0, 0, 0, {})
    else Counted(ReportOf(orders[..|ess| - 1], ess[..|ess| - 1]), orders[|ess| - 1].ticket, ess[|ess| - 1])
  }

  /** Every polled order was handled as its own row, the one snapshot and its answers demand. */
  ghost predicate AllHandled(terms: Ticket -> Terms, answers: Ticket -> Answers, positions: map<Ticket, real>,
                             orders: seq<Polled>, ess: seq<seq<Event>>) {
    && |ess| <= |orders|
    && forall i ::
          0 <= i < |ess| ==> Handled(terms(orders[i].ticket), positions, orders[i], answers(orders[i].ticket), ess[i])
  }

  lemma AllHandledGrows(terms: Ticket -> Terms, answers: Ticket -> Answers, positions: map<Ticket, real>,
                        orders: seq<Polled>, ess: seq<seq<Event>>, es: seq<Event>)
    requires AllHandled(terms, answers, positions, orders, ess) && |ess| < |orders|
    requires var p := orders[|ess|]; Handled(terms(p.ticket), positions, p, answers(p.ticket), es)
    ensures AllHandled(terms, answers, positions, orders, ess + [es])
  {
  }

  /** `list_open_orders_with_status`: every active row, in some order. */
  method ReadActive(desk: Desk, positions: map<Ticket, real>) returns (orders: seq<Polled>)
    requires desk.Valid() && desk.s.mode.Up? && desk.s.life == Snapped(positions)
    modifies desk
    ensures At(desk, positions, orders) && desk.start == old(desk.start)
    ensures Mine(desk) == old(Mine(desk)) + [LifeRead(Tickets(orders))]
    ensures forall i :: 0 <= i < |orders| ==> orders[i].row.status in ACTIVE
    ensures old(Inv(desk.c, desk.s)) ==> Inv(desk.c, desk.s)
    ensures Advances(old(desk.s), desk.s)
  {
    desk.Interfere(Job.Lifecycle);
    var journal := desk.s.journal;
    var active := set t | t in journal && journal[t].status in ACTIVE;
    var order := Enumerate(active);
    assert Lists(journal, order, ACTIVE) by {
      assert forall t :: t in active <==> t in journal && journal[t].status in ACTIVE;
    }
    orders := Poll(journal, order);
    assert Tickets(orders) == order;
    forall i | 0 <= i < |orders| ensures orders[i].row.status in ACTIVE {
      assert order[i] in order;
    }
    ghost var before := desk.s;
    desk.Act(Job.Lifecycle, LifeRead(order));
    if old(Inv(desk.c, desk.s)) {
      StepKeeps(desk.c, before, LifeRead(order), desk.s);
    }
  }

  lemma FlatStep(before: seq<Event>, ess: seq<seq<Event>>, es: seq<Event>)
    ensures before + Flat(ess) + es == before + Flat(ess + [es])
  {
    assert (ess + [es])[..|ess|] == ess;
  }

  lemma ReportStep(orders: seq<Polled>, ess: seq<seq<Event>>, es: seq<Event>)
    requires |ess| < |orders|
    ensures ReportOf(orders[..|ess| + 1], ess + [es])
            == Counted(ReportOf(orders[..|ess|], ess), orders[|ess|].ticket, es)
  {
    assert (ess + [es])[..|ess|] == ess && orders[..|ess| + 1][..|ess|] == orders[..|ess|];
  }

  /** The loop over the polled orders. */
  method HandleAll(desk: Desk, terms: Ticket -> Terms, answers: Ticket -> Answers, positions: map<Ticket, real>,
                   orders: seq<Polled>)
    returns (report: Report, ghost ess: seq<seq<Event>>)
    requires At(desk, positions, orders) && forall i :: 0 <= i < |orders| ==> orders[i].row.status in ACTIVE
    modifies desk
    ensures At(desk, positions, []) && desk.start == old(desk.start) && Mine(desk) == old(Mine(desk)) + Flat(ess)
    ensures AllHandled(terms, answers, positions, orders, ess) && |ess| == |orders| && report == ReportOf(orders, ess)
    ensures old(Inv(desk.c, desk.s)) ==> Inv(desk.c, desk.s) && AllNoted(desk.s, orders, ess)
    ensures AllPrompt(old(desk.s), answers, positions, orders, ess)
  {
    report, ess := Report(0, 0, 0, 0, {}), [];
    ghost var before := Mine(desk);
    for i := 0 to |orders|
      invariant At(desk, positions, orders[i..]) && desk.start == old(desk.start) && Mine(desk) == before + Flat(ess)
      invariant |ess| == i && AllHandled(terms, answers, positions, orders, ess) && report == ReportOf(orders[..i], ess)
      invariant old(Inv(desk.c, desk.s)) ==> Inv(desk.c, desk.s) && AllNoted(desk.s, orders, ess)
      invariant Advances(old(desk.s), desk.s) && AllPrompt(old(desk.s), answers, positions, orders, ess)
    {
      ghost var here := desk.s;
      assert orders[i..][0] == orders[i] && orders[i..][1..] == orders[i + 1..];
      ghost var es;
      report, es := Handle(desk, terms(orders[i].ticket), positions, orders[i..], answers(orders[i].ticket), report);
      if old(Inv(desk.c, desk.s)) {
        AllNotedGrows(desk.c, here, desk.s, orders, ess, es);
      }
      AllHandledGrows(terms, answers, positions, orders, ess, es);
      AllPromptGrows(old(desk.s), here, answers, positions, orders, ess, es);
      FlatStep(before, ess, es);
      ReportStep(orders, ess, es);
      ess := ess + [es];
    }
    assert orders[..|orders|] == orders;
  }

  // ---- what a poll leaves behind ----------------------------------------------------------------------

  predicate Says(s: State, t: Ticket, st: Status) { t in s.journal && s.journal[t].status == st }

  /**
    The row after the poll, unless its journal write failed: `filled` when a pending order's position
    was there, and the exit when the position of a filled or half-closed order was gone and the history
    showed how.
  */
  ghost predicate RowLeft(before: State, after: State, o: Terms, positions: map<Ticket, real>, p: Polled, a: Answers) {
    var t := p.ticket;
    a.written ==>
      && (p.row.status.Pending? && t in positions ==> Says(after, t, Status.Filled))
      && (!p.row.status.Pending? && t !in positions && a.exit.Some? && HasExit(before, t) ==>
           Says(after, t, if Abs(a.exit.value - o.runner) <= 0.005 * Abs(o.entry) then TpRunnerHit else SlHit))
  }

  ghost predicate AllLeft(before: State, after: State, terms: Ticket -> Terms, answers: Ticket -> Answers,
                          positions: map<Ticket, real>, orders: seq<Polled>) {
    forall i :: 0 <= i < |orders| ==>
      RowLeft(before, after, terms(orders[i].ticket), positions, orders[i], answers(orders[i].ticket))
  }

  lemma RowIsLeft(before: State, after: State, o: Terms, positions: map<Ticket, real>, p: Polled, a: Answers,
                  es: seq<Event>)
    requires Handled(o, positions, p, a, es) && Prompt(before, positions, p, a, es) && Noted(after, p.ticket, es)
    ensures RowLeft(before, after, o, positions, p, a)
  {
  }

  lemma AllAreLeft(before: State, after: State, terms: Ticket -> Terms, answers: Ticket -> Answers,
                   positions: map<Ticket, real>, orders: seq<Polled>, ess: seq<seq<Event>>)
    requires AllHandled(terms, answers, positions, orders, ess) && AllPrompt(before, answers, positions, orders, ess)
    requires AllNoted(after, orders, ess) && |ess| == |orders|
    ensures AllLeft(before, after, terms, answers, positions, orders)
  {
    forall i | 0 <= i < |orders|
      ensures RowLeft(before, after, terms(orders[i].ticket), positions, orders[i], answers(orders[i].ticket))
    {
      var t := orders[i].ticket;
      RowIsLeft(before, after, terms(t), positions, orders[i], answers(t), ess[i]);
    }
  }

  // ---- what the report counts ---------------------------------------------------------------------------

  function Where(f: nat -> bool, n: nat): set<nat> {
    set i: nat | i < n && f(i)
  }

  lemma WhereGrows(f: nat -> bool, g: nat -> bool, n: nat)
    requires forall i: nat :: i < n ==> f(i) == g(i)
    ensures |Where(f, n + 1)| == |Where(g, n)| + if f(n) then 1 else 0
  {
    assert Where(f, n + 1) == Where(g, n) + if f(n) then {n} else {};
  }

  /** The positions at which the poll took the steps `es`. */
  ghost function Took(ess: seq<seq<Event>>, es: seq<Event>): (nat -> bool) {
    (i: nat) => i < |ess| && ess[i] == es
  }

  lemma TookGrows(ess: seq<seq<Event>>, es: seq<Event>)
    requires ess != []
    ensures |Where(Took(ess, es), |ess|)|
            == |Where(Took(ess[..|ess| - 1], es), |ess| - 1)| + if ess[|ess| - 1] == es then 1 else 0
  {
    WhereGrows(Took(ess, es), Took(ess[..|ess| - 1], es), |ess| - 1);
  }

  /** The poll's last step for the order was a write that failed. */
  predicate WriteFailed(es: seq<Event>) {
    es != [] && (es[|es| - 1] == LifeFilled(false) || es[|es| - 1] == LifeTp1(false) || es[|es| - 1] == LifeExit(false))
  }

  /** The tickets whose journal write failed. */
  ghost predicate Names(errors: set<Ticket>, orders: seq<Polled>, ess: seq<seq<Event>>) {
    && |ess| <= |orders|
    && forall t :: t in errors <==> exists i :: 0 <= i < |ess| && WriteFailed(ess[i]) && orders[i].ticket == t
  }

  /**
    The report counts the rows journaled `filled`, `tp1_hit`, `tp_runner_hit` and `sl_hit`, each kind
    for itself, and names exactly the tickets whose write failed.
  */
  ghost predicate Tallies(r: Report, orders: seq<Polled>, ess: seq<seq<Event>>) {
    && |ess| <= |orders|
    && r.filled == |Where(Took(ess, [LifeFilled(true)]), |ess|)|
    && r.tp1Hit == |Where(Took(ess, [LifePartial(true, true), LifeTp1(true)]), |ess|)|
    && r.tpRunnerHit == |Where(Took(ess, [LifeHistory(TpRunnerHit), LifeExit(true)]), |ess|)|
    && r.slHit == |Where(Took(ess, [LifeHistory(SlHit), LifeExit(true)]), |ess|)|
    && Names(r.errors, orders, ess)
  }

  lemma CountedAdds(r: Report, o: Terms, positions: map<Ticket, real>, p: Polled, a: Answers, es: seq<Event>)
    requires Handled(o, positions, p, a, es)
    ensures var r' := Counted(r, p.ticket, es);
            && r'.filled == r.filled + (if es == [LifeFilled(true)] then 1 else 0)
            && r'.tp1Hit == r.tp1Hit + (if es == [LifePartial(true, true), LifeTp1(true)] then 1 else 0)
            && r'.tpRunnerHit == r.tpRunnerHit + (if es == [LifeHistory(TpRunnerHit), LifeExit(true)] then 1 else 0)
            && r'.slHit == r.slHit + (if es == [LifeHistory(SlHit), LifeExit(true)] then 1 else 0)
            && r'.errors == r.errors + (if WriteFailed(es) then {p.ticket} else {})
  {
  }

  lemma NamesStep(errors: set<Ticket>, orders: seq<Polled>, ess: seq<seq<Event>>)
    requires ess != [] && |ess| <= |orders| && Names(errors, orders, ess[..|ess| - 1])
    ensures var n := |ess| - 1;
            Names(errors + (if WriteFailed(ess[n]) then {orders[n].ticket} else {}), orders, ess)
  {
    var n := |ess| - 1;
    var init := ess[..n];
    assert forall i :: 0 <= i < n ==> init[i] == ess[i];
  }

  lemma TalliesStep(r: Report, orders: seq<Polled>, ess: seq<seq<Event>>, o: Terms, positions: map<Ticket, real>,
                    a: Answers)
    requires ess != [] && |ess| <= |orders| && Tallies(r, orders, ess[..|ess| - 1])
    requires Handled(o, positions, orders[|ess| - 1], a, ess[|ess| - 1])
    ensures Tallies(Counted(r, orders[|ess| - 1].ticket, ess[|ess| - 1]), orders, ess)
  {
    CountedAdds(r, o, positions, orders[|ess| - 1], a, ess[|ess| - 1]);
    TookGrows(ess, [LifeFilled(true)]);
    TookGrows(ess, [LifePartial(true, true), LifeTp1(true)]);
    TookGrows(ess, [LifeHistory(TpRunnerHit), LifeExit(true)]);
    TookGrows(ess, [LifeHistory(SlHit), LifeExit(true)]);
    NamesStep(r.errors, orders, ess);
  }

  lemma {:induction false} ReportTallies(terms: Ticket -> Terms, answers: Ticket -> Answers,
                                         positions: map<Ticket, real>, orders: seq<Polled>, ess: seq<seq<Event>>)
    requires AllHandled(terms, answers, positions, orders, ess) && |ess| == |orders|
    ensures Tallies(ReportOf(orders, ess), orders, ess)
    decreases |ess|
  {
    if ess != [] {
      var n := |ess| - 1;
      var t := orders[n].ticket;
      ReportTallies(terms, answers, positions, orders[..n], ess[..n]);
      assert Tallies(ReportOf(orders[..n], ess[..n]), orders, ess[..n]);
      TalliesStep(ReportOf(orders[..n], ess[..n]), orders, ess, terms(t), positions, answers(t));
    }
  }

  /** One journal read, then the steps for each order, then the end. */
  function RowSteps(orders: seq<Polled>, ess: seq<seq<Event>>): seq<Event> {
    [LifeRead(Tickets(orders))] + Flat(ess) + [LifeEnd]
  }

  /** How a poll can end: positions unreadable, journal unreadable (raised), or every row handled. */
  datatype Ending = NoPositions | NoRows | Finished(report: Report)

  function PollSteps(end: Ending, readsEmpty: bool, orders: seq<Polled>, ess: seq<seq<Event>>): seq<Event> {
    match end
    case NoPositions => []
    case NoRows => [LifeSnapshot(readsEmpty)] + [LifeFailRead]
    case Finished(_) => [LifeSnapshot(readsEmpty)] + RowSteps(orders, ess)
  }

  /**
    `check_open_positions`.  Whatever interferes, the poll is one history of the protocol; its own
    steps are one snapshot, one journal read, and for every active row exactly the steps its status,
    the snapshot and the answers demand; the report counts its writes and nothing else; every row it
    wrote successfully still carries that status when it returns; and `AllLeft` says which rows those
    are, and with what status.
  */
  method CheckOpenPositions(desk: Desk, terms: Ticket -> Terms, answers: Ticket -> Answers, positionsFail: bool,
                            readsEmpty: bool, rowsFail: bool)
    returns (end: Ending, ghost positions: map<Ticket, real>, ghost orders: seq<Polled>, ghost ess: seq<seq<Event>>)
    requires desk.Valid() && desk.s.mode.Up? && desk.s.life.Idle? && !(readsEmpty && desk.c.pollReads)
    modifies desk
    ensures desk.Valid() && desk.start == old(desk.start) && desk.s.life.Idle?
    ensures Reachable(desk.c, desk.start) ==> Reachable(desk.c, desk.s)
    ensures end.NoPositions? <==> positionsFail
    ensures end.NoRows? <==> !positionsFail && rowsFail
    ensures Mine(desk) == old(Mine(desk)) + PollSteps(end, readsEmpty, orders, ess)
    ensures positions == if readsEmpty then map[] else OpenPositions(old(desk.s).broker)
    ensures end.Finished? ==>
              |ess| == |orders| && AllHandled(terms, answers, positions, orders, ess)
              && end.report == ReportOf(orders, ess)
    ensures end.Finished? ==> Tallies(end.report, orders, ess)
    ensures end.Finished? && Reachable(desk.c, old(desk.s)) ==>
              AllNoted(desk.s, orders, ess) && AllLeft(old(desk.s), desk.s, terms, answers, positions, orders)
  {
    ghost var before := desk.s;
    if Reachable(desk.c, desk.s) {
      ReachableInv(desk.c, desk.s);
    }
    positions, orders, ess := if readsEmpty then map[] else OpenPositions(desk.s.broker), [], [];
    if positionsFail {
      end := NoPositions;
      StaysReachable(desk);
    } else {
      ghost var mine := Mine(desk);
      var snapshot := TakeSnapshot(desk, readsEmpty);
      end, orders, ess := PollSnapshot(desk, terms, answers, snapshot, rowsFail);
      Joined(mine, [LifeSnapshot(readsEmpty)], if end.NoRows? then [LifeFailRead] else RowSteps(orders, ess));
      if end.Finished? {
        ReportTallies(terms, answers, positions, orders, ess);
        if Reachable(desk.c, before) {
          AllAreLeft(before, desk.s, terms, answers, positions, orders, ess);
        }
      }
    }
  }

  /** The poll once the positions are known. */
  method PollSnapshot(desk: Desk, terms: Ticket -> Terms, answers: Ticket -> Answers, positions: map<Ticket, real>,
                      rowsFail: bool)
    returns (end: Ending, ghost orders: seq<Polled>, ghost ess: seq<seq<Event>>)
    requires desk.Valid() && desk.s.mode.Up? && desk.s.life == Snapped(positions)
    modifies desk
    ensures desk.Valid() && desk.start == old(desk.start) && desk.s.life.Idle?
    ensures Reachable(desk.c, desk.start) ==> Reachable(desk.c, desk.s)
    ensures !end.NoPositions? && (end.NoRows? <==> rowsFail)
    ensures Mine(desk) == old(Mine(desk)) + (if end.NoRows? then [LifeFailRead] else RowSteps(orders, ess))
    ensures end.Finished? ==>
              |ess| == |orders| && AllHandled(terms, answers, positions, orders, ess)
              && end.report == ReportOf(orders, ess)
    ensures end.Finished? && old(Inv(desk.c, desk.s)) ==> AllNoted(desk.s, orders, ess)
    ensures end.Finished? ==> AllPrompt(old(desk.s), answers, positions, orders, ess)
  {
    if rowsFail {
      desk.Interfere(Job.Lifecycle);
      Finish(desk, LifeFailRead);
      return NoRows, [], [];
    }
    var report;
    report, orders, ess := PollRows(desk, terms, answers, positions);
    end := Finished(report);
  }

  /** From the journal read to the end of the poll. */
  method PollRows(desk: Desk, terms: Ticket -> Terms, answers: Ticket -> Answers, positions: map<Ticket, real>)
    returns (report: Report, ghost orders: seq<Polled>, ghost ess: seq<seq<Event>>)
    requires desk.Valid() && desk.s.mode.Up? && desk.s.life == Snapped(positions)
    modifies desk
    ensures desk.Valid() && desk.start == old(desk.start) && desk.s.life.Idle?
    ensures Reachable(desk.c, desk.start) ==> Reachable(desk.c, desk.s)
    ensures Mine(desk) == old(Mine(desk)) + RowSteps(orders, ess)
    ensures AllHandled(terms, answers, positions, orders, ess) && |ess| == |orders| && report == ReportOf(orders, ess)
    ensures old(Inv(desk.c, desk.s)) ==> AllNoted(desk.s, orders, ess)
    ensures AllPrompt(old(desk.s), answers, positions, orders, ess)
  {
    ghost var before := Mine(desk);
    var rows := ReadActive(desk, positions);
    report, ess := HandleAll(desk, terms, answers, positions, rows);
    ghost var handled := desk.s;
    Finish(desk, LifeEnd);
    if old(Inv(desk.c, desk.s)) {
      AllNotedStays(desk.c, handled, desk.s, rows, ess);
    }
    Regroup(before, [LifeRead(Tickets(rows))], Flat(ess), [LifeEnd]);
    orders := rows;
  }

  lemma Joined(a: seq<Event>, b: seq<Event>, c: seq<Event>)
    ensures a + b + c == a + (b + c)
  {
  }

  /** `get_open_positions`. */
  method TakeSnapshot(desk: Desk, readsEmpty: bool) returns (positions: map<Ticket, real>)
    requires desk.Valid() && desk.s.mode.Up? && desk.s.life.Idle? && !(readsEmpty && desk.c.pollReads)
    modifies desk
    ensures desk.Valid() && desk.start == old(desk.start) && desk.s.mode.Up? && desk.s.life == Snapped(positions)
    ensures Mine(desk) == old(Mine(desk)) + [LifeSnapshot(readsEmpty)]
    ensures positions == if readsEmpty then map[] else OpenPositions(old(desk.s).broker)
    ensures old(Inv(desk.c, desk.s)) ==> Inv(desk.c, desk.s)
    ensures desk.s.broker == old(desk.s).broker
  {
    if Inv(desk.c, desk.s) {
      StepKeeps(desk.c, desk.s, LifeSnapshot(readsEmpty), Step(desk.c, desk.s, LifeSnapshot(readsEmpty)));
    }
    desk.Act(Job.Lifecycle, LifeSnapshot(readsEmpty));
    positions := desk.s.life.positions;
  }

  /** The poll is over. */
  method Finish(desk: Desk, e: Event)
    requires desk.Valid()
    requires (e.LifeFailRead? && desk.s.life.Snapped?) || (e.LifeEnd? && desk.s.life.Running? && desk.s.life.todo == [])
    modifies desk
    ensures desk.Valid() && desk.start == old(desk.start) && desk.s.life.Idle? && Mine(desk) == old(Mine(desk)) + [e]
    ensures Reachable(desk.c, desk.start) ==> Reachable(desk.c, desk.s)
    ensures Keeps(desk)
  {
    ghost var before := desk.s;
    desk.Act(Job.Lifecycle, e);
    StepSettles(desk.c, before, e, desk.s);
    StaysReachable(desk);
  }

  lemma StaysReachable(desk: Desk)
    requires desk.Valid()
    ensures Reachable(desk.c, desk.start) ==> Reachable(desk.c, desk.s)
  {
    if Reachable(desk.c, desk.start) {
      ReachableExtends(desk.c, desk.start, desk.trace);
    }
  }
}

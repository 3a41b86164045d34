/**
  The auto-execution protocol as a transition system.

  The broker and the journal are two separate stores.  A job is a sequence of atomic broker or
  journal steps; between two of them any other job, the broker itself, or a crash may act.
  `Step` gives the effect of one atomic event (an event that is not enabled changes nothing),
  `Run` the effect of a whole history.
*/
module OrderProtocol {
  import opened Foundations

  type Ticket = int

  /** `orders.status` in the journal. */
  datatype Status = Pending | Filled | Tp1Hit | TpRunnerHit | SlHit | Cancelled | Lost

  /** The lifecycle polls exactly these; any other status is terminal. */
  const ACTIVE := {Pending, Filled, Tp1Hit}

  /** A ticket waits as a limit order, is an open position, is fully closed, or was removed unfilled. */
  datatype Phase = Working | Open | Closed | Removed

  /** `partials` counts the lifecycle's TP1 partial closes that took effect at the broker. */
  datatype BrokerOrder = BrokerOrder(phase: Phase, placed: real, open: real, closed: real, partials: nat)

  datatype Row = Row(status: Status, volume: real)

  datatype LifeStep = Fresh | PartialAcked | HistoryRead(exit: Status)

  datatype Polled = Polled(ticket: Ticket, row: Row)

  /** Progress of the one `check_open_positions` poll that may be in flight. */
  datatype Life =
    | Idle
    | Snapped(positions: map<Ticket, real>)
    | Running(positions: map<Ticket, real>, todo: seq<Polled>, step: LifeStep)

  /** An `end_of_killzone_cleanup` job: tickets still to cancel; `acked` when the head's cancel succeeded. */
  datatype Cleaner = Cleaner(todo: seq<Ticket>, acked: bool)

  /** Startup reconciliation runs alone, before any job is scheduled. */
  datatype Mode =
    | Booting
    | Orphans(positions: map<Ticket, real>, todo: seq<Ticket>)
    | Rows(positions: map<Ticket, real>, working: set<Ticket>, rows: seq<Polled>)
    | Up

  datatype State = State(
    broker: map<Ticket, BrokerOrder>,
    journal: map<Ticket, Row>,
    placing: set<Ticket>,
    life: Life,
    cleaners: map<nat, Cleaner>,
    mode: Mode)

  /**
    `fraction` is TP1_PARTIAL_FRACTION.  `pollReads` says that a lifecycle position read raises or
    returns the real positions; otherwise a failed one may come back as an empty list.
    `recoveryReads` says that recovery's position read succeeds; otherwise recovery may go on with an
    empty list, as it does after an exception.
  */
  datatype Config = Config(fraction: real, pollReads: bool, recoveryReads: bool) {
    predicate Truthful() { pollReads && recoveryReads }
  }

  /** The volume the lifecycle closes at TP1 for an order of `volume` lots. */
  function Share(c: Config, volume: real): real { volume * c.fraction }

  const VOLUME_EPSILON: real := 0.000000001

  datatype Event =
    // the broker on its own
    | BrokerFill(t: Ticket)
    | BrokerExit(t: Ticket)
    | BrokerReduce(t: Ticket, v: real)
    | BrokerRemove(t: Ticket)
    // order placement
    | Accept(t: Ticket, v: real, ack: bool)
    | Insert(t: Ticket, ok: bool)
    // the lifecycle poll
    | LifeSnapshot(empty: bool)
    | LifeRead(order: seq<Ticket>)
    | LifeFailRead
    | LifeFilled(ok: bool)
    | LifeSkip
    | LifePartial(effect: bool, ack: bool)
    | LifeTp1(ok: bool)
    | LifeHistory(exit: Status)
    | LifeExit(ok: bool)
    | LifeEnd
    // killzone cleanup
    | CleanStart(j: nat, tickets: seq<Ticket>)
    | CleanCancel(j: nat, effect: bool, ack: bool)
    | CleanWrite(j: nat, ok: bool)
    | CleanEnd(j: nat)
    // process
    | Crash
    | RecSnapshot(failed: bool, order: seq<Ticket>)
    | RecClose(effect: bool)
    | RecRead(failed: bool, order: seq<Ticket>)
    | RecRow(history: bool, ok: bool)
    | RecAbort

  const INITIAL := State(map[], map[], {}, Idle, map[], Booting)

  // ---- stores ---------------------------------------------------------------------------------

  function OpenPositions(broker: map<Ticket, BrokerOrder>): map<Ticket, real> {
    map t | t in broker && broker[t].phase == Open :: broker[t].open
  }

  function WorkingOrders(broker: map<Ticket, BrokerOrder>): set<Ticket> {
    set t | t in broker && broker[t].phase == Working
  }

  /** `update_order_status`: a blind write to the row's status. */
  function Write(s: State, t: Ticket, status: Status): State {
    if t in s.journal then s.(journal := s.journal[t := s.journal[t].(status := status)]) else s
  }

  /** A market deal reducing an open position by `v`; the broker rejects any other volume. */
  predicate CanReduce(b: BrokerOrder, v: real) {
    b.phase == Open && 0.0 < v <= b.open
  }

  function Reduce(b: BrokerOrder, v: real, byLifecycle: bool): BrokerOrder
    requires CanReduce(b, v)
  {
    BrokerOrder(if v == b.open then Closed else Open, b.placed, b.open - v, b.closed + v,
                if byLifecycle then b.partials + 1 else b.partials)
  }

  /** `order` lists each ticket whose journal status is one of `statuses` exactly once. */
  predicate Lists(journal: map<Ticket, Row>, order: seq<Ticket>, statuses: set<Status>) {
    && (forall i, j :: 0 <= i < j < |order| ==> order[i] != order[j])
    && (forall t :: t in order ==> t in journal && journal[t].status in statuses)
    && (forall t :: t in journal && journal[t].status in statuses ==> t in order)
  }

  function Poll(journal: map<Ticket, Row>, order: seq<Ticket>): (r: seq<Polled>)
    requires forall t :: t in order ==> t in journal
    ensures |r| == |order|
    ensures forall i :: 0 <= i < |r| ==> order[i] in journal && r[i] == Polled(order[i], journal[order[i]])
  {
    if order == [] then [] else
      var t := order[0];
      assert t in order;
      [Polled(t, journal[t])] + Poll(journal, order[1..])
  }

  // ---- events ---------------------------------------------------------------------------------

  function BrokerStep(s: State, e: Event): State {
    match e
    case BrokerFill(t) =>
      if t in s.broker && s.broker[t].phase == Working then
        s.(broker := s.broker[t := s.broker[t].(phase := Open, open := s.broker[t].placed)])
      else s
    case BrokerExit(t) =>
      if t in s.broker && CanReduce(s.broker[t], s.broker[t].open) then
        s.(broker := s.broker[t := Reduce(s.broker[t], s.broker[t].open, false)])
      else s
    case BrokerReduce(t, v) =>
      if t in s.broker && CanReduce(s.broker[t], v) then
        s.(broker := s.broker[t := Reduce(s.broker[t], v, false)])
      else s
    case BrokerRemove(t) =>
      if t in s.broker && s.broker[t].phase == Working then
        s.(broker := s.broker[t := s.broker[t].(phase := Removed)])
      else s
    case _ => s
  }

  /** `place_order`: the broker accepts under a new ticket, then the journal row is inserted. */
  function PlaceStep(s: State, e: Event): State {
    match e
    case Accept(t, v, ack) =>
      if s.mode.Up? && t !in s.broker && v > 0.0 then
        s.(broker := s.broker[t := BrokerOrder(Working, v, 0.0, 0.0, 0)],
           placing := if ack then s.placing + {t} else s.placing)
      else s
    case Insert(t, ok) =>
      if t in s.placing && t in s.broker && t !in s.journal then
        s.(placing := s.placing - {t},
           journal := if ok then s.journal[t := Row(Pending, s.broker[t].placed)] else s.journal)
      else s
    case _ => s
  }

  function PopHead(s: State): State
    requires s.life.Running? && s.life.todo != []
  {
    s.(life := Running(s.life.positions, s.life.todo[1..], Fresh))
  }

  /** `_handle_filled` reaches the TP1 partial close: position open in the snapshot at full volume. */
  predicate FullVolume(positions: map<Ticket, real>, p: Polled) {
    p.ticket in positions && positions[p.ticket] >= p.row.volume - VOLUME_EPSILON
  }

  function LifeBegin(c: Config, s: State, e: Event): State {
    match e
    case LifeSnapshot(empty) =>
      if s.mode.Up? && s.life.Idle? && !(empty && c.pollReads) then
        s.(life := Snapped(if empty then map[] else OpenPositions(s.broker)))
      else s
    case LifeRead(order) =>
      if s.life.Snapped? && Lists(s.journal, order, ACTIVE) then
        s.(life := Running(s.life.positions, Poll(s.journal, order), Fresh))
      else s
    case LifeFailRead => if s.life.Snapped? then s.(life := Idle) else s
    case LifeEnd => if s.life.Running? && s.life.todo == [] then s.(life := Idle) else s
    case _ => s
  }

  /** One atomic step of the handler for the order at the head of the poll. */
  function LifeHandle(c: Config, s: State, e: Event): State
    requires s.life.Running? && s.life.todo != []
  {
    var p := s.life.todo[0];
    var positions := s.life.positions;
    match e
    case LifeFilled(ok) =>
      if s.life.step.Fresh? && p.row.status.Pending? && p.ticket in positions then
        PopHead(if ok then Write(s, p.ticket, Filled) else s)
      else s
    case LifeSkip =>
      // Still pending, partial already done, TP1 not reached, no history, or a broker read failed.
      if s.life.step.Fresh? && !(p.row.status.Pending? && p.ticket in positions) then PopHead(s) else s
    case LifePartial(effect, ack) =>
      if s.life.step.Fresh? && p.row.status.Filled? && FullVolume(positions, p) then
        var v := Share(c, p.row.volume);
        if effect && p.ticket in s.broker && CanReduce(s.broker[p.ticket], v) then
          var s' := s.(broker := s.broker[p.ticket := Reduce(s.broker[p.ticket], v, true)]);
          if ack then s'.(life := Running(positions, s.life.todo, PartialAcked)) else PopHead(s')
        else PopHead(s)
      else s
    case LifeTp1(ok) =>
      if s.life.step.PartialAcked? then PopHead(if ok then Write(s, p.ticket, Tp1Hit) else s) else s
    case LifeHistory(exit) =>
      // `get_position_close_info` found at least one exit deal and `_classify_exit` gave `exit`.
      if && s.life.step.Fresh? && (p.row.status.Filled? || p.row.status.Tp1Hit?)
         && p.ticket !in positions && (exit.TpRunnerHit? || exit.SlHit?)
         && p.ticket in s.broker && s.broker[p.ticket].closed > 0.0
      then s.(life := Running(positions, s.life.todo, HistoryRead(exit)))
      else s
    case LifeExit(ok) =>
      if s.life.step.HistoryRead? then PopHead(if ok then Write(s, p.ticket, s.life.step.exit) else s) else s
    case _ => s
  }

  function CleanStep(s: State, e: Event): State {
    match e
    case CleanStart(j, tickets) =>
      if s.mode.Up? && j !in s.cleaners
          && (forall t :: t in tickets ==> t in s.journal && s.journal[t].status == Pending) then
        s.(cleaners := s.cleaners[j := Cleaner(tickets, false)])
      else s
    case CleanCancel(j, effect, ack) =>
      if j in s.cleaners && s.cleaners[j].todo != [] && !s.cleaners[j].acked then
        var t := s.cleaners[j].todo[0];
        if effect && t in s.broker && s.broker[t].phase == Working then
          var next := if ack then s.cleaners[j].(acked := true) else Cleaner(s.cleaners[j].todo[1..], false);
          s.(broker := s.broker[t := s.broker[t].(phase := Removed)], cleaners := s.cleaners[j := next])
        else s.(cleaners := s.cleaners[j := Cleaner(s.cleaners[j].todo[1..], false)])
      else s
    case CleanWrite(j, ok) =>
      if j in s.cleaners && s.cleaners[j].todo != [] && s.cleaners[j].acked then
        // a database failure propagates and ends the job
        if ok then Write(s.(cleaners := s.cleaners[j := Cleaner(s.cleaners[j].todo[1..], false)]),
                         s.cleaners[j].todo[0], Cancelled)
        else s.(cleaners := s.cleaners - {j})
      else s
    case CleanEnd(j) =>
      if j in s.cleaners && s.cleaners[j].todo == [] then s.(cleaners := s.cleaners - {j}) else s
    case _ => s
  }

  /** An open position recovery closes: unknown to the journal, or journaled with a terminal status. */
  predicate Orphan(journal: map<Ticket, Row>, t: Ticket) {
    t !in journal || journal[t].status !in ACTIVE
  }

  function RecoveryStep(c: Config, s: State, e: Event): State {
    match e
    case Crash => s.(placing := {}, life := Idle, cleaners := map[], mode := Booting)
    case RecSnapshot(failed, order) =>
      if && s.mode.Booting? && !(failed && c.recoveryReads)
         && (forall t :: t in order ==> t in OpenPositions(s.broker) && Orphan(s.journal, t))
         && (forall t :: t in OpenPositions(s.broker) && Orphan(s.journal, t) ==> t in order)
      then s.(mode := Orphans(if failed then map[] else OpenPositions(s.broker), if failed then [] else order))
      else s
    case RecClose(effect) =>
      if s.mode.Orphans? && s.mode.todo != [] then
        var t := s.mode.todo[0];
        var s' := s.(mode := Orphans(s.mode.positions, s.mode.todo[1..]));
        if effect && t in s.broker && CanReduce(s.broker[t], s.broker[t].open) then
          s'.(broker := s.broker[t := Reduce(s.broker[t], s.broker[t].open, false)])
        else s'
      else s
    case RecRead(failed, order) =>
      if s.mode.Orphans? && s.mode.todo == [] && Lists(s.journal, order, {Pending, Filled}) then
        s.(mode := Rows(s.mode.positions, if failed then {} else WorkingOrders(s.broker), Poll(s.journal, order)))
      else s
    case RecRow(history, ok) =>
      if s.mode.Rows? && s.mode.rows != [] then
        var p := s.mode.rows[0];
        var s' := s.(mode := Rows(s.mode.positions, s.mode.working, s.mode.rows[1..]));
        if p.row.status.Pending? && p.ticket in s.mode.working then s'
        else if p.row.status.Filled? && p.ticket in s.mode.positions then s'
        else if !ok then s.(mode := Up)
        else if p.row.status.Pending? then Write(s', p.ticket, if p.ticket in s.mode.positions then Filled else Lost)
        else
          var exited := history && p.ticket in s.broker && s.broker[p.ticket].closed > 0.0;
          Write(s', p.ticket, if exited then SlHit else Lost)
      else if s.mode.Rows? then s.(mode := Up)
      else s
    case RecAbort => if s.mode.Up? then s else s.(mode := Up)
    case _ => s
  }

  /** Who performs an event. */
  datatype Actor = TheBroker | Placement | LifecyclePoll | LifecycleHandler | Cleanup | Recovery

  function ActorOf(e: Event): Actor {
    if e.BrokerFill? || e.BrokerExit? || e.BrokerReduce? || e.BrokerRemove? then TheBroker
    else if e.Accept? || e.Insert? then Placement
    else if e.LifeSnapshot? || e.LifeRead? || e.LifeFailRead? || e.LifeEnd? then LifecyclePoll
    else if e.LifeFilled? || e.LifeSkip? || e.LifePartial? || e.LifeTp1? || e.LifeHistory? || e.LifeExit? then
        LifecycleHandler
    else if e.CleanStart? || e.CleanCancel? || e.CleanWrite? || e.CleanEnd? then Cleanup
    else Recovery
  }

  function Step(c: Config, s: State, e: Event): State {
    match ActorOf(e)
    case TheBroker => BrokerStep(s, e)
    case Placement => PlaceStep(s, e)
    case LifecyclePoll => LifeBegin(c, s, e)
    case LifecycleHandler => if s.life.Running? && s.life.todo != [] then LifeHandle(c, s, e) else s
    case Cleanup => CleanStep(s, e)
    case Recovery => RecoveryStep(c, s, e)
  }

  function Run(c: Config, s: State, es: seq<Event>): State
    decreases |es|
  {
    if es == [] then s else Step(c, Run(c, s, es[..|es| - 1]), es[|es| - 1])
  }

  /** States some history leads to from the empty stores. */
  ghost predicate Reachable(c: Config, s: State) {
    exists es :: s == Run(c, INITIAL, es)
  }
}

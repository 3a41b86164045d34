/** Invariants of every run of the auto-execution protocol. */
module OrderSafety {
  import opened Foundations
  import opened OrderProtocol

  type Broker = map<Ticket, BrokerOrder>
  type Journal = map<Ticket, Row>

  // ---- the invariant --------------------------------------------------------------------------

  /** Volume is conserved at the broker, and each TP1 close accounts for one share of it. */
  ghost predicate OrderOk(c: Config, b: BrokerOrder) {
    && b.placed > 0.0
    && (b.phase.Working? || b.phase.Removed? ==> b.open == 0.0 && b.closed == 0.0 && b.partials == 0)
    && (b.phase.Open? ==> b.open > 0.0 && b.closed >= 0.0 && b.open + b.closed == b.placed)
    && (b.phase.Closed? ==> b.open == 0.0 && b.closed == b.placed)
    && (b.partials > 0 ==> 0.0 < Share(c, b.placed) <= b.closed)
  }

  /** The order reached the market: the broker filled it at some time. */
  predicate WasFilled(b: BrokerOrder) { b.phase.Open? || b.phase.Closed? }

  predicate SaysFilled(st: Status) { st.Filled? || st.Tp1Hit? || st.TpRunnerHit? || st.SlHit? }

  /** What a journal row promises about the broker. */
  ghost predicate RowOk(c: Config, row: Row, b: BrokerOrder) {
    && row.volume == b.placed
    && (SaysFilled(row.status) ==> WasFilled(b))
    && (row.status.Cancelled? ==> b.phase.Removed?)
    && (row.status.Tp1Hit? ==> b.partials > 0)
    && (c.Truthful() && (row.status.TpRunnerHit? || row.status.SlHit?) ==> b.phase.Closed?)
  }

  ghost predicate StoresOk(c: Config, broker: Broker, journal: Journal, placing: set<Ticket>) {
    && (forall t :: t in broker ==> OrderOk(c, broker[t]))
    && (forall t :: t in journal ==> t in broker && RowOk(c, journal[t], broker[t]))
    && (forall t :: t in placing ==> t in broker && t !in journal)
  }

  /** A partial fraction for which the volume guard stops a second TP1 close of a `placed`-lot order. */
  predicate GuardWorks(c: Config, placed: real) {
    Share(c, placed) <= 0.0 || Share(c, placed) > VOLUME_EPSILON || 2.0 * c.fraction > 1.0
  }

  ghost predicate AtMostOnePartial(c: Config, broker: Broker) {
    forall t :: t in broker && GuardWorks(c, broker[t].placed) ==> broker[t].partials <= 1
  }

  /** A snapshot is a past truth about the broker, and no older than the fills the journal knows of. */
  ghost predicate SnapshotOk(c: Config, broker: Broker, journal: Journal, positions: map<Ticket, real>) {
    && (forall t :: t in positions ==> t in broker && WasFilled(broker[t]))
    && (c.Truthful() ==>
         forall t :: t in journal && (journal[t].status.Filled? || journal[t].status.Tp1Hit?) && t !in positions ==>
           t in broker && broker[t].phase.Closed?)
  }

  /** An order that the snapshot still shows at full volume has not been TP1-closed. */
  predicate GuardFresh(c: Config, b: BrokerOrder, seen: real) {
    Share(c, b.placed) > VOLUME_EPSILON && seen >= b.placed - VOLUME_EPSILON ==> b.partials == 0
  }

  /** A polled row is current, except that a cleanup may have cancelled it meanwhile. */
  ghost predicate PolledOk(broker: Broker, journal: Journal, p: Polled) {
    && p.ticket in journal && p.ticket in broker
    && p.row.volume == broker[p.ticket].placed
    && p.row.status in ACTIVE
    && (journal[p.ticket].status == p.row.status
        || (p.row.status.Pending? && journal[p.ticket].status.Cancelled?))
  }

  ghost predicate AllPolledOk(broker: Broker, journal: Journal, todo: seq<Polled>) {
    && (forall i, j :: 0 <= i < j < |todo| ==> todo[i].ticket != todo[j].ticket)
    && (forall i :: 0 <= i < |todo| ==> PolledOk(broker, journal, todo[i]))
  }

  ghost predicate AllFresh(c: Config, broker: Broker, positions: map<Ticket, real>, todo: seq<Polled>) {
    forall i :: 0 <= i < |todo| && todo[i].ticket in positions && todo[i].ticket in broker ==>
      GuardFresh(c, broker[todo[i].ticket], positions[todo[i].ticket])
  }

  ghost predicate HeadOk(broker: Broker, positions: map<Ticket, real>, p: Polled, step: LifeStep) {
    match step
    case Fresh => true
    case PartialAcked => p.row.status.Filled? && p.ticket in positions && p.ticket in broker
        && broker[p.ticket].partials > 0
    case HistoryRead(exit) =>
      (p.row.status.Filled? || p.row.status.Tp1Hit?) && p.ticket !in positions && (exit.TpRunnerHit? || exit.SlHit?)
  }

  ghost predicate LifeOk(c: Config, broker: Broker, journal: Journal, up: bool, life: Life) {
    match life
    case Idle => true
    case Snapped(positions) =>
      && up
      && SnapshotOk(c, broker, journal, positions)
      && forall t :: t in positions && t in broker ==> GuardFresh(c, broker[t], positions[t])
    case Running(positions, todo, step) =>
      && up
      && SnapshotOk(c, broker, journal, positions)
      && AllPolledOk(broker, journal, todo)
      && AllFresh(c, broker, positions, if step.PartialAcked? && todo != [] then todo[1..] else todo)
      && (todo == [] ==> step.Fresh?)
      && (todo != [] ==> HeadOk(broker, positions, todo[0], step))
  }

  /** The broker removed the order but the journal still says `pending`. */
  ghost predicate Confirmed(broker: Broker, journal: Journal, t: Ticket) {
    t in broker && broker[t].phase.Removed? && t in journal && journal[t].status.Pending?
  }

  ghost predicate CleanersOk(broker: Broker, journal: Journal, up: bool, cleaners: map<nat, Cleaner>) {
    && (cleaners != map[] ==> up)
    && (forall j, t :: j in cleaners && t in cleaners[j].todo ==> t in journal && !journal[t].status.Lost?)
    && (forall j :: j in cleaners && cleaners[j].acked ==>
         cleaners[j].todo != [] && Confirmed(broker, journal, cleaners[j].todo[0]))
    && (forall j, k :: j in cleaners && k in cleaners && j != k && cleaners[j].acked && cleaners[k].acked ==>
         cleaners[j].todo[0] != cleaners[k].todo[0])
  }

  ghost predicate RecoveryRowsOk(journal: Journal, rows: seq<Polled>) {
    forall i :: 0 <= i < |rows| ==>
      && (rows[i].row.status.Pending? || rows[i].row.status.Filled?)
      && rows[i].ticket in journal && journal[rows[i].ticket].status == rows[i].row.status
  }

  ghost predicate RecoveryOk(c: Config, broker: Broker, journal: Journal, placing: set<Ticket>, mode: Mode) {
    match mode
    case Booting => placing == {}
    case Orphans(positions, todo) => placing == {} && SnapshotOk(c, broker, journal, positions)
    case Rows(positions, working, rows) =>
      && placing == {}
      && SnapshotOk(c, broker, journal, positions)
      && AllPolledOk(broker, journal, rows)
      && RecoveryRowsOk(journal, rows)
    case Up => true
  }

  ghost predicate Inv(c: Config, s: State) {
    && StoresOk(c, s.broker, s.journal, s.placing)
    && AtMostOnePartial(c, s.broker)
    && LifeOk(c, s.broker, s.journal, s.mode.Up?, s.life)
    && CleanersOk(s.broker, s.journal, s.mode.Up?, s.cleaners)
    && RecoveryOk(c, s.broker, s.journal, s.placing, s.mode)
  }

  // ---- what one event may do --------------------------------------------------------------------

  /** The documented life of `orders.status`. */
  predicate Edge(a: Status, b: Status) {
    match a
    case Pending => b.Filled? || b.Cancelled? || b.Lost?
    case Filled => b.Tp1Hit? || b.TpRunnerHit? || b.SlHit? || b.Lost?
    case Tp1Hit => b.TpRunnerHit? || b.SlHit?
    case _ => false
  }

  ghost predicate AlongEdges(journal: Journal, journal': Journal) {
    forall t :: t in journal ==>
      t in journal' && (journal'[t].status == journal[t].status || Edge(journal[t].status, journal'[t].status))
  }

  ghost predicate Keeps(c: Config, s: State, s': State) {
    Inv(c, s') && AlongEdges(s.journal, s'.journal)
  }

  /** A broker order only moves forward: filled stays filled, closed stays closed, removed stays removed. */
  predicate Forward(b: BrokerOrder, b': BrokerOrder) {
    && b'.placed == b.placed && b'.partials >= b.partials
    && (WasFilled(b) ==> WasFilled(b')) && (b.phase.Closed? ==> b' == b) && (b.phase.Removed? ==> b' == b)
  }

  ghost predicate BrokerForward(broker: Broker, broker': Broker) {
    forall t :: t in broker ==> t in broker' && Forward(broker[t], broker'[t])
  }

  ghost predicate NoPartial(broker: Broker, broker': Broker) {
    forall t :: t in broker ==> t in broker' && broker'[t].partials == broker[t].partials
  }

  /** What everyone but the lifecycle does to the rows it is polling. */
  ghost predicate RowsLeft(journal: Journal, journal': Journal) {
    && (forall t :: t in journal ==>
         t in journal' && (journal'[t] == journal[t] || (journal[t].status.Pending? && journal'[t].status.Cancelled?)))
    && (forall t :: t in journal' && t !in journal ==> journal'[t].status.Pending?)
  }

  /** The poll in flight survives any step of the broker, of placement and of the cleanups. */
  lemma LifeFrame(c: Config, broker: Broker, journal: Journal, broker': Broker, journal': Journal, up: bool, life: Life)
    requires LifeOk(c, broker, journal, up, life)
    requires BrokerForward(broker, broker') && NoPartial(broker, broker') && RowsLeft(journal, journal')
    ensures LifeOk(c, broker', journal', up, life)
  {
    match life
    case Idle =>
    case Snapped(positions) =>
    case Running(positions, todo, step) =>
      forall i | 0 <= i < |todo| ensures PolledOk(broker', journal', todo[i]) {
        assert PolledOk(broker, journal, todo[i]);
      }
      assert AllPolledOk(broker', journal', todo);
      assert SnapshotOk(c, broker', journal', positions);
  }

  lemma CleanersFrame(broker: Broker, journal: Journal, broker': Broker, journal': Journal, up: bool,
                      cleaners: map<nat, Cleaner>)
    requires CleanersOk(broker, journal, up, cleaners)
    requires forall t :: t in journal ==> t in journal' && (journal'[t].status.Lost? ==> journal[t].status.Lost?)
    requires forall t :: Confirmed(broker, journal, t) ==> Confirmed(broker', journal', t)
    ensures CleanersOk(broker', journal', up, cleaners)
  {
  }

  /** Broker moves under a running recovery. */
  lemma RecoveryFrame(c: Config, broker: Broker, journal: Journal, broker': Broker, placing: set<Ticket>, mode: Mode)
    requires RecoveryOk(c, broker, journal, placing, mode) && BrokerForward(broker, broker')
    ensures RecoveryOk(c, broker', journal, placing, mode)
  {
    match mode
    case Rows(positions, _, rows) =>
      forall i | 0 <= i < |rows| ensures PolledOk(broker', journal, rows[i]) {
        assert PolledOk(broker, journal, rows[i]);
      }
      assert AllPolledOk(broker', journal, rows);
      assert SnapshotOk(c, broker', journal, positions);
    case _ =>
  }

  // ---- the broker and placement -----------------------------------------------------------------

  /** Changing one broker order forward, without a lifecycle partial close, keeps everything. */
  lemma BrokerMoves(c: Config, s: State, t: Ticket, b': BrokerOrder)
    requires Inv(c, s) && t in s.broker
    requires Forward(s.broker[t], b') && b'.partials == s.broker[t].partials && OrderOk(c, b')
    ensures Keeps(c, s, s.(broker := s.broker[t := b']))
  {
    var broker' := s.broker[t := b'];
    assert BrokerForward(s.broker, broker') && NoPartial(s.broker, broker');
    LifeFrame(c, s.broker, s.journal, broker', s.journal, s.mode.Up?, s.life);
    CleanersFrame(s.broker, s.journal, broker', s.journal, s.mode.Up?, s.cleaners);
    RecoveryFrame(c, s.broker, s.journal, broker', s.placing, s.mode);
  }

  lemma BrokerKeeps(c: Config, s: State, e: Event, s': State)
    requires Inv(c, s) && s' == BrokerStep(s, e)
    ensures Keeps(c, s, s')
  {
    if s' != s {
      match e
      case BrokerFill(t) => BrokerMoves(c, s, t, s'.broker[t]);
      case BrokerExit(t) => BrokerMoves(c, s, t, s'.broker[t]);
      case BrokerReduce(t, v) => BrokerMoves(c, s, t, s'.broker[t]);
      case BrokerRemove(t) => BrokerMoves(c, s, t, s'.broker[t]);
      case _ =>
    }
  }

  lemma AcceptKeeps(c: Config, s: State, e: Event, s': State)
    requires Inv(c, s) && e.Accept? && s' == PlaceStep(s, e)
    ensures Keeps(c, s, s')
  {
    if s' != s {
      AcceptStores(c, s.broker, s.journal, s.placing, e.t, e.v, e.ack);
      assert BrokerForward(s.broker, s'.broker) && NoPartial(s.broker, s'.broker);
      LifeFrame(c, s.broker, s.journal, s'.broker, s.journal, s.mode.Up?, s.life);
      CleanersFrame(s.broker, s.journal, s'.broker, s.journal, s.mode.Up?, s.cleaners);
    }
  }

  lemma InsertStores(c: Config, broker: Broker, journal: Journal, placing: set<Ticket>, t: Ticket, ok: bool)
    requires StoresOk(c, broker, journal, placing) && t in placing && t in broker && t !in journal
    ensures StoresOk(c, broker, if ok then journal[t := Row(Pending, broker[t].placed)] else journal, placing - {t})
  {
  }

  lemma AcceptStores(c: Config, broker: Broker, journal: Journal, placing: set<Ticket>, t: Ticket, v: real, ack: bool)
    requires StoresOk(c, broker, journal, placing) && t !in broker && v > 0.0
    ensures StoresOk(c, broker[t := BrokerOrder(Working, v, 0.0, 0.0, 0)], journal,
                     if ack then placing + {t} else placing)
  {
  }

  lemma InsertKeeps(c: Config, s: State, e: Event, s': State)
    requires Inv(c, s) && e.Insert? && s' == PlaceStep(s, e)
    ensures Keeps(c, s, s')
  {
    if s' != s {
      InsertStores(c, s.broker, s.journal, s.placing, e.t, e.ok);
      assert BrokerForward(s.broker, s.broker) && NoPartial(s.broker, s.broker);
      LifeFrame(c, s.broker, s.journal, s.broker, s'.journal, s.mode.Up?, s.life);
      CleanersFrame(s.broker, s.journal, s.broker, s'.journal, s.mode.Up?, s.cleaners);
    }
  }

  lemma PlaceKeeps(c: Config, s: State, e: Event, s': State)
    requires Inv(c, s) && s' == PlaceStep(s, e)
    ensures Keeps(c, s, s')
  {
    if e.Accept? {
      AcceptKeeps(c, s, e, s');
    } else if e.Insert? {
      InsertKeeps(c, s, e, s');
    }
  }

  // ---- the lifecycle ----------------------------------------------------------------------------

  lemma SnapshotLife(c: Config, s: State, empty: bool)
    requires StoresOk(c, s.broker, s.journal, s.placing) && s.mode.Up? && !(empty && c.pollReads)
    ensures LifeOk(c, s.broker, s.journal, true, Snapped(if empty then map[] else OpenPositions(s.broker)))
  {
    var positions := if empty then map[] else OpenPositions(s.broker);
    forall t | t in positions && t in s.broker ensures GuardFresh(c, s.broker[t], positions[t]) {
      assert OrderOk(c, s.broker[t]);
    }
  }

  lemma ReadLife(c: Config, s: State, order: seq<Ticket>)
    requires StoresOk(c, s.broker, s.journal, s.placing) && s.mode.Up? && s.life.Snapped?
    requires LifeOk(c, s.broker, s.journal, true, s.life) && Lists(s.journal, order, ACTIVE)
    ensures LifeOk(c, s.broker, s.journal, true, Running(s.life.positions, Poll(s.journal, order), Fresh))
  {
    var todo := Poll(s.journal, order);
    forall i | 0 <= i < |todo| ensures PolledOk(s.broker, s.journal, todo[i]) {
      assert order[i] in order;
    }
    assert AllPolledOk(s.broker, s.journal, todo);
  }

  lemma LifeBeginKeeps(c: Config, s: State, e: Event, s': State)
    requires Inv(c, s) && s' == LifeBegin(c, s, e)
    ensures Keeps(c, s, s')
  {
    if s' != s {
      match e
      case LifeSnapshot(empty) => SnapshotLife(c, s, empty);
      case LifeRead(order) => ReadLife(c, s, order);
      case _ =>
    }
  }

  lemma TailPolled(broker: Broker, journal: Journal, todo: seq<Polled>)
    requires AllPolledOk(broker, journal, todo) && todo != []
    ensures AllPolledOk(broker, journal, todo[1..])
  {
    forall i | 0 <= i < |todo[1..]| ensures PolledOk(broker, journal, todo[1..][i]) {
      assert PolledOk(broker, journal, todo[i + 1]);
    }
  }

  /** Writing the head's row leaves the other polled rows current. */
  lemma TailPolledAfterWrite(broker: Broker, journal: Journal, todo: seq<Polled>, row: Row)
    requires AllPolledOk(broker, journal, todo) && todo != []
    ensures AllPolledOk(broker, journal[todo[0].ticket := row], todo[1..])
  {
    forall i | 0 <= i < |todo[1..]| ensures PolledOk(broker, journal[todo[0].ticket := row], todo[1..][i]) {
      assert PolledOk(broker, journal, todo[i + 1]) && todo[i + 1].ticket != todo[0].ticket;
    }
  }

  lemma LifePops(c: Config, s: State)
    requires Inv(c, s) && s.life.Running? && s.life.todo != []
    ensures Keeps(c, s, PopHead(s))
  {
    TailPolled(s.broker, s.journal, s.life.todo);
    assert AllFresh(c, s.broker, s.life.positions, s.life.todo[1..]);
  }

  /** The lifecycle writes `status` for the order at the head of its poll and goes on. */
  lemma LifeWrites(c: Config, s: State, status: Status)
    requires Inv(c, s) && s.life.Running? && s.life.todo != []
    requires var p := s.life.todo[0];
             && p.ticket in s.journal && p.ticket in s.broker
             && Edge(s.journal[p.ticket].status, status)
             && RowOk(c, s.journal[p.ticket].(status := status), s.broker[p.ticket])
             && SaysFilled(status)
             && (status.Filled? || status.Tp1Hit? ==> p.ticket in s.life.positions)
    ensures Keeps(c, s, PopHead(Write(s, s.life.todo[0].ticket, status)))
  {
    var p := s.life.todo[0];
    var row := s.journal[p.ticket].(status := status);
    var journal' := s.journal[p.ticket := row];
    TailPolledAfterWrite(s.broker, s.journal, s.life.todo, row);
    assert SnapshotOk(c, s.broker, journal', s.life.positions);
    assert AllFresh(c, s.broker, s.life.positions, s.life.todo[1..]);
    CleanersFrame(s.broker, s.journal, s.broker, journal', true, s.cleaners);
  }

  lemma TwoSharesExceed(c: Config, placed: real)
    requires placed > 0.0 && 2.0 * c.fraction > 1.0
    ensures 2.0 * Share(c, placed) > placed
  {
    assert placed * (2.0 * c.fraction - 1.0) > 0.0;
  }

  /** A further partial close cannot fit into what is left, or the guard has already seen the first. */
  lemma NoSecondPartial(c: Config, b: BrokerOrder, seen: real)
    requires OrderOk(c, b) && GuardFresh(c, b, seen) && seen >= b.placed - VOLUME_EPSILON
    requires CanReduce(b, Share(c, b.placed)) && GuardWorks(c, b.placed)
    ensures b.partials == 0
  {
    if b.partials > 0 && 2.0 * c.fraction > 1.0 {
      TwoSharesExceed(c, b.placed);
    }
  }

  /** A partial close of the polled order in hand leaves the other polled rows as they were. */
  lemma ClosePolled(c: Config, broker: Broker, journal: Journal, positions: map<Ticket, real>, todo: seq<Polled>,
                    b': BrokerOrder)
    requires todo != [] && todo[0].ticket in broker && Forward(broker[todo[0].ticket], b')
    requires AllPolledOk(broker, journal, todo) && AllFresh(c, broker, positions, todo)
    ensures var broker' := broker[todo[0].ticket := b'];
            BrokerForward(broker, broker') && AllPolledOk(broker', journal, todo)
            && AllFresh(c, broker', positions, todo[1..])
  {
    var broker' := broker[todo[0].ticket := b'];
    forall i | 0 <= i < |todo| ensures PolledOk(broker', journal, todo[i]) {
      assert PolledOk(broker, journal, todo[i]);
    }
    assert forall i :: 0 <= i < |todo[1..]| ==> todo[1..][i].ticket != todo[0].ticket;
  }

  /** The state right after the TP1 partial close took effect and was acknowledged. */
  lemma LifeCloses(c: Config, s: State, p: Polled, b': BrokerOrder)
    requires Inv(c, s) && s.life.Running? && s.life.todo != [] && s.life.step.Fresh? && p == s.life.todo[0]
    requires p.row.status.Filled? && FullVolume(s.life.positions, p)
    requires p.ticket in s.broker && CanReduce(s.broker[p.ticket], Share(c, p.row.volume))
    requires b' == Reduce(s.broker[p.ticket], Share(c, p.row.volume), true)
    ensures Keeps(c, s,
                  s.(broker := s.broker[p.ticket := b'], life := Running(s.life.positions, s.life.todo, PartialAcked)))
  {
    var b, todo := s.broker[p.ticket], s.life.todo;
    var broker' := s.broker[p.ticket := b'];
    assert PolledOk(s.broker, s.journal, p);
    if GuardWorks(c, b.placed) {
      NoSecondPartial(c, b, s.life.positions[p.ticket]);
    }
    assert OrderOk(c, b');
    ClosePolled(c, s.broker, s.journal, s.life.positions, todo, b');
    CleanersFrame(s.broker, s.journal, broker', s.journal, true, s.cleaners);
    assert SnapshotOk(c, broker', s.journal, s.life.positions);
  }

  lemma LifePartialKeeps(c: Config, s: State, effect: bool, ack: bool, s': State)
    requires Inv(c, s) && s.life.Running? && s.life.todo != []
    requires s' == LifeHandle(c, s, LifePartial(effect, ack))
    ensures Keeps(c, s, s')
  {
    var p := s.life.todo[0];
    assert PolledOk(s.broker, s.journal, p);
    if s'.broker == s.broker {
      LifePops(c, s);
    } else {
      var b' := Reduce(s.broker[p.ticket], Share(c, p.row.volume), true);
      var s1 := s.(broker := s.broker[p.ticket := b'], life := Running(s.life.positions, s.life.todo, PartialAcked));
      LifeCloses(c, s, p, b');
      if !ack {
        LifePops(c, s1);
        assert s' == PopHead(s1);
      }
    }
  }

  lemma LifeWriteKeeps(c: Config, s: State, e: Event, s': State)
    requires Inv(c, s) && s.life.Running? && s.life.todo != []
    requires (e.LifeFilled? || e.LifeTp1? || e.LifeExit?) && s' == LifeHandle(c, s, e)
    ensures Keeps(c, s, s')
  {
    var p := s.life.todo[0];
    assert PolledOk(s.broker, s.journal, p) && OrderOk(c, s.broker[p.ticket])
        && RowOk(c, s.journal[p.ticket], s.broker[p.ticket]);
    if s' != s {
      if !e.ok {
        LifePops(c, s);
      } else {
        LifeWrites(c, s, if e.LifeFilled? then Filled else if e.LifeTp1? then Tp1Hit else s.life.step.exit);
      }
    }
  }

  lemma LifeHandleKeeps(c: Config, s: State, e: Event, s': State)
    requires Inv(c, s) && s.life.Running? && s.life.todo != [] && s' == LifeHandle(c, s, e)
    ensures Keeps(c, s, s')
  {
    if e.LifePartial? {
      LifePartialKeeps(c, s, e.effect, e.ack, s');
    } else if e.LifeFilled? || e.LifeTp1? || e.LifeExit? {
      LifeWriteKeeps(c, s, e, s');
    } else if e.LifeSkip? {
      LifePops(c, s);
    }
  }

  // ---- killzone cleanup ---------------------------------------------------------------------------

  /** A cleanup moves on to its next ticket. */
  lemma CleanerAdvances(broker: Broker, journal: Journal, cleaners: map<nat, Cleaner>, j: nat)
    requires CleanersOk(broker, journal, true, cleaners) && j in cleaners && cleaners[j].todo != []
    ensures CleanersOk(broker, journal, true, cleaners[j := Cleaner(cleaners[j].todo[1..], false)])
  {
    assert forall t :: t in cleaners[j].todo[1..] ==> t in cleaners[j].todo;
  }

  /** The broker removes the head order of cleanup `j` and acknowledges it. */
  lemma CleanerCancels(c: Config, s: State, j: nat)
    requires Inv(c, s) && j in s.cleaners && s.cleaners[j].todo != [] && !s.cleaners[j].acked
    requires s.cleaners[j].todo[0] in s.broker && s.broker[s.cleaners[j].todo[0]].phase.Working?
    ensures var t := s.cleaners[j].todo[0];
            Keeps(c, s, s.(broker := s.broker[t := s.broker[t].(phase := Removed)],
                           cleaners := s.cleaners[j := s.cleaners[j].(acked := true)]))
  {
    var t := s.cleaners[j].todo[0];
    var b' := s.broker[t].(phase := Removed);
    assert t in s.journal && RowOk(c, s.journal[t], s.broker[t]);
    BrokerMoves(c, s, t, b');
    var broker' := s.broker[t := b'];
    assert Confirmed(broker', s.journal, t) && !Confirmed(s.broker, s.journal, t);
  }

  lemma CleanCancelKeeps(c: Config, s: State, j: nat, effect: bool, ack: bool, s': State)
    requires Inv(c, s) && s' == CleanStep(s, CleanCancel(j, effect, ack))
    ensures Keeps(c, s, s')
  {
    if s'.broker == s.broker {
      if s' != s {
        CleanerAdvances(s.broker, s.journal, s.cleaners, j);
      }
    } else {
      CleanerCancels(c, s, j);
      if !ack {
        var acked := s.cleaners[j := s.cleaners[j].(acked := true)];
        CleanerAdvances(s'.broker, s.journal, acked, j);
        assert acked[j := Cleaner(s.cleaners[j].todo[1..], false)] == s'.cleaners;
      }
    }
  }

  /** The acknowledged cancel is journaled. */
  lemma CleanWriteKeeps(c: Config, s: State, j: nat, s': State)
    requires Inv(c, s) && s' == CleanStep(s, CleanWrite(j, true)) && s' != s
    ensures Keeps(c, s, s')
  {
    var t := s.cleaners[j].todo[0];
    assert Confirmed(s.broker, s.journal, t);
    assert RowOk(c, s.journal[t], s.broker[t]);
    var cleaners' := s.cleaners[j := Cleaner(s.cleaners[j].todo[1..], false)];
    CleanerAdvances(s.broker, s.journal, s.cleaners, j);
    LifeFrame(c, s.broker, s.journal, s.broker, s'.journal, true, s.life);
    forall k | k in cleaners' && cleaners'[k].acked ensures Confirmed(s.broker, s'.journal, cleaners'[k].todo[0]) {
      assert k != j && Confirmed(s.broker, s.journal, s.cleaners[k].todo[0]);
    }
  }

  lemma CleanKeeps(c: Config, s: State, e: Event, s': State)
    requires Inv(c, s) && s' == CleanStep(s, e)
    ensures Keeps(c, s, s')
  {
    if s' != s {
      if e.CleanCancel? {
        CleanCancelKeeps(c, s, e.j, e.effect, e.ack, s');
      } else if e.CleanWrite? && e.ok {
        CleanWriteKeeps(c, s, e.j, s');
      } else {
        assert CleanersOk(s'.broker, s'.journal, true, s'.cleaners);
      }
    }
  }

  // ---- crash and recovery ---------------------------------------------------------------------------

  /** Recovery writes a status for the row at the head of its list and goes on. */
  lemma RecoveryWrites(c: Config, s: State, status: Status)
    requires Inv(c, s) && s.mode.Rows? && s.mode.rows != []
    requires var t := s.mode.rows[0].ticket;
             && t in s.journal && t in s.broker
             && Edge(s.journal[t].status, status)
             && RowOk(c, s.journal[t].(status := status), s.broker[t])
             && !status.Tp1Hit?
             && (status.Filled? ==> t in s.mode.positions)
    ensures Keeps(c, s,
                  Write(s.(mode := Rows(s.mode.positions, s.mode.working, s.mode.rows[1..])), s.mode.rows[0].ticket,
                        status))
  {
    var rows := s.mode.rows;
    var row := s.journal[rows[0].ticket].(status := status);
    var journal' := s.journal[rows[0].ticket := row];
    TailPolledAfterWrite(s.broker, s.journal, rows, row);
    assert SnapshotOk(c, s.broker, journal', s.mode.positions);
    forall i | 0 <= i < |rows[1..]|
      ensures rows[1..][i].ticket in journal' && journal'[rows[1..][i].ticket].status == rows[1..][i].row.status {
      assert rows[i + 1].ticket != rows[0].ticket;
    }
    assert RecoveryRowsOk(journal', rows[1..]);
  }

  lemma RecoveryRowKeeps(c: Config, s: State, history: bool, ok: bool, s': State)
    requires Inv(c, s) && s' == RecoveryStep(c, s, RecRow(history, ok))
    ensures Keeps(c, s, s')
  {
    if s.mode.Rows? && s.mode.rows != [] {
      var p := s.mode.rows[0];
      assert PolledOk(s.broker, s.journal, p) && OrderOk(c, s.broker[p.ticket])
          && RowOk(c, s.journal[p.ticket], s.broker[p.ticket]);
      TailPolled(s.broker, s.journal, s.mode.rows);
      if s'.journal != s.journal {
        RecoveryWrites(c, s, s'.journal[p.ticket].status);
      } else if s'.mode.Rows? {
        assert RecoveryRowsOk(s.journal, s.mode.rows[1..]);
      }
    }
  }

  lemma RecoveryReads(c: Config, s: State, order: seq<Ticket>)
    requires StoresOk(c, s.broker, s.journal, s.placing) && Lists(s.journal, order, {Pending, Filled})
    ensures AllPolledOk(s.broker, s.journal, Poll(s.journal, order))
            && RecoveryRowsOk(s.journal, Poll(s.journal, order))
  {
    var rows := Poll(s.journal, order);
    forall i | 0 <= i < |rows|
      ensures PolledOk(s.broker, s.journal, rows[i]) && (rows[i].row.status.Pending? || rows[i].row.status.Filled?) {
      assert order[i] in order;
    }
  }

  lemma RecoveryCloses(c: Config, s: State, effect: bool, s': State)
    requires Inv(c, s) && s' == RecoveryStep(c, s, RecClose(effect))
    ensures Keeps(c, s, s')
  {
    if s'.broker != s.broker {
      var t := s.mode.todo[0];
      BrokerMoves(c, s, t, s'.broker[t]);
    }
  }

  lemma RecoveryKeeps(c: Config, s: State, e: Event, s': State)
    requires Inv(c, s) && s' == RecoveryStep(c, s, e)
    ensures Keeps(c, s, s')
  {
    if s' != s {
      if e.RecRead? {
        RecoveryReads(c, s, e.order);
      } else if e.RecRow? {
        RecoveryRowKeeps(c, s, e.history, e.ok, s');
      } else if e.RecClose? {
        RecoveryCloses(c, s, e.effect, s');
      }
    }
  }

  /** Every event keeps the invariant and moves journal statuses only along the documented edges. */
  lemma StepKeeps(c: Config, s: State, e: Event, s': State)
    requires Inv(c, s) && s' == Step(c, s, e)
    ensures Keeps(c, s, s')
  {
    match ActorOf(e)
    case TheBroker => BrokerKeeps(c, s, e, s');
    case Placement => PlaceKeeps(c, s, e, s');
    case LifecyclePoll => LifeBeginKeeps(c, s, e, s');
    case LifecycleHandler =>
      if s.life.Running? && s.life.todo != [] {
        LifeHandleKeeps(c, s, e, s');
      }
    case Cleanup => CleanKeeps(c, s, e, s');
    case Recovery => RecoveryKeeps(c, s, e, s');
  }
}

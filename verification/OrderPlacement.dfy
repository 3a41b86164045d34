/** From a setup to a limit order: size it, send it, journal it. */
module OrderPlacement {
  import opened Foundations
  import opened OrderProtocol
  import opened Desks
  import opened PositionSizing

  /**
    How `place_limit_order` ends: a success code, another code, or an exception.  After either of the
    last two the broker may hold the order all the same.
  */
  datatype Reply = Done | Retcode(code: int, effect: bool) | Exception(effect: bool) {
    predicate TookEffect() { Done? || effect }
  }

  /** What the outside world answers: the pre-trade guards, the account, the symbol, the broker, the database. */
  datatype Answers = Answers(guard: Option<string>, balance: Option<real>, symbol: Option<Symbol>, reply: Reply,
                             written: bool)

  datatype Risk = Risk(fraction: real, cap: Option<real>)

  /** Money at risk: a fraction of the balance, capped when a cap is set. */
  function Budget(risk: Risk, balance: real): real {
    var amount := Mul(balance, risk.fraction);
    if risk.cap.Some? then Min(amount, risk.cap.value) else amount
  }

  /** Everything before the broker is asked: the lot size, or the code of the check that refused. */
  function Sized(entry: real, stop: real, risk: Risk, a: Answers): Result<real> {
    if a.guard.Some? then Err(a.guard.value)
    else if a.balance.None? then Err("account_info_unavailable")
    else if a.symbol.None? then Err("symbol_info_unavailable")
    else if Abs(entry - stop) <= 0.0 then Err("invalid_sl_distance")
    else
      var volume := ComputeVolume(Budget(risk, a.balance.value), Abs(entry - stop), a.symbol.value);
      if volume.Err? then Err("invalid_volume") else volume
  }

  /** An order is sized exactly when nothing stands in its way before the broker is asked. */
  lemma SizedIff(entry: real, stop: real, risk: Risk, a: Answers)
    requires a.symbol.Some? ==> a.symbol.value.step >= 0.0
    ensures Sized(entry, stop, risk, a).Ok?
            <==> a.guard.None? && a.balance.Some? && a.symbol.Some? && entry != stop && a.symbol.value.contract > 0.0
  {
    if a.symbol.Some? && a.balance.Some? {
      RefusedIff(Budget(risk, a.balance.value), Abs(entry - stop), a.symbol.value);
    }
  }

  /** The first thing in its way is the one reported. */
  lemma RefusalIs(entry: real, stop: real, risk: Risk, a: Answers)
    requires Sized(entry, stop, risk, a).Err?
    ensures Sized(entry, stop, risk, a).error
            == if a.guard.Some? then a.guard.value
               else if a.balance.None? then "account_info_unavailable"
               else if a.symbol.None? then "symbol_info_unavailable"
               else if entry == stop then "invalid_sl_distance"
               else "invalid_volume"
  {
  }

  /** Losing the distance to the stop on every lot costs at most the fraction of the balance, and the cap. */
  ghost predicate WithinBudget(entry: real, stop: real, risk: Risk, balance: real, sym: Symbol, volume: real) {
    var loss := Mul(volume, Mul(Abs(entry - stop), sym.contract));
    loss <= Mul(risk.fraction, balance) && (risk.cap.Some? ==> loss <= risk.cap.value)
  }

  /**
    For a representable step an order above the minimum lot stays within the budget, and one below the
    maximum lot leaves no room for another step.
  */
  lemma SizedWithinBudget(entry: real, stop: real, risk: Risk, a: Answers)
    requires a.symbol.Some? && Sizable(Abs(entry - stop), a.symbol.value) && Sized(entry, stop, risk, a).Ok?
    ensures var v, sym, balance := Sized(entry, stop, risk, a).value, a.symbol.value, a.balance.value;
            && sym.vmin <= v <= sym.vmax
            && (v > sym.vmin ==> WithinBudget(entry, stop, risk, balance, sym, v))
            && (v < sym.vmax ==> !WithinBudget(entry, stop, risk, balance, sym, v + EffectiveStep(sym)))
  {
    var sym, distance := a.symbol.value, Abs(entry - stop);
    var budget, step := Budget(risk, a.balance.value), EffectiveStep(sym);
    var v := Sized(entry, stop, risk, a).value;
    VolumeIsSafe(budget, distance, sym);
    if v < sym.vmax {
      RawVolumeSpendsRisk(budget, distance, sym.contract);
      MulMonotone(RawVolume(budget, distance, sym.contract), v + step, Mul(distance, sym.contract));
    }
  }

  datatype OrderResult = Placed(ticket: Option<Ticket>) | Refused(code: string) | Rejected(retcode: int) | Raised

  ghost function Mine(desk: Desk, t: Ticket): seq<Event>
    reads desk
  {
    OwnEvents(Placing(t), desk.trace)
  }

  /** A ticket the broker has not used yet. */
  predicate Unused(s: State, t: Ticket) {
    t !in s.broker && t !in s.journal && t !in s.placing
  }

  /** The broker call; the others may act before it. */
  method Send(desk: Desk, t: Ticket, volume: real, reply: Reply) returns (accepted: bool)
    requires desk.Valid() && desk.s.mode.Up? && Unused(desk.s, t)
    modifies desk
    ensures desk.Valid() && desk.start == old(desk.start) && desk.s.mode.Up?
    ensures Mine(desk, t) == old(Mine(desk, t)) + (if reply.TookEffect() then [Accept(t, volume, reply.Done?)] else [])
    ensures accepted <==> reply.Done? && volume > 0.0
    ensures t !in desk.s.journal && (t in desk.s.placing <==> accepted)
    ensures t in desk.s.broker <==> volume > 0.0 && reply.TookEffect()
    ensures t in desk.s.broker ==> desk.s.broker[t].placed == volume
  {
    desk.Interfere(Placing(t));
    if reply.TookEffect() {
      desk.Act(Placing(t), Accept(t, volume, reply.Done?));
    }
    accepted := t in desk.s.placing;
  }

  /** `insert_order`, after the others may have acted on the new order. */
  method Record(desk: Desk, t: Ticket, volume: real, written: bool)
    requires desk.Valid() && t in desk.s.placing && t in desk.s.broker && t !in desk.s.journal
             && desk.s.broker[t].placed == volume
    modifies desk
    ensures desk.Valid() && desk.start == old(desk.start) && Mine(desk, t) == old(Mine(desk, t)) + [Insert(t, written)]
    ensures t in desk.s.broker && desk.s.broker[t].placed == volume
    ensures if written then t in desk.s.journal && desk.s.journal[t] == Row(Pending, volume) else t !in desk.s.journal
  {
    desk.Interfere(Placing(t));
    desk.Act(Placing(t), Insert(t, written));
  }

  /**
    `place_order`.  A refused or dry order leaves nothing behind; a reported success is a broker order
    and a `pending` row with the computed volume.  A rejection or an exception that came after the
    broker took the order leaves an order the journal does not know, and so does a failed insert.
  */
  method PlaceOrder(desk: Desk, t: Ticket, entry: real, stop: real, risk: Risk, dryRun: bool, a: Answers)
    returns (r: OrderResult)
    requires desk.Valid() && desk.s.mode.Up? && Unused(desk.s, t)
    modifies desk
    ensures desk.Valid() && desk.start == old(desk.start)
    ensures var size := Sized(entry, stop, risk, a);
            && (size.Err? ==> r == Refused(size.error) && Mine(desk, t) == old(Mine(desk, t)))
            && (size.Ok? && dryRun ==> r == Placed(None) && Mine(desk, t) == old(Mine(desk, t)))
            && (size.Ok? && !dryRun ==> Outcome(desk, t, size.value, a, r))
    ensures Reachable(desk.c, desk.start) ==> Reachable(desk.c, desk.s)
  {
    var size := Sized(entry, stop, risk, a);
    if size.Err? {
      r := Refused(size.error);
    } else if dryRun {
      r := Placed(None);
    } else {
      r := SendAndRecord(desk, t, size.value, a);
    }
    if Reachable(desk.c, desk.start) {
      ReachableExtends(desk.c, desk.start, desk.trace);
    }
  }

  /** What broker and journal hold under the ticket, by result. */
  predicate Outcome(desk: Desk, t: Ticket, volume: real, a: Answers, r: OrderResult)
    reads desk
  {
    match r
    case Placed(ticket) =>
      && ticket == Some(t) && a.reply.Done? && a.written && volume > 0.0
      && t in desk.s.broker && desk.s.broker[t].placed == volume
      && t in desk.s.journal && desk.s.journal[t] == Row(Pending, volume)
    case Rejected(code) =>
      code == (if a.reply.Retcode? then a.reply.code else 10014)
      && (a.reply.Retcode? || (a.reply.Done? && volume <= 0.0)) && t !in desk.s.journal
      && (t in desk.s.broker <==> a.reply.TookEffect() && volume > 0.0)
    case Refused(code) =>
      code == "order_send_exception" && a.reply.Exception? && t !in desk.s.journal
      && (t in desk.s.broker <==> a.reply.TookEffect() && volume > 0.0)
    case Raised => a.reply.Done? && !a.written && volume > 0.0 && t in desk.s.broker && t !in desk.s.journal
  }

  method SendAndRecord(desk: Desk, t: Ticket, volume: real, a: Answers) returns (r: OrderResult)
    requires desk.Valid() && desk.s.mode.Up? && Unused(desk.s, t)
    modifies desk
    ensures desk.Valid() && desk.start == old(desk.start) && Outcome(desk, t, volume, a, r)
  {
    var accepted := Send(desk, t, volume, a.reply);
    if a.reply.Exception? {
      return Refused("order_send_exception");
    }
    if !accepted {
      return Rejected(if a.reply.Retcode? then a.reply.code else INVALID_VOLUME);
    }
    Record(desk, t, volume, a.written);
    r := if a.written then Placed(Some(t)) else Raised;
  }

  /** TRADE_RETCODE_INVALID_VOLUME. */
  const INVALID_VOLUME := 10014
}

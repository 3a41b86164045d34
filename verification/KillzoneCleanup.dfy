/** Cancelling a killzone's unfilled orders while everything else goes on. */
module KillzoneCleanup {
  import opened Foundations
  import opened OrderProtocol
  import opened OrderSafety
  import opened OrderTheorems
  import opened Desks

  /** Whether the broker's cancel works and is acknowledged, and whether the journal write succeeds. */
  datatype Answers = Answers(effect: bool, ack: bool, written: bool)

  datatype Cancel = Succeeded | Refused | Raised

  /** The cleanup `j` stands at the first ticket of `todo`. */
  ghost predicate At(desk: Desk, j: nat, todo: seq<Ticket>)
    reads desk
  {
    desk.Valid() && j in desk.s.cleaners && desk.s.cleaners[j] == Cleaner(todo, false)
  }

  ghost function Mine(desk: Desk, j: nat): seq<Event>
    reads desk
  {
    OwnEvents(Killzone(j), desk.trace)
  }

  /** Journal and broker both say the order was taken back. */
  predicate TakenBack(s: State, t: Ticket) {
    JournaledCancelled(s, t) && t in s.broker && s.broker[t].phase.Removed?
  }

  function CancelSteps(j: nat, a: Answers, ok: bool): seq<Event> {
    if ok then [CleanCancel(j, true, true), CleanWrite(j, a.written)] else [CleanCancel(j, a.effect, a.ack)]
  }

  /** The job moves on from a ticket: what was settled stays settled. */
  twostate predicate Moved(desk: Desk, j: nat, es: seq<Event>)
    reads desk
  {
    && desk.Valid() && desk.start == old(desk.start) && Mine(desk, j) == old(Mine(desk, j)) + es
    && Inv(desk.c, desk.s) && Onward(desk.c, old(desk.s), desk.s)
  }

  /** `cancel_pending_order`: it works only on an order that is still pending. */
  method AskBroker(desk: Desk, j: nat, todo: seq<Ticket>, a: Answers) returns (acked: bool)
    requires At(desk, j, todo) && todo != [] && Inv(desk.c, desk.s) && todo[0] in desk.s.broker
    modifies desk
    ensures Moved(desk, j, [CleanCancel(j, a.effect, a.ack)])
    ensures acked ==> a.effect && a.ack && j in desk.s.cleaners && desk.s.cleaners[j] == Cleaner(todo, true)
    ensures !acked ==> At(desk, j, todo[1..])
    ensures a.effect && a.ack ==> NotWorking(desk.s, todo[0])
  {
    ghost var before := desk.s;
    desk.Act(Killzone(j), CleanCancel(j, a.effect, a.ack));
    StepOnward(desk.c, Killzone(j), before, CleanCancel(j, a.effect, a.ack), desk.s);
    acked := desk.s.cleaners[j].acked;
  }

  /** `cancel_order` for the ticket at the head. */
  method CancelOrder(desk: Desk, j: nat, todo: seq<Ticket>, a: Answers) returns (r: Cancel)
    requires At(desk, j, todo) && todo != [] && Inv(desk.c, desk.s) && todo[0] in desk.s.broker
    modifies desk
    ensures Moved(desk, j, CancelSteps(j, a, !r.Refused?))
    ensures r.Raised? ==> !a.written && j !in desk.s.cleaners
    ensures r.Succeeded? ==> JournaledCancelled(desk.s, todo[0])
    ensures !r.Raised? ==> At(desk, j, todo[1..])
    ensures a.effect && a.ack ==> NotWorking(desk.s, todo[0])
  {
    var acked := AskBroker(desk, j, todo, a);
    if !acked {
      return Refused;
    }
    desk.Interfere(Killzone(j));
    WriteCancelled(desk, j, todo, a.written);
    r := if a.written then Succeeded else Raised;
  }

  /** `update_order_status(..., "cancelled")`; a database failure ends the whole job. */
  method WriteCancelled(desk: Desk, j: nat, todo: seq<Ticket>, written: bool)
    requires desk.Valid() && Inv(desk.c, desk.s) && j in desk.s.cleaners && desk.s.cleaners[j] == Cleaner(todo, true)
             && todo != []
    modifies desk
    ensures Moved(desk, j, [CleanWrite(j, written)])
    ensures if written then At(desk, j, todo[1..]) && JournaledCancelled(desk.s, todo[0]) else j !in desk.s.cleaners
  {
    assert Confirmed(desk.s.broker, desk.s.journal, todo[0]);
    ghost var before := desk.s;
    desk.Act(Killzone(j), CleanWrite(j, written));
    StepOnward(desk.c, Killzone(j), before, CleanWrite(j, written), desk.s);
  }

  /** The tickets the job has to cancel: journaled pending and of this killzone. */
  ghost predicate Targets(journal: map<Ticket, Row>, belongs: Ticket -> bool, tickets: seq<Ticket>) {
    && (forall i, k :: 0 <= i < k < |tickets| ==> tickets[i] != tickets[k])
    && (forall t :: t in tickets <==> t in journal && journal[t].status.Pending? && belongs(t))
  }

  method Start(desk: Desk, j: nat, belongs: Ticket -> bool) returns (tickets: seq<Ticket>)
    requires desk.Valid() && desk.s.mode.Up? && j !in desk.s.cleaners && Inv(desk.c, desk.s)
    modifies desk
    ensures At(desk, j, tickets) && Moved(desk, j, [CleanStart(j, tickets)])
    ensures Targets(old(desk.s).journal, belongs, tickets) && forall t :: t in tickets ==> t in desk.s.broker
  {
    var journal := desk.s.journal;
    var wanted := set t | t in journal && journal[t].status.Pending? && belongs(t);
    tickets := Enumerate(wanted);
    assert forall t :: t in tickets <==> t in journal && journal[t].status.Pending? && belongs(t);
    ghost var before := desk.s;
    desk.Act(Killzone(j), CleanStart(j, tickets));
    StepOnward(desk.c, Killzone(j), before, CleanStart(j, tickets), desk.s);
  }

  function Steps(j: nat, tickets: seq<Ticket>, answers: Ticket -> Answers, oks: seq<bool>): seq<Event>
    requires |oks| <= |tickets|
  {
    if oks == [] then []
    else Steps(j, tickets, answers, oks[..|oks| - 1]) + CancelSteps(j, answers(tickets[|oks| - 1]), oks[|oks| - 1])
  }

  function Count(oks: seq<bool>): nat {
    if oks == [] then 0 else Count(oks[..|oks| - 1]) + (if oks[|oks| - 1] then 1 else 0)
  }

  /** What holds of the tickets already tried. */
  ghost predicate Settled(s: State, tickets: seq<Ticket>, answers: Ticket -> Answers, oks: seq<bool>)
    requires |oks| <= |tickets|
  {
    && (forall i :: 0 <= i < |oks| && oks[i] ==> JournaledCancelled(s, tickets[i]))
    && (forall i ::
        0 <= i < |oks| && answers(tickets[i]).effect && answers(tickets[i]).ack ==> NotWorking(s, tickets[i]))
  }

  lemma SettledStays(c: Config, s: State, s': State, tickets: seq<Ticket>, answers: Ticket -> Answers, oks: seq<bool>)
    requires |oks| <= |tickets| && Settled(s, tickets, answers, oks) && Inv(c, s) && Onward(c, s, s')
    ensures Settled(s', tickets, answers, oks)
  {
  }

  /** One iteration: try the ticket `i`. */
  method TryNext(desk: Desk, j: nat, tickets: seq<Ticket>, answers: Ticket -> Answers, i: nat, ghost oks: seq<bool>)
    returns (r: Cancel)
    requires i == |oks| < |tickets| && At(desk, j, tickets[i..]) && Inv(desk.c, desk.s)
             && Settled(desk.s, tickets, answers, oks)
    requires tickets[i] in desk.s.broker
    modifies desk
    ensures Moved(desk, j, CancelSteps(j, answers(tickets[i]), !r.Refused?))
    ensures r.Raised? ==> !answers(tickets[i]).written && j !in desk.s.cleaners
    ensures !r.Raised? ==> At(desk, j, tickets[i + 1..]) && Settled(desk.s, tickets, answers, oks + [r.Succeeded?])
  {
    ghost var before := desk.s;
    assert tickets[i..][0] == tickets[i] && tickets[i..][1..] == tickets[i + 1..];
    r := CancelOrder(desk, j, tickets[i..], answers(tickets[i]));
    SettledStays(desk.c, before, desk.s, tickets, answers, oks);
  }

  method End(desk: Desk, j: nat, ghost tickets: seq<Ticket>, ghost answers: Ticket -> Answers, ghost oks: seq<bool>)
    requires At(desk, j, []) && Inv(desk.c, desk.s) && |oks| <= |tickets| && Settled(desk.s, tickets, answers, oks)
    modifies desk
    ensures Moved(desk, j, [CleanEnd(j)]) && j !in desk.s.cleaners
    ensures forall i :: 0 <= i < |oks| && oks[i] ==> TakenBack(desk.s, tickets[i])
    ensures Settled(desk.s, tickets, answers, oks)
  {
    ghost var before := desk.s;
    desk.Act(Killzone(j), CleanEnd(j));
    StepOnward(desk.c, Killzone(j), before, CleanEnd(j), desk.s);
    SettledStays(desk.c, before, desk.s, tickets, answers, oks);
    forall i | 0 <= i < |oks| && oks[i] ensures TakenBack(desk.s, tickets[i]) {
      assert JournaledCancelled(desk.s, tickets[i]);
    }
  }

  /** Progress of the loop over the targets since `s0`, when the job's own steps were `mine`. */
  ghost predicate Trying(desk: Desk, s0: State, start: State, mine: seq<Event>, j: nat, tickets: seq<Ticket>,
                         answers: Ticket -> Answers, oks: seq<bool>)
    requires |oks| <= |tickets|
    reads desk
  {
    && At(desk, j, tickets[|oks|..]) && desk.start == start && Mine(desk, j) == mine + Steps(j, tickets, answers, oks)
    && Inv(desk.c, desk.s) && Onward(desk.c, s0, desk.s) && Settled(desk.s, tickets, answers, oks)
  }

  lemma OneMore(mine: seq<Event>, j: nat, tickets: seq<Ticket>, answers: Ticket -> Answers, oks: seq<bool>, ok: bool)
    requires |oks| < |tickets|
    ensures mine + Steps(j, tickets, answers, oks) + CancelSteps(j, answers(tickets[|oks|]), ok)
            == mine + Steps(j, tickets, answers, oks + [ok])
    ensures Count(oks + [ok]) == Count(oks) + (if ok then 1 else 0)
  {
    assert (oks + [ok])[..|oks|] == oks;
  }

  /** The loop over the targets; a raised database failure leaves it early. */
  method TryAll(desk: Desk, j: nat, tickets: seq<Ticket>, answers: Ticket -> Answers)
    returns (raised: bool, cancelled: nat, ghost oks: seq<bool>)
    requires At(desk, j, tickets) && Inv(desk.c, desk.s) && forall t :: t in tickets ==> t in desk.s.broker
    modifies desk
    ensures |oks| <= |tickets|
    ensures !raised ==> |oks| == |tickets| && cancelled == Count(oks)
                        && Trying(desk, old(desk.s), old(desk.start), old(Mine(desk, j)), j, tickets, answers, oks)
    ensures raised ==>
              |oks| < |tickets| && !answers(tickets[|oks|]).written && j !in desk.s.cleaners && desk.Valid()
              && desk.start == old(desk.start)
              && Mine(desk, j) == old(Mine(desk, j)) + Steps(j, tickets, answers, oks)
                                  + CancelSteps(j, answers(tickets[|oks|]), true)
  {
    raised, cancelled, oks := false, 0, [];
    ghost var s0, start, mine := desk.s, desk.start, Mine(desk, j);
    for i := 0 to |tickets|
      invariant |oks| == i && cancelled == Count(oks) && !raised
      invariant Trying(desk, s0, start, mine, j, tickets, answers, oks)
    {
      ghost var here := desk.s;
      assert tickets[i] in tickets;
      var r := TryNext(desk, j, tickets, answers, i, oks);
      if r.Raised? {
        raised := true;
        return;
      }
      OnwardTrans(desk.c, s0, here, desk.s);
      OneMore(mine, j, tickets, answers, oks, r.Succeeded?);
      if r.Succeeded? {
        cancelled := cancelled + 1;
      }
      oks := oks + [r.Succeeded?];
    }
  }

  /**
    `end_of_killzone_cleanup`.  Unless a journal write fails it tries every target once and returns
    how many it cancelled.  When it returns those are cancelled in both stores, and no order whose
    cancel the broker honours is left working, whatever the lifecycle, the other cleanups and the
    broker did meanwhile.
  */
  method EndOfKillzoneCleanup(desk: Desk, j: nat, belongs: Ticket -> bool, answers: Ticket -> Answers)
    returns (raised: bool, cancelled: nat, ghost tickets: seq<Ticket>, ghost oks: seq<bool>)
    requires desk.Valid() && desk.s.mode.Up? && j !in desk.s.cleaners && Reachable(desk.c, desk.s)
    modifies desk
    ensures desk.Valid() && desk.start == old(desk.start) && j !in desk.s.cleaners
    ensures Targets(old(desk.s).journal, belongs, tickets) && |oks| <= |tickets|
    ensures raised ==> |oks| < |tickets| && !answers(tickets[|oks|]).written
    ensures !raised ==>
              && |oks| == |tickets| && cancelled == Count(oks)
              && Mine(desk, j)
                  == old(Mine(desk, j)) + ([CleanStart(j, tickets)] + Steps(j, tickets, answers, oks) + [CleanEnd(j)])
              && (forall i :: 0 <= i < |tickets| && oks[i] ==> TakenBack(desk.s, tickets[i]))
              && (forall i ::
                  0 <= i < |tickets| && answers(tickets[i]).effect && answers(tickets[i]).ack ==>
                  NotWorking(desk.s, tickets[i]))
  {
    ReachableInv(desk.c, desk.s);
    ghost var mine := Mine(desk, j);
    var todo := Start(desk, j, belongs);
    tickets := todo;
    raised, cancelled, oks := TryAll(desk, j, todo, answers);
    if raised {
      return;
    }
    End(desk, j, tickets, answers, oks);
    Regroup(mine, [CleanStart(j, tickets)], Steps(j, tickets, answers, oks), [CleanEnd(j)]);
  }
}

/** Which sweeps of a killzone are judged, and the order in which the verdicts come out. */
module DayOrder {
  import opened Foundations
  import opened SweepTypes
  import opened Gathering
  import opened SweepDedup
  import opened SweepDetection
  import opened SameEvents
  import opened SetupBuilder

  /** No two are of one event, and they come in order of time. */
  ghost predicate Apart(tol: Tolerance, sweeps: seq<Sweep>) {
    forall a, b :: 0 <= a < b < |sweeps| ==> !SameEvent(tol, sweeps[a], sweeps[b]) && sweeps[a].time <= sweeps[b].time
  }

  lemma {:induction false} AlignedStayApart(tol: Tolerance, sweeps: seq<Sweep>, bias: Trend)
    requires Apart(tol, sweeps)
    ensures Apart(tol, Aligned(sweeps, bias))
    decreases |sweeps|
  {
    if sweeps != [] {
      var n := |sweeps| - 1;
      var init, before := sweeps[..n], Aligned(sweeps[..n], bias);
      AlignedStayApart(tol, init, bias);
      forall a | 0 <= a < |before|
        ensures !SameEvent(tol, before[a], sweeps[n]) && before[a].time <= sweeps[n].time {
        AlignedAre(init, bias, before[a]);
        var i :| 0 <= i < |init| && init[i] == before[a];
        assert sweeps[i] == before[a];
      }
    }
  }

  /** The sweeps judged in a killzone. */
  ghost function Judgeable(candles: seq<Candle>, tol: Tolerance, session: Session): seq<Sweep> {
    if session.bias.None? then [] else Aligned(Reported(candles, tol, session), session.bias.value)
  }

  /**
    Judged are exactly the sweeps along the bias that outrank every sweep of the killzone they are chained
    to; they are of different events and in order of time.
  */
  lemma JudgedIff(candles: seq<Candle>, tol: Tolerance, session: Session, s: Sweep)
    ensures var raw := RawSweeps(candles, session.levels, session.scan);
            s in Judgeable(candles, tol, session)
            <==> session.bias == Some(s.direction) && exists k: nat :: Stands(tol, raw, k) && raw[k] == s
    ensures Apart(tol, Judgeable(candles, tol, session))
  {
    if session.bias.Some? {
      var raw, bias := RawSweeps(candles, session.levels, session.scan), session.bias.value;
      AlignedAre(Reported(candles, tol, session), bias, s);
      KeptIff(tol, raw, s);
      KeptApart(tol, raw);
      AlignedStayApart(tol, Dedup(tol, raw), bias);
    }
  }

  // ---- the order of the verdicts -------------------------------------------------------------------------

  /** Verdict `k` is the one on the killzone's sweep `k`. */
  lemma {:induction false} VerdictAt(cfg: Settings, candles: seq<Candle>, session: Session, bias: Trend,
                                     sweeps: seq<Sweep>, k: nat)
    requires k < |sweeps|
    ensures Verdicts(cfg, candles, session, bias, sweeps)[k] == JudgeOne(cfg, candles, session, bias, sweeps[k])
    decreases |sweeps|
  {
    if k < |sweeps| - 1 {
      VerdictAt(cfg, candles, session, bias, sweeps[..|sweeps| - 1], k);
    }
  }

  /** The verdicts' sweeps come in order of time. */
  ghost predicate ByTime(vs: seq<Verdict>) {
    forall a, b :: 0 <= a < b < |vs| ==> SweepOf(vs[a]).time <= SweepOf(vs[b]).time
  }

  lemma {:induction false} RejectionsAre(vs: seq<Verdict>, v: Verdict)
    ensures v in RejectionsOf(vs) <==> v in vs && v.Rejected?
    decreases |vs|
  {
    if vs != [] {
      RejectionsAre(vs[..|vs| - 1], v);
      assert vs == vs[..|vs| - 1] + [vs[|vs| - 1]];
    }
  }

  ghost predicate SetupsByTime(setups: seq<Setup>) {
    forall a, b :: 0 <= a < b < |setups| ==> setups[a].sweep.time <= setups[b].sweep.time
  }

  /** Setups and rejections each come in order of their sweeps' times. */
  lemma {:induction false} SplitByTime(vs: seq<Verdict>)
    requires ByTime(vs)
    ensures SetupsByTime(SetupsOf(vs))
    ensures ByTime(RejectionsOf(vs))
    decreases |vs|
  {
    if vs != [] {
      var init, last := vs[..|vs| - 1], vs[|vs| - 1];
      SplitByTime(init);
      forall s | s in SetupsOf(init) ensures s.sweep.time <= SweepOf(last).time {
        SetupsAreAccepted(init, s);
        var i :| 0 <= i < |init| && init[i] == Accepted(s);
        assert vs[i] == Accepted(s);
      }
      forall v | v in RejectionsOf(init) ensures SweepOf(v).time <= SweepOf(last).time {
        RejectionsAre(init, v);
        var i :| 0 <= i < |init| && init[i] == v;
        assert vs[i] == v;
      }
    }
  }

  /**
    The setups of a killzone come in order of their sweeps, and so do its rejections; the times of their
    confirmations play no part in it.
  */
  lemma SessionInOrder(cfg: Settings, candles: seq<Candle>, tol: Tolerance, session: Session)
    ensures var vs := SessionVerdicts(cfg, candles, tol, session);
            SetupsByTime(SetupsOf(vs)) && ByTime(RejectionsOf(vs))
  {
    var vs, sweeps := SessionVerdicts(cfg, candles, tol, session), Judgeable(candles, tol, session);
    if session.bias.Some? {
      KeptApart(tol, RawSweeps(candles, session.levels, session.scan));
      AlignedStayApart(tol, Reported(candles, tol, session), session.bias.value);
      VerdictsCarrySweeps(cfg, candles, session, session.bias.value, sweeps);
      assert forall k :: 0 <= k < |vs| ==> SweepOf(vs[k]) == Each(SweepOf, vs)[k];
    }
    SplitByTime(vs);
  }

  /** A further killzone adds its setups and its rejections after those of the earlier ones. */
  lemma DayInOrder(cfg: Settings, candles: seq<Candle>, tol: Tolerance, sessions: seq<Session>, last: Session)
    ensures var before, now, day := DayVerdicts(cfg, candles, tol, sessions),
                SessionVerdicts(cfg, candles, tol, last), DayVerdicts(cfg, candles, tol, sessions + [last]);
            && SetupsOf(day) == SetupsOf(before) + SetupsOf(now)
            && RejectionsOf(day) == RejectionsOf(before) + RejectionsOf(now)
  {
    var n, all := |sessions|, sessions + [last];
    var f, g := Rounds(cfg, candles, tol, sessions), Rounds(cfg, candles, tol, all);
    forall i: nat | i < n ensures f(i) == g(i) {
      assert all[i] == sessions[i];
    }
    GatherSame(f, g, n);
    LastRound(cfg, candles, tol, sessions, last);
    SplitAppend(Gather(g, n), g(n));
  }

  lemma LastRound(cfg: Settings, candles: seq<Candle>, tol: Tolerance, sessions: seq<Session>, last: Session)
    ensures Rounds(cfg, candles, tol, sessions + [last])(|sessions|) == SessionVerdicts(cfg, candles, tol, last)
  {
    assert (sessions + [last])[|sessions|] == last;
  }
}

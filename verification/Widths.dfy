/** When the 64-bit counters of the program agree with the unbounded integers of the model. */
module Widths {
  import opened Collections
  import opened Ledger
  import opened Sessions
  import opened Metering
  import opened Invariants
  import opened Ticks
  import opened Conservation
  import opened Exhaustion

  /** Everything charged or carried was metered, one rate per billed second, over the session's whole life. */
  ghost predicate MeteredBound(s: Session) {
    && 60 * s.charged + s.numerator <= s.rate * TotalTicks(s.log)
    && 0 <= TotalTicks(s.log) <= s.billedSeconds
    && 0 <= s.pendingSeconds
    && 0 <= HighestBucket(s.log) <= s.charged
    && SummarisedSeconds(s.log) >= 0 && SummarisedUnits(s.log) >= 0 && ForfeitedSeconds(s.log) >= 0
  }

  /** The times a session remembers come from clock readings up to c. */
  ghost predicate TimesBound(s: Session, c: int) {
    0 <= s.lastSummaryAt <= c && (s.retryAt == 0 || 0 <= s.retryAt + UNIX_EPOCH - 60 <= Unix(c) + UNIX_EPOCH)
  }

  ghost predicate Bounded(s: Session, c: int) { MeteredBound(s) && TimesBound(s, c) }

  lemma BoundAccrue(p: Params, s: Session, c: int)
    requires SessionOK(s) && Bounded(s, c)
    ensures Bounded(AccrueSecond(p, Billed(s)), c)
  {
    TimesSuccessor(s.rate, TotalTicks(s.log));
  }

  lemma BoundBook(s: Session, c: int)
    requires SessionOK(s) && Bounded(s, c) && s.numerator >= 60
    ensures Bounded(BookDebit(s, s.numerator / 60), c)
  {
  }

  lemma BoundSummarise(p: Params, s: Session, now: int, c: int)
    requires Bounded(s, c) && s.pendingUnits >= 0 && 0 < now <= c
    ensures Bounded(Summarise(p, s, now), c)
  {
  }

  lemma BoundCarry(s: Session, c: int)
    requires SessionOK(s) && Bounded(s, c) && s.numerator < 60
    ensures Bounded(CarryOver(s), c)
  {
    NumeratorIsNonNegative(s);
  }

  lemma UnixGrows(now: int, c: int)
    requires now <= c
    ensures Unix(now) <= Unix(c)
  {
  }

  lemma BoundRefuse(s: Session, units: int, bal: int, now: int, c: int)
    requires Bounded(s, c) && 0 < now <= c
    ensures Bounded(RefuseDebit(s, units, bal, now), c)
  {
    UnixGrows(now, c);
  }

  lemma BoundSettle(p: Params, l: Books, id: string, s: Session, now: int, c: int)
    requires SessionOK(s) && Bounded(s, c) && 0 < now <= c
    ensures Bounded(SettleWindow(p, l, id, s, now).session, c)
  {
    SettleCases(p, l, id, s, now);
    if s.numerator < 60 {
      BoundCarry(s, c);
    } else {
      BoundBook(s, c);
      BoundSummarise(p, BookDebit(s, s.numerator / 60), now, c);
      BoundRefuse(s, s.numerator / 60, Balance(l, s.agent), now, c);
    }
  }

  lemma BoundTick(p: Params, l: Books, id: string, s: Session, now: int, c: int)
    requires SessionOK(s) && Bounded(s, c) && 0 < now <= c
    ensures Bounded(TickSession(p, l, id, s, now).session, c)
  {
    TickCases(p, l, id, s, now);
    assert Bounded(Billed(s), c);
    if Accrues(p, s, now) {
      BilledKeeps(s);
      AccrueKeeps(p, Billed(s));
      BoundAccrue(p, s, c);
      BoundSettle(p, l, id, AccrueSecond(p, Billed(s)), now, c);
    }
  }

  lemma BoundStart(s: Session, naryo: Option<string>, c: int)
    requires SessionOK(s) && Bounded(s, c)
    ensures Bounded(StartEdit(s, naryo).session, c)
  {
    NumeratorIsNonNegative(s);
  }

  lemma BoundEdits(s: Session, active: bool, c: int)
    requires Bounded(s, c)
    ensures Bounded(StopEdit(s).session, c) && Bounded(PauseEdit(s).session, c) && Bounded(ResumeEdit(s).session, c)
    ensures Bounded(StreamEdit(s, active).session, c)
  {
  }

  lemma BoundMove(p: Params, id: string, op: Op, s: Session, s': Session, c: int)
    requires SessionOK(s) && Bounded(s, c) && Moves(p, id, op, s, s')
    requires op.BillingTick? ==> 0 < op.now <= c
    ensures Bounded(s', c)
  {
    if s' != s {
      match op {
        case BillingTick(now, _) =>
          var l :| s' == TickSession(p, l, id, s, now).session;
          BoundTick(p, l, id, s, now, c);
        case Start(_, naryo) => BoundStart(s, naryo, c);
        case SetStream(_, active) => BoundEdits(s, active, c);
        case _ => BoundEdits(s, true, c);
      }
    }
  }

  /** Every tick of the run reads a clock of at most c. */
  ghost predicate ClockWithin(ops: seq<Op>, c: int) {
    forall op :: op in ops && op.BillingTick? ==> op.now <= c
  }

  lemma {:induction false} BoundedRun(p: Params, ops: seq<Op>, id: string, c: int)
    requires Sound(p) && ValidRun(p, EmptyWorld, ops) && id in Run(p, EmptyWorld, ops).sessions
    requires ClockWithin(ops, c) && c >= 0
    ensures Bounded(Run(p, EmptyWorld, ops).sessions[id], c)
  {
    if ops != [] {
      var before, op := ops[..|ops| - 1], ops[|ops| - 1];
      var w := Run(p, EmptyWorld, before);
      EmptyWorldOK(p);
      RunKeeps(p, EmptyWorld, before);
      StepMoves(p, w, op, id);
      if id in w.sessions {
        BoundedRun(p, before, id, c);
        BoundMove(p, id, op, w.sessions[id], Run(p, EmptyWorld, ops).sessions[id], c);
      }
    }
  }

  // ---------------------------------------------------------------------------------------------
  // Every moment of a run

  lemma MoveBills(p: Params, id: string, op: Op, s: Session, s': Session)
    requires Moves(p, id, op, s, s')
    ensures s'.agent == s.agent && s'.billedSeconds >= s.billedSeconds
  {
    if s' != s && op.BillingTick? {
      var l :| s' == TickSession(p, l, id, s, op.now).session;
    }
  }

  lemma AcceptedGrows(p: Params, ops: seq<Op>, agent: string)
    requires ops != []
    ensures FirstTotal(AcceptedTopUps(p, ops[..|ops| - 1]), agent) <= FirstTotal(AcceptedTopUps(p, ops), agent)
  {
    var before := AcceptedTopUps(p, ops[..|ops| - 1]);
    if AcceptedTopUps(p, ops) != before {
      FirstTotalSnoc(before, ops[|ops| - 1].topUp, agent);
    }
  }

  /** From any moment of a run to its end, billed seconds and accepted credits only grow. */
  lemma {:induction false} RunGrows(p: Params, ops: seq<Op>, id: string, k: nat)
    requires Sound(p) && ValidRun(p, EmptyWorld, ops) && k <= |ops|
    requires id in Run(p, EmptyWorld, ops[..k]).sessions
    ensures ValidRun(p, EmptyWorld, ops[..k]) && id in Run(p, EmptyWorld, ops).sessions
    ensures var s, t := Run(p, EmptyWorld, ops[..k]).sessions[id], Run(p, EmptyWorld, ops).sessions[id];
            && s.agent == t.agent && s.billedSeconds <= t.billedSeconds
            && FirstTotal(AcceptedTopUps(p, ops[..k]), s.agent) <= FirstTotal(AcceptedTopUps(p, ops), s.agent)
  {
    if k == |ops| {
      assert ops[..k] == ops;
    } else {
      var before, op := ops[..|ops| - 1], ops[|ops| - 1];
      assert before[..k] == ops[..k];
      RunGrows(p, before, id, k);
      var w := Run(p, EmptyWorld, before);
      EmptyWorldOK(p);
      RunKeeps(p, EmptyWorld, before);
      StepKeepsSessions(p, w, op, id);
      StepMoves(p, w, op, id);
      MoveBills(p, id, op, w.sessions[id], Run(p, EmptyWorld, ops).sessions[id]);
      AcceptedGrows(p, ops, w.sessions[id].agent);
    }
  }

  ghost predicate SessionFitsInt64(s: Session) {
    && Int64(s.numerator) && Int64(s.window) && Int64(s.charged) && Int64(s.debitSeq) && Int64(s.debitSeq + 1)
    && Int64(s.pendingUnits) && Int64(s.pendingSeconds) && Int64(s.billedSeconds) && Int64(s.retryAt)
  }

  lemma BoundedSessionFits(s: Session, c: int)
    requires SessionOK(s) && Bounded(s, c) && s.rate * s.billedSeconds <= MAX_INT64 && Int64(Unix(c) + 60)
    ensures SessionFitsInt64(s)
  {
    TimesMono(TotalTicks(s.log), s.billedSeconds, s.rate);
    TimesMono(1, s.rate, s.billedSeconds);
    NumeratorIsNonNegative(s);
    assert s.billedSeconds <= MAX_INT64;
    assert 0 <= s.numerator <= MAX_INT64;
    assert 0 <= s.charged <= MAX_INT64;
    assert 60 * s.charged <= MAX_INT64;
    assert Int64(s.retryAt);
  }

  lemma BalanceFits(p: Params, w: World, agent: string)
    requires WorldOK(p, w)
    ensures 0 <= Balance(w.books, agent) <= FirstTotal(w.topUps, agent)
  {
    SumMapNonNegative(Measured(w.sessions, agent, Fresh));
  }

  /** The accrued numerator of a tick, before the window is settled, is within what was metered. */
  lemma AccrualFits(rate: int, numerator: int, ticks: int, billed: int)
    requires 0 <= rate && 0 <= numerator <= rate * ticks && ticks < billed
    ensures 0 <= numerator + rate <= rate * billed
  {
    TimesSuccessor(rate, ticks);
    TimesMono(ticks + 1, billed, rate);
  }

  /** A session that will have been billed for that many seconds in the end. */
  lemma MomentFits(s: Session, c: int, billed: int)
    requires SessionOK(s) && Bounded(s, c) && s.billedSeconds <= billed && s.rate * billed <= MAX_INT64
    requires Int64(Unix(c) + 60)
    ensures SessionFitsInt64(s)
    ensures s.billedSeconds < billed ==> Int64(s.numerator + s.rate)
  {
    TimesMono(s.billedSeconds, billed, s.rate);
    BoundedSessionFits(s, c);
    if s.billedSeconds < billed {
      NumeratorIsNonNegative(s);
      AccrualFits(s.rate, s.numerator, TotalTicks(s.log), billed);
    }
  }

  /** What the invariants say of one moment of a run. */
  lemma MomentIsBounded(p: Params, ops: seq<Op>, id: string, c: int)
    requires Sound(p) && ValidRun(p, EmptyWorld, ops) && id in Run(p, EmptyWorld, ops).sessions
    requires ClockWithin(ops, c) && c >= 0
    ensures var w := Run(p, EmptyWorld, ops);
            && SessionOK(w.sessions[id]) && w.sessions[id].rate == p.rate && Bounded(w.sessions[id], c)
            && 0 <= Balance(w.books, w.sessions[id].agent) <= FirstTotal(AcceptedTopUps(p, ops), w.sessions[id].agent)
  {
    EmptyWorldOK(p);
    RunKeeps(p, EmptyWorld, ops);
    BoundedRun(p, ops, id, c);
    RunTopUps(p, ops);
    BalanceFits(p, Run(p, EmptyWorld, ops), Run(p, EmptyWorld, ops).sessions[id].agent);
  }

  /**
   No addition wraps. Take any run whose credits to the agent, whose rate times billed seconds and whose clock
   readings stay within int64. Then at every moment of the run each counter of the session, the bucket it would use
   next, its retry time and its agent's balance are within int64, and so is the numerator a tick accrues before it
   settles; and no remembered summary time exceeds the clock.
   */
  lemma CountersFitInt64(p: Params, ops: seq<Op>, id: string, c: int, k: nat)
    requires Sound(p) && ValidRun(p, EmptyWorld, ops) && id in Run(p, EmptyWorld, ops).sessions
    requires ClockWithin(ops, c) && c >= 0 && Int64(Unix(c) + 60)
    requires var s := Run(p, EmptyWorld, ops).sessions[id];
             p.rate * s.billedSeconds <= MAX_INT64 && FirstTotal(AcceptedTopUps(p, ops), s.agent) <= MAX_INT64
    requires k <= |ops| && id in Run(p, EmptyWorld, ops[..k]).sessions
    ensures var w := Run(p, EmptyWorld, ops[..k]);
            && SessionFitsInt64(w.sessions[id]) && w.sessions[id].lastSummaryAt <= c
            && 0 <= Balance(w.books, w.sessions[id].agent) <= MAX_INT64
            && (w.sessions[id].billedSeconds < Run(p, EmptyWorld, ops).sessions[id].billedSeconds ==>
                  Int64(w.sessions[id].numerator + p.rate))
  {
    RunGrows(p, ops, id, k);
    MomentIsBounded(p, ops[..k], id, c);
    MomentFits(Run(p, EmptyWorld, ops[..k]).sessions[id], c, Run(p, EmptyWorld, ops).sessions[id].billedSeconds);
  }

  /** The prepaid minimum is one product of two settings; it fits when they do not exceed the square root of the range. */
  lemma PrepaidMinFits(p: Params)
    requires Sound(p) && p.rate <= 3_037_000_499 && p.minStart <= 3_037_000_499
    ensures Int64(PrepaidMinUnits(p))
  {
    TimesMono(p.rate, 3_037_000_499, p.minStart);
    TimesMono(p.minStart, 3_037_000_499, 3_037_000_499);
  }
}

/**
 What each call and each tick promises, in terms of the fields a session has before and after it: when it is refused
 and with what error, what it changes and what it leaves alone. The functions that perform them are not named here.
 */
module Promises {
  import opened Collections
  import opened Ledger
  import opened Sessions
  import opened Metering
  import opened Invariants
  import opened Ticks

  // ---------------------------------------------------------------------------------------------
  // Settings and clock

  /** Options that are positive are taken, others get a default; the summary window is the nearest one allowed. */
  lemma SettingsAre(rate: int, interval: int, minStart: int, window: int, prepaid: bool)
    ensures var p := NewParams(rate, interval, minStart, window, prepaid);
            && p.rate == (if rate > 0 then rate else 1)
            && p.interval == (if interval > 0 then interval else 300)
            && p.minStart == (if minStart > 0 then minStart else 10)
            && 5 <= p.window <= 15 && p.prepaid == prepaid
            && (5 <= window <= 15 ==> p.window == window)
            && (window < 5 ==> p.window == 5) && (window > 15 ==> p.window == 15)
  {
  }

  /** Unix time is zero at the beginning of 1970 and counts whole seconds. */
  lemma UnixIs(now: int)
    ensures Unix(62_135_596_800_000_000_000) == 0 && Unix(now + 1_000_000_000) == Unix(now) + 1
    ensures 0 <= now - (Unix(now) + 62_135_596_800) * 1_000_000_000 < 1_000_000_000
  {
  }

  // ---------------------------------------------------------------------------------------------
  // Lifecycle calls

  /** The agent of a prepaid service has less than the minimal number of minutes costs. */
  ghost predicate Short(p: Params, w: World, agent: string) {
    p.prepaid && agent != "" && Balance(w.books, agent) < p.rate * p.minStart
  }

  /** The prepaid error reports what the agent has and what it needs. */
  ghost function ShortError(p: Params, w: World, agent: string): Error {
    InsufficientPrepaid(Balance(w.books, agent), p.rate * p.minStart)
  }

  /** The call turned one session into t and did nothing else. */
  ghost predicate Became(w: World, o: Outcome, id: string, t: Session) {
    && o.error.None? && o.world.books == w.books && o.world.topUps == w.topUps
    && o.world.sessions.Keys == w.sessions.Keys + {id}
    && forall i :: i in o.world.sessions ==> o.world.sessions[i] == if i == id then t else w.sessions[i]
  }

  /** The call was refused and changed nothing. */
  ghost predicate Refuses(w: World, o: Outcome, e: Error) { o.world == w && o.error == Some(e) }

  /** A new session is idle, has been charged nothing and carries the service's rate and summary window. */
  lemma CreateIs(p: Params, w: World, id: string, agent: string)
    requires id !in w.sessions
    ensures var o := Step(p, w, Create(id, agent));
            if Short(p, w, agent) then Refuses(w, o, ShortError(p, w, agent))
            else
              exists t :: Became(w, o, id, t)
                && t.agent == agent && t.rate == p.rate && t.summaryWindow == p.window && t.state == Created
                && !t.streamActive && !t.retryPending && !t.autoPaused && t.log == Empty && t.lastNaryoOp == ""
                && t.billedSeconds == t.charged == t.numerator == t.window == t.debitSeq == t.retryAt == 0
                && t.pendingUnits == t.pendingSeconds == t.lastSummaryAt == 0
  {
    if !Short(p, w, agent) { assert Became(w, Step(p, w, Create(id, agent)), id, NewSession(p, agent)); }
  }

  /** A start makes a created or paused session run with its stream active and a new meter. */
  lemma StartIs(p: Params, w: World, id: string, naryo: Option<string>)
    ensures var o := Step(p, w, Start(id, naryo));
            if id !in w.sessions then Refuses(w, o, NotFound)
            else
              var s := w.sessions[id];
              if Short(p, w, s.agent) then Refuses(w, o, ShortError(p, w, s.agent))
              else if s.state == Running || s.state == Stopped then Refuses(w, o, InvalidTransition)
              else if naryo.None? then Refuses(w, o, NaryoError)
              else
                Became(w, o, id, s.(state := Running, streamActive := true, lastNaryoOp := naryo.value, numerator := 0,
                                    window := 0, debitSeq := 0, retryPending := false, retryAt := 0,
                                    autoPaused := false, log := Snoc(s.log, Started)))
  {
  }

  /** A stop ends a session in any state; what was metered stays. */
  lemma StopIs(p: Params, w: World, id: string, naryoOk: bool)
    ensures var o := Step(p, w, Stop(id, naryoOk));
            if id !in w.sessions then Refuses(w, o, NotFound)
            else if !naryoOk then Refuses(w, o, NaryoError)
            else
              var s := w.sessions[id];
              Became(w, o, id, s.(state := Stopped, streamActive := if s.state == Stopped then s.streamActive else false))
  {
  }

  /** A pause keeps a running session's meter, an open grace period included. */
  lemma PauseIs(p: Params, w: World, id: string, naryoOk: bool)
    ensures var o := Step(p, w, Pause(id, naryoOk));
            if !naryoOk then Refuses(w, o, NaryoError)
            else if id !in w.sessions then Refuses(w, o, NotFound)
            else if w.sessions[id].state != Running then Refuses(w, o, InvalidTransition)
            else Became(w, o, id, w.sessions[id].(state := Paused, streamActive := false))
  {
  }

  /** A resume makes a paused session run again with its stream active, its meter as it was and no grace pending. */
  lemma ResumeIs(p: Params, w: World, id: string, naryoOk: bool)
    ensures var o := Step(p, w, Resume(id, naryoOk));
            if id !in w.sessions then Refuses(w, o, NotFound)
            else
              var s := w.sessions[id];
              if Short(p, w, s.agent) then Refuses(w, o, ShortError(p, w, s.agent))
              else if !naryoOk then Refuses(w, o, NaryoError)
              else if s.state != Paused then Refuses(w, o, InvalidTransition)
              else
                Became(w, o, id, s.(state := Running, streamActive := true, retryPending := false, retryAt := 0,
                                    autoPaused := false, log := Snoc(s.log, Resumed)))
  {
  }

  /** The stream flag of a running session is what was asked for. */
  lemma SetStreamIs(p: Params, w: World, id: string, active: bool)
    ensures var o := Step(p, w, SetStream(id, active));
            if id !in w.sessions then Refuses(w, o, NotFound)
            else if w.sessions[id].state != Running then Refuses(w, o, InvalidTransition)
            else Became(w, o, id, w.sessions[id].(streamActive := active))
  {
  }

  /** A top-up needs a ledger, an agent and a positive amount; it touches no session. */
  lemma TopUpIs(p: Params, w: World, t: TopUp)
    ensures var o := Step(p, w, CreditTopUp(t));
            if !p.prepaid then Refuses(w, o, NoLedger)
            else if t.agent == "" || t.amount <= 0 then Refuses(w, o, InvalidTopUpError)
            else
              && o.error.None? && o.world.sessions == w.sessions && o.world.topUps == w.topUps + [t]
              && forall a :: Balance(o.world.books, a) == Balance(w.books, a) +
                   if a == t.agent && !(t.tx != "" && CreditKey(t.agent, t.tx, t.source) in w.books.credited)
                   then t.amount else 0
  {
  }

  /** Pausing and resuming gives back the session that was running, streaming, with the grace period forgiven. */
  lemma PauseThenResume(p: Params, w: World, id: string)
    requires id in w.sessions && w.sessions[id].state == Running && !Short(p, w, w.sessions[id].agent)
    ensures var o := Step(p, Step(p, w, Pause(id, true)).world, Resume(id, true));
            var s := w.sessions[id];
            Became(w, o, id, s.(streamActive := true, retryPending := false, retryAt := 0, autoPaused := false,
                                log := Snoc(s.log, Resumed)))
  {
    PauseIs(p, w, id, true);
    ResumeIs(p, Step(p, w, Pause(id, true)).world, id, true);
  }

  // ---------------------------------------------------------------------------------------------
  // Ticks

  /** The clock is not before the retry that a refused debit armed. */
  ghost predicate Waits(s: Session, now: int) { s.retryPending && Unix(now) < s.retryAt }

  /** Units metered so far, in sixtieths: charged or still in the numerator. */
  ghost function Worth(s: Session): int { 60 * s.charged + s.numerator }

  ghost function RateOf(p: Params, s: Session): int {
    if s.rate > 0 then s.rate else if p.rate > 0 then p.rate else 1
  }

  /**
   What a tick makes of session s. Running with an active stream it bills one second. With a ledger and a named agent,
   unless a retry is awaited, it meters exactly one rate, no matter whether a debit falls due and how it ends. Any other
   session is left as it is.
   */
  ghost predicate Metered(p: Params, s: Session, t: Session, now: int) {
    if s.state != Running || !s.streamActive then t == s
    else if !p.prepaid || s.agent == "" || Waits(s, now) then t == s.(billedSeconds := s.billedSeconds + 1)
    else
      && t.billedSeconds == s.billedSeconds + 1 && TotalTicks(t.log) == TotalTicks(s.log) + 1
      && Worth(t) == Worth(s) + RateOf(p, s)
      && t.agent == s.agent && t.rate == s.rate && t.summaryWindow == s.summaryWindow && t.lastNaryoOp == s.lastNaryoOp
      && (s.window + 1 < p.interval ==>
            t == s.(billedSeconds := s.billedSeconds + 1, numerator := s.numerator + RateOf(p, s),
                    window := s.window + 1, log := Snoc(s.log, Accrued)))
  }

  lemma CommitKeepsWorth(p: Params, a: Session, now: int)
    requires a.numerator >= 60
    ensures var t := CommitDebit(p, a, a.numerator / 60, now);
            && Worth(t) == Worth(a) && TotalTicks(t.log) == TotalTicks(a.log) && t.billedSeconds == a.billedSeconds
            && t.agent == a.agent && t.rate == a.rate && t.summaryWindow == a.summaryWindow
            && t.lastNaryoOp == a.lastNaryoOp
  {
    assert TotalTicks(BookDebit(a, a.numerator / 60).log) == TotalTicks(a.log);
  }

  /** Settling a window moves what it is worth, it does not change it. */
  lemma SettleKeepsWorth(p: Params, l: Books, id: string, a: Session, now: int)
    requires a.numerator >= 0
    ensures var t := SettleWindow(p, l, id, a, now).session;
            && Worth(t) == Worth(a) && TotalTicks(t.log) == TotalTicks(a.log) && t.billedSeconds == a.billedSeconds
            && t.agent == a.agent && t.rate == a.rate && t.summaryWindow == a.summaryWindow
            && t.lastNaryoOp == a.lastNaryoOp
  {
    SettleCases(p, l, id, a, now);
    if a.numerator >= 60 { CommitKeepsWorth(p, a, now); }
  }

  lemma VisitMeters(p: Params, l: Books, id: string, s: Session, now: int)
    requires SessionOK(s) && PipelineId(id)
    ensures Metered(p, s, TickSession(p, l, id, s, now).session, now)
  {
    TickCases(p, l, id, s, now);
    NumeratorIsNonNegative(s);
    if Accrues(p, s, now) {
      var a := AccrueSecond(p, Billed(s));
      assert TotalTicks(a.log) == TotalTicks(s.log) + 1;
      SettleKeepsWorth(p, l, id, a, now);
    }
  }

  /** Every tick meters every session. */
  lemma TickMeters(p: Params, w: World, order: seq<string>, now: int, id: string)
    requires WorldOK(p, w) && ValidOp(w, BillingTick(now, order)) && id in w.sessions
    ensures var v := Step(p, w, BillingTick(now, order)).world;
            id in v.sessions && Metered(p, w.sessions[id], v.sessions[id], now)
  {
    var v := TickVisitsOnce(p, w, order, id, now);
    VisitMeters(p, v.books, id, w.sessions[id], now);
  }

  /** After a resume the next tick bills and, with a ledger and a named agent, meters one rate. */
  lemma ResumedTickMeters(p: Params, w: World, id: string, order: seq<string>, now: int)
    requires WorldOK(p, w) && id in w.sessions && w.sessions[id].state == Paused && !Short(p, w, w.sessions[id].agent)
    requires ValidOp(w, BillingTick(now, order))
    ensures var v := Step(p, w, Resume(id, true)).world;
            var s, u := w.sessions[id], Step(p, v, BillingTick(now, order)).world;
            id in u.sessions &&
            var t := u.sessions[id];
            && t.billedSeconds == s.billedSeconds + 1
            && (p.prepaid && s.agent != "" ==> Worth(t) == Worth(s) + RateOf(p, s))
  {
    var v := Step(p, w, Resume(id, true)).world;
    ResumeIs(p, w, id, true);
    StepKeeps(p, w, Resume(id, true));
    TickMeters(p, v, order, now, id);
  }

  // ---------------------------------------------------------------------------------------------
  // Audit summaries

  /** Minutes between summaries: the session's own number, or the service's when that is below 5; at most 15. */
  ghost function MinutesOf(p: Params, s: Session): int {
    var m := if s.summaryWindow < 5 then p.window else s.summaryWindow;
    if m > 15 then 15 else m
  }

  /** When the current summary window began; the first debit opens the first one. */
  ghost function WindowStart(s: Session, now: int): int { if s.lastSummaryAt == 0 then now else s.lastSummaryAt }

  /** t is s after a second and a debit of these units; everything pending has been reported if it was due. */
  ghost predicate SummarisedIffDue(p: Params, s: Session, t: Session, now: int) {
    var units, seconds := s.pendingUnits + (t.charged - s.charged), s.pendingSeconds + s.window + 1;
    && t.log.Snoc?
    && if now - WindowStart(s, now) >= MinutesOf(p, s) * 60_000_000_000 then
         && t.log.last == Summarised(units, seconds, now, MinutesOf(p, s)) && t.log.before.Snoc?
         && t.log.before.last.Committed? && SummarisedUnits(t.log) == SummarisedUnits(s.log) + units
         && t.pendingUnits == 0 && t.pendingSeconds == 0 && t.lastSummaryAt == now
       else
         && t.log.last.Committed? && SummarisedUnits(t.log) == SummarisedUnits(s.log)
         && t.pendingUnits == units && t.pendingSeconds == seconds && t.lastSummaryAt == WindowStart(s, now)
  }

  /** What a tick reports: when it commits a debit, everything pending if it is due; otherwise nothing. */
  ghost predicate Reported(p: Params, s: Session, t: Session, now: int) {
    if t.debitSeq != s.debitSeq then t.debitSeq == s.debitSeq + 1 && SummarisedIffDue(p, s, t, now)
    else
      && SummarisedUnits(t.log) == SummarisedUnits(s.log) && SummarisedSeconds(t.log) == SummarisedSeconds(s.log)
      && t.pendingUnits == s.pendingUnits && t.pendingSeconds == s.pendingSeconds
      && t.lastSummaryAt == s.lastSummaryAt && t.charged == s.charged
  }

  lemma CommitSummarises(p: Params, s: Session, a: Session, now: int)
    requires Sound(p) && SessionOK(s) && now > 0 && a.numerator >= 60 && a == AccrueSecond(p, Billed(s))
    ensures SummarisedIffDue(p, s, CommitDebit(p, a, a.numerator / 60, now), now)
  {
    var b := BookDebit(a, a.numerator / 60);
    assert b.pendingUnits > 0 && SummarisedUnits(b.log) == SummarisedUnits(s.log);
  }

  lemma VisitReports(p: Params, l: Books, id: string, s: Session, now: int)
    requires Sound(p) && SessionOK(s) && PipelineId(id) && now > 0
    ensures Reported(p, s, TickSession(p, l, id, s, now).session, now)
  {
    TickCases(p, l, id, s, now);
    if Accrues(p, s, now) {
      var a := AccrueSecond(p, Billed(s));
      SettleCases(p, l, id, a, now);
      if a.numerator >= 60 { CommitSummarises(p, s, a, now); }
    }
  }

  /**
   A tick that commits a debit reports everything pending, this debit included, if and only if the summary window is
   over; a tick that commits none reports nothing.
   */
  lemma TickSummarisesIffDue(p: Params, w: World, order: seq<string>, now: int, id: string)
    requires WorldOK(p, w) && ValidOp(w, BillingTick(now, order)) && id in w.sessions
    ensures var v := Step(p, w, BillingTick(now, order)).world;
            id in v.sessions && Reported(p, w.sessions[id], v.sessions[id], now)
  {
    var v := TickVisitsOnce(p, w, order, id, now);
    VisitReports(p, v.books, id, w.sessions[id], now);
  }

  lemma NotOverdue(p: Params, s: Session, t: Session, now: int)
    requires SummarisedIffDue(p, s, t, now) && t.summaryWindow == s.summaryWindow
    ensures now - t.lastSummaryAt < MinutesOf(p, t) * 60_000_000_000 || (t.pendingUnits == 0 && t.pendingSeconds == 0)
  {
  }

  /** On every run: right after a debit the summary window is not over, or nothing is pending. */
  lemma NoSummaryOverdue(p: Params, ops: seq<Op>, order: seq<string>, now: int, id: string)
    requires Sound(p) && ValidRun(p, EmptyWorld, ops) && id in Run(p, EmptyWorld, ops).sessions
    requires ValidOp(Run(p, EmptyWorld, ops), BillingTick(now, order))
    ensures var s, v := Run(p, EmptyWorld, ops).sessions[id], Run(p, EmptyWorld, ops + [BillingTick(now, order)]);
            id in v.sessions &&
            var t := v.sessions[id];
            t.debitSeq != s.debitSeq ==>
              || now - t.lastSummaryAt < MinutesOf(p, t) * 60_000_000_000
              || (t.pendingUnits == 0 && t.pendingSeconds == 0)
  {
    var w, op := Run(p, EmptyWorld, ops), BillingTick(now, order);
    EmptyWorldOK(p);
    RunKeeps(p, EmptyWorld, ops);
    TickSummarisesIffDue(p, w, order, now, id);
    TickMeters(p, w, order, now, id);
    assert (ops + [op])[..|ops|] == ops;
    if w.sessions[id].debitSeq != Step(p, w, op).world.sessions[id].debitSeq {
      NotOverdue(p, w.sessions[id], Step(p, w, op).world.sessions[id], now);
    }
  }
}

/** Per-session guarantees over whole runs: no rounding drift, two failures before a pause, audit summaries. */
module Billing {
  import opened Collections
  import opened Ledger
  import opened Sessions
  import opened Metering
  import opened Invariants
  import opened Ticks
  import opened Conservation

  lemma ReachableSession(p: Params, ops: seq<Op>, id: string)
    requires Sound(p) && ValidRun(p, EmptyWorld, ops) && id in Run(p, EmptyWorld, ops).sessions
    ensures SessionOK(Run(p, EmptyWorld, ops).sessions[id])
    ensures Run(p, EmptyWorld, ops).sessions[id].rate == p.rate
  {
    EmptyWorldOK(p);
    RunKeeps(p, EmptyWorld, ops);
  }

  // ---------------------------------------------------------------------------------------------
  // Batching refines per-second metering

  /**
   Since the last start no sixtieth of a unit is lost or invented, across pauses, resumes, refused debits and
   zero-unit windows; the numerator is the window's worth plus a carry below one unit; and whenever the debit
   window is empty the units charged since the start are the metered amount rounded down.
   */
  lemma NoRoundingDrift(p: Params, ops: seq<Op>, id: string)
    requires Sound(p) && ValidRun(p, EmptyWorld, ops) && id in Run(p, EmptyWorld, ops).sessions
    ensures var s := Run(p, EmptyWorld, ops).sessions[id];
            && 60 * UnitsSinceStart(s.log) + s.numerator == p.rate * TicksSinceStart(s.log)
            && p.rate * s.window <= s.numerator < p.rate * s.window + 60
            && (s.window == 0 ==> UnitsSinceStart(s.log) == p.rate * TicksSinceStart(s.log) / 60)
  {
    ReachableSession(p, ops, id);
  }

  /** Services that differ in the debit interval agree wherever both have settled after as many seconds. */
  lemma DebitIntervalIsInvisible(p: Params, ops: seq<Op>, id: string, p': Params, ops': seq<Op>, id': string)
    requires Sound(p) && ValidRun(p, EmptyWorld, ops) && id in Run(p, EmptyWorld, ops).sessions
    requires Sound(p') && ValidRun(p', EmptyWorld, ops') && id' in Run(p', EmptyWorld, ops').sessions
    requires p.rate == p'.rate
    requires var s, s' := Run(p, EmptyWorld, ops).sessions[id], Run(p', EmptyWorld, ops').sessions[id'];
             s.window == 0 && s'.window == 0 && TicksSinceStart(s.log) == TicksSinceStart(s'.log)
    ensures UnitsSinceStart(Run(p, EmptyWorld, ops).sessions[id].log) ==
            UnitsSinceStart(Run(p', EmptyWorld, ops').sessions[id'].log)
  {
    NoRoundingDrift(p, ops, id);
    NoRoundingDrift(p', ops', id');
  }

  // ---------------------------------------------------------------------------------------------
  // Auto-pause needs two real failures

  ghost function Length(l: Log): nat {
    if l.Empty? then 0 else 1 + Length(l.before)
  }

  lemma {:induction false} WithinIsNoLonger(l: Log, m: Log)
    requires Within(l, m)
    ensures Length(l) <= Length(m) && (Length(l) == Length(m) ==> l == m)
  {
    if l != m {
      WithinIsNoLonger(l, m.before);
    }
  }

  /** Nothing strictly after f and up to m ends a grace period. */
  ghost predicate QuietSince(f: Log, m: Log) {
    forall x :: Within(f, x) && Within(x, m) && x != f ==> x.Snoc? && !EndsGrace(x.last)
  }

  lemma {:induction false} OpenRefusalIsQuiet(l: Log)
    requires OpenRefusal(l).Some?
    ensures QuietSince(OpenRefusal(l).value, l)
  {
    var f := OpenRefusal(l).value;
    if f == l {
      forall x | Within(f, x) && Within(x, l) ensures x == f {
        WithinIsNoLonger(f, x);
        WithinIsNoLonger(x, l);
      }
    } else {
      OpenRefusalIsQuiet(l.before);
      forall x | Within(f, x) && Within(x, l) && x != f ensures x.Snoc? && !EndsGrace(x.last) {
        if x != l {
          assert Within(x, l.before);
        }
      }
    }
  }

  lemma {:induction false} PartsAreJustified(l: Log, m: Log)
    requires Justified(m) && Within(l, m)
    ensures Justified(l)
  {
    if l != m {
      PartsAreJustified(l, m.before);
    }
  }

  /**
   Before the auto-pause l a debit on the same bucket had been refused, at least sixty seconds earlier, for no larger
   an amount, with the balance short both times.
   */
  ghost predicate TwoFailures(l: Log)
    requires l.Snoc? && l.last.AutoPaused?
  {
    OpenRefusal(l.before).Some? &&
    var first, second := OpenRefusal(l.before).value.last, l.last;
    && first.bucket == second.bucket && first.at + 60 <= second.at
    && first.balance < first.units <= second.units && second.balance < second.units
  }

  lemma JustifiedPauseFailedTwice(l: Log)
    requires Justified(l) && l.Snoc? && l.last.AutoPaused?
    ensures TwoFailures(l)
  {
    PartsAreJustified(OpenRefusal(l.before).value, l.before);
  }

  /**
   Every auto-pause in the history of a session was preceded by a refused debit on the same bucket at least
   sixty seconds earlier, for no larger an amount, with the balance short both times, and nothing that would
   have ended the grace period (a commit, a start, a resume) happened in between.
   */
  lemma AutoPauseNeedsTwoFailures(p: Params, ops: seq<Op>, id: string, l: Log)
    requires Sound(p) && ValidRun(p, EmptyWorld, ops) && id in Run(p, EmptyWorld, ops).sessions
    requires Within(l, Run(p, EmptyWorld, ops).sessions[id].log) && l.Snoc? && l.last.AutoPaused?
    ensures TwoFailures(l) && QuietSince(OpenRefusal(l.before).value, l.before)
  {
    ReachableSession(p, ops, id);
    PartsAreJustified(l, Run(p, EmptyWorld, ops).sessions[id].log);
    JustifiedPauseFailedTwice(l);
    OpenRefusalIsQuiet(l.before);
  }

  /** The auto-pause that the flag speaks of: the last event that is neither a tick nor a debit of the history. */
  ghost function LastPause(l: Log): (r: Log)
    requires FundsPaused(l)
    ensures r.Snoc? && r.last.AutoPaused? && Within(r, l)
  {
    if l.last.AutoPaused? then l else LastPause(l.before)
  }

  /** Nothing strictly after f and up to m starts or resumes the session. */
  ghost predicate NotRestartedSince(f: Log, m: Log) {
    forall x :: Within(f, x) && Within(x, m) && x != f ==> x.Snoc? && !x.last.Started? && !x.last.Resumed?
  }

  lemma {:induction false} LastPauseIsNotRestarted(l: Log)
    requires FundsPaused(l)
    ensures NotRestartedSince(LastPause(l), l)
  {
    var f := LastPause(l);
    if f == l {
      forall x | Within(f, x) && Within(x, l) ensures x == f {
        WithinIsNoLonger(f, x);
        WithinIsNoLonger(x, l);
      }
    } else {
      LastPauseIsNotRestarted(l.before);
      forall x | Within(f, x) && Within(x, l) && x != f ensures x.Snoc? && !x.last.Started? && !x.last.Resumed? {
        if x != l {
          assert Within(x, l.before);
        }
      }
    }
  }

  /**
   The flag tells the truth: a session is marked auto-paused if and only if an auto-pause happened that no start or
   resume followed, and then two debits of one bucket, at least sixty seconds apart, had failed.
   */
  lemma AutoPausedFlagIsJustified(p: Params, ops: seq<Op>, id: string)
    requires Sound(p) && ValidRun(p, EmptyWorld, ops) && id in Run(p, EmptyWorld, ops).sessions
    ensures var s := Run(p, EmptyWorld, ops).sessions[id];
            && (s.autoPaused <==> FundsPaused(s.log))
            && (s.autoPaused ==> NotRestartedSince(LastPause(s.log), s.log) && TwoFailures(LastPause(s.log)))
  {
    var s := Run(p, EmptyWorld, ops).sessions[id];
    ReachableSession(p, ops, id);
    if s.autoPaused {
      LastPauseIsNotRestarted(s.log);
      PartsAreJustified(LastPause(s.log), s.log);
      JustifiedPauseFailedTwice(LastPause(s.log));
    }
  }

  // ---------------------------------------------------------------------------------------------
  // Audit summaries

  /** Units: what summaries reported and what is pending add up to what was charged. */
  lemma SummariesConserveUnits(p: Params, ops: seq<Op>, id: string)
    requires Sound(p) && ValidRun(p, EmptyWorld, ops) && id in Run(p, EmptyWorld, ops).sessions
    ensures var s := Run(p, EmptyWorld, ops).sessions[id];
            SummarisedUnits(s.log) + s.pendingUnits == s.charged && s.pendingUnits >= 0
  {
    ReachableSession(p, ops, id);
  }

  /** Spacing: a summary follows the previous one by at least its window, which is five to fifteen minutes. */
  lemma SummariesAreSpaced(p: Params, ops: seq<Op>, id: string, l: Log)
    requires Sound(p) && ValidRun(p, EmptyWorld, ops) && id in Run(p, EmptyWorld, ops).sessions
    requires Within(l, Run(p, EmptyWorld, ops).sessions[id].log) && l.Snoc? && l.last.Summarised?
    ensures l.last.units > 0 && 5 <= l.last.window <= 15
    ensures LastSummary(l.before).Some? ==> l.last.at >= LastSummary(l.before).value + l.last.window * MINUTE
  {
    ReachableSession(p, ops, id);
    PartsAreJustified(l, Run(p, EmptyWorld, ops).sessions[id].log);
  }

  /** Runtime, on every run: what is missing from the audited seconds is exactly what was forfeited. */
  lemma SummariesAccountForRuntime(p: Params, ops: seq<Op>, id: string)
    requires Sound(p) && ValidRun(p, EmptyWorld, ops) && id in Run(p, EmptyWorld, ops).sessions
    ensures var s := Run(p, EmptyWorld, ops).sessions[id];
            SummarisedSeconds(s.log) + s.pendingSeconds + s.window + ForfeitedSeconds(s.log) == TotalTicks(s.log)
  {
    ReachableSession(p, ops, id);
  }

  ghost predicate NoZeroWindow(l: Log) {
    l.Empty? || (!l.last.ZeroWindow? && NoZeroWindow(l.before))
  }

  lemma SettleHasNoZeroWindow(p: Params, l: Books, id: string, s: Session, now: int)
    requires NoZeroWindow(s.log) && s.numerator >= 60
    ensures NoZeroWindow(SettleWindow(p, l, id, s, now).session.log)
  {
  }

  lemma FullWindowIsWorthAUnit(p: Params, s: Session)
    requires MeterOK(s) && s.rate == p.rate && s.window >= p.interval && p.rate * p.interval >= 60
    ensures s.numerator >= 60
  {
    assert p.rate * s.window >= p.rate * p.interval;
  }

  lemma TickHasNoZeroWindow(p: Params, l: Books, id: string, s: Session, now: int)
    requires Sound(p) && SessionOK(s) && s.rate == p.rate && p.rate * p.interval >= 60 && NoZeroWindow(s.log)
    ensures NoZeroWindow(TickSession(p, l, id, s, now).session.log)
  {
    TickCases(p, l, id, s, now);
    if Accrues(p, s, now) {
      BilledKeeps(s);
      AccrueKeeps(p, Billed(s));
      var a := AccrueSecond(p, Billed(s));
      if a.window >= p.interval {
        FullWindowIsWorthAUnit(p, a);
        SettleHasNoZeroWindow(p, l, id, a, now);
      }
    }
  }

  lemma {:induction false} UnitWindowsNeverZero(p: Params, ops: seq<Op>, id: string)
    requires Sound(p) && ValidRun(p, EmptyWorld, ops) && id in Run(p, EmptyWorld, ops).sessions
    requires p.rate * p.interval >= 60
    ensures NoZeroWindow(Run(p, EmptyWorld, ops).sessions[id].log)
  {
    if ops != [] {
      var before, op := ops[..|ops| - 1], ops[|ops| - 1];
      var w, v := Run(p, EmptyWorld, before), Run(p, EmptyWorld, ops);
      EmptyWorldOK(p);
      RunKeeps(p, EmptyWorld, before);
      StepMoves(p, w, op, id);
      if id in w.sessions {
        UnitWindowsNeverZero(p, before, id);
        if op.BillingTick? && v.sessions[id] != w.sessions[id] {
          var l :| v.sessions[id] == TickSession(p, l, id, w.sessions[id], op.now).session;
          TickHasNoZeroWindow(p, l, id, w.sessions[id], op.now);
        }
      }
    }
  }

  lemma {:induction false} OneStartForfeitsNothing(l: Log)
    requires OpensWithStart(l) && StartCount(l) <= 1 && NoZeroWindow(l)
    ensures ForfeitedSeconds(l) == 0
    ensures l.Snoc? ==> StartCount(l) == 1
  {
    if l.Snoc? && l.before.Snoc? {
      OneStartForfeitsNothing(l.before);
    }
  }

  /** When a full window is worth at least a unit and sessions start once, every billed second is audited. */
  lemma SummariesConserveRuntime(p: Params, ops: seq<Op>, id: string)
    requires Sound(p) && ValidRun(p, EmptyWorld, ops) && id in Run(p, EmptyWorld, ops).sessions
    requires p.rate * p.interval >= 60 && StartsOnlyFresh(p, EmptyWorld, ops)
    ensures var s := Run(p, EmptyWorld, ops).sessions[id];
            SummarisedSeconds(s.log) + s.pendingSeconds + s.window == TotalTicks(s.log)
  {
    ReachableSession(p, ops, id);
    FreshStartsStartOnce(p, ops, id);
    UnitWindowsNeverZero(p, ops, id);
    OneStartForfeitsNothing(Run(p, EmptyWorld, ops).sessions[id].log);
  }

  // ---------------------------------------------------------------------------------------------
  // Lifecycle safety and failure atomicity

  lemma LifecycleSafety(p: Params, ops: seq<Op>, id: string)
    requires Sound(p) && ValidRun(p, EmptyWorld, ops) && id in Run(p, EmptyWorld, ops).sessions
    ensures var s := Run(p, EmptyWorld, ops).sessions[id];
            && (s.streamActive ==> s.state == Running)
            && (s.autoPaused ==> s.state == Paused || s.state == Stopped)
            && (s.state == Created ==> s.charged == 0 && s.log == Empty)
  {
    ReachableSession(p, ops, id);
  }

  /** A stopped session never changes again. */
  lemma {:induction false} StoppedIsAbsorbing(p: Params, w: World, ops: seq<Op>, id: string)
    requires WorldOK(p, w) && ValidRun(p, w, ops)
    requires id in w.sessions && w.sessions[id].state == Stopped
    ensures id in Run(p, w, ops).sessions && Run(p, w, ops).sessions[id] == w.sessions[id]
  {
    if ops != [] {
      var before, op := ops[..|ops| - 1], ops[|ops| - 1];
      RunKeeps(p, w, before);
      StoppedIsAbsorbing(p, w, before, id);
      StepKeepsSessions(p, Run(p, w, before), op, id);
      StepMoves(p, Run(p, w, before), op, id);
    }
  }

  lemma UnchangedEntry(m: map<string, Session>, id: string)
    requires id in m
    ensures m[id := m[id]] == m
  {
  }

  /** Although Update never rolls back, a call that returns an error changes nothing at all. */
  lemma FailingCallChangesNothing(p: Params, w: World, op: Op)
    requires Step(p, w, op).error.Some?
    ensures Step(p, w, op).world == w
  {
    if !op.CreditTopUp? && !op.BillingTick? && op.id in w.sessions {
      UnchangedEntry(w.sessions, op.id);
    }
  }

  /** The tick's branch for a ledger error other than a short balance, which would keep half an update, is dead. */
  lemma TickNeverSticks(p: Params, l: Books, id: string, s: Session, now: int)
    requires Sound(p) && PipelineId(id)
    ensures !TickSession(p, l, id, s, now).stuck
  {
  }
}

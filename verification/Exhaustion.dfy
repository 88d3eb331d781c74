/** How long a balance lasts: a bound on when a session is auto-paused, and a runway in which it is not. */
module Exhaustion {
  import opened Collections
  import opened Ledger
  import opened Sessions
  import opened Metering
  import opened Invariants
  import opened Ticks

  // ---------------------------------------------------------------------------------------------
  // Without credits a running session is auto-paused in bounded time

  function MinDebit(p: Params): int { p.rate * p.interval / 60 }

  /** A session that was started once, is left running, and whose agent has bal units. */
  ghost predicate Draining(p: Params, s: Session, bal: int) {
    && SessionOK(s) && s.rate == p.rate
    && s.state == Running && s.streamActive && s.agent != ""
    && s.debitSeq == HighestBucket(s.log)
    && bal >= 0
    && (if s.retryPending then bal < s.numerator / 60 && s.window >= p.interval else s.window < p.interval)
  }

  ghost predicate Drained(s: Session) { s.state == Paused && s.autoPaused }

  /** Ticks left at most, when the next tick comes at the given Unix second. */
  ghost function Remaining(p: Params, s: Session, bal: int, next: int): int
    requires MinDebit(p) >= 1
  {
    if s.retryPending then (if s.retryAt > next then s.retryAt - next else 0) + 1
    else bal / MinDebit(p) * p.interval + (p.interval - s.window) + 60
  }

  lemma TimesMono(a: int, b: int, n: int)
    requires a <= b && n >= 0
    ensures a * n <= b * n
  {
  }

  lemma QuotientMono(q: int, a: int, b: int)
    requires q >= 1 && a <= b
    ensures a / q <= b / q
  {
    if a / q > b / q {
      TimesMono(b / q + 1, a / q, q);
    }
  }

  lemma QuotientStep(q: int, a: int, b: int)
    requires q >= 1 && a + q <= b
    ensures a / q + 1 <= b / q
  {
    if a / q + 1 > b / q {
      TimesMono(b / q + 1, a / q + 1, q);
    }
  }

  /** Intervals a balance can still pay for; a smaller balance by one debit pays for one interval less. */
  lemma BoundMono(p: Params, bal: int, bal': int)
    requires Sound(p) && MinDebit(p) >= 1 && 0 <= bal' <= bal
    ensures 0 <= bal' / MinDebit(p) * p.interval <= bal / MinDebit(p) * p.interval
    ensures bal' <= bal - MinDebit(p) ==>
              bal' / MinDebit(p) * p.interval + p.interval <= bal / MinDebit(p) * p.interval
  {
    var q := MinDebit(p);
    QuotientMono(q, 0, bal');
    QuotientMono(q, bal', bal);
    TimesMono(0, bal' / q, p.interval);
    TimesMono(bal' / q, bal / q, p.interval);
    if bal' <= bal - q {
      QuotientStep(q, bal', bal);
      TimesMono(bal' / q + 1, bal / q, p.interval);
    }
  }

  /** The measure does not grow when the balance falls. */
  lemma DrainingMono(p: Params, s: Session, bal: int, bal': int, next: int)
    requires Sound(p) && MinDebit(p) >= 1 && Draining(p, s, bal) && 0 <= bal' <= bal
    ensures Draining(p, s, bal') && Remaining(p, s, bal', next) <= Remaining(p, s, bal, next)
  {
    BoundMono(p, bal, bal');
  }

  lemma RemainingIsPositive(p: Params, s: Session, bal: int, next: int)
    requires Sound(p) && MinDebit(p) >= 1 && Draining(p, s, bal)
    ensures Remaining(p, s, bal, next) >= 1
  {
    BoundMono(p, bal, bal);
  }

  lemma FullWindowPaysMinDebit(p: Params, s: Session)
    requires Sound(p) && MeterOK(s) && s.rate == p.rate && s.window >= p.interval
    ensures s.numerator / 60 >= MinDebit(p)
  {
    TimesMono(p.interval, s.window, p.rate);
    assert p.rate * p.interval <= s.numerator;
  }

  /** Settling a full window pays at least the minimal debit, or arms the grace retry, or pauses. */
  lemma DrainingSettle(p: Params, l: Books, id: string, s: Session, now: int)
    requires Sound(p) && MinDebit(p) >= 1 && PipelineId(id) && now > 0
    requires SessionOK(s) && s.rate == p.rate && s.state == Running && s.streamActive && s.agent != ""
    requires s.debitSeq == HighestBucket(s.log) && s.window >= p.interval
    requires s.retryPending ==> Balance(l, s.agent) < s.numerator / 60
    requires Balance(l, s.agent) >= 0
    requires ChargeKey(s.agent, id, s.debitSeq + 1) !in l.credited
    ensures var r := SettleWindow(p, l, id, s, now);
            var units := s.numerator / 60;
            if Balance(l, s.agent) >= units
            then r.session == CommitDebit(p, s, units, now) && Balance(r.books, s.agent) == Balance(l, s.agent) - units
            else if s.retryPending then Drained(r.session)
            else r.books == l && r.session == s.(retryPending := true, retryAt := Unix(now) + 60,
                   log := Snoc(s.log, Refused(s.debitSeq + 1, units, Balance(l, s.agent), Unix(now))))
  {
    FullWindowPaysMinDebit(p, s);
  }

  lemma CommitKeepsDraining(p: Params, s: Session, now: int, bal: int, bal': int)
    requires Sound(p) && MinDebit(p) >= 1 && now > 0
    requires SessionOK(s) && s.rate == p.rate && s.state == Running && s.streamActive && s.agent != ""
    requires s.debitSeq == HighestBucket(s.log) && s.window >= p.interval && s.numerator >= 60
    requires 0 <= bal' <= bal - MinDebit(p)
    ensures var c := CommitDebit(p, s, s.numerator / 60, now);
            Draining(p, c, bal') &&
            Remaining(p, c, bal', Unix(now) + 1) <= bal / MinDebit(p) * p.interval + 60
  {
    CommitKeeps(p, s, now);
    CommitReadings(p, s, s.numerator / 60, now);
    BoundMono(p, bal, bal');
  }

  lemma RefusalKeepsDraining(p: Params, l: Books, id: string, s: Session, now: int)
    requires Sound(p) && MinDebit(p) >= 1 && PipelineId(id) && now > 0
    requires SessionOK(s) && s.rate == p.rate && s.state == Running && s.streamActive && s.agent != ""
    requires s.debitSeq == HighestBucket(s.log) && s.window >= p.interval && !s.retryPending
    requires 0 <= Balance(l, s.agent) < s.numerator / 60
    requires ChargeKey(s.agent, id, s.debitSeq + 1) !in l.credited
    ensures var r, left := SettleWindow(p, l, id, s, now), Balance(l, s.agent);
            && r.books == l && r.session.agent == s.agent
            && Draining(p, r.session, left)
            && Remaining(p, r.session, left, Unix(now) + 1) <= 60
  {
    DrainingSettle(p, l, id, s, now);
    SettleKeeps(p, l, id, s, now);
  }

  /** One settled window uses up what is left of the measure beyond the intervals already paid for. */
  lemma DrainingFullWindow(p: Params, l: Books, id: string, a: Session, now: int)
    requires Sound(p) && MinDebit(p) >= 1 && PipelineId(id) && now > 0
    requires SessionOK(a) && a.rate == p.rate && a.state == Running && a.streamActive && a.agent != ""
    requires a.debitSeq == HighestBucket(a.log) && a.window >= p.interval
    requires Balance(l, a.agent) >= 0 && (a.retryPending ==> Balance(l, a.agent) < a.numerator / 60)
    requires ChargeKey(a.agent, id, a.debitSeq + 1) !in l.credited
    ensures var r := SettleWindow(p, l, id, a, now);
            var left := Balance(r.books, a.agent);
            && r.session.agent == a.agent
            && (Drained(r.session) ||
                (!a.retryPending && left >= 0 && Draining(p, r.session, left) &&
                 Remaining(p, r.session, left, Unix(now) + 1)
                   <= Balance(l, a.agent) / MinDebit(p) * p.interval + 60))
  {
    var bal := Balance(l, a.agent);
    FullWindowPaysMinDebit(p, a);
    DrainingSettle(p, l, id, a, now);
    BoundMono(p, bal, bal);
    if bal >= a.numerator / 60 {
      CommitKeepsDraining(p, a, now, bal, bal - a.numerator / 60);
    } else if !a.retryPending {
      RefusalKeepsDraining(p, l, id, a, now);
    }
  }

  /** One tick of a draining session uses up one unit of the measure, or pauses it. */
  lemma DrainingTick(p: Params, l: Books, id: string, s: Session, now: int, bal: int)
    requires Sound(p) && p.prepaid && MinDebit(p) >= 1 && PipelineId(id) && now > 0
    requires Draining(p, s, bal) && 0 <= Balance(l, s.agent) <= bal
    requires ChargeKey(s.agent, id, s.debitSeq + 1) !in l.credited
    ensures var r := TickSession(p, l, id, s, now);
            var left := Balance(r.books, s.agent);
            && r.session.agent == s.agent
            && (Drained(r.session) ||
                (left >= 0 && Draining(p, r.session, left) &&
                 Remaining(p, r.session, left, Unix(now) + 1) < Remaining(p, s, bal, Unix(now))))
  {
    TickCases(p, l, id, s, now);
    BilledKeeps(s);
    DrainingMono(p, s, bal, Balance(l, s.agent), Unix(now));
    if Accrues(p, s, now) {
      var a := AccrueSecond(p, Billed(s));
      AccrueKeeps(p, Billed(s));
      if a.window >= p.interval {
        DrainingFullWindow(p, l, id, a, now);
      }
    }
  }

  // Whole runs

  ghost function TickCount(ops: seq<Op>): nat {
    if ops == [] then 0
    else TickCount(ops[..|ops| - 1]) + (if ops[|ops| - 1].BillingTick? then 1 else 0)
  }

  /** The clock advances one second per tick, starting at t0. */
  ghost predicate TicksEachSecond(ops: seq<Op>, t0: int) {
    ops == [] ||
    (var before, op := ops[..|ops| - 1], ops[|ops| - 1];
     TicksEachSecond(before, t0) && (op.BillingTick? ==> Unix(op.now) == t0 + TickCount(before)))
  }

  /** Nothing but ticks happens to the session, and its agent is not credited. Everything else may happen. */
  ghost predicate LeftAlone(op: Op, id: string, agent: string) {
    match op
    case CreditTopUp(t) => t.agent != agent
    case BillingTick(_, _) => true
    case _ => op.id != id
  }

  ghost predicate Burning(p: Params, w: World, id: string, agent: string, next: int, bound: int)
    requires MinDebit(p) >= 1
  {
    id in w.sessions && w.sessions[id].agent == agent &&
    (Drained(w.sessions[id]) ||
     (Draining(p, w.sessions[id], Balance(w.books, agent)) &&
      Remaining(p, w.sessions[id], Balance(w.books, agent), next) <= bound))
  }

  lemma BurningTick(p: Params, w: World, id: string, agent: string, now: int, order: seq<string>, bound: int)
    requires WorldOK(p, w) && p.prepaid && MinDebit(p) >= 1 && ValidOp(w, BillingTick(now, order))
    requires Burning(p, w, id, agent, Unix(now), bound)
    ensures Burning(p, TickAll(p, w, order, now), id, agent, Unix(now) + 1, bound - 1)
  {
    var s := w.sessions[id];
    var v := TickVisitsOnce(p, w, order, id, now);
    var u, t := TickOne(p, v, id, now), TickAll(p, w, order, now);
    if !Drained(s) {
      DrainingTick(p, v.books, id, s, now, Balance(w.books, agent));
      if !Drained(u.sessions[id]) {
        DrainingMono(p, u.sessions[id], Balance(u.books, agent), Balance(t.books, agent), Unix(now) + 1);
      }
    }
  }

  lemma OtherOpsLeaveSession(p: Params, w: World, op: Op, id: string, agent: string)
    requires WorldOK(p, w) && ValidOp(w, op) && !op.BillingTick? && LeftAlone(op, id, agent) && id in w.sessions
    ensures var v := Step(p, w, op).world;
            id in v.sessions && v.sessions[id] == w.sessions[id] && Balance(v.books, agent) == Balance(w.books, agent)
  {
  }

  lemma BurningStays(p: Params, w: World, v: World, id: string, agent: string, next: int, bound: int)
    requires MinDebit(p) >= 1 && Burning(p, w, id, agent, next, bound)
    requires id in v.sessions && v.sessions[id] == w.sessions[id] && Balance(v.books, agent) == Balance(w.books, agent)
    ensures Burning(p, v, id, agent, next, bound)
  {
  }

  lemma {:induction false} BurningRun(p: Params, w: World, ops: seq<Op>, id: string, agent: string, t0: int, bound: int)
    requires WorldOK(p, w) && p.prepaid && MinDebit(p) >= 1 && ValidRun(p, w, ops)
    requires Burning(p, w, id, agent, t0, bound)
    requires TicksEachSecond(ops, t0) && forall op :: op in ops ==> LeftAlone(op, id, agent)
    ensures Burning(p, Run(p, w, ops), id, agent, t0 + TickCount(ops), bound - TickCount(ops))
  {
    if ops != [] {
      var before, op := ops[..|ops| - 1], ops[|ops| - 1];
      BurningRun(p, w, before, id, agent, t0, bound);
      RunKeeps(p, w, before);
      var v := Run(p, w, before);
      if op.BillingTick? {
        BurningTick(p, v, id, agent, op.now, op.order, bound - TickCount(before));
      } else {
        OtherOpsLeaveSession(p, v, op, id, agent);
        BurningStays(p, v, Step(p, v, op).world, id, agent, t0 + TickCount(before), bound - TickCount(before));
      }
    }
  }

  /** Right after the start the whole balance is still to be drained. */
  lemma StartBurns(p: Params, w: World, id: string, naryo: Option<string>, t0: int)
    requires Sound(p) && MinDebit(p) >= 1 && id in w.sessions && SessionOK(w.sessions[id]) && w.sessions[id].rate == p.rate
    requires w.sessions[id].state == Created && w.sessions[id].agent != ""
    requires Balance(w.books, w.sessions[id].agent) >= 0
    requires Step(p, w, Start(id, naryo)).error.None?
    ensures var v, agent := Step(p, w, Start(id, naryo)).world, w.sessions[id].agent;
            Burning(p, v, id, agent, t0, (Balance(w.books, agent) / MinDebit(p) + 1) * p.interval + 60)
  {
    var v, bal := Step(p, w, Start(id, naryo)).world, Balance(w.books, w.sessions[id].agent);
    assert (bal / MinDebit(p) + 1) * p.interval + 60 == bal / MinDebit(p) * p.interval + p.interval + 60;
    assert HighestBucket(v.sessions[id].log) == 0;
  }

  /** No session drains longer than its bound allows. */
  lemma BurnsOut(p: Params, w: World, id: string, agent: string, next: int)
    requires WorldOK(p, w) && MinDebit(p) >= 1 && Burning(p, w, id, agent, next, 0)
    ensures Drained(w.sessions[id])
  {
    if !Drained(w.sessions[id]) {
      RemainingIsPositive(p, w.sessions[id], Balance(w.books, agent), next);
    }
  }

  lemma BurningLonger(p: Params, w: World, id: string, agent: string, next: int, bound: int, more: int)
    requires MinDebit(p) >= 1 && Burning(p, w, id, agent, next, bound) && bound <= more
    ensures Burning(p, w, id, agent, next, more)
  {
  }

  /** A session that can burn for at most bound ticks is paused after that many. */
  lemma BurnsWithin(p: Params, w: World, ops: seq<Op>, id: string, agent: string, t0: int, bound: int)
    requires WorldOK(p, w) && p.prepaid && MinDebit(p) >= 1 && ValidRun(p, w, ops)
    requires Burning(p, w, id, agent, t0, bound) && TickCount(ops) >= bound
    requires TicksEachSecond(ops, t0) && forall op :: op in ops ==> LeftAlone(op, id, agent)
    ensures id in Run(p, w, ops).sessions && Drained(Run(p, w, ops).sessions[id])
  {
    var u, n := Run(p, w, ops), TickCount(ops);
    BurningRun(p, w, ops, id, agent, t0, bound);
    RunKeeps(p, w, ops);
    BurningLonger(p, u, id, agent, t0 + n, bound - n, 0);
    BurnsOut(p, u, id, agent, t0 + n);
  }

  /**
   Exhaustion: a session freshly started from created with balance B, given no credits, is auto-paused after
   at most (B/q + 1) * interval + 60 ticks, where q is the least a full window costs; and this whatever the
   agent's other sessions do and whatever else happens in between.
   */
  lemma ExhaustionBound(p: Params, w: World, id: string, naryo: Option<string>, ops: seq<Op>, t0: int)
    requires WorldOK(p, w) && p.prepaid && MinDebit(p) >= 1
    requires id in w.sessions && w.sessions[id].state == Created && w.sessions[id].agent != ""
    requires Step(p, w, Start(id, naryo)).error.None?
    requires var v := Step(p, w, Start(id, naryo)).world;
             ValidRun(p, v, ops) && TicksEachSecond(ops, t0) &&
             forall op :: op in ops ==> LeftAlone(op, id, w.sessions[id].agent)
    requires TickCount(ops) >= (Balance(w.books, w.sessions[id].agent) / MinDebit(p) + 1) * p.interval + 60
    ensures var v := Step(p, w, Start(id, naryo)).world;
            id in Run(p, v, ops).sessions && Drained(Run(p, v, ops).sessions[id])
  {
    var v, agent := Step(p, w, Start(id, naryo)).world, w.sessions[id].agent;
    var bound := (Balance(w.books, agent) / MinDebit(p) + 1) * p.interval + 60;
    assert Balance(w.books, agent) >= 0;
    StepKeeps(p, w, Start(id, naryo));
    StartBurns(p, w, id, naryo, t0);
    BurnsWithin(p, v, ops, id, agent, t0, bound);
  }
}

/** What the prepaid check at start is worth: a runway in which no debit can fail. */
module Runway {
  import opened Collections
  import opened Ledger
  import opened Sessions
  import opened Metering
  import opened Invariants
  import opened Ticks
  import opened Exhaustion

  /** The balance and what the session was charged since its last start still cover the runway. */
  ghost predicate Covered(p: Params, s: Session, bal: int) {
    && bal + UnitsSinceStart(s.log) >= PrepaidMinUnits(p)
    && (NoFailureSinceStart(s.log) || TicksSinceStart(s.log) > 60 * p.minStart)
  }

  /** A debit can only fall short after more seconds than the runway has. */
  lemma ShortfallIsLate(p: Params, s: Session, bal: int)
    requires Sound(p) && MeterOK(s) && s.rate == p.rate
    requires bal + UnitsSinceStart(s.log) >= PrepaidMinUnits(p)
    requires bal < s.numerator / 60
    ensures TicksSinceStart(s.log) > 60 * p.minStart
  {
    var ticks := TicksSinceStart(s.log);
    assert p.rate * ticks > 60 * (p.rate * p.minStart);
    assert 60 * (p.rate * p.minStart) == p.rate * (60 * p.minStart);
    if ticks <= 60 * p.minStart {
      TimesMono(ticks, 60 * p.minStart, p.rate);
    }
  }

  lemma CommitReadingsSinceStart(p: Params, s: Session, units: int, now: int)
    ensures var log := CommitDebit(p, s, units, now).log;
            && UnitsSinceStart(log) == UnitsSinceStart(s.log) + units
            && TicksSinceStart(log) == TicksSinceStart(s.log)
            && (NoFailureSinceStart(s.log) ==> NoFailureSinceStart(log))
  {
  }

  lemma CoveredSettle(p: Params, l: Books, id: string, s: Session, now: int)
    requires Sound(p) && SessionOK(s) && s.rate == p.rate && s.state == Running && s.agent != ""
    requires Covered(p, s, Balance(l, s.agent))
    ensures var r := SettleWindow(p, l, id, s, now);
            r.session.agent == s.agent && Covered(p, r.session, Balance(r.books, s.agent))
  {
    CommitReadingsSinceStart(p, s, s.numerator / 60, now);
    if Balance(l, s.agent) < s.numerator / 60 {
      ShortfallIsLate(p, s, Balance(l, s.agent));
    }
  }

  lemma CoveredTick(p: Params, l: Books, id: string, s: Session, now: int)
    requires Sound(p) && SessionOK(s) && s.rate == p.rate && s.agent != ""
    requires Covered(p, s, Balance(l, s.agent))
    ensures var r := TickSession(p, l, id, s, now);
            r.session.agent == s.agent && Covered(p, r.session, Balance(r.books, s.agent))
  {
    TickCases(p, l, id, s, now);
    if Accrues(p, s, now) {
      BilledKeeps(s);
      AccrueKeeps(p, Billed(s));
      var a := AccrueSecond(p, Billed(s));
      assert Covered(p, a, Balance(l, s.agent));
      if a.window >= p.interval {
        CoveredSettle(p, l, id, a, now);
      }
    }
  }

  ghost predicate OnRunway(p: Params, w: World, id: string, agent: string) {
    && id in w.sessions && w.sessions[id].agent == agent
    && OnlySessionOf(w.sessions, id, agent)
    && Covered(p, w.sessions[id], Balance(w.books, agent))
  }

  lemma OnlySessionStays(ss: map<string, Session>, ss': map<string, Session>, id: string, agent: string)
    requires OnlySessionOf(ss, id, agent) && ss'.Keys == ss.Keys
    requires forall i :: i in ss ==> ss'[i].agent == ss[i].agent
    ensures OnlySessionOf(ss', id, agent)
  {
  }

  lemma RunwayTick(p: Params, w: World, id: string, agent: string, now: int, order: seq<string>)
    requires WorldOK(p, w) && agent != "" && ValidOp(w, BillingTick(now, order))
    requires OnRunway(p, w, id, agent)
    ensures OnRunway(p, TickAll(p, w, order, now), id, agent)
  {
    var v := TickVisitsOnce(p, w, order, id, now);
    var u, t := TickOne(p, v, id, now), TickAll(p, w, order, now);
    TickOneBalances(p, v, id, now);
    OnlySessionStays(w.sessions, v.sessions, id, agent);
    OnlySessionStays(v.sessions, u.sessions, id, agent);
    OnlySessionStays(u.sessions, t.sessions, id, agent);
    assert Balance(v.books, agent) == Balance(w.books, agent);
    assert Balance(t.books, agent) == Balance(u.books, agent);
    CoveredTick(p, v.books, id, w.sessions[id], now);
  }

  lemma CoveredStart(p: Params, w: World, id: string, naryo: Option<string>)
    requires p.prepaid && id in w.sessions && w.sessions[id].agent != ""
    requires Step(p, w, Start(id, naryo)).error.None?
    ensures var v := Step(p, w, Start(id, naryo)).world;
            v == w.(sessions := w.sessions[id := StartEdit(w.sessions[id], naryo).session]) &&
            Covered(p, v.sessions[id], Balance(v.books, w.sessions[id].agent))
  {
  }

  lemma EditKeepsCovered(p: Params, s: Session, bal: int, active: bool)
    requires Covered(p, s, bal)
    ensures Covered(p, StopEdit(s).session, bal) && Covered(p, PauseEdit(s).session, bal)
    ensures Covered(p, ResumeEdit(s).session, bal) && Covered(p, StreamEdit(s, active).session, bal)
  {
  }

  /** An operation other than a tick, a credit or a create only touches its own session. */
  lemma EditTouchesOne(p: Params, w: World, op: Op)
    requires !op.CreditTopUp? && !op.BillingTick? && !op.Create?
    ensures var v := Step(p, w, op).world;
            v.books == w.books && v.sessions.Keys == w.sessions.Keys &&
            forall i :: i in w.sessions && i != op.id ==> v.sessions[i] == w.sessions[i]
  {
  }

  lemma EditKeepsAgents(p: Params, w: World, op: Op)
    requires !op.CreditTopUp? && !op.BillingTick? && !op.Create?
    ensures var v := Step(p, w, op).world;
            v.sessions.Keys == w.sessions.Keys && forall i :: i in w.sessions ==> v.sessions[i].agent == w.sessions[i].agent
  {
  }

  lemma OwnEditKeepsCovered(p: Params, w: World, op: Op, id: string)
    requires p.prepaid && id in w.sessions && w.sessions[id].agent != ""
    requires !op.CreditTopUp? && !op.BillingTick? && !op.Create? && op.id == id
    requires Covered(p, w.sessions[id], Balance(w.books, w.sessions[id].agent))
    ensures Covered(p, Step(p, w, op).world.sessions[id], Balance(w.books, w.sessions[id].agent))
  {
    if op.Start? && Step(p, w, op).error.None? {
      CoveredStart(p, w, id, op.naryo);
    } else {
      EditKeepsCovered(p, w.sessions[id], Balance(w.books, w.sessions[id].agent), op.SetStream? && op.active);
    }
  }

  lemma RunwayEdit(p: Params, w: World, op: Op, id: string, agent: string)
    requires p.prepaid && agent != "" && OnRunway(p, w, id, agent)
    requires !op.CreditTopUp? && !op.BillingTick? && !op.Create?
    ensures OnRunway(p, Step(p, w, op).world, id, agent)
  {
    EditTouchesOne(p, w, op);
    EditKeepsAgents(p, w, op);
    OnlySessionStays(w.sessions, Step(p, w, op).world.sessions, id, agent);
    if op.id == id {
      OwnEditKeepsCovered(p, w, op, id);
    }
  }

  lemma RunwayStep(p: Params, w: World, op: Op, id: string, agent: string)
    requires WorldOK(p, w) && p.prepaid && agent != "" && ValidOp(w, op)
    requires OnRunway(p, w, id, agent) && (op.Create? ==> op.agent != agent)
    ensures OnRunway(p, Step(p, w, op).world, id, agent)
  {
    if op.BillingTick? {
      RunwayTick(p, w, id, agent, op.now, op.order);
    } else if !op.CreditTopUp? && !op.Create? {
      RunwayEdit(p, w, op, id, agent);
    }
  }

  lemma {:induction false} RunwayRun(p: Params, w: World, ops: seq<Op>, id: string, agent: string)
    requires WorldOK(p, w) && p.prepaid && agent != "" && ValidRun(p, w, ops)
    requires OnRunway(p, w, id, agent)
    requires forall op :: op in ops && op.Create? ==> op.agent != agent
    ensures OnRunway(p, Run(p, w, ops), id, agent)
  {
    if ops != [] {
      RunwayRun(p, w, ops[..|ops| - 1], id, agent);
      RunKeeps(p, w, ops[..|ops| - 1]);
      RunwayStep(p, Run(p, w, ops[..|ops| - 1]), ops[|ops| - 1], id, agent);
    }
  }

  /**
   Runway: once a start has passed the prepaid check and this is the agent's only session, no debit attempt
   has failed since the last start as long as the metered seconds fit into k windows that the checked
   minutes cover. Pauses, resumes, stream changes, further starts and credits may happen in between.
   */
  lemma RunwayGuarantee(p: Params, w: World, id: string, naryo: Option<string>, ops: seq<Op>, k: int)
    requires WorldOK(p, w) && p.prepaid && id in w.sessions && w.sessions[id].agent != ""
    requires OnlySessionOf(w.sessions, id, w.sessions[id].agent)
    requires Step(p, w, Start(id, naryo)).error.None?
    requires ValidRun(p, Step(p, w, Start(id, naryo)).world, ops)
    requires forall op :: op in ops && op.Create? ==> op.agent != w.sessions[id].agent
    requires k * p.interval <= 60 * p.minStart
    ensures var u := Run(p, Step(p, w, Start(id, naryo)).world, ops);
            && id in u.sessions
            && (TicksSinceStart(u.sessions[id].log) <= k * p.interval ==> NoFailureSinceStart(u.sessions[id].log))
  {
    var v := Step(p, w, Start(id, naryo)).world;
    StepKeeps(p, w, Start(id, naryo));
    CoveredStart(p, w, id, naryo);
    RunwayRun(p, v, ops, id, w.sessions[id].agent);
  }
}

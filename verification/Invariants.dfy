/**
 What every operation keeps: each session's counters are the reference readings of its history, and the
 ledger's keys and balances are exactly what the top-ups and the fresh debits account for.
 */
module Invariants {
  import opened Collections
  import opened Ledger
  import opened Sessions
  import opened Metering

  // ---------------------------------------------------------------------------------------------
  // One session

  /** Each recorded event was justified by the history before it. */
  ghost predicate Justified(l: Log) {
    l.Empty? ||
    (Justified(l.before) &&
     match l.last
     case Committed(bucket, units) => units > 0 && bucket == DebitsSinceStart(l.before) + 1
     case Refused(bucket, units, balance, at) => balance < units && bucket == DebitsSinceStart(l.before) + 1
     case AutoPaused(bucket, units, balance, at) =>
       balance < units &&
       OpenRefusal(l.before).Some? &&
       var f := OpenRefusal(l.before).value.last;
       f.bucket == bucket && f.units <= units && at >= f.at + 60
     case Summarised(units, seconds, at, window) =>
       units > 0 && 5 <= window <= 15 &&
       (LastSummary(l.before).Some? ==> at - LastSummary(l.before).value >= window * MINUTE)
     case _ => true)
  }

  ghost predicate MeterOK(s: Session) {
    && s.rate > 0
    && 0 <= s.window == SecondsInWindow(s.log)
    && s.rate * s.window <= s.numerator < s.rate * s.window + 60
    && 60 * UnitsSinceStart(s.log) + s.numerator == s.rate * TicksSinceStart(s.log)
    && UnitsSinceStart(s.log) >= 0
    && 0 <= s.debitSeq == DebitsSinceStart(s.log) <= HighestBucket(s.log)
  }

  ghost predicate AccountOK(s: Session) {
    && s.charged == FreshUnits(s.log) + ReplayedUnits(s.log)
    && FreshUnits(s.log) >= 0 && ReplayedUnits(s.log) >= 0
    && s.charged == SummarisedUnits(s.log) + s.pendingUnits
    && s.pendingUnits >= 0
    && TotalTicks(s.log) == SummarisedSeconds(s.log) + s.pendingSeconds + s.window + ForfeitedSeconds(s.log)
    && 5 <= s.summaryWindow <= 15
    && (LastSummary(s.log).Some? ==> s.lastSummaryAt == LastSummary(s.log).value > 0)
    && s.lastSummaryAt >= 0
  }

  ghost predicate LifecycleOK(s: Session) {
    && (s.streamActive ==> s.state == Running)
    && (s.autoPaused ==> s.state == Paused || s.state == Stopped)
    && (s.autoPaused <==> FundsPaused(s.log))
    && (s.state == Created ==> s.log == Empty)
    && (s.state == Running || s.state == Paused ==> s.log != Empty)
    && OpensWithStart(s.log)
    && (s.retryPending ==>
          (OpenRefusal(s.log).Some? &&
           var f := OpenRefusal(s.log).value.last;
           f.bucket == s.debitSeq + 1 && f.units <= s.numerator / 60 && s.retryAt == f.at + 60))
  }

  ghost predicate SessionOK(s: Session) {
    Justified(s.log) && MeterOK(s) && AccountOK(s) && LifecycleOK(s)
  }

  lemma NewSessionOK(p: Params, agent: string)
    requires Sound(p)
    ensures SessionOK(NewSession(p, agent))
  {
  }

  lemma StartKeeps(s: Session, naryo: Option<string>)
    requires SessionOK(s)
    ensures SessionOK(StartEdit(s, naryo).session)
  {
  }

  lemma ResumeKeeps(s: Session)
    requires SessionOK(s)
    ensures SessionOK(ResumeEdit(s).session)
  {
  }

  lemma OtherEditsKeep(s: Session, active: bool)
    requires SessionOK(s)
    ensures SessionOK(StopEdit(s).session)
    ensures SessionOK(PauseEdit(s).session)
    ensures SessionOK(StreamEdit(s, active).session)
  {
  }

  lemma TimesSuccessor(rate: int, n: int)
    ensures rate * (n + 1) == rate * n + rate
  {
  }

  lemma AccrueKeepsMeter(p: Params, s: Session)
    requires MeterOK(s)
    ensures MeterOK(AccrueSecond(p, s))
  {
    TimesSuccessor(s.rate, s.window);
    TimesSuccessor(s.rate, TicksSinceStart(s.log));
  }

  lemma AccrueKeepsLifecycle(p: Params, s: Session)
    requires s.rate > 0 && s.state == Running && LifecycleOK(s)
    ensures LifecycleOK(AccrueSecond(p, s))
  {
    assert s.numerator / 60 <= (s.numerator + s.rate) / 60;
  }

  lemma AccrueKeeps(p: Params, s: Session)
    requires SessionOK(s) && s.state == Running
    ensures SessionOK(AccrueSecond(p, s))
  {
    AccrueKeepsMeter(p, s);
    AccrueKeepsLifecycle(p, s);
    assert AccountOK(AccrueSecond(p, s));
  }

  lemma BookKeeps(s: Session)
    requires SessionOK(s) && s.state == Running && s.numerator >= 60
    ensures SessionOK(BookDebit(s, s.numerator / 60))
    ensures BookDebit(s, s.numerator / 60).state == Running
  {
  }

  lemma SummariseKeeps(p: Params, s: Session, now: int)
    requires Sound(p) && SessionOK(s) && s.state == Running && now > 0
    ensures SessionOK(Summarise(p, s, now))
  {
  }

  lemma CommitKeeps(p: Params, s: Session, now: int)
    requires Sound(p) && SessionOK(s) && s.state == Running && s.numerator >= 60 && now > 0
    ensures SessionOK(CommitDebit(p, s, s.numerator / 60, now))
  {
    BookKeeps(s);
    SummariseKeeps(p, BookDebit(s, s.numerator / 60), now);
  }

  lemma NumeratorIsNonNegative(s: Session)
    requires MeterOK(s)
    ensures s.numerator >= 0
  {
    assert s.rate * s.window >= 0;
  }

  lemma CarryKeeps(s: Session)
    requires SessionOK(s) && s.state == Running && s.numerator < 60
    ensures SessionOK(CarryOver(s))
  {
    NumeratorIsNonNegative(s);
    assert s.numerator % 60 == s.numerator;
  }

  lemma RefuseKeeps(s: Session, bal: int, now: int)
    requires SessionOK(s) && s.state == Running && bal < s.numerator / 60
    requires s.retryPending ==> Unix(now) >= s.retryAt
    ensures SessionOK(RefuseDebit(s, s.numerator / 60, bal, now))
  {
  }

  /** The four ways a full window can end; bal is the balance the ledger found too small. */
  lemma SettleCases(p: Params, l: Books, id: string, s: Session, now: int)
    ensures var r, units := SettleWindow(p, l, id, s, now), s.numerator / 60;
            if units <= 0 then r == TickResult(CarryOver(s), l, false, false)
            else
              match Charge(l, s.agent, id, units, s.debitSeq + 1)
              case Charged(l', _) => r == TickResult(CommitDebit(p, s, units, now), l', false, false)
              case InsufficientFunds(bal) =>
                && bal == Balance(l, s.agent) < units
                && r == TickResult(RefuseDebit(s, units, bal, now), l, s.retryPending, false)
              case InvalidCharge => r == TickResult(s, l, false, true)
  {
  }

  lemma SettleKeeps(p: Params, l: Books, id: string, s: Session, now: int)
    requires Sound(p) && SessionOK(s) && s.state == Running && now > 0
    requires s.retryPending ==> Unix(now) >= s.retryAt
    ensures SessionOK(SettleWindow(p, l, id, s, now).session)
  {
    SettleCases(p, l, id, s, now);
    if s.numerator < 60 {
      CarryKeeps(s);
    } else {
      CommitKeeps(p, s, now);
      if Balance(l, s.agent) < s.numerator / 60 { RefuseKeeps(s, Balance(l, s.agent), now); }
    }
  }

  function Billed(s: Session): Session {
    s.(billedSeconds := s.billedSeconds + 1)
  }

  lemma BilledKeeps(s: Session)
    requires SessionOK(s)
    ensures SessionOK(Billed(s))
  {
  }

  predicate Accrues(p: Params, s: Session, now: int) {
    s.state == Running && s.streamActive && p.prepaid && s.agent != "" && !(s.retryPending && Unix(now) < s.retryAt)
  }

  /** The five ways a tick can treat a session. */
  lemma TickCases(p: Params, l: Books, id: string, s: Session, now: int)
    ensures var r := TickSession(p, l, id, s, now);
            if s.state != Running || !s.streamActive then r == TickResult(s, l, false, false)
            else if !Accrues(p, s, now) then r == TickResult(Billed(s), l, false, false)
            else
              var a := AccrueSecond(p, Billed(s));
              if a.window < p.interval then r == TickResult(a, l, false, false)
              else r == SettleWindow(p, l, id, a, now)
  {
  }

  lemma TickKeepsSession(p: Params, l: Books, id: string, s: Session, now: int)
    requires Sound(p) && SessionOK(s) && now > 0
    ensures SessionOK(TickSession(p, l, id, s, now).session)
  {
    TickCases(p, l, id, s, now);
    BilledKeeps(s);
    if Accrues(p, s, now) {
      AccrueKeeps(p, Billed(s));
      SettleKeeps(p, l, id, AccrueSecond(p, Billed(s)), now);
    }
  }

  // ---------------------------------------------------------------------------------------------
  // All sessions and the shared ledger

  ghost function Measured(ss: map<string, Session>, agent: string, measure: Session -> int): map<string, int> {
    map id | id in ss && ss[id].agent == agent :: measure(ss[id])
  }

  /** The sum of a measure over one agent's sessions. */
  ghost function Total(ss: map<string, Session>, agent: string, measure: Session -> int): int {
    SumMap(Measured(ss, agent, measure))
  }

  ghost function Fresh(s: Session): int { FreshUnits(s.log) }

  ghost function Replayed(s: Session): int { ReplayedUnits(s.log) }

  ghost function ChargedUnits(s: Session): int { s.charged }

  lemma TotalUpdate(ss: map<string, Session>, id: string, s: Session, agent: string, measure: Session -> int)
    requires id in ss ==> ss[id].agent == s.agent
    ensures Total(ss[id := s], agent, measure) ==
            Total(ss, agent, measure) +
            (if s.agent != agent then 0
             else if id in ss then measure(s) - measure(ss[id]) else measure(s))
  {
    var m, m' := Measured(ss, agent, measure), Measured(ss[id := s], agent, measure);
    if s.agent == agent {
      assert m' == m[id := measure(s)];
      SumMapUpdate(m, id, measure(s));
    } else {
      assert m' == m;
    }
  }

  ghost predicate ChargeKeysExact(ss: map<string, Session>, l: Books) {
    forall agent, id, bucket :: BarFree(agent) && PipelineId(id) ==>
      (ChargeKey(agent, id, bucket) in l.credited <==>
       id in ss && ss[id].agent == agent && 1 <= bucket <= HighestBucket(ss[id].log))
  }

  ghost predicate CreditKeysExact(l: Books, ds: seq<TopUp>) {
    forall t: TopUp :: BarFree(t.agent) && t.source in SOURCES && t.tx != "" ==>
      (CreditKey(t.agent, t.tx, t.source) in l.credited <==> Seen(ds, t))
  }

  ghost predicate MoneyOK(ss: map<string, Session>, l: Books, ds: seq<TopUp>) {
    forall agent ::
      Balance(l, agent) >= 0 && Balance(l, agent) + Total(ss, agent, Fresh) == FirstTotal(ds, agent)
  }

  ghost predicate SessionsOK(p: Params, ss: map<string, Session>) {
    forall id :: id in ss ==>
      PipelineId(id) && BarFree(ss[id].agent) && ss[id].rate == p.rate && SessionOK(ss[id])
  }

  ghost predicate WorldOK(p: Params, w: World) {
    && Sound(p)
    && SessionsOK(p, w.sessions)
    && ChargeKeysExact(w.sessions, w.books)
    && CreditKeysExact(w.books, w.topUps)
    && MoneyOK(w.sessions, w.books, w.topUps)
  }

  lemma EmptyWorldOK(p: Params)
    requires Sound(p)
    ensures WorldOK(p, EmptyWorld)
  {
    forall agent ensures Total(EmptyWorld.sessions, agent, Fresh) == 0 {
      assert Measured(EmptyWorld.sessions, agent, Fresh) == map[];
    }
  }

  /** The ledger and the session's buckets did not move. */
  ghost predicate Still(l: Books, s: Session, l': Books, s': Session) {
    l' == l && HighestBucket(s'.log) == HighestBucket(s.log) && Fresh(s') == Fresh(s)
  }

  /** A debit on the next bucket: the balance moves by exactly what the history records. */
  ghost predicate Debited(l: Books, id: string, s: Session, l': Books, s': Session) {
    var bucket, units := HighestBucket(s.log) + 1, Fresh(s') - Fresh(s);
    && 0 < units <= Balance(l, s.agent)
    && HighestBucket(s'.log) == bucket
    && l' == Books(l.balances[s.agent := Balance(l, s.agent) - units],
                   l.credited + {ChargeKey(s.agent, id, bucket)})
  }

  lemma CommitReadings(p: Params, s: Session, units: int, now: int)
    ensures var log := CommitDebit(p, s, units, now).log;
            && HighestBucket(log) ==
               (if s.debitSeq + 1 > HighestBucket(s.log) then s.debitSeq + 1 else HighestBucket(s.log))
            && FreshUnits(log) ==
               FreshUnits(s.log) + (if s.debitSeq + 1 > HighestBucket(s.log) then units else 0)
  {
  }

  /** A commit moves the balance if and only if its bucket exceeds every bucket reached before. */
  lemma SettleMovesBalance(p: Params, l: Books, id: string, s: Session, now: int)
    requires ChargeKey(s.agent, id, s.debitSeq + 1) in l.credited <==> 1 <= s.debitSeq + 1 <= HighestBucket(s.log)
    requires s.debitSeq >= 0 && s.debitSeq <= HighestBucket(s.log)
    ensures var r := SettleWindow(p, l, id, s, now);
            r.session.agent == s.agent && r.session.rate == s.rate &&
            if s.numerator >= 60 && s.agent != "" && id != "" &&
               s.debitSeq + 1 > HighestBucket(s.log) && Balance(l, s.agent) >= s.numerator / 60
            then Debited(l, id, s, r.books, r.session)
            else Still(l, s, r.books, r.session)
  {
    CommitReadings(p, s, s.numerator / 60, now);
  }

  lemma AccrueReadings(p: Params, s: Session)
    ensures var a := AccrueSecond(p, Billed(s));
            && HighestBucket(a.log) == HighestBucket(s.log) && Fresh(a) == Fresh(s)
            && a.agent == s.agent && a.rate == s.rate && a.debitSeq == s.debitSeq
  {
  }

  lemma TickMovesBalance(p: Params, l: Books, id: string, s: Session, now: int)
    requires 0 <= s.debitSeq <= HighestBucket(s.log)
    requires forall b :: ChargeKey(s.agent, id, b) in l.credited <==> 1 <= b <= HighestBucket(s.log)
    ensures var r := TickSession(p, l, id, s, now);
            r.session.agent == s.agent && r.session.rate == s.rate &&
            (Still(l, s, r.books, r.session) || Debited(l, id, s, r.books, r.session))
  {
    TickCases(p, l, id, s, now);
    AccrueReadings(p, s);
    SettleMovesBalance(p, l, id, AccrueSecond(p, Billed(s)), now);
  }

  lemma DebitKeepsKeys(ss: map<string, Session>, l: Books, ds: seq<TopUp>, id: string, l': Books, s': Session)
    requires ChargeKeysExact(ss, l) && CreditKeysExact(l, ds)
    requires id in ss && PipelineId(id) && BarFree(ss[id].agent) && s'.agent == ss[id].agent
    requires HighestBucket(ss[id].log) >= 0
    requires Debited(l, id, ss[id], l', s')
    ensures ChargeKeysExact(ss[id := s'], l') && CreditKeysExact(l', ds)
  {
    var agent, bucket := s'.agent, HighestBucket(ss[id].log) + 1;
    forall a, i, b | BarFree(a) && PipelineId(i)
      ensures ChargeKey(a, i, b) in l'.credited <==>
              i in ss[id := s'] && ss[id := s'][i].agent == a && 1 <= b <= HighestBucket(ss[id := s'][i].log)
    {
      if ChargeKey(a, i, b) == ChargeKey(agent, id, bucket) {
        ChargeKeyInjective(a, i, b, agent, id, bucket);
      }
    }
    forall t: TopUp | BarFree(t.agent) && t.source in SOURCES && t.tx != ""
      ensures CreditKey(t.agent, t.tx, t.source) in l'.credited <==> Seen(ds, t)
    {
      CreditAndChargeKeysDisjoint(t.agent, t.tx, t.source, agent, id, bucket);
    }
  }

  /** What the ledger lost is what the session's history gained. */
  lemma MoneyStepKeeps(ss: map<string, Session>, l: Books, ds: seq<TopUp>, id: string, l': Books, s': Session)
    requires MoneyOK(ss, l, ds) && id in ss && s'.agent == ss[id].agent
    requires Still(l, ss[id], l', s') || Debited(l, id, ss[id], l', s')
    ensures MoneyOK(ss[id := s'], l', ds)
  {
    forall agent
      ensures Balance(l', agent) >= 0
      ensures Balance(l', agent) + Total(ss[id := s'], agent, Fresh) == FirstTotal(ds, agent)
    {
      TotalUpdate(ss, id, s', agent, Fresh);
    }
  }

  /** Replacing one session by a session that moved the ledger as recorded keeps the world in order. */
  lemma SessionStepKeeps(p: Params, w: World, id: string, s': Session, l': Books)
    requires WorldOK(p, w) && id in w.sessions
    requires var s := w.sessions[id];
             && SessionOK(s') && s'.agent == s.agent && s'.rate == s.rate
             && (Still(w.books, s, l', s') || Debited(w.books, id, s, l', s'))
    ensures WorldOK(p, w.(sessions := w.sessions[id := s'], books := l'))
  {
    var s := w.sessions[id];
    if !Still(w.books, s, l', s') {
      DebitKeepsKeys(w.sessions, w.books, w.topUps, id, l', s');
    }
    MoneyStepKeeps(w.sessions, w.books, w.topUps, id, l', s');
  }

  lemma TickOneKeeps(p: Params, w: World, id: string, now: int)
    requires WorldOK(p, w) && now > 0
    ensures WorldOK(p, TickOne(p, w, id, now))
    ensures TickOne(p, w, id, now).sessions.Keys == w.sessions.Keys
  {
    if id in w.sessions {
      var s := w.sessions[id];
      TickMovesBalance(p, w.books, id, s, now);
      TickKeepsSession(p, w.books, id, s, now);
      var r := TickSession(p, w.books, id, s, now);
      SessionStepKeeps(p, w, id, r.session, r.books);
    }
  }

  lemma {:induction false} TickAllKeeps(p: Params, w: World, ids: seq<string>, now: int)
    requires WorldOK(p, w) && now > 0
    ensures WorldOK(p, TickAll(p, w, ids, now))
    ensures TickAll(p, w, ids, now).sessions.Keys == w.sessions.Keys
  {
    if ids != [] {
      TickAllKeeps(p, w, ids[..|ids| - 1], now);
      TickOneKeeps(p, TickAll(p, w, ids[..|ids| - 1], now), ids[|ids| - 1], now);
    }
  }

  /** The fixed top-up sources contain no bar and are no pipeline id. */
  lemma SourcesArePlain(source: string)
    requires source in SOURCES
    ensures BarFree(source) && !PipelineId(source)
  {
  }

  lemma CreditKeepsChargeKeys(ss: map<string, Session>, l: Books, t: TopUp)
    requires ChargeKeysExact(ss, l) && BarFree(t.agent) && t.source in SOURCES
    ensures ChargeKeysExact(ss, Credited(l, t))
  {
    SourcesArePlain(t.source);
    forall a, i, b | BarFree(a) && PipelineId(i)
      ensures ChargeKey(a, i, b) in Credited(l, t).credited <==> ChargeKey(a, i, b) in l.credited
    {
      CreditAndChargeKeysDisjoint(t.agent, t.tx, t.source, a, i, b);
    }
  }

  lemma CreditKeepsCreditKeys(l: Books, ds: seq<TopUp>, t: TopUp)
    requires CreditKeysExact(l, ds) && BarFree(t.agent) && t.source in SOURCES && ValidTopUp(t)
    ensures CreditKeysExact(Credited(l, t), ds + [t])
  {
    SourcesArePlain(t.source);
    forall u: TopUp | BarFree(u.agent) && u.source in SOURCES && u.tx != ""
      ensures CreditKey(u.agent, u.tx, u.source) in Credited(l, t).credited <==> Seen(ds + [t], u)
    {
      SourcesArePlain(u.source);
      SeenSnoc(ds, t, u);
      if CreditKey(u.agent, u.tx, u.source) == CreditKey(t.agent, t.tx, t.source) {
        CreditKeyInjective(u.agent, u.tx, u.source, t.agent, t.tx, t.source);
      }
    }
  }

  lemma CreditKeeps(p: Params, w: World, t: TopUp)
    requires WorldOK(p, w) && BarFree(t.agent) && t.source in SOURCES && ValidTopUp(t)
    ensures WorldOK(p, w.(books := Credited(w.books, t), topUps := w.topUps + [t]))
  {
    var ds := w.topUps + [t];
    assert ds[..|ds| - 1] == w.topUps && ds[|ds| - 1] == t;
    CreditKeepsChargeKeys(w.sessions, w.books, t);
    CreditKeepsCreditKeys(w.books, w.topUps, t);
    assert t.tx != "" ==> (CreditKey(t.agent, t.tx, t.source) in w.books.credited <==> Seen(w.topUps, t));
    forall agent
      ensures Balance(Credited(w.books, t), agent) >= 0
      ensures Balance(Credited(w.books, t), agent) + Total(w.sessions, agent, Fresh) == FirstTotal(ds, agent)
    {
      assert Balance(w.books, agent) + Total(w.sessions, agent, Fresh) == FirstTotal(w.topUps, agent);
      assert FirstTotal(ds, agent) == FirstTotal(w.topUps, agent) +
             (if t.agent == agent && (t.tx == "" || !Seen(w.topUps, t)) then t.amount else 0);
    }
  }

  lemma CreateKeeps(p: Params, w: World, id: string, agent: string)
    requires WorldOK(p, w) && PipelineId(id) && id !in w.sessions && BarFree(agent)
    ensures WorldOK(p, w.(sessions := w.sessions[id := NewSession(p, agent)]))
  {
    NewSessionOK(p, agent);
    forall a {
      TotalUpdate(w.sessions, id, NewSession(p, agent), a, Fresh);
    }
  }

  lemma EditKeeps(p: Params, w: World, id: string, s': Session)
    requires WorldOK(p, w) && id in w.sessions
    requires var s := w.sessions[id];
             SessionOK(s') && s'.agent == s.agent && s'.rate == s.rate && Still(w.books, s, w.books, s')
    ensures WorldOK(p, w.(sessions := w.sessions[id := s']))
  {
    SessionStepKeeps(p, w, id, s', w.books);
  }

  lemma StartStepKeeps(p: Params, w: World, id: string, naryo: Option<string>)
    requires WorldOK(p, w)
    ensures WorldOK(p, Step(p, w, Start(id, naryo)).world)
  {
    if id in w.sessions {
      StartKeeps(w.sessions[id], naryo);
      EditKeeps(p, w, id, StartEdit(w.sessions[id], naryo).session);
    }
  }

  lemma ResumeStepKeeps(p: Params, w: World, id: string, naryoOk: bool)
    requires WorldOK(p, w)
    ensures WorldOK(p, Step(p, w, Resume(id, naryoOk)).world)
  {
    if id in w.sessions {
      ResumeKeeps(w.sessions[id]);
      EditKeeps(p, w, id, ResumeEdit(w.sessions[id]).session);
    }
  }

  lemma StopStepKeeps(p: Params, w: World, id: string, naryoOk: bool)
    requires WorldOK(p, w)
    ensures WorldOK(p, Step(p, w, Stop(id, naryoOk)).world)
  {
    if id in w.sessions {
      OtherEditsKeep(w.sessions[id], true);
      EditKeeps(p, w, id, StopEdit(w.sessions[id]).session);
    }
  }

  lemma PauseStepKeeps(p: Params, w: World, id: string, naryoOk: bool)
    requires WorldOK(p, w)
    ensures WorldOK(p, Step(p, w, Pause(id, naryoOk)).world)
  {
    if id in w.sessions {
      OtherEditsKeep(w.sessions[id], true);
      EditKeeps(p, w, id, PauseEdit(w.sessions[id]).session);
    }
  }

  lemma StreamStepKeeps(p: Params, w: World, id: string, active: bool)
    requires WorldOK(p, w)
    ensures WorldOK(p, Step(p, w, SetStream(id, active)).world)
  {
    if id in w.sessions {
      OtherEditsKeep(w.sessions[id], active);
      EditKeeps(p, w, id, StreamEdit(w.sessions[id], active).session);
    }
  }

  lemma StepKeeps(p: Params, w: World, op: Op)
    requires WorldOK(p, w) && ValidOp(w, op)
    ensures WorldOK(p, Step(p, w, op).world)
  {
    match op
    case CreditTopUp(t) => if ValidTopUp(t) { CreditKeeps(p, w, t); }
    case Create(id, agent) => CreateKeeps(p, w, id, agent);
    case Start(id, naryo) => StartStepKeeps(p, w, id, naryo);
    case Stop(id, naryoOk) => StopStepKeeps(p, w, id, naryoOk);
    case Pause(id, naryoOk) => PauseStepKeeps(p, w, id, naryoOk);
    case Resume(id, naryoOk) => ResumeStepKeeps(p, w, id, naryoOk);
    case SetStream(id, active) => StreamStepKeeps(p, w, id, active);
    case BillingTick(now, order) => TickAllKeeps(p, w, order, now);
  }

  /** The invariant holds after every valid run from any world that satisfies it, the empty one included. */
  lemma {:induction false} RunKeeps(p: Params, w: World, ops: seq<Op>)
    requires WorldOK(p, w) && ValidRun(p, w, ops)
    ensures WorldOK(p, Run(p, w, ops))
  {
    if ops != [] {
      RunKeeps(p, w, ops[..|ops| - 1]);
      StepKeeps(p, Run(p, w, ops[..|ops| - 1]), ops[|ops| - 1]);
    }
  }
}

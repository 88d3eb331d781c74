/**
 When the outcome of a tick depends on the order in which the store lists the sessions. Two exact conditions: one
 for the fields the program keeps, one for the history as well, which also notes the balance a refused debit met.
 */
module TickOrder {
  import opened Collections
  import opened Ledger
  import opened Sessions
  import opened Metering
  import opened Invariants
  import opened Ticks

  /** Units this tick would take from the balance for this session: nothing for a bucket already paid. */
  ghost function DueUnits(p: Params, s: Session, now: int): int {
    if !Accrues(p, s, now) then 0
    else
      var a := AccrueSecond(p, Billed(s));
      if a.window >= p.interval && a.numerator >= 60 && s.debitSeq + 1 > HighestBucket(s.log)
      then a.numerator / 60 else 0
  }

  /** What a tick makes of a session whose debit, if any, is accepted. */
  ghost function FundedTick(p: Params, s: Session, now: int): Session {
    if s.state != Running || !s.streamActive then s
    else if !Accrues(p, s, now) then Billed(s)
    else
      var a := AccrueSecond(p, Billed(s));
      if a.window < p.interval then a
      else if a.numerator < 60 then CarryOver(a)
      else CommitDebit(p, a, a.numerator / 60, now)
  }

  /** What a tick makes of a session that meets this balance. */
  ghost function SettledTick(p: Params, s: Session, bal: int, now: int): Session {
    if DueUnits(p, s, now) <= bal then FundedTick(p, s, now)
    else RefuseDebit(AccrueSecond(p, Billed(s)), DueUnits(p, s, now), bal, now)
  }

  /** The session's debit if its agent's balance covers it alone. */
  ghost function AffordableUnits(p: Params, w: World, id: string, now: int): int
    requires id in w.sessions
  {
    var due := DueUnits(p, w.sessions[id], now);
    if due <= Balance(w.books, w.sessions[id].agent) then due else 0
  }

  ghost function AffordableMap(p: Params, w: World, ids: set<string>, agent: string, now: int): map<string, int> {
    map id | id in ids && id in w.sessions && w.sessions[id].agent == agent :: AffordableUnits(p, w, id, now)
  }

  ghost function DueMap(p: Params, w: World, agent: string, now: int): map<string, int> {
    map id | id in w.sessions && w.sessions[id].agent == agent :: DueUnits(p, w.sessions[id], now)
  }

  /** For each agent, the debits its balance covers one by one are also covered together. */
  ghost predicate JointlyAffordable(p: Params, w: World, now: int) {
    forall agent {:trigger AffordableMap(p, w, w.sessions.Keys, agent, now)} ::
      SumMap(AffordableMap(p, w, w.sessions.Keys, agent, now)) <= Balance(w.books, agent)
  }

  /** None of the agent's debits is affordable, so the tick leaves its balance alone. */
  ghost predicate NoneAffordable(p: Params, w: World, agent: string, now: int) {
    forall id :: id in w.sessions && w.sessions[id].agent == agent ==> AffordableUnits(p, w, id, now) == 0
  }

  /** For each agent, its balance covers the sum of what is due, or no single debit. */
  ghost predicate Uncontended(p: Params, w: World, now: int) {
    forall agent {:trigger NoneAffordable(p, w, agent, now)} ::
      SumMap(DueMap(p, w, agent, now)) <= Balance(w.books, agent) || NoneAffordable(p, w, agent, now)
  }

  // ---------------------------------------------------------------------------------------------
  // One visit

  lemma DueIsNonNegative(p: Params, s: Session, now: int)
    ensures DueUnits(p, s, now) >= 0
  {
  }

  /** The books after a debit of due units on the session's next bucket, or untouched when nothing is due. */
  ghost function Debit(l: Books, agent: string, key: string, due: int): Books {
    if due == 0 then l else Books(l.balances[agent := Balance(l, agent) - due], l.credited + {key})
  }

  lemma AcceptedCharge(l: Books, agent: string, id: string, units: int, bucket: int, paid: bool)
    requires agent != "" && id != "" && units > 0
    requires ChargeKey(agent, id, bucket) in l.credited <==> paid
    requires !paid ==> Balance(l, agent) >= units
    ensures var r := Charge(l, agent, id, units, bucket);
            r.Charged? && r.books == Debit(l, agent, ChargeKey(agent, id, bucket), if paid then 0 else units)
  {
  }

  lemma FundedVisit(p: Params, l: Books, id: string, s: Session, now: int)
    requires PipelineId(id)
    requires ChargeKey(s.agent, id, s.debitSeq + 1) in l.credited <==> s.debitSeq + 1 <= HighestBucket(s.log)
    requires DueUnits(p, s, now) <= Balance(l, s.agent)
    ensures var r, due := TickSession(p, l, id, s, now), DueUnits(p, s, now);
            && r.session == FundedTick(p, s, now)
            && r.books == Debit(l, s.agent, ChargeKey(s.agent, id, s.debitSeq + 1), due)
  {
    TickCases(p, l, id, s, now);
    if Accrues(p, s, now) {
      var a := AccrueSecond(p, Billed(s));
      SettleCases(p, l, id, a, now);
      if a.window >= p.interval && a.numerator >= 60 {
        AcceptedCharge(l, s.agent, id, a.numerator / 60, s.debitSeq + 1, s.debitSeq + 1 <= HighestBucket(s.log));
      }
    }
  }

  lemma RefusedVisit(p: Params, l: Books, id: string, s: Session, now: int)
    requires PipelineId(id) && 0 <= Balance(l, s.agent) < DueUnits(p, s, now)
    requires ChargeKey(s.agent, id, s.debitSeq + 1) in l.credited <==> s.debitSeq + 1 <= HighestBucket(s.log)
    ensures var r := TickSession(p, l, id, s, now);
            r.session == SettledTick(p, s, Balance(l, s.agent), now) && r.books == l
  {
    TickCases(p, l, id, s, now);
    SettleCases(p, l, id, AccrueSecond(p, Billed(s)), now);
  }

  /** Any visit: the session settles at the balance it meets, and the ledger pays what is due and covered. */
  lemma Visit(p: Params, l: Books, id: string, s: Session, now: int)
    requires PipelineId(id) && Balance(l, s.agent) >= 0
    requires ChargeKey(s.agent, id, s.debitSeq + 1) in l.credited <==> s.debitSeq + 1 <= HighestBucket(s.log)
    ensures var r, due := TickSession(p, l, id, s, now), DueUnits(p, s, now);
            && r.session == SettledTick(p, s, Balance(l, s.agent), now)
            && r.books == Debit(l, s.agent, ChargeKey(s.agent, id, s.debitSeq + 1),
                                if due <= Balance(l, s.agent) then due else 0)
  {
    if DueUnits(p, s, now) <= Balance(l, s.agent) {
      FundedVisit(p, l, id, s, now);
    } else {
      RefusedVisit(p, l, id, s, now);
    }
  }

  /** The world after id met the balance that its agent has. */
  ghost function AfterVisit(p: Params, w: World, id: string, now: int): World
    requires id in w.sessions
  {
    var s := w.sessions[id];
    var due, bal := DueUnits(p, s, now), Balance(w.books, s.agent);
    w.(sessions := w.sessions[id := SettledTick(p, s, bal, now)],
       books := Debit(w.books, s.agent, ChargeKey(s.agent, id, s.debitSeq + 1), if due <= bal then due else 0))
  }

  lemma SessionOfWorld(p: Params, w: World, id: string)
    requires WorldOK(p, w) && id in w.sessions
    ensures var s := w.sessions[id];
            && PipelineId(id) && Balance(w.books, s.agent) >= 0
            && (ChargeKey(s.agent, id, s.debitSeq + 1) in w.books.credited <==> s.debitSeq + 1 <= HighestBucket(s.log))
  {
    assert BarFree(w.sessions[id].agent);
  }

  lemma TickOneParts(p: Params, w: World, id: string, now: int, s': Session, l': Books)
    requires id in w.sessions
    requires var r := TickSession(p, w.books, id, w.sessions[id], now); r.session == s' && r.books == l'
    ensures TickOne(p, w, id, now) == w.(sessions := w.sessions[id := s'], books := l')
  {
  }

  lemma VisitWorld(p: Params, w: World, id: string, now: int)
    requires id in w.sessions && PipelineId(id) && Balance(w.books, w.sessions[id].agent) >= 0
    requires var s := w.sessions[id];
             ChargeKey(s.agent, id, s.debitSeq + 1) in w.books.credited <==> s.debitSeq + 1 <= HighestBucket(s.log)
    ensures TickOne(p, w, id, now) == AfterVisit(p, w, id, now)
  {
    Visit(p, w.books, id, w.sessions[id], now);
    var r := TickSession(p, w.books, id, w.sessions[id], now);
    TickOneParts(p, w, id, now, r.session, r.books);
  }

  lemma WorldVisit(p: Params, w: World, id: string, now: int)
    requires WorldOK(p, w) && id in w.sessions
    ensures TickOne(p, w, id, now) == AfterVisit(p, w, id, now)
  {
    SessionOfWorld(p, w, id);
    VisitWorld(p, w, id, now);
  }

  // ---------------------------------------------------------------------------------------------
  // The outcome of a jointly affordable tick

  /** The fields the program keeps. */
  ghost function Erase(s: Session): Session { s.(log := Empty) }

  ghost predicate SameProgram(u: World, v: World) {
    && u.books == v.books && u.topUps == v.topUps && u.sessions.Keys == v.sessions.Keys
    && forall id :: id in u.sessions ==> Erase(u.sessions[id]) == Erase(v.sessions[id])
  }

  ghost function AffordedBooks(p: Params, w: World, ids: set<string>, now: int): Books {
    Books(map a | a in w.books.balances :: w.books.balances[a] - SumMap(AffordableMap(p, w, ids, a, now)),
          w.books.credited +
          (set id | id in ids && id in w.sessions && AffordableUnits(p, w, id, now) > 0
             :: ChargeKey(w.sessions[id].agent, id, w.sessions[id].debitSeq + 1)))
  }

  /**
   s' is what a visit makes of session id, as far as the program sees; and in full, unless its debit is refused
   while others of its agent are not.
   */
  ghost predicate Settled(p: Params, w: World, id: string, s': Session, now: int)
    requires id in w.sessions
  {
    var s, bal := w.sessions[id], Balance(w.books, w.sessions[id].agent);
    && Erase(s') == Erase(SettledTick(p, s, bal, now))
    && (DueUnits(p, s, now) <= bal || NoneAffordable(p, w, s.agent, now) ==> s' == SettledTick(p, s, bal, now))
  }

  /** v is the world after the sessions in done have been visited. */
  ghost predicate Visited(p: Params, w: World, v: World, done: set<string>, now: int) {
    && v.topUps == w.topUps && v.books == AffordedBooks(p, w, done, now) && v.sessions.Keys == w.sessions.Keys
    && forall id :: id in w.sessions ==>
         if id in done then Settled(p, w, id, v.sessions[id], now) else v.sessions[id] == w.sessions[id]
  }

  lemma AffordableIsNonNegative(p: Params, w: World, id: string, now: int)
    requires id in w.sessions
    ensures 0 <= AffordableUnits(p, w, id, now)
  {
    DueIsNonNegative(p, w.sessions[id], now);
  }

  lemma AffordableMapAdd(p: Params, w: World, ids: set<string>, id: string, agent: string, now: int)
    requires id in w.sessions && id !in ids
    ensures SumMap(AffordableMap(p, w, ids + {id}, agent, now)) ==
            SumMap(AffordableMap(p, w, ids, agent, now)) +
            (if w.sessions[id].agent == agent then AffordableUnits(p, w, id, now) else 0)
  {
    var m := AffordableMap(p, w, ids, agent, now);
    if w.sessions[id].agent == agent {
      assert AffordableMap(p, w, ids + {id}, agent, now) == m[id := AffordableUnits(p, w, id, now)];
      SumMapUpdate(m, id, AffordableUnits(p, w, id, now));
    } else {
      assert AffordableMap(p, w, ids + {id}, agent, now) == m;
    }
  }

  lemma PartIsCovered(p: Params, w: World, ids: set<string>, agent: string, now: int)
    requires JointlyAffordable(p, w, now)
    ensures 0 <= SumMap(AffordableMap(p, w, ids, agent, now)) <= Balance(w.books, agent)
  {
    var part := AffordableMap(p, w, ids, agent, now);
    var whole := AffordableMap(p, w, w.sessions.Keys, agent, now);
    forall id: string | id in w.sessions ensures AffordableUnits(p, w, id, now) >= 0 {
      AffordableIsNonNegative(p, w, id, now);
    }
    SumMapPart(part, whole);
    SumMapNonNegative(part);
  }

  lemma AffordedBalance(p: Params, w: World, ids: set<string>, agent: string, now: int)
    requires JointlyAffordable(p, w, now)
    ensures Balance(AffordedBooks(p, w, ids, now), agent) ==
            Balance(w.books, agent) - SumMap(AffordableMap(p, w, ids, agent, now)) >= 0
  {
    PartIsCovered(p, w, ids, agent, now);
  }

  /** When id's turn comes, its debit is covered if and only if the balance before the tick covered it. */
  lemma TurnIsCovered(p: Params, w: World, ids: set<string>, id: string, now: int)
    requires JointlyAffordable(p, w, now) && id in w.sessions && id !in ids
    ensures var due, bal := DueUnits(p, w.sessions[id], now), Balance(w.books, w.sessions[id].agent);
            var met := Balance(AffordedBooks(p, w, ids, now), w.sessions[id].agent);
            && 0 <= met <= bal
            && (due <= met <==> due <= bal)
  {
    var agent := w.sessions[id].agent;
    AffordedBalance(p, w, ids, agent, now);
    PartIsCovered(p, w, ids, agent, now);
    PartIsCovered(p, w, ids + {id}, agent, now);
    AffordableMapAdd(p, w, ids, id, agent, now);
  }

  lemma IdleBalance(p: Params, w: World, ids: set<string>, agent: string, now: int)
    requires JointlyAffordable(p, w, now) && NoneAffordable(p, w, agent, now)
    ensures Balance(AffordedBooks(p, w, ids, now), agent) == Balance(w.books, agent)
  {
    SumMapZero(AffordableMap(p, w, ids, agent, now));
    AffordedBalance(p, w, ids, agent, now);
  }

  lemma AffordedKeysAdd(p: Params, w: World, ids: set<string>, id: string, now: int)
    requires id in w.sessions && id !in ids
    ensures var s := w.sessions[id];
            AffordedBooks(p, w, ids + {id}, now).credited ==
            AffordedBooks(p, w, ids, now).credited +
            (if AffordableUnits(p, w, id, now) > 0 then {ChargeKey(s.agent, id, s.debitSeq + 1)} else {})
  {
  }

  /** m' takes due from the agent's balance and nothing else; a balance that is not there counts as zero. */
  ghost predicate Subtracted(m: map<string, int>, m': map<string, int>, agent: string, due: int) {
    && 0 <= due <= (if agent in m then m[agent] else 0) && m'.Keys == m.Keys
    && forall a :: a in m ==> m'[a] == (if a == agent then m[a] - due else m[a])
  }

  lemma DebitFromParts(l: Books, l': Books, agent: string, key: string, due: int)
    requires Subtracted(l.balances, l'.balances, agent, due)
    requires l'.credited == l.credited + (if due > 0 then {key} else {})
    ensures l' == Debit(l, agent, key, due)
  {
    assert due == 0 ==> l'.balances == l.balances;
    assert due > 0 ==> agent in l.balances && l'.balances == l.balances[agent := l.balances[agent] - due];
  }

  lemma AffordedBalancesAdd(p: Params, w: World, ids: set<string>, id: string, now: int)
    requires JointlyAffordable(p, w, now) && id in w.sessions && id !in ids
    ensures Subtracted(AffordedBooks(p, w, ids, now).balances, AffordedBooks(p, w, ids + {id}, now).balances,
                       w.sessions[id].agent, AffordableUnits(p, w, id, now))
  {
    forall a: string {
      AffordableMapAdd(p, w, ids, id, a, now);
    }
    TurnIsCovered(p, w, ids, id, now);
    AffordableIsNonNegative(p, w, id, now);
  }

  lemma AffordedBooksAdd(p: Params, w: World, ids: set<string>, id: string, now: int, agent: string, due: int)
    requires id in w.sessions && id !in ids && agent == w.sessions[id].agent && due == AffordableUnits(p, w, id, now)
    requires Subtracted(AffordedBooks(p, w, ids, now).balances, AffordedBooks(p, w, ids + {id}, now).balances, agent, due)
    ensures AffordedBooks(p, w, ids + {id}, now) ==
            Debit(AffordedBooks(p, w, ids, now), agent, ChargeKey(agent, id, w.sessions[id].debitSeq + 1), due)
  {
    AffordedKeysAdd(p, w, ids, id, now);
    DebitFromParts(AffordedBooks(p, w, ids, now), AffordedBooks(p, w, ids + {id}, now), agent,
                   ChargeKey(agent, id, w.sessions[id].debitSeq + 1), due);
  }

  /** The ledger after id's turn. */
  lemma TurnBooks(p: Params, w: World, done: set<string>, id: string, now: int)
    requires JointlyAffordable(p, w, now) && id in w.sessions && id !in done
    ensures var l, s := AffordedBooks(p, w, done, now), w.sessions[id];
            var due, met := DueUnits(p, s, now), Balance(l, s.agent);
            Debit(l, s.agent, ChargeKey(s.agent, id, s.debitSeq + 1), if due <= met then due else 0) ==
            AffordedBooks(p, w, done + {id}, now)
  {
    TurnIsCovered(p, w, done, id, now);
    AffordedBalancesAdd(p, w, done, id, now);
    AffordedBooksAdd(p, w, done, id, now, w.sessions[id].agent, AffordableUnits(p, w, id, now));
  }

  /** Two refusals differ in the balance they note and in nothing else. */
  lemma RefusalsLookAlike(a: Session, units: int, bal: int, bal': int, now: int)
    ensures Erase(RefuseDebit(a, units, bal, now)) == Erase(RefuseDebit(a, units, bal', now))
  {
  }

  lemma VisitSettles(p: Params, w: World, done: set<string>, id: string, now: int)
    requires JointlyAffordable(p, w, now) && id in w.sessions && id !in done
    ensures var met := Balance(AffordedBooks(p, w, done, now), w.sessions[id].agent);
            Settled(p, w, id, SettledTick(p, w.sessions[id], met, now), now)
  {
    var s := w.sessions[id];
    var met := Balance(AffordedBooks(p, w, done, now), s.agent);
    TurnIsCovered(p, w, done, id, now);
    RefusalsLookAlike(AccrueSecond(p, Billed(s)), DueUnits(p, s, now), met, Balance(w.books, s.agent), now);
    if NoneAffordable(p, w, s.agent, now) {
      IdleBalance(p, w, done, s.agent, now);
    }
  }

  lemma VisitedAdd(p: Params, w: World, v: World, done: set<string>, id: string, s': Session, now: int)
    requires id in w.sessions && id !in done && Visited(p, w, v, done, now) && Settled(p, w, id, s', now)
    ensures Visited(p, w, World(v.sessions[id := s'], AffordedBooks(p, w, done + {id}, now), w.topUps), done + {id}, now)
  {
  }

  /** A visit of id in a world that agrees with w on id. */
  lemma VisitFrom(p: Params, w: World, v: World, l: Books, id: string, now: int)
    requires id in w.sessions && id in v.sessions && v.sessions[id] == w.sessions[id] && v.books == l
    ensures var s := w.sessions[id];
            var due, met := DueUnits(p, s, now), Balance(l, s.agent);
            AfterVisit(p, v, id, now) ==
            World(v.sessions[id := SettledTick(p, s, met, now)],
                  Debit(l, s.agent, ChargeKey(s.agent, id, s.debitSeq + 1), if due <= met then due else 0), v.topUps)
  {
  }

  lemma VisitNext(p: Params, w: World, v: World, done: set<string>, id: string, now: int)
    requires JointlyAffordable(p, w, now) && id in w.sessions && id !in done
    requires Visited(p, w, v, done, now)
    ensures Visited(p, w, AfterVisit(p, v, id, now), done + {id}, now)
  {
    var s, l := w.sessions[id], AffordedBooks(p, w, done, now);
    VisitFrom(p, w, v, l, id, now);
    VisitSettles(p, w, done, id, now);
    TurnBooks(p, w, done, id, now);
    VisitedAdd(p, w, v, done, id, SettledTick(p, s, Balance(l, s.agent), now), now);
  }

  /** Whatever the order, the visited sessions are settled and the ledger has paid for exactly the affordable debits. */
  lemma {:induction false} TickSettlesAll(p: Params, w: World, ids: seq<string>, now: int)
    requires WorldOK(p, w) && JointlyAffordable(p, w, now) && now > 0
    requires Distinct(ids) && forall id :: id in ids ==> id in w.sessions
    ensures Visited(p, w, TickAll(p, w, ids, now), SetOf(ids), now)
  {
    if ids == [] {
      assert forall a :: AffordableMap(p, w, {}, a, now) == map[];
      assert AffordedBooks(p, w, {}, now).balances == w.books.balances;
      assert SetOf(ids) == {};
    } else {
      var before, id := ids[..|ids| - 1], ids[|ids| - 1];
      var done := SetOf(before);
      assert SetOf(ids) == done + {id};
      assert id !in done;
      TickSettlesAll(p, w, before, now);
      TickAllKeeps(p, w, before, now);
      WorldVisit(p, TickAll(p, w, before, now), id, now);
      VisitNext(p, w, TickAll(p, w, before, now), done, id, now);
    }
  }

  // ---------------------------------------------------------------------------------------------
  // Sufficient: the condition makes every order end alike

  /** Every order of the store's sessions leaves the same fields, or the same fields and history. */
  ghost predicate OrderFree(p: Params, w: World, now: int) {
    forall o, o' :: Enumerates(o, w.sessions.Keys) && Enumerates(o', w.sessions.Keys) ==>
      SameProgram(TickAll(p, w, o, now), TickAll(p, w, o', now))
  }

  ghost predicate OrderFreeHistory(p: Params, w: World, now: int) {
    forall o, o' :: Enumerates(o, w.sessions.Keys) && Enumerates(o', w.sessions.Keys) ==>
      TickAll(p, w, o, now) == TickAll(p, w, o', now)
  }

  lemma FullTickSettlesAll(p: Params, w: World, o: seq<string>, now: int)
    requires WorldOK(p, w) && JointlyAffordable(p, w, now) && now > 0 && Enumerates(o, w.sessions.Keys)
    ensures Visited(p, w, TickAll(p, w, o, now), w.sessions.Keys, now)
  {
    TickSettlesAll(p, w, o, now);
    assert SetOf(o) == w.sessions.Keys;
  }

  lemma VisitedLookAlike(p: Params, w: World, u: World, v: World, now: int)
    requires Visited(p, w, u, w.sessions.Keys, now) && Visited(p, w, v, w.sessions.Keys, now)
    ensures SameProgram(u, v)
  {
    forall id | id in u.sessions ensures Erase(u.sessions[id]) == Erase(v.sessions[id]) {
      assert Settled(p, w, id, u.sessions[id], now) && Settled(p, w, id, v.sessions[id], now);
    }
  }

  lemma AffordableIsOrderFree(p: Params, w: World, now: int)
    requires WorldOK(p, w) && now > 0 && JointlyAffordable(p, w, now)
    ensures OrderFree(p, w, now)
  {
    forall o, o' | Enumerates(o, w.sessions.Keys) && Enumerates(o', w.sessions.Keys)
      ensures SameProgram(TickAll(p, w, o, now), TickAll(p, w, o', now))
    {
      FullTickSettlesAll(p, w, o, now);
      FullTickSettlesAll(p, w, o', now);
      VisitedLookAlike(p, w, TickAll(p, w, o, now), TickAll(p, w, o', now), now);
    }
  }

  /** If everything due to an agent is covered, each of its debits is, and they are what is due. */
  lemma CoveredIsAffordable(p: Params, w: World, agent: string, now: int)
    requires SumMap(DueMap(p, w, agent, now)) <= Balance(w.books, agent)
    ensures forall id :: id in w.sessions && w.sessions[id].agent == agent ==>
              DueUnits(p, w.sessions[id], now) <= Balance(w.books, agent)
    ensures AffordableMap(p, w, w.sessions.Keys, agent, now) == DueMap(p, w, agent, now)
  {
    var m := DueMap(p, w, agent, now);
    forall id: string | id in m ensures m[id] >= 0 {
      DueIsNonNegative(p, w.sessions[id], now);
    }
    SumMapNonNegative(m);
    forall id | id in w.sessions && w.sessions[id].agent == agent
      ensures DueUnits(p, w.sessions[id], now) <= Balance(w.books, agent)
    {
      assert id in m;
    }
  }

  lemma UncontendedIsAffordable(p: Params, w: World, now: int)
    requires WorldOK(p, w) && Uncontended(p, w, now)
    ensures JointlyAffordable(p, w, now)
  {
    forall agent ensures SumMap(AffordableMap(p, w, w.sessions.Keys, agent, now)) <= Balance(w.books, agent) {
      if NoneAffordable(p, w, agent, now) {
        SumMapZero(AffordableMap(p, w, w.sessions.Keys, agent, now));
      } else {
        CoveredIsAffordable(p, w, agent, now);
      }
    }
  }

  lemma UncontendedSettles(p: Params, w: World, id: string, s': Session, now: int)
    requires Uncontended(p, w, now) && id in w.sessions && Settled(p, w, id, s', now)
    ensures s' == SettledTick(p, w.sessions[id], Balance(w.books, w.sessions[id].agent), now)
  {
    var agent := w.sessions[id].agent;
    if !NoneAffordable(p, w, agent, now) {
      CoveredIsAffordable(p, w, agent, now);
    }
  }

  lemma UncontendedVisitsAgree(p: Params, w: World, u: World, v: World, now: int)
    requires Uncontended(p, w, now)
    requires Visited(p, w, u, w.sessions.Keys, now) && Visited(p, w, v, w.sessions.Keys, now)
    ensures u == v
  {
    forall id | id in w.sessions ensures u.sessions[id] == v.sessions[id] {
      UncontendedSettles(p, w, id, u.sessions[id], now);
      UncontendedSettles(p, w, id, v.sessions[id], now);
    }
  }

  lemma UncontendedIsOrderFree(p: Params, w: World, now: int)
    requires WorldOK(p, w) && now > 0 && Uncontended(p, w, now)
    ensures OrderFreeHistory(p, w, now)
  {
    UncontendedIsAffordable(p, w, now);
    forall o, o' | Enumerates(o, w.sessions.Keys) && Enumerates(o', w.sessions.Keys)
      ensures TickAll(p, w, o, now) == TickAll(p, w, o', now)
    {
      FullTickSettlesAll(p, w, o, now);
      FullTickSettlesAll(p, w, o', now);
      UncontendedVisitsAgree(p, w, TickAll(p, w, o, now), TickAll(p, w, o', now), now);
    }
  }

  // ---------------------------------------------------------------------------------------------
  // Necessary: otherwise two orders end differently

  /** An order of the ids that begins as given. */
  lemma OrderFrom(first: seq<string>, ids: set<string>) returns (o: seq<string>)
    requires Distinct(first) && forall id :: id in first ==> id in ids
    ensures Enumerates(o, ids) && first <= o
    decreases |ids - SetOf(first)|
  {
    var rest := ids - SetOf(first);
    if rest == {} {
      o := first;
    } else {
      var id :| id in rest;
      assert rest - {id} == ids - SetOf(first + [id]);
      assert |rest - {id}| < |rest|;
      o := OrderFrom(first + [id], ids);
    }
  }

  /** The ids visited after the n-th leave a session alone. */
  lemma {:induction false} LaterVisitsLeave(p: Params, w: World, o: seq<string>, n: nat, id: string, now: int)
    requires n <= |o| && id !in o[n..]
    ensures id in w.sessions ==> id in TickAll(p, w, o, now).sessions && id in TickAll(p, w, o[..n], now).sessions
    ensures id in w.sessions ==> TickAll(p, w, o, now).sessions[id] == TickAll(p, w, o[..n], now).sessions[id]
  {
    TickKeepsKeys(p, w, o, now);
    TickKeepsKeys(p, w, o[..n], now);
    if n == |o| {
      assert o[..n] == o;
    } else {
      var before := o[..|o| - 1];
      assert before[..n] == o[..n] && o[n..][..|o| - 1 - n] == before[n..];
      assert o[|o| - 1] == o[n..][|o| - 1 - n];
      LaterVisitsLeave(p, w, before, n, id, now);
      TickKeepsKeys(p, w, before, now);
    }
  }

  lemma TickOf(p: Params, w: World, first: seq<string>, id: string, now: int)
    ensures TickAll(p, w, first + [id], now) == TickOne(p, TickAll(p, w, first, now), id, now)
  {
    assert (first + [id])[..|first|] == first;
  }

  /** What an order makes of a session when it visits it right after the given ids. */
  lemma VisitedAfter(p: Params, w: World, first: seq<string>, id: string, o: seq<string>, now: int)
    requires WorldOK(p, w) && now > 0 && id in w.sessions && id !in first
    requires Distinct(o) && first + [id] <= o
    ensures id in TickAll(p, w, o, now).sessions && id in TickAll(p, w, first, now).sessions
    ensures TickAll(p, w, o, now).sessions[id] ==
            SettledTick(p, w.sessions[id], Balance(TickAll(p, w, first, now).books, w.sessions[id].agent), now)
  {
    var n := |first| + 1;
    assert o[..n] == first + [id];
    assert id !in o[n..] by {
      assert o[|first|] == id;
    }
    LaterVisitsLeave(p, w, o, n, id, now);
    LaterVisitsLeave(p, w, first, 0, id, now);
    assert first[..0] == [];
    TickOf(p, w, first, id, now);
    TickAllKeeps(p, w, first, now);
    WorldVisit(p, TickAll(p, w, first, now), id, now);
  }

  /** A visit never lowers what was freshly debited; a due debit either goes through or leaves the sequence alone. */
  lemma VisitGain(p: Params, s: Session, bal: int, now: int)
    requires bal >= 0
    ensures var r, due := SettledTick(p, s, bal, now), DueUnits(p, s, now);
            && r.agent == s.agent && Fresh(r) >= Fresh(s)
            && (due > 0 ==> if due <= bal then r.debitSeq == s.debitSeq + 1 && Fresh(r) == Fresh(s) + due
                            else r.debitSeq == s.debitSeq)
  {
    if Accrues(p, s, now) {
      AccrueReadings(p, s);
      var a := AccrueSecond(p, Billed(s));
      CommitReadings(p, a, a.numerator / 60, now);
    }
  }

  lemma TickGain(p: Params, w: World, o: seq<string>, id: string, now: int)
    requires WorldOK(p, w) && now > 0 && Enumerates(o, w.sessions.Keys) && id in w.sessions
    ensures var v, due := TickAll(p, w, o, now), DueUnits(p, w.sessions[id], now);
            && id in v.sessions && v.sessions[id].agent == w.sessions[id].agent
            && Fresh(v.sessions[id]) >= Fresh(w.sessions[id])
            && (due > 0 ==> v.sessions[id].debitSeq == w.sessions[id].debitSeq ||
                            Fresh(v.sessions[id]) == Fresh(w.sessions[id]) + due)
  {
    var v := TickVisitsOnce(p, w, o, id, now);
    WorldVisit(p, v, id, now);
    SessionOfWorld(p, v, id);
    VisitGain(p, w.sessions[id], Balance(v.books, w.sessions[id].agent), now);
  }

  lemma MoneyOf(p: Params, w: World, agent: string)
    requires WorldOK(p, w)
    ensures Balance(w.books, agent) >= 0
    ensures Balance(w.books, agent) + Total(w.sessions, agent, Fresh) == FirstTotal(w.topUps, agent)
  {
  }

  /** A session whose debit is affordable alone and which this order did not charge. */
  ghost predicate PassedOver(p: Params, w: World, o: seq<string>, agent: string, id: string, now: int) {
    && id in w.sessions && w.sessions[id].agent == agent && AffordableUnits(p, w, id, now) > 0
    && id in TickAll(p, w, o, now).sessions && TickAll(p, w, o, now).sessions[id].debitSeq == w.sessions[id].debitSeq
  }

  ghost predicate ChargesAffordable(p: Params, w: World, v: World, agent: string, id: string, now: int)
    requires id in w.sessions
  {
    && id in v.sessions && v.sessions[id].agent == w.sessions[id].agent
    && (w.sessions[id].agent == agent ==>
          Fresh(w.sessions[id]) + AffordableUnits(p, w, id, now) <= Fresh(v.sessions[id]))
  }

  lemma NotPassedOver(p: Params, w: World, o: seq<string>, agent: string, id: string, now: int)
    requires WorldOK(p, w) && now > 0 && Enumerates(o, w.sessions.Keys) && id in w.sessions
    requires !PassedOver(p, w, o, agent, id, now)
    ensures ChargesAffordable(p, w, TickAll(p, w, o, now), agent, id, now)
  {
    TickGain(p, w, o, id, now);
    AffordableIsNonNegative(p, w, id, now);
  }

  lemma TotalsRise(p: Params, w: World, v: World, agent: string, now: int)
    requires v.sessions.Keys == w.sessions.Keys
    requires forall id :: id in w.sessions ==> ChargesAffordable(p, w, v, agent, id, now)
    ensures Total(w.sessions, agent, Fresh) + SumMap(AffordableMap(p, w, w.sessions.Keys, agent, now)) <=
            Total(v.sessions, agent, Fresh)
  {
    var a, b, c := Measured(w.sessions, agent, Fresh), AffordableMap(p, w, w.sessions.Keys, agent, now),
                   Measured(v.sessions, agent, Fresh);
    assert a.Keys == b.Keys == c.Keys by {
      assert forall id :: id in w.sessions ==> v.sessions[id].agent == w.sessions[id].agent;
    }
    SumMapGrows(a, b, c);
  }

  /** If the affordable debits are not jointly affordable, every order passes one of them over. */
  lemma SomeoneIsPassedOver(p: Params, w: World, o: seq<string>, agent: string, now: int)
    requires WorldOK(p, w) && now > 0 && Enumerates(o, w.sessions.Keys)
    requires SumMap(AffordableMap(p, w, w.sessions.Keys, agent, now)) > Balance(w.books, agent)
    ensures exists id :: PassedOver(p, w, o, agent, id, now)
  {
    var v := TickAll(p, w, o, now);
    TickAllKeeps(p, w, o, now);
    TickKeepsTopUps(p, w, o, now);
    MoneyOf(p, w, agent);
    MoneyOf(p, v, agent);
    if forall id :: !PassedOver(p, w, o, agent, id, now) {
      forall id | id in w.sessions ensures ChargesAffordable(p, w, v, agent, id, now) {
        NotPassedOver(p, w, o, agent, id, now);
      }
      TotalsRise(p, w, v, agent, now);
      assert false;
    }
  }

  /** An affordable debit goes through when its session is visited first. */
  lemma FirstIsCharged(p: Params, w: World, j: string, o: seq<string>, now: int)
    requires WorldOK(p, w) && now > 0 && Distinct(o) && [j] <= o && j in w.sessions && AffordableUnits(p, w, j, now) > 0
    ensures j in TickAll(p, w, o, now).sessions
    ensures TickAll(p, w, o, now).sessions[j].debitSeq == w.sessions[j].debitSeq + 1
  {
    assert [] + [j] <= o;
    VisitedAfter(p, w, [], j, o, now);
    SessionOfWorld(p, w, j);
    VisitGain(p, w.sessions[j], Balance(w.books, w.sessions[j].agent), now);
  }

  lemma DifferentSequences(u: World, v: World, j: string)
    requires j in u.sessions && j in v.sessions && u.sessions[j].debitSeq != v.sessions[j].debitSeq
    ensures !SameProgram(u, v)
  {
    assert Erase(u.sessions[j]).debitSeq != Erase(v.sessions[j]).debitSeq;
  }

  /** Then two orders charge different sessions. */
  lemma ContentionMatters(p: Params, w: World, agent: string, now: int)
    requires WorldOK(p, w) && now > 0
    requires SumMap(AffordableMap(p, w, w.sessions.Keys, agent, now)) > Balance(w.books, agent)
    ensures !OrderFree(p, w, now)
  {
    var o := OrderFrom([], w.sessions.Keys);
    SomeoneIsPassedOver(p, w, o, agent, now);
    var j :| PassedOver(p, w, o, agent, j, now);
    var o' := OrderFrom([j], w.sessions.Keys);
    FirstIsCharged(p, w, j, o', now);
    DifferentSequences(TickAll(p, w, o, now), TickAll(p, w, o', now), j);
  }

  /**
   The order of the store's sessions is invisible to the program if and only if, for each agent, the debits that its
   balance covers one by one are also covered together.
   */
  lemma OrderFreeIffJointlyAffordable(p: Params, w: World, now: int)
    requires WorldOK(p, w) && now > 0
    ensures OrderFree(p, w, now) <==> JointlyAffordable(p, w, now)
  {
    if JointlyAffordable(p, w, now) {
      AffordableIsOrderFree(p, w, now);
    } else {
      var agent :| SumMap(AffordableMap(p, w, w.sessions.Keys, agent, now)) > Balance(w.books, agent);
      ContentionMatters(p, w, agent, now);
    }
  }

  // ---------------------------------------------------------------------------------------------
  // The history as well

  lemma FirstChargeLowersBalance(p: Params, w: World, id: string, now: int)
    requires WorldOK(p, w) && now > 0 && id in w.sessions && AffordableUnits(p, w, id, now) > 0
    ensures Balance(TickAll(p, w, [id], now).books, w.sessions[id].agent) < Balance(w.books, w.sessions[id].agent)
  {
    assert [] + [id] == [id];
    TickOf(p, w, [], id, now);
    WorldVisit(p, w, id, now);
  }

  /** A refused session notes the balance it met, so visiting an affordable one of its agent first shows. */
  lemma RefusalNotesOrder(p: Params, w: World, u: string, a: string, now: int)
    requires WorldOK(p, w) && now > 0 && u in w.sessions && a in w.sessions && w.sessions[u].agent == w.sessions[a].agent
    requires DueUnits(p, w.sessions[u], now) > Balance(w.books, w.sessions[u].agent) && AffordableUnits(p, w, a, now) > 0
    ensures !OrderFreeHistory(p, w, now)
  {
    var o := OrderFrom([u], w.sessions.Keys);
    var o' := OrderFrom([a, u], w.sessions.Keys);
    assert [] + [u] <= o && [a] + [u] <= o';
    VisitedAfter(p, w, [], u, o, now);
    VisitedAfter(p, w, [a], u, o', now);
    FirstChargeLowersBalance(p, w, a, now);
    assert TickAll(p, w, o, now).sessions[u].log.last.balance != TickAll(p, w, o', now).sessions[u].log.last.balance;
    assert TickAll(p, w, o, now) != TickAll(p, w, o', now);
  }

  lemma SameIsSameProgram(p: Params, w: World, now: int)
    requires OrderFreeHistory(p, w, now)
    ensures OrderFree(p, w, now)
  {
  }

  lemma SomeDebitIsTooLarge(p: Params, w: World, agent: string, now: int) returns (u: string)
    requires SumMap(AffordableMap(p, w, w.sessions.Keys, agent, now)) != SumMap(DueMap(p, w, agent, now))
    ensures u in w.sessions && w.sessions[u].agent == agent
    ensures DueUnits(p, w.sessions[u], now) > Balance(w.books, agent)
  {
    assert AffordableMap(p, w, w.sessions.Keys, agent, now) != DueMap(p, w, agent, now);
    u :| u in w.sessions && w.sessions[u].agent == agent && AffordableUnits(p, w, u, now) != DueUnits(p, w.sessions[u], now);
  }

  /** An agent whose debits are neither all covered together nor all refused shows the order in its history. */
  lemma ContendedShows(p: Params, w: World, agent: string, now: int)
    requires WorldOK(p, w) && now > 0 && !NoneAffordable(p, w, agent, now)
    requires SumMap(AffordableMap(p, w, w.sessions.Keys, agent, now)) != SumMap(DueMap(p, w, agent, now))
    ensures !OrderFreeHistory(p, w, now)
  {
    var a :| a in w.sessions && w.sessions[a].agent == agent && AffordableUnits(p, w, a, now) != 0;
    AffordableIsNonNegative(p, w, a, now);
    var u := SomeDebitIsTooLarge(p, w, agent, now);
    RefusalNotesOrder(p, w, u, a, now);
  }

  /**
   All orders leave the same sessions, history included, if and only if each agent's balance covers the sum of what
   is due to it or no single debit.
   */
  lemma OrderFreeHistoryIffUncontended(p: Params, w: World, now: int)
    requires WorldOK(p, w) && now > 0
    ensures OrderFreeHistory(p, w, now) <==> Uncontended(p, w, now)
  {
    if Uncontended(p, w, now) {
      UncontendedIsOrderFree(p, w, now);
    } else {
      var agent :| SumMap(DueMap(p, w, agent, now)) > Balance(w.books, agent) && !NoneAffordable(p, w, agent, now);
      if SumMap(AffordableMap(p, w, w.sessions.Keys, agent, now)) > Balance(w.books, agent) {
        ContentionMatters(p, w, agent, now);
        if OrderFreeHistory(p, w, now) { SameIsSameProgram(p, w, now); }
      } else {
        ContendedShows(p, w, agent, now);
      }
    }
  }

  /** Without contention any two orders perform the same step. */
  lemma TickOrderIsIrrelevant(p: Params, w: World, order: seq<string>, order': seq<string>, now: int)
    requires WorldOK(p, w) && Uncontended(p, w, now)
    requires ValidOp(w, BillingTick(now, order)) && ValidOp(w, BillingTick(now, order'))
    ensures Step(p, w, BillingTick(now, order)) == Step(p, w, BillingTick(now, order'))
  {
    UncontendedIsOrderFree(p, w, now);
  }
}

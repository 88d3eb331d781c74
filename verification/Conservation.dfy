/** Money over whole runs: what is conserved, what is not, and by exactly how much. */
module Conservation {
  import opened Collections
  import opened Ledger
  import opened Sessions
  import opened Metering
  import opened Invariants
  import opened Ticks

  /** The top-ups of a run that the service accepted, in order. */
  ghost function AcceptedTopUps(p: Params, ops: seq<Op>): seq<TopUp> {
    if ops == [] then []
    else
      var before, op := AcceptedTopUps(p, ops[..|ops| - 1]), ops[|ops| - 1];
      if op.CreditTopUp? && p.prepaid && ValidTopUp(op.topUp) then before + [op.topUp] else before
  }

  lemma {:induction false} RunTopUps(p: Params, ops: seq<Op>)
    requires Sound(p) && ValidRun(p, EmptyWorld, ops)
    ensures Run(p, EmptyWorld, ops).topUps == AcceptedTopUps(p, ops)
  {
    if ops != [] {
      var before, op := ops[..|ops| - 1], ops[|ops| - 1];
      RunTopUps(p, before);
      EmptyWorldOK(p);
      RunKeeps(p, EmptyWorld, before);
      if op.BillingTick? {
        TickKeepsTopUps(p, Run(p, EmptyWorld, before), op.order, op.now);
      }
    }
  }

  lemma TotalSplits(ss: map<string, Session>, agent: string)
    requires forall id :: id in ss ==> SessionOK(ss[id])
    ensures Total(ss, agent, ChargedUnits) == Total(ss, agent, Fresh) + Total(ss, agent, Replayed)
  {
    SumMapAdd(Measured(ss, agent, ChargedUnits), Measured(ss, agent, Fresh), Measured(ss, agent, Replayed));
  }

  lemma NoReplayIffNoneReplayed(ss: map<string, Session>, agent: string)
    requires forall id :: id in ss ==> Replayed(ss[id]) >= 0
    ensures Total(ss, agent, Replayed) >= 0
    ensures Total(ss, agent, Replayed) == 0 <==>
            (forall id :: id in ss && ss[id].agent == agent ==> Replayed(ss[id]) == 0)
  {
    var c := Measured(ss, agent, Replayed);
    SumMapNonNegative(c);
    assert forall id :: id in ss && ss[id].agent == agent ==> id in c && c[id] == Replayed(ss[id]);
    if forall id :: id in c ==> c[id] == 0 {
      SumMapZero(c);
    }
  }

  lemma {:induction false} SumMapAdd<K>(a: map<K, int>, b: map<K, int>, c: map<K, int>)
    requires a.Keys == b.Keys == c.Keys
    requires forall k :: k in a ==> a[k] == b[k] + c[k]
    ensures SumMap(a) == SumMap(b) + SumMap(c)
    decreases |a|
  {
    if a.Keys == {} {
      assert a == map[] && b == map[] && c == map[];
    } else {
      var k :| k in a;
      SumMapRemove(a, k);
      SumMapRemove(b, k);
      SumMapRemove(c, k);
      SumMapAdd(a - {k}, b - {k}, c - {k});
    }
  }

  /**
   The exact account on every run: an agent's credits, each transaction once, are its balance plus what its
   sessions were charged, less what they were charged on buckets used before. No balance is ever negative.
   */
  lemma MoneyAccount(p: Params, ops: seq<Op>, agent: string)
    requires Sound(p) && ValidRun(p, EmptyWorld, ops)
    ensures var w := Run(p, EmptyWorld, ops);
            && Balance(w.books, agent) >= 0
            && Total(w.sessions, agent, Replayed) >= 0
            && FirstTotal(AcceptedTopUps(p, ops), agent) ==
               Balance(w.books, agent) + Total(w.sessions, agent, ChargedUnits) - Total(w.sessions, agent, Replayed)
  {
    EmptyWorldOK(p);
    RunKeeps(p, EmptyWorld, ops);
    RunTopUps(p, ops);
    TotalSplits(Run(p, EmptyWorld, ops).sessions, agent);
    NoReplayIffNoneReplayed(Run(p, EmptyWorld, ops).sessions, agent);
  }

  /** Some committed debit in the history used a bucket that had been reached before. */
  ghost predicate ReusedBucket(l: Log) {
    l.Snoc? &&
    ((l.last.Committed? && l.last.bucket <= HighestBucket(l.before)) || ReusedBucket(l.before))
  }

  lemma {:induction false} ReplayedIffReused(l: Log)
    requires Justified(l)
    ensures ReplayedUnits(l) >= 0
    ensures ReplayedUnits(l) == 0 <==> !ReusedBucket(l)
  {
    if l.Snoc? {
      ReplayedIffReused(l.before);
    }
  }

  /** Credits equal balance plus charges exactly when none of the agent's sessions committed a used bucket. */
  lemma ConservedIffNoReusedBucket(p: Params, ops: seq<Op>, agent: string)
    requires Sound(p) && ValidRun(p, EmptyWorld, ops)
    ensures var w := Run(p, EmptyWorld, ops);
            FirstTotal(AcceptedTopUps(p, ops), agent) ==
              Balance(w.books, agent) + Total(w.sessions, agent, ChargedUnits)
            <==>
            (forall id :: id in w.sessions && w.sessions[id].agent == agent ==> !ReusedBucket(w.sessions[id].log))
  {
    var w := Run(p, EmptyWorld, ops);
    MoneyAccount(p, ops, agent);
    EmptyWorldOK(p);
    RunKeeps(p, EmptyWorld, ops);
    NoReplayIffNoneReplayed(w.sessions, agent);
    forall id | id in w.sessions
      ensures Replayed(w.sessions[id]) == 0 <==> !ReusedBucket(w.sessions[id].log)
    {
      ReplayedIffReused(w.sessions[id].log);
    }
  }

  // ---------------------------------------------------------------------------------------------
  // Starting only from created

  /** In this run no Start is issued for a paused session: paused sessions come back through Resume. */
  ghost predicate StartsOnlyFresh(p: Params, w: World, ops: seq<Op>) {
    ops == [] ||
    (var before, op := ops[..|ops| - 1], ops[|ops| - 1];
     var v := Run(p, w, before);
     StartsOnlyFresh(p, w, before) &&
     (op.Start? && op.id in v.sessions ==> v.sessions[op.id].state != Paused))
  }

  lemma SettleKeepsStartCount(p: Params, l: Books, id: string, s: Session, now: int)
    ensures StartCount(SettleWindow(p, l, id, s, now).session.log) == StartCount(s.log)
  {
  }

  lemma TickKeepsStartCount(p: Params, l: Books, id: string, s: Session, now: int)
    ensures StartCount(TickSession(p, l, id, s, now).session.log) == StartCount(s.log)
  {
    TickCases(p, l, id, s, now);
    SettleKeepsStartCount(p, l, id, AccrueSecond(p, Billed(s)), now);
  }

  lemma {:induction false} FreshStartsStartOnce(p: Params, ops: seq<Op>, id: string)
    requires Sound(p) && ValidRun(p, EmptyWorld, ops) && StartsOnlyFresh(p, EmptyWorld, ops)
    requires id in Run(p, EmptyWorld, ops).sessions
    ensures StartCount(Run(p, EmptyWorld, ops).sessions[id].log) <= 1
  {
    if ops != [] {
      var before, op := ops[..|ops| - 1], ops[|ops| - 1];
      var w := Run(p, EmptyWorld, before);
      EmptyWorldOK(p);
      RunKeeps(p, EmptyWorld, before);
      StepMoves(p, w, op, id);
      if id in w.sessions {
        FreshStartsStartOnce(p, before, id);
        if op.BillingTick? && Run(p, EmptyWorld, ops).sessions[id] != w.sessions[id] {
          var l :| Run(p, EmptyWorld, ops).sessions[id] == TickSession(p, l, id, w.sessions[id], op.now).session;
          TickKeepsStartCount(p, l, id, w.sessions[id], op.now);
        }
      }
    }
  }

  lemma {:induction false} OneStartReusesNothing(l: Log)
    requires Justified(l) && OpensWithStart(l) && StartCount(l) <= 1
    ensures !ReusedBucket(l)
    ensures HighestBucket(l) == DebitsSinceStart(l) >= 0
    ensures l.Snoc? ==> StartCount(l) == 1
  {
    if l.Snoc? && l.before.Snoc? {
      OneStartReusesNothing(l.before);
    }
  }

  /** Money is conserved on every run whose sessions are started once and afterwards resumed. */
  lemma MoneyConserved(p: Params, ops: seq<Op>, agent: string)
    requires Sound(p) && ValidRun(p, EmptyWorld, ops) && StartsOnlyFresh(p, EmptyWorld, ops)
    ensures var w := Run(p, EmptyWorld, ops);
            FirstTotal(AcceptedTopUps(p, ops), agent) ==
              Balance(w.books, agent) + Total(w.sessions, agent, ChargedUnits)
  {
    var w := Run(p, EmptyWorld, ops);
    EmptyWorldOK(p);
    RunKeeps(p, EmptyWorld, ops);
    forall id | id in w.sessions ensures !ReusedBucket(w.sessions[id].log) {
      FreshStartsStartOnce(p, ops, id);
      OneStartReusesNothing(w.sessions[id].log);
    }
    ConservedIffNoReusedBucket(p, ops, agent);
  }

  /**
   The ledger's record of a session: on every run its charge keys are exactly the buckets from 1 to the
   highest the session reached, so real debits never exceed charges and miss exactly the reused buckets.
   */
  lemma LedgerHoldsExactlyTheBuckets(p: Params, ops: seq<Op>, id: string, bucket: int)
    requires Sound(p) && ValidRun(p, EmptyWorld, ops)
    requires id in Run(p, EmptyWorld, ops).sessions
    ensures var w := Run(p, EmptyWorld, ops);
            var s := w.sessions[id];
            && (ChargeKey(s.agent, id, bucket) in w.books.credited <==> 1 <= bucket <= HighestBucket(s.log))
            && s.charged - FreshUnits(s.log) == ReplayedUnits(s.log) >= 0
  {
    EmptyWorldOK(p);
    RunKeeps(p, EmptyWorld, ops);
  }

  // ---------------------------------------------------------------------------------------------
  // A run that does not conserve

  const ID := "0000000000000000"

  const RESTART_PARAMS := Params(60, 1, 1, 5, true)

  /** One unit a second, settled every second; started, ticked, paused, started again, ticked. */
  const RESTART_OPENING: seq<Op> :=
    [CreditTopUp(TopUp("a", 100, "", "x402")), Create(ID, "a"), Start(ID, Some(""))]

  const FIRST_TICK := BillingTick(1, [ID])

  const RESTART_PREFIX: seq<Op> := RESTART_OPENING + [FIRST_TICK] + [Pause(ID, true)] + [Start(ID, Some(""))]

  const RESTART_RUN: seq<Op> := RESTART_PREFIX + [FIRST_TICK]

  lemma RunSnoc(p: Params, w: World, ops: seq<Op>, op: Op)
    ensures Run(p, w, ops + [op]) == Step(p, Run(p, w, ops), op).world
    ensures ValidRun(p, w, ops + [op]) <==> ValidRun(p, w, ops) && ValidOp(Run(p, w, ops), op)
  {
    assert (ops + [op])[..|ops|] == ops;
  }

  /** A tick over a single session is one visit. */
  lemma RunTick(p: Params, w: World, ops: seq<Op>, id: string, now: int)
    requires Run(p, w, ops).sessions.Keys == {id} && now > 0
    ensures Run(p, w, ops + [BillingTick(now, [id])]) == TickOne(p, Run(p, w, ops), id, now)
    ensures ValidRun(p, w, ops) ==> ValidRun(p, w, ops + [BillingTick(now, [id])])
  {
    RunSnoc(p, w, ops, BillingTick(now, [id]));
    assert [id][..0] == [];
    assert TickAll(p, Run(p, w, ops), [id], now) == TickOne(p, Run(p, w, ops), id, now);
  }

  ghost predicate ReadyToTick(w: World, log: Log) {
    && w.sessions.Keys == {ID}
    && Balance(w.books, "a") > 0
    && var s := w.sessions[ID];
       && s.agent == "a" && s.state == Running && s.streamActive && s.rate == 60 && s.numerator == 0
       && s.window == 0 && s.debitSeq == 0 && !s.retryPending
       && 0 <= s.lastSummaryAt <= 1 && s.log == log
  }

  /** One tick accrues sixty sixtieths and commits bucket 1, whether or not the ledger has seen it. */
  lemma RestartTick(w: World, log: Log)
    requires ReadyToTick(w, log)
    ensures var v, key := TickOne(RESTART_PARAMS, w, ID, 1), ChargeKey("a", ID, 1);
            && v.sessions.Keys == {ID}
            && v.sessions[ID] == w.sessions[ID].(
                 billedSeconds := w.sessions[ID].billedSeconds + 1, debitSeq := 1, retryAt := 0,
                 charged := w.sessions[ID].charged + 1, pendingUnits := w.sessions[ID].pendingUnits + 1,
                 pendingSeconds := w.sessions[ID].pendingSeconds + 1, lastSummaryAt := 1,
                 log := Snoc(Snoc(log, Accrued), Committed(1, 1)))
            && Balance(v.books, "a") == Balance(w.books, "a") - (if key in w.books.credited then 0 else 1)
  {
    var a := AccrueSecond(RESTART_PARAMS, Billed(w.sessions[ID]));
    TickCases(RESTART_PARAMS, w.books, ID, w.sessions[ID], 1);
    assert a.numerator == 60 && a.window == 1;
  }

  lemma FirstStart()
    ensures var w := Run(RESTART_PARAMS, EmptyWorld, RESTART_OPENING);
            ReadyToTick(w, Snoc(Empty, Started)) && Balance(w.books, "a") == 100
    ensures ValidRun(RESTART_PARAMS, EmptyWorld, RESTART_OPENING)
  {
    var p := RESTART_PARAMS;
    var c, n, s := RESTART_OPENING[0], RESTART_OPENING[1], RESTART_OPENING[2];
    RunSnoc(p, EmptyWorld, [], c);
    RunSnoc(p, EmptyWorld, [c], n);
    RunSnoc(p, EmptyWorld, [c, n], s);
    assert [] + [c] == [c] && [c] + [n] == [c, n] && [c, n] + [s] == RESTART_OPENING;
    var w := Run(p, EmptyWorld, [c]);
    assert Balance(w.books, "a") == 100 && w.sessions == map[];
  }

  lemma SecondStart(w: World, log: Log)
    requires w.sessions.Keys == {ID} && Balance(w.books, "a") >= 60
    requires var s := w.sessions[ID];
             s.agent == "a" && s.state == Running && s.rate == 60 && 0 <= s.lastSummaryAt <= 1 && s.log == log
    ensures var v := Step(RESTART_PARAMS, Step(RESTART_PARAMS, w, Pause(ID, true)).world, Start(ID, Some(""))).world;
            ReadyToTick(v, Snoc(log, Started)) && v.books == w.books
  {
  }

  lemma FirstTick()
    ensures var w := Run(RESTART_PARAMS, EmptyWorld, RESTART_OPENING + [FIRST_TICK]);
            w.sessions.Keys == {ID} && Balance(w.books, "a") >= 60 &&
            var s := w.sessions[ID];
            s.agent == "a" && s.state == Running && s.rate == 60 && 0 <= s.lastSummaryAt <= 1 &&
            s.log == Snoc(Snoc(Snoc(Empty, Started), Accrued), Committed(1, 1))
    ensures ValidRun(RESTART_PARAMS, EmptyWorld, RESTART_OPENING + [FIRST_TICK])
  {
    FirstStart();
    RunTick(RESTART_PARAMS, EmptyWorld, RESTART_OPENING, ID, 1);
    RestartTick(Run(RESTART_PARAMS, EmptyWorld, RESTART_OPENING), Snoc(Empty, Started));
  }

  lemma Restarted()
    ensures var w := Run(RESTART_PARAMS, EmptyWorld, RESTART_PREFIX);
            ReadyToTick(w, Snoc(Snoc(Snoc(Snoc(Empty, Started), Accrued), Committed(1, 1)), Started))
    ensures ValidRun(RESTART_PARAMS, EmptyWorld, RESTART_PREFIX)
  {
    var ops := RESTART_OPENING + [FIRST_TICK];
    FirstTick();
    RunSnoc(RESTART_PARAMS, EmptyWorld, ops, Pause(ID, true));
    RunSnoc(RESTART_PARAMS, EmptyWorld, ops + [Pause(ID, true)], Start(ID, Some("")));
    SecondStart(Run(RESTART_PARAMS, EmptyWorld, ops), Snoc(Snoc(Snoc(Empty, Started), Accrued), Committed(1, 1)));
  }

  /** The start from paused in RESTART_RUN makes the second debit a replay: charged, but not debited. */
  lemma RestartRunIsNotConserved()
    ensures Sound(RESTART_PARAMS) && ValidRun(RESTART_PARAMS, EmptyWorld, RESTART_RUN)
    ensures var w := Run(RESTART_PARAMS, EmptyWorld, RESTART_RUN);
            FirstTotal(AcceptedTopUps(RESTART_PARAMS, RESTART_RUN), "a") !=
              Balance(w.books, "a") + Total(w.sessions, "a", ChargedUnits)
  {
    Restarted();
    RunTick(RESTART_PARAMS, EmptyWorld, RESTART_PREFIX, ID, 1);
    var w := Run(RESTART_PARAMS, EmptyWorld, RESTART_PREFIX);
    RestartTick(w, w.sessions[ID].log);
    assert ReusedBucket(TickOne(RESTART_PARAMS, w, ID, 1).sessions[ID].log);
    ConservedIffNoReusedBucket(RESTART_PARAMS, RESTART_RUN, "a");
  }
}

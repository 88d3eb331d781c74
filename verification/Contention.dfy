/** A run that ends in a store whose next tick depends on the order of its sessions. */
module Contention {
  import opened Collections
  import opened Ledger
  import opened Sessions
  import opened Metering
  import opened Invariants
  import opened Conservation
  import opened TickOrder

  const A := "0000000000000000"
  const B := "0000000000000001"

  /** One unit a second, settled every forty seconds; sixty units are enough to start. */
  const PARAMS := Params(60, 40, 1, 5, true)

  const FUNDING := CreditTopUp(TopUp("a", 60, "", "x402"))

  const TICK := BillingTick(1, [A, B])

  /** Both sessions have run for n seconds on one balance of sixty units. */
  ghost predicate Waiting(w: World, n: int) {
    && w.sessions.Keys == {A, B} && Balance(w.books, "a") == 60
    && Unsettled(w.sessions[A], n) && Unsettled(w.sessions[B], n)
  }

  ghost predicate Unsettled(s: Session, n: int) {
    && s.agent == "a" && s.state == Running && s.streamActive && s.rate == 60 && !s.retryPending
    && s.window == n && s.numerator == 60 * n && s.debitSeq == 0 && HighestBucket(s.log) == 0
  }

  lemma UnsettledTick(l: Books, id: string, s: Session, n: int)
    requires Unsettled(s, n) && n + 1 < 40
    ensures var r := TickSession(PARAMS, l, id, s, 1); Unsettled(r.session, n + 1) && r.books == l
  {
    TickCases(PARAMS, l, id, s, 1);
  }

  lemma WaitingTick(w: World, n: int)
    requires Waiting(w, n) && n + 1 < 40
    ensures Waiting(TickAll(PARAMS, w, [A, B], 1), n + 1)
  {
    var v := TickOne(PARAMS, w, A, 1);
    UnsettledTick(w.books, A, w.sessions[A], n);
    UnsettledTick(v.books, B, v.sessions[B], n);
    assert [A, B][..1] == [A] && [A][..0] == [];
    assert TickAll(PARAMS, w, [A], 1) == v;
    assert TickAll(PARAMS, w, [A, B], 1) == TickOne(PARAMS, v, B, 1);
  }

  /** Sixty units for the agent, two sessions created ... */
  lemma Created() returns (ops: seq<Op>)
    ensures ValidRun(PARAMS, EmptyWorld, ops)
    ensures var w := Run(PARAMS, EmptyWorld, ops);
            && w.sessions == map[A := NewSession(PARAMS, "a"), B := NewSession(PARAMS, "a")]
            && Balance(w.books, "a") == 60
  {
    ops := [];
    RunSnoc(PARAMS, EmptyWorld, ops, FUNDING);
    ops := ops + [FUNDING];
    assert Balance(Run(PARAMS, EmptyWorld, ops).books, "a") == 60;
    RunSnoc(PARAMS, EmptyWorld, ops, Create(A, "a"));
    ops := ops + [Create(A, "a")];
    RunSnoc(PARAMS, EmptyWorld, ops, Create(B, "a"));
    ops := ops + [Create(B, "a")];
  }

  /** ... and started. */
  lemma Opening() returns (ops: seq<Op>)
    ensures ValidRun(PARAMS, EmptyWorld, ops) && Waiting(Run(PARAMS, EmptyWorld, ops), 0)
  {
    ops := Created();
    RunSnoc(PARAMS, EmptyWorld, ops, Start(A, Some("")));
    ops := ops + [Start(A, Some(""))];
    RunSnoc(PARAMS, EmptyWorld, ops, Start(B, Some("")));
    ops := ops + [Start(B, Some(""))];
  }

  lemma {:induction false} Waited(n: nat) returns (ops: seq<Op>)
    requires n < 40
    ensures ValidRun(PARAMS, EmptyWorld, ops) && Waiting(Run(PARAMS, EmptyWorld, ops), n)
  {
    if n == 0 {
      ops := Opening();
    } else {
      ops := Waited(n - 1);
      var w := Run(PARAMS, EmptyWorld, ops);
      RunSnoc(PARAMS, EmptyWorld, ops, TICK);
      WaitingTick(w, n - 1);
      assert Step(PARAMS, w, TICK).world == TickAll(PARAMS, w, [A, B], 1);
      assert Enumerates([A, B], w.sessions.Keys);
      ops := ops + [TICK];
    }
  }

  /** Each of the two debits of forty units is covered by the sixty units, both together are not. */
  lemma WaitingContends(w: World)
    requires Waiting(w, 39)
    ensures SumMap(AffordableMap(PARAMS, w, w.sessions.Keys, "a", 1)) == 80
  {
    var m := AffordableMap(PARAMS, w, w.sessions.Keys, "a", 1);
    var none: map<string, int> := map[];
    assert m == none[A := 40][B := 40];
    SumMapUpdate(none, A, 40);
    SumMapUpdate(none[A := 40], B, 40);
  }

  /** Contention happens: after a valid run the order of the sessions decides who is charged. */
  lemma ContentionIsReachable()
    ensures exists ops :: ValidRun(PARAMS, EmptyWorld, ops) && !TickOrder.OrderFree(PARAMS, Run(PARAMS, EmptyWorld, ops), 1)
  {
    var ops := Waited(39);
    var w := Run(PARAMS, EmptyWorld, ops);
    EmptyWorldOK(PARAMS);
    RunKeeps(PARAMS, EmptyWorld, ops);
    WaitingContends(w);
    OrderFreeIffJointlyAffordable(PARAMS, w, 1);
  }
}

/** How one billing tick reaches one session, whatever the order and whatever the other sessions do. */
module Ticks {
  import opened Collections
  import opened Ledger
  import opened Sessions
  import opened Metering
  import opened Invariants

  /** No other session belongs to this agent. */
  ghost predicate OnlySessionOf(ss: map<string, Session>, id: string, agent: string) {
    forall i :: i in ss && i != id ==> ss[i].agent != agent
  }

  /** Ticking one session lowers no balance but its own agent's, and raises none. */
  lemma TickOneBalances(p: Params, w: World, id: string, now: int)
    requires WorldOK(p, w)
    ensures var v := TickOne(p, w, id, now);
            forall agent ::
              Balance(v.books, agent) <= Balance(w.books, agent) &&
              (Balance(v.books, agent) == Balance(w.books, agent) ||
               (id in w.sessions && w.sessions[id].agent == agent))
    ensures var v := TickOne(p, w, id, now);
            v.topUps == w.topUps && v.sessions.Keys == w.sessions.Keys &&
            (forall i :: i in w.sessions ==> v.sessions[i].agent == w.sessions[i].agent) &&
            (forall i :: i in w.sessions && i != id ==> v.sessions[i] == w.sessions[i])
  {
    if id in w.sessions {
      TickMovesBalance(p, w.books, id, w.sessions[id], now);
    }
  }

  /** v is a world the tick passes through: same sessions, no balance raised, others' balances of a lone agent kept. */
  ghost predicate Reaches(p: Params, w: World, v: World, id: string) {
    && WorldOK(p, v)
    && v.topUps == w.topUps
    && v.sessions.Keys == w.sessions.Keys
    && (forall i :: i in w.sessions ==> v.sessions[i].agent == w.sessions[i].agent)
    && (forall agent :: Balance(v.books, agent) <= Balance(w.books, agent))
    && (forall agent :: OnlySessionOf(w.sessions, id, agent) ==> Balance(v.books, agent) == Balance(w.books, agent))
  }

  lemma ReachesStep(p: Params, u: World, w: World, id: string, other: string, now: int)
    requires WorldOK(p, w) && Reaches(p, u, w, id) && now > 0 && other != id
    ensures Reaches(p, u, TickOne(p, w, other, now), id)
    ensures id in w.sessions ==> TickOne(p, w, other, now).sessions[id] == w.sessions[id]
  {
    TickOneBalances(p, w, other, now);
    TickOneKeeps(p, w, other, now);
  }

  /** Visiting other sessions leaves this one alone. */
  lemma {:induction false} TickOthers(p: Params, w: World, ids: seq<string>, id: string, now: int)
    requires WorldOK(p, w) && now > 0 && id !in ids
    ensures Reaches(p, w, TickAll(p, w, ids, now), id)
    ensures id in w.sessions ==> TickAll(p, w, ids, now).sessions[id] == w.sessions[id]
  {
    if ids != [] {
      TickOthers(p, w, ids[..|ids| - 1], id, now);
      ReachesStep(p, w, TickAll(p, w, ids[..|ids| - 1], now), id, ids[|ids| - 1], now);
    }
  }

  /**
   A tick visits a listed session exactly once: it meets the session as it was before the tick, in a world v
   that only other sessions have moved, and after the visit only other sessions move the world.
   */
  lemma {:induction false} TickVisitsOnce(p: Params, w: World, ids: seq<string>, id: string, now: int)
    returns (v: World)
    requires WorldOK(p, w) && now > 0 && Distinct(ids) && id in ids && id in w.sessions
    ensures Reaches(p, w, v, id) && v.sessions[id] == w.sessions[id]
    ensures var u, t := TickOne(p, v, id, now), TickAll(p, w, ids, now);
            Reaches(p, u, t, id) && t.sessions[id] == u.sessions[id]
  {
    var before, z := ids[..|ids| - 1], ids[|ids| - 1];
    if z == id {
      assert id !in before;
      TickOthers(p, w, before, id, now);
      v := TickAll(p, w, before, now);
      TickOneKeeps(p, v, id, now);
    } else {
      v := TickVisitsOnce(p, w, before, id, now);
      TickAllKeeps(p, w, before, now);
      ReachesStep(p, TickOne(p, v, id, now), TickAll(p, w, before, now), id, z, now);
    }
  }

  /** The ways one operation can change one session. */
  ghost predicate Moves(p: Params, id: string, op: Op, s: Session, s': Session) {
    || s' == s
    || (op.Start? && op.id == id && s' == StartEdit(s, op.naryo).session)
    || (op.Stop? && op.id == id && s' == StopEdit(s).session)
    || (op.Pause? && op.id == id && s' == PauseEdit(s).session)
    || (op.Resume? && op.id == id && s' == ResumeEdit(s).session)
    || (op.SetStream? && op.id == id && s' == StreamEdit(s, op.active).session)
    || (op.BillingTick? && op.now > 0 && exists l :: s' == TickSession(p, l, id, s, op.now).session)
  }

  /** Every operation either creates a session or moves it in one of the ways above; none disappears. */
  lemma StepMoves(p: Params, w: World, op: Op, id: string)
    requires WorldOK(p, w) && ValidOp(w, op)
    requires id in Step(p, w, op).world.sessions
    ensures if id in w.sessions then Moves(p, id, op, w.sessions[id], Step(p, w, op).world.sessions[id])
            else op.Create? && op.id == id && Step(p, w, op).world.sessions[id] == NewSession(p, op.agent)
  {
    if op.BillingTick? {
      TickAllKeeps(p, w, op.order, op.now);
      var v := TickVisitsOnce(p, w, op.order, id, op.now);
      TickOneBalances(p, v, id, op.now);
    }
  }

  lemma MovesKeepAgent(p: Params, id: string, op: Op, s: Session, s': Session)
    requires Moves(p, id, op, s, s')
    ensures s'.agent == s.agent
  {
    if op.BillingTick? && s' != s {
      var l :| s' == TickSession(p, l, id, s, op.now).session;
      TickCases(p, l, id, s, op.now);
    }
  }

  lemma {:induction false} TickKeepsTopUps(p: Params, w: World, ids: seq<string>, now: int)
    ensures TickAll(p, w, ids, now).topUps == w.topUps
  {
    if ids != [] {
      TickKeepsTopUps(p, w, ids[..|ids| - 1], now);
    }
  }

  lemma {:induction false} TickKeepsKeys(p: Params, w: World, ids: seq<string>, now: int)
    ensures TickAll(p, w, ids, now).sessions.Keys == w.sessions.Keys
  {
    if ids != [] {
      TickKeepsKeys(p, w, ids[..|ids| - 1], now);
    }
  }

  lemma StepKeepsSessions(p: Params, w: World, op: Op, id: string)
    requires WorldOK(p, w) && ValidOp(w, op) && id in w.sessions
    ensures id in Step(p, w, op).world.sessions
    ensures Step(p, w, op).world.sessions[id].agent == w.sessions[id].agent
  {
    if op.BillingTick? {
      TickKeepsKeys(p, w, op.order, op.now);
    }
    StepMoves(p, w, op, id);
    MovesKeepAgent(p, id, op, w.sessions[id], Step(p, w, op).world.sessions[id]);
  }
}

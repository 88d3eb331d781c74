/**
 The metering service and the Naryo client together: which sessions have a tracked broadcaster while the service
 moves them through their states. What the client does to the tracked set is what its methods promise in module
 NaryoClient (EnsureTracks, PauseTracks, and stopping always untracks).
 */
module Egress {
  import opened Collections
  import opened Sessions
  import opened Metering
  import opened NaryoPlan
  import opened NaryoSync
  import opened Strings

  datatype Platform = Platform(world: World, tracked: set<string>)

  /**
   What the client adds to the answer that the operation carries: whether the session's configuration gives a plan
   that can be provisioned, and for which sessions the tick's own pause calls failed.
   */
  datatype Report = Report(planOk: bool, failedPauses: set<string>)

  ghost function RunningIds(w: World): set<string> {
    set id | id in w.sessions && w.sessions[id].state == Running
  }

  /** A broadcaster is tracked exactly for the running sessions. */
  ghost predicate EgressMatches(e: Platform) { e.tracked == RunningIds(e.world) }

  /** Start asks Naryo only after its state check; Resume asks before. */
  ghost predicate StartReachesNaryo(p: Params, w: World, id: string) {
    id in w.sessions && CheckPrepaid(p, w.books, w.sessions[id].agent).None? &&
    w.sessions[id].state in {Created, Paused}
  }

  ghost predicate ResumeReachesNaryo(p: Params, w: World, id: string) {
    id in w.sessions && CheckPrepaid(p, w.books, w.sessions[id].agent).None?
  }

  ghost function PausedSet(p: Params, w: World, order: seq<string>, now: int): set<string> {
    SetOf(PausedBy(p, w, order, now))
  }

  /** The client gives no success without a plan, never fails to stop, and only pauses what the tick marked. */
  ghost predicate ValidAnswers(p: Params, w: World, op: Op, a: Report) {
    match op
    case Start(id, naryo) => naryo.Some? ==> a.planOk
    case Resume(id, ok) => ok ==> a.planOk
    case Stop(id, ok) => id in w.sessions ==> ok
    case BillingTick(now, order) => a.failedPauses <= PausedSet(p, w, order, now)
    case _ => true
  }

  /** The tracked sessions after an operation. */
  ghost function EgressTracks(p: Params, e: Platform, op: Op, a: Report): set<string> {
    match op
    case Start(id, naryo) =>
      if StartReachesNaryo(p, e.world, id) then EnsureTracks(naryo.Some?, a.planOk, id, e.tracked) else e.tracked
    case Resume(id, ok) =>
      if ResumeReachesNaryo(p, e.world, id) then EnsureTracks(ok, a.planOk, id, e.tracked) else e.tracked
    case Pause(id, ok) => PauseTracks(ok, id, e.tracked)
    case Stop(id, ok) => if id in e.world.sessions then e.tracked - {id} else e.tracked
    case BillingTick(now, order) => e.tracked - (PausedSet(p, e.world, order, now) - a.failedPauses)
    case _ => e.tracked
  }

  ghost function EgressStep(p: Params, e: Platform, op: Op, a: Report): Platform {
    Platform(Step(p, e.world, op).world, EgressTracks(p, e, op, a))
  }

  /** With the client in skip mode Naryo is never asked, every answer is yes, and nothing is tracked. */
  ghost function PlatformStep(p: Params, skip: bool, e: Platform, op: Op, a: Report): Platform {
    Platform(Step(p, e.world, op).world, if skip then e.tracked else EgressTracks(p, e, op, a))
  }

  lemma StartTracks(p: Params, e: Platform, id: string, naryo: Option<string>, a: Report, tracked: set<string>)
    requires tracked == if StartReachesNaryo(p, e.world, id) then EnsureTracks(naryo.Some?, a.planOk, id, e.tracked)
                        else e.tracked
    ensures tracked == EgressTracks(p, e, Start(id, naryo), a)
  {
  }

  lemma ResumeTracks(p: Params, e: Platform, id: string, ok: bool, a: Report, tracked: set<string>)
    requires tracked == if ResumeReachesNaryo(p, e.world, id) then EnsureTracks(ok, a.planOk, id, e.tracked)
                        else e.tracked
    ensures tracked == EgressTracks(p, e, Resume(id, ok), a)
  {
  }

  /**
   The exact condition under which an operation keeps the match, in terms of the state before it and the client's
   answers. A Resume that reaches Naryo must come from paused; or from running, if it succeeds or its plan is
   refused; or from another state, if it fails. The tick's own pauses must all succeed.
   */
  ghost predicate KeepsEgress(p: Params, w: World, op: Op, a: Report) {
    match op
    case Resume(id, ok) =>
      ResumeReachesNaryo(p, w, id) && w.sessions[id].state != Paused ==>
        if w.sessions[id].state == Running then ok || !a.planOk else !ok
    case BillingTick(_, _) => a.failedPauses == {}
    case _ => true
  }

  /** What a caller has to observe: only paused sessions are resumed. */
  ghost predicate ResumesFromPaused(w: World, op: Op) {
    op.Resume? && op.id in w.sessions ==> w.sessions[op.id].state == Paused
  }

  lemma {:induction false} PausedByIsDistinct(p: Params, w: World, ids: seq<string>, now: int)
    requires Distinct(ids)
    ensures Distinct(PausedBy(p, w, ids, now)) && forall id :: id in PausedBy(p, w, ids, now) ==> id in ids
  {
    if ids != [] {
      var before, id := ids[..|ids| - 1], ids[|ids| - 1];
      PausedByIsDistinct(p, w, before, now);
      assert id !in before;
    }
  }

  /** Within a tick, a session leaves running exactly when the tick marks it for pausing. */
  lemma {:induction false} TickPausesTheRest(p: Params, w: World, ids: seq<string>, now: int)
    ensures RunningIds(TickAll(p, w, ids, now)) == RunningIds(w) - PausedSet(p, w, ids, now)
    ensures PausedSet(p, w, ids, now) <= RunningIds(w)
  {
    if ids != [] {
      var before, id := ids[..|ids| - 1], ids[|ids| - 1];
      TickPausesTheRest(p, w, before, now);
      var v := TickAll(p, w, before, now);
      var here := if id in v.sessions && TickSession(p, v.books, id, v.sessions[id], now).pause then [id] else [];
      OneTickPauses(p, v, id, now);
      assert PausedBy(p, w, ids, now) == PausedBy(p, w, before, now) + here;
      assert PausedSet(p, w, ids, now) == PausedSet(p, w, before, now) + SetOf(here);
    }
  }

  lemma SessionTickState(p: Params, w: World, id: string, now: int)
    requires id in w.sessions
    ensures var s, r := w.sessions[id], TickSession(p, w.books, id, w.sessions[id], now);
            if r.pause then s.state == Running && r.session.state == Paused else r.session.state == s.state
  {}

  lemma OneTickPauses(p: Params, w: World, id: string, now: int)
    ensures var paused := if id in w.sessions && TickSession(p, w.books, id, w.sessions[id], now).pause then {id} else {};
            paused <= RunningIds(w) && RunningIds(TickOne(p, w, id, now)) == RunningIds(w) - paused
  {
    if id in w.sessions { SessionTickState(p, w, id, now); }
  }

  /** One operation: the match is kept if and only if the condition holds. */
  lemma EgressKeptIff(p: Params, e: Platform, op: Op, a: Report)
    requires EgressMatches(e) && ValidOp(e.world, op) && ValidAnswers(p, e.world, op, a)
    ensures EgressMatches(EgressStep(p, e, op, a)) <==> KeepsEgress(p, e.world, op, a)
  {
    match op
    case BillingTick(now, order) => TickPausesTheRest(p, e.world, order, now);
    case _ =>
  }

  lemma TickKeptIff(p: Params, e: Platform, order: seq<string>, now: int, failed: set<string>)
    requires EgressMatches(e) && now > 0 && Enumerates(order, e.world.sessions.Keys)
    requires failed <= PausedSet(p, e.world, order, now)
    ensures EgressMatches(EgressStep(p, e, BillingTick(now, order), Report(true, failed))) <==> failed == {}
  {
    EgressKeptIff(p, e, BillingTick(now, order), Report(true, failed));
  }

  // ---------------------------------------------------------------------------------------------
  // Runs

  ghost function EgressRun(p: Params, e: Platform, ops: seq<Op>, answers: seq<Report>): Platform
    requires |answers| == |ops|
  {
    if ops == [] then e
    else EgressStep(p, EgressRun(p, e, ops[..|ops| - 1], answers[..|ops| - 1]), ops[|ops| - 1], answers[|ops| - 1])
  }

  /** At the i-th operation of the run: valid, validly answered, resuming only what is paused, the tick's pauses work. */
  ghost predicate Careful(p: Params, e: Platform, ops: seq<Op>, answers: seq<Report>, i: nat)
    requires |answers| == |ops| && i < |ops|
  {
    var w := EgressRun(p, e, ops[..i], answers[..i]).world;
    && ValidOp(w, ops[i]) && ValidAnswers(p, w, ops[i], answers[i])
    && ResumesFromPaused(w, ops[i]) && (ops[i].BillingTick? ==> answers[i].failedPauses == {})
  }

  /**
   On every run that resumes only paused sessions and whose ticks manage to pause, a broadcaster is tracked at every
   moment exactly for the running sessions, whatever else fails on the way.
   */
  lemma {:induction false} EgressMatchesState(p: Params, e: Platform, ops: seq<Op>, answers: seq<Report>, k: nat)
    requires |answers| == |ops| && EgressMatches(e) && k <= |ops|
    requires forall i :: 0 <= i < |ops| ==> Careful(p, e, ops, answers, i)
    ensures EgressMatches(EgressRun(p, e, ops[..k], answers[..k]))
  {
    if k > 0 {
      EgressMatchesState(p, e, ops, answers, k - 1);
      assert Careful(p, e, ops, answers, k - 1);
      assert ops[..k][..k - 1] == ops[..k - 1] && answers[..k][..k - 1] == answers[..k - 1];
      EgressKeptIff(p, EgressRun(p, e, ops[..k - 1], answers[..k - 1]), ops[k - 1], answers[k - 1]);
    }
  }

  /** Resuming a session that was never started provisions it although it does not run. */
  lemma ResumeFromCreatedIsServed(p: Params, e: Platform, id: string)
    requires EgressMatches(e) && ResumeReachesNaryo(p, e.world, id) && e.world.sessions[id].state == Created
    ensures Step(p, e.world, Resume(id, true)).error == Some(InvalidTransition)
    ensures var f := EgressStep(p, e, Resume(id, true), Report(true, {}));
            id in f.tracked && f.world.sessions[id].state == Created && !EgressMatches(f)
  {
    EgressKeptIff(p, e, Resume(id, true), Report(true, {}));
  }

  // ---------------------------------------------------------------------------------------------
  // The ids the service creates

  /** A pipeline id is a session id to the client: sixteen characters, no slash, no white space. */
  lemma PipelineIdsAreSessionIds(id: string)
    requires PipelineId(id)
    ensures SessionId(id) && TrimSpace(id) == id
  {
    assert id[0] in id && id[|id| - 1] in id;
    TrimSpaceTrims(id);
  }

  /** So no session of the service ever matches another one's destination. */
  lemma PipelinesAreApart(dest: string, id: string, other: string)
    requires PipelineId(id) && PipelineId(other) && (dest != "" ==> dest[0] == '/')
    ensures DestinationsInclude([DestinationPath(dest, id)], DestinationPath(dest, other)) <==> id == other
  {
    PipelineIdsAreSessionIds(id);
    PipelineIdsAreSessionIds(other);
    DestinationsAreApart(dest, id, other);
  }
}

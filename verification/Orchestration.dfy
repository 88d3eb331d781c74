/**
 The service with its Naryo client attached, in the order in which the program calls them. Every method is proved
 to be one PlatformStep and, at a faithful remote, one WholeStep, so what modules Egress and System prove about runs
 holds of this program.
 */
module Orchestration {
  import opened Collections
  import opened Strings
  import opened Sessions
  import opened Metering
  import opened NaryoPlan
  import opened NaryoRemote
  import opened NaryoSync
  import opened NaryoRuns
  import opened NaryoClient
  import opened Egress
  import opened System
  import opened Service

  class Orchestrator {
    const service: PipelineService
    const client: HttpClient

    /** Stored sessions have the ids the service creates, and the client knows no others. */
    ghost predicate Valid()
      reads this, service, service.store, client, client.remote
    {
      && service.Valid() && client.Valid()
      && (forall id :: id in service.store.sessions ==> SessionId(id)) && (forall s :: s in client.sess ==> SessionId(s))
    }

    ghost function Now(): Platform
      reads this, service, service.store, service.store.sessions.Values, service.ledger, client
    {
      Platform(service.State(), Tracked(client.sess))
    }

    ghost function Here(): Moment
      reads this, client, client.remote
    {
      Moment(client.sess, client.remote.state)
    }

    ghost function All(): Whole
      reads this, service, service.store, service.store.sessions.Values, service.ledger, client, client.remote
    {
      Whole(service.State(), Here())
    }

    /** The trace leads from the given moment to the present one, when the remote is faithful and asked at all. */
    ghost predicate Traced(start: Moment, t: Trace)
      reads this, client, client.remote
    {
      client.remote.faithful && !client.skip ==>
        && IsPath(t.ms, t.calls, client.settings, client.dest) && EnsuresLast(t.calls)
        && t.ms[0] == start && t.ms[|t.calls|] == Here()
    }

    constructor (service: PipelineService, client: HttpClient)
      requires service.Valid() && client.Valid()
      requires forall id :: id in service.store.sessions ==> SessionId(id)
      requires forall s :: s in client.sess ==> SessionId(s)
      ensures Valid() && this.service == service && this.client == client
    {
      this.service, this.client := service, client;
    }

    /** A method that traces its calls and performs one step of the platform performs one step of the whole system. */
    twostate lemma PerformsWholeStep(op: Op, a: Report, t: Trace)
      requires client.remote.faithful && !client.skip && Traced(old(Here()), t)
      requires Now() == PlatformStep(service.params, client.skip, old(Now()), op, a)
      ensures WholeStep(service.params, old(All()), op, a, t, All(), client.settings, client.dest)
    {
    }

    /** Whether a start gets as far as asking Naryo. */
    method StartReaches(id: string) returns (reaches: bool)
      requires service.Valid()
      ensures reaches == StartReachesNaryo(service.params, service.State(), id)
    {
      var copy := service.store.Get(id);
      if copy.None? || !(copy.value.state == Created || copy.value.state == Paused) {
        return false;
      }
      var short := service.CheckPrepaid(copy.value.agent);
      return short.None?;
    }

    method ResumeReaches(id: string) returns (reaches: bool)
      requires service.Valid()
      ensures reaches == ResumeReachesNaryo(service.params, service.State(), id)
    {
      var copy := service.store.Get(id);
      if copy.None? {
        return false;
      }
      var short := service.CheckPrepaid(copy.value.agent);
      return short.None?;
    }

    /** Asks for a broadcaster, if the service gets as far; in skip mode the answer is always yes. */
    method AskEnsure(asked: bool, id: string, subs: seq<Subscription>)
      returns (answer: Option<string>, ghost planOk: bool, ghost t: Trace)
      requires Valid() && (asked ==> SessionId(id))
      modifies client, client.remote
      ensures Valid() && (answer.Some? ==> planOk) && (!asked ==> answer.None?)
      ensures if asked && !client.skip then
                Tracked(client.sess) == EnsureTracks(answer.Some?, planOk, id, Tracked(old(client.sess)))
              else client.sess == old(client.sess)
      ensures asked && client.skip ==> answer == Some("naryo-egress-skipped")
      ensures answer.Some? && !client.skip ==> id in client.sess && answer.value == client.sess[id].lastOp
      ensures Traced(old(Here()), t)
    {
      answer, planOk := None, true;
      t := Trace([Here()], []);
      if asked {
        SessionIdIsTrimmed(id);
        var r;
        ghost var plan, refused;
        r, plan, refused := client.EnsurePipeline(id, subs);
        answer := if r.Ok? then Some(r.value) else None;
        planOk := Provisionable(plan) || client.skip;
        ghost var hooked := client.remote.hookFailures > old(client.remote.hookFailures);
        ghost var c := EnsureCall(id, plan, r.Ok?, hooked, refused);
        if client.remote.faithful && !client.skip { SingleCall(old(Here()), c, Here(), client.settings, client.dest); }
        t := Trace([old(Here()), Here()], [c]);
      }
    }

    /** What Start asks Naryo, and when. */
    method AskStart(id: string, subs: seq<Subscription>) returns (naryo: Option<string>, ghost a: Report, ghost t: Trace)
      requires Valid()
      modifies client, client.remote
      ensures Valid() && ValidAnswers(service.params, old(Now()).world, Op.Start(id, naryo), a)
      ensures Now() == old(Now()).(tracked := if client.skip then old(Now()).tracked
                                              else EgressTracks(service.params, old(Now()), Op.Start(id, naryo), a))
      ensures client.skip && StartReachesNaryo(service.params, old(Now()).world, id) ==> naryo.Some?
      ensures naryo.Some? ==> if client.skip then naryo.value == "naryo-egress-skipped"
                              else id in client.sess && naryo.value == client.sess[id].lastOp
      ensures Traced(old(Here()), t)
    {
      var asked := StartReaches(id);
      ghost var planOk;
      naryo, planOk, t := AskEnsure(asked, id, subs);
      a := Report(planOk, {});
      assert service.State() == old(service.State());
      if !client.skip { StartTracks(service.params, old(Now()), id, naryo, a, Tracked(client.sess)); }
    }

    /** Naryo is asked inside the update, once the state allows a start. */
    method Start(id: string, subs: seq<Subscription>)
      returns (error: Option<Error>, naryo: Option<string>, ghost a: Report, ghost t: Trace)
      requires Valid()
      modifies service.store.sessions.Values, client, client.remote
      ensures Valid() && ValidAnswers(service.params, old(Now()).world, Op.Start(id, naryo), a)
      ensures error == Step(service.params, old(Now()).world, Op.Start(id, naryo)).error
      ensures Now() == PlatformStep(service.params, client.skip, old(Now()), Op.Start(id, naryo), a)
      ensures naryo.Some? ==> if client.skip then naryo.value == "naryo-egress-skipped"
                              else id in client.sess && naryo.value == client.sess[id].lastOp
      ensures Traced(old(Here()), t)
    {
      naryo, a, t := AskStart(id, subs);
      ghost var here, tracked := Here(), Now().tracked;
      error := service.Start(id, naryo);
      assert Here() == here && Now().tracked == tracked;
    }

    /** The same by way of ResumeEgress. */
    method AskAgain(asked: bool, id: string, subs: seq<Subscription>)
      returns (ok: bool, ghost planOk: bool, ghost t: Trace)
      requires Valid() && (asked ==> SessionId(id))
      modifies client, client.remote
      ensures Valid() && (ok ==> planOk) && (!asked ==> !ok)
      ensures if asked && !client.skip then
                Tracked(client.sess) == EnsureTracks(ok, planOk, id, Tracked(old(client.sess)))
              else client.sess == old(client.sess)
      ensures asked && client.skip ==> ok
      ensures Traced(old(Here()), t)
    {
      ok, planOk := false, true;
      t := Trace([Here()], []);
      if asked {
        SessionIdIsTrimmed(id);
        var r;
        ghost var plan, refused;
        r, plan, refused := client.ResumeEgress(id, subs);
        ok := r.Ok?;
        planOk := Provisionable(plan) || client.skip;
        ghost var hooked := client.remote.hookFailures > old(client.remote.hookFailures);
        ghost var c := EnsureCall(id, plan, r.Ok?, hooked, refused);
        if client.remote.faithful && !client.skip { SingleCall(old(Here()), c, Here(), client.settings, client.dest); }
        t := Trace([old(Here()), Here()], [c]);
      }
    }

    /** What Resume asks Naryo, and when. */
    method AskResume(id: string, subs: seq<Subscription>) returns (ok: bool, ghost a: Report, ghost t: Trace)
      requires Valid()
      modifies client, client.remote
      ensures Valid() && ValidAnswers(service.params, old(Now()).world, Op.Resume(id, ok), a)
      ensures Now() == old(Now()).(tracked := if client.skip then old(Now()).tracked
                                              else EgressTracks(service.params, old(Now()), Op.Resume(id, ok), a))
      ensures client.skip && ResumeReachesNaryo(service.params, old(Now()).world, id) ==> ok
      ensures Traced(old(Here()), t)
    {
      var asked := ResumeReaches(id);
      ghost var planOk;
      ok, planOk, t := AskAgain(asked, id, subs);
      a := Report(planOk, {});
      assert service.State() == old(service.State());
      if !client.skip { ResumeTracks(service.params, old(Now()), id, ok, a, Tracked(client.sess)); }
    }

    /** Naryo is asked before the state is looked at. */
    method Resume(id: string, subs: seq<Subscription>)
      returns (error: Option<Error>, ok: bool, ghost a: Report, ghost t: Trace)
      requires Valid()
      modifies service.store.sessions.Values, client, client.remote
      ensures Valid() && ValidAnswers(service.params, old(Now()).world, Op.Resume(id, ok), a)
      ensures error == Step(service.params, old(Now()).world, Op.Resume(id, ok)).error
      ensures Now() == PlatformStep(service.params, client.skip, old(Now()), Op.Resume(id, ok), a)
      ensures Traced(old(Here()), t)
    {
      ok, a, t := AskResume(id, subs);
      ghost var here, tracked := Here(), Now().tracked;
      error := service.Resume(id, ok);
      assert Here() == here && Now().tracked == tracked;
    }

    /** Takes one session's broadcaster down, and says how the moment changed. */
    method AskPause(id: string) returns (ok: bool, ghost t: Trace)
      requires Valid()
      modifies client, client.remote
      ensures Valid() && (client.skip ==> ok && Now() == old(Now()))
      ensures Now() == old(Now()).(tracked := PauseTracks(ok, id, old(Now()).tracked))
      ensures !ok ==> id in old(Now()).tracked
      ensures Traced(old(Here()), t) && forall i :: 0 <= i < |t.calls| ==> t.calls[i].PauseCall?
    {
      var r := client.PauseEgress(id);
      ok := r.Ok?;
      t := if SessionId(id) then Trace([old(Here()), Here()], [PauseCall(id, ok)]) else Trace([Here()], []);
    }

    method Pause(id: string) returns (error: Option<Error>, ok: bool, ghost t: Trace)
      requires Valid()
      modifies service.store.sessions.Values, client, client.remote
      ensures Valid()
      ensures error == Step(service.params, old(Now()).world, Op.Pause(id, ok)).error
      ensures Now() == PlatformStep(service.params, client.skip, old(Now()), Op.Pause(id, ok), Report(true, {}))
      ensures Traced(old(Here()), t)
    {
      ok, t := AskPause(id);
      ghost var here, tracked := Here(), Now().tracked;
      error := service.Pause(id, ok);
      assert Here() == here && Now().tracked == tracked;
    }

    /** Takes down what is tracked for a stored session. */
    method AskStop(asked: bool, id: string) returns (ghost t: Trace)
      requires Valid() && (asked ==> SessionId(id))
      modifies client, client.remote
      ensures Valid() && (client.skip ==> client.sess == old(client.sess))
      ensures Tracked(client.sess) == if asked then Tracked(old(client.sess)) - {id} else Tracked(old(client.sess))
      ensures Traced(old(Here()), t)
    {
      t := Trace([Here()], []);
      if asked {
        client.StopPipeline(id);
        t := Trace([old(Here()), Here()], [StopCall(id)]);
      }
    }

    method Stop(id: string) returns (error: Option<Error>, ghost t: Trace)
      requires Valid()
      modifies service.store.sessions.Values, client, client.remote
      ensures Valid()
      ensures error == Step(service.params, old(Now()).world, Op.Stop(id, true)).error
      ensures Now() == PlatformStep(service.params, client.skip, old(Now()), Op.Stop(id, true), Report(true, {}))
      ensures Traced(old(Here()), t)
    {
      t := AskStop(id in service.store.sessions, id);
      ghost var here, tracked := Here(), Tracked(client.sess);
      assert service.State() == old(service.State());
      error := service.Stop(id, true);
      assert Here() == here && Tracked(client.sess) == tracked;
    }

    /** The tick's own pauses; a failing one is skipped. */
    method PauseAll(ids: seq<string>) returns (failed: set<string>, ghost t: Trace)
      requires Valid() && Distinct(ids)
      modifies client, client.remote
      ensures Valid() && failed <= SetOf(ids) && (client.skip ==> failed == {} && Now() == old(Now()))
      ensures Now() == old(Now()).(tracked := old(Now()).tracked - (SetOf(ids) - failed))
      ensures Traced(old(Here()), t)
    {
      failed := {};
      t := Trace([Here()], []);
      ghost var start := Here();
      for i := 0 to |ids|
        invariant Valid() && failed <= SetOf(ids[..i]) && (client.skip ==> failed == {} && Now() == old(Now()))
        invariant Now() == old(Now()).(tracked := old(Now()).tracked - (SetOf(ids[..i]) - failed))
        invariant Traced(start, t) && forall j :: 0 <= j < |t.calls| ==> t.calls[j].PauseCall?
      {
        assert ids[i] !in ids[..i];
        assert SetOf(ids[..i + 1]) == SetOf(ids[..i]) + {ids[i]};
        ghost var before := Here();
        var ok;
        ghost var u;
        ok, u := AskPause(ids[i]);
        if !ok {
          failed := failed + {ids[i]};
        }
        if client.remote.faithful && !client.skip {
          PathsJoin(t, u, client.settings, client.dest);
          t := Trace(t.ms + u.ms[1..], t.calls + u.calls);
        }
      }
      assert ids[..|ids|] == ids;
    }

    /** The tick and its pauses; failed are the auto-paused sessions whose egress could not be paused. */
    method BillingTick(now: int) returns (order: seq<string>, failed: set<string>, ghost t: Trace)
      requires Valid() && service.BucketsFit()
      modifies service.store.sessions.Values, service.ledger, client, client.remote
      ensures Valid()
      ensures Enumerates(order, old(Now()).world.sessions.Keys)
      ensures ValidAnswers(service.params, old(Now()).world, Op.BillingTick(now, order), Report(true, failed))
      ensures Now() == PlatformStep(service.params, client.skip, old(Now()), Op.BillingTick(now, order),
                                    Report(true, failed))
      ensures !client.skip && EgressMatches(old(Now())) && now > 0 ==> (failed == {} <==> EgressMatches(Now()))
      ensures Traced(old(Here()), t)
    {
      var pauseIDs;
      pauseIDs, order := service.BillingTick(now);
      ghost var start := old(Now());
      PausedByIsDistinct(service.params, start.world, order, now);
      failed, t := PauseAll(pauseIDs);
      if !client.skip && EgressMatches(start) && now > 0 {
        TickKeptIff(service.params, start, order, now, failed);
      }
    }
  }
}

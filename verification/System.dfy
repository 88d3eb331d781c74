/**
 The whole system: the sessions of the service, the client's records and Naryo's rows. Which sessions are running and
 what is broadcast for them agree, over every run of the operations.
 */
module System {
  import opened Sessions
  import opened Metering
  import opened NaryoPlan
  import opened NaryoRemote
  import opened NaryoSync
  import opened NaryoRuns
  import opened Egress

  datatype Whole = Whole(world: World, moment: Moment)

  /** The client's calls during one operation: ms[i] is the moment before calls[i]. */
  datatype Trace = Trace(ms: seq<Moment>, calls: seq<Call>)

  ghost function PlatformOf(x: Whole): Platform { Platform(x.world, Tracked(x.moment.view)) }

  /** No call but the last one ensures. Rows may get lost on the way. */
  ghost predicate EnsuresLast(calls: seq<Call>) {
    forall i :: 0 <= i < |calls| - 1 ==> !calls[i].EnsureCall?
  }

  ghost predicate WholeStep(p: Params, x: Whole, op: Op, a: Report, t: Trace, y: Whole, cfg: Settings, dest: string) {
    && PlatformOf(y) == EgressStep(p, PlatformOf(x), op, a)
    && IsPath(t.ms, t.calls, cfg, dest) && EnsuresLast(t.calls)
    && t.ms[0] == x.moment && t.ms[|t.calls|] == y.moment
  }

  ghost predicate TraceOrphans(t: Trace)
    requires |t.ms| > |t.calls|
  {
    exists i :: 0 <= i < |t.calls| && CallOrphans(t.calls[i], t.ms[i])
  }

  /** A broadcaster is tracked exactly for the running sessions, and nothing is at Naryo that no record tracks. */
  ghost predicate Aligned(x: Whole, foreign: set<string>, dest: string) {
    EgressMatches(PlatformOf(x)) && Good(x.moment, foreign, dest)
  }

  /** Only running sessions are served, and each by no other broadcaster than the one tracked for it. */
  ghost predicate OnlyRunningAreServed(x: Whole, dest: string) {
    forall id, b :: SessionId(id) && b in x.moment.remote.broadcasters ==>
      (Serves(x.moment.remote.broadcasters[b], dest, id) ==>
         id in RunningIds(x.world) && b == RecordOf(x.moment.view, id).broadcasterID)
  }

  lemma AlignedServesRunning(x: Whole, foreign: set<string>, dest: string)
    requires Aligned(x, foreign, dest)
    ensures OnlyRunningAreServed(x, dest)
  {
    forall id, b | SessionId(id) && b in x.moment.remote.broadcasters && Serves(x.moment.remote.broadcasters[b], dest, id)
      ensures id in RunningIds(x.world) && b == RecordOf(x.moment.view, id).broadcasterID
    {
      GoodIsInStep(x.moment, id, foreign, dest);
      assert id in Tracked(x.moment.view);
    }
  }

  /** Whatever comes before an ensure keeps the client's side good. */
  lemma {:induction false} GoodBeforeLast(t: Trace, foreign: set<string>, cfg: Settings, dest: string, k: nat)
    requires dest != "" && dest[0] == '/' && IsPath(t.ms, t.calls, cfg, dest) && EnsuresLast(t.calls)
    requires Good(t.ms[0], foreign, dest) && k < |t.calls|
    ensures Good(t.ms[k], foreign, dest)
  {
    if k > 0 {
      GoodBeforeLast(t, foreign, cfg, dest, k - 1);
      CallKeepsInStepIff(t.calls[k - 1], t.ms[k - 1], t.ms[k], foreign, cfg, dest);
    }
  }

  lemma GoodKeptIff(t: Trace, foreign: set<string>, cfg: Settings, dest: string)
    requires dest != "" && dest[0] == '/' && IsPath(t.ms, t.calls, cfg, dest) && EnsuresLast(t.calls)
    requires Good(t.ms[0], foreign, dest)
    ensures Good(t.ms[|t.calls|], foreign, dest) <==> !TraceOrphans(t)
  {
    if t.calls != [] {
      var k := |t.calls| - 1;
      GoodBeforeLast(t, foreign, cfg, dest, k);
      CallKeepsInStepIff(t.calls[k], t.ms[k], t.ms[k + 1], foreign, cfg, dest);
    }
  }

  /** One operation: service, client and Naryo stay aligned if and only if it keeps the egress and orphans nothing. */
  lemma AlignedKeptIff(p: Params, x: Whole, op: Op, a: Report, t: Trace, y: Whole, foreign: set<string>, cfg: Settings,
                       dest: string)
    requires dest != "" && dest[0] == '/' && Aligned(x, foreign, dest)
    requires ValidOp(x.world, op) && ValidAnswers(p, x.world, op, a) && WholeStep(p, x, op, a, t, y, cfg, dest)
    ensures Aligned(y, foreign, dest) <==> KeepsEgress(p, x.world, op, a) && !TraceOrphans(t)
  {
    EgressKeptIff(p, PlatformOf(x), op, a);
    GoodKeptIff(t, foreign, cfg, dest);
  }

  lemma SingleCall(m: Moment, c: Call, n: Moment, cfg: Settings, dest: string)
    requires CallStep(c, m, n, cfg, dest)
    ensures IsPath([m, n], [c], cfg, dest) && EnsuresLast([c])
  {
  }

  /** One trace after another; the first does not ensure. */
  lemma PathsJoin(t: Trace, u: Trace, cfg: Settings, dest: string)
    requires IsPath(t.ms, t.calls, cfg, dest) && IsPath(u.ms, u.calls, cfg, dest) && u.ms[0] == t.ms[|t.calls|]
    ensures IsPath(t.ms + u.ms[1..], t.calls + u.calls, cfg, dest)
    ensures (t.ms + u.ms[1..])[0] == t.ms[0] && (t.ms + u.ms[1..])[|t.calls + u.calls|] == u.ms[|u.calls|]
  {
    var ms, calls := t.ms + u.ms[1..], t.calls + u.calls;
    forall i | 0 <= i < |calls| ensures CallStep(calls[i], ms[i], ms[i + 1], cfg, dest) {
      if i >= |t.calls| {
        var j := i - |t.calls|;
        assert calls[i] == u.calls[j] && ms[i] == u.ms[j] && ms[i + 1] == u.ms[j + 1];
      }
    }
  }

  // ---------------------------------------------------------------------------------------------
  // Runs

  datatype Turn = Turn(op: Op, answers: Report, trace: Trace)

  /** From xs[i] to xs[i + 1] by a valid operation that keeps the egress and orphans nothing. */
  ghost predicate Proper(p: Params, xs: seq<Whole>, turns: seq<Turn>, i: nat, cfg: Settings, dest: string)
    requires |xs| == |turns| + 1 && i < |turns|
  {
    var w, t := xs[i].world, turns[i];
    && ValidOp(w, t.op) && ValidAnswers(p, w, t.op, t.answers) && KeepsEgress(p, w, t.op, t.answers)
    && WholeStep(p, xs[i], t.op, t.answers, t.trace, xs[i + 1], cfg, dest) && !TraceOrphans(t.trace)
  }

  /** Where runs start: no session, no record, and nothing at Naryo that serves a session or is named for one. */
  lemma StartIsAligned(remote: RemoteState, dest: string)
    requires NaryoRemote.Sound(remote)
    requires forall s, f :: SessionId(s) && f in remote.filters ==> !NamedFor(remote.filters[f], s)
    requires forall s, b :: SessionId(s) && b in remote.broadcasters ==> !Serves(remote.broadcasters[b], dest, s)
    ensures Aligned(Whole(EmptyWorld, Moment(map[], remote)), remote.configs.Keys, dest)
  {
    FreshClientIsGood(remote, dest);
  }

  /** On every such run, at every moment, Naryo broadcasts only for running sessions, for each at most once. */
  lemma {:induction false} OnlyRunningAreServedAlways(p: Params, xs: seq<Whole>, turns: seq<Turn>, foreign: set<string>,
                                                      cfg: Settings, dest: string, k: nat)
    requires dest != "" && dest[0] == '/' && |xs| == |turns| + 1 && k < |xs| && Aligned(xs[0], foreign, dest)
    requires forall i :: 0 <= i < |turns| ==> Proper(p, xs, turns, i, cfg, dest)
    ensures Aligned(xs[k], foreign, dest) && OnlyRunningAreServed(xs[k], dest)
  {
    if k > 0 {
      OnlyRunningAreServedAlways(p, xs, turns, foreign, cfg, dest, k - 1);
      assert Proper(p, xs, turns, k - 1, cfg, dest);
      var t := turns[k - 1];
      AlignedKeptIff(p, xs[k - 1], t.op, t.answers, t.trace, xs[k], foreign, cfg, dest);
    }
    AlignedServesRunning(xs[k], foreign, dest);
  }

  /** A running session whose broadcaster Naryo still has is served; so only a loss leaves it without. */
  lemma RunningIsServed(x: Whole, id: string, foreign: set<string>, dest: string)
    requires Aligned(x, foreign, dest) && SessionId(id) && id in RunningIds(x.world)
    requires RecordOf(x.moment.view, id).broadcasterID in x.moment.remote.broadcasters
    ensures ServedOnlyBy(RecordOf(x.moment.view, id).broadcasterID, id, x.moment.remote.broadcasters, dest)
  {
    GoodIsInStep(x.moment, id, foreign, dest);
    InStepIsServedOnce(RecordOf(x.moment.view, id), id, x.moment.remote, dest);
  }
}

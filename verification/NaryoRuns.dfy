/**
 Whole runs of the Naryo client against a faithful remote: what each call does to the records and the remote
 (every client method is proved to do exactly this), and what a run of calls keeps.
 */
module NaryoRuns {
  import opened NaryoPlan
  import opened NaryoRemote
  import opened NaryoSync

  datatype Moment = Moment(view: map<string, Record>, remote: RemoteState)

  /**
   A client call with its outcome, or the remote losing rows on its own. hookFailed: the remote reported a
   revision-hook error during the call; refused: the answers it did not give.
   */
  datatype Call =
    | EnsureCall(s: string, plan: Plan, ok: bool, hookFailed: bool, refused: Refusals)
    | PauseCall(s: string, ok: bool)
    | StopCall(s: string)
    | Loss

  ghost predicate EnsureStep(s: string, plan: Plan, ok: bool, hookFailed: bool, refused: Refusals, m: Moment, n: Moment,
                             cfg: Settings, dest: string) {
    Resolved(plan) &&
    if !Provisionable(plan) then !ok && n == m
    else
      && s in n.view && n.view == m.view[s := n.view[s]] && Sound(n.remote)
      && Answers(ok, n.view[s], plan, cfg, hookFailed)
      && (ok ==> n.view[s].broadcasterID in n.remote.broadcasters)
      && (KeepsBroadcaster(RecordOf(m.view, s), m.remote, plan, refused) ==>
            ok && n.view[s] == RecordOf(m.view, s) && n.remote == m.remote)
      && (InStep(RecordOf(m.view, s), s, m.remote, dest) ==>
            Ensured(ok, refused, RecordOf(m.view, s), m.remote, n.view[s], n.remote, plan, s, dest))
  }

  /** A pause that fails leaves the record alone; the broadcaster may be gone all the same, the answer lost. */
  ghost predicate PauseStep(s: string, ok: bool, m: Moment, n: Moment) {
    var q := RecordOf(m.view, s);
    if q.broadcasterID == "" then ok && n == m
    else if !ok then
      && n.view == m.view
      && (n.remote == m.remote.(broadcasters := m.remote.broadcasters - {q.broadcasterID}) ||
          (n.remote == m.remote && !CurrentDelete(m.remote, DeleteBroadcaster(q.broadcasterID, q.broadcasterHash))))
    else
      && s in n.view && n.view == m.view[s := q.(broadcasterID := "", broadcasterHash := "", lastOp := n.view[s].lastOp)]
      && n.remote == m.remote.(broadcasters := m.remote.broadcasters - {q.broadcasterID})
  }

  ghost predicate StopStep(s: string, m: Moment, n: Moment) {
    n.view == m.view - {s} && Teardown(RecordOf(m.view, s), m.remote, n.remote) && Sound(n.remote)
  }

  /** Any rows may vanish. */
  ghost predicate LossStep(m: Moment, n: Moment) {
    n.view == m.view && Fewer(m.remote, n.remote)
  }

  ghost predicate CallStep(c: Call, m: Moment, n: Moment, cfg: Settings, dest: string) {
    match c
    case EnsureCall(s, plan, ok, hookFailed, refused) =>
      SessionId(s) && EnsureStep(s, plan, ok, hookFailed, refused, m, n, cfg, dest)
    case PauseCall(s, ok) => SessionId(s) && PauseStep(s, ok, m, n)
    case StopCall(s) => SessionId(s) && StopStep(s, m, n)
    case Loss => LossStep(m, n)
  }

  /**
   The call leaves something at the remote that no record tracks: the plan changes while a broadcaster is up, or an
   answer is missing that would have shown a live or a new row.
   */
  ghost predicate CallOrphans(c: Call, m: Moment) {
    c.EnsureCall? && Provisionable(c.plan) && Orphans(RecordOf(m.view, c.s), m.remote, c.plan, c.refused)
  }

  ghost predicate Good(m: Moment, foreign: set<string>, dest: string) {
    Sound(m.remote) && AllInStep(m.view, m.remote, foreign, dest)
  }

  lemma EnsureKeepsInStepIff(s: string, plan: Plan, ok: bool, hookFailed: bool, refused: Refusals, m: Moment, n: Moment,
                             foreign: set<string>, cfg: Settings, dest: string)
    requires dest != "" && dest[0] == '/' && SessionId(s) && Good(m, foreign, dest)
    requires EnsureStep(s, plan, ok, hookFailed, refused, m, n, cfg, dest) && Provisionable(plan)
    ensures Good(n, foreign, dest) <==> !Orphans(RecordOf(m.view, s), m.remote, plan, refused)
  {
    assert InStep(RecordOf(m.view, s), s, m.remote, dest);
    EnsuredKeepsAllInStep(ok, refused, m.view, m.remote, n.view[s], n.remote, foreign, plan, s, dest);
  }

  lemma LossKeepsGood(m: Moment, n: Moment, foreign: set<string>, dest: string)
    requires Good(m, foreign, dest) && LossStep(m, n)
    ensures Good(n, foreign, dest)
  {
    LossKeepsInStep(m.view, m.remote, n.remote, foreign, dest);
  }

  lemma PauseKeepsGood(s: string, ok: bool, m: Moment, n: Moment, foreign: set<string>, dest: string)
    requires dest != "" && dest[0] == '/' && SessionId(s) && Good(m, foreign, dest) && PauseStep(s, ok, m, n)
    ensures Good(n, foreign, dest)
  {
    var q := RecordOf(m.view, s);
    assert InStep(q, s, m.remote, dest);
    if q.broadcasterID != "" && ok {
      PauseKeepsAllInStep(m.view, m.remote, n.view[s], n.remote, foreign, s, dest);
    } else {
      LossKeepsGood(m, n, foreign, dest);
    }
  }

  /** One call, or a loss of any rows: all sessions stay in step exactly when it orphans nothing. */
  lemma CallKeepsInStepIff(c: Call, m: Moment, n: Moment, foreign: set<string>, cfg: Settings, dest: string)
    requires dest != "" && dest[0] == '/' && Good(m, foreign, dest) && CallStep(c, m, n, cfg, dest)
    ensures Good(n, foreign, dest) <==> !CallOrphans(c, m)
  {
    match c
    case EnsureCall(s, plan, ok, hookFailed, refused) =>
      if Provisionable(plan) { EnsureKeepsInStepIff(s, plan, ok, hookFailed, refused, m, n, foreign, cfg, dest); }
    case PauseCall(s, ok) => PauseKeepsGood(s, ok, m, n, foreign, dest);
    case StopCall(s) => StopKeepsAllInStep(m.view, m.remote, n.remote, foreign, s, dest);
    case Loss => LossKeepsGood(m, n, foreign, dest);
  }

  // ---------------------------------------------------------------------------------------------
  // Runs

  /** ms[i] is the moment before calls[i]; the last moment ends the run. */
  ghost predicate IsPath(ms: seq<Moment>, calls: seq<Call>, cfg: Settings, dest: string) {
    |ms| == |calls| + 1 && forall i :: 0 <= i < |calls| ==> CallStep(calls[i], ms[i], ms[i + 1], cfg, dest)
  }

  /** No call of the run orphans anything. */
  ghost predicate IsRun(ms: seq<Moment>, calls: seq<Call>, cfg: Settings, dest: string) {
    IsPath(ms, calls, cfg, dest) && forall i :: 0 <= i < |calls| ==> !CallOrphans(calls[i], ms[i])
  }

  /**
   Where runs start: a client without records, at a remote with no filter or broadcaster for any session. The
   configurations it finds there are foreign.
   */
  lemma FreshClientIsGood(remote: RemoteState, dest: string)
    requires Sound(remote)
    requires forall s, f :: SessionId(s) && f in remote.filters ==> !NamedFor(remote.filters[f], s)
    requires forall s, b :: SessionId(s) && b in remote.broadcasters ==> !Serves(remote.broadcasters[b], dest, s)
    ensures Good(Moment(map[], remote), remote.configs.Keys, dest)
  {
    forall s | SessionId(s) ensures InStep(EmptyRecord, s, remote, dest) {}
  }

  /** On every run in which no call orphans anything, all sessions are in step at every moment. */
  lemma {:induction false} RunKeepsInStep(ms: seq<Moment>, calls: seq<Call>, foreign: set<string>, cfg: Settings,
                                          dest: string, k: nat)
    requires dest != "" && dest[0] == '/' && IsRun(ms, calls, cfg, dest) && Good(ms[0], foreign, dest) && k < |ms|
    ensures Good(ms[k], foreign, dest)
  {
    if k > 0 {
      RunKeepsInStep(ms, calls, foreign, cfg, dest, k - 1);
      CallKeepsInStepIff(calls[k - 1], ms[k - 1], ms[k], foreign, cfg, dest);
    }
  }

  ghost predicate Delivers(target: Target, filters: map<string, FilterRow>, plan: Plan, fellBack: bool) {
    match target
    case All => plan.useAll || fellBack
    case Filter(f) => f in filters && SubjectKey(filters[f]) == plan.key && !plan.useAll
  }

  /** b is the only broadcaster that serves the session. */
  ghost predicate ServedOnlyBy(b: string, s: string, broadcasters: map<string, BroadcasterRow>, dest: string) {
    b in broadcasters && forall o :: o in broadcasters ==> (Serves(broadcasters[o], dest, s) <==> o == b)
  }

  lemma InStepIsServedOnce(r: Record, s: string, remote: RemoteState, dest: string)
    requires InStep(r, s, remote, dest) && r.broadcasterID in remote.broadcasters
    ensures ServedOnlyBy(r.broadcasterID, s, remote.broadcasters, dest)
  {}

  /** A provisioned session is delivered what its plan asks for; one whose filter is gone is not. */
  lemma ProvisionedDelivers(r: Record, s: string, remote: RemoteState, plan: Plan, cfg: Settings, hookFailed: bool,
                            dest: string)
    requires Resolved(plan) && Provisionable(plan) && Answers(true, r, plan, cfg, hookFailed)
    requires InStep(r, s, remote, dest) && r.broadcasterID in remote.broadcasters
    ensures Delivers(remote.broadcasters[r.broadcasterID].target, remote.filters, plan, cfg.allowAll && hookFailed) <==>
            Provisioned(r, s, remote, dest)
  {
    ResolvedIsScoped(plan);
    if !plan.useAll { ScopedKeyIsNotAll(plan); }
  }

  /**
   On such a run, right after every successful ensure exactly one broadcaster serves the session's destination, the
   tracked one. It targets a filter on the plan's topic or contract, or everything if the plan says so or if a hook
   failure was allowed to fall back; unless, and only unless, it was up before the call and its filter was gone.
   */
  lemma EveryEnsureProvisions(ms: seq<Moment>, calls: seq<Call>, foreign: set<string>, cfg: Settings, dest: string,
                              k: nat)
    requires dest != "" && dest[0] == '/' && IsRun(ms, calls, cfg, dest) && Good(ms[0], foreign, dest)
    requires k < |calls| && calls[k].EnsureCall? && calls[k].ok
    ensures var s, plan, now := calls[k].s, calls[k].plan, ms[k + 1].remote;
            var b := RecordOf(ms[k + 1].view, s).broadcasterID;
            && ServedOnlyBy(b, s, now.broadcasters, dest)
            && (Delivers(now.broadcasters[b].target, now.filters, plan, cfg.allowAll && calls[k].hookFailed) <==>
                !KeepsFilterless(RecordOf(ms[k].view, s), ms[k].remote, plan, calls[k].refused))
  {
    var s, plan, now := calls[k].s, calls[k].plan, ms[k + 1].remote;
    RunKeepsInStep(ms, calls, foreign, cfg, dest, k);
    assert CallStep(calls[k], ms[k], ms[k + 1], cfg, dest);
    GoodIsInStep(ms[k], s, foreign, dest);
    var r := ms[k + 1].view[s];
    InStepIsServedOnce(r, s, now, dest);
    ProvisionedDelivers(r, s, now, plan, cfg, calls[k].hookFailed, dest);
  }

  /** On such a run, a session that was never ensured, or was stopped or paused last, is served by nothing. */
  lemma UntrackedIsUnserved(ms: seq<Moment>, calls: seq<Call>, foreign: set<string>, cfg: Settings, dest: string, k: nat,
                            s: string)
    requires dest != "" && dest[0] == '/' && IsRun(ms, calls, cfg, dest) && Good(ms[0], foreign, dest) && k < |ms|
    requires SessionId(s) && RecordOf(ms[k].view, s).broadcasterID == ""
    ensures NothingServes(s, ms[k].remote.broadcasters, dest)
  {
    RunKeepsInStep(ms, calls, foreign, cfg, dest, k);
    GoodIsInStep(ms[k], s, foreign, dest);
  }

  /**
   On such a run a stop leaves no broadcaster and no filter of the session, and no configuration but foreign ones and
   those that other sessions own.
   */
  lemma StopRemovesEverything(ms: seq<Moment>, calls: seq<Call>, foreign: set<string>, cfg: Settings, dest: string,
                              k: nat)
    requires dest != "" && dest[0] == '/' && IsRun(ms, calls, cfg, dest) && Good(ms[0], foreign, dest)
    requires k < |calls| && calls[k].StopCall?
    ensures var s, now := calls[k].s, ms[k + 1].remote;
            && NothingServes(s, now.broadcasters, dest)
            && (forall f :: f in now.filters ==> !NamedFor(now.filters[f], s))
            && (forall c :: c in now.configs && c !in foreign ==> exists t :: t != s && OwnedBy(ms[k].view, t, c))
  {
    var s, now := calls[k].s, ms[k + 1].remote;
    RunKeepsInStep(ms, calls, foreign, cfg, dest, k);
    assert CallStep(calls[k], ms[k], ms[k + 1], cfg, dest);
    StopKeepsAllInStep(ms[k].view, ms[k].remote, now, foreign, s, dest);
    forall c | c in now.configs && c !in foreign ensures exists t :: t != s && OwnedBy(ms[k].view, t, c) {
      var t :| OwnedBy(ms[k + 1].view, t, c);
      assert OwnedBy(ms[k].view, t, c);
    }
  }

  // ---------------------------------------------------------------------------------------------
  // Two calls in a row

  lemma GoodIsInStep(m: Moment, s: string, foreign: set<string>, dest: string)
    requires Good(m, foreign, dest) && SessionId(s)
    ensures InStep(RecordOf(m.view, s), s, m.remote, dest)
  {}

  lemma EnsureKeepsFilter(m: Moment, n: Moment, s: string, plan: Plan, ok: bool, hookFailed: bool, refused: Refusals,
                          cfg: Settings, dest: string)
    requires InStep(RecordOf(m.view, s), s, m.remote, dest) && Provisionable(plan)
    requires EnsureStep(s, plan, ok, hookFailed, refused, m, n, cfg, dest)
    requires KeepsFilter(RecordOf(m.view, s), m.remote, plan, RecordOf(n.view, s), refused)
    ensures RecordOf(n.view, s).filterID == RecordOf(m.view, s).filterID
  {}

  lemma PauseKeepsFilter(l: Moment, m: Moment, s: string, dest: string)
    requires InStep(RecordOf(l.view, s), s, l.remote, dest) && PauseStep(s, true, l, m)
    ensures RecordOf(m.view, s).filterID == RecordOf(l.view, s).filterID && m.remote.filters == l.remote.filters
    ensures RecordOf(m.view, s).planKey == RecordOf(l.view, s).planKey
  {}

  /**
   Pausing and ensuring again for the same plan keeps the session's filter, unless its check is refused or the ensure
   falls back to everything, which takes a hook failure and the permission to.
   */
  lemma PauseThenEnsureKeepsFilter(l: Moment, m: Moment, n: Moment, s: string, plan: Plan, ok: bool, hookFailed: bool,
                                   refused: Refusals, foreign: set<string>, cfg: Settings, dest: string)
    requires dest != "" && dest[0] == '/' && Good(l, foreign, dest) && SessionId(s) && !refused.filterCheck
    requires PauseStep(s, true, l, m) && EnsureStep(s, plan, ok, hookFailed, refused, m, n, cfg, dest)
    requires Provisionable(plan) && !(cfg.allowAll && hookFailed)
    requires var q := RecordOf(l.view, s); q.filterID in l.remote.filters && q.planKey == plan.key
    ensures RecordOf(n.view, s).filterID == RecordOf(l.view, s).filterID
  {
    GoodIsInStep(l, s, foreign, dest);
    PauseKeepsGood(s, true, l, m, foreign, dest);
    GoodIsInStep(m, s, foreign, dest);
    PauseKeepsFilter(l, m, s, dest);
    EnsureKeepsFilter(m, n, s, plan, ok, hookFailed, refused, cfg, dest);
  }

  /** An ensure that finds its broadcaster listed changes nothing, in step or not. */
  lemma KeptEnsureIsNothing(m: Moment, n: Moment, s: string, plan: Plan, hookFailed: bool, ok: bool, refused: Refusals,
                            cfg: Settings, dest: string)
    requires Provisionable(plan) && s in m.view && KeepsBroadcaster(m.view[s], m.remote, plan, refused)
    requires EnsureStep(s, plan, ok, hookFailed, refused, m, n, cfg, dest)
    ensures ok && n == m
  {
    assert m.view[s := m.view[s]] == m.view;
  }

  /**
   Ensuring twice for the same plan is ensuring once, whatever else is at the remote, unless the first call fell back
   to everything or the second cannot check on the broadcaster.
   */
  lemma EnsureAgainChangesNothing(l: Moment, m: Moment, n: Moment, s: string, plan: Plan, hook: bool, hook': bool,
                                  refused: Refusals, refused': Refusals, ok': bool, cfg: Settings, dest: string)
    requires Provisionable(plan) && !(cfg.allowAll && hook)
    requires EnsureStep(s, plan, true, hook, refused, l, m, cfg, dest)
    requires EnsureStep(s, plan, ok', hook', refused', m, n, cfg, dest) && !refused'.broadcasterCheck
    ensures ok' && n == m
  {
    KeptEnsureIsNothing(m, n, s, plan, hook', ok', refused', cfg, dest);
  }

  /**
   A lost filter is not repaired by ensuring again: while its broadcaster is up the call succeeds and changes nothing,
   and the session is delivered nothing.
   */
  lemma EnsureOverLostFilter(m: Moment, n: Moment, s: string, plan: Plan, hookFailed: bool, ok: bool, refused: Refusals,
                             cfg: Settings, dest: string)
    requires SessionId(s) && Provisionable(plan) && s in m.view && InStep(m.view[s], s, m.remote, dest)
    requires Filterless(m.view[s], m.remote) && m.view[s].planKey == plan.key && !refused.broadcasterCheck
    requires EnsureStep(s, plan, ok, hookFailed, refused, m, n, cfg, dest)
    ensures ok && n == m && !Provisioned(n.view[s], s, n.remote, dest)
  {
    KeptEnsureIsNothing(m, n, s, plan, hookFailed, ok, refused, cfg, dest);
    ProvisionedIff(n.view[s], s, n.remote, dest);
  }

  /** Pausing first repairs it: the ensure after a pause provisions whenever it succeeds and orphans nothing. */
  lemma PauseThenEnsureRepairs(l: Moment, m: Moment, n: Moment, s: string, plan: Plan, hookFailed: bool,
                               refused: Refusals, foreign: set<string>, cfg: Settings, dest: string)
    requires dest != "" && dest[0] == '/' && Good(l, foreign, dest) && SessionId(s) && Provisionable(plan)
    requires PauseStep(s, true, l, m) && EnsureStep(s, plan, true, hookFailed, refused, m, n, cfg, dest)
    requires !Orphans(RecordOf(m.view, s), m.remote, plan, refused)
    ensures Provisioned(n.view[s], s, n.remote, dest)
  {
    GoodIsInStep(l, s, foreign, dest);
    PauseKeepsGood(s, true, l, m, foreign, dest);
    GoodIsInStep(m, s, foreign, dest);
    assert RecordOf(m.view, s).broadcasterID == "";
  }

  /**
   After a fallback the same call is not repeatable: ensuring a scoped plan again leaves the fallback broadcaster
   in place, beside a second one if the call succeeds, and the session out of step.
   */
  lemma EnsureAfterFallbackOrphans(l: Moment, m: Moment, n: Moment, s: string, plan: Plan, hook: bool, hook': bool,
                                   refused: Refusals, refused': Refusals, ok': bool, foreign: set<string>, cfg: Settings,
                                   dest: string)
    requires dest != "" && dest[0] == '/' && Good(l, foreign, dest) && SessionId(s) && Provisionable(plan) && !plan.useAll
    requires EnsureStep(s, plan, true, hook, refused, l, m, cfg, dest)
    requires !Orphans(RecordOf(l.view, s), l.remote, plan, refused)
    requires EnsureStep(s, plan, ok', hook', refused', m, n, cfg, dest)
    requires RecordOf(m.view, s).planKey == "ALL"
    ensures !Good(n, foreign, dest)
    ensures var b := m.view[s].broadcasterID;
            && b in n.remote.broadcasters && Serves(n.remote.broadcasters[b], dest, s)
            && (ok' && !refused'.broadcasterLost ==> AnotherServes(b, s, n.remote.broadcasters, dest))
  {
    ResolvedIsScoped(plan);
    ScopedKeyIsNotAll(plan);
    EnsureKeepsInStepIff(s, plan, true, hook, refused, l, m, foreign, cfg, dest);
    GoodIsInStep(l, s, foreign, dest);
    GoodIsInStep(m, s, foreign, dest);
    EnsureKeepsInStepIff(s, plan, ok', hook', refused', m, n, foreign, cfg, dest);
  }
}

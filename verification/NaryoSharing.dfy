/** A run in which one session finds the configuration that another created, and loses it when that one stops. */
module NaryoSharing {
  import opened Strings
  import opened NaryoPlan
  import opened NaryoRemote
  import opened NaryoSync
  import opened NaryoRuns

  const A := "0000000000000000"
  const B := "0000000000000001"
  const DEST := "/d"

  const OWNER := Record("c", "h", "x", "h", "", "", "ALL", "1", false)
  const FINDER := Record("c", "h", "y", "h", "", "", "ALL", "2", true)

  function RowFor(s: string): BroadcasterRow { BroadcasterRow("c", All, [DestinationPath(DEST, s)], "h") }

  const CONFIGS: map<string, ConfigRow> := map["c" := ConfigRow(true, "u", "h")]

  const BOTH := RemoteState(CONFIGS, map[], map["x" := RowFor(A), "y" := RowFor(B)], {"c", "x", "y"})

  const START := Moment(map[], EmptyRemote)
  const ONE := Moment(map[A := OWNER], RemoteState(CONFIGS, map[], map["x" := RowFor(A)], {"c", "x"}))
  const TWO := Moment(map[A := OWNER, B := FINDER], BOTH)
  const LEFT := Moment(map[B := FINDER], RemoteState(map[], map[], map["y" := RowFor(B)], {"c", "x", "y"}))

  /** From START to LEFT: A is provisioned on its own configuration, B on the one it finds, then A is stopped. */
  const CALLS: seq<Call> := [
    EnsureCall(A, AllPlan, true, false, NoRefusals),
    EnsureCall(B, AllPlan, true, false, NoRefusals),
    StopCall(A)]

  lemma Ids()
    ensures SessionId(A) && SessionId(B) && A != B
    ensures Serves(RowFor(A), DEST, A) && Serves(RowFor(B), DEST, B)
    ensures !Serves(RowFor(A), DEST, B) && !Serves(RowFor(B), DEST, A)
  {
    assert A[15] != B[15];
    OwnDestinationOnly(RowFor(A), DEST, A, A);
    OwnDestinationOnly(RowFor(A), DEST, A, B);
    OwnDestinationOnly(RowFor(B), DEST, B, B);
    OwnDestinationOnly(RowFor(B), DEST, B, A);
  }

  /** A record of a broadcaster for everything, the only one that serves its session at a remote without filters. */
  lemma LoneBroadcaster(r: Record, s: string, remote: RemoteState)
    requires remote.filters == map[] && r.filterID == "" && r.planKey == "ALL" && OwnConfig(r, remote)
    requires r.broadcasterID in remote.broadcasters && r.broadcasterID in remote.issued
    requires remote.broadcasters[r.broadcasterID].hash == r.broadcasterHash
    requires remote.broadcasters[r.broadcasterID].target == All
    requires forall b :: b in remote.broadcasters ==> (Serves(remote.broadcasters[b], DEST, s) <==> b == r.broadcasterID)
    ensures InStep(r, s, remote, DEST) && Provisioned(r, s, remote, DEST)
  {
  }

  lemma OwnerIsInStep()
    ensures InStep(OWNER, A, ONE.remote, DEST) && Provisioned(OWNER, A, ONE.remote, DEST)
    ensures Confined(START.remote, ONE.remote, A, DEST)
  {
    Ids();
    LoneBroadcaster(OWNER, A, ONE.remote);
  }

  lemma FinderIsInStep()
    ensures InStep(FINDER, B, TWO.remote, DEST) && Provisioned(FINDER, B, TWO.remote, DEST)
    ensures Confined(ONE.remote, TWO.remote, B, DEST)
  {
    Ids();
    LoneBroadcaster(FINDER, B, TWO.remote);
  }

  lemma FirstEnsure(cfg: Settings)
    ensures EnsureStep(A, AllPlan, true, false, NoRefusals, START, ONE, cfg, DEST)
  {
    OwnerIsInStep();
  }

  lemma SecondEnsure(cfg: Settings)
    ensures EnsureStep(B, AllPlan, true, false, NoRefusals, ONE, TWO, cfg, DEST)
  {
    FinderIsInStep();
    assert TWO.view == ONE.view[B := FINDER];
    assert RecordOf(ONE.view, B) == EmptyRecord by { Ids(); }
  }

  lemma OwnerLeaves()
    ensures RecordOf(TWO.view, A) == OWNER && TWO.view - {A} == LEFT.view
  {
    Ids();
  }

  lemma OwnersRowsGo()
    ensures Teardown(OWNER, TWO.remote, LEFT.remote) && Sound(LEFT.remote)
  {
    assert LEFT.remote == TornDown(OWNER, TWO.remote);
  }

  lemma OwnerStops()
    ensures StopStep(A, TWO, LEFT)
  {
    OwnerLeaves();
    OwnersRowsGo();
  }

  lemma NothingOrphaned()
    ensures !CallOrphans(CALLS[0], START) && !CallOrphans(CALLS[1], ONE) && !CallOrphans(CALLS[2], TWO)
  {
    Ids();
  }

  lemma Calls(cfg: Settings)
    ensures CallStep(EnsureCall(A, AllPlan, true, false, NoRefusals), START, ONE, cfg, DEST)
    ensures CallStep(EnsureCall(B, AllPlan, true, false, NoRefusals), ONE, TWO, cfg, DEST)
    ensures CallStep(StopCall(A), TWO, LEFT, cfg, DEST)
  {
    Ids();
    FirstEnsure(cfg);
    SecondEnsure(cfg);
    OwnerStops();
  }

  /** Three steps in a row make a run. */
  lemma ThreeSteps(c: Call, d: Call, e: Call, l: Moment, m: Moment, n: Moment, o: Moment, cfg: Settings)
    requires CallStep(c, l, m, cfg, DEST) && CallStep(d, m, n, cfg, DEST) && CallStep(e, n, o, cfg, DEST)
    requires !CallOrphans(c, l) && !CallOrphans(d, m) && !CallOrphans(e, n)
    ensures IsRun([l, m, n, o], [c, d, e], cfg, DEST)
  {
  }

  lemma ItIsARun(cfg: Settings)
    ensures IsRun([START, ONE, TWO, LEFT], CALLS, cfg, DEST)
  {
    Calls(cfg);
    NothingOrphaned();
    ThreeSteps(CALLS[0], CALLS[1], CALLS[2], START, ONE, TWO, LEFT, cfg);
  }

  lemma StartIsGood()
    ensures Good(START, {}, DEST)
  {
    FreshClientIsGood(EmptyRemote, DEST);
  }

  /** The run starts good and orphans nothing, and the stop takes the configuration that B tracks. */
  lemma SharedConfigIsLost(cfg: Settings)
    ensures IsRun([START, ONE, TWO, LEFT], CALLS, cfg, DEST) && Good(START, {}, DEST)
    ensures B in TWO.view && TWO.view[B].configID in TWO.remote.configs
    ensures B in LEFT.view && LEFT.view[B] == TWO.view[B] && LEFT.view[B].configID !in LEFT.remote.configs
  {
    ItIsARun(cfg);
    StartIsGood();
  }
}

/**
 What the client remembers of one session's resources, and when that memory agrees with the remote. The
 agreement is stated session by session; a change confined to one session leaves all the others alone.
 */
module NaryoSync {
  import opened Strings
  import opened NaryoPlan
  import opened NaryoRemote

  datatype Record = Record(
    configID: string, configHash: string,
    broadcasterID: string, broadcasterHash: string,
    filterID: string, filterHash: string,
    planKey: string, lastOp: string,
    shared: bool)           // the configuration was found, not created: never delete it

  const EmptyRecord := Record("", "", "", "", "", "", "", "", false)

  /** What holds of a record whatever the remote answered. */
  ghost predicate LocalOK(r: Record) {
    && (r.configID != "" ==> r.configHash != "")
    && (r.broadcasterID != "" ==> r.broadcasterHash != "" && r.configID != "" && (r.planKey == "ALL" || r.filterID != ""))
    && (r.filterID != "" ==> r.filterHash != "" && r.planKey != "" && r.planKey != "ALL")
    && (r.shared ==> r.configID != "")
  }

  ghost predicate SameConfig(r: Record, q: Record) {
    r.configID == q.configID && r.configHash == q.configHash && r.shared == q.shared
  }

  /** Ids of one length that carry no slash and no white space at the ends. */
  ghost predicate SessionId(s: string) { PlainId(s) && |s| == 16 }

  lemma SessionIdIsTrimmed(s: string)
    requires SessionId(s)
    ensures TrimSpace(s) == s && s != ""
  {
    assert s[0] in s && s[|s| - 1] in s;
    TrimSpaceTrims(s);
  }

  ghost predicate NamedFor(f: FilterRow, s: string) {
    TrimSpace(f.name) == "pf-" + s + "-hcs" || TrimSpace(f.name) == "pf-" + s + "-evm"
  }

  ghost predicate Serves(b: BroadcasterRow, dest: string, s: string) {
    DestinationsInclude(b.dests, DestinationPath(dest, s))
  }

  function SubjectKey(f: FilterRow): string { if f.topic != "" then "H:" + f.topic else "E:" + f.contract }

  function FilterRequest(s: string, plan: Plan): Request {
    if plan.topic != "" then PostFilter(FilterName(s, plan), plan.topic, "")
    else PostFilter(FilterName(s, plan), "", plan.contract)
  }

  lemma FilterNameIsPlain(s: string, plan: Plan)
    requires plan.topic != "" || plan.contract != ""
    ensures TrimSpace(FilterName(s, plan)) == FilterName(s, plan)
    ensures FilterName(s, plan) == if plan.topic != "" then "pf-" + s + "-hcs" else "pf-" + s + "-evm"
  {
    var n := FilterName(s, plan);
    assert n[0] == 'p' && (n[|n| - 1] == 's' || n[|n| - 1] == 'm');
    TrimSpaceTrims(n);
  }

  function TargetOf(r: Record): Target { if r.planKey == "ALL" then All else Filter(r.filterID) }

  // ---------------------------------------------------------------------------------------------
  // Agreement of one record with the remote

  /** The filters named for the session are exactly the tracked one. */
  ghost predicate FiltersMatch(r: Record, s: string, filters: map<string, FilterRow>) {
    forall f :: f in filters ==>
      && (NamedFor(filters[f], s) <==> f == r.filterID)
      && (f == r.filterID ==> filters[f].hash == r.filterHash)
  }

  /** The tracked filter selects what the plan key says. */
  ghost predicate SubjectMatches(r: Record, filters: map<string, FilterRow>) {
    r.filterID in filters ==> SubjectKey(filters[r.filterID]) == r.planKey
  }

  /** The record's filter side agrees with the remote. */
  ghost predicate FilterSide(r: Record, s: string, remote: RemoteState) {
    && FiltersMatch(r, s, remote.filters) && SubjectMatches(r, remote.filters)
    && (r.filterID != "" ==> r.filterID in remote.issued)
  }

  /** Even when other filters are named for the session, the tracked one is, and its hash is current. */
  ghost predicate OwnFilter(r: Record, s: string, remote: RemoteState) {
    && (r.filterID in remote.filters ==>
          NamedFor(remote.filters[r.filterID], s) && remote.filters[r.filterID].hash == r.filterHash)
    && (r.filterID != "" ==> r.filterID in remote.issued)
  }

  /** A filter named for the session that is not tracked. */
  ghost predicate StrayFilter(r: Record, s: string, filters: map<string, FilterRow>) {
    exists f :: f in filters && NamedFor(filters[f], s) && f != r.filterID
  }

  /** A broadcaster serving the session that is not tracked. */
  ghost predicate StrayBroadcaster(r: Record, s: string, broadcasters: map<string, BroadcasterRow>, dest: string) {
    exists k :: k in broadcasters && Serves(broadcasters[k], dest, s) && k != r.broadcasterID
  }

  /** The broadcasters serving the session's destination are exactly the tracked one. */
  ghost predicate DestinationMatchesRecord(r: Record, s: string, remote: RemoteState, dest: string) {
    && (forall b :: b in remote.broadcasters ==> (Serves(remote.broadcasters[b], dest, s) <==> b == r.broadcasterID))
    && (r.broadcasterID in remote.broadcasters ==>
          && remote.broadcasters[r.broadcasterID].hash == r.broadcasterHash
          && remote.broadcasters[r.broadcasterID].target == TargetOf(r))
  }

  /** The tracked broadcaster is up, but the filter it targets is gone. */
  ghost predicate Filterless(r: Record, remote: RemoteState) {
    r.broadcasterID in remote.broadcasters && r.planKey != "ALL" && r.filterID !in remote.filters
  }

  /** The tracked configuration is a deliberate creation of this session. */
  ghost predicate Owns(r: Record) { r.configID != "" && !r.shared }

  /** An owned configuration was created by the remote and, while it is there, has the recorded hash. */
  ghost predicate OwnConfig(r: Record, remote: RemoteState) {
    Owns(r) ==>
      && r.configID in remote.issued
      && (r.configID in remote.configs ==> remote.configs[r.configID].hash == r.configHash)
  }

  /**
   The record agrees with the remote. Tracked rows may have been lost by the remote, but no other filter or
   broadcaster belongs to the session.
   */
  ghost predicate InStep(r: Record, s: string, remote: RemoteState, dest: string) {
    && FilterSide(r, s, remote)
    && (r.broadcasterID != "" ==> r.broadcasterID in remote.issued)
    && DestinationMatchesRecord(r, s, remote, dest)
    && OwnConfig(r, remote)
  }

  lemma StraysAreOutOfStep(r: Record, s: string, remote: RemoteState, dest: string)
    requires StrayFilter(r, s, remote.filters) || StrayBroadcaster(r, s, remote.broadcasters, dest)
    ensures !InStep(r, s, remote, dest)
  {
    if StrayFilter(r, s, remote.filters) {
      var f :| f in remote.filters && NamedFor(remote.filters[f], s) && f != r.filterID;
    }
  }

  ghost predicate NothingServes(s: string, broadcasters: map<string, BroadcasterRow>, dest: string) {
    forall b :: b in broadcasters ==> !Serves(broadcasters[b], dest, s)
  }

  /** Exactly one broadcaster serves the session, and it delivers what the plan key says. */
  ghost predicate Provisioned(r: Record, s: string, remote: RemoteState, dest: string) {
    && r.broadcasterID in remote.broadcasters
    && (forall b :: b in remote.broadcasters ==> (Serves(remote.broadcasters[b], dest, s) <==> b == r.broadcasterID))
    && (if r.planKey == "ALL" then remote.broadcasters[r.broadcasterID].target == All
        else
          && remote.broadcasters[r.broadcasterID].target == Filter(r.filterID)
          && r.filterID in remote.filters && SubjectKey(remote.filters[r.filterID]) == r.planKey)
  }

  /** In step with a broadcaster that is up, a session is provisioned unless the filter was lost. */
  lemma ProvisionedIff(r: Record, s: string, remote: RemoteState, dest: string)
    requires InStep(r, s, remote, dest) && r.broadcasterID in remote.broadcasters
    ensures Provisioned(r, s, remote, dest) <==> !Filterless(r, remote)
  {}

  // ---------------------------------------------------------------------------------------------
  // Changes confined to one session

  ghost predicate FiltersConfined(a: map<string, FilterRow>, b: map<string, FilterRow>, s: string) {
    && (forall f :: f in a && !(f in b && b[f] == a[f]) ==> NamedFor(a[f], s))
    && (forall f :: f in b && !(f in a && b[f] == a[f]) ==> NamedFor(b[f], s))
  }

  ghost predicate BroadcastersConfined(a: map<string, BroadcasterRow>, b: map<string, BroadcasterRow>, s: string,
                                       dest: string) {
    && (forall k :: k in a && !(k in b && b[k] == a[k]) ==> Serves(a[k], dest, s))
    && (forall k :: k in b && !(k in a && b[k] == a[k]) ==> b[k].dests == [DestinationPath(dest, s)])
  }

  /** Rows appear under unused ids only. */
  ghost predicate NewIds(a: RemoteState, b: RemoteState) {
    && a.issued <= b.issued
    && (forall f :: f in b.filters && f !in a.filters ==> f !in a.issued)
    && (forall k :: k in b.broadcasters && k !in a.broadcasters ==> k !in a.issued)
    && (forall c :: c in b.configs && !(c in a.configs && b.configs[c] == a.configs[c]) ==> c !in a.issued)
  }

  ghost predicate Confined(a: RemoteState, b: RemoteState, s: string, dest: string) {
    && FiltersConfined(a.filters, b.filters, s)
    && BroadcastersConfined(a.broadcasters, b.broadcasters, s, dest)
    && NewIds(a, b)
  }

  lemma NamesAreApart(f: FilterRow, s: string, t: string)
    requires SessionId(s) && SessionId(t) && NamedFor(f, s) && NamedFor(f, t)
    ensures s == t
  {
    var n := TrimSpace(f.name);
    assert s == n[3..19] && t == n[3..19];
  }

  /** No broadcaster serves two sessions. */
  ghost predicate Apart(broadcasters: map<string, BroadcasterRow>, dest: string) {
    forall k, s, t ::
      k in broadcasters && SessionId(s) && SessionId(t) ==>
        !(s != t && Serves(broadcasters[k], dest, s) && Serves(broadcasters[k], dest, t))
  }

  lemma OwnDestinationOnly(row: BroadcasterRow, dest: string, s: string, t: string)
    requires SessionId(s) && SessionId(t) && (dest != "" ==> dest[0] == '/')
    requires row.dests == [DestinationPath(dest, s)]
    ensures Serves(row, dest, t) <==> s == t
  {
    DestinationsAreApart(dest, s, t);
  }

  lemma ConfinedKeepsFilters(a: RemoteState, b: RemoteState, s: string, t: string, r: Record)
    requires SessionId(s) && SessionId(t) && s != t && FiltersConfined(a.filters, b.filters, s) && NewIds(a, b)
    requires FilterSide(r, t, a) && b.filters.Keys <= b.issued && "" !in b.issued
    ensures FilterSide(r, t, b)
  {
    forall f | f in b.filters && !(f in a.filters && b.filters[f] == a.filters[f]) ensures !NamedFor(b.filters[f], t) {
      if NamedFor(b.filters[f], t) { NamesAreApart(b.filters[f], s, t); }
    }
    forall f | f in a.filters && NamedFor(a.filters[f], t) ensures f in b.filters && b.filters[f] == a.filters[f] {
      if !(f in b.filters && b.filters[f] == a.filters[f]) { NamesAreApart(a.filters[f], s, t); }
    }
  }

  /** Sessions do not disturb each other: a change confined to s keeps every other session in step. */
  lemma ConfinedKeepsOthers(a: RemoteState, b: RemoteState, s: string, t: string, r: Record, dest: string)
    requires SessionId(s) && SessionId(t) && s != t && (dest != "" ==> dest[0] == '/')
    requires Confined(a, b, s, dest) && InStep(r, t, a, dest) && Apart(a.broadcasters, dest)
    requires "" !in b.issued && b.filters.Keys <= b.issued && b.broadcasters.Keys <= b.issued
    ensures InStep(r, t, b, dest)
  {
    ConfinedKeepsFilters(a, b, s, t, r);
    forall k | k in b.broadcasters && !(k in a.broadcasters && b.broadcasters[k] == a.broadcasters[k])
      ensures !Serves(b.broadcasters[k], dest, t)
    {
      OwnDestinationOnly(b.broadcasters[k], dest, s, t);
    }
  }

  lemma ConfinedKeepsApart(a: RemoteState, b: RemoteState, s: string, dest: string)
    requires SessionId(s) && (dest != "" ==> dest[0] == '/')
    requires Confined(a, b, s, dest) && Apart(a.broadcasters, dest)
    ensures Apart(b.broadcasters, dest)
  {
    forall k, t, u | k in b.broadcasters && SessionId(t) && SessionId(u) && Serves(b.broadcasters[k], dest, t)
                     && Serves(b.broadcasters[k], dest, u)
      ensures t == u
    {
      if !(k in a.broadcasters && b.broadcasters[k] == a.broadcasters[k]) {
        OwnDestinationOnly(b.broadcasters[k], dest, s, t);
        OwnDestinationOnly(b.broadcasters[k], dest, s, u);
      }
    }
  }

  // ---------------------------------------------------------------------------------------------
  // Provisioning

  /**
   Which of the answers that decide what an ensure does were not given. Checks: the list that would have told whether
   the tracked broadcaster or filter still exists. Lost: a configuration, filter or broadcaster was created, but an
   answer to its creation or the list that would have shown it did not arrive.
   */
  datatype Refusals = Refusals(broadcasterCheck: bool, filterCheck: bool, configLost: bool, filterLost: bool,
                               broadcasterLost: bool)

  const NoRefusals := Refusals(false, false, false, false, false)

  ghost predicate ConfigsKept(a: RemoteState, b: RemoteState) {
    forall c :: c in a.configs ==> c in b.configs && b.configs[c] == a.configs[c]
  }

  /** Nothing but filters named for the session changed, and new configurations may have appeared. */
  ghost predicate FilterStep(a: RemoteState, b: RemoteState, s: string) {
    a.broadcasters == b.broadcasters && FiltersConfined(a.filters, b.filters, s) && NewIds(a, b) && ConfigsKept(a, b)
  }

  /** The filter side after a call: in agreement, or with a stray filter if the call was troubled by a refusal. */
  ghost predicate FilterOutcome(troubled: bool, r: Record, s: string, remote: RemoteState) {
    && OwnFilter(r, s, remote)
    && (if troubled then StrayFilter(r, s, remote.filters) else FilterSide(r, s, remote))
  }

  /** From record q at remote a to record r: the configuration stays, or is new and owned, or was found. */
  ghost predicate ConfigOutcome(q: Record, a: RemoteState, r: Record, b: RemoteState) {
    SameConfig(r, q) ||
    (q.configID == "" &&
     (r.shared || (r.configID != "" && r.configID !in a.issued && r.configID in b.issued && r.configID in b.configs &&
                   b.configs[r.configID].hash == r.configHash)))
  }

  /** Every new configuration is owned by the record; with the creation lost, one of them is not. */
  ghost predicate NewConfigs(a: RemoteState, b: RemoteState, r: Record, lost: bool) {
    if lost then exists c :: c in b.configs && c !in a.issued && !(Owns(r) && r.configID == c)
    else forall c :: c in b.configs && c !in a.configs ==> Owns(r) && r.configID == c
  }

  /** The change added one broadcaster, under a new id. */
  ghost predicate Added(a: RemoteState, b: RemoteState, made: string, configID: string, target: Target,
                        dests: seq<string>) {
    && made !in a.issued && b.issued == a.issued + {made} && made in b.broadcasters
    && b.broadcasters == a.broadcasters[made := BroadcasterRow(configID, target, dests, b.broadcasters[made].hash)]
  }

  /**
   What creating a broadcaster does to the broadcasters: nothing when it fails; otherwise it adds one, and if no
   other serves the destination, that is the one that was found. When it is lost it is added and not tracked.
   */
  ghost predicate BroadcasterOutcome(ok: bool, refused: bool, a: RemoteState, b: RemoteState, made: string,
                                     configID: string, id: string, hash: string, target: Target, s: string,
                                     dest: string) {
    if !ok && !refused then b.broadcasters == a.broadcasters && b.issued == a.issued
    else
      && Added(a, b, made, configID, target, [DestinationPath(dest, s)])
      && (ok && NothingServes(s, a.broadcasters, dest) ==> made == id && b.broadcasters[made].hash == hash)
  }

  ghost predicate BroadcastersKept(a: map<string, BroadcasterRow>, b: map<string, BroadcasterRow>, s: string,
                                   dest: string) {
    && (forall k :: k in a ==> k in b && b[k] == a[k])
    && (forall k :: k in b && k !in a ==> b[k].dests == [DestinationPath(dest, s)])
  }

  /**
   What provisioning a session that tracks no broadcaster does to a faithful remote, and what the record r tracks
   afterwards. refused: a broadcaster was created and lost.
   */
  ghost predicate Provisioning(ok: bool, troubled: bool, refused: bool, a: RemoteState, b: RemoteState, made: string,
                               r: Record, s: string, dest: string) {
    && FilterOutcome(troubled, r, s, b) && FiltersConfined(a.filters, b.filters, s) && NewIds(a, b) && ConfigsKept(a, b)
    && BroadcastersKept(a.broadcasters, b.broadcasters, s, dest)
    && if refused then StrayBroadcaster(r, s, b.broadcasters, dest)
       else if !ok then b.broadcasters == a.broadcasters
       else
         && made !in a.issued && made in b.issued && made in b.broadcasters
         && b.broadcasters == a.broadcasters[made := BroadcasterRow(r.configID, TargetOf(r), [DestinationPath(dest, s)],
                                                                    b.broadcasters[made].hash)]
         && (r.planKey != "ALL" ==> r.filterID in b.filters)
         && (NothingServes(s, a.broadcasters, dest) ==>
               made == r.broadcasterID && b.broadcasters[made].hash == r.broadcasterHash)
  }

  /**
   The session ends up with the plan it asked for, or with everything after a hook failure that was allowed to
   fall back; on success a scoped plan has its filter.
   */
  ghost predicate Answers(ok: bool, r: Record, plan: Plan, cfg: Settings, hookFailed: bool) {
    && (r.planKey == plan.key || (r.planKey == "ALL" && cfg.allowAll && hookFailed))
    && (ok && r.planKey != "ALL" ==> r.filterID != "")
  }

  predicate Scoped(plan: Plan) {
    !plan.useAll && (if plan.topic != "" then plan.key == "H:" + plan.topic
                     else plan.contract != "" && plan.key == "E:" + plan.contract)
  }

  lemma ResolvedIsScoped(plan: Plan)
    requires Resolved(plan) && Provisionable(plan)
    ensures Scoped(plan) || plan == AllPlan
  {}

  lemma ScopedKeyIsNotAll(plan: Plan)
    requires Scoped(plan)
    ensures plan.key != "" && plan.key != "ALL"
  {
    assert plan.key[1] == ':';
  }

  lemma PlanHasKey(plan: Plan)
    requires Scoped(plan) || plan == AllPlan
    ensures plan.key != ""
  {
    if plan != AllPlan { ScopedKeyIsNotAll(plan); }
  }

  /** The filter that was just created: named for the session, on the plan's subject. */
  lemma CreatedFilter(a: RemoteState, b: RemoteState, s: string, plan: Plan, made: string, hash: string)
    requires Sound(a) && Scoped(plan) && made !in a.issued && b == Apply(a, FilterRequest(s, plan), made, hash)
    ensures made in b.filters && NamedFor(b.filters[made], s) && SubjectKey(b.filters[made]) == plan.key
    ensures FilterStep(a, b, s)
  {
    FilterNameIsPlain(s, plan);
  }

  /** Found again where no filter was named for the session: it is the only one. */
  lemma CreatedFilterIsInStep(r: Record, s: string, a: RemoteState, b: RemoteState, plan: Plan, made: string, hash: string)
    requires Sound(a) && Scoped(plan) && r.planKey == plan.key && made !in a.issued
    requires b == Apply(a, FilterRequest(s, plan), made, hash)
    requires forall f :: f in a.filters ==> !NamedFor(a.filters[f], s)
    requires r.filterID in b.filters && NamedFor(b.filters[r.filterID], s) && b.filters[r.filterID].hash == r.filterHash
    ensures FilterOutcome(false, r, s, b) && FilterStep(a, b, s)
  {
    CreatedFilter(a, b, s, plan, made, hash);
  }

  /** Not found, or found beside another of the name: one of them is not tracked. */
  lemma CreatedFilterIsStray(r: Record, s: string, a: RemoteState, b: RemoteState, plan: Plan, made: string, hash: string,
                             other: string)
    requires Sound(a) && Scoped(plan) && made != "" && made !in a.issued
    requires b == Apply(a, FilterRequest(s, plan), made, hash)
    requires r.filterID == "" || (r.filterID in b.filters && NamedFor(b.filters[r.filterID], s) &&
                                  b.filters[r.filterID].hash == r.filterHash)
    requires r.filterID == "" || (other in a.filters && NamedFor(a.filters[other], s))
    ensures FilterOutcome(true, r, s, b) && FilterStep(a, b, s)
  {
    CreatedFilter(a, b, s, plan, made, hash);
    if r.filterID == made {
      assert other in b.filters && NamedFor(b.filters[other], s) && other != made;
    } else {
      assert NamedFor(b.filters[made], s);
    }
  }

  /** After a tracked filter was kept, or given up and created anew. */
  lemma NewFilterOutcome(q: Record, r: Record, s: string, a: RemoteState, b: RemoteState, plan: Plan, ok: bool,
                         checkRefused: bool, lost: bool, made: string, hash: string)
    requires Sound(a) && Scoped(plan) && FilterSide(q, s, a) && q.planKey == plan.key == r.planKey
    requires q.filterID in a.filters ==> checkRefused
    requires ok ==> r.filterID != "" && !lost
    requires !ok ==> r.filterID == ""
    requires if !ok && !lost then b == a
             else made != "" && made !in a.issued && b == Apply(a, FilterRequest(s, plan), made, hash)
    requires ok ==> r.filterID in b.filters && NamedFor(b.filters[r.filterID], s) &&
                    b.filters[r.filterID].hash == r.filterHash
    ensures FilterStep(a, b, s)
    ensures FilterOutcome((q.filterID in a.filters && checkRefused) || lost, r, s, b)
  {
    if !ok && !lost {
      if q.filterID in a.filters { assert NamedFor(a.filters[q.filterID], s); }
    } else if q.filterID in a.filters || lost {
      CreatedFilterIsStray(r, s, a, b, plan, made, hash, q.filterID);
    } else {
      CreatedFilterIsInStep(r, s, a, b, plan, made, hash);
    }
  }

  lemma SameFiltersOutcome(troubled: bool, r: Record, a: RemoteState, b: RemoteState, s: string)
    requires FilterOutcome(troubled, r, s, a) && b.filters == a.filters && a.issued <= b.issued
    ensures FilterOutcome(troubled, r, s, b) && FiltersConfined(a.filters, b.filters, s)
  {}

  lemma DroppedFilterOutcome(troubled: bool, q: Record, a: RemoteState, r: Record, b: RemoteState, s: string)
    requires Sound(a) && FilterOutcome(troubled, q, s, a) && r.filterID == "" && b.filters == a.filters - {q.filterID}
    requires b.issued >= a.issued
    ensures FilterOutcome(troubled, r, s, b) && FiltersConfined(a.filters, b.filters, s)
  {
    if troubled {
      var f :| f in a.filters && NamedFor(a.filters[f], s) && f != q.filterID;
      assert f in b.filters && NamedFor(b.filters[f], s);
    }
  }

  /** A broadcaster that was added and not found is a stray. */
  lemma UnfoundIsStray(a: RemoteState, b: RemoteState, made: string, r: Record, configID: string, target: Target, s: string,
                       dest: string)
    requires SessionId(s) && dest != "" && dest[0] == '/' && Sound(b) && r.broadcasterID == ""
    requires Added(a, b, made, configID, target, [DestinationPath(dest, s)])
    ensures StrayBroadcaster(r, s, b.broadcasters, dest)
  {
    OwnDestinationOnly(b.broadcasters[made], dest, s, s);
    assert made in b.issued;
  }

  /** Dropping the filter and creating a broadcaster for everything. */
  lemma AllIsProvisioning(ok: bool, troubled: bool, refused: bool, a: RemoteState, b: RemoteState, made: string, q: Record,
                          r: Record, s: string, dest: string)
    requires SessionId(s) && dest != "" && dest[0] == '/' && Sound(a) && Sound(b)
    requires FilterOutcome(troubled, q, s, a) && r.planKey == "ALL" && r.filterID == ""
    requires b.filters == a.filters - {q.filterID} && b.configs == a.configs
    requires BroadcasterOutcome(ok, refused, a, b, made, r.configID, r.broadcasterID, r.broadcasterHash, All, s, dest)
    requires ok <==> r.broadcasterID != ""
    requires refused ==> !ok
    ensures Provisioning(ok, troubled, refused, a, b, made, r, s, dest)
  {
    DroppedFilterOutcome(troubled, q, a, r, b, s);
    if refused {
      UnfoundIsStray(a, b, made, r, r.configID, All, s, dest);
    }
  }

  /** The broadcaster for a filter the remote has. */
  lemma ScopedIsProvisioning(troubled: bool, a: RemoteState, b: RemoteState, made: string, r: Record, s: string, dest: string)
    requires Sound(a) && Sound(b) && r.planKey != "ALL" && r.filterID in a.filters && FilterOutcome(troubled, r, s, a)
    requires b.filters == a.filters && b.configs == a.configs
    requires BroadcasterOutcome(true, false, a, b, made, r.configID, r.broadcasterID, r.broadcasterHash,
                                Filter(r.filterID), s, dest)
    ensures Provisioning(true, troubled, false, a, b, made, r, s, dest)
  {
    SameFiltersOutcome(troubled, r, a, b, s);
    assert NewIds(a, b) && BroadcastersKept(a.broadcasters, b.broadcasters, s, dest);
  }

  /** A fallback after a broadcaster was created and not found: whatever it does, a stray is left. */
  lemma FallbackLeavesStray(ok: bool, troubled: bool, refused: bool, a: RemoteState, b: RemoteState, c: RemoteState,
                            first: string, made: string, configID: string, target: Target, r: Record, s: string,
                            dest: string)
    requires SessionId(s) && dest != "" && dest[0] == '/' && Sound(a) && Sound(b) && Sound(c)
    requires b.filters == a.filters && b.configs == a.configs
    requires Added(a, b, first, configID, target, [DestinationPath(dest, s)])
    requires Provisioning(ok, troubled, refused, b, c, made, r, s, dest) && (!ok ==> r.broadcasterID == "")
    ensures Provisioning(ok, troubled, true, a, c, made, r, s, dest)
  {
    if !refused {
      assert c.broadcasters[first] == b.broadcasters[first];
      OwnDestinationOnly(c.broadcasters[first], dest, s, s);
      if ok {
        OwnDestinationOnly(c.broadcasters[made], dest, s, s);
        assert made != first;
      } else {
        assert first in b.issued;
      }
    }
  }

  /** A fallback after the first broadcaster failed: a stray is left if either one was lost. */
  lemma FallbackOutcome(ok: bool, troubled: bool, again: bool, refused: bool, a: RemoteState, b: RemoteState,
                        c: RemoteState, first: string, made: string, q: Record, r: Record, s: string, dest: string)
    requires SessionId(s) && dest != "" && dest[0] == '/' && Sound(a) && Sound(b) && Sound(c)
    requires FilterOutcome(troubled, q, s, a) && b.filters == a.filters && b.configs == a.configs
    requires BroadcasterOutcome(false, again, a, b, first, q.configID, q.broadcasterID, q.broadcasterHash,
                                Filter(q.filterID), s, dest)
    requires FilterOutcome(troubled, q, s, b) ==> Provisioning(ok, troubled, refused, b, c, made, r, s, dest)
    requires !ok ==> r.broadcasterID == ""
    ensures Provisioning(ok, troubled, refused || again, a, c, made, r, s, dest)
  {
    SameFiltersOutcome(troubled, q, a, b, s);
    if again {
      FallbackLeavesStray(ok, troubled, refused, a, b, c, first, made, q.configID, Filter(q.filterID), r, s, dest);
    } else {
      assert b == a;
    }
  }

  lemma FilterStepThenProvisioning(ok: bool, troubled: bool, refused: bool, a: RemoteState, b: RemoteState, c: RemoteState,
                                   made: string, r: Record, s: string, dest: string)
    requires FilterStep(a, b, s) && Provisioning(ok, troubled, refused, b, c, made, r, s, dest)
    ensures Provisioning(ok, troubled, refused, a, c, made, r, s, dest)
  {
    forall f | f in a.filters && !(f in c.filters && c.filters[f] == a.filters[f]) ensures NamedFor(a.filters[f], s) {}
    forall f | f in c.filters && !(f in a.filters && c.filters[f] == a.filters[f]) ensures NamedFor(c.filters[f], s) {}
    assert NewIds(a, c);
  }

  /** Provisioning touches nothing but the session's own filters and its new broadcasters. */
  lemma ProvisioningIsConfined(ok: bool, troubled: bool, refused: bool, a: RemoteState, b: RemoteState, made: string,
                               r: Record, s: string, dest: string)
    requires Provisioning(ok, troubled, refused, a, b, made, r, s, dest)
    ensures Confined(a, b, s, dest)
  {}

  /** Provisioning a session that nothing serves yet leaves it in step, and served when it succeeds. */
  lemma ProvisioningIsInStep(ok: bool, a: RemoteState, b: RemoteState, made: string, r: Record, s: string, dest: string)
    requires SessionId(s) && dest != "" && dest[0] == '/' && Sound(a) && Sound(b)
    requires Provisioning(ok, false, false, a, b, made, r, s, dest) && NothingServes(s, a.broadcasters, dest)
    requires OwnConfig(r, b)
    requires !ok ==> r.broadcasterID == ""
    ensures InStep(r, s, b, dest)
    ensures ok ==> r.broadcasterID in b.broadcasters
  {
    if ok {
      assert b.broadcasters[made].dests == [DestinationPath(dest, s)];
      OwnDestinationOnly(b.broadcasters[made], dest, s, s);
    }
  }

  /** Provisioning beside a broadcaster that still serves the session leaves one of them astray. */
  lemma ProvisioningBesideAnother(ok: bool, troubled: bool, refused: bool, a: RemoteState, b: RemoteState, made: string,
                                  r: Record, s: string, dest: string, earlier: string)
    requires SessionId(s) && dest != "" && dest[0] == '/' && Sound(a) && Sound(b)
    requires Provisioning(ok, troubled, refused, a, b, made, r, s, dest)
    requires earlier in a.broadcasters && Serves(a.broadcasters[earlier], dest, s)
    requires !ok ==> r.broadcasterID == ""
    ensures earlier in b.broadcasters && Serves(b.broadcasters[earlier], dest, s)
    ensures ok && !refused ==> made != earlier && made in b.broadcasters && Serves(b.broadcasters[made], dest, s)
    ensures StrayBroadcaster(r, s, b.broadcasters, dest)
  {
    assert b.broadcasters[earlier] == a.broadcasters[earlier];
    if ok && !refused {
      assert b.broadcasters[made].dests == [DestinationPath(dest, s)];
      OwnDestinationOnly(b.broadcasters[made], dest, s, s);
    }
  }

  // ---------------------------------------------------------------------------------------------
  // Ensuring

  /** The tracked broadcaster is listed and was made for this plan. */
  ghost predicate KeepsBroadcaster(q: Record, remote: RemoteState, plan: Plan, refused: Refusals) {
    q.broadcasterID in remote.broadcasters && q.planKey == plan.key && !refused.broadcasterCheck
  }

  /** A live broadcaster is forgotten, not deleted: its plan changed, or the list that would have shown it was refused. */
  ghost predicate ForgetsBroadcaster(q: Record, remote: RemoteState, plan: Plan, refused: Refusals) {
    q.broadcasterID in remote.broadcasters && !KeepsBroadcaster(q, remote, plan, refused)
  }

  /**
   The ensure leaves a filter or broadcaster of the session astray: a forgotten broadcaster, a live filter whose check
   was refused, or a new filter or broadcaster that was lost.
   */
  ghost predicate LeavesStrays(q: Record, remote: RemoteState, plan: Plan, refused: Refusals) {
    || ForgetsBroadcaster(q, remote, plan, refused)
    || (q.filterID in remote.filters && refused.filterCheck)
    || refused.filterLost || refused.broadcasterLost
  }

  /** The ensure leaves something at the remote that no record tracks: a stray, or a new configuration that was lost. */
  ghost predicate Orphans(q: Record, remote: RemoteState, plan: Plan, refused: Refusals) {
    LeavesStrays(q, remote, plan, refused) || refused.configLost
  }

  /** The ensure finds its broadcaster up and looks no further, although the filter is gone. */
  ghost predicate KeepsFilterless(q: Record, remote: RemoteState, plan: Plan, refused: Refusals) {
    KeepsBroadcaster(q, remote, plan, refused) && Filterless(q, remote)
  }

  /** The plan stays and its live filter was not lost sight of. */
  ghost predicate KeepsFilter(q: Record, remote: RemoteState, plan: Plan, r: Record, refused: Refusals) {
    q.filterID in remote.filters && q.planKey == plan.key == r.planKey && !refused.filterCheck
  }

  ghost predicate AnotherServes(k: string, s: string, broadcasters: map<string, BroadcasterRow>, dest: string) {
    exists o :: o in broadcasters && o != k && Serves(broadcasters[o], dest, s)
  }

  /** What ensuring does at a faithful remote: from record q at remote a, to record r at remote b. */
  ghost predicate Ensured(ok: bool, refused: Refusals, q: Record, a: RemoteState, r: Record, b: RemoteState, plan: Plan,
                          s: string, dest: string) {
    && Confined(a, b, s, dest) && ConfigsKept(a, b) && ConfigOutcome(q, a, r, b)
    && NewConfigs(a, b, r, refused.configLost)
    && (KeepsBroadcaster(q, a, plan, refused) ==> ok && r == q && b == a)
    && (KeepsFilter(q, a, plan, r, refused) ==> r.filterID == q.filterID)
    && (ForgetsBroadcaster(q, a, plan, refused) ==>
          && q.broadcasterID in b.broadcasters && Serves(b.broadcasters[q.broadcasterID], dest, s)
          && (ok && !refused.broadcasterLost ==> AnotherServes(q.broadcasterID, s, b.broadcasters, dest)))
    && if LeavesStrays(q, a, plan, refused) then
         StrayFilter(r, s, b.filters) || StrayBroadcaster(r, s, b.broadcasters, dest)
       else InStep(r, s, b, dest) && (ok ==> (Provisioned(r, s, b, dest) <==> !KeepsFilterless(q, a, plan, refused)))
  }

  /** From what was refused to what is astray. */
  ghost predicate Troubled(q: Record, a: RemoteState, refused: Refusals) {
    (q.filterID in a.filters && refused.filterCheck) || refused.filterLost
  }

  /** Taking over a plan drops the filter of another one, so trouble can only come to a filter of the same plan. */
  lemma PreparedTrouble(q: Record, a: RemoteState, prepared: Record, b: RemoteState, refused: Refusals)
    requires prepared.filterID == q.filterID || (prepared.filterID == "" && !refused.filterCheck)
    requires prepared.filterID != "" ==> b.filters == a.filters
    requires refused.filterCheck ==> prepared.filterID != ""
    ensures Troubled(prepared, b, refused) <==> Troubled(q, a, refused)
  {}

  /** What provisioning a session without a broadcaster does: from record q at remote a, to record r at remote b. */
  ghost predicate Reprovisioned(ok: bool, refused: Refusals, q: Record, a: RemoteState, made: string, r: Record,
                                b: RemoteState, plan: Plan, s: string, dest: string) {
    && Provisioning(ok, Troubled(q, a, refused), refused.broadcasterLost, a, b, made, r, s, dest)
    && (ok <==> r.broadcasterID != "")
    && ConfigOutcome(q, a, r, b) && NewConfigs(a, b, r, refused.configLost)
    && (KeepsFilter(q, a, plan, r, refused) ==> r.filterID == q.filterID)
  }

  /** Taking over a plan and a configuration led from record q at remote a to this record and remote. */
  ghost predicate PreparedFrom(q: Record, a: RemoteState, prepared: Record, b: RemoteState, s: string, lost: bool) {
    && ConfigOutcome(q, a, prepared, b) && NewConfigs(a, b, prepared, lost) && FilterStep(a, b, s)
    && FilterSide(prepared, s, b) && (prepared.filterID != "" ==> b.filters == a.filters) && "" !in a.filters
  }

  lemma ReprovisionOutcome(ok: bool, refused: Refusals, q: Record, a: RemoteState, prepared: Record, b: RemoteState,
                           made: string, r: Record, c: RemoteState, plan: Plan, s: string, dest: string)
    requires PreparedFrom(q, a, prepared, b, s, refused.configLost) && SameConfig(r, prepared) && c.configs == b.configs
    requires prepared.planKey == plan.key && prepared.filterID == (if q.planKey == plan.key then q.filterID else "")
    requires refused.filterCheck ==> prepared.filterID != ""
    requires Provisioning(ok, Troubled(prepared, b, refused), refused.broadcasterLost, b, c, made, r, s, dest)
    requires ok <==> r.broadcasterID != ""
    requires KeepsFilter(prepared, b, plan, r, refused) ==> r.filterID == prepared.filterID
    ensures Reprovisioned(ok, refused, q, a, made, r, c, plan, s, dest)
  {
    PreparedTrouble(q, a, prepared, b, refused);
    FilterStepThenProvisioning(ok, Troubled(q, a, refused), refused.broadcasterLost, a, b, c, made, r, s, dest);
  }

  /** Without a configuration nothing is provisioned. */
  lemma UnpreparedOutcome(lost: bool, q: Record, a: RemoteState, r: Record, b: RemoteState, plan: Plan, s: string,
                          dest: string)
    requires PreparedFrom(q, a, r, b, s, lost)
    requires r.broadcasterID == "" && r.filterID == (if q.planKey == plan.key then q.filterID else "")
    ensures Reprovisioned(false, NoRefusals.(configLost := lost), q, a, "", r, b, plan, s, dest)
  {}

  lemma OutcomeOwnsConfig(q: Record, a: RemoteState, r: Record, b: RemoteState)
    requires OwnConfig(q, a) && ConfigOutcome(q, a, r, b) && NewIds(a, b)
    ensures OwnConfig(r, b)
  {}

  lemma ForgettingKeepsFilterSide(q: Record, a: RemoteState, r: Record, s: string, dest: string)
    requires InStep(q, s, a, dest) && r == q.(broadcasterID := "", broadcasterHash := r.broadcasterHash)
    ensures FilterSide(r, s, a)
  {}

  lemma KeptIsEnsured(q: Record, a: RemoteState, plan: Plan, s: string, dest: string)
    requires InStep(q, s, a, dest) && q.broadcasterID in a.broadcasters && q.planKey == plan.key
    ensures Ensured(true, NoRefusals, q, a, q, a, plan, s, dest)
  {
    ProvisionedIff(q, s, a, dest);
  }

  lemma ProvisioningEnsures(ok: bool, refused: Refusals, q: Record, a: RemoteState, made: string, r: Record, b: RemoteState,
                            plan: Plan, s: string, dest: string)
    requires SessionId(s) && dest != "" && dest[0] == '/' && Sound(a) && Sound(b) && InStep(q, s, a, dest)
    requires q.broadcasterID in a.broadcasters ==> ForgetsBroadcaster(q, a, plan, refused)
    requires Provisioning(ok, Troubled(q, a, refused), refused.broadcasterLost, a, b, made, r, s, dest)
    requires (ok <==> r.broadcasterID != "") && ConfigOutcome(q, a, r, b) && NewConfigs(a, b, r, refused.configLost)
    requires KeepsFilter(q, a, plan, r, refused) ==> r.filterID == q.filterID
    ensures Ensured(ok, refused, q, a, r, b, plan, s, dest)
  {
    ProvisioningIsConfined(ok, Troubled(q, a, refused), refused.broadcasterLost, a, b, made, r, s, dest);
    if ForgetsBroadcaster(q, a, plan, refused) {
      ProvisioningBesideAnother(ok, Troubled(q, a, refused), refused.broadcasterLost, a, b, made, r, s, dest,
                                q.broadcasterID);
    } else if !LeavesStrays(q, a, plan, refused) {
      OutcomeOwnsConfig(q, a, r, b);
      ProvisioningIsInStep(ok, a, b, made, r, s, dest);
    }
  }

  /** The same, from the record whose broadcaster was just forgotten. */
  lemma RenewedIsEnsured(ok: bool, refused: Refusals, check: bool, q: Record, a: RemoteState, forgotten: Record,
                         made: string, r: Record, b: RemoteState, plan: Plan, s: string, dest: string)
    requires SessionId(s) && dest != "" && dest[0] == '/' && Sound(a) && Sound(b) && InStep(q, s, a, dest)
    requires forgotten == q.(broadcasterID := "", broadcasterHash := forgotten.broadcasterHash)
    requires q.broadcasterID in a.broadcasters ==> check || q.planKey != plan.key
    requires Reprovisioned(ok, refused, forgotten, a, made, r, b, plan, s, dest)
    ensures Ensured(ok, refused.(broadcasterCheck := check), q, a, r, b, plan, s, dest)
  {
    var all := refused.(broadcasterCheck := check);
    assert Troubled(q, a, all) <==> Troubled(forgotten, a, refused);
    ProvisioningEnsures(ok, all, q, a, made, r, b, plan, s, dest);
  }

  // ---------------------------------------------------------------------------------------------
  // Taking down

  /** The broadcaster side of pausing: the tracked broadcaster is gone, or nothing changed. */
  lemma PausedIsInStep(r: Record, q: Record, a: RemoteState, b: RemoteState, s: string, dest: string)
    requires Sound(a) && InStep(q, s, a, dest) && b == a.(broadcasters := a.broadcasters - {q.broadcasterID})
    requires r == q.(broadcasterID := "", broadcasterHash := "", lastOp := r.lastOp)
    ensures InStep(r, s, b, dest) && Confined(a, b, s, dest) && NothingServes(s, b.broadcasters, dest)
  {}

  /** The remote after every delete of a stop has worked. */
  function TornDown(q: Record, a: RemoteState): RemoteState {
    RemoteState(if q.shared then a.configs else a.configs - {q.configID}, a.filters - {q.filterID},
                a.broadcasters - {q.broadcasterID}, a.issued)
  }

  lemma StoppedIsInStep(q: Record, a: RemoteState, s: string, dest: string)
    requires Sound(a) && InStep(q, s, a, dest)
    ensures InStep(EmptyRecord, s, TornDown(q, a), dest) && Confined(a, TornDown(q, a), s, dest)
    ensures NothingServes(s, TornDown(q, a).broadcasters, dest)
  {}

  /** Each kind of row is deleted whenever its own hash is current, whatever the other two are. */
  ghost predicate Teardown(q: Record, a: RemoteState, b: RemoteState) {
    && b.issued == a.issued
    && (b.broadcasters == a.broadcasters || b.broadcasters == TornDown(q, a).broadcasters)
    && (b.filters == a.filters || b.filters == TornDown(q, a).filters)
    && (b.configs == a.configs || b.configs == TornDown(q, a).configs)
    && (Settled(a, DeleteBroadcaster(q.broadcasterID, q.broadcasterHash)) ==> b.broadcasters == TornDown(q, a).broadcasters)
    && (Settled(a, DeleteFilter(q.filterID, q.filterHash)) ==> b.filters == TornDown(q, a).filters)
    && (Settled(a, DeleteConfig(q.configID, q.configHash)) ==> b.configs == TornDown(q, a).configs)
  }

  /** A delete touches one kind of row. */
  lemma DroppedBroadcaster(a: RemoteState, b: RemoteState, id: string, hash: string)
    requires Dropped(a, b, DeleteBroadcaster(id, hash))
    ensures b == a.(broadcasters := b.broadcasters)
    ensures b.broadcasters == a.broadcasters || b.broadcasters == a.broadcasters - {id}
    ensures Settled(a, DeleteBroadcaster(id, hash)) ==> b.broadcasters == a.broadcasters - {id}
  {}

  lemma DroppedFilter(a: RemoteState, b: RemoteState, id: string, hash: string)
    requires Dropped(a, b, DeleteFilter(id, hash))
    ensures b == a.(filters := b.filters) && (b.filters == a.filters || b.filters == a.filters - {id})
    ensures Settled(a, DeleteFilter(id, hash)) ==> b.filters == a.filters - {id}
  {}

  lemma DroppedConfig(a: RemoteState, b: RemoteState, id: string, hash: string)
    requires Dropped(a, b, DeleteConfig(id, hash))
    ensures b == a.(configs := b.configs) && (b.configs == a.configs || b.configs == a.configs - {id})
    ensures Settled(a, DeleteConfig(id, hash)) ==> b.configs == a.configs - {id}
  {}

  /** The three deletes one after the other; a configuration that was found is not deleted. */
  lemma DropsTearDown(q: Record, a: RemoteState, b: RemoteState, c: RemoteState, d: RemoteState)
    requires Dropped(a, b, DeleteBroadcaster(q.broadcasterID, q.broadcasterHash))
    requires Dropped(b, c, DeleteFilter(q.filterID, q.filterHash))
    requires if q.shared then d == c else Dropped(c, d, DeleteConfig(q.configID, q.configHash))
    ensures Teardown(q, a, d)
  {
    DroppedBroadcaster(a, b, q.broadcasterID, q.broadcasterHash);
    DroppedFilter(b, c, q.filterID, q.filterHash);
    if !q.shared { DroppedConfig(c, d, q.configID, q.configHash); }
  }

  lemma NothingToTearDown(a: RemoteState)
    requires Sound(a)
    ensures Teardown(EmptyRecord, a, a)
  {
    assert a.configs - {""} == a.configs && a.filters - {""} == a.filters && a.broadcasters - {""} == a.broadcasters;
  }

  /** A session in step quotes current hashes, that of the configuration it owns included. */
  lemma InStepTearsDown(q: Record, a: RemoteState, b: RemoteState, s: string, dest: string)
    requires Sound(a) && InStep(q, s, a, dest) && Teardown(q, a, b)
    ensures b == TornDown(q, a)
  {}

  /** What stopping asks for: every tracked resource is deleted once, but never a configuration that was found. */
  function StopRequests(r: Record): seq<Request> {
    (if r.broadcasterID != "" then [DeleteBroadcaster(r.broadcasterID, r.broadcasterHash)] else []) +
    (if r.filterID != "" then [DeleteFilter(r.filterID, r.filterHash)] else []) +
    (if r.configID != "" && !r.shared then [DeleteConfig(r.configID, r.configHash)] else [])
  }

  // ---------------------------------------------------------------------------------------------
  // All sessions together

  function RecordOf(view: map<string, Record>, s: string): Record { if s in view then view[s] else EmptyRecord }

  /** No configuration is owned by two sessions. */
  ghost predicate OwnersApart(view: map<string, Record>) {
    forall s, t :: s in view && t in view && s != t && Owns(view[s]) && Owns(view[t]) ==>
      view[s].configID != view[t].configID
  }

  /** Every configuration at the remote is owned by a session, or foreign: it was not created by this client. */
  ghost predicate Accounted(view: map<string, Record>, remote: RemoteState, foreign: set<string>) {
    && foreign <= remote.issued
    && forall c :: c in remote.configs && c !in foreign ==> exists s :: OwnedBy(view, s, c)
  }

  ghost predicate OwnedBy(view: map<string, Record>, s: string, c: string) {
    s in view && Owns(view[s]) && view[s].configID == c
  }

  /**
   Nothing is at the remote that no record accounts for: each session is in step, no broadcaster serves two, and each
   configuration is foreign or owned by one session.
   */
  ghost predicate AllInStep(view: map<string, Record>, remote: RemoteState, foreign: set<string>, dest: string) {
    && Apart(remote.broadcasters, dest) && OwnersApart(view) && Accounted(view, remote, foreign)
    && (forall s :: s in view ==> SessionId(s))
    && forall s :: SessionId(s) ==> InStep(RecordOf(view, s), s, remote, dest)
  }

  lemma OwnersStayApart(v: map<string, Record>, s: string, r: Record, issued: set<string>)
    requires OwnersApart(v) && forall t :: t in v && Owns(v[t]) ==> v[t].configID in issued
    requires Owns(r) ==> r.configID !in issued || (s in v && Owns(v[s]) && r.configID == v[s].configID)
    ensures OwnersApart(v[s := r])
  {}

  lemma OwnedAreIssued(v: map<string, Record>, remote: RemoteState, foreign: set<string>, dest: string)
    requires AllInStep(v, remote, foreign, dest)
    ensures forall t :: t in v && Owns(v[t]) ==> v[t].configID in remote.issued
  {
    forall t | t in v && Owns(v[t]) ensures v[t].configID in remote.issued {
      assert InStep(RecordOf(v, t), t, remote, dest);
    }
  }

  /** A change confined to one session that keeps that session in step keeps all of them in step. */
  lemma AllStayInStep(v: map<string, Record>, v': map<string, Record>, a: RemoteState, b: RemoteState,
                      foreign: set<string>, s: string, dest: string)
    requires SessionId(s) && (dest != "" ==> dest[0] == '/')
    requires AllInStep(v, a, foreign, dest) && Confined(a, b, s, dest) && Sound(b)
    requires forall t :: t != s ==> (t in v' <==> t in v) && RecordOf(v', t) == RecordOf(v, t)
    requires InStep(RecordOf(v', s), s, b, dest) && OwnersApart(v') && Accounted(v', b, foreign)
    ensures AllInStep(v', b, foreign, dest)
  {
    ConfinedKeepsApart(a, b, s, dest);
    forall t | SessionId(t) ensures InStep(RecordOf(v', t), t, b, dest) {
      if t != s { ConfinedKeepsOthers(a, b, s, t, RecordOf(v, t), dest); }
    }
  }

  /** A new configuration that is owned stays accounted for ... */
  lemma NewConfigsAccounted(v: map<string, Record>, a: RemoteState, r: Record, b: RemoteState, foreign: set<string>,
                            s: string)
    requires Accounted(v, a, foreign) && a.issued <= b.issued && NewConfigs(a, b, r, false)
    requires ConfigOutcome(RecordOf(v, s), a, r, b)
    ensures Accounted(v[s := r], b, foreign)
  {
    var v' := v[s := r];
    forall c | c in b.configs && c !in foreign ensures exists t :: OwnedBy(v', t, c) {
      if c in a.configs {
        var t :| OwnedBy(v, t, c);
        assert OwnedBy(v', t, c);
      } else {
        assert OwnedBy(v', s, c);
      }
    }
  }

  /** ... and one that was lost is not. */
  lemma LostConfigIsUnaccounted(v: map<string, Record>, a: RemoteState, r: Record, b: RemoteState, foreign: set<string>,
                                s: string, dest: string)
    requires AllInStep(v, a, foreign, dest) && NewConfigs(a, b, r, true)
    ensures !Accounted(v[s := r], b, foreign)
  {
    OwnedAreIssued(v, a, foreign, dest);
    var v' := v[s := r];
    var c :| c in b.configs && c !in a.issued && !(Owns(r) && r.configID == c);
    assert forall t :: !OwnedBy(v', t, c);
  }

  /** Ensuring keeps everything accounted for if and only if it orphans nothing. */
  lemma EnsuredKeepsAllInStep(ok: bool, refused: Refusals, v: map<string, Record>, a: RemoteState, r: Record,
                              b: RemoteState, foreign: set<string>, plan: Plan, s: string, dest: string)
    requires SessionId(s) && dest != "" && dest[0] == '/' && AllInStep(v, a, foreign, dest) && Sound(b)
    requires Ensured(ok, refused, RecordOf(v, s), a, r, b, plan, s, dest)
    ensures AllInStep(v[s := r], b, foreign, dest) <==> !Orphans(RecordOf(v, s), a, plan, refused)
  {
    if refused.configLost {
      LostConfigIsUnaccounted(v, a, r, b, foreign, s, dest);
    } else if LeavesStrays(RecordOf(v, s), a, plan, refused) {
      StraysAreOutOfStep(r, s, b, dest);
      assert RecordOf(v[s := r], s) == r;
    } else {
      OwnedAreIssued(v, a, foreign, dest);
      OwnersStayApart(v, s, r, a.issued);
      NewConfigsAccounted(v, a, r, b, foreign, s);
      AllStayInStep(v, v[s := r], a, b, foreign, s, dest);
    }
  }

  lemma OthersStayAccounted(v: map<string, Record>, v': map<string, Record>, a: RemoteState, b: RemoteState,
                            foreign: set<string>, s: string)
    requires Accounted(v, a, foreign) && a.issued <= b.issued && b.configs.Keys <= a.configs.Keys
    requires forall t :: t != s && t in v ==> t in v' && v'[t] == v[t]
    requires forall c :: OwnedBy(v, s, c) && c in b.configs ==> OwnedBy(v', s, c)
    ensures Accounted(v', b, foreign)
  {
    forall c | c in b.configs && c !in foreign ensures exists t :: OwnedBy(v', t, c) {
      var t :| OwnedBy(v, t, c);
      assert OwnedBy(v', t, c);
    }
  }

  /** Stopping a session leaves nothing of it at the remote, and every other session in step. */
  lemma StopKeepsAllInStep(v: map<string, Record>, a: RemoteState, b: RemoteState, foreign: set<string>, s: string,
                           dest: string)
    requires SessionId(s) && dest != "" && dest[0] == '/' && Sound(a) && Sound(b) && AllInStep(v, a, foreign, dest)
    requires Teardown(RecordOf(v, s), a, b)
    ensures AllInStep(v - {s}, b, foreign, dest) && NothingServes(s, b.broadcasters, dest)
    ensures forall f :: f in b.filters ==> !NamedFor(b.filters[f], s)
    ensures Owns(RecordOf(v, s)) ==> RecordOf(v, s).configID !in b.configs
  {
    var q := RecordOf(v, s);
    assert InStep(q, s, a, dest);
    InStepTearsDown(q, a, b, s, dest);
    StoppedIsInStep(q, a, s, dest);
    OthersStayAccounted(v, v - {s}, a, b, foreign, s);
    AllStayInStep(v, v - {s}, a, b, foreign, s, dest);
  }

  /**
   A stop takes away a configuration that another session tracks exactly if it is the one the stopping session
   created; the other then had found it, and is left with a configuration that is gone.
   */
  lemma StopTakesConfigIff(v: map<string, Record>, a: RemoteState, b: RemoteState, foreign: set<string>, s: string,
                           t: string, dest: string)
    requires SessionId(s) && SessionId(t) && s != t && Sound(a) && AllInStep(v, a, foreign, dest)
    requires Teardown(RecordOf(v, s), a, b) && RecordOf(v, t).configID in a.configs
    ensures RecordOf(v, t).configID !in b.configs <==>
            Owns(RecordOf(v, s)) && RecordOf(v, s).configID == RecordOf(v, t).configID
    ensures RecordOf(v, t).configID !in b.configs ==> RecordOf(v, t).shared
  {
    assert InStep(RecordOf(v, s), s, a, dest);
    InStepTearsDown(RecordOf(v, s), a, b, s, dest);
  }

  /** Pausing that works leaves nothing serving the session, its filter in place, and all sessions in step. */
  lemma PauseKeepsAllInStep(v: map<string, Record>, a: RemoteState, r: Record, b: RemoteState, foreign: set<string>,
                            s: string, dest: string)
    requires SessionId(s) && dest != "" && dest[0] == '/' && Sound(a) && Sound(b) && AllInStep(v, a, foreign, dest)
    requires s in v && b == a.(broadcasters := a.broadcasters - {v[s].broadcasterID})
    requires r == v[s].(broadcasterID := "", broadcasterHash := "", lastOp := r.lastOp)
    ensures AllInStep(v[s := r], b, foreign, dest) && NothingServes(s, b.broadcasters, dest)
  {
    assert InStep(RecordOf(v, s), s, a, dest);
    PausedIsInStep(r, v[s], a, b, s, dest);
    OthersStayAccounted(v, v[s := r], a, b, foreign, s);
    AllStayInStep(v, v[s := r], a, b, foreign, s, dest);
  }

  /** b is a with some rows gone. */
  ghost predicate Fewer(a: RemoteState, b: RemoteState) {
    && a.issued == b.issued
    && (forall c :: c in b.configs ==> c in a.configs && b.configs[c] == a.configs[c])
    && (forall f :: f in b.filters ==> f in a.filters && b.filters[f] == a.filters[f])
    && (forall k :: k in b.broadcasters ==> k in a.broadcasters && b.broadcasters[k] == a.broadcasters[k])
  }

  /** Whatever rows the remote loses, the records stay in step. */
  lemma LossKeepsInStep(v: map<string, Record>, a: RemoteState, b: RemoteState, foreign: set<string>, dest: string)
    requires AllInStep(v, a, foreign, dest) && Fewer(a, b)
    ensures AllInStep(v, b, foreign, dest)
  {
    forall s | SessionId(s) ensures InStep(RecordOf(v, s), s, b, dest) {
      assert InStep(RecordOf(v, s), s, a, dest);
    }
  }

  /**
   The next ensure for the same plan repairs a loss exactly if it took the broadcaster: while that is listed, the call
   succeeds and changes nothing, even if the filter is gone and nothing is delivered.
   */
  lemma RepairedIff(refused: Refusals, q: Record, a: RemoteState, r: Record, b: RemoteState, plan: Plan, s: string,
                    dest: string)
    requires Ensured(true, refused, q, a, r, b, plan, s, dest) && !LeavesStrays(q, a, plan, refused)
    ensures Provisioned(r, s, b, dest) <==> !Filterless(q, a)
    ensures Filterless(q, a) ==> r == q && b == a
  {}

  // ---------------------------------------------------------------------------------------------
  // Which sessions have a broadcaster

  ghost function Tracked(view: map<string, Record>): set<string> {
    set s | s in view && view[s].broadcasterID != ""
  }

  /**
   The sessions tracked after an ensure: a plan that cannot be provisioned is refused untouched; otherwise the
   session is tracked exactly if the call succeeds.
   */
  ghost function EnsureTracks(ok: bool, planOk: bool, s: string, before: set<string>): set<string> {
    if !planOk then before else if ok then before + {s} else before - {s}
  }

  ghost function PauseTracks(ok: bool, s: string, before: set<string>): set<string> {
    if ok then before - {s} else before
  }

  lemma TrackedUpdate(v: map<string, Record>, s: string, r: Record)
    ensures Tracked(v[s := r]) == if r.broadcasterID != "" then Tracked(v) + {s} else Tracked(v) - {s}
  {}
}

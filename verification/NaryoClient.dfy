/**
 The Configuration API client of internal/naryo/http_client.go. Each method runs under the client's lock, so a
 call is one step; how often a list is polled again after a creation is not modelled.
 */
module NaryoClient {
  import opened Collections
  import opened Strings
  import opened NaryoPlan
  import opened NaryoRemote
  import opened NaryoLists
  import opened NaryoSync
  import opened NaryoRuns

  /** Requests that take nothing down but filters. */
  ghost predicate Discreet(before: seq<Request>, after: seq<Request>) {
    && before <= after
    && forall i :: |before| <= i < |after| ==> !after[i].DeleteBroadcaster? && !after[i].DeleteConfig?
  }

  /** Among the new requests is one for a broadcaster to a filter. */
  ghost predicate AskedForFilterBroadcaster(before: seq<Request>, after: seq<Request>) {
    exists i :: |before| <= i < |after| && after[i].PostBroadcaster? && after[i].target.Filter?
  }

  lemma AskedSince(before: seq<Request>, mid: seq<Request>, after: seq<Request>)
    requires before <= mid <= after
    ensures AskedForFilterBroadcaster(before, after) <==>
            AskedForFilterBroadcaster(before, mid) || AskedForFilterBroadcaster(mid, after)
  {
    if AskedForFilterBroadcaster(before, mid) {
      var i :| |before| <= i < |mid| && mid[i].PostBroadcaster? && mid[i].target.Filter?;
      assert after[i] == mid[i];
    }
  }

  /** A failure with a revision-hook error was reported by the remote. */
  ghost predicate Blamed(failure: Failure, before: nat, after: nat) {
    after >= before && (IsHookFailure(failure) ==> after > before)
  }

  ghost predicate BlamedIfFailed<T>(r: Answer<T>, before: nat, after: nat) {
    after >= before && (r.Failed? ==> Blamed(r.failure, before, after))
  }

  /** The record a call works on, updated in place by every step of the call. */
  class SessionState {
    var rec: Record

    constructor (rec: Record)
      ensures this.rec == rec
    {
      this.rec := rec;
    }
  }

  class HttpClient {
    const ingest: string
    const dest: string
    const fixedConfig: string
    const skip: bool
    const settings: Settings
    const remote: Remote
    var sess: map<string, Record>
    var ensureOK: int
    var pauseOK: int
    var resumeOK: int
    var stopOK: int
    var healthy: bool

    constructor (remote: Remote, ingest: string, dest: string, fixedConfig: string, skip: bool, settings: Settings)
      ensures this.remote == remote && this.skip == skip && this.settings == settings
      ensures this.fixedConfig == TrimSpace(fixedConfig) && this.ingest == DropSlashes(ingest)
      ensures var d := if TrimSpace(dest) == "" then "/internal/naryo/v1/events" else TrimSpace(dest);
              this.dest == if d[0] == '/' then d else "/" + d
      ensures sess == map[] && healthy
      ensures ensureOK == 0 && pauseOK == 0 && resumeOK == 0 && stopOK == 0
    {
      this.remote, this.skip, this.settings := remote, skip, settings;
      this.fixedConfig, this.ingest := TrimSpace(fixedConfig), DropSlashes(ingest);
      var d := TrimSpace(dest);
      if d == "" {
        d := "/internal/naryo/v1/events";
      }
      if d[0] != '/' {
        d := "/" + d;
      }
      this.dest := d;
      sess := map[];
      ensureOK, pauseOK, resumeOK, stopOK, healthy := 0, 0, 0, 0, true;
    }

    /** The remote is faithful and s is an id as the service creates them. */
    ghost predicate InPlay(s: string) { remote.faithful && SessionId(s) && dest != "" && dest[0] == '/' }

    /** The answers since then: if none of them was a failure or got lost at a faithful remote, the call is a success. */
    ghost predicate Smooth(before: nat, ok: bool) reads remote {
      remote.complaints >= before && (remote.faithful && remote.complaints == before ==> ok)
    }

    /** There is a configuration to use or one can be created. */
    ghost predicate CanHaveConfig(r: Record, configs: map<string, ConfigRow>) {
      r.configID != "" || fixedConfig == "" || fixedConfig in configs
    }

    /** Submits a request and waits until the operation is decided. lost: it took effect, but this was not learnt. */
    method Perform(q: Request)
      returns (r: Answer<string>, accepted: bool, ghost lost: bool, ghost id: string, ghost hash: string)
      requires remote.Valid()
      modifies remote
      ensures remote.Valid() && remote.requests == old(remote.requests) + [q]
      ensures BlamedIfFailed(r, old(remote.hookFailures), remote.hookFailures)
      ensures r.Ok? ==> accepted && r.value != "" && remote.granted == old(remote.granted) + [Some(r.value)]
      ensures remote.failedWaits == old(remote.failedWaits) + (if accepted && r.Failed? then 1 else 0)
      ensures remote.refusals == old(remote.refusals) + (if lost then 1 else 0)
      ensures lost ==> r.Failed?
      ensures remote.faithful ==>
                if r.Ok? || lost then
                  Fresh(old(remote.state), q, id, hash) && remote.state == Apply(old(remote.state), q, id, hash)
                else remote.state == old(remote.state) && !CurrentDelete(old(remote.state), q)
      ensures Smooth(old(remote.complaints), r.Ok?)
    {
      var op;
      op, lost, id, hash := remote.Submit(q);
      if op.Failed? {
        return op, false, lost, id, hash;
      }
      var done;
      done, lost := remote.Wait(op.value);
      return if done.Ok? then op else Failed(done.failure), true, lost, id, hash;
    }

    /** A delete whose answer nobody looks at; at a faithful remote it works when it quotes the current hash. */
    method Drop(q: Request)
      requires remote.Valid()
      modifies remote
      ensures remote.Valid() && Onward(old(remote.hookFailures), old(remote.failedWaits), old(remote.refusals))
      ensures remote.requests == old(remote.requests) + [q]
      ensures remote.faithful && (q.DeleteConfig? || q.DeleteFilter? || q.DeleteBroadcaster?) ==>
                Dropped(old(remote.state), remote.state, q)
      ensures Smooth(old(remote.complaints), true)
    {
      ghost var was := remote.state;
      var r, _, lost, _, _ := Perform(q);
      if remote.faithful && Settled(was, q) && r.Failed? && !lost {
        SettledDelete(was, q);
      }
    }

    /** The counters of what went wrong only grow. */
    ghost predicate Onward(hooks: nat, waits: nat, lists: nat) reads remote {
      remote.hookFailures >= hooks && remote.failedWaits >= waits && remote.refusals >= lists
    }

    /** Deletes a resource that is tracked with a hash; skips it otherwise. */
    method DropTracked(q: Request)
      requires remote.Valid() && (q.DeleteConfig? || q.DeleteFilter? || q.DeleteBroadcaster?)
      requires q.id != "" ==> q.hash != ""
      modifies remote
      ensures remote.Valid() && remote.hookFailures >= old(remote.hookFailures)
      ensures remote.requests == old(remote.requests) + if q.id != "" then [q] else []
      ensures remote.faithful ==> Dropped(old(remote.state), remote.state, q)
    {
      if q.id != "" && q.hash != "" {
        Drop(q);
      } else if remote.faithful && Settled(remote.state, q) {
        SettledDelete(remote.state, q);
      }
    }

    // -------------------------------------------------------------------------------------------
    // Configurations

    /** Uses an existing configuration that posts to the same place; whoever created it keeps it. */
    method AttachExistingConfig(st: SessionState) returns (r: Answer<()>)
      requires remote.Valid()
      modifies st, remote`hookFailures, remote`refusals, remote`complaints
      ensures remote.Valid() && remote.refusals >= old(remote.refusals)
      ensures BlamedIfFailed(r, old(remote.hookFailures), remote.hookFailures)
      ensures r.Failed? ==> st.rec == old(st.rec)
      ensures r.Ok? ==>
                && st.rec.configID != "" && st.rec.configHash != ""
                && st.rec == old(st.rec).(configID := st.rec.configID, configHash := st.rec.configHash, shared := true)
      ensures remote.faithful && r.Ok? ==> st.rec.configID in remote.state.configs
      ensures remote.faithful && r.Failed? && remote.refusals == old(remote.refusals) ==> NothingToShare()
      ensures Smooth(old(remote.complaints), true)
    {
      var rows := remote.ListConfigs();
      if rows.Failed? {
        return Failed(rows.failure);
      }
      var found := ConfigFor(rows.value, ingest);
      if found.None? {
        forall c | remote.faithful && c in remote.state.configs ensures !Reusable((c, remote.state.configs[c]), ingest) {
          var i :| 0 <= i < |rows.value| && rows.value[i].0 == c;
          assert rows.value[i] == (c, remote.state.configs[c]);
        }
        return Failed(NotListed);
      }
      st.rec := st.rec.(configID := found.value.id, configHash := found.value.hash, shared := true);
      return Ok(());
    }

    /** No existing configuration posts to this client's ingest URL. */
    ghost predicate NothingToShare() reads remote {
      forall c :: c in remote.state.configs ==> !Reusable((c, remote.state.configs[c]), ingest)
    }

    method GetConfigHash(id: string) returns (r: Answer<string>)
      requires remote.Valid()
      modifies remote`hookFailures, remote`refusals, remote`complaints
      ensures remote.Valid() && remote.refusals >= old(remote.refusals)
      ensures BlamedIfFailed(r, old(remote.hookFailures), remote.hookFailures)
      ensures r.Ok? ==> r.value != ""
      ensures remote.faithful ==> (r.Ok? <==> id in remote.state.configs && remote.refusals == old(remote.refusals))
      ensures remote.faithful && r.Ok? ==> r.value == remote.state.configs[id].hash
      ensures Smooth(old(remote.complaints), id in remote.state.configs ==> r.Ok?)
    {
      var rows := remote.ListConfigs();
      if rows.Failed? {
        return Failed(rows.failure);
      }
      r := ConfigHash(rows.value, id);
      if Listed(rows.value, id) { FirstWithId(rows.value, id); }
    }

    /**
     Shares a fixed configuration, or creates one, or shares one that the remote could not re-create. lost: a
     configuration was created and this client does not own it, because an answer or the list that would have shown it
     did not arrive.
     */
    method CreateConfig(st: SessionState) returns (r: Answer<()>, ghost lost: bool)
      requires remote.Valid() && !st.rec.shared
      modifies st, remote
      ensures remote.Valid() && remote.refusals >= old(remote.refusals)
      ensures lost ==> remote.refusals > old(remote.refusals)
      ensures BlamedIfFailed(r, old(remote.hookFailures), remote.hookFailures)
      ensures Discreet(old(remote.requests), remote.requests)
      ensures r.Failed? ==> st.rec == old(st.rec)
      ensures r.Ok? ==>
                && st.rec.configID != "" && st.rec.configHash != ""
                && st.rec == old(st.rec).(configID := st.rec.configID, configHash := st.rec.configHash,
                                          lastOp := st.rec.lastOp, shared := st.rec.shared)
      ensures if fixedConfig != "" then
                remote.requests == old(remote.requests) && (r.Ok? ==> st.rec.shared && st.rec.configID == fixedConfig)
              else
                && |remote.requests| == |old(remote.requests)| + 1
                && remote.requests[|old(remote.requests)|].PostConfig?
                && remote.requests[|old(remote.requests)|].url == ingest
                && (r.Ok? ==> (st.rec.shared <==> remote.failedWaits > old(remote.failedWaits)))
      ensures r.Ok? ==> if st.rec.shared then st.rec.lastOp == old(st.rec.lastOp)
                        else remote.granted == old(remote.granted) + [Some(st.rec.lastOp)]
      ensures remote.faithful && remote.refusals == old(remote.refusals) && fixedConfig == "" && r.Failed? ==>
                (remote.failedWaits > old(remote.failedWaits) && r.failure.Remote? && r.failure.npe ==> NothingToShare())
      ensures remote.faithful ==>
                var was, now := old(remote.state), remote.state;
                if now == was then !lost && (r.Ok? ==> st.rec.shared && st.rec.configID in was.configs)
                else
                  exists id, hash :: NewConfig(was, now, id, hash) &&
                    if lost then r.Ok? ==> st.rec.shared && st.rec.configID in now.configs
                    else r.Ok? && !st.rec.shared && st.rec.configID == id && st.rec.configHash == hash
      ensures Smooth(old(remote.complaints), fixedConfig == "" || fixedConfig in old(remote.state).configs ==> r.Ok?)
    {
      lost := false;
      if fixedConfig != "" {
        var hash := GetConfigHash(fixedConfig);
        if hash.Failed? {
          return Failed(hash.failure), lost;
        }
        st.rec := st.rec.(configID := fixedConfig, configHash := hash.value, shared := true);
        return Ok(()), lost;
      }
      var id := NewUUID();
      var op, accepted, unseen, given, made := Perform(PostConfig(id, ingest));
      lost := unseen;
      assert remote.faithful && (op.Ok? || lost) ==> NewConfig(old(remote.state), remote.state, id, made);
      if op.Failed? {
        if accepted && IsConfigNPE(op.failure) {
          var attached := AttachExistingConfig(st);
          if attached.Ok? {
            return Ok(()), lost;
          }
        }
        return Failed(op.failure), lost;
      }
      ghost var lists := remote.refusals;
      var hash := GetConfigHash(id);
      lost := remote.refusals > lists;
      assert remote.faithful ==> NewConfig(old(remote.state), remote.state, id, made);
      if hash.Failed? {
        return Failed(hash.failure), lost;
      }
      st.rec := st.rec.(configID := id, configHash := hash.value, lastOp := op.value);
      return Ok(()), lost;
    }

    /** The remote got one configuration more, posting to this client's ingest URL. */
    ghost predicate NewConfig(a: RemoteState, b: RemoteState, id: string, hash: string) {
      id !in a.issued && b == Apply(a, PostConfig(id, ingest), "", hash)
    }

    method NewUUID() returns (id: string)
      ensures id != ""
    {
      id := *;
      if id == "" {
        id := "0";
      }
    }

    // -------------------------------------------------------------------------------------------
    // Filters

    /** Deletes the tracked filter and forgets it, whatever the remote says. */
    method DropFilter(st: SessionState)
      requires remote.Valid()
      modifies st, remote
      ensures remote.Valid() && Onward(old(remote.hookFailures), old(remote.failedWaits), old(remote.refusals))
      ensures remote.faithful ==>
                remote.state.configs == old(remote.state).configs && remote.state.issued == old(remote.state).issued
      ensures remote.requests == old(remote.requests) + [DeleteFilter(old(st.rec.filterID), old(st.rec.filterHash))]
      ensures st.rec == old(st.rec).(filterID := "", filterHash := "")
      ensures var was := old(remote.state);
              remote.faithful && Settled(was, DeleteFilter(old(st.rec.filterID), old(st.rec.filterHash))) ==>
                remote.state == was.(filters := was.filters - {old(st.rec.filterID)})
      ensures Smooth(old(remote.complaints), true)
    {
      Drop(DeleteFilter(st.rec.filterID, st.rec.filterHash));
      st.rec := st.rec.(filterID := "", filterHash := "");
    }

    method FilterExists(id: string) returns (found: bool, ghost refused: bool)
      requires remote.Valid()
      modifies remote`hookFailures, remote`refusals, remote`complaints
      ensures remote.Valid() && remote.hookFailures >= old(remote.hookFailures)
      ensures remote.refusals == old(remote.refusals) + (if refused then 1 else 0)
      ensures found ==> !refused
      ensures remote.faithful ==> (found <==> !refused && id in remote.state.filters)
      ensures Smooth(old(remote.complaints), !refused)
    {
      var rows := remote.ListFilters();
      if rows.Failed? {
        return false, true;
      }
      found := HasId(rows.value, id);
      refused := false;
    }

    method FindFilter(name: string) returns (r: Answer<Ref>, ghost refused: bool)
      requires remote.Valid()
      modifies remote`hookFailures, remote`refusals, remote`complaints
      ensures remote.Valid()
      ensures BlamedIfFailed(r, old(remote.hookFailures), remote.hookFailures)
      ensures remote.refusals == old(remote.refusals) + (if refused then 1 else 0)
      ensures refused ==> r.Failed?
      ensures r.Ok? ==> r.value.id != "" && r.value.hash != ""
      ensures var filters := remote.state.filters;
              remote.faithful && !refused ==>
                if r.Ok? then
                  && r.value.id in filters && filters[r.value.id].hash == r.value.hash
                  && TrimSpace(filters[r.value.id].name) == name
                else forall f :: f in filters ==> TrimSpace(filters[f].name) != name
      ensures Smooth(old(remote.complaints), !refused)
    {
      var rows := remote.ListFilters();
      if rows.Failed? {
        return Failed(rows.failure), true;
      }
      refused := false;
      var found := FilterNamed(rows.value, name);
      if found.Some? {
        return Ok(found.value), refused;
      }
      forall f | remote.faithful && f in remote.state.filters ensures TrimSpace(remote.state.filters[f].name) != name {
        var i :| 0 <= i < |rows.value| && rows.value[i].0 == f;
        assert !IsNamed(rows.value[i], name);
      }
      return Failed(NotListed), refused;
    }

    /**
     Creates the session's filter and looks it up by name. waitFailed: it was the operation that failed. lost: a
     filter was created, but an answer or the list that would have shown it did not arrive. made: its id.
     */
    method CreateFilter(st: SessionState, s: string, plan: Plan)
      returns (r: Answer<()>, waitFailed: bool, ghost lost: bool, ghost made: string, ghost hash: string)
      requires remote.Valid() && Scoped(plan)
      modifies st, remote
      ensures remote.Valid()
      ensures BlamedIfFailed(r, old(remote.hookFailures), remote.hookFailures)
      ensures remote.requests == old(remote.requests) +
              [if plan.topic != "" then PostFilter("pf-" + s + "-hcs", plan.topic, "")
               else PostFilter("pf-" + s + "-evm", "", plan.contract)]
      ensures waitFailed <==> remote.failedWaits > old(remote.failedWaits)
      ensures remote.refusals >= old(remote.refusals) && (lost ==> remote.refusals > old(remote.refusals))
      ensures remote.faithful ==> remote.state.configs == old(remote.state).configs
      ensures waitFailed || lost ==> r.Failed?
      ensures r.Failed? ==> st.rec == old(st.rec)
      ensures r.Ok? ==> remote.granted == old(remote.granted) + [Some(st.rec.lastOp)]
      ensures r.Ok? ==>
                && st.rec.filterID != "" && st.rec.filterHash != ""
                && st.rec == old(st.rec).(filterID := st.rec.filterID, filterHash := st.rec.filterHash,
                                          lastOp := st.rec.lastOp)
      ensures remote.faithful ==>
                if r.Failed? && !lost then remote.state == old(remote.state)
                else
                  && made != "" && made !in old(remote.state).issued
                  && remote.state == Apply(old(remote.state), FilterRequest(s, plan), made, hash)
                  && (r.Ok? ==>
                        && st.rec.filterID in remote.state.filters
                        && NamedFor(remote.state.filters[st.rec.filterID], s)
                        && remote.state.filters[st.rec.filterID].hash == st.rec.filterHash)
      ensures Smooth(old(remote.complaints), r.Ok?)
    {
      var op, accepted;
      FilterNameIsPlain(s, plan);
      op, accepted, lost, made, hash := Perform(FilterRequest(s, plan));
      if op.Failed? {
        return Failed(op.failure), accepted, lost, made, hash;
      }
      var found;
      found, lost := FindFilter(FilterName(s, plan));
      if remote.faithful {
        assert remote.state == Apply(old(remote.state), FilterRequest(s, plan), made, hash);
        assert TrimSpace(remote.state.filters[made].name) == FilterName(s, plan);
      }
      if found.Failed? {
        return Failed(found.failure), false, lost, made, hash;
      }
      st.rec := st.rec.(filterID := found.value.id, filterHash := found.value.hash, lastOp := op.value);
      return Ok(()), false, lost, made, hash;
    }

    // -------------------------------------------------------------------------------------------
    // Broadcasters

    /** The last request was for a broadcaster, was made after the given number of others, and was accepted as op. */
    ghost predicate Posted(before: nat, op: string) reads remote {
      && |remote.granted| == |remote.requests| > before
      && remote.requests[|remote.requests| - 1].PostBroadcaster?
      && remote.granted[|remote.requests| - 1] == Some(op)
    }

    method BroadcasterExists(id: string) returns (found: bool, ghost refused: bool)
      requires remote.Valid()
      modifies remote`hookFailures, remote`refusals, remote`complaints
      ensures remote.Valid() && remote.hookFailures >= old(remote.hookFailures)
      ensures remote.refusals == old(remote.refusals) + (if refused then 1 else 0)
      ensures found ==> !refused
      ensures remote.faithful ==> (found <==> !refused && id in remote.state.broadcasters)
      ensures Smooth(old(remote.complaints), !refused)
    {
      var rows := remote.ListBroadcasters();
      if rows.Failed? {
        return false, true;
      }
      found := HasId(rows.value, id);
      refused := false;
    }

    /** The hash the list gave, or else the one the broadcaster itself reports. */
    method HashOf(b: Ref) returns (r: Answer<string>)
      requires remote.Valid()
      modifies remote`hookFailures, remote`complaints
      ensures remote.Valid()
      ensures BlamedIfFailed(r, old(remote.hookFailures), remote.hookFailures)
      ensures r.Ok? ==> r.value != ""
      ensures b.hash != "" ==> r == Ok(b.hash)
      ensures Smooth(old(remote.complaints), true)
    {
      if b.hash != "" {
        return Ok(b.hash);
      }
      if TrimSpace(b.id) == "" {
        return Failed(Incomplete);
      }
      var h := remote.GetBroadcasterHash(TrimSpace(b.id));
      if h.Ok? && TrimSpace(h.value) == "" {
        return Failed(Incomplete);
      }
      return h;
    }

    method FindBroadcaster(configID: string, target: Target, path: string) returns (r: Answer<Ref>, ghost refused: bool)
      requires remote.Valid()
      modifies remote`hookFailures, remote`refusals, remote`complaints
      ensures remote.Valid()
      ensures BlamedIfFailed(r, old(remote.hookFailures), remote.hookFailures)
      ensures remote.refusals == old(remote.refusals) + (if refused then 1 else 0)
      ensures refused ==> r.Failed?
      ensures r.Ok? ==> r.value.id != ""
      ensures var rows := remote.state.broadcasters;
              remote.faithful && !refused ==>
                if r.Ok? then
                  && r.value.id in rows && rows[r.value.id].hash == r.value.hash
                  && rows[r.value.id].target == target && DestinationsInclude(rows[r.value.id].dests, path)
                else forall b :: b in rows ==> !(rows[b].target == target && DestinationsInclude(rows[b].dests, path))
      ensures Smooth(old(remote.complaints), !refused)
    {
      var rows := remote.ListBroadcasters();
      if rows.Failed? {
        return Failed(rows.failure), true;
      }
      refused := false;
      var found := BestBroadcaster(rows.value, TrimSpace(configID), target, path);
      if found.Some? {
        return Ok(found.value), refused;
      }
      ghost var all := remote.state.broadcasters;
      forall b | remote.faithful && b in all
        ensures !(all[b].target == target && DestinationsInclude(all[b].dests, path))
      {
        var i :| 0 <= i < |rows.value| && rows.value[i].0 == b;
        assert !Suits(rows.value[i], target, path);
      }
      return Failed(NotListed), refused;
    }

    /** Posts a broadcaster to the session's destination and looks it up. lost: it was created, but this was not learnt. */
    method PostAndFind(configID: string, s: string, target: Target)
      returns (r: Answer<Ref>, op: string, ghost made: string, ghost lost: bool)
      requires remote.Valid()
      modifies remote
      ensures remote.Valid() && Onward(old(remote.hookFailures), old(remote.failedWaits), old(remote.refusals))
      ensures BlamedIfFailed(r, old(remote.hookFailures), remote.hookFailures)
      ensures remote.requests == old(remote.requests) + [PostBroadcaster(configID, target, [DestinationPath(dest, s)])]
      ensures r.Ok? ==> Posted(|old(remote.requests)|, op)
      ensures lost ==> r.Failed? && remote.refusals > old(remote.refusals)
      ensures remote.faithful ==> remote.state.configs == old(remote.state).configs
      ensures r.Ok? ==> r.value.id != "" && (remote.faithful ==> r.value.id in remote.state.broadcasters)
      ensures InPlay(s) ==>
                && remote.state.filters == old(remote.state).filters
                && (r.Ok? ==> r.value.id in remote.state.broadcasters && r.value.hash != "")
                && BroadcasterOutcome(r.Ok?, lost, old(remote.state), remote.state, made, configID,
                                      if r.Ok? then r.value.id else "", if r.Ok? then r.value.hash else "",
                                      target, s, dest)
      ensures Smooth(old(remote.complaints), InPlay(s) ==> r.Ok?)
    {
      op := "";
      var path := DestinationPath(dest, s);
      var posted, _, unseen, id, hash := Perform(PostBroadcaster(configID, target, [path]));
      made, lost := id, unseen;
      if posted.Failed? {
        return Failed(posted.failure), op, made, lost;
      }
      op := posted.value;
      r, lost := FindBroadcaster(configID, target, path);
      if InPlay(s) {
        assert remote.state.broadcasters[id].dests == [path];
        OwnDestinationOnly(remote.state.broadcasters[id], dest, s, s);
      }
    }

    /** Creates the session's broadcaster and records it. */
    method CreateBroadcaster(st: SessionState, s: string, target: Target)
      returns (r: Answer<()>, ghost made: string, ghost lost: bool)
      requires remote.Valid()
      modifies st, remote
      ensures remote.Valid() && Onward(old(remote.hookFailures), old(remote.failedWaits), old(remote.refusals))
      ensures BlamedIfFailed(r, old(remote.hookFailures), remote.hookFailures)
      ensures remote.requests == old(remote.requests) +
              if st.rec.configID == "" || target == Filter("") then []
              else [PostBroadcaster(st.rec.configID, target, [DestinationPath(dest, s)])]
      ensures r.Ok? ==> Posted(|old(remote.requests)|, st.rec.lastOp)
      ensures lost ==> r.Failed? && remote.refusals > old(remote.refusals)
      ensures remote.faithful ==> remote.state.configs == old(remote.state).configs
      ensures r.Failed? ==> st.rec == old(st.rec)
      ensures r.Ok? ==>
                && st.rec.configID != "" && st.rec.broadcasterID != "" && st.rec.broadcasterHash != ""
                && target != Filter("") && (remote.faithful ==> st.rec.broadcasterID in remote.state.broadcasters)
                && st.rec == old(st.rec).(broadcasterID := st.rec.broadcasterID,
                                          broadcasterHash := st.rec.broadcasterHash, lastOp := st.rec.lastOp)
      ensures InPlay(s) ==>
                && remote.state.filters == old(remote.state).filters
                && BroadcasterOutcome(r.Ok?, lost, old(remote.state), remote.state, made, st.rec.configID,
                                      st.rec.broadcasterID, st.rec.broadcasterHash, target, s, dest)
      ensures Smooth(old(remote.complaints), InPlay(s) && old(st.rec.configID) != "" && target != Filter("") ==> r.Ok?)
    {
      if st.rec.configID == "" || target == Filter("") {
        return Failed(Incomplete), "", false;
      }
      var found, op;
      found, op, made, lost := PostAndFind(st.rec.configID, s, target);
      if found.Failed? {
        return Failed(found.failure), made, lost;
      }
      var h := HashOf(found.value);
      if h.Failed? {
        return Failed(h.failure), made, lost;
      }
      st.rec := st.rec.(broadcasterID := found.value.id, broadcasterHash := h.value, lastOp := op);
      return Ok(()), made, lost;
    }

    // -------------------------------------------------------------------------------------------
    // Provisioning one session

    /** Drops the session's filter, if any, and creates a broadcaster for everything. */
    method ProvisionAll(st: SessionState, s: string) returns (r: Answer<()>, ghost made: string, ghost lost: bool)
      requires remote.Valid()
      modifies st, remote
      ensures remote.Valid() && Onward(old(remote.hookFailures), old(remote.failedWaits), old(remote.refusals))
      ensures BlamedIfFailed(r, old(remote.hookFailures), remote.hookFailures)
      ensures Discreet(old(remote.requests), remote.requests)
      ensures r.Ok? ==> Posted(|old(remote.requests)|, st.rec.lastOp)
      ensures lost ==> r.Failed? && remote.refusals > old(remote.refusals)
      ensures remote.faithful ==> remote.state.configs == old(remote.state).configs
      ensures remote.faithful && r.Ok? ==> st.rec.broadcasterID in remote.state.broadcasters
      ensures r.Failed? ==> st.rec == old(st.rec).(filterID := "", filterHash := st.rec.filterHash)
      ensures r.Ok? ==>
                && st.rec.configID != "" && st.rec.broadcasterID != "" && st.rec.broadcasterHash != ""
                && st.rec == old(st.rec).(broadcasterID := st.rec.broadcasterID, filterID := "",
                                          filterHash := st.rec.filterHash,
                                          broadcasterHash := st.rec.broadcasterHash, lastOp := st.rec.lastOp)
      ensures InPlay(s) && OwnFilter(old(st.rec), s, old(remote.state)) ==>
                && remote.state.filters == old(remote.state).filters - {old(st.rec.filterID)}
                && BroadcasterOutcome(r.Ok?, lost, old(remote.state), remote.state, made, st.rec.configID,
                                      st.rec.broadcasterID, st.rec.broadcasterHash, All, s, dest)
      ensures Smooth(old(remote.complaints), InPlay(s) && old(st.rec.configID) != "" ==> r.Ok?)
    {
      if st.rec.filterID != "" {
        DropFilter(st);
      }
      r, made, lost := CreateBroadcaster(st, s, All);
    }

    /**
     A hook failure may be answered with a broadcaster for everything, when the settings allow it. t: a filter of the
     session is astray already.
     */
    method Fallback(st: SessionState, s: string, failure: Failure, ghost t: bool)
      returns (r: Answer<string>, ghost made: string, ghost lost: bool)
      requires remote.Valid() && st.rec.broadcasterID == ""
      modifies st, remote
      ensures remote.Valid() && Onward(old(remote.hookFailures), old(remote.failedWaits), old(remote.refusals))
      ensures r.Failed? ==> r.failure == failure
      ensures Discreet(old(remote.requests), remote.requests)
      ensures r.Ok? ==> Posted(|old(remote.requests)|, st.rec.lastOp)
      ensures lost ==> r.Failed? && remote.refusals > old(remote.refusals)
      ensures remote.faithful ==> remote.state.configs == old(remote.state).configs
      ensures remote.faithful && r.Ok? ==> st.rec.broadcasterID in remote.state.broadcasters
      ensures var allowed := settings.allowAll && failure.Remote? && failure.hook;
              if !allowed then r.Failed? && st.rec == old(st.rec) && remote.state == old(remote.state)
              else if r.Failed? then
                st.rec == old(st.rec).(planKey := "ALL", filterID := "", filterHash := st.rec.filterHash)
              else
                && st.rec.configID != "" && st.rec.broadcasterID != "" && st.rec.broadcasterHash != ""
                && r.value == st.rec.lastOp
                && st.rec == old(st.rec).(broadcasterID := st.rec.broadcasterID, filterID := "", planKey := "ALL",
                                          filterHash := st.rec.filterHash,
                                          broadcasterHash := st.rec.broadcasterHash, lastOp := st.rec.lastOp)
      ensures InPlay(s) && FilterOutcome(t, old(st.rec), s, old(remote.state)) ==>
                Provisioning(r.Ok?, t, lost, old(remote.state), remote.state, made, st.rec, s, dest)
      ensures Smooth(old(remote.complaints), true)
    {
      made, lost := "", false;
      if !settings.allowAll || !IsHookFailure(failure) {
        return Failed(failure), made, lost;
      }
      st.rec := st.rec.(planKey := "ALL");
      var all;
      all, made, lost := ProvisionAll(st, s);
      if InPlay(s) && FilterOutcome(t, old(st.rec), s, old(remote.state)) {
        AllIsProvisioning(all.Ok?, t, lost, old(remote.state), remote.state, made, old(st.rec), st.rec, s, dest);
      }
      return if all.Ok? then Ok(st.rec.lastOp) else Failed(failure), made, lost;
    }

    /**
     Keeps the tracked filter if the remote still has it, and creates one otherwise. A live filter whose check was
     refused, or a new one that was lost, is left astray.
     */
    method HaveFilter(st: SessionState, s: string, plan: Plan)
      returns (r: Answer<()>, waitFailed: bool, ghost checkRefused: bool, ghost lost: bool)
      requires remote.Valid() && Scoped(plan) && (st.rec.filterID != "" ==> st.rec.filterHash != "")
      modifies st, remote
      ensures remote.Valid()
      ensures BlamedIfFailed(r, old(remote.hookFailures), remote.hookFailures)
      ensures Discreet(old(remote.requests), remote.requests)
      ensures !AskedForFilterBroadcaster(old(remote.requests), remote.requests)
      ensures waitFailed <==> remote.failedWaits > old(remote.failedWaits)
      ensures remote.refusals >= old(remote.refusals)
      ensures checkRefused || lost ==> remote.refusals > old(remote.refusals)
      ensures remote.faithful ==> remote.state.configs == old(remote.state).configs
      ensures checkRefused ==> old(st.rec.filterID) != ""
      ensures st.rec == old(st.rec).(filterID := st.rec.filterID, filterHash := st.rec.filterHash, lastOp := st.rec.lastOp)
      ensures if r.Ok? then st.rec.filterID != "" && st.rec.filterHash != "" else st.rec.filterID == ""
      ensures remote.faithful && FilterSide(old(st.rec), s, old(remote.state)) && st.rec.planKey == plan.key ==>
                && FilterStep(old(remote.state), remote.state, s)
                && FilterOutcome((old(st.rec.filterID) in old(remote.state).filters && checkRefused) || lost,
                                 st.rec, s, remote.state)
                && (r.Ok? ==> st.rec.filterID in remote.state.filters)
                && (old(st.rec.filterID) in old(remote.state).filters && !checkRefused ==>
                      r.Ok? && !lost && remote.state == old(remote.state) && st.rec == old(st.rec))
      ensures Smooth(old(remote.complaints), r.Ok?)
    {
      checkRefused, lost := false, false;
      ghost var q, a := st.rec, remote.state;
      if st.rec.filterID != "" {
        var found;
        found, checkRefused := FilterExists(st.rec.filterID);
        if found {
          return Ok(()), false, checkRefused, lost;
        }
        st.rec := st.rec.(filterID := "", filterHash := "");
      }
      ghost var made, hash;
      r, waitFailed, lost, made, hash := CreateFilter(st, s, plan);
      if remote.faithful && FilterSide(q, s, a) && q.planKey == plan.key {
        NewFilterOutcome(q, st.rec, s, a, remote.state, plan, r.Ok?, checkRefused, lost, made, hash);
      }
    }

    /** The broadcaster for the tracked filter; a hook failure may fall back to everything. */
    method Attach(st: SessionState, s: string, ghost t: bool)
      returns (r: Answer<string>, ghost made: string, ghost lost: bool)
      requires remote.Valid() && LocalOK(st.rec) && st.rec.broadcasterID == "" && st.rec.configID != "" &&
               st.rec.filterID != ""
      modifies st, remote
      ensures remote.Valid() && remote.failedWaits >= old(remote.failedWaits)
      ensures remote.hookFailures >= old(remote.hookFailures)
      ensures Discreet(old(remote.requests), remote.requests)
      ensures r.Ok? ==> Posted(|old(remote.requests)|, st.rec.lastOp)
      ensures |remote.requests| > |old(remote.requests)|
      ensures remote.requests[|old(remote.requests)|] ==
              PostBroadcaster(old(st.rec.configID), Filter(old(st.rec.filterID)), [DestinationPath(dest, s)])
      ensures LocalOK(st.rec) && (r.Ok? <==> st.rec.broadcasterID != "") && (r.Ok? ==> r.value == st.rec.lastOp)
      ensures remote.refusals >= old(remote.refusals) && (lost ==> remote.refusals > old(remote.refusals))
      ensures remote.faithful ==> remote.state.configs == old(remote.state).configs
      ensures remote.faithful && r.Ok? ==> st.rec.broadcasterID in remote.state.broadcasters
      ensures r.Failed? && settings.allowAll && r.failure.Remote? && r.failure.hook ==> st.rec.planKey == "ALL"
      ensures SameConfig(st.rec, old(st.rec))
      ensures if st.rec.planKey == old(st.rec.planKey) then st.rec.filterID == old(st.rec.filterID)
              else st.rec.planKey == "ALL" && settings.allowAll && remote.hookFailures > old(remote.hookFailures)
      ensures InPlay(s) && FilterOutcome(t, old(st.rec), s, old(remote.state)) &&
              old(st.rec.filterID) in old(remote.state).filters ==>
                Provisioning(r.Ok?, t, lost, old(remote.state), remote.state, made, st.rec, s, dest)
      ensures Smooth(old(remote.complaints), InPlay(s) ==> r.Ok?)
    {
      ghost var q, a := st.rec, remote.state;
      var created;
      created, made, lost := CreateBroadcaster(st, s, Filter(st.rec.filterID));
      if created.Failed? {
        ghost var b, first, again := remote.state, made, lost;
        r, made, lost := Fallback(st, s, created.failure, t);
        if InPlay(s) && FilterOutcome(t, q, s, a) && q.filterID in a.filters {
          FallbackOutcome(r.Ok?, t, again, lost, a, b, remote.state, first, made, q, st.rec, s, dest);
        }
        lost := lost || again;
        return;
      }
      if InPlay(s) && FilterOutcome(t, q, s, a) && q.filterID in a.filters {
        SameFiltersOutcome(t, q, a, remote.state, s);
        ScopedIsProvisioning(t, a, remote.state, made, st.rec, s, dest);
      }
      return Ok(st.rec.lastOp), made, lost;
    }

    /** With the filter in place the broadcaster follows; a failed filter operation may fall back to everything. */
    method Proceed(st: SessionState, s: string, have: Answer<()>, waitFailed: bool, ghost t: bool)
      returns (r: Answer<string>, ghost made: string, ghost lost: bool)
      requires remote.Valid() && LocalOK(st.rec) && st.rec.broadcasterID == "" && st.rec.configID != ""
      requires have.Ok? <==> st.rec.filterID != ""
      modifies st, remote
      ensures remote.Valid() && remote.failedWaits >= old(remote.failedWaits)
      ensures remote.hookFailures >= old(remote.hookFailures)
      ensures Discreet(old(remote.requests), remote.requests)
      ensures r.Ok? ==> Posted(|old(remote.requests)|, st.rec.lastOp)
      ensures LocalOK(st.rec) && (r.Ok? <==> st.rec.broadcasterID != "") && (r.Ok? ==> r.value == st.rec.lastOp)
      ensures r.Failed? && settings.allowAll && r.failure.Remote? && r.failure.hook ==>
                st.rec.planKey == "ALL" || (have.Failed? && !waitFailed)
      ensures have.Failed? && !waitFailed ==>
                r.Failed? && remote.requests == old(remote.requests) && remote.failedWaits == old(remote.failedWaits)
      ensures SameConfig(st.rec, old(st.rec))
      ensures remote.refusals >= old(remote.refusals) && (lost ==> remote.refusals > old(remote.refusals))
      ensures remote.faithful ==> remote.state.configs == old(remote.state).configs
      ensures remote.faithful && r.Ok? ==> st.rec.broadcasterID in remote.state.broadcasters
      ensures if st.rec.planKey == old(st.rec.planKey) then st.rec.filterID == old(st.rec.filterID) &&
                (r.Ok? && old(st.rec.planKey) != "ALL" ==> st.rec.filterID != "")
              else st.rec.planKey == "ALL" && settings.allowAll &&
                   (remote.hookFailures > old(remote.hookFailures) || (have.Failed? && IsHookFailure(have.failure)))
      ensures st.rec.planKey != old(st.rec.planKey) ==>
                waitFailed || AskedForFilterBroadcaster(old(remote.requests), remote.requests)
      ensures InPlay(s) && FilterOutcome(t, old(st.rec), s, old(remote.state)) &&
              (have.Ok? ==> old(st.rec.filterID) in old(remote.state).filters) ==>
                Provisioning(r.Ok?, t, lost, old(remote.state), remote.state, made, st.rec, s, dest)
      ensures Smooth(old(remote.complaints), InPlay(s) && have.Ok? ==> r.Ok?)
    {
      if have.Ok? {
        ghost var asked := |remote.requests|;
        r, made, lost := Attach(st, s, t);
        assert remote.requests[asked].PostBroadcaster?;
      } else if waitFailed {
        r, made, lost := Fallback(st, s, have.failure, t);
      } else {
        return Failed(have.failure), "", false;
      }
    }

    /** Filter, then broadcaster. */
    method ProvisionScoped(st: SessionState, s: string, plan: Plan)
      returns (r: Answer<string>, ghost made: string, ghost refused: Refusals)
      requires remote.Valid() && Scoped(plan) && st.rec.planKey == plan.key
      requires LocalOK(st.rec) && st.rec.broadcasterID == "" && st.rec.configID != ""
      modifies st, remote
      ensures remote.Valid()
      ensures remote.hookFailures >= old(remote.hookFailures)
      ensures Discreet(old(remote.requests), remote.requests)
      ensures r.Ok? ==> Posted(|old(remote.requests)|, st.rec.lastOp)
      ensures LocalOK(st.rec) && (r.Ok? <==> st.rec.broadcasterID != "") && (r.Ok? ==> r.value == st.rec.lastOp)
      ensures r.Failed? && settings.allowAll && r.failure.Remote? && r.failure.hook ==>
                st.rec.planKey == "ALL" ||
                (remote.failedWaits <= old(remote.failedWaits) &&
                 !AskedForFilterBroadcaster(old(remote.requests), remote.requests))
      ensures SameConfig(st.rec, old(st.rec))
      ensures if st.rec.planKey == plan.key then r.Ok? ==> st.rec.filterID != ""
              else st.rec.planKey == "ALL" && settings.allowAll && remote.hookFailures > old(remote.hookFailures)
      ensures st.rec.planKey != plan.key ==>
                remote.failedWaits > old(remote.failedWaits) ||
                AskedForFilterBroadcaster(old(remote.requests), remote.requests)
      ensures remote.refusals >= old(remote.refusals) && !refused.broadcasterCheck && !refused.configLost
      ensures refused != NoRefusals ==> remote.refusals > old(remote.refusals)
      ensures remote.faithful ==> remote.state.configs == old(remote.state).configs
      ensures remote.faithful && r.Ok? ==> st.rec.broadcasterID in remote.state.broadcasters
      ensures refused.filterCheck ==> old(st.rec.filterID) != ""
      ensures InPlay(s) && FilterSide(old(st.rec), s, old(remote.state)) ==>
                && Provisioning(r.Ok?, Troubled(old(st.rec), old(remote.state), refused), refused.broadcasterLost,
                                old(remote.state), remote.state, made, st.rec, s, dest)
                && (old(st.rec.filterID) in old(remote.state).filters && st.rec.planKey == plan.key &&
                    !refused.filterCheck ==>
                      st.rec.filterID == old(st.rec.filterID))
      ensures Smooth(old(remote.complaints), InPlay(s) ==> r.Ok?)
    {
      ScopedKeyIsNotAll(plan);
      ghost var check, unseen, lost, q, a := false, false, false, st.rec, remote.state;
      var have, waitFailed;
      have, waitFailed, check, unseen := HaveFilter(st, s, plan);
      ghost var b, asked := remote.state, remote.requests;
      r, made, lost := Proceed(st, s, have, waitFailed, Troubled(q, a, Refusals(false, check, false, unseen, false)));
      refused := Refusals(false, check, false, unseen, lost);
      AskedSince(old(remote.requests), asked, remote.requests);
      if InPlay(s) && FilterSide(q, s, a) {
        FilterStepThenProvisioning(r.Ok?, Troubled(q, a, refused), lost, a, b, remote.state, made, st.rec, s, dest);
      }
    }

    /** Takes over the plan; a filter made for another plan goes. */
    method AdoptPlan(st: SessionState, s: string, plan: Plan)
      requires remote.Valid() && LocalOK(st.rec)
      modifies st, remote
      ensures remote.Valid() && remote.hookFailures >= old(remote.hookFailures)
      ensures remote.refusals >= old(remote.refusals)
      ensures Discreet(old(remote.requests), remote.requests)
      ensures var q := old(st.rec);
              st.rec == if q.filterID != "" && q.planKey != plan.key
                        then q.(filterID := "", filterHash := "", planKey := plan.key)
                        else q.(planKey := plan.key)
      ensures remote.faithful ==>
                remote.state.configs == old(remote.state).configs && remote.state.issued == old(remote.state).issued
      ensures remote.faithful && FilterSide(old(st.rec), s, old(remote.state)) ==>
                && FilterSide(st.rec, s, remote.state) && FilterStep(old(remote.state), remote.state, s)
                && (st.rec.filterID != "" ==> remote.state == old(remote.state))
      ensures Smooth(old(remote.complaints), true)
    {
      if st.rec.filterID != "" && st.rec.planKey != plan.key {
        DropFilter(st);
      }
      st.rec := st.rec.(planKey := plan.key);
    }

    /** Makes sure there is a configuration. */
    method HaveConfig(st: SessionState) returns (r: Answer<()>, ghost lost: bool)
      requires remote.Valid() && LocalOK(st.rec) && st.rec.broadcasterID == ""
      modifies st, remote
      ensures remote.Valid() && BlamedIfFailed(r, old(remote.hookFailures), remote.hookFailures)
      ensures remote.refusals >= old(remote.refusals) && (lost ==> remote.refusals > old(remote.refusals))
      ensures Discreet(old(remote.requests), remote.requests)
      ensures LocalOK(st.rec)
      ensures st.rec == old(st.rec).(configID := st.rec.configID, configHash := st.rec.configHash,
                                     lastOp := st.rec.lastOp, shared := st.rec.shared)
      ensures r.Ok? ==> st.rec.configID != ""
      ensures remote.faithful ==>
                && ConfigOutcome(old(st.rec), old(remote.state), st.rec, remote.state)
                && NewConfigs(old(remote.state), remote.state, st.rec, lost)
                && remote.state.filters == old(remote.state).filters
                && remote.state.broadcasters == old(remote.state).broadcasters
                && NewIds(old(remote.state), remote.state) && ConfigsKept(old(remote.state), remote.state)
      ensures Smooth(old(remote.complaints), CanHaveConfig(old(st.rec), old(remote.state).configs) ==> r.Ok?)
    {
      if st.rec.configID != "" {
        return Ok(()), false;
      }
      r, lost := CreateConfig(st);
    }

    /** Takes over the plan and makes sure there is a configuration. */
    method Prepare(st: SessionState, s: string, plan: Plan) returns (r: Answer<()>, ghost lost: bool)
      requires remote.Valid() && LocalOK(st.rec) && plan.key != "" && st.rec.broadcasterID == ""
      modifies st, remote
      ensures remote.Valid() && BlamedIfFailed(r, old(remote.hookFailures), remote.hookFailures)
      ensures remote.refusals >= old(remote.refusals) && (lost ==> remote.refusals > old(remote.refusals))
      ensures Discreet(old(remote.requests), remote.requests)
      ensures LocalOK(st.rec) && st.rec.planKey == plan.key && st.rec.broadcasterID == ""
      ensures r.Ok? ==> st.rec.configID != ""
      ensures st.rec.filterID == if old(st.rec.planKey) == plan.key then old(st.rec.filterID) else ""
      ensures remote.faithful && FilterSide(old(st.rec), s, old(remote.state)) ==>
                PreparedFrom(old(st.rec), old(remote.state), st.rec, remote.state, s, lost)
      ensures Smooth(old(remote.complaints), CanHaveConfig(old(st.rec), old(remote.state).configs) ==> r.Ok?)
    {
      AdoptPlan(st, s, plan);
      r, lost := HaveConfig(st);
    }

    /** The broadcaster for a plan that asks for everything. */
    method ProvisionUnscoped(st: SessionState, s: string)
      returns (r: Answer<string>, ghost made: string, ghost lost: bool)
      requires remote.Valid() && LocalOK(st.rec) && st.rec.broadcasterID == "" && st.rec.configID != ""
      requires st.rec.planKey == "ALL"
      modifies st, remote
      ensures remote.Valid()
      ensures remote.hookFailures >= old(remote.hookFailures)
      ensures Discreet(old(remote.requests), remote.requests)
      ensures r.Ok? ==> Posted(|old(remote.requests)|, st.rec.lastOp)
      ensures LocalOK(st.rec) && (r.Ok? <==> st.rec.broadcasterID != "") && (r.Ok? ==> r.value == st.rec.lastOp)
      ensures SameConfig(st.rec, old(st.rec)) && st.rec.planKey == "ALL"
      ensures remote.refusals >= old(remote.refusals) && (lost ==> remote.refusals > old(remote.refusals))
      ensures remote.faithful ==> remote.state.configs == old(remote.state).configs
      ensures remote.faithful && r.Ok? ==> st.rec.broadcasterID in remote.state.broadcasters
      ensures InPlay(s) && FilterSide(old(st.rec), s, old(remote.state)) ==>
                Provisioning(r.Ok?, false, lost, old(remote.state), remote.state, made, st.rec, s, dest)
      ensures Smooth(old(remote.complaints), InPlay(s) ==> r.Ok?)
    {
      var all;
      all, made, lost := ProvisionAll(st, s);
      if InPlay(s) && FilterSide(old(st.rec), s, old(remote.state)) {
        AllIsProvisioning(all.Ok?, false, lost, old(remote.state), remote.state, made, old(st.rec), st.rec, s, dest);
      }
      return if all.Ok? then Ok(st.rec.lastOp) else Failed(all.failure), made, lost;
    }

    /** Filter and broadcaster, or just the broadcaster, as the plan has it. */
    method ProvisionPlan(st: SessionState, s: string, plan: Plan)
      returns (r: Answer<string>, ghost made: string, ghost refused: Refusals)
      requires remote.Valid() && (Scoped(plan) || plan == AllPlan) && st.rec.planKey == plan.key
      requires LocalOK(st.rec) && st.rec.broadcasterID == "" && st.rec.configID != ""
      modifies st, remote
      ensures remote.Valid()
      ensures remote.hookFailures >= old(remote.hookFailures)
      ensures Discreet(old(remote.requests), remote.requests)
      ensures r.Ok? ==> Posted(|old(remote.requests)|, st.rec.lastOp)
      ensures LocalOK(st.rec) && (r.Ok? <==> st.rec.broadcasterID != "") && (r.Ok? ==> r.value == st.rec.lastOp)
      ensures SameConfig(st.rec, old(st.rec))
      ensures Answers(r.Ok?, st.rec, plan, settings, remote.hookFailures > old(remote.hookFailures))
      ensures remote.refusals >= old(remote.refusals) && !refused.broadcasterCheck && !refused.configLost
      ensures refused != NoRefusals ==> remote.refusals > old(remote.refusals)
      ensures remote.faithful ==> remote.state.configs == old(remote.state).configs
      ensures remote.faithful && r.Ok? ==> st.rec.broadcasterID in remote.state.broadcasters
      ensures refused.filterCheck ==> old(st.rec.filterID) != ""
      ensures InPlay(s) && FilterSide(old(st.rec), s, old(remote.state)) ==>
                && Provisioning(r.Ok?, Troubled(old(st.rec), old(remote.state), refused), refused.broadcasterLost,
                                old(remote.state), remote.state, made, st.rec, s, dest)
                && (KeepsFilter(old(st.rec), old(remote.state), plan, st.rec, refused) ==>
                      st.rec.filterID == old(st.rec.filterID))
      ensures Smooth(old(remote.complaints), InPlay(s) ==> r.Ok?)
    {
      if plan.useAll {
        ghost var lost;
        r, made, lost := ProvisionUnscoped(st, s);
        refused := NoRefusals.(broadcasterLost := lost);
      } else {
        r, made, refused := ProvisionScoped(st, s, plan);
      }
    }

    /** The second half of the next method: from record q at remote a the plan and a configuration were taken over. */
    method ProvisionPrepared(st: SessionState, s: string, plan: Plan, ghost q: Record, ghost a: RemoteState, ghost lost: bool)
      returns (r: Answer<string>, ghost made: string, ghost refused: Refusals)
      requires remote.Valid() && (Scoped(plan) || plan == AllPlan) && st.rec.planKey == plan.key
      requires LocalOK(st.rec) && st.rec.broadcasterID == "" && st.rec.configID != ""
      requires st.rec.filterID == if q.planKey == plan.key then q.filterID else ""
      modifies st, remote
      ensures remote.Valid()
      ensures remote.hookFailures >= old(remote.hookFailures)
      ensures Discreet(old(remote.requests), remote.requests)
      ensures r.Ok? ==> Posted(|old(remote.requests)|, st.rec.lastOp)
      ensures LocalOK(st.rec) && (r.Ok? <==> st.rec.broadcasterID != "") && (r.Ok? ==> r.value == st.rec.lastOp)
      ensures Answers(r.Ok?, st.rec, plan, settings, remote.hookFailures > old(remote.hookFailures))
      ensures remote.refusals >= old(remote.refusals) && !refused.broadcasterCheck && refused.configLost == lost
      ensures refused != NoRefusals ==> lost || remote.refusals > old(remote.refusals)
      ensures remote.faithful && r.Ok? ==> st.rec.broadcasterID in remote.state.broadcasters
      ensures refused.filterCheck ==> old(st.rec.filterID) != ""
      ensures InPlay(s) && PreparedFrom(q, a, old(st.rec), old(remote.state), s, lost) ==>
                Reprovisioned(r.Ok?, refused, q, a, made, st.rec, remote.state, plan, s, dest)
      ensures Smooth(old(remote.complaints), InPlay(s) ==> r.Ok?)
    {
      ghost var prepared, b := st.rec, remote.state;
      r, made, refused := ProvisionPlan(st, s, plan);
      refused := refused.(configLost := lost);
      if InPlay(s) && PreparedFrom(q, a, prepared, b, s, lost) {
        ReprovisionOutcome(r.Ok?, refused, q, a, prepared, b, made, st.rec, remote.state, plan, s, dest);
      }
    }

    /** Provisions a session that tracks no broadcaster. */
    method Reprovision(st: SessionState, s: string, plan: Plan)
      returns (r: Answer<string>, ghost made: string, ghost refused: Refusals)
      requires remote.Valid() && LocalOK(st.rec) && st.rec.broadcasterID == "" && (Scoped(plan) || plan == AllPlan)
      modifies st, remote
      ensures remote.Valid()
      ensures remote.hookFailures >= old(remote.hookFailures)
      ensures Discreet(old(remote.requests), remote.requests)
      ensures r.Ok? ==> Posted(|old(remote.requests)|, st.rec.lastOp)
      ensures LocalOK(st.rec) && (r.Ok? <==> st.rec.broadcasterID != "") && (r.Ok? ==> r.value == st.rec.lastOp)
      ensures Answers(r.Ok?, st.rec, plan, settings, remote.hookFailures > old(remote.hookFailures))
      ensures remote.refusals >= old(remote.refusals) && !refused.broadcasterCheck
      ensures refused != NoRefusals ==> remote.refusals > old(remote.refusals)
      ensures remote.faithful && r.Ok? ==> st.rec.broadcasterID in remote.state.broadcasters
      ensures refused.filterCheck ==> old(st.rec.filterID) != "" && old(st.rec.planKey) == plan.key
      ensures InPlay(s) && FilterSide(old(st.rec), s, old(remote.state)) ==>
                Reprovisioned(r.Ok?, refused, old(st.rec), old(remote.state), made, st.rec, remote.state, plan, s, dest)
      ensures Smooth(old(remote.complaints), InPlay(s) && CanHaveConfig(old(st.rec), old(remote.state).configs) ==> r.Ok?)
    {
      PlanHasKey(plan);
      ghost var q, a := st.rec, remote.state;
      var ready;
      ghost var lost;
      ready, lost := Prepare(st, s, plan);
      ghost var b, prepared := remote.state, st.rec;
      if ready.Failed? {
        if InPlay(s) && PreparedFrom(q, a, prepared, b, s, lost) { UnpreparedOutcome(lost, q, a, prepared, b, plan, s, dest); }
        return Failed(ready.failure), "", NoRefusals.(configLost := lost);
      }
      r, made, refused := ProvisionPrepared(st, s, plan, q, a, lost);
    }

    /** Whether the tracked broadcaster is listed and was made for this plan; if not, it is forgotten. */
    method KeepBroadcaster(st: SessionState, plan: Plan) returns (kept: bool, ghost refused: bool)
      requires remote.Valid()
      modifies st, remote`hookFailures, remote`refusals, remote`complaints
      ensures remote.Valid() && remote.hookFailures >= old(remote.hookFailures)
      ensures remote.refusals == old(remote.refusals) + (if refused then 1 else 0)
      ensures refused ==> old(st.rec.broadcasterID) != ""
      ensures var q := old(st.rec);
              if kept then st.rec == q && q.broadcasterID != "" && q.planKey == plan.key && !refused
              else st.rec == q.(broadcasterID := "", broadcasterHash := st.rec.broadcasterHash)
      ensures remote.faithful ==>
                (kept <==> !refused && old(st.rec.broadcasterID) in remote.state.broadcasters &&
                           old(st.rec.planKey) == plan.key)
      ensures Smooth(old(remote.complaints), !refused)
    {
      if st.rec.broadcasterID == "" {
        return false, false;
      }
      var found;
      found, refused := BroadcasterExists(st.rec.broadcasterID);
      if found && plan.key == st.rec.planKey {
        return true, refused;
      }
      st.rec := st.rec.(broadcasterID := "", broadcasterHash := "");
      return false, refused;
    }

    /** Provisions a session whose broadcaster was just forgotten; q is its record before. */
    method Renew(st: SessionState, s: string, plan: Plan, ghost q: Record, ghost check: bool)
      returns (r: Answer<string>, ghost refused: Refusals)
      requires remote.Valid() && LocalOK(q) && (Scoped(plan) || plan == AllPlan)
      requires st.rec == q.(broadcasterID := "", broadcasterHash := st.rec.broadcasterHash)
      modifies st, remote
      ensures remote.Valid()
      ensures remote.hookFailures >= old(remote.hookFailures)
      ensures Discreet(old(remote.requests), remote.requests)
      ensures r.Ok? ==> Posted(|old(remote.requests)|, st.rec.lastOp)
      ensures LocalOK(st.rec) && (r.Ok? <==> st.rec.broadcasterID != "") && (r.Ok? ==> r.value == st.rec.lastOp)
      ensures Answers(r.Ok?, st.rec, plan, settings, remote.hookFailures > old(remote.hookFailures))
      ensures remote.refusals >= old(remote.refusals) && refused.broadcasterCheck == check
      ensures remote.faithful && r.Ok? ==> st.rec.broadcasterID in remote.state.broadcasters
      ensures refused != NoRefusals ==> check || remote.refusals > old(remote.refusals)
      ensures var a := old(remote.state);
              InPlay(s) && InStep(q, s, a, dest) &&
              (q.broadcasterID in a.broadcasters ==> check || q.planKey != plan.key) ==>
                Ensured(r.Ok?, refused, q, a, st.rec, remote.state, plan, s, dest)
      ensures Smooth(old(remote.complaints), InPlay(s) && CanHaveConfig(old(st.rec), old(remote.state).configs) ==> r.Ok?)
    {
      ghost var a, forgotten, made := remote.state, st.rec, "";
      if InPlay(s) && InStep(q, s, a, dest) { ForgettingKeepsFilterSide(q, a, st.rec, s, dest); }
      r, made, refused := Reprovision(st, s, plan);
      if InPlay(s) && InStep(q, s, a, dest) && (q.broadcasterID in a.broadcasters ==> check || q.planKey != plan.key) {
        RenewedIsEnsured(r.Ok?, refused, check, q, a, forgotten, made, st.rec, remote.state, plan, s, dest);
      }
      refused := refused.(broadcasterCheck := check);
    }

    /**
     Leaves alone a broadcaster that is up and was made for this plan, even when its filter is gone; otherwise
     provisions anew.
     */
    method Provision(st: SessionState, s: string, plan: Plan) returns (r: Answer<string>, ghost refused: Refusals)
      requires remote.Valid() && LocalOK(st.rec) && (Scoped(plan) || plan == AllPlan)
      modifies st, remote
      ensures remote.Valid()
      ensures remote.hookFailures >= old(remote.hookFailures)
      ensures Discreet(old(remote.requests), remote.requests)
      ensures r.Ok? ==> Posted(|old(remote.requests)|, st.rec.lastOp) ||
                        (st.rec == old(st.rec) && remote.requests == old(remote.requests))
      ensures LocalOK(st.rec) && (r.Ok? <==> st.rec.broadcasterID != "") && (r.Ok? ==> r.value == st.rec.lastOp)
      ensures Answers(r.Ok?, st.rec, plan, settings, remote.hookFailures > old(remote.hookFailures))
      ensures remote.faithful && r.Ok? ==> st.rec.broadcasterID in remote.state.broadcasters
      ensures remote.faithful && old(st.rec.broadcasterID) in old(remote.state).broadcasters &&
              !ForgetsBroadcaster(old(st.rec), old(remote.state), plan, refused) ==>
                r.Ok? && st.rec == old(st.rec) && remote.state == old(remote.state)
      ensures refused != NoRefusals ==> remote.refusals > old(remote.refusals)
      ensures InPlay(s) && InStep(old(st.rec), s, old(remote.state), dest) ==>
                Ensured(r.Ok?, refused, old(st.rec), old(remote.state), st.rec, remote.state, plan, s, dest)
      ensures Smooth(old(remote.complaints), InPlay(s) && CanHaveConfig(old(st.rec), old(remote.state).configs) ==> r.Ok?)
    {
      ghost var q := st.rec;
      var kept;
      ghost var check;
      kept, check := KeepBroadcaster(st, plan);
      if kept {
        if InPlay(s) && InStep(q, s, remote.state, dest) { KeptIsEnsured(q, remote.state, plan, s, dest); }
        return Ok(st.rec.lastOp), NoRefusals;
      }
      r, refused := Renew(st, s, plan, q, check);
    }

    // -------------------------------------------------------------------------------------------
    // The client's calls

    ghost predicate Valid() reads this, remote {
      && remote.Valid() && dest != "" && dest[0] == '/'
      && (skip ==> sess == map[]) && forall s :: s in sess ==> LocalOK(sess[s])
    }

    /** The part of EnsurePipeline that runs under the lock: the record is taken out, worked on and put back. */
    method EnsureLocked(s: string, plan: Plan) returns (r: Answer<string>, ghost refused: Refusals)
      requires Valid() && !skip && (Scoped(plan) || plan == AllPlan)
      modifies this, remote
      ensures Valid() && s in sess
      ensures sess == old(sess)[s := sess[s]]
      ensures Discreet(old(remote.requests), remote.requests)
      ensures r.Ok? ==> Posted(|old(remote.requests)|, sess[s].lastOp) ||
                        (s in old(sess) && sess == old(sess) && remote.requests == old(remote.requests))
      ensures (r.Ok? <==> sess[s].broadcasterID != "") && (r.Ok? ==> r.value == sess[s].lastOp)
      ensures Answers(r.Ok?, sess[s], plan, settings, remote.hookFailures > old(remote.hookFailures))
      ensures healthy == r.Ok? && ensureOK == old(ensureOK) + (if r.Ok? then 1 else 0)
      ensures pauseOK == old(pauseOK) && resumeOK == old(resumeOK) && stopOK == old(stopOK)
      ensures remote.faithful && r.Ok? ==> sess[s].broadcasterID in remote.state.broadcasters
      ensures remote.faithful && RecordOf(old(sess), s).broadcasterID in old(remote.state).broadcasters &&
              !ForgetsBroadcaster(RecordOf(old(sess), s), old(remote.state), plan, refused) ==>
                r.Ok? && sess[s] == RecordOf(old(sess), s) && remote.state == old(remote.state)
      ensures refused != NoRefusals ==> remote.refusals > old(remote.refusals)
      ensures InPlay(s) && InStep(RecordOf(old(sess), s), s, old(remote.state), dest) ==>
                Ensured(r.Ok?, refused, RecordOf(old(sess), s), old(remote.state), sess[s], remote.state, plan, s, dest)
      ensures Smooth(old(remote.complaints), InPlay(s) && CanHaveConfig(RecordOf(old(sess), s), old(remote.state).configs) ==> r.Ok?)
    {
      var st := new SessionState(if s in sess then sess[s] else EmptyRecord);
      r, refused := Provision(st, s, plan);
      sess := sess[s := st.rec];
      healthy := r.Ok?;
      if r.Ok? {
        ensureOK := ensureOK + 1;
      }
    }

    /** Nothing about the sessions, the remote's requests or the counters changed. */
    twostate predicate Untouched() reads this, remote {
      && sess == old(sess) && remote.requests == old(remote.requests) && remote.state == old(remote.state)
      && ensureOK == old(ensureOK) && pauseOK == old(pauseOK) && resumeOK == old(resumeOK) && stopOK == old(stopOK)
      && healthy == old(healthy)
    }

    /**
     Makes sure that the session's events are broadcast as its configuration asks. Bad input is refused before
     anything is touched. At a faithful remote where the session was in step, the call leaves it in step, exactly
     served if it succeeds, unless the plan changed under a live broadcaster, an answer that mattered was missing, or the
     broadcaster was up but its filter gone.
     */
    method EnsurePipeline(session: string, subs: seq<Subscription>)
      returns (r: Answer<string>, ghost plan: Plan, ghost refused: Refusals)
      requires Valid()
      modifies this, remote
      ensures Valid() && ResolvesTo(settings, subs, plan) && Resolved(plan)
      ensures var s := TrimSpace(session);
              if s == "" then r == Failed(EmptySession) && Untouched()
              else if skip then
                && r == Ok("naryo-egress-skipped") && sess == old(sess) && healthy && ensureOK == old(ensureOK) + 1
                && remote.requests == old(remote.requests) && remote.state == old(remote.state)
              else if !Provisionable(plan) then r == Failed(NoSubject) && Untouched()
              else
                && s in sess && sess == old(sess)[s := sess[s]]
                && (r.Ok? <==> sess[s].broadcasterID != "") && (r.Ok? ==> r.value == sess[s].lastOp)
                && Answers(r.Ok?, sess[s], plan, settings, remote.hookFailures > old(remote.hookFailures))
                && healthy == r.Ok? && ensureOK == old(ensureOK) + (if r.Ok? then 1 else 0)
      ensures pauseOK == old(pauseOK) && resumeOK == old(resumeOK) && stopOK == old(stopOK)
      ensures Discreet(old(remote.requests), remote.requests)
      ensures r.Ok? && !skip ==>
                || Posted(|old(remote.requests)|, r.value)
                || (sess == old(sess) && remote.requests == old(remote.requests) &&
                    TrimSpace(session) in sess && r.value == sess[TrimSpace(session)].lastOp)
      ensures !skip && TrimSpace(session) != "" ==>
                && (r.Ok? ==> Provisionable(plan))
                && Tracked(sess) == EnsureTracks(r.Ok?, Provisionable(plan), TrimSpace(session), Tracked(old(sess)))
      ensures refused != NoRefusals ==> remote.refusals > old(remote.refusals)
      ensures remote.faithful && SessionId(session) && !skip ==>
                EnsureStep(session, plan, r.Ok?, remote.hookFailures > old(remote.hookFailures), refused,
                           Moment(old(sess), old(remote.state)), Moment(sess, remote.state), settings, dest)
      ensures SessionId(session) && (skip || Provisionable(plan)) &&
              CanHaveConfig(RecordOf(old(sess), session), old(remote.state).configs) ==>
                Smooth(old(remote.complaints), r.Ok?)
    {
      var resolved := ResolvePlan(settings, subs);
      PlanIsResolved(settings, subs, resolved);
      plan, refused := resolved, NoRefusals;
      var s := TrimSpace(session);
      TrimSpaceTrims(session);
      if s == "" {
        return Failed(EmptySession), plan, refused;
      }
      if skip {
        ensureOK := ensureOK + 1;
        healthy := true;
        return Ok("naryo-egress-skipped"), plan, refused;
      }
      if !Provisionable(resolved) {
        return Failed(NoSubject), plan, refused;
      }
      ResolvedIsScoped(resolved);
      r, refused := EnsureLocked(s, resolved);
      TrackedUpdate(old(sess), s, sess[s]);
    }

    /** Takes the session's broadcaster down; filter and configuration stay. */
    method PauseEgress(session: string) returns (r: Answer<()>)
      requires Valid()
      modifies this, remote
      ensures Valid()
      ensures var q := RecordOf(old(sess), session);
              if q.broadcasterID == "" then r.Ok? && Untouched()
              else
                && remote.requests == old(remote.requests) + [DeleteBroadcaster(q.broadcasterID, q.broadcasterHash)]
                && healthy == r.Ok? && pauseOK == old(pauseOK) + (if r.Ok? then 1 else 0)
                && ensureOK == old(ensureOK) && resumeOK == old(resumeOK) && stopOK == old(stopOK)
                && session in sess
                && (r.Ok? ==> remote.granted == old(remote.granted) + [Some(sess[session].lastOp)])
                && sess == (if r.Ok? then old(sess)[session := q.(broadcasterID := "", broadcasterHash := "",
                                                                 lastOp := sess[session].lastOp)]
                            else old(sess))
      ensures Tracked(sess) == PauseTracks(r.Ok?, session, Tracked(old(sess)))
      ensures r.Failed? ==> session in Tracked(old(sess))
      ensures remote.faithful ==>
                PauseStep(session, r.Ok?, Moment(old(sess), old(remote.state)), Moment(sess, remote.state))
      ensures Smooth(old(remote.complaints), r.Ok?)
    {
      if session !in sess || sess[session].broadcasterID == "" {
        return Ok(());
      }
      var st := sess[session];
      var op, _, lost, _, _ := Perform(DeleteBroadcaster(st.broadcasterID, st.broadcasterHash));
      healthy := op.Ok?;
      if op.Failed? {
        return Failed(op.failure);
      }
      sess := sess[session := st.(broadcasterID := "", broadcasterHash := "", lastOp := op.value)];
      pauseOK := pauseOK + 1;
      TrackedUpdate(old(sess), session, sess[session]);
      return Ok(());
    }

    /** Ensuring again, and counting it. */
    method ResumeEgress(session: string, subs: seq<Subscription>)
      returns (r: Answer<()>, ghost plan: Plan, ghost refused: Refusals)
      requires Valid()
      modifies this, remote
      ensures Valid() && ResolvesTo(settings, subs, plan) && Resolved(plan)
      ensures resumeOK == old(resumeOK) + (if r.Ok? then 1 else 0)
      ensures pauseOK == old(pauseOK) && stopOK == old(stopOK)
      ensures var s := TrimSpace(session);
              if s == "" || (!skip && !Provisionable(plan)) then r.Failed? && Untouched()
              else if skip then r.Ok? && sess == old(sess) && remote.state == old(remote.state)
              else
                && s in sess && sess == old(sess)[s := sess[s]]
                && (r.Ok? <==> sess[s].broadcasterID != "") && healthy == r.Ok?
                && Answers(r.Ok?, sess[s], plan, settings, remote.hookFailures > old(remote.hookFailures))
      ensures Discreet(old(remote.requests), remote.requests)
      ensures r.Ok? && !skip ==>
                && TrimSpace(session) in sess
                && (Posted(|old(remote.requests)|, sess[TrimSpace(session)].lastOp) ||
                    (sess == old(sess) && remote.requests == old(remote.requests)))
      ensures !skip && TrimSpace(session) != "" ==>
                && (r.Ok? ==> Provisionable(plan))
                && Tracked(sess) == EnsureTracks(r.Ok?, Provisionable(plan), TrimSpace(session), Tracked(old(sess)))
      ensures refused != NoRefusals ==> remote.refusals > old(remote.refusals)
      ensures remote.faithful && SessionId(session) && !skip ==>
                EnsureStep(session, plan, r.Ok?, remote.hookFailures > old(remote.hookFailures), refused,
                           Moment(old(sess), old(remote.state)), Moment(sess, remote.state), settings, dest)
      ensures SessionId(session) && (skip || Provisionable(plan)) &&
              CanHaveConfig(RecordOf(old(sess), session), old(remote.state).configs) ==>
                Smooth(old(remote.complaints), r.Ok?)
    {
      var ensured;
      ensured, plan, refused := EnsurePipeline(session, subs);
      if ensured.Failed? {
        return Failed(ensured.failure), plan, refused;
      }
      resumeOK := resumeOK + 1;
      return Ok(()), plan, refused;
    }

    /** Deletes what the record tracks: broadcaster, filter, and the configuration unless it was found. */
    method TearDown(st: Record)
      requires remote.Valid() && LocalOK(st)
      modifies remote
      ensures remote.Valid() && remote.hookFailures >= old(remote.hookFailures)
      ensures remote.requests == old(remote.requests) + StopRequests(st)
      ensures remote.faithful ==> Teardown(st, old(remote.state), remote.state)
    {
      ghost var a := remote.state;
      DropTracked(DeleteBroadcaster(st.broadcasterID, st.broadcasterHash));
      ghost var b := remote.state;
      DropTracked(DeleteFilter(st.filterID, st.filterHash));
      ghost var c := remote.state;
      if !st.shared {
        DropTracked(DeleteConfig(st.configID, st.configHash));
      }
      if remote.faithful { DropsTearDown(st, a, b, c, remote.state); }
    }

    /** Takes everything of the session down and forgets it, whatever the remote says. */
    method StopPipeline(session: string)
      requires Valid()
      modifies this, remote
      ensures Valid()
      ensures sess == old(sess) - {session}
      ensures session !in old(sess) ==> Untouched()
      ensures session in old(sess) ==> stopOK == old(stopOK) + 1 && healthy
      ensures ensureOK == old(ensureOK) && pauseOK == old(pauseOK) && resumeOK == old(resumeOK)
      ensures remote.requests == old(remote.requests) + StopRequests(RecordOf(old(sess), session))
      ensures Tracked(sess) == Tracked(old(sess)) - {session}
      ensures remote.faithful ==>
                StopStep(session, Moment(old(sess), old(remote.state)), Moment(sess, remote.state))
    {
      if session !in sess {
        if remote.faithful { NothingToTearDown(remote.state); }
        return;
      }
      var st := sess[session];
      sess := sess - {session};
      TearDown(st);
      stopOK := stopOK + 1;
      healthy := true;
    }
  }
}

/**
 Naryo's Configuration API as its client sees it: three collections, requests that are accepted and later
 succeed or fail, and lists. A faithful remote answers truthfully or not at all; any other may answer and change
 as it likes.
 */
module NaryoRemote {
  import opened Collections
  import opened Strings
  import opened NaryoPlan

  datatype ConfigRow = ConfigRow(http: bool, url: string, hash: string)
  datatype FilterRow = FilterRow(name: string, topic: string, contract: string, hash: string)
  datatype Target = All | Filter(id: string)
  datatype BroadcasterRow = BroadcasterRow(configID: string, target: Target, dests: seq<string>, hash: string)

  datatype RemoteState = RemoteState(
    configs: map<string, ConfigRow>,
    filters: map<string, FilterRow>,
    broadcasters: map<string, BroadcasterRow>,
    issued: set<string>)    // every id ever used for a row

  const EmptyRemote := RemoteState(map[], map[], map[], {})

  datatype Request =
    | PostConfig(id: string, url: string)
    | PostFilter(name: string, topic: string, contract: string)
    | PostBroadcaster(configID: string, target: Target, dests: seq<string>)
    | DeleteConfig(id: string, hash: string)
    | DeleteFilter(id: string, hash: string)
    | DeleteBroadcaster(id: string, hash: string)

  /** The client's own errors, and the remote's; of the latter's text only two tests are ever made. */
  datatype Failure =
    | EmptySession
    | NoSubject
    | NotListed
    | Incomplete
    | Remote(hook: bool, npe: bool)

  predicate IsHookFailure(f: Failure) { f.Remote? && f.hook }

  predicate IsConfigNPE(f: Failure) { f.Remote? && f.npe }

  datatype Answer<+T> = Ok(value: T) | Failed(failure: Failure)

  /** The effect of a request; id and hash are the ones the remote gives to a new row. */
  function Apply(r: RemoteState, q: Request, id: string, hash: string): RemoteState {
    match q
    case PostConfig(c, url) => r.(configs := r.configs[c := ConfigRow(true, url, hash)], issued := r.issued + {c})
    case PostFilter(name, topic, contract) => 
      r.(filters := r.filters[id := FilterRow(name, topic, contract, hash)], issued := r.issued + {id})
    case PostBroadcaster(c, target, dests) =>
      r.(broadcasters := r.broadcasters[id := BroadcasterRow(c, target, dests, hash)], issued := r.issued + {id})
    case DeleteConfig(c, _) => r.(configs := r.configs - {c})
    case DeleteFilter(f, _) => r.(filters := r.filters - {f})
    case DeleteBroadcaster(b, _) => r.(broadcasters := r.broadcasters - {b})
  }

  /** A new row gets a hash and an id that was never used before. */
  predicate Fresh(r: RemoteState, q: Request, id: string, hash: string) {
    match q
    case PostConfig(c, _) => c != "" && c !in r.issued && hash != ""
    case PostFilter(_, _, _) => id != "" && id !in r.issued && hash != ""
    case PostBroadcaster(_, _, _) => id != "" && id !in r.issued && hash != ""
    case _ => true
  }

  /** A delete of an existing row that quotes its current hash. */
  predicate CurrentDelete(r: RemoteState, q: Request) {
    match q
    case DeleteConfig(c, h) => c in r.configs && r.configs[c].hash == h
    case DeleteFilter(f, h) => f in r.filters && r.filters[f].hash == h
    case DeleteBroadcaster(b, h) => b in r.broadcasters && r.broadcasters[b].hash == h
    case _ => false
  }

  /** A delete of a row that is gone already, or that quotes its current hash. */
  predicate Settled(r: RemoteState, q: Request) {
    match q
    case DeleteConfig(c, h) => c in r.configs ==> r.configs[c].hash == h
    case DeleteFilter(f, h) => f in r.filters ==> r.filters[f].hash == h
    case DeleteBroadcaster(b, h) => b in r.broadcasters ==> r.broadcasters[b].hash == h
    case _ => false
  }

  /** Deleting what is gone already, or was never there, changes nothing. */
  lemma SettledDelete(r: RemoteState, q: Request)
    requires Settled(r, q) && (!CurrentDelete(r, q) || (q.id == "" && Sound(r)))
    ensures Apply(r, q, "", "") == r
  {
    match q
    case DeleteConfig(c, _) => assert r.configs - {c} == r.configs;
    case DeleteFilter(f, _) => assert r.filters - {f} == r.filters;
    case DeleteBroadcaster(b, _) => assert r.broadcasters - {b} == r.broadcasters;
    case _ =>
  }

  /** A delete works when it quotes the current hash or its row is gone already; otherwise it may do nothing. */
  ghost predicate Dropped(a: RemoteState, b: RemoteState, q: Request) {
    (b == a || b == Apply(a, q, "", "")) && (Settled(a, q) ==> b == Apply(a, q, "", ""))
  }

  /** Every row has an id and a hash. */
  ghost predicate Sound(r: RemoteState) {
    && "" !in r.issued && r.configs.Keys <= r.issued && r.filters.Keys <= r.issued && r.broadcasters.Keys <= r.issued
    && (forall c :: c in r.configs ==> r.configs[c].hash != "")
    && (forall f :: f in r.filters ==> r.filters[f].hash != "")
    && (forall b :: b in r.broadcasters ==> r.broadcasters[b].hash != "")
  }

  ghost predicate Listed<T>(rows: seq<(string, T)>, k: string) {
    exists i :: 0 <= i < |rows| && rows[i].0 == k
  }

  /** rows is a listing of m: all of it, nothing else. */
  ghost predicate Lists<T>(rows: seq<(string, T)>, m: map<string, T>) {
    && (forall i :: 0 <= i < |rows| ==> rows[i].0 in m && m[rows[i].0] == rows[i].1)
    && (forall k :: k in m ==> Listed(rows, k))
  }

  lemma ListedGrows<T>(rows: seq<(string, T)>, row: (string, T), k: string)
    requires k == row.0 || Listed(rows, k)
    ensures Listed(rows + [row], k)
  {
    if k == row.0 {
      assert (rows + [row])[|rows|].0 == k;
    } else {
      var i :| 0 <= i < |rows| && rows[i].0 == k;
      assert (rows + [row])[i].0 == k;
    }
  }

  method Enumerate<T>(m: map<string, T>) returns (rows: seq<(string, T)>)
    ensures Lists(rows, m)
  {
    rows := [];
    var rest := m.Keys;
    while rest != {}
      invariant rest <= m.Keys
      invariant forall i :: 0 <= i < |rows| ==> rows[i].0 in m && m[rows[i].0] == rows[i].1
      invariant forall k :: k in m && k !in rest ==> Listed(rows, k)
      decreases rest
    {
      var k :| k in rest;
      forall j | j in m && j !in rest - {k} ensures Listed(rows + [(k, m[k])], j) {
        ListedGrows(rows, (k, m[k]), j);
      }
      rows := rows + [(k, m[k])];
      rest := rest - {k};
    }
  }

  class Remote {
    /**
     What is reported as done was done and what is reported as failed was not, lists that are given are complete, and a
     delete quoting the current hash works. But any answer may be lost on its way, the effect of its request not.
     */
    const faithful: bool
    var state: RemoteState
    var ops: map<string, bool>                 // accepted operations: did they succeed?
    ghost var requests: seq<Request>
    ghost var granted: seq<Option<string>>     // the operation id each request was answered with, if it was accepted
    ghost var hookFailures: nat                // failures reported with a revision-hook error
    ghost var failedWaits: nat                 // operations that were accepted and then reported as failed
    ghost var refusals: nat                    // lists that were not given, answers to effective requests that were lost

    ghost var complaints: nat                  // answers that were failures or did not arrive

    ghost predicate Valid() reads this { |granted| == |requests| && (faithful ==> Sound(state)) }

    constructor (faithful: bool)
      ensures Valid() && this.faithful == faithful
      ensures state == EmptyRemote && requests == [] && hookFailures == 0 && failedWaits == 0 && refusals == 0
    {
      this.faithful := faithful;
      state, ops := EmptyRemote, map[];
      requests, granted, hookFailures, failedWaits, refusals, complaints := [], [], 0, 0, 0, 0;
    }

    /** Counted is what every call promises about the failure it reports. */
    ghost predicate Counted(before: nat, failed: bool, f: Failure) reads this {
      hookFailures >= before && (failed ==> f.Remote? && (f.hook ==> hookFailures > before))
    }

    method Complain() returns (f: Failure)
      modifies this`hookFailures, this`complaints
      ensures Counted(old(hookFailures), true, f) && complaints == old(complaints) + 1
    {
      var hook: bool, npe: bool := *, *;
      f := Failure.Remote(hook, npe);
      if hook { hookFailures := hookFailures + 1; }
      complaints := complaints + 1;
    }

    /** POST or DELETE, answered with an operation id when accepted. lost: it took effect, but the answer did not arrive. */
    method Submit(q: Request) returns (r: Answer<string>, ghost lost: bool, ghost id: string, ghost hash: string)
      requires Valid()
      modifies this
      ensures Valid() && requests == old(requests) + [q]
      ensures granted == old(granted) + [if r.Ok? then Some(r.value) else None]
      ensures failedWaits == old(failedWaits) && refusals == old(refusals) + (if lost then 1 else 0)
      ensures Counted(old(hookFailures), r.Failed?, if r.Failed? then r.failure else EmptySession)
      ensures complaints == old(complaints) + (if r.Failed? then 1 else 0)
      ensures r.Ok? ==> r.value != ""
      ensures lost ==> r.Failed?
      ensures faithful && r.Ok? ==> r.value in ops
      ensures faithful ==>
                if lost || (r.Ok? && ops[r.value]) then
                  Fresh(old(state), q, id, hash) && state == Apply(old(state), q, id, hash)
                else state == old(state) && !CurrentDelete(old(state), q)
    {
      requests := requests + [q];
      var op: string, i: string, h: string, arrives: bool, accepted: bool, works: bool := *, *, *, *, *, *;
      id, hash := i, h;
      if op == "" { op := "0"; }
      works := faithful && Fresh(state, q, i, h) && (works || CurrentDelete(state, q));
      if !faithful { state := *; }
      if works { state := Apply(state, q, i, h); }
      lost := works && !arrives;
      if (works && !arrives) || (!works && !accepted) {
        refusals := refusals + (if lost then 1 else 0);
        granted := granted + [None];
        var f := Complain();
        return Failed(f), lost, id, hash;
      }
      granted := granted + [Some(op)];
      ops := ops[op := works];
      return Ok(op), lost, id, hash;
    }

    /** Polls an operation until it is decided or a poll fails. lost: it took effect, but this was not learnt. */
    method Wait(op: string) returns (r: Answer<()>, ghost lost: bool)
      requires Valid()
      modifies this
      ensures Valid() && requests == old(requests) && granted == old(granted) && ops == old(ops)
      ensures refusals == old(refusals) + (if lost then 1 else 0)
      ensures failedWaits == old(failedWaits) + (if r.Failed? then 1 else 0)
      ensures Counted(old(hookFailures), r.Failed?, if r.Failed? then r.failure else EmptySession)
      ensures complaints == old(complaints) + (if r.Failed? then 1 else 0)
      ensures lost ==> r.Failed?
      ensures faithful ==> state == old(state)
      ensures faithful && op in ops ==> (r.Ok? || lost <==> ops[op])
    {
      var done: bool, arrives: bool := *, *;
      if faithful && op in ops { done := ops[op]; }
      if !faithful { state := *; }
      if done && arrives {
        return Ok(()), false;
      }
      lost := done;
      failedWaits := failedWaits + 1;
      refusals := refusals + (if lost then 1 else 0);
      var f := Complain();
      return Failed(f), lost;
    }

    method ListConfigs() returns (r: Answer<seq<(string, ConfigRow)>>)
      requires Valid()
      modifies this`hookFailures, this`refusals, this`complaints
      ensures Valid()
      ensures Counted(old(hookFailures), r.Failed?, if r.Failed? then r.failure else EmptySession)
      ensures complaints == old(complaints) + (if r.Failed? then 1 else 0)
      ensures refusals == old(refusals) + (if r.Failed? then 1 else 0)
      ensures faithful && r.Ok? ==> Lists(r.value, state.configs)
    {
      if * {
        var f := Complain();
        refusals := refusals + 1;
        return Failed(f);
      }
      var rows: seq<(string, ConfigRow)> := *;
      if faithful {
        rows := Enumerate(state.configs);
      }
      return Ok(rows);
    }

    method ListFilters() returns (r: Answer<seq<(string, FilterRow)>>)
      requires Valid()
      modifies this`hookFailures, this`refusals, this`complaints
      ensures Valid()
      ensures Counted(old(hookFailures), r.Failed?, if r.Failed? then r.failure else EmptySession)
      ensures complaints == old(complaints) + (if r.Failed? then 1 else 0)
      ensures refusals == old(refusals) + (if r.Failed? then 1 else 0)
      ensures faithful && r.Ok? ==> Lists(r.value, state.filters)
    {
      if * {
        var f := Complain();
        refusals := refusals + 1;
        return Failed(f);
      }
      var rows: seq<(string, FilterRow)> := *;
      if faithful {
        rows := Enumerate(state.filters);
      }
      return Ok(rows);
    }

    method ListBroadcasters() returns (r: Answer<seq<(string, BroadcasterRow)>>)
      requires Valid()
      modifies this`hookFailures, this`refusals, this`complaints
      ensures Valid()
      ensures Counted(old(hookFailures), r.Failed?, if r.Failed? then r.failure else EmptySession)
      ensures complaints == old(complaints) + (if r.Failed? then 1 else 0)
      ensures refusals == old(refusals) + (if r.Failed? then 1 else 0)
      ensures faithful && r.Ok? ==> Lists(r.value, state.broadcasters)
    {
      if * {
        var f := Complain();
        refusals := refusals + 1;
        return Failed(f);
      }
      var rows: seq<(string, BroadcasterRow)> := *;
      if faithful {
        rows := Enumerate(state.broadcasters);
      }
      return Ok(rows);
    }

    /** The hash field of one broadcaster; it may be blank. */
    method GetBroadcasterHash(id: string) returns (r: Answer<string>)
      requires Valid()
      modifies this`hookFailures, this`complaints
      ensures Valid()
      ensures Counted(old(hookFailures), r.Failed?, if r.Failed? then r.failure else EmptySession)
      ensures complaints == old(complaints) + (if r.Failed? then 1 else 0)
      ensures faithful && id in state.broadcasters && r.Ok? ==> r.value == state.broadcasters[id].hash
    {
      if * {
        var f := Complain();
        return Failed(f);
      }
      var h: string := *;
      if faithful && id in state.broadcasters {
        h := state.broadcasters[id].hash;
      }
      return Ok(h);
    }
  }
}

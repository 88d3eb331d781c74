/**
 The dashboard's accumulator (dashboard/src/lib/telemetryFromSummary.ts): it polls sliding snapshots of the
 activity feed, counts each entry once through a capped FIFO set, and projects a window of minutes.
 */
module Telemetry {
  import opened Collections
  import opened Strings
  import opened ActivityFeed

  const DEDUPE_CAP: nat := 8000
  const MINUTE_MS := 60000

  /** at is the parsed timestamp in milliseconds; None when it does not parse. data is the canonical JSON text. */
  datatype Row = Row(timestamp: string, kind: string, sessionId: string, data: string, at: Option<int>)

  function FloorToMinute(ms: int): int { ms / MINUTE_MS * MINUTE_MS }

  function DedupeKey(r: Row): string {
    r.timestamp + "\0" + r.kind + "\0" + r.sessionId + "\0" + r.data
  }

  /** The beginning of the minute in which a moment lies. */
  lemma FloorToMinuteIs(ms: int)
    ensures FloorToMinute(ms) % 60000 == 0 && FloorToMinute(ms) <= ms < FloorToMinute(ms) + 60000
  {
  }

  /** The same entry, by what the feed says of it; the parsed time follows from the timestamp. */
  ghost predicate SameEntry(r: Row, q: Row) {
    r.timestamp == q.timestamp && r.kind == q.kind && r.sessionId == q.sessionId && r.data == q.data
  }

  ghost predicate NulFreeRow(r: Row) { NulFree(r.timestamp) && NulFree(r.kind) && NulFree(r.sessionId) }

  lemma KeyParts(r: Row)
    ensures DedupeKey(r) == r.timestamp + "\0" + (r.kind + "\0" + (r.sessionId + "\0" + r.data))
  {
  }

  /** Entries without a NUL have the same key if and only if they are the same entry. */
  lemma DedupeKeyIdentifies(r: Row, q: Row)
    requires NulFreeRow(r) && NulFreeRow(q)
    ensures DedupeKey(r) == DedupeKey(q) <==> SameEntry(r, q)
  {
    KeyParts(r);
    KeyParts(q);
    if DedupeKey(r) == DedupeKey(q) {
      var r2, q2 := r.sessionId + "\0" + r.data, q.sessionId + "\0" + q.data;
      SplitAtNul(r.timestamp, r.kind + "\0" + r2, q.timestamp, q.kind + "\0" + q2);
      SplitAtNul(r.kind, r2, q.kind, q2);
      SplitAtNul(r.sessionId, r.data, q.sessionId, q.data);
    }
  }

  /** With a NUL two different entries can share a key; the one ingested second is then not counted. */
  lemma NulHidesEntry(a: Accumulator, t: string, k: string, s: string, d: string, at: int)
    ensures var r, q := Row(t + "\0" + k, s, "", d, Some(at)), Row(t, k + "\0" + s, "", d, Some(at));
            && !SameEntry(r, q) && DedupeKey(r) == DedupeKey(q)
            && (DedupeKey(r) in a.dedupe ==> IngestRow(a, q) == a)
  {
    var r, q := Row(t + "\0" + k, s, "", d, Some(at)), Row(t, k + "\0" + s, "", d, Some(at));
    assert |r.timestamp| != |q.timestamp|;
    NulMoves(t, k, s, "\0" + ("" + "\0" + d));
    KeyParts(r);
    KeyParts(q);
  }

  lemma NulMoves(t: string, k: string, s: string, rest: string)
    ensures (t + "\0" + k) + "\0" + (s + rest) == t + "\0" + ((k + "\0" + s) + rest)
  {
  }

  /** What one poll brings; None where generatedAt does not parse or the cents are not a number. */
  datatype Summary = Summary(at: Option<int>, pipelines: int, cents: Option<real>, activity: seq<Row>)

  datatype Accumulator = Accumulator(
    dedupe: set<string>,
    queue: seq<string>,
    pipelines: map<int, int>,
    events: map<int, int>,
    earnedMax: real,
    earnedAfter: map<int, real>)

  const EmptyAccumulator := Accumulator({}, [], map[], map[], 0.0, map[])

  function EventsAt(a: Accumulator, minute: int): int {
    if minute in a.events then a.events[minute] else 0
  }

  // ---------------------------------------------------------------------------------------------
  // Ingesting a poll

  /** Drops the oldest keys until the queue fits; an empty key would stay in the set. */
  function Trim(a: Accumulator): Accumulator
    decreases |a.queue|
  {
    if |a.queue| <= DEDUPE_CAP then a
    else Trim(a.(queue := a.queue[1..], dedupe := if a.queue[0] == "" then a.dedupe else a.dedupe - {a.queue[0]}))
  }

  function Push(a: Accumulator, key: string): Accumulator {
    if key in a.dedupe then a
    else Trim(a.(dedupe := a.dedupe + {key}, queue := a.queue + [key]))
  }

  function IngestRow(a: Accumulator, r: Row): Accumulator {
    if r.at.None? then a
    else
      var minute := FloorToMinute(r.at.value);
      var b := Push(a, DedupeKey(r));
      if DedupeKey(r) in a.dedupe then b else b.(events := b.events[minute := EventsAt(b, minute) + 1])
  }

  function IngestRows(a: Accumulator, rows: seq<Row>): Accumulator {
    if rows == [] then a else IngestRow(IngestRows(a, rows[..|rows| - 1]), rows[|rows| - 1])
  }

  function Max(x: real, y: real): real { if x >= y then x else y }

  function IngestTotals(a: Accumulator, minute: int, pipelines: int, cents: Option<real>): Accumulator {
    var b := a.(pipelines := a.pipelines[minute := pipelines]);
    if cents.None? then b
    else
      var top := Max(b.earnedMax, cents.value);
      b.(earnedMax := top, earnedAfter := b.earnedAfter[minute := top])
  }

  function Ingest(a: Accumulator, s: Summary): Accumulator {
    if s.at.None? then a
    else IngestRows(IngestTotals(a, FloorToMinute(s.at.value), s.pipelines, s.cents), s.activity)
  }

  // ---------------------------------------------------------------------------------------------
  // The capped set

  lemma KeysAreNotEmpty(r: Row)
    ensures DedupeKey(r) != ""
  {
  }

  /** The set is exactly the queue's contents, each key once, and never more than the cap. */
  ghost predicate QueueOK(a: Accumulator) {
    Distinct(a.queue) && |a.queue| <= DEDUPE_CAP && (forall k :: k in a.dedupe <==> k in a.queue) && "" !in a.queue
  }

  lemma AppendedMembers(q: seq<string>, key: string)
    requires Distinct(q) && key !in q
    ensures Distinct(q + [key]) && forall k :: k in q + [key] <==> k in q || k == key
  {
  }

  lemma RestMembers(q: seq<string>)
    requires Distinct(q) && |q| > 0
    ensures Distinct(q[1..]) && forall k :: k in q[1..] <==> k in q && k != q[0]
  {
    assert q == [q[0]] + q[1..];
    assert q[0] !in q[1..];
  }

  lemma PushKeepsQueue(a: Accumulator, key: string)
    requires QueueOK(a) && key != ""
    ensures QueueOK(Push(a, key))
    ensures key !in a.dedupe ==> Push(a, key).queue == Newest(a.queue + [key], 8000)
    ensures Push(a, key) == a.(queue := Push(a, key).queue, dedupe := Push(a, key).dedupe)
  {
    if key !in a.dedupe {
      AppendedMembers(a.queue, key);
      if |a.queue| == DEDUPE_CAP {
        var b := a.(dedupe := a.dedupe + {key}, queue := a.queue + [key]);
        RestMembers(b.queue);
        assert b.queue[0] == a.queue[0] && a.queue[0] in a.queue;
        assert Trim(b) == b.(queue := b.queue[1..], dedupe := b.dedupe - {b.queue[0]});
      }
    }
  }

  lemma {:induction false} RowsKeepQueue(a: Accumulator, rows: seq<Row>)
    requires QueueOK(a)
    ensures QueueOK(IngestRows(a, rows))
  {
    if rows != [] {
      RowsKeepQueue(a, rows[..|rows| - 1]);
      KeysAreNotEmpty(rows[|rows| - 1]);
      PushKeepsQueue(IngestRows(a, rows[..|rows| - 1]), DedupeKey(rows[|rows| - 1]));
    }
  }

  // ---------------------------------------------------------------------------------------------
  // Exactly-once counting of sliding snapshots

  /** A poll that saw the newest size entries of the first end entries of the log. */
  datatype Poll = Poll(end: nat, size: nat, at: Option<int>, pipelines: int, cents: Option<real>)

  const MAX_ROWS: nat := 100

  ghost predicate ValidPolls(log: seq<Row>, polls: seq<Poll>) {
    && (forall i :: 0 <= i < |polls| ==> polls[i].size <= MAX_ROWS && polls[i].size <= polls[i].end <= |log|)
    && (forall i, j :: 0 <= i < j < |polls| ==> polls[i].end <= polls[j].end)
  }

  /** The entries of the append-only log are pairwise different and carry no NUL. */
  ghost predicate DistinctEntries(log: seq<Row>) {
    && (forall i :: 0 <= i < |log| ==> NulFreeRow(log[i]))
    && forall i, j :: 0 <= i < j < |log| ==> !SameEntry(log[i], log[j])
  }

  /** They are then told apart by their keys. */
  ghost predicate DistinctKeys(log: seq<Row>) {
    forall i, j :: 0 <= i < j < |log| ==> DedupeKey(log[i]) != DedupeKey(log[j])
  }

  lemma EntriesHaveKeys(log: seq<Row>)
    requires DistinctEntries(log)
    ensures DistinctKeys(log)
  {
    forall i, j | 0 <= i < j < |log| ensures DedupeKey(log[i]) != DedupeKey(log[j]) {
      DedupeKeyIdentifies(log[i], log[j]);
    }
  }

  function SummaryOf(log: seq<Row>, q: Poll): Summary
    requires q.size <= q.end <= |log|
  {
    Summary(q.at, q.pipelines, q.cents, NewestFirst(log[q.end - q.size..q.end]))
  }

  ghost function IngestPolls(log: seq<Row>, polls: seq<Poll>): Accumulator
    requires ValidPolls(log, polls)
  {
    if polls == [] then EmptyAccumulator
    else Ingest(IngestPolls(log, polls[..|polls| - 1]), SummaryOf(log, polls[|polls| - 1]))
  }

  /** The entry was in the snapshot of some poll that parsed, and its own timestamp parses. */
  ghost predicate Sighted(log: seq<Row>, polls: seq<Poll>, e: nat)
    requires ValidPolls(log, polls)
  {
    e < |log| && log[e].at.Some? &&
    exists i :: 0 <= i < |polls| && polls[i].at.Some? && polls[i].end - polls[i].size <= e < polls[i].end
  }

  /** How many of the given entries fall into a minute. */
  ghost function CountIn(log: seq<Row>, counted: seq<nat>, minute: int): int
    requires forall i :: 0 <= i < |counted| ==> counted[i] < |log| && log[counted[i]].at.Some?
  {
    if counted == [] then 0
    else
      CountIn(log, counted[..|counted| - 1], minute) +
      (if FloorToMinute(log[counted[|counted| - 1]].at.value) == minute then 1 else 0)
  }

  /**
   counted lists the entries counted so far in counting order, all below end. A later entry is less than a
   hundred places before an earlier one, and the queue holds the keys of the newest DEDUPE_CAP of them.
   */
  ghost predicate Counting(log: seq<Row>, a: Accumulator, counted: seq<nat>, end: nat) {
    && end <= |log|
    && Distinct(counted)
    && (forall i :: 0 <= i < |counted| ==> counted[i] < end && log[counted[i]].at.Some?)
    && (forall i, j :: 0 <= i < j < |counted| ==> counted[j] + MAX_ROWS > counted[i])
    && QueueOK(a)
    && Mirrors(log, a.queue, counted)
    && (forall m :: EventsAt(a, m) == CountIn(log, counted, m))
  }

  /** Fewer than two hundred entries are counted between two sightings of an entry: its key is still queued. */
  lemma SightedAgainIsQueued(log: seq<Row>, a: Accumulator, counted: seq<nat>, end: nat, e: nat, at: nat)
    requires Counting(log, a, counted, end) && e < end <= e + MAX_ROWS
    requires at < |counted| && counted[at] == e
    ensures DedupeKey(log[e]) in a.dedupe
  {
    var later: seq<int> := counted[at + 1..];
    assert forall i :: 0 <= i < |later| ==> later[i] == counted[at + 1 + i];
    assert forall i :: 0 <= i < |later| ==> e - MAX_ROWS < later[i] < end;
    DistinctInRange(later, e - MAX_ROWS, end);
    var i := |a.queue| - |counted| + at;
    assert 0 <= i < |a.queue|;
    assert a.queue[i] == DedupeKey(log[e]);
  }

  lemma UncountedIsNotQueued(log: seq<Row>, a: Accumulator, counted: seq<nat>, end: nat, e: nat)
    requires DistinctKeys(log) && Counting(log, a, counted, end) && e < end && e !in counted
    ensures DedupeKey(log[e]) !in a.dedupe
  {
    forall i | 0 <= i < |a.queue| ensures a.queue[i] != DedupeKey(log[e]) {
      var f := counted[|counted| - |a.queue| + i];
      assert f in counted;
      if f < e { assert DedupeKey(log[f]) != DedupeKey(log[e]); } else { assert DedupeKey(log[e]) != DedupeKey(log[f]); }
    }
  }

  lemma DropRow(log: seq<Row>, a: Accumulator, counted: seq<nat>, end: nat, e: nat)
    requires Counting(log, a, counted, end) && e < end <= e + MAX_ROWS
    requires log[e].at.Some? ==> e in counted
    ensures IngestRow(a, log[e]) == a
  {
    if log[e].at.Some? {
      var at :| 0 <= at < |counted| && counted[at] == e;
      SightedAgainIsQueued(log, a, counted, end, e, at);
    }
  }

  lemma CountInSnoc(log: seq<Row>, counted: seq<nat>, e: nat, minute: int)
    requires forall i :: 0 <= i < |counted| ==> counted[i] < |log| && log[counted[i]].at.Some?
    requires e < |log| && log[e].at.Some?
    ensures CountIn(log, counted + [e], minute) ==
            CountIn(log, counted, minute) + (if FloorToMinute(log[e].at.value) == minute then 1 else 0)
  {
    assert (counted + [e])[..|counted|] == counted;
  }

  /** The queue holds the keys of the newest counted entries, in counting order. */
  ghost predicate Mirrors(log: seq<Row>, queue: seq<string>, counted: seq<nat>) {
    && (forall i :: 0 <= i < |counted| ==> counted[i] < |log|)
    && |queue| == (if |counted| <= DEDUPE_CAP then |counted| else DEDUPE_CAP)
    && (forall i :: 0 <= i < |queue| ==> queue[i] == DedupeKey(log[counted[|counted| - |queue| + i]]))
  }

  lemma MirrorsSnoc(log: seq<Row>, queue: seq<string>, counted: seq<nat>, e: nat)
    requires Mirrors(log, queue, counted) && e < |log|
    ensures Mirrors(log, Newest(queue + [DedupeKey(log[e])], DEDUPE_CAP), counted + [e])
  {
    var queue', counted' := Newest(queue + [DedupeKey(log[e])], DEDUPE_CAP), counted + [e];
    var drop := |queue| + 1 - |queue'|;
    forall i | 0 <= i < |queue'| ensures queue'[i] == DedupeKey(log[counted'[|counted'| - |queue'| + i]]) {
      if i + drop < |queue| {
        assert queue'[i] == queue[i + drop];
        assert counted'[|counted'| - |queue'| + i] == counted[|counted| - |queue| + (i + drop)];
      }
    }
  }

  lemma CountRow(log: seq<Row>, a: Accumulator, counted: seq<nat>, end: nat, e: nat)
    requires DistinctKeys(log) && Counting(log, a, counted, end) && e < end <= e + MAX_ROWS
    requires log[e].at.Some? && e !in counted
    ensures Counting(log, IngestRow(a, log[e]), counted + [e], end)
  {
    var key, b, counted' := DedupeKey(log[e]), IngestRow(a, log[e]), counted + [e];
    UncountedIsNotQueued(log, a, counted, end, e);
    KeysAreNotEmpty(log[e]);
    PushKeepsQueue(a, key);
    MirrorsSnoc(log, a.queue, counted, e);
    forall m ensures EventsAt(b, m) == CountIn(log, counted', m) {
      CountInSnoc(log, counted, e, m);
    }
  }

  /** The entries counted when every entry is counted at its first sighting: the set without a cap. */
  ghost function CountedRows(log: seq<Row>, counted: seq<nat>, end: nat, n: nat): seq<nat>
    requires n <= end <= |log|
  {
    if n == 0 then counted
    else
      var before, e := CountedRows(log, counted, end, n - 1), end - n;
      if log[e].at.Some? && e !in before then before + [e] else before
  }

  ghost function Counted(log: seq<Row>, polls: seq<Poll>): seq<nat>
    requires ValidPolls(log, polls)
  {
    if polls == [] then []
    else
      CountedByPoll(log, Counted(log, polls[..|polls| - 1]), polls[|polls| - 1])
  }

  lemma CountNextRow(log: seq<Row>, a: Accumulator, counted: seq<nat>, end: nat, e: nat)
    requires DistinctKeys(log) && Counting(log, a, counted, end) && e < end <= e + MAX_ROWS
    ensures Counting(log, IngestRow(a, log[e]),
                     if log[e].at.Some? && e !in counted then counted + [e] else counted, end)
  {
    if log[e].at.Some? && e !in counted {
      CountRow(log, a, counted, end, e);
    } else {
      DropRow(log, a, counted, end, e);
    }
  }

  /** The n newest of the first end entries, ingested newest first. */
  ghost function IngestNewest(log: seq<Row>, a: Accumulator, end: nat, n: nat): Accumulator
    requires n <= end <= |log|
  {
    if n == 0 then a else IngestRow(IngestNewest(log, a, end, n - 1), log[end - n])
  }

  lemma {:induction false} RowsAreNewest(log: seq<Row>, a: Accumulator, end: nat, size: nat, n: nat)
    requires n <= size <= end <= |log|
    ensures IngestRows(a, NewestFirst(log[end - size..end])[..n]) == IngestNewest(log, a, end, n)
  {
    var rows := NewestFirst(log[end - size..end]);
    if n > 0 {
      RowsAreNewest(log, a, end, size, n - 1);
      NewestFirstAt(log[end - size..end], n - 1);
      assert rows[..n][..n - 1] == rows[..n - 1];
    }
  }

  lemma {:induction false} CountRows(log: seq<Row>, a: Accumulator, counted: seq<nat>, end: nat, n: nat)
    requires DistinctKeys(log) && Counting(log, a, counted, end) && n <= end && n <= MAX_ROWS
    ensures Counting(log, IngestNewest(log, a, end, n), CountedRows(log, counted, end, n), end)
  {
    if n > 0 {
      var b, before, e := IngestNewest(log, a, end, n - 1), CountedRows(log, counted, end, n - 1), end - n;
      CountRows(log, a, counted, end, n - 1);
      CountNextRow(log, b, before, end, e);
      assert IngestNewest(log, a, end, n) == IngestRow(b, log[e]);
      assert CountedRows(log, counted, end, n) == if log[e].at.Some? && e !in before then before + [e] else before;
    }
  }

  lemma CountingLater(log: seq<Row>, a: Accumulator, b: Accumulator, counted: seq<nat>, end: nat, end': nat)
    requires Counting(log, a, counted, end) && end <= end' <= |log|
    requires b.dedupe == a.dedupe && b.queue == a.queue && b.events == a.events
    ensures Counting(log, b, counted, end')
  {
  }

  ghost function LastEnd(polls: seq<Poll>): nat {
    if polls == [] then 0 else polls[|polls| - 1].end
  }

  /** The entries counted after one more poll. */
  ghost function CountedByPoll(log: seq<Row>, counted: seq<nat>, q: Poll): seq<nat>
    requires q.size <= q.end <= |log|
  {
    if q.at.None? then counted else CountedRows(log, counted, q.end, q.size)
  }

  lemma CountPoll(log: seq<Row>, a: Accumulator, counted: seq<nat>, end: nat, q: Poll)
    requires DistinctKeys(log) && Counting(log, a, counted, end)
    requires end <= q.end <= |log| && q.size <= q.end && q.size <= MAX_ROWS
    ensures Counting(log, Ingest(a, SummaryOf(log, q)), CountedByPoll(log, counted, q), q.end)
  {
    if q.at.Some? {
      var b := IngestTotals(a, FloorToMinute(q.at.value), q.pipelines, q.cents);
      CountingLater(log, a, b, counted, end, q.end);
      CountRows(log, b, counted, q.end, q.size);
      RowsAreNewest(log, b, q.end, q.size, q.size);
      var rows := NewestFirst(log[q.end - q.size..q.end]);
      assert rows[..q.size] == rows;
    } else {
      CountingLater(log, a, a, counted, end, q.end);
    }
  }

  /** The capped set counts exactly what an unbounded set would: no entry is ever counted twice. */
  lemma {:induction false} CapIsInvisible(log: seq<Row>, polls: seq<Poll>)
    requires DistinctEntries(log) && ValidPolls(log, polls)
    ensures Counting(log, IngestPolls(log, polls), Counted(log, polls), LastEnd(polls))
  {
    if polls != [] {
      var before, q := polls[..|polls| - 1], polls[|polls| - 1];
      CapIsInvisible(log, before);
      EntriesHaveKeys(log);
      CountPoll(log, IngestPolls(log, before), Counted(log, before), LastEnd(before), q);
    }
  }

  lemma {:induction false} CountedRowsMembers(log: seq<Row>, counted: seq<nat>, end: nat, n: nat, e: nat)
    requires n <= end <= |log|
    ensures e in CountedRows(log, counted, end, n) <==>
            e in counted || (end - n <= e < end && log[e].at.Some?)
  {
    if n > 0 {
      CountedRowsMembers(log, counted, end, n - 1, e);
    }
  }

  /** What is counted is what was sighted: every entry of some snapshot, and nothing else. */
  lemma {:induction false} CountedIffSighted(log: seq<Row>, polls: seq<Poll>, e: nat)
    requires ValidPolls(log, polls)
    ensures e in Counted(log, polls) <==> Sighted(log, polls, e)
  {
    if polls != [] {
      var before, q := polls[..|polls| - 1], polls[|polls| - 1];
      CountedIffSighted(log, before, e);
      CountedRowsMembers(log, Counted(log, before), q.end, q.size, e);
      SightedSnoc(log, before, q, e);
      assert polls == before + [q];
    }
  }

  lemma SightedSnoc(log: seq<Row>, polls: seq<Poll>, q: Poll, e: nat)
    requires ValidPolls(log, polls + [q]) && ValidPolls(log, polls)
    ensures Sighted(log, polls + [q], e) <==>
            Sighted(log, polls, e) ||
            (e < |log| && log[e].at.Some? && q.at.Some? && q.end - q.size <= e < q.end)
  {
    assert (polls + [q])[|polls|] == q;
    if Sighted(log, polls, e) {
      var i :| 0 <= i < |polls| && polls[i].at.Some? && polls[i].end - polls[i].size <= e < polls[i].end;
      assert (polls + [q])[i] == polls[i];
    }
  }

  ghost function MinuteOf(r: Row): int {
    if r.at.Some? then FloorToMinute(r.at.value) else -1
  }

  ghost function InMinute(log: seq<Row>, counted: seq<nat>, minute: int): set<nat> {
    set e | e in counted && e < |log| && log[e].at.Some? && MinuteOf(log[e]) == minute
  }

  lemma InMinuteSnoc(log: seq<Row>, counted: seq<nat>, f: nat, minute: int)
    requires f !in counted && f < |log| && log[f].at.Some?
    ensures |InMinute(log, counted + [f], minute)| ==
            |InMinute(log, counted, minute)| + (if MinuteOf(log[f]) == minute then 1 else 0)
  {
    var s, t := InMinute(log, counted, minute), InMinute(log, counted + [f], minute);
    assert forall e :: e in counted + [f] <==> e in counted || e == f;
    if MinuteOf(log[f]) == minute {
      assert t == s + {f};
    } else {
      assert t == s;
    }
  }

  lemma {:induction false} CountInIsSetSize(log: seq<Row>, counted: seq<nat>, minute: int)
    requires Distinct(counted)
    requires forall i :: 0 <= i < |counted| ==> counted[i] < |log| && log[counted[i]].at.Some?
    ensures CountIn(log, counted, minute) == |InMinute(log, counted, minute)|
  {
    if counted != [] {
      var before, f := counted[..|counted| - 1], counted[|counted| - 1];
      CountInIsSetSize(log, before, minute);
      assert counted == before + [f];
      InMinuteSnoc(log, before, f, minute);
    } else {
      assert InMinute(log, counted, minute) == {};
    }
  }

  /**
   Exactly-once: after any sequence of polls of one append-only log of different entries, each poll seeing at
   most the newest hundred, the count of a minute is the number of entries of that minute that some poll saw.
   The evictions of the capped set make no difference.
   */
  lemma SnapshotsCountExactlyOnce(log: seq<Row>, polls: seq<Poll>, minute: int)
    requires DistinctEntries(log) && ValidPolls(log, polls)
    ensures EventsAt(IngestPolls(log, polls), minute) ==
            |set e: nat | e < |log| && Sighted(log, polls, e) && MinuteOf(log[e]) == minute|
  {
    var counted := Counted(log, polls);
    CapIsInvisible(log, polls);
    CountInIsSetSize(log, counted, minute);
    forall e: nat ensures e in counted <==> Sighted(log, polls, e) {
      CountedIffSighted(log, polls, e);
    }
    assert InMinute(log, counted, minute) ==
           (set e: nat | e < |log| && Sighted(log, polls, e) && MinuteOf(log[e]) == minute);
  }

  /** A poll of a feed that keeps at least a hundred entries sees the newest hundred of the whole log. */
  lemma FeedPollIsValid(log: seq<Row>, end: nat, max: nat, limit: nat)
    requires end <= |log| && limit <= MAX_ROWS <= max
    ensures var size := if end <= limit then end else limit;
            NewestFirst(Newest(Newest(log[..end], max), limit)) == NewestFirst(log[end - size..end])
  {
    NewestOfNewest(log[..end], max, limit);
    var size := if end <= limit then end else limit;
    assert Newest(log[..end], limit) == log[end - size..end];
  }
}

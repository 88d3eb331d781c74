/** The mutable accumulator and the chart window projected from it. */
module TelemetryWindow {
  import opened Collections
  import opened Telemetry

  // ---------------------------------------------------------------------------------------------
  // Full-history readings

  ghost predicate OnMinute(m: int) { m % MINUTE_MS == 0 }

  /** Counts and cents are kept under whole minutes. */
  ghost predicate MinuteKeys(a: Accumulator) {
    (forall m :: m in a.events ==> OnMinute(m)) && (forall m :: m in a.earnedAfter ==> OnMinute(m))
  }

  /** All events of the whole history at or before a minute. */
  ghost function EventsUpTo(a: Accumulator, t: int): int {
    SumMap(map m | m in a.events && m <= t :: a.events[m])
  }

  lemma EventsUpToNext(a: Accumulator, t: int)
    requires MinuteKeys(a) && OnMinute(t)
    ensures EventsUpTo(a, t) == EventsUpTo(a, t - MINUTE_MS) + EventsAt(a, t)
  {
    var before := map m | m in a.events && m <= t - MINUTE_MS :: a.events[m];
    var upTo := map m | m in a.events && m <= t :: a.events[m];
    forall m | m in a.events && m <= t ensures m <= t - MINUTE_MS || m == t {
      assert OnMinute(m);
    }
    if t in a.events {
      assert upTo == before[t := a.events[t]];
      SumMapUpdate(before, t, a.events[t]);
    } else {
      assert upTo == before;
    }
  }

  /** v is the greatest value stored at or before t, and not below zero. */
  ghost predicate IsTop(m: map<int, real>, t: int, v: real) {
    && v >= 0.0
    && (forall k :: k in m && k <= t ==> m[k] <= v)
    && (v == 0.0 || exists k :: k in m && k <= t && m[k] == v)
  }

  lemma TopIsUnique(m: map<int, real>, t: int, v: real, u: real)
    requires IsTop(m, t, v) && IsTop(m, t, u)
    ensures v == u
  {
  }

  ghost predicate Nondecreasing(m: map<int, real>) {
    (forall k, l :: k in m && l in m && k <= l ==> m[k] <= m[l]) && (forall k :: k in m ==> m[k] >= 0.0)
  }

  lemma EarlierMinute(k: int, t: int)
    requires OnMinute(k) && OnMinute(t) && k < t
    ensures k <= t - MINUTE_MS
  {
  }

  lemma TopNext(m: map<int, real>, t: int, v: real)
    requires Nondecreasing(m) && OnMinute(t) && MinuteMap(m)
    requires IsTop(m, t - MINUTE_MS, v)
    ensures IsTop(m, t, if t in m then m[t] else v)
  {
    forall k | k in m && k <= t ensures k <= t - MINUTE_MS || k == t {
      if k < t { EarlierMinute(k, t); }
    }
  }

  // ---------------------------------------------------------------------------------------------
  // Polls in minute order

  ghost function IngestAll(ss: seq<Summary>): Accumulator {
    if ss == [] then EmptyAccumulator else Ingest(IngestAll(ss[..|ss| - 1]), ss[|ss| - 1])
  }

  lemma IngestAllSnoc(ss: seq<Summary>, s: Summary)
    ensures IngestAll(ss + [s]) == Ingest(IngestAll(ss), s)
  {
    assert (ss + [s])[..|ss|] == ss;
  }

  ghost predicate InMinuteOrder(ss: seq<Summary>) {
    forall i, j :: 0 <= i < j < |ss| && ss[i].at.Some? && ss[j].at.Some? ==>
      FloorToMinute(ss[i].at.value) <= FloorToMinute(ss[j].at.value)
  }

  /** The number of pipelines in the last poll of a minute, if there was one. */
  ghost function LastPipelines(ss: seq<Summary>, minute: int): Option<int> {
    if ss == [] then None
    else
      var s := ss[|ss| - 1];
      if s.at.Some? && s.at.value / 60000 * 60000 == minute then Some(s.pipelines)
      else LastPipelines(ss[..|ss| - 1], minute)
  }

  lemma {:induction false} PipelinesFollowPolls(ss: seq<Summary>, minute: int)
    ensures var a := IngestAll(ss);
            LastPipelines(ss, minute) == if minute in a.pipelines then Some(a.pipelines[minute]) else None
  {
    if ss != [] {
      var before, s := ss[..|ss| - 1], ss[|ss| - 1];
      PipelinesFollowPolls(before, minute);
      if s.at.Some? {
        RowsKeepTotals(IngestTotals(IngestAll(before), FloorToMinute(s.at.value), s.pipelines, s.cents), s.activity);
      }
    }
  }

  /** The greatest number of cents any poll up to the given minute reported; zero before the first. */
  ghost function MaxCents(ss: seq<Summary>, t: int): real {
    if ss == [] then 0.0
    else
      var before, s := MaxCents(ss[..|ss| - 1], t), ss[|ss| - 1];
      if s.at.Some? && s.cents.Some? && FloorToMinute(s.at.value) <= t then Max(before, s.cents.value) else before
  }

  lemma {:induction false} RowsKeepTotals(a: Accumulator, rows: seq<Row>)
    ensures IngestRows(a, rows).earnedMax == a.earnedMax && IngestRows(a, rows).earnedAfter == a.earnedAfter
    ensures IngestRows(a, rows).pipelines == a.pipelines
  {
    if rows != [] {
      RowsKeepTotals(a, rows[..|rows| - 1]);
      TrimKeepsTotals(IngestRows(a, rows[..|rows| - 1]), DedupeKey(rows[|rows| - 1]));
    }
  }

  lemma TrimKeepsTotals(a: Accumulator, key: string)
    ensures Push(a, key) == a.(queue := Push(a, key).queue, dedupe := Push(a, key).dedupe)
  {
    TrimOnlyQueue(a.(dedupe := a.dedupe + {key}, queue := a.queue + [key]));
  }

  lemma {:induction false} TrimOnlyQueue(a: Accumulator)
    ensures Trim(a) == a.(queue := Trim(a).queue, dedupe := Trim(a).dedupe)
    decreases |a.queue|
  {
    if |a.queue| > DEDUPE_CAP {
      TrimOnlyQueue(a.(queue := a.queue[1..], dedupe := if a.queue[0] == "" then a.dedupe else a.dedupe - {a.queue[0]}));
    }
  }

  /** Every parsed poll is at or before the minute. */
  ghost predicate AllBy(ss: seq<Summary>, t: int) {
    forall i :: 0 <= i < |ss| && ss[i].at.Some? ==> FloorToMinute(ss[i].at.value) <= t
  }

  ghost predicate EarnedOK(ss: seq<Summary>, a: Accumulator) {
    && Nondecreasing(a.earnedAfter)
    && (forall t :: IsTop(a.earnedAfter, t, MaxCents(ss, t)))
    && (forall t :: AllBy(ss, t) ==> MaxCents(ss, t) == a.earnedMax)
    && (forall k :: k in a.earnedAfter ==> a.earnedAfter[k] <= a.earnedMax)
    && (forall t, k :: AllBy(ss, t) && k in a.earnedAfter ==> k <= t)
  }

  lemma TopBefore(m: map<int, real>, minute: int, x: real, t: int, v: real)
    requires IsTop(m, t, v) && t < minute
    ensures IsTop(m[minute := x], t, v)
  {
    if v != 0.0 {
      var k :| k in m && k <= t && m[k] == v;
      assert k in m[minute := x] && m[minute := x][k] == v;
    }
  }

  lemma AllBySnoc(ss: seq<Summary>, s: Summary, t: int)
    ensures AllBy(ss + [s], t) <==> AllBy(ss, t) && (s.at.Some? ==> FloorToMinute(s.at.value) <= t)
  {
    var ss' := ss + [s];
    assert ss'[|ss|] == s && forall i :: 0 <= i < |ss| ==> ss'[i] == ss[i];
    if AllBy(ss', t) {
      forall i | 0 <= i < |ss| && ss[i].at.Some? ensures FloorToMinute(ss[i].at.value) <= t {
        assert ss'[i] == ss[i];
      }
    }
  }

  lemma MaxCentsSnoc(ss: seq<Summary>, s: Summary, t: int)
    ensures MaxCents(ss + [s], t) ==
            if s.at.Some? && s.cents.Some? && FloorToMinute(s.at.value) <= t
            then Max(MaxCents(ss, t), s.cents.value) else MaxCents(ss, t)
  {
    assert (ss + [s])[..|ss|] == ss;
  }

  lemma TopAt(m: map<int, real>, minute: int, x: real, t: int)
    requires minute <= t && x >= 0.0 && forall k :: k in m ==> m[k] <= x
    ensures IsTop(m[minute := x], t, x)
  {
    assert m[minute := x][minute] == x;
  }

  /** The new poll's minute is the latest and holds the greatest value. */
  lemma EarnedPollStored(ss: seq<Summary>, a: Accumulator, minute: int, top: real)
    requires EarnedOK(ss, a) && AllBy(ss, minute) && top >= a.earnedMax >= 0.0
    ensures var m := a.earnedAfter[minute := top];
            Nondecreasing(m) && forall k :: k in m ==> m[k] <= top && k <= minute
  {
    assert forall k :: k in a.earnedAfter ==> k <= minute;
  }

  lemma EarnedPollTop(ss: seq<Summary>, a: Accumulator, s: Summary, t: int)
    requires EarnedOK(ss, a) && s.at.Some? && s.cents.Some? && AllBy(ss, FloorToMinute(s.at.value))
    requires a.earnedMax >= 0.0
    ensures var minute, top := FloorToMinute(s.at.value), Max(a.earnedMax, s.cents.value);
            && IsTop(a.earnedAfter[minute := top], t, MaxCents(ss + [s], t))
            && (AllBy(ss + [s], t) ==> MaxCents(ss + [s], t) == top && minute <= t)
  {
    var minute, top := FloorToMinute(s.at.value), Max(a.earnedMax, s.cents.value);
    MaxCentsSnoc(ss, s, t);
    AllBySnoc(ss, s, t);
    if minute <= t {
      assert AllBy(ss, t);
      TopAt(a.earnedAfter, minute, top, t);
    } else {
      TopBefore(a.earnedAfter, minute, top, t, MaxCents(ss, t));
    }
  }

  lemma EarnedPoll(ss: seq<Summary>, a: Accumulator, s: Summary)
    requires EarnedOK(ss, a) && s.at.Some? && s.cents.Some?
    requires AllBy(ss, FloorToMinute(s.at.value))
    ensures EarnedOK(ss + [s], IngestTotals(a, FloorToMinute(s.at.value), s.pipelines, s.cents))
  {
    var minute, top := FloorToMinute(s.at.value), Max(a.earnedMax, s.cents.value);
    assert a.earnedMax >= 0.0 by { assert IsTop(a.earnedAfter, minute, MaxCents(ss, minute)); }
    var ss', m' := ss + [s], a.earnedAfter[minute := top];
    EarnedPollStored(ss, a, minute, top);
    forall t
      ensures IsTop(m', t, MaxCents(ss', t))
      ensures AllBy(ss', t) ==> MaxCents(ss', t) == top && minute <= t
    {
      EarnedPollTop(ss, a, s, t);
    }
  }

  lemma EarnedSkip(ss: seq<Summary>, a: Accumulator, s: Summary)
    requires EarnedOK(ss, a) && (s.at.None? || s.cents.None?)
    ensures EarnedOK(ss + [s], a)
  {
    var ss' := ss + [s];
    assert ss'[..|ss|] == ss && ss'[|ss|] == s;
    forall t ensures MaxCents(ss', t) == MaxCents(ss, t) {
    }
    forall t | AllBy(ss', t) ensures AllBy(ss, t) {
      forall i | 0 <= i < |ss| && ss[i].at.Some? ensures FloorToMinute(ss[i].at.value) <= t {
        assert ss'[i] == ss[i];
      }
    }
  }

  lemma {:induction false} EarnedFollowsPolls(ss: seq<Summary>)
    requires InMinuteOrder(ss)
    ensures EarnedOK(ss, IngestAll(ss))
  {
    if ss != [] {
      var before, s := ss[..|ss| - 1], ss[|ss| - 1];
      EarnedFollowsPolls(before);
      assert ss == before + [s];
      if s.at.Some? {
        var b := IngestTotals(IngestAll(before), FloorToMinute(s.at.value), s.pipelines, s.cents);
        RowsKeepTotals(b, s.activity);
        if s.cents.Some? {
          EarnedPoll(before, IngestAll(before), s);
        } else {
          EarnedSkip(before, IngestAll(before), s);
        }
      } else {
        EarnedSkip(before, IngestAll(before), s);
      }
    } else {
      assert forall t :: MaxCents(ss, t) == 0.0;
    }
  }

  /** When polls come in minute order, the value charted for a minute is the most any poll so far reported. */
  lemma EarnedIsMaxOfPolls(ss: seq<Summary>, t: int, v: real)
    requires InMinuteOrder(ss)
    ensures Nondecreasing(IngestAll(ss).earnedAfter)
    ensures IsTop(IngestAll(ss).earnedAfter, t, v) <==> v == MaxCents(ss, t)
  {
    EarnedFollowsPolls(ss);
    assert IsTop(IngestAll(ss).earnedAfter, t, MaxCents(ss, t));
    if IsTop(IngestAll(ss).earnedAfter, t, v) {
      TopIsUnique(IngestAll(ss).earnedAfter, t, v, MaxCents(ss, t));
    }
  }

  lemma {:induction false} MaxCentsGrows(ss: seq<Summary>, t: int, u: int)
    requires t <= u
    ensures 0.0 <= MaxCents(ss, t) <= MaxCents(ss, u)
  {
    if ss != [] {
      MaxCentsGrows(ss[..|ss| - 1], t, u);
    }
  }

  // ---------------------------------------------------------------------------------------------
  // The mutable accumulator

  datatype ChartRow = ChartRow(minute: int, pipelines: int, events: int, cumulative: int, earnedCents: real)

  /** v is stored at slot j of the window, the last one up to i at which anything is stored. */
  ghost predicate StoredLast<T>(slots: seq<int>, source: map<int, T>, i: nat, j: nat, v: T)
    requires j <= i < |slots|
  {
    slots[j] in source && source[slots[j]] == v && forall k :: j < k <= i ==> slots[k] !in source
  }

  /** v is the latest value stored at or before slot i of the window, or the fallback if there is none. */
  ghost predicate LatestAt<T>(slots: seq<int>, source: map<int, T>, fallback: T, i: nat, v: T)
    requires i < |slots|
  {
    if forall k :: 0 <= k <= i ==> slots[k] !in source then v == fallback
    else exists j :: 0 <= j <= i && StoredLast(slots, source, i, j, v)
  }

  /** Row i shows the pipelines of the last poll in the latest minute of the window that had one; none before that. */
  ghost predicate ShowsPipelines(polls: seq<Summary>, rows: seq<ChartRow>, i: nat)
    requires i < |rows|
  {
    if forall k :: 0 <= k <= i ==> LastPipelines(polls, rows[k].minute).None? then rows[i].pipelines == 0
    else
      exists j {:trigger rows[j].minute} ::
        && 0 <= j <= i && LastPipelines(polls, rows[j].minute) == Some(rows[i].pipelines)
        && forall k :: j < k <= i ==> LastPipelines(polls, rows[k].minute).None?
  }

  lemma RowShowsPipelines(polls: seq<Summary>, slots: seq<int>, rows: seq<ChartRow>, i: nat)
    requires i < |rows| == |slots| && forall k :: 0 <= k < |rows| ==> rows[k].minute == slots[k]
    requires LatestAt(slots, IngestAll(polls).pipelines, 0, i, rows[i].pipelines)
    ensures ShowsPipelines(polls, rows, i)
  {
    forall k | 0 <= k <= i
      ensures LastPipelines(polls, rows[k].minute) ==
              if slots[k] in IngestAll(polls).pipelines then Some(IngestAll(polls).pipelines[slots[k]]) else None
    {
      PipelinesFollowPolls(polls, slots[k]);
    }
    if k :| 0 <= k <= i && slots[k] in IngestAll(polls).pipelines {
      var j :| 0 <= j <= i && StoredLast(slots, IngestAll(polls).pipelines, i, j, rows[i].pipelines);
      assert LastPipelines(polls, rows[j].minute) == Some(rows[i].pipelines);
    }
  }

  lemma LatestNext<T>(slots: seq<int>, source: map<int, T>, fallback: T, i: nat, last: T)
    requires i < |slots| && (if i == 0 then last == fallback else LatestAt(slots, source, fallback, i - 1, last))
    ensures LatestAt(slots, source, fallback, i, if slots[i] in source then source[slots[i]] else last)
  {
    if slots[i] in source {
      assert StoredLast(slots, source, i, i, source[slots[i]]);
    } else if exists k :: 0 <= k <= i && slots[k] in source {
      var j :| 0 <= j <= i - 1 && StoredLast(slots, source, i - 1, j, last);
      assert StoredLast(slots, source, i, j, last);
    }
  }

  method ForwardFill<T>(slots: seq<int>, source: map<int, T>, fallback: T) returns (out: seq<T>)
    ensures |out| == |slots| && forall i :: 0 <= i < |slots| ==> LatestAt(slots, source, fallback, i, out[i])
  {
    out := [];
    var last := fallback;
    for i := 0 to |slots|
      invariant |out| == i && forall j :: 0 <= j < i ==> LatestAt(slots, source, fallback, j, out[j])
      invariant last == if i == 0 then fallback else out[i - 1]
    {
      LatestNext(slots, source, fallback, i, last);
      if slots[i] in source {
        last := source[slots[i]];
      }
      out := out + [last];
    }
  }

  lemma NonEmpty(s: set<int>)
    requires s != {}
    ensures exists m :: m in s
  {
    if forall m :: m !in s {
      assert false;
    }
  }

  lemma TakeOut(m: map<int, int>, bound: int, rest: set<int>, k: int)
    requires k in rest && k in m
    ensures SumMap(map j | j in m && j < bound && j !in rest - {k} :: m[j]) ==
            SumMap(map j | j in m && j < bound && j !in rest :: m[j]) + (if k < bound then m[k] else 0)
  {
    var before := map j | j in m && j < bound && j !in rest :: m[j];
    var after := map j | j in m && j < bound && j !in rest - {k} :: m[j];
    if k < bound {
      assert after == before[k := m[k]];
      SumMapUpdate(before, k, m[k]);
    } else {
      assert after == before;
    }
  }

  /** Polls already ingested determine what a row shows; with polls in minute order the rows never fall. */
  lemma RowsFollowPolls(ss: seq<Summary>, rows: seq<ChartRow>)
    requires InMinuteOrder(ss)
    requires forall i :: 0 <= i < |rows| ==> IsTop(IngestAll(ss).earnedAfter, rows[i].minute, rows[i].earnedCents)
    requires forall i, j :: 0 <= i < j < |rows| ==> rows[i].minute <= rows[j].minute
    ensures forall i :: 0 <= i < |rows| ==> rows[i].earnedCents == MaxCents(ss, rows[i].minute)
    ensures forall i, j :: 0 <= i < j < |rows| ==> rows[i].earnedCents <= rows[j].earnedCents
  {
    forall i | 0 <= i < |rows| ensures rows[i].earnedCents == MaxCents(ss, rows[i].minute) {
      EarnedIsMaxOfPolls(ss, rows[i].minute, rows[i].earnedCents);
    }
    forall i, j | 0 <= i < j < |rows| ensures rows[i].earnedCents <= rows[j].earnedCents {
      MaxCentsGrows(ss, rows[i].minute, rows[j].minute);
    }
  }

  class TelemetryAccumulator {
    var dedupe: set<string>
    var dedupeQueue: seq<string>
    var pipelinesAtMinute: map<int, int>
    var eventsPerMinute: map<int, int>
    var earnedCentsMax: real
    var earnedCentsAfterPollMinute: map<int, real>
    ghost var polls: seq<Summary>              // everything ingested so far

    ghost function View(): Accumulator reads this {
      Accumulator(dedupe, dedupeQueue, pipelinesAtMinute, eventsPerMinute, earnedCentsMax, earnedCentsAfterPollMinute)
    }

    ghost predicate Valid() reads this { MinuteKeys(View()) && QueueOK(View()) && View() == IngestAll(polls) }

    constructor ()
      ensures Valid() && View() == EmptyAccumulator && polls == []
    {
      polls := [];
      dedupe, dedupeQueue := {}, [];
      pipelinesAtMinute, eventsPerMinute := map[], map[];
      earnedCentsMax, earnedCentsAfterPollMinute := 0.0, map[];
    }

    /** Adds a key and evicts the oldest ones over the cap; false for a key that is still remembered. */
    method PushDedupe(key: string) returns (added: bool)
      modifies `dedupe, `dedupeQueue
      ensures added == (key !in old(dedupe)) && View() == Push(old(View()), key)
    {
      if key in dedupe {
        return false;
      }
      dedupe := dedupe + {key};
      dedupeQueue := dedupeQueue + [key];
      ghost var start := View();
      while |dedupeQueue| > DEDUPE_CAP
        invariant Trim(View()) == Trim(start)
      {
        var oldest := dedupeQueue[0];
        dedupeQueue := dedupeQueue[1..];
        if oldest != "" {
          dedupe := dedupe - {oldest};
        }
      }
      return true;
    }

    method IngestRow(r: Row)
      modifies `dedupe, `dedupeQueue, `eventsPerMinute
      ensures View() == Telemetry.IngestRow(old(View()), r)
    {
      if r.at.None? {
        return;
      }
      var minute := FloorToMinute(r.at.value);
      var added := PushDedupe(DedupeKey(r));
      if added {
        var n := if minute in eventsPerMinute then eventsPerMinute[minute] else 0;
        eventsPerMinute := eventsPerMinute[minute := n + 1];
      }
    }

    /** Incorporates one poll. */
    method IngestSummarySnapshot(s: Summary)
      requires Valid()
      modifies this
      ensures Valid() && View() == Ingest(old(View()), s) && polls == old(polls) + [s]
    {
      IngestAllSnoc(polls, s);
      polls := polls + [s];
      if s.at.None? {
        return;
      }
      var minute := FloorToMinute(s.at.value);
      pipelinesAtMinute := pipelinesAtMinute[minute := s.pipelines];
      if s.cents.Some? {
        earnedCentsMax := Max(earnedCentsMax, s.cents.value);
        earnedCentsAfterPollMinute := earnedCentsAfterPollMinute[minute := earnedCentsMax];
      }
      ghost var start := View();
      assert start == IngestTotals(old(View()), minute, s.pipelines, s.cents);
      assert MinuteKeys(start);
      for i := 0 to |s.activity|
        invariant View() == IngestRows(start, s.activity[..i]) && polls == old(polls) + [s]
      {
        IngestRow(s.activity[i]);
        assert s.activity[..i + 1][..i] == s.activity[..i];
      }
      assert s.activity[..|s.activity|] == s.activity;
      RowsKeepQueue(start, s.activity);
      RowsKeepMinutes(start, s.activity);
    }

    /** Events of all minutes before the window. */
    method EventsBefore(bound: int) returns (total: int)
      ensures total == SumMap(map m | m in eventsPerMinute && m < bound :: eventsPerMinute[m])
    {
      total := 0;
      var rest := eventsPerMinute.Keys;
      assert (map m | m in eventsPerMinute && m < bound && m !in rest :: eventsPerMinute[m]) == map[];
      while rest != {}
        invariant rest <= eventsPerMinute.Keys
        invariant total == SumMap(map m | m in eventsPerMinute && m < bound && m !in rest :: eventsPerMinute[m])
        decreases rest
      {
        assert exists m :: m in rest by { NonEmpty(rest); }
        var m :| m in rest;
        TakeOut(eventsPerMinute, bound, rest, m);
        if m < bound {
          total := total + eventsPerMinute[m];
        }
        rest := rest - {m};
      }
      assert (map m | m in eventsPerMinute && m < bound && m !in rest :: eventsPerMinute[m]) ==
             (map m | m in eventsPerMinute && m < bound :: eventsPerMinute[m]);
    }

    /** The greatest cents stored before the window. */
    method EarnedBefore(bound: int) returns (top: real)
      ensures IsTop(earnedCentsAfterPollMinute, bound - 1, top)
    {
      top := 0.0;
      var rest := earnedCentsAfterPollMinute.Keys;
      var m := earnedCentsAfterPollMinute;
      while rest != {}
        invariant rest <= m.Keys && top >= 0.0
        invariant forall k :: k in m && k !in rest && k < bound ==> m[k] <= top
        invariant top == 0.0 || exists k :: k in m && k < bound && m[k] == top
        decreases rest
      {
        assert exists k :: k in rest by { NonEmpty(rest); }
        var k :| k in rest;
        if k < bound {
          top := Max(top, m[k]);
        }
        rest := rest - {k};
      }
    }

    /** Running totals over consecutive minute slots: at each slot, the events of the whole history so far. */
    method PrefixCumulative(slots: seq<int>) returns (out: seq<int>)
      requires Valid() && |slots| > 0 && MinuteSlots(slots)
      ensures |out| == |slots| && forall i :: 0 <= i < |out| ==> out[i] == EventsUpTo(View(), slots[i])
    {
      out := [];
      var cum := EventsBefore(slots[0]);
      EventsBeforeWindow(View(), slots[0]);
      for i := 0 to |slots|
        invariant |out| == i && forall j :: 0 <= j < i ==> out[j] == EventsUpTo(View(), slots[j])
        invariant cum == EventsUpTo(View(), slots[0] + (i - 1) * MINUTE_MS)
      {
        EventsUpToNext(View(), slots[i]);
        cum := cum + (if slots[i] in eventsPerMinute then eventsPerMinute[slots[i]] else 0);
        out := out + [cum];
      }
    }

    /** At each slot the latest stored cents; if these never fall, the most stored up to that minute. */
    method EarnedSeries(slots: seq<int>) returns (out: seq<real>)
      requires Valid() && |slots| > 0 && MinuteSlots(slots)
      ensures |out| == |slots|
      ensures Nondecreasing(earnedCentsAfterPollMinute) ==>
                forall i :: 0 <= i < |out| ==> IsTop(earnedCentsAfterPollMinute, slots[i], out[i])
    {
      out := [];
      var m := earnedCentsAfterPollMinute;
      var last := EarnedBefore(slots[0]);
      TopBeforeWindow(m, slots[0], last);
      for i := 0 to |slots|
        invariant |out| == i && m == earnedCentsAfterPollMinute && MinuteMap(m)
        invariant Nondecreasing(m) ==> Topped(m, slots, out, last)
      {
        if Nondecreasing(m) { ToppedNext(m, slots, out, last); }
        if slots[i] in earnedCentsAfterPollMinute {
          last := earnedCentsAfterPollMinute[slots[i]];
        }
        out := out + [last];
      }
    }

    /** One row for each slot. */
    method Rows(slots: seq<int>, pipelines: seq<int>, cumulative: seq<int>, earned: seq<real>) returns (rows: seq<ChartRow>)
      requires Valid() && |pipelines| == |cumulative| == |earned| == |slots|
      ensures |rows| == |slots|
      ensures forall i :: 0 <= i < |slots| ==>
                rows[i] == ChartRow(slots[i], pipelines[i], EventsAt(View(), slots[i]), cumulative[i], earned[i])
    {
      rows := [];
      for i := 0 to |slots|
        invariant |rows| == i
        invariant forall j :: 0 <= j < i ==>
                    rows[j] == ChartRow(slots[j], pipelines[j], EventsAt(View(), slots[j]), cumulative[j], earned[j])
      {
        var n := if slots[i] in eventsPerMinute then eventsPerMinute[slots[i]] else 0;
        rows := rows + [ChartRow(slots[i], pipelines[i], n, cumulative[i], earned[i])];
      }
    }

    /**
     The window of minutes ending now. Each row's cumulative count is that of the whole history, wherever the
     window starts; with polls in minute order each row's earnings are the most any poll reported up to that minute.
     */
    method ProjectTelemetryWindow(windowMinutes: int, nowMs: int) returns (rows: seq<ChartRow>)
      requires Valid()
      ensures |rows| == if windowMinutes > 0 then windowMinutes else 0
      ensures forall i :: 0 <= i < |rows| ==>
                && rows[i].minute == nowMs / 60000 * 60000 - (windowMinutes - 1 - i) * 60000
                && ShowsPipelines(polls, rows, i)
                && rows[i].events == EventsAt(View(), rows[i].minute)
                && rows[i].cumulative == EventsUpTo(View(), rows[i].minute)
      ensures InMinuteOrder(polls) ==>
                && (forall i :: 0 <= i < |rows| ==> rows[i].earnedCents == MaxCents(polls, rows[i].minute))
                && (forall i, j :: 0 <= i < j < |rows| ==> rows[i].earnedCents <= rows[j].earnedCents)
    {
      var slots := SlotsOf(windowMinutes, nowMs);
      if |slots| == 0 {
        return [];
      }
      if InMinuteOrder(polls) { EarnedFollowsPolls(polls); }
      SlotsAreMinutes(windowMinutes, nowMs);
      var pipelines := ForwardFill(slots, pipelinesAtMinute, 0);
      var cumulative := PrefixCumulative(slots);
      var earned := EarnedSeries(slots);
      rows := Rows(slots, pipelines, cumulative, earned);
      forall i | 0 <= i < |rows| ensures ShowsPipelines(polls, rows, i) {
        RowShowsPipelines(polls, slots, rows, i);
      }
      if InMinuteOrder(polls) { RowsFollowPolls(polls, rows); }
    }
  }

  function SlotAt(windowMinutes: int, nowMs: int, i: int): int {
    FloorToMinute(nowMs) - (windowMinutes - 1 - i) * MINUTE_MS
  }

  /** The minute slots of the window, oldest first; none when the window is not positive. */
  function SlotsOf(windowMinutes: int, nowMs: int): seq<int> {
    seq(if windowMinutes > 0 then windowMinutes else 0, i => SlotAt(windowMinutes, nowMs, i))
  }

  ghost predicate MinuteSlots(slots: seq<int>) {
    forall i :: 0 <= i < |slots| ==> slots[i] == slots[0] + i * MINUTE_MS && OnMinute(slots[i])
  }

  lemma SlotsAreMinutes(windowMinutes: int, nowMs: int)
    ensures MinuteSlots(SlotsOf(windowMinutes, nowMs))
  {
  }

  lemma EventsBeforeWindow(a: Accumulator, start: int)
    requires MinuteKeys(a) && OnMinute(start)
    ensures SumMap(map m | m in a.events && m < start :: a.events[m]) == EventsUpTo(a, start - MINUTE_MS)
  {
    forall m | m in a.events ensures m < start <==> m <= start - MINUTE_MS {
      assert OnMinute(m);
    }
    assert (map m | m in a.events && m < start :: a.events[m]) ==
           (map m | m in a.events && m <= start - MINUTE_MS :: a.events[m]);
  }

  ghost predicate MinuteMap(m: map<int, real>) {
    forall k :: k in m ==> OnMinute(k)
  }

  /** The series so far holds the greatest value at each slot, and last is the greatest before the next one. */
  ghost predicate Topped(m: map<int, real>, slots: seq<int>, out: seq<real>, last: real) {
    && |out| <= |slots|
    && (forall j :: 0 <= j < |out| ==> IsTop(m, slots[j], out[j]))
    && (|out| < |slots| ==> IsTop(m, slots[|out|] - MINUTE_MS, last))
  }

  lemma ToppedNext(m: map<int, real>, slots: seq<int>, out: seq<real>, last: real)
    requires Nondecreasing(m) && MinuteMap(m) && |out| < |slots| && MinuteSlots(slots)
    requires Topped(m, slots, out, last)
    ensures var next := if slots[|out|] in m then m[slots[|out|]] else last;
            Topped(m, slots, out + [next], next)
  {
    TopNext(m, slots[|out|], last);
    if |out| + 1 < |slots| { assert slots[|out| + 1] - MINUTE_MS == slots[|out|]; }
  }

  lemma TopBeforeWindow(m: map<int, real>, start: int, v: real)
    requires OnMinute(start) && MinuteMap(m)
    requires IsTop(m, start - 1, v)
    ensures IsTop(m, start - MINUTE_MS, v)
  {
    forall k | k in m ensures k <= start - 1 <==> k <= start - MINUTE_MS {
      assert OnMinute(k);
    }
  }

  lemma {:induction false} RowsKeepMinutes(a: Accumulator, rows: seq<Row>)
    requires MinuteKeys(a)
    ensures MinuteKeys(IngestRows(a, rows))
  {
    if rows != [] {
      RowsKeepMinutes(a, rows[..|rows| - 1]);
      TrimKeepsTotals(IngestRows(a, rows[..|rows| - 1]), DedupeKey(rows[|rows| - 1]));
    }
  }
}

/** The bounded activity feed of internal/pipeline/activity.go. */
module ActivityFeed {
  import opened Collections

  function NewestFirst<T>(s: seq<T>): (r: seq<T>)
    ensures |r| == |s|
  {
    if s == [] then [] else [s[|s| - 1]] + NewestFirst(s[..|s| - 1])
  }

  lemma {:induction false} NewestFirstAt<T>(s: seq<T>, i: nat)
    requires i < |s|
    ensures NewestFirst(s)[i] == s[|s| - 1 - i]
  {
    if i > 0 {
      NewestFirstAt(s[..|s| - 1], i - 1);
    }
  }

  /** Keeping the newest max at every step is keeping the newest max of the whole history. */
  lemma DropOldestIsNewest<T>(history: seq<T>, e: T, max: nat)
    requires max >= 1
    ensures var kept := Newest(history, max);
            Newest(history + [e], max) == (if |kept| >= max then kept[1..] else kept) + [e]
  {
  }

  lemma ReversedIsNewestFirst<T>(out: seq<T>, s: seq<T>)
    requires |out| == |s|
    requires forall i :: 0 <= i < |s| ==> out[i] == s[|s| - 1 - i]
    ensures out == NewestFirst(s)
  {
    forall i | 0 <= i < |s| ensures out[i] == NewestFirst(s)[i] {
      NewestFirstAt(s, i);
    }
  }

  lemma LastEntriesReversed<T>(history: seq<T>, max: nat, entries: seq<T>, out: seq<T>)
    requires entries == Newest(history, max) && |out| <= |entries|
    requires forall j :: 0 <= j < |out| ==> out[j] == entries[|entries| - 1 - j]
    ensures out == NewestFirst(Newest(history, |out|))
  {
    NewestOfNewest(history, max, |out|);
    ReversedIsNewestFirst(out, entries[|entries| - |out|..]);
  }

  class ActivityLog<T(0)> {
    const max: nat
    var entries: seq<T>
    ghost var history: seq<T>

    ghost predicate Valid() reads this {
      max >= 16 && entries == Newest(history, max)
    }

    constructor (max: int)
      ensures Valid() && history == []
      ensures this.max == if max < 16 then 16 else max
    {
      this.max := if max < 16 then 16 else max;
      entries, history := [], [];
    }

    /** Appends an event, dropping the oldest when full. */
    method Record(e: T)
      requires Valid()
      modifies this
      ensures Valid() && history == old(history) + [e]
    {
      DropOldestIsNewest(history, e, max);
      if |entries| >= max {
        entries := entries[1..];
      }
      entries := entries + [e];
      history := history + [e];
    }

    /** The newest entries of the whole history first; at most as many as the feed holds. */
    method Snapshot(limit: int) returns (out: seq<T>)
      requires Valid()
      ensures out == NewestFirst(Newest(history, if limit <= 0 || limit > |entries| then |entries| else limit))
    {
      var n := if limit <= 0 || limit > |entries| then |entries| else limit;
      var start := |entries| - n;
      var buf := new T[n];
      for i := 0 to n
        invariant forall j :: n - i <= j < n ==> buf[j] == entries[|entries| - 1 - j]
      {
        buf[n - 1 - i] := entries[start + i];
      }
      out := buf[..];
      LastEntriesReversed(history, max, entries, out);
    }
  }
}

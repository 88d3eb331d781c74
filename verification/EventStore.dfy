/**
 Inbound Naryo events per session (internal/pipeline/naryo_events.go): duplicates are dropped through one map
 shared by all sessions, and each session keeps its newest 256 events.
 */
module EventStore {
  import opened Collections
  import opened Strings

  const MAX_EVENTS := 256

  /** The payload is opaque here. */
  datatype InboundEvent = InboundEvent(eventId: string, payload: string, receivedAt: int)

  lemma NewestSnoc<T>(s: seq<T>, x: T, n: nat)
    requires n >= 1
    ensures Newest(Newest(s, n) + [x], n) == Newest(s + [x], n)
  {
  }

  function DedupKey(session: string, event: string): string {
    session + "\0" + event
  }

  lemma DedupKeyInjective(s: string, e: string, s': string, e': string)
    requires NulFree(s) && NulFree(s') && DedupKey(s, e) == DedupKey(s', e')
    ensures s == s' && e == e'
  {
    SplitAtNul(s, e, s', e');
  }

  /** Without NUL-freedom two sessions can share a key: one session's event then hides the other's. */
  lemma NulSharesKeys(s: string, t: string, e: string)
    ensures DedupKey(s + "\0" + t, e) == DedupKey(s, t + "\0" + e)
  {
  }

  // ---------------------------------------------------------------------------------------------
  // The store as a value, and its ideal history

  datatype State = State(known: set<string>, events: map<string, seq<InboundEvent>>, dedup: set<string>)

  const EmptyState := State({}, map[], {})

  datatype Result = Stored | Duplicate | InvalidEvent | UnknownSession

  datatype Op =
    | Register(session: string)
    | Deliver(session: string, event: InboundEvent)

  function ListOf(st: State, session: string): seq<InboundEvent> {
    if session in st.events then st.events[session] else []
  }

  function Verdict(st: State, session: string, eventId: string): Result {
    if session == "" || eventId == "" then InvalidEvent
    else if session !in st.known then UnknownSession
    else if DedupKey(session, eventId) in st.dedup then Duplicate
    else Stored
  }

  function Append(st: State, session: string, e: InboundEvent): State {
    if Verdict(st, session, e.eventId) != Stored then st
    else
      st.(dedup := st.dedup + {DedupKey(session, e.eventId)},
          events := st.events[session := Newest(ListOf(st, session) + [e], MAX_EVENTS)])
  }

  function Step(st: State, op: Op): State {
    match op
    case Register(session) => st.(known := st.known + {session})
    case Deliver(session, e) => Append(st, session, e)
  }

  function Run(ops: seq<Op>): State {
    if ops == [] then EmptyState else Step(Run(ops[..|ops| - 1]), ops[|ops| - 1])
  }

  /** Deliveries addressed to one session after it was registered, in order. */
  ghost function DeliveredTo(ops: seq<Op>, session: string): seq<InboundEvent> {
    if ops == [] then []
    else
      var before, op := ops[..|ops| - 1], ops[|ops| - 1];
      DeliveredTo(before, session) +
      (if op.Deliver? && op.session == session && session != "" && op.event.eventId != "" && Register(session) in before
       then [op.event] else [])
  }

  ghost predicate Carries(h: seq<InboundEvent>, eventId: string) {
    exists i :: 0 <= i < |h| && h[i].eventId == eventId
  }

  /** A history with every event id kept at its first occurrence only. */
  ghost function FirstOccurrences(h: seq<InboundEvent>): seq<InboundEvent> {
    if h == [] then []
    else
      var before, e := h[..|h| - 1], h[|h| - 1];
      FirstOccurrences(before) + (if Carries(before, e.eventId) then [] else [e])
  }

  lemma CarriesSnoc(h: seq<InboundEvent>, e: InboundEvent, id: string)
    ensures Carries(h + [e], id) <==> Carries(h, id) || e.eventId == id
  {
    assert (h + [e])[|h|] == e;
    if Carries(h, id) {
      var i :| 0 <= i < |h| && h[i].eventId == id;
      assert (h + [e])[i] == h[i];
    }
  }

  ghost predicate NulFreeSessions(ops: seq<Op>) {
    forall op :: op in ops && op.Register? ==> NulFree(op.session)
  }

  ghost predicate Refines(st: State, ops: seq<Op>) {
    && (forall s :: s in st.known <==> Register(s) in ops)
    && (forall s :: ListOf(st, s) == Newest(FirstOccurrences(DeliveredTo(ops, s)), MAX_EVENTS))
    && (forall s, id :: NulFree(s) ==> (DedupKey(s, id) in st.dedup <==> Carries(DeliveredTo(ops, s), id)))
  }

  lemma RegisterRefines(st: State, ops: seq<Op>, session: string)
    requires Refines(st, ops)
    ensures Refines(Step(st, Register(session)), ops + [Register(session)])
  {
    forall s ensures DeliveredTo(ops + [Register(session)], s) == DeliveredTo(ops, s) {
      DeliveredSnoc(ops, Register(session), s);
    }
  }

  lemma DroppedRefines(st: State, ops: seq<Op>, session: string, e: InboundEvent)
    requires Refines(st, ops)
    requires session == "" || e.eventId == "" || session !in st.known
    ensures Refines(st, ops + [Deliver(session, e)])
  {
    forall s ensures DeliveredTo(ops + [Deliver(session, e)], s) == DeliveredTo(ops, s) {
      DeliveredSnoc(ops, Deliver(session, e), s);
    }
  }

  lemma DeliveredSnoc(ops: seq<Op>, op: Op, s: string)
    ensures DeliveredTo(ops + [op], s) ==
            if op.Deliver? && op.session == s && s != "" && op.event.eventId != "" && Register(s) in ops
            then DeliveredTo(ops, s) + [op.event] else DeliveredTo(ops, s)
  {
    assert (ops + [op])[..|ops|] == ops;
  }

  lemma FirstOccurrencesSnoc(h: seq<InboundEvent>, e: InboundEvent)
    ensures FirstOccurrences(h + [e]) ==
            if Carries(h, e.eventId) then FirstOccurrences(h) else FirstOccurrences(h) + [e]
  {
    assert (h + [e])[..|h|] == h;
  }

  lemma AppendList(st: State, session: string, e: InboundEvent, s: string)
    requires session != "" && e.eventId != "" && session in st.known
    ensures ListOf(Append(st, session, e), s) ==
            if s == session && DedupKey(session, e.eventId) !in st.dedup then Newest(ListOf(st, s) + [e], MAX_EVENTS)
            else ListOf(st, s)
  {
  }

  /** One more delivery to the session itself: the list keeps the newest first occurrences. */
  lemma NewestFirstOccurrences(h: seq<InboundEvent>, e: InboundEvent)
    ensures Newest(FirstOccurrences(h + [e]), MAX_EVENTS) ==
            if Carries(h, e.eventId) then Newest(FirstOccurrences(h), MAX_EVENTS)
            else Newest(Newest(FirstOccurrences(h), MAX_EVENTS) + [e], MAX_EVENTS)
  {
    FirstOccurrencesSnoc(h, e);
    NewestSnoc(FirstOccurrences(h), e, MAX_EVENTS);
  }

  lemma DeliverKeepsLists(st: State, ops: seq<Op>, session: string, e: InboundEvent, s: string)
    requires session != "" && e.eventId != "" && session in st.known && Register(session) in ops
    requires ListOf(st, s) == Newest(FirstOccurrences(DeliveredTo(ops, s)), MAX_EVENTS)
    requires DedupKey(session, e.eventId) in st.dedup <==> Carries(DeliveredTo(ops, session), e.eventId)
    ensures ListOf(Append(st, session, e), s) ==
            Newest(FirstOccurrences(DeliveredTo(ops + [Deliver(session, e)], s)), MAX_EVENTS)
  {
    DeliveredSnoc(ops, Deliver(session, e), s);
    AppendList(st, session, e, s);
    if s == session { NewestFirstOccurrences(DeliveredTo(ops, s), e); }
  }

  lemma DeliverKeepsDedup(st: State, ops: seq<Op>, session: string, e: InboundEvent, s: string, id: string)
    requires session != "" && e.eventId != "" && session in st.known && Register(session) in ops
    requires NulFree(session) && NulFree(s)
    requires DedupKey(s, id) in st.dedup <==> Carries(DeliveredTo(ops, s), id)
    ensures DedupKey(s, id) in Append(st, session, e).dedup <==>
            Carries(DeliveredTo(ops + [Deliver(session, e)], s), id)
  {
    DeliveredSnoc(ops, Deliver(session, e), s);
    CarriesSnoc(DeliveredTo(ops, s), e, id);
    if DedupKey(s, id) == DedupKey(session, e.eventId) {
      DedupKeyInjective(s, id, session, e.eventId);
    }
  }

  lemma DeliverRefines(st: State, ops: seq<Op>, session: string, e: InboundEvent)
    requires Refines(st, ops) && NulFreeSessions(ops)
    requires session != "" && e.eventId != "" && session in st.known
    ensures Refines(Append(st, session, e), ops + [Deliver(session, e)])
  {
    assert Register(session) in ops;
    var st', ops' := Append(st, session, e), ops + [Deliver(session, e)];
    forall s ensures ListOf(st', s) == Newest(FirstOccurrences(DeliveredTo(ops', s)), MAX_EVENTS) {
      DeliverKeepsLists(st, ops, session, e, s);
    }
    forall s, id | NulFree(s)
      ensures DedupKey(s, id) in st'.dedup <==> Carries(DeliveredTo(ops', s), id)
    {
      DeliverKeepsDedup(st, ops, session, e, s, id);
    }
  }

  /**
   The store refines its history: whatever the interleaving of sessions, each session holds the last 256 first
   occurrences of the events delivered to it, and the shared dedup map knows exactly these events.
   */
  lemma {:induction false} StoreRefinesHistory(ops: seq<Op>)
    requires NulFreeSessions(ops)
    ensures Refines(Run(ops), ops)
  {
    if ops != [] {
      var before, op := ops[..|ops| - 1], ops[|ops| - 1];
      assert ops == before + [op];
      StoreRefinesHistory(before);
      match op {
        case Register(session) => RegisterRefines(Run(before), before, session);
        case Deliver(session, e) =>
          if session == "" || e.eventId == "" || session !in Run(before).known {
            DroppedRefines(Run(before), before, session, e);
          } else {
            DeliverRefines(Run(before), before, session, e);
          }
      }
    }
  }

  /** Sessions do not affect each other: what one session holds depends on its own deliveries alone. */
  lemma SessionsAreIndependent(ops: seq<Op>, ops': seq<Op>, s: string)
    requires NulFreeSessions(ops) && NulFreeSessions(ops')
    requires DeliveredTo(ops, s) == DeliveredTo(ops', s)
    ensures ListOf(Run(ops), s) == ListOf(Run(ops'), s)
  {
    StoreRefinesHistory(ops);
    StoreRefinesHistory(ops');
  }

  lemma HeldEvents(ops: seq<Op>, s: string)
    requires NulFreeSessions(ops)
    ensures s in Run(ops).known <==> Register(s) in ops
    ensures ListOf(Run(ops), s) == Newest(FirstOccurrences(DeliveredTo(ops, s)), 256)
  {
    StoreRefinesHistory(ops);
  }

  /** What the history says of a delivery: first what is wrong with it, then whether it was delivered before. */
  lemma VerdictOfHistory(ops: seq<Op>, session: string, eventId: string)
    requires NulFreeSessions(ops)
    ensures Verdict(Run(ops), session, eventId) ==
            if session == "" || eventId == "" then InvalidEvent
            else if Register(session) !in ops then UnknownSession
            else if Carries(DeliveredTo(ops, session), eventId) then Duplicate
            else Stored
  {
    StoreRefinesHistory(ops);
  }

  function QueryLimit(limit: int): nat {
    if limit <= 0 then 10 else if limit > MAX_EVENTS then MAX_EVENTS else limit
  }

  // ---------------------------------------------------------------------------------------------
  // The mutable store

  class NaryoEventStore {
    var sessions: set<string>
    var naryoEvents: map<string, seq<InboundEvent>>
    var naryoDedup: set<string>
    ghost var history: seq<Op>

    ghost function View(): State reads this { State(sessions, naryoEvents, naryoDedup) }

    ghost predicate Valid() reads this { View() == Run(history) }

    constructor ()
      ensures Valid() && history == []
    {
      sessions, naryoEvents, naryoDedup, history := {}, map[], {}, [];
    }

    method Put(session: string)
      requires Valid()
      modifies this
      ensures Valid() && history == old(history) + [Register(session)]
    {
      sessions := sessions + {session};
      assert (history + [Register(session)])[..|history|] == history;
      history := history + [Register(session)];
    }

    method AppendNaryoEvent(session: string, eventId: string, payload: string, now: int) returns (r: Result)
      requires Valid()
      modifies this
      ensures Valid() && history == old(history) + [Deliver(session, InboundEvent(eventId, payload, now))]
      ensures r == Verdict(old(View()), session, eventId)
      ensures NulFreeSessions(old(history)) ==>
                r == if session == "" || eventId == "" then InvalidEvent
                     else if Register(session) !in old(history) then UnknownSession
                     else if Carries(DeliveredTo(old(history), session), eventId) then Duplicate
                     else Stored
    {
      if NulFreeSessions(history) { VerdictOfHistory(history, session, eventId); }
      var e := InboundEvent(eventId, payload, now);
      assert (history + [Deliver(session, e)])[..|history|] == history;
      history := history + [Deliver(session, e)];
      if session == "" || eventId == "" {
        return InvalidEvent;
      }
      if session !in sessions {
        return UnknownSession;
      }
      var dk := DedupKey(session, eventId);
      if dk in naryoDedup {
        return Duplicate;
      }
      naryoDedup := naryoDedup + {dk};
      var list := (if session in naryoEvents then naryoEvents[session] else []) + [e];
      if |list| > MAX_EVENTS {
        list := list[|list| - MAX_EVENTS..];
      }
      naryoEvents := naryoEvents[session := list];
      return Stored;
    }

    /**
     The newest events, oldest first: the requested suffix of the session's deduplicated history; ten events when no
     number is asked for, and never more than 256.
     */
    method NaryoEvents(session: string, limit: int) returns (out: Option<seq<InboundEvent>>)
      requires Valid()
      ensures var n := if limit <= 0 then 10 else if limit > 256 then 256 else limit;
              && out == (if session !in View().known then None else Some(Newest(ListOf(View(), session), n)))
              && (NulFreeSessions(history) ==>
                    out == if Register(session) !in history then None
                           else Some(Newest(FirstOccurrences(DeliveredTo(history, session)), n)))
    {
      if NulFreeSessions(history) {
        HeldEvents(history, session);
        NewestOfNewest(FirstOccurrences(DeliveredTo(history, session)), MAX_EVENTS, QueryLimit(limit));
      }
      if session !in sessions {
        return None;
      }
      var n := QueryLimit(limit);
      var list := if session in naryoEvents then naryoEvents[session] else [];
      if |list| <= n {
        return Some(list);
      }
      return Some(list[|list| - n..]);
    }
  }
}

/**
 The mutable service: session records updated in place, the store that owns them and the service that drives
 them. Every method is proved to perform exactly the step of the state machine in module Metering.
 What the Naryo client answers is an argument; module Egress puts the two together.
 */
module Service {
  import opened Collections
  import opened Ledger
  import opened Sessions
  import opened Metering
  import opened Invariants

  /** A shallow copy of a stored session: all its fields, but not its history. */
  datatype SessionCopy = SessionCopy(
    agent: string, state: State, streamActive: bool, billedSeconds: int, lastNaryoOp: string, rate: int, charged: int,
    numerator: int, window: int, debitSeq: int, retryPending: bool, retryAt: int, pendingUnits: int,
    pendingSeconds: int, lastSummaryAt: int, summaryWindow: int, autoPaused: bool)

  ghost function CopyOf(s: Session): SessionCopy {
    SessionCopy(s.agent, s.state, s.streamActive, s.billedSeconds, s.lastNaryoOp, s.rate, s.charged, s.numerator,
                s.window, s.debitSeq, s.retryPending, s.retryAt, s.pendingUnits, s.pendingSeconds, s.lastSummaryAt,
                s.summaryWindow, s.autoPaused)
  }

  /** Without a ledger there is nothing to keep. */
  ghost function BooksOf(ledger: MemoryLedger?): Books reads ledger {
    if ledger == null then EmptyBooks else ledger.View()
  }

  class SessionRecord {
    const id: string
    const agent: string
    const rate: int
    const summaryWindow: int
    var state: State
    var streamActive: bool
    var billedSeconds: int
    var lastNaryoOp: string
    var charged: int
    var numerator: int
    var window: int
    var debitSeq: int
    var retryPending: bool
    var retryAt: int
    var pendingUnits: int
    var pendingSeconds: int
    var lastSummaryAt: int
    var autoPaused: bool
    ghost var log: Log

    ghost function Value(): Session reads this {
      Session(agent, state, streamActive, billedSeconds, lastNaryoOp, rate, charged, numerator, window, debitSeq,
              retryPending, retryAt, pendingUnits, pendingSeconds, lastSummaryAt, summaryWindow, autoPaused, log)
    }

    function Copy(): (c: SessionCopy)
      reads this
      ensures c == CopyOf(Value())
    {
      SessionCopy(agent, state, streamActive, billedSeconds, lastNaryoOp, rate, charged, numerator, window, debitSeq,
                  retryPending, retryAt, pendingUnits, pendingSeconds, lastSummaryAt, summaryWindow, autoPaused)
    }

    constructor (p: Params, id: string, agent: string)
      ensures this.id == id && Value() == NewSession(p, agent)
    {
      this.id := id;
      this.agent := agent;
      rate := p.rate;
      summaryWindow := p.window;
      state := Created;
      streamActive := false;
      billedSeconds := 0;
      lastNaryoOp := "";
      charged, numerator, window, debitSeq := 0, 0, 0, 0;
      retryPending, retryAt := false, 0;
      pendingUnits, pendingSeconds, lastSummaryAt := 0, 0, 0;
      autoPaused := false;
      log := Empty;
    }

    method ClearRetry()
      modifies this
      ensures Value() == old(Value()).(retryPending := false, retryAt := 0)
    {
      retryPending, retryAt := false, 0;
    }

    ghost method Note(e: Event)
      modifies this`log
      ensures log == Snoc(old(log), e)
    {
      log := Snoc(log, e);
    }

    method EnterRunning()
      modifies this
      ensures Value() == old(Value()).(state := Running, streamActive := true, retryPending := false, retryAt := 0,
                                       autoPaused := false)
    {
      state, streamActive, autoPaused := Running, true, false;
      ClearRetry();
    }

    method Start(naryo: Option<string>) returns (error: Option<Error>)
      modifies this
      ensures Edit(Value(), error) == StartEdit(old(Value()), naryo)
    {
      if state != Created && state != Paused {
        return Some(InvalidTransition);
      }
      if naryo.None? {
        return Some(NaryoError);
      }
      EnterRunning();
      lastNaryoOp := naryo.value;
      numerator, window, debitSeq := 0, 0, 0;
      Note(Started);
      return None;
    }

    method Stop() returns (error: Option<Error>)
      modifies this
      ensures Edit(Value(), error) == StopEdit(old(Value()))
    {
      if state != Stopped {
        state := Stopped;
        streamActive := false;
      }
      return None;
    }

    method Pause() returns (error: Option<Error>)
      modifies this
      ensures Edit(Value(), error) == PauseEdit(old(Value()))
    {
      if state != Running {
        return Some(InvalidTransition);
      }
      state := Paused;
      streamActive := false;
      return None;
    }

    method Resume() returns (error: Option<Error>)
      modifies this
      ensures Edit(Value(), error) == ResumeEdit(old(Value()))
    {
      if state != Paused {
        return Some(InvalidTransition);
      }
      EnterRunning();
      Note(Resumed);
      return None;
    }

    method SetStream(active: bool) returns (error: Option<Error>)
      modifies this
      ensures Edit(Value(), error) == StreamEdit(old(Value()), active)
    {
      if state != Running {
        return Some(InvalidTransition);
      }
      if streamActive != active {
        streamActive := active;
      }
      return None;
    }

    method Book(units: int)
      modifies this
      ensures Value() == BookDebit(old(Value()), units)
    {
      ClearRetry();
      pendingUnits, pendingSeconds := pendingUnits + units, pendingSeconds + window;
      numerator, window := numerator % 60, 0;
      debitSeq, charged := debitSeq + 1, charged + units;
      Note(Committed(debitSeq, units));
    }

    /** Books an accepted debit and produces the audit summary when it is due. */
    method Commit(p: Params, units: int, now: int)
      modifies this
      ensures Value() == CommitDebit(p, old(Value()), units, now)
    {
      Book(units);
      var win := ClampWindow(if summaryWindow < 5 then p.window else summaryWindow);
      if lastSummaryAt == 0 {
        lastSummaryAt := now;
      }
      if now - lastSummaryAt >= win * MINUTE && pendingUnits > 0 {
        Note(Summarised(pendingUnits, pendingSeconds, now, win));
        lastSummaryAt, pendingUnits, pendingSeconds := now, 0, 0;
      }
    }

    method PauseForFunds()
      modifies this
      ensures Value() == old(Value()).(state := Paused, streamActive := false, autoPaused := true,
                                       retryPending := false, retryAt := 0)
    {
      state, streamActive, autoPaused := Paused, false, true;
      ClearRetry();
    }

    /** Settles a full debit window against the shared ledger. */
    method Settle(p: Params, ledger: MemoryLedger, now: int) returns (needPause: bool)
      requires Int64(debitSeq + 1)
      modifies this, ledger
      ensures var r := SettleWindow(p, old(ledger.View()), id, old(Value()), now);
              Value() == r.session && ledger.View() == r.books && needPause == r.pause
    {
      needPause := false;
      var units := numerator / 60;
      if units <= 0 {
        numerator, window := numerator % 60, 0;
        ClearRetry();
        Note(ZeroWindow);
        return;
      }
      var bucket := debitSeq + 1;
      var r := ledger.ChargeUsage(agent, id, units, bucket);
      match r
      case Charged(_, _) => Commit(p, units, now);
      case InsufficientFunds(bal) =>
        if retryPending {
          needPause := true;
          PauseForFunds();
          Note(AutoPaused(bucket, units, bal, Unix(now)));
        } else {
          retryPending, retryAt := true, Unix(now) + 60;
          Note(Refused(bucket, units, bal, Unix(now)));
        }
      case InvalidCharge =>
    }

    /** One billing tick of this session. */
    method Tick(p: Params, ledger: MemoryLedger?, now: int) returns (needPause: bool)
      requires p.prepaid == (ledger != null)
      requires Int64(debitSeq + 1)
      modifies this, ledger
      ensures var r := TickSession(p, old(BooksOf(ledger)), id, old(Value()), now);
              Value() == r.session && BooksOf(ledger) == r.books && needPause == r.pause
    {
      needPause := false;
      ghost var was := Value();
      TickCases(p, BooksOf(ledger), id, was, now);
      if state != Running || !streamActive {
        return;
      }
      billedSeconds := billedSeconds + 1;
      if ledger == null || agent == "" {
        return;
      }
      var r := rate;
      if r <= 0 {
        r := p.rate;
      }
      if r <= 0 {
        r := 1;
      }
      if retryPending && Unix(now) < retryAt {
        return;
      }
      numerator, window := numerator + r, window + 1;
      Note(Accrued);
      assert Value() == AccrueSecond(p, Billed(was));
      if window < p.interval {
        return;
      }
      needPause := Settle(p, ledger, now);
    }
  }

  /** The sessions by id; a record is stored under its own id. */
  class MemoryStore {
    var sessions: map<string, SessionRecord>

    ghost predicate Valid() reads this {
      forall id :: id in sessions ==> sessions[id].id == id
    }

    ghost function View(): map<string, Session> reads this, sessions.Values {
      map id | id in sessions :: sessions[id].Value()
    }

    constructor ()
      ensures Valid() && View() == map[] && sessions == map[]
    {
      sessions := map[];
    }

    method Put(s: SessionRecord)
      requires Valid()
      modifies this
      ensures Valid() && sessions == old(sessions)[s.id := s]
      ensures View() == old(View())[s.id := s.Value()]
    {
      sessions := sessions[s.id := s];
    }

    method Get(id: string) returns (copy: Option<SessionCopy>)
      requires Valid()
      ensures copy == if id in View() then Some(CopyOf(View()[id])) else None
      ensures id in View() ==>
                var c, s := copy.value, View()[id];
                && c.agent == s.agent && c.state == s.state && c.streamActive == s.streamActive && c.rate == s.rate
                && c.billedSeconds == s.billedSeconds && c.lastNaryoOp == s.lastNaryoOp && c.charged == s.charged
                && c.numerator == s.numerator && c.window == s.window && c.debitSeq == s.debitSeq
                && c.retryPending == s.retryPending && c.retryAt == s.retryAt && c.pendingUnits == s.pendingUnits
                && c.pendingSeconds == s.pendingSeconds && c.lastSummaryAt == s.lastSummaryAt
                && c.summaryWindow == s.summaryWindow && c.autoPaused == s.autoPaused
    {
      if id in sessions {
        var s := sessions[id];
        return Some(s.Copy());
      }
      return None;
    }

    /** The ids in some order, each once. */
    method IDs() returns (out: seq<string>)
      ensures Enumerates(out, sessions.Keys)
    {
      out := [];
      var rest := sessions.Keys;
      while rest != {}
        invariant Distinct(out)
        invariant rest <= sessions.Keys
        invariant forall id :: id in out <==> id in sessions.Keys - rest
        decreases rest
      {
        var id :| id in rest;
        assert id !in out;
        out := out + [id];
        rest := rest - {id};
      }
    }
  }

  lemma {:induction false} TickAllSkips(p: Params, w: World, ids: seq<string>, id: string, now: int)
    requires id !in ids && id in w.sessions
    ensures id in TickAll(p, w, ids, now).sessions
    ensures TickAll(p, w, ids, now).sessions[id] == w.sessions[id]
  {
    if ids != [] {
      TickAllSkips(p, w, ids[..|ids| - 1], id, now);
    }
  }

  lemma NextId(order: seq<string>, i: nat)
    requires Distinct(order) && i < |order|
    ensures order[i] in order && order[i] !in order[..i] && order[..i + 1] == order[..i] + [order[i]]
  {
  }

  lemma TickAllSnoc(p: Params, w: World, ids: seq<string>, id: string, now: int)
    ensures var v := TickAll(p, w, ids, now);
            && TickAll(p, w, ids + [id], now) == TickOne(p, v, id, now)
            && PausedBy(p, w, ids + [id], now) == PausedBy(p, w, ids, now) +
               (if id in v.sessions && TickSession(p, v.books, id, v.sessions[id], now).pause then [id] else [])
  {
    assert (ids + [id])[..|ids|] == ids;
  }

  class PipelineService {
    const store: MemoryStore
    const ledger: MemoryLedger?
    const params: Params
    ghost var topUps: seq<TopUp>

    ghost predicate Valid() reads this, store {
      store.Valid() && Sound(params) && params.prepaid == (ledger != null)
    }

    ghost function State(): World reads this, store, store.sessions.Values, ledger {
      World(store.View(), BooksOf(ledger), topUps)
    }

    /** Works on any store and ledger; over empty ones the service starts in the empty world. */
    constructor (store: MemoryStore, ledger: MemoryLedger?, rate: int, interval: int, minStart: int, window: int)
      requires store.Valid()
      ensures Valid() && this.store == store && this.ledger == ledger
      ensures params == NewParams(rate, interval, minStart, window, ledger != null) && Sound(params)
      ensures State() == World(store.View(), BooksOf(ledger), [])
      ensures store.View() == map[] && BooksOf(ledger) == EmptyBooks ==> State() == EmptyWorld
    {
      this.store, this.ledger := store, ledger;
      params := NewParams(rate, interval, minStart, window, ledger != null);
      topUps := [];
    }

    method CheckPrepaid(agent: string) returns (error: Option<Error>)
      requires Valid()
      ensures error == Metering.CheckPrepaid(params, BooksOf(ledger), agent)
    {
      if ledger == null || agent == "" {
        return None;
      }
      var min := PrepaidMinUnits(params);
      var ok, bal := ledger.CanAfford(agent, min);
      return if ok then None else Some(InsufficientPrepaid(bal, min));
    }

    method CreditTopUp(t: TopUp) returns (error: Option<Error>)
      requires Valid()
      modifies this, ledger
      ensures Valid()
      ensures Outcome(State(), error) == Step(params, old(State()), Op.CreditTopUp(t))
    {
      if ledger == null {
        return Some(NoLedger);
      }
      if t.agent == "" || t.amount <= 0 {
        return Some(InvalidTopUpError);
      }
      var ok := ledger.Credit(t);
      topUps := topUps + [t];
      return None;
    }

    /** id is the fresh random id. */
    method Create(id: string, agent: string) returns (error: Option<Error>)
      requires Valid()
      modifies store
      ensures Valid()
      ensures Outcome(State(), error) == Step(params, old(State()), Op.Create(id, agent))
    {
      error := CheckPrepaid(agent);
      if error.Some? {
        return;
      }
      var s := new SessionRecord(params, id, agent);
      store.Put(s);
    }

    /** Replacing what one record holds replaces one entry of the view. */
    twostate lemma OneRecordMoved(id: string)
      requires old(Valid()) && id in old(store.sessions)
      requires unchanged(store) && unchanged(this)
      requires forall i :: i in store.sessions && i != id ==> unchanged(store.sessions[i])
      ensures Valid()
      ensures store.View() == old(store.View())[id := store.sessions[id].Value()]
    {
    }

    method Start(id: string, naryo: Option<string>) returns (error: Option<Error>)
      requires Valid()
      modifies store.sessions.Values
      ensures Valid()
      ensures Outcome(State(), error) == Step(params, old(State()), Op.Start(id, naryo))
    {
      var copy := store.Get(id);
      if copy.None? {
        return Some(NotFound);
      }
      error := CheckPrepaid(copy.value.agent);
      if error.Some? {
        return;
      }
      error := store.sessions[id].Start(naryo);
      OneRecordMoved(id);
    }

    method Stop(id: string, naryoOk: bool) returns (error: Option<Error>)
      requires Valid()
      modifies store.sessions.Values
      ensures Valid()
      ensures Outcome(State(), error) == Step(params, old(State()), Op.Stop(id, naryoOk))
    {
      var copy := store.Get(id);
      if copy.None? {
        return Some(NotFound);
      }
      if !naryoOk {
        return Some(NaryoError);
      }
      error := store.sessions[id].Stop();
      OneRecordMoved(id);
    }

    method Pause(id: string, naryoOk: bool) returns (error: Option<Error>)
      requires Valid()
      modifies store.sessions.Values
      ensures Valid()
      ensures Outcome(State(), error) == Step(params, old(State()), Op.Pause(id, naryoOk))
    {
      if !naryoOk {
        return Some(NaryoError);
      }
      if id !in store.sessions {
        return Some(NotFound);
      }
      error := store.sessions[id].Pause();
      OneRecordMoved(id);
    }

    method Resume(id: string, naryoOk: bool) returns (error: Option<Error>)
      requires Valid()
      modifies store.sessions.Values
      ensures Valid()
      ensures Outcome(State(), error) == Step(params, old(State()), Op.Resume(id, naryoOk))
    {
      var copy := store.Get(id);
      if copy.None? {
        return Some(NotFound);
      }
      error := CheckPrepaid(copy.value.agent);
      if error.Some? {
        return;
      }
      if !naryoOk {
        return Some(NaryoError);
      }
      error := store.sessions[id].Resume();
      OneRecordMoved(id);
    }

    method SetPaymentStreamActive(id: string, active: bool) returns (error: Option<Error>)
      requires Valid()
      modifies store.sessions.Values
      ensures Valid()
      ensures Outcome(State(), error) == Step(params, old(State()), Op.SetStream(id, active))
    {
      if id !in store.sessions {
        return Some(NotFound);
      }
      error := store.sessions[id].SetStream(active);
      OneRecordMoved(id);
    }

    /** The bucket number handed to the ledger is an int64 in the program. */
    ghost predicate BucketsFit() reads this, store, store.sessions.Values, ledger {
      forall id :: id in State().sessions ==> Int64(State().sessions[id].debitSeq + 1)
    }

    method VisitSession(id: string, now: int) returns (needPause: bool)
      requires Valid() && id in State().sessions && Int64(State().sessions[id].debitSeq + 1)
      modifies store.sessions.Values, ledger
      ensures Valid()
      ensures State() == TickOne(params, old(State()), id, now)
      ensures needPause == TickSession(params, old(State()).books, id, old(State()).sessions[id], now).pause
    {
      needPause := store.sessions[id].Tick(params, ledger, now);
      OneRecordMoved(id);
    }

    /** Visits the i-th listed session of a tick that began in the given state. */
    method VisitNext(ghost start: World, order: seq<string>, i: nat, now: int) returns (needPause: bool)
      requires Valid() && Distinct(order) && i < |order| && order[i] in start.sessions
      requires Int64(start.sessions[order[i]].debitSeq + 1)
      requires State() == TickAll(params, start, order[..i], now)
      modifies store.sessions.Values, ledger
      ensures Valid()
      ensures State() == TickAll(params, start, order[..i + 1], now)
      ensures PausedBy(params, start, order[..i + 1], now) ==
              PausedBy(params, start, order[..i], now) + (if needPause then [order[i]] else [])
    {
      var id := order[i];
      NextId(order, i);
      TickAllSkips(params, start, order[..i], id, now);
      TickAllSnoc(params, start, order[..i], id, now);
      needPause := VisitSession(id, now);
    }

    /** One pass over all sessions in the order the store lists them; returns the sessions to pause. */
    method BillingTick(now: int) returns (pauseIDs: seq<string>, order: seq<string>)
      requires Valid() && BucketsFit()
      modifies store.sessions.Values, ledger
      ensures Valid()
      ensures Enumerates(order, old(State()).sessions.Keys)
      ensures State() == TickAll(params, old(State()), order, now)
      ensures pauseIDs == PausedBy(params, old(State()), order, now)
    {
      pauseIDs := [];
      order := store.IDs();
      ghost var start := State();
      assert order[..0] == [];
      for i := 0 to |order|
        invariant Valid()
        invariant State() == TickAll(params, start, order[..i], now)
        invariant pauseIDs == PausedBy(params, start, order[..i], now)
      {
        assert order[i] in start.sessions;
        var needPause := VisitNext(start, order, i, now);
        if needPause {
          pauseIDs := pauseIDs + [order[i]];
        }
      }
      assert order[..|order|] == order;
    }
  }
}

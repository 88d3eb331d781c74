/**
 The prepaid metering service of internal/pipeline/service.go as a state machine over a store of sessions
 and a ledger. Every operation is a total function; an Update closure's effect on the session is kept
 even when the closure fails, because the store never rolls back.
 */
module Metering {
  import opened Collections
  import opened Ledger
  import opened Sessions

  // ---------------------------------------------------------------------------------------------
  // Service parameters and clock

  datatype Params = Params(rate: int, interval: int, minStart: int, window: int, prepaid: bool)

  function ClampWindow(n: int): int {
    if n < 5 then 5 else if n > 15 then 15 else n
  }

  /** NewService: options that are not positive fall back to the defaults. */
  function NewParams(rate: int, interval: int, minStart: int, window: int, prepaid: bool): Params {
    Params(if rate <= 0 then 1 else rate,
           if interval <= 0 then 300 else interval,
           if minStart <= 0 then 10 else minStart,
           ClampWindow(window),
           prepaid)
  }

  ghost predicate Sound(p: Params) {
    p.rate > 0 && p.interval > 0 && p.minStart > 0 && 5 <= p.window <= 15
  }

  const SECOND := 1_000_000_000
  const MINUTE := 60 * SECOND
  const UNIX_EPOCH := 62_135_596_800   // seconds from the zero time to 1970

  /** Clock readings are nanoseconds since the zero time. */
  function Unix(now: int): int { now / SECOND - UNIX_EPOCH }

  // ---------------------------------------------------------------------------------------------
  // State, errors, operations

  datatype World = World(sessions: map<string, Session>, books: Books, topUps: seq<TopUp>)

  const EmptyWorld := World(map[], EmptyBooks, [])

  datatype Error =
    | NotFound
    | InvalidTransition
    | InsufficientPrepaid(remaining: int, required: int)
    | NaryoError
    | InvalidTopUpError
    | NoLedger

  datatype Outcome = Outcome(world: World, error: Option<Error>)

  /** naryo is what the provisioning client answered; order is the order in which the store listed its ids. */
  datatype Op =
    | CreditTopUp(topUp: TopUp)
    | Create(id: string, agent: string)
    | Start(id: string, naryo: Option<string>)
    | Stop(id: string, naryoOk: bool)
    | Pause(id: string, naryoOk: bool)
    | Resume(id: string, naryoOk: bool)
    | SetStream(id: string, active: bool)
    | BillingTick(now: int, order: seq<string>)

  /** What an Update closure leaves in the session, and the error it returned. */
  datatype Edit = Edit(session: Session, error: Option<Error>)

  function Update(w: World, id: string, f: Session -> Edit): Outcome {
    if id !in w.sessions then Outcome(w, Some(NotFound))
    else
      var e := f(w.sessions[id]);
      Outcome(w.(sessions := w.sessions[id := e.session]), e.error)
  }

  // ---------------------------------------------------------------------------------------------
  // Lifecycle

  function PrepaidMinUnits(p: Params): int { p.rate * p.minStart }

  function CheckPrepaid(p: Params, l: Books, agent: string): Option<Error> {
    if !p.prepaid || agent == "" || Balance(l, agent) >= PrepaidMinUnits(p) then None
    else Some(InsufficientPrepaid(Balance(l, agent), PrepaidMinUnits(p)))
  }

  function NewSession(p: Params, agent: string): Session {
    Session(agent, Created, false, 0, "", p.rate, 0, 0, 0, 0, false, 0, 0, 0, 0, p.window, false, Empty)
  }

  function StartEdit(s: Session, naryo: Option<string>): Edit {
    if s.state != Created && s.state != Paused then Edit(s, Some(InvalidTransition))
    else if naryo.None? then Edit(s, Some(NaryoError))
    else
      Edit(s.(state := Running, streamActive := true, lastNaryoOp := naryo.value,
              numerator := 0, window := 0, debitSeq := 0,
              retryPending := false, retryAt := 0, autoPaused := false,
              log := Snoc(s.log, Started)), None)
  }

  function StopEdit(s: Session): Edit {
    if s.state == Stopped then Edit(s, None)
    else Edit(s.(state := Stopped, streamActive := false), None)
  }

  function PauseEdit(s: Session): Edit {
    if s.state != Running then Edit(s, Some(InvalidTransition))
    else Edit(s.(state := Paused, streamActive := false), None)
  }

  function ResumeEdit(s: Session): Edit {
    if s.state != Paused then Edit(s, Some(InvalidTransition))
    else
      Edit(s.(state := Running, streamActive := true, retryPending := false, retryAt := 0,
              autoPaused := false, log := Snoc(s.log, Resumed)), None)
  }

  function StreamEdit(s: Session, active: bool): Edit {
    if s.state != Running then Edit(s, Some(InvalidTransition))
    else Edit(s.(streamActive := active), None)
  }

  // ---------------------------------------------------------------------------------------------
  // The billing tick

  /** pause: the tick must pause this session's egress. stuck: the ledger failed for another reason. */
  datatype TickResult = TickResult(session: Session, books: Books, pause: bool, stuck: bool)

  function EffectiveRate(p: Params, s: Session): int {
    if s.rate > 0 then s.rate else if p.rate > 0 then p.rate else 1
  }

  /** An accepted debit: the remainder is carried, the window starts again. */
  function BookDebit(s: Session, units: int): Session {
    s.(retryPending := false, retryAt := 0, numerator := s.numerator % 60, window := 0,
       debitSeq := s.debitSeq + 1, charged := s.charged + units,
       pendingUnits := s.pendingUnits + units, pendingSeconds := s.pendingSeconds + s.window,
       log := Snoc(s.log, Committed(s.debitSeq + 1, units)))
  }

  /** The first debit opens the summary window; a summary goes out when the window is over. */
  function Summarise(p: Params, s: Session, now: int): Session {
    var last := if s.lastSummaryAt == 0 then now else s.lastSummaryAt;
    var win := ClampWindow(if s.summaryWindow < 5 then p.window else s.summaryWindow);
    if now - last >= win * MINUTE && s.pendingUnits > 0 then
      s.(lastSummaryAt := now, pendingUnits := 0, pendingSeconds := 0,
         log := Snoc(s.log, Summarised(s.pendingUnits, s.pendingSeconds, now, win)))
    else s.(lastSummaryAt := last)
  }

  function CommitDebit(p: Params, s: Session, units: int, now: int): Session {
    Summarise(p, BookDebit(s, units), now)
  }

  /** A full window worth less than a unit: the remainder is carried. */
  function CarryOver(s: Session): Session {
    s.(numerator := s.numerator % 60, window := 0, retryPending := false, retryAt := 0, log := Snoc(s.log, ZeroWindow))
  }

  /** A refused debit: the first failure arms the grace retry, the second one pauses. */
  function RefuseDebit(s: Session, units: int, bal: int, now: int): Session {
    if s.retryPending then
      s.(state := Paused, streamActive := false, autoPaused := true, retryPending := false, retryAt := 0,
         log := Snoc(s.log, AutoPaused(s.debitSeq + 1, units, bal, Unix(now))))
    else
      s.(retryPending := true, retryAt := Unix(now) + 60,
         log := Snoc(s.log, Refused(s.debitSeq + 1, units, bal, Unix(now))))
  }

  /** A full debit window. The numerator is never negative, so / and % agree with the truncating ones. */
  function SettleWindow(p: Params, l: Books, id: string, s: Session, now: int): TickResult {
    var units := s.numerator / 60;
    if units <= 0 then TickResult(CarryOver(s), l, false, false)
    else
      match Charge(l, s.agent, id, units, s.debitSeq + 1)
      case Charged(l', _) => TickResult(CommitDebit(p, s, units, now), l', false, false)
      case InsufficientFunds(bal) => TickResult(RefuseDebit(s, units, bal, now), l, s.retryPending, false)
      case InvalidCharge => TickResult(s, l, false, true)
  }

  function AccrueSecond(p: Params, s: Session): Session {
    s.(numerator := s.numerator + EffectiveRate(p, s), window := s.window + 1, log := Snoc(s.log, Accrued))
  }

  function TickSession(p: Params, l: Books, id: string, s: Session, now: int): TickResult {
    if s.state != Running || !s.streamActive then TickResult(s, l, false, false)
    else
      var b := s.(billedSeconds := s.billedSeconds + 1);
      if !p.prepaid || s.agent == "" then TickResult(b, l, false, false)
      else if s.retryPending && Unix(now) < s.retryAt then TickResult(b, l, false, false)
      else
        var a := AccrueSecond(p, b);
        if a.window < p.interval then TickResult(a, l, false, false)
        else SettleWindow(p, l, id, a, now)
  }

  function TickOne(p: Params, w: World, id: string, now: int): World {
    if id !in w.sessions then w
    else
      var r := TickSession(p, w.books, id, w.sessions[id], now);
      w.(sessions := w.sessions[id := r.session], books := r.books)
  }

  /** The tick visits the sessions in the order the store listed them; the ledger is shared. */
  function TickAll(p: Params, w: World, ids: seq<string>, now: int): World {
    if ids == [] then w else TickOne(p, TickAll(p, w, ids[..|ids| - 1], now), ids[|ids| - 1], now)
  }

  /** The sessions a tick auto-paused, in visiting order: the tick pauses their egress afterwards. */
  function PausedBy(p: Params, w: World, ids: seq<string>, now: int): seq<string> {
    if ids == [] then []
    else
      var before, id := ids[..|ids| - 1], ids[|ids| - 1];
      var v := TickAll(p, w, before, now);
      PausedBy(p, w, before, now) +
      (if id in v.sessions && TickSession(p, v.books, id, v.sessions[id], now).pause then [id] else [])
  }

  // ---------------------------------------------------------------------------------------------
  // One operation, and runs

  function Step(p: Params, w: World, op: Op): Outcome {
    match op
    case CreditTopUp(t) =>
      if !p.prepaid then Outcome(w, Some(NoLedger))
      else if !ValidTopUp(t) then Outcome(w, Some(InvalidTopUpError))
      else Outcome(w.(books := Credited(w.books, t), topUps := w.topUps + [t]), None)
    case Create(id, agent) =>
      var e := CheckPrepaid(p, w.books, agent);
      if e.Some? then Outcome(w, e)
      else Outcome(w.(sessions := w.sessions[id := NewSession(p, agent)]), None)
    case Start(id, naryo) =>
      if id !in w.sessions then Outcome(w, Some(NotFound))
      else
        var e := CheckPrepaid(p, w.books, w.sessions[id].agent);
        if e.Some? then Outcome(w, e) else Update(w, id, s => StartEdit(s, naryo))
    case Stop(id, naryoOk) =>
      if id !in w.sessions then Outcome(w, Some(NotFound))
      else if !naryoOk then Outcome(w, Some(NaryoError))
      else Update(w, id, StopEdit)
    case Pause(id, naryoOk) =>
      if !naryoOk then Outcome(w, Some(NaryoError)) else Update(w, id, PauseEdit)
    case Resume(id, naryoOk) =>
      if id !in w.sessions then Outcome(w, Some(NotFound))
      else
        var e := CheckPrepaid(p, w.books, w.sessions[id].agent);
        if e.Some? then Outcome(w, e)
        else if !naryoOk then Outcome(w, Some(NaryoError))
        else Update(w, id, ResumeEdit)
    case SetStream(id, active) => Update(w, id, s => StreamEdit(s, active))
    case BillingTick(now, order) => Outcome(TickAll(p, w, order, now), None)
  }

  const SOURCES: set<string> := {"x402", "hedera_deposit", "dev_auto"}

  /** Sixteen hexadecimal digits, as newSessionID produces. */
  ghost predicate PipelineId(id: string) {
    |id| == 16 && forall c :: c in id ==> '0' <= c <= '9' || 'a' <= c <= 'f'
  }

  ghost predicate Enumerates(order: seq<string>, ids: set<string>) {
    Distinct(order) && forall id :: id in order <==> id in ids
  }

  /** What the environment guarantees: fixed top-up sources, bar-free agent names, fresh ids, a set clock. */
  ghost predicate ValidOp(w: World, op: Op) {
    match op
    case CreditTopUp(t) => BarFree(t.agent) && t.source in SOURCES
    case Create(id, agent) => PipelineId(id) && id !in w.sessions && BarFree(agent)
    case BillingTick(now, order) => now > 0 && Enumerates(order, w.sessions.Keys)
    case _ => true
  }

  function Run(p: Params, w: World, ops: seq<Op>): World {
    if ops == [] then w else Step(p, Run(p, w, ops[..|ops| - 1]), ops[|ops| - 1]).world
  }

  ghost predicate ValidRun(p: Params, w: World, ops: seq<Op>) {
    ops == [] ||
    (ValidRun(p, w, ops[..|ops| - 1]) && ValidOp(Run(p, w, ops[..|ops| - 1]), ops[|ops| - 1]))
  }
}

/**
 A pipeline session (internal/pipeline/model.go) together with the history of what its billing did.
 The history is not part of the program's state; it is the reference the counters are proved against.
 */
module Sessions {
  import opened Collections

  datatype State = Created | Running | Paused | Stopped

  /** What can happen to one session's metering. Times are Unix seconds, except summaries (nanoseconds). */
  datatype Event =
    | Started
    | Resumed
    | Accrued                                                       // one billed second
    | ZeroWindow                                                    // a full window worth less than one unit
    | Committed(bucket: int, units: int)                            // a debit the ledger accepted
    | Refused(bucket: int, units: int, balance: int, at: int)       // first failure: grace retry armed
    | AutoPaused(bucket: int, units: int, balance: int, at: int)    // second failure
    | Summarised(units: int, seconds: int, at: int, window: int)    // audit summary produced

  datatype Log = Empty | Snoc(before: Log, last: Event)

  datatype Session = Session(
    agent: string,
    state: State,
    streamActive: bool,
    billedSeconds: int,
    lastNaryoOp: string,
    rate: int,                // units per minute
    charged: int,
    numerator: int,           // sixtieths of a unit not yet charged
    window: int,              // seconds in the current debit window
    debitSeq: int,            // committed debits since the last start
    retryPending: bool,
    retryAt: int,             // Unix seconds
    pendingUnits: int,
    pendingSeconds: int,
    lastSummaryAt: int,       // nanoseconds; 0 is the zero time
    summaryWindow: int,       // minutes
    autoPaused: bool,
    log: Log)

  // ---------------------------------------------------------------------------------------------
  // Reference readings of a history

  ghost function TicksSinceStart(l: Log): int {
    match l
    case Empty => 0
    case Snoc(b, Started) => 0
    case Snoc(b, Accrued) => TicksSinceStart(b) + 1
    case Snoc(b, _) => TicksSinceStart(b)
  }

  ghost function TotalTicks(l: Log): int {
    match l
    case Empty => 0
    case Snoc(b, Accrued) => TotalTicks(b) + 1
    case Snoc(b, _) => TotalTicks(b)
  }

  ghost function UnitsSinceStart(l: Log): int {
    match l
    case Empty => 0
    case Snoc(b, Started) => 0
    case Snoc(b, Committed(_, units)) => UnitsSinceStart(b) + units
    case Snoc(b, _) => UnitsSinceStart(b)
  }

  ghost function DebitsSinceStart(l: Log): int {
    match l
    case Empty => 0
    case Snoc(b, Started) => 0
    case Snoc(b, Committed(_, _)) => DebitsSinceStart(b) + 1
    case Snoc(b, _) => DebitsSinceStart(b)
  }

  /** The highest debit bucket the session ever reached. */
  ghost function HighestBucket(l: Log): int {
    match l
    case Empty => 0
    case Snoc(b, Committed(bucket, _)) => if bucket > HighestBucket(b) then bucket else HighestBucket(b)
    case Snoc(b, _) => HighestBucket(b)
  }

  /** Units committed on a bucket the session had not reached before. */
  ghost function FreshUnits(l: Log): int {
    match l
    case Empty => 0
    case Snoc(b, Committed(bucket, units)) => FreshUnits(b) + (if bucket > HighestBucket(b) then units else 0)
    case Snoc(b, _) => FreshUnits(b)
  }

  /** Units committed on a bucket that was already used, as happens after a start from paused. */
  ghost function ReplayedUnits(l: Log): int {
    match l
    case Empty => 0
    case Snoc(b, Committed(bucket, units)) => ReplayedUnits(b) + (if bucket > HighestBucket(b) then 0 else units)
    case Snoc(b, _) => ReplayedUnits(b)
  }

  ghost function SecondsInWindow(l: Log): int {
    match l
    case Empty => 0
    case Snoc(b, Accrued) => SecondsInWindow(b) + 1
    case Snoc(b, Started) => 0
    case Snoc(b, ZeroWindow) => 0
    case Snoc(b, Committed(_, _)) => 0
    case Snoc(b, _) => SecondsInWindow(b)
  }

  /** Seconds dropped from the audited runtime: by a start, or by a window worth less than one unit. */
  ghost function ForfeitedSeconds(l: Log): int {
    match l
    case Empty => 0
    case Snoc(b, Started) => ForfeitedSeconds(b) + SecondsInWindow(b)
    case Snoc(b, ZeroWindow) => ForfeitedSeconds(b) + SecondsInWindow(b)
    case Snoc(b, _) => ForfeitedSeconds(b)
  }

  ghost function SummarisedUnits(l: Log): int {
    match l
    case Empty => 0
    case Snoc(b, Summarised(units, _, _, _)) => SummarisedUnits(b) + units
    case Snoc(b, _) => SummarisedUnits(b)
  }

  ghost function SummarisedSeconds(l: Log): int {
    match l
    case Empty => 0
    case Snoc(b, Summarised(_, seconds, _, _)) => SummarisedSeconds(b) + seconds
    case Snoc(b, _) => SummarisedSeconds(b)
  }

  ghost function LastSummary(l: Log): Option<int> {
    match l
    case Empty => None
    case Snoc(b, Summarised(_, _, at, _)) => Some(at)
    case Snoc(b, _) => LastSummary(b)
  }

  ghost predicate EndsGrace(e: Event) {
    e.Committed? || e.ZeroWindow? || e.Started? || e.Resumed? || e.AutoPaused?
  }

  /** l is an initial part of m. */
  ghost predicate Within(l: Log, m: Log) {
    l == m || (m.Snoc? && Within(l, m.before))
  }

  /** The history up to and including the refused debit whose grace period is still open, if any. */
  ghost function OpenRefusal(l: Log): (r: Option<Log>)
    ensures r.Some? ==> r.value.Snoc? && r.value.last.Refused? && Within(r.value, l)
  {
    match l
    case Empty => None
    case Snoc(b, e) => if e.Refused? then Some(l) else if EndsGrace(e) then None else OpenRefusal(b)
  }

  /** Since the last start or resume, the session was paused for lack of funds. */
  ghost predicate FundsPaused(l: Log) {
    l.Snoc? && (l.last.AutoPaused? || (!l.last.Started? && !l.last.Resumed? && FundsPaused(l.before)))
  }

  ghost function StartCount(l: Log): int {
    match l
    case Empty => 0
    case Snoc(b, Started) => StartCount(b) + 1
    case Snoc(b, _) => StartCount(b)
  }

  /** Since the last start, no debit attempt failed. */
  ghost predicate NoFailureSinceStart(l: Log) {
    l.Empty? || l.last.Started? ||
    (!l.last.Refused? && !l.last.AutoPaused? && NoFailureSinceStart(l.before))
  }

  /** The first thing that happens to a session is a start. */
  ghost predicate OpensWithStart(l: Log) {
    l.Empty? || (if l.before.Empty? then l.last.Started? else OpensWithStart(l.before))
  }
}

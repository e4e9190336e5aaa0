// Task types, their static launch constraints, and the schedule entry.
// Models hunt/schedule_entry.py.

module TaskTable {
  import opened Wrappers

  datatype TaskType =
    | ProxyCheck
    | SourceRefresh
    | IpBlacklist
    | Blocklist
    | HealthCheck
    | History
    | ClearDead
    | Backup
    | DbMaintenance

  datatype BusyFlag = HuntRunning | FetchingIpBlacklists | FetchingBlocklists

  /** The `mutex_with` column: `u` must not be running when `t` is launched. */
  predicate Lists(t: TaskType, u: TaskType) {
    match t
    case ProxyCheck => u == HealthCheck
    case HealthCheck => u == ProxyCheck
    case ClearDead => u == ProxyCheck || u == HealthCheck
    case _ => false
  }

  /** Types that probe the network and must not run offline. */
  predicate RespectInternet(t: TaskType) {
    t.ProxyCheck? || t.SourceRefresh? || t.IpBlacklist? || t.Blocklist? || t.HealthCheck?
  }

  function BusyFlagOf(t: TaskType): Option<BusyFlag> {
    match t
    case ProxyCheck => Some(HuntRunning)
    case SourceRefresh => Some(HuntRunning)
    case HealthCheck => Some(HuntRunning)
    case IpBlacklist => Some(FetchingIpBlacklists)
    case Blocklist => Some(FetchingBlocklists)
    case _ => None
  }

  /** A raised flag is stale unless it is the hunt flag and a hunt task is alive behind it. */
  predicate Stale(f: BusyFlag, huntAlive: bool) {
    f != HuntRunning || !huntAlive
  }

  /** A busy flag that is raised and not stale holds the task back. */
  predicate HeldByFlag(t: TaskType, busy: set<BusyFlag>, huntAlive: bool) {
    BusyFlagOf(t).Some? && BusyFlagOf(t).value in busy && !Stale(BusyFlagOf(t).value, huntAlive)
  }

  /** `_check_busy_flag` lowers the stale flag of a type it lets through. */
  function LowerStale(t: TaskType, busy: set<BusyFlag>, huntAlive: bool): set<BusyFlag> {
    if BusyFlagOf(t).Some? && BusyFlagOf(t).value in busy && Stale(BusyFlagOf(t).value, huntAlive)
    then busy - {BusyFlagOf(t).value}
    else busy
  }

  /** No type in the mutex list of `t` is registered as running. */
  predicate NoConflict(running: set<TaskType>, t: TaskType) {
    forall u :: Lists(t, u) ==> u !in running
  }

  /** The outcome of the launch checks, in the order in which they are made. */
  datatype Verdict = AlreadyRunning | FlagHeld | Conflict | NeedsProbe | Clear

  function Gate(running: set<TaskType>, busy: set<BusyFlag>, huntAlive: bool, t: TaskType): Verdict {
    if t in running then AlreadyRunning
    else if HeldByFlag(t, busy, huntAlive) then FlagHeld
    else if !NoConflict(running, t) then Conflict
    else if RespectInternet(t) then NeedsProbe
    else Clear
  }

  /** The busy flags after the checks: a stale flag is lowered once the flag check is passed. */
  function FlagsAfter(v: Verdict, t: TaskType, busy: set<BusyFlag>, huntAlive: bool): set<BusyFlag> {
    if v.AlreadyRunning? || v.FlagHeld? then busy else LowerStale(t, busy, huntAlive)
  }

  datatype Entry = Entry(taskType: TaskType, enabled: bool, intervalSec: int, lastOk: real, nextRun: real)

  /** Due when the interval has passed since the last success; before any success the hint decides. */
  predicate IsDue(e: Entry, now: real) {
    if e.lastOk > 0.0 then now - e.lastOk >= e.intervalSec as real
    else if e.nextRun > 0.0 then now >= e.nextRun
    else true
  }

  /** Two types exclude each other when each lists the other. */
  predicate Exclusive(a: TaskType, b: TaskType) {
    Lists(a, b) && Lists(b, a)
  }

  /** No two types of the set exclude each other. */
  ghost predicate Compatible(types: set<TaskType>) {
    forall t, u {:trigger Exclusive(t, u)} :: Exclusive(t, u) ==> !(t in types && u in types)
  }
}

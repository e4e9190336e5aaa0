// The scheduler as a state machine over its suspension points.
// Models hunt/scheduler.py, hunt/scheduler_guard.py and hunt/scheduler_api.py.
//
// Every coroutine is split at (at least) every point where the source can suspend: while waiting
// for the launch lock and while probing the internet with the lock held. `execs` is the set of
// executions that are really alive; `running` is the scheduler's own book-keeping
// (`_running_tasks`). An action that is not enabled leaves the state as it is.

module SchedulerRuns {
  import opened Wrappers
  import opened TaskTable
  import opened Runs

  type Sid = string

  datatype Phase = Created | Executing

  /** A task created for a schedule that has not yet reached its `finally` block. */
  datatype Exec = Exec(sid: Sid, taskType: TaskType, phase: Phase, cancelled: bool)

  /** Where a drain or a manual run is suspended. */
  datatype Coro =
    | DrainNext(rest: seq<Sid>)
    | DrainLock(sid: Sid, taskType: TaskType, rest: seq<Sid>)
    | DrainProbe(sid: Sid, taskType: TaskType, rest: seq<Sid>)  // holds the launch lock
    | ManualProbe(sid: Sid, taskType: TaskType)
    | ManualLock(sid: Sid, taskType: TaskType)

  /** A bulk cancellation between its `cancel()` calls and its clean-up of the registry. */
  datatype Bulk = Bulk(snapshot: map<TaskType, nat>, wipeAll: bool)

  datatype State = State(
    schedules: map<Sid, Entry>,
    queue: seq<Sid>,
    running: map<TaskType, nat>,
    execs: map<nat, Exec>,
    coros: map<nat, Coro>,
    lock: Option<nat>,
    busy: set<BusyFlag>,
    paused: bool,
    stopped: bool,
    bulk: Option<Bulk>,
    now: real,
    nextId: nat)

  datatype Action =
    | Advance(to: real)
    | Tick(due: seq<Sid>)
    | Trigger(sid: Sid)
    | Drain(coro: nat)
    | Lock(coro: nat, huntAlive: bool)
    | Probe(coro: nat, online: bool)
    | RunNow(sid: Sid, huntAlive: bool)
    | ManualResume(coro: nat, online: bool, huntAlive: bool)
    | ManualRegister(coro: nat)
    | Start(exec: nat)
    | Finish(exec: nat, ok: bool)
    | CancelOne(sid: Sid)
    | Add(sid: Sid, entry: Entry)
    | Delete(sid: Sid)
    | Toggle(sid: Sid)
    | Edit(sid: Sid, interval: Option<int>, enable: Option<bool>)
    | Rehint(sid: Sid, at: real)
    | SetPaused(on: bool)
    | SetStopped
    | SetBusy(flag: BusyFlag, on: bool)
    | Abandon(coro: nat)
    | BulkBegin(scope: set<TaskType>, wipeAll: bool)
    | BulkEnd

  function Without(q: seq<Sid>, sid: Sid): seq<Sid> {
    if q == [] then []
    else if q[0] == sid then Without(q[1..], sid)
    else [q[0]] + Without(q[1..], sid)
  }

  /** The next run expected of an entry that is queued or finished now. */
  function Expected(e: Entry, now: real): Entry {
    e.(nextRun := now + e.intervalSec as real)
  }

  function ExpectAll(schedules: map<Sid, Entry>, sids: seq<Sid>, now: real): map<Sid, Entry> {
    map sid | sid in schedules :: if sid in sids then Expected(schedules[sid], now) else schedules[sid]
  }

  function Enqueue(s: State, sid: Sid): State {
    if sid !in s.schedules || sid in s.queue then s
    else s.(queue := s.queue + [sid], schedules := s.schedules[sid := Expected(s.schedules[sid], s.now)])
  }

  /** A tick queues the due schedules. */
  function EnqueueAll(s: State, due: seq<Sid>): State {
    s.(queue := s.queue + due, schedules := ExpectAll(s.schedules, due, s.now))
  }

  function NewCoro(s: State, coro: Coro): State {
    s.(coros := s.coros[s.nextId := coro], nextId := s.nextId + 1)
  }

  /** `_drain_queue` up to its first loop iteration. */
  function SpawnDrain(s: State): State {
    if s.queue == [] || s.stopped || s.paused then s else NewCoro(s, DrainNext(s.queue))
  }

  /** The pair "create the task, register it", which no await separates. */
  function Register(s: State, sid: Sid, t: TaskType): State {
    s.(running := s.running[t := s.nextId],
       execs := s.execs[s.nextId := Exec(sid, t, Created, false)],
       nextId := s.nextId + 1)
  }

  function Resume(s: State, c: nat, coro: Coro): State {
    s.(coros := s.coros[c := coro])
  }

  function EndCoro(s: State, c: nat): State {
    s.(coros := s.coros - {c})
  }

  predicate DueNow(s: State, sid: Sid) {
    && sid in s.schedules
    && s.schedules[sid].enabled
    && s.schedules[sid].intervalSec > 0
    && s.schedules[sid].taskType !in s.running
    && sid !in s.queue
    && IsDue(s.schedules[sid], s.now)
  }

  predicate NoDuplicates(q: seq<Sid>) {
    forall i, j :: 0 <= i < j < |q| ==> q[i] != q[j]
  }

  predicate IsDueList(s: State, due: seq<Sid>) {
    && NoDuplicates(due)
    && (forall sid <- due :: DueNow(s, sid))
    && (forall sid <- s.schedules :: DueNow(s, sid) ==> sid in due)
  }

  /** Where the drain goes after looking at `rest[0]`. */
  function AfterHead(s: State, rest: seq<Sid>): Coro
    requires rest != []
  {
    if rest[0] in s.schedules && s.schedules[rest[0]].taskType !in s.running
    then DrainLock(rest[0], s.schedules[rest[0]].taskType, rest[1..])
    else DrainNext(rest[1..])
  }

  /** One iteration of the drain loop up to the launch lock; a deleted schedule leaves the queue. */
  function DrainStep(s: State, c: nat, rest: seq<Sid>): State {
    if rest == [] then EndCoro(s, c)
    else
      s.(queue := if rest[0] in s.schedules then s.queue else Without(s.queue, rest[0]),
         coros := s.coros[c := AfterHead(s, rest)])
  }

  /** The launch was decided: register, take the schedule off the queue, go on draining. */
  function DrainLaunch(s: State, c: nat, sid: Sid, t: TaskType, rest: seq<Sid>): State {
    Resume(Register(s, sid, t).(queue := Without(s.queue, sid)), c, DrainNext(rest))
  }

  /** What follows each outcome of the launch checks. */
  function AfterGate(s: State, c: nat, sid: Sid, t: TaskType, rest: seq<Sid>, verdict: Verdict): State {
    match verdict
    case NeedsProbe => Resume(s.(lock := Some(c)), c, DrainProbe(sid, t, rest))
    case Clear => DrainLaunch(s, c, sid, t, rest)
    case _ => Resume(s, c, DrainNext(rest))
  }

  /** The checks made with the launch lock held, up to the internet probe. */
  function LockStep(s: State, c: nat, sid: Sid, t: TaskType, rest: seq<Sid>, huntAlive: bool): State {
    var verdict := Gate(s.running.Keys, s.busy, huntAlive, t);
    AfterGate(s.(busy := FlagsAfter(verdict, t, s.busy, huntAlive)), c, sid, t, rest, verdict)
  }

  /** A manual run past its busy-flag check: wait for the launch lock, or for the conflict to end. */
  function ManualUnflagged(s: State, sid: Sid, t: TaskType): State {
    if NoConflict(s.running.Keys, t) then NewCoro(s, ManualLock(sid, t)) else Enqueue(s, sid)
  }

  /** A manual run from its busy-flag check to the launch lock. */
  function ManualChecks(s: State, sid: Sid, t: TaskType, huntAlive: bool): State {
    if HeldByFlag(t, s.busy, huntAlive) then Enqueue(s, sid)
    else
      ManualUnflagged(s.(busy := LowerStale(t, s.busy, huntAlive), queue := Without(s.queue, sid)), sid, t)
  }

  function RunNowStep(s: State, sid: Sid, huntAlive: bool): State {
    if sid !in s.schedules || s.schedules[sid].taskType in s.running then s
    else if RespectInternet(s.schedules[sid].taskType)
    then NewCoro(s, ManualProbe(sid, s.schedules[sid].taskType))
    else ManualChecks(s, sid, s.schedules[sid].taskType, huntAlive)
  }

  /** First step of a created task, which looks its schedule up again: a task that was cancelled
      or whose schedule is gone ends here, without touching the registry. */
  function StartStep(s: State, e: nat): State
    requires e in s.execs
  {
    var x := s.execs[e];
    if x.cancelled || x.sid !in s.schedules then s.(execs := s.execs - {e})
    else s.(execs := s.execs[e := x.(phase := Executing, taskType := s.schedules[x.sid].taskType)])
  }

  /** The `finally` block: unregister by type, then drain. */
  function FinishStep(s: State, e: nat, ok: bool): State
    requires e in s.execs
  {
    var x := s.execs[e];
    var schedules' :=
      if x.sid in s.schedules then s.schedules[x.sid := Completed(s.schedules[x.sid], s.now, ok)] else s.schedules;
    SpawnDrain(s.(schedules := schedules', running := s.running - {x.taskType}, execs := s.execs - {e}))
  }

  /** A completion now; only a success moves the time that the interval is counted from. */
  function Completed(e: Entry, now: real, ok: bool): Entry {
    Expected(e, now).(lastOk := if ok then now else e.lastOk)
  }

  /** The execution that cancelling a schedule reaches: the registered one, if it is not queued. */
  function CancelledExecs(s: State, sid: Sid): map<nat, Exec> {
    if sid in s.schedules && sid !in s.queue && s.schedules[sid].taskType in s.running then
      var e := s.running[s.schedules[sid].taskType];
      if e in s.execs then s.execs[e := s.execs[e].(cancelled := true)] else s.execs
    else s.execs
  }

  function CancelStep(s: State, sid: Sid): State {
    s.(queue := if sid in s.schedules then Without(s.queue, sid) else s.queue, execs := CancelledExecs(s, sid))
  }

  /** The next run expected of an entry that is switched on or gets another interval. */
  function Planned(e: Entry, now: real): Entry {
    Expected(e, if e.lastOk > 0.0 then e.lastOk else now)
  }

  function Toggled(e: Entry, now: real): Entry {
    var e' := e.(enabled := !e.enabled);
    if e'.enabled && e'.intervalSec > 0 then Planned(e', now) else e'.(nextRun := 0.0)
  }

  /** A schedule that ends up disabled, or that has no interval, leaves the queue. */
  function ToggleStep(s: State, sid: Sid): State {
    if sid !in s.schedules then s
    else
      var e := s.schedules[sid];
      s.(schedules := s.schedules[sid := Toggled(e, s.now)],
         queue := if !e.enabled && e.intervalSec > 0 then s.queue else Without(s.queue, sid))
  }

  function WithInterval(e: Entry, interval: Option<int>, now: real): Entry {
    if interval.None? then e
    else
      var e' := e.(intervalSec := interval.value);
      if e'.enabled && e'.intervalSec > 0 then Planned(e', now) else e'
  }

  function WithEnabled(e: Entry, enable: Option<bool>, now: real): Entry {
    if enable.None? then e
    else
      var e' := e.(enabled := enable.value);
      if !e'.enabled then e'.(nextRun := 0.0) else if e'.intervalSec > 0 then Planned(e', now) else e'
  }

  /** Editing the interval first, then the switch; the task type is left out. */
  function Edited(e: Entry, interval: Option<int>, enable: Option<bool>, now: real): Entry {
    WithEnabled(WithInterval(e, interval, now), enable, now)
  }

  /** Switching a schedule off takes it from the queue. */
  function EditStep(s: State, sid: Sid, interval: Option<int>, enable: Option<bool>): State {
    if sid !in s.schedules then s
    else
      s.(schedules := s.schedules[sid := Edited(s.schedules[sid], interval, enable, s.now)],
         queue := if enable == Some(false) then Without(s.queue, sid) else s.queue)
  }

  /** A bulk cancellation also rewrites the next run of schedules it stopped. */
  function RehintStep(s: State, sid: Sid, at: real): State {
    if sid !in s.schedules then s else s.(schedules := s.schedules[sid := s.schedules[sid].(nextRun := at)])
  }

  /** `cancel()` on every execution of `ids`. */
  function CancelAll(execs: map<nat, Exec>, ids: set<nat>): map<nat, Exec> {
    map e | e in execs :: if e in ids then execs[e].(cancelled := true) else execs[e]
  }

  function Snapshot(running: map<TaskType, nat>, scope: set<TaskType>, wipeAll: bool): map<TaskType, nat> {
    map t | t in running && (wipeAll || t in scope) :: running[t]
  }

  function OpenBulk(s: State, snapshot: map<TaskType, nat>, wipeAll: bool): State {
    s.(bulk := Some(Bulk(snapshot, wipeAll)), execs := CancelAll(s.execs, snapshot.Values))
  }

  /** A bulk cancellation waits for what it cancelled; with nothing to cancel it is over at once. */
  function BulkBeginStep(s: State, scope: set<TaskType>, wipeAll: bool): State {
    var snapshot := Snapshot(s.running, scope, wipeAll);
    var s1 := s.(queue := if wipeAll then [] else s.queue);
    if snapshot == map[] then s1 else OpenBulk(s1, snapshot, wipeAll)
  }

  /** A suspended drain or manual run is itself cancelled, and gives back the launch lock. */
  function AbandonStep(s: State, c: nat): State {
    s.(coros := s.coros - {c}, lock := if s.lock == Some(c) then None else s.lock)
  }

  predicate Enabled(s: State, a: Action) {
    match a
    case Tick(due) => !s.paused && IsDueList(s, due)
    case Drain(c) => c in s.coros && s.coros[c].DrainNext?
    case Lock(c, _) => c in s.coros && s.coros[c].DrainLock? && s.lock.None?
    case Probe(c, _) => c in s.coros && s.coros[c].DrainProbe?
    case ManualResume(c, _, _) => c in s.coros && s.coros[c].ManualProbe?
    case ManualRegister(c) => c in s.coros && s.coros[c].ManualLock? && s.lock.None?
    case Start(e) => e in s.execs && s.execs[e].phase.Created?
    case Finish(e, _) => e in s.execs && s.execs[e].phase.Executing?
    case Add(sid, _) => sid !in s.schedules
    case BulkBegin(_, _) => s.bulk.None?
    case BulkEnd => s.bulk.Some? && forall t <- s.bulk.value.snapshot :: s.bulk.value.snapshot[t] !in s.execs
    case _ => true
  }

  function Apply(s: State, a: Action): State {
    if !Enabled(s, a) then s
    else
      match a
      case Advance(to) => s.(now := to)
      case Tick(due) => SpawnDrain(EnqueueAll(s, due))
      case Trigger(sid) => if sid in s.schedules then SpawnDrain(Enqueue(s, sid)) else s
      case Drain(c) => DrainStep(s, c, s.coros[c].rest)
      case Lock(c, alive) => LockStep(s, c, s.coros[c].sid, s.coros[c].taskType, s.coros[c].rest, alive)
      case Probe(c, online) =>
        if online
        then DrainLaunch(s.(lock := None), c, s.coros[c].sid, s.coros[c].taskType, s.coros[c].rest)
        else Resume(s.(lock := None), c, DrainNext(s.coros[c].rest))
      case RunNow(sid, alive) => RunNowStep(s, sid, alive)
      case ManualResume(c, online, alive) =>
        if online then ManualChecks(EndCoro(s, c), s.coros[c].sid, s.coros[c].taskType, alive)
        else EndCoro(s, c)
      case ManualRegister(c) =>
        if s.coros[c].taskType in s.running then EndCoro(s, c)
        else Register(EndCoro(s, c), s.coros[c].sid, s.coros[c].taskType)
      case Start(e) => StartStep(s, e)
      case Finish(e, ok) => FinishStep(s, e, ok)
      case CancelOne(sid) => CancelStep(s, sid)
      case Add(sid, entry) => s.(schedules := s.schedules[sid := entry])
      case Delete(sid) => s.(schedules := s.schedules - {sid})
      case Toggle(sid) => ToggleStep(s, sid)
      case Edit(sid, interval, enable) => EditStep(s, sid, interval, enable)
      case Rehint(sid, at) => RehintStep(s, sid, at)
      case SetPaused(on) => s.(paused := on)
      case SetStopped => s.(stopped := true, queue := [])
      case SetBusy(f, on) => s.(busy := if on then s.busy + {f} else s.busy - {f})
      case Abandon(c) => AbandonStep(s, c)
      case BulkBegin(scope, wipeAll) => BulkBeginStep(s, scope, wipeAll)
      case BulkEnd =>
        s.(running := if s.bulk.value.wipeAll then map[] else s.running - s.bulk.value.snapshot.Keys,
           bulk := None)
  }

  /** A scheduler after `prepare()`: schedules loaded, nothing queued, running or suspended. */
  function Boot(schedules: map<Sid, Entry>): State {
    State(schedules, [], map[], map[], map[], None, {}, false, false, None, 0.0, 0)
  }

  // ---- The registry invariant ----

  /** Types an open bulk cancellation is going to erase from the registry. */
  predicate InBulk(s: State, t: TaskType) {
    s.bulk.Some? && (s.bulk.value.wipeAll || t in s.bulk.value.snapshot)
  }

  /** The end of a bulk cancellation that takes a live execution out of the registry. */
  predicate Erases(s: State, a: Action) {
    a.BulkEnd? && Enabled(s, a) && exists e <- s.execs :: InBulk(s, s.execs[e].taskType)
  }

  /** Every schedule id keeps one task type, also across delete and re-add. */
  predicate KeepsType(kind: Sid -> TaskType, a: Action) {
    a.Add? ==> a.entry.taskType == kind(a.sid)
  }

  /** The steps the promises are made for. */
  function Admissible(kind: Sid -> TaskType): (State, Action) -> bool {
    (s, a) => KeepsType(kind, a) && !Erases(s, a)
  }

  ghost predicate TypesOk(kind: Sid -> TaskType, s: State) {
    && (forall sid <- s.schedules :: s.schedules[sid].taskType == kind(sid))
    && (forall e <- s.execs :: s.execs[e].taskType == kind(s.execs[e].sid))
    && (forall c <- s.coros :: !s.coros[c].DrainNext? ==> s.coros[c].taskType == kind(s.coros[c].sid))
  }

  ghost predicate LiveAreRegistered(s: State) {
    forall e <- s.execs :: s.execs[e].taskType in s.running && s.running[s.execs[e].taskType] == e
  }

  ghost predicate LockOk(s: State) {
    && (forall c <- s.coros :: s.coros[c].DrainProbe? ==> s.lock == Some(c) && s.coros[c].taskType !in s.running)
    && (s.lock.Some? ==> s.lock.value in s.coros && s.coros[s.lock.value].DrainProbe?)
  }

  ghost predicate IdsOk(s: State) {
    && (forall e <- s.execs :: e < s.nextId)
    && (forall c <- s.coros :: c < s.nextId)
    && (forall t <- s.running :: s.running[t] < s.nextId)
  }

  ghost predicate Inv(kind: Sid -> TaskType, s: State) {
    TypesOk(kind, s) && LiveAreRegistered(s) && LockOk(s) && IdsOk(s)
  }

  predicate CoroTyped(kind: Sid -> TaskType, coro: Coro) {
    coro.DrainNext? || coro.taskType == kind(coro.sid)
  }

  /** The invariant survives any change that keeps the registry, the coroutines and the lock, only
      ends executions, and adds no schedule of another type. */
  lemma FrameKeeps(kind: Sid -> TaskType, s: State, s': State)
    requires Inv(kind, s)
    requires s'.running == s.running && s'.coros == s.coros && s'.lock == s.lock
    requires s'.nextId == s.nextId
    requires forall e <- s'.execs :: e in s.execs && s'.execs[e].taskType == s.execs[e].taskType
    requires forall e <- s'.execs :: s'.execs[e].sid == s.execs[e].sid
    requires forall sid <- s'.schedules :: s'.schedules[sid].taskType == kind(sid)
    ensures Inv(kind, s')
  {
  }

  lemma RegisterKeeps(kind: Sid -> TaskType, s: State, sid: Sid, t: TaskType)
    requires Inv(kind, s) && t == kind(sid) && s.lock.None? && t !in s.running
    ensures Inv(kind, Register(s, sid, t))
  {
  }

  /** Moving, adding or ending a coroutine that does not hold the lock. */
  lemma ResumeKeeps(kind: Sid -> TaskType, s: State, c: nat, coro: Coro)
    requires Inv(kind, s) && c in s.coros && !s.coros[c].DrainProbe?
    requires !coro.DrainProbe? && CoroTyped(kind, coro)
    ensures Inv(kind, Resume(s, c, coro)) && Inv(kind, EndCoro(s, c))
  {
  }

  lemma NewCoroKeeps(kind: Sid -> TaskType, s: State, coro: Coro)
    requires Inv(kind, s) && !coro.DrainProbe? && CoroTyped(kind, coro)
    ensures Inv(kind, NewCoro(s, coro))
  {
  }

  lemma ReleaseKeeps(kind: Sid -> TaskType, s: State, c: nat, rest: seq<Sid>)
    requires Inv(kind, s) && c in s.coros && s.coros[c].DrainProbe?
    ensures Inv(kind, Resume(s.(lock := None), c, DrainNext(rest)))
  {
  }

  lemma AcquireKeeps(kind: Sid -> TaskType, s: State, c: nat, coro: Coro)
    requires Inv(kind, s) && c in s.coros && s.lock.None? && !s.coros[c].DrainProbe?
    requires coro.DrainProbe? && CoroTyped(kind, coro) && coro.taskType !in s.running
    ensures Inv(kind, Resume(s.(lock := Some(c)), c, coro))
  {
  }

  lemma LaunchKeeps(kind: Sid -> TaskType, s: State, c: nat, sid: Sid, t: TaskType, rest: seq<Sid>)
    requires Inv(kind, s) && c in s.coros && !s.coros[c].DrainProbe?
    requires t == kind(sid) && s.lock.None? && t !in s.running
    ensures Inv(kind, DrainLaunch(s, c, sid, t, rest))
  {
    RegisterKeeps(kind, s, sid, t);
    var s1 := Register(s, sid, t).(queue := Without(s.queue, sid));
    FrameKeeps(kind, Register(s, sid, t), s1);
    ResumeKeeps(kind, s1, c, DrainNext(rest));
  }

  lemma AfterGateKeeps(
    kind: Sid -> TaskType, s: State, c: nat, sid: Sid, t: TaskType, rest: seq<Sid>, verdict: Verdict)
    requires Inv(kind, s) && c in s.coros && !s.coros[c].DrainProbe?
    requires t == kind(sid) && s.lock.None?
    requires t in s.running ==> verdict.AlreadyRunning?
    ensures Inv(kind, AfterGate(s, c, sid, t, rest, verdict))
  {
    match verdict
    case NeedsProbe => AcquireKeeps(kind, s, c, DrainProbe(sid, t, rest));
    case Clear => LaunchKeeps(kind, s, c, sid, t, rest);
    case _ => ResumeKeeps(kind, s, c, DrainNext(rest));
  }

  lemma LockKeeps(kind: Sid -> TaskType, s: State, c: nat, alive: bool)
    requires Inv(kind, s)
    ensures Inv(kind, Apply(s, Lock(c, alive)))
  {
    if Enabled(s, Lock(c, alive)) {
      var x := s.coros[c];
      var verdict := Gate(s.running.Keys, s.busy, alive, x.taskType);
      var s1 := s.(busy := FlagsAfter(verdict, x.taskType, s.busy, alive));
      FrameKeeps(kind, s, s1);
      AfterGateKeeps(kind, s1, c, x.sid, x.taskType, x.rest, verdict);
    }
  }

  lemma ProbeKeeps(kind: Sid -> TaskType, s: State, c: nat, online: bool)
    requires Inv(kind, s)
    ensures Inv(kind, Apply(s, Probe(c, online)))
  {
    if Enabled(s, Probe(c, online)) {
      var sid, t, rest := s.coros[c].sid, s.coros[c].taskType, s.coros[c].rest;
      var s1 := Resume(s.(lock := None), c, DrainNext(rest));
      ReleaseKeeps(kind, s, c, rest);
      if online {
        RegisterKeeps(kind, s1, sid, t);
        var s2 := Register(s1, sid, t).(queue := Without(s.queue, sid));
        assert Inv(kind, s2);
        assert Apply(s, Probe(c, online)).coros == s2.coros;
      }
    }
  }

  lemma ManualKeeps(kind: Sid -> TaskType, s: State, a: Action)
    requires Inv(kind, s)
    requires a.RunNow? || a.ManualResume? || a.ManualRegister?
    ensures Inv(kind, Apply(s, a))
  {
    if Enabled(s, a) {
      match a
      case RunNow(sid, alive) =>
        if sid in s.schedules {
          var t := s.schedules[sid].taskType;
          NewCoroKeeps(kind, s, ManualProbe(sid, t));
          ManualChecksKeeps(kind, s, sid, t, alive);
        }
      case ManualResume(c, _, alive) =>
        ResumeKeeps(kind, s, c, DrainNext([]));
        ManualChecksKeeps(kind, EndCoro(s, c), s.coros[c].sid, s.coros[c].taskType, alive);
      case ManualRegister(c) =>
        ResumeKeeps(kind, s, c, DrainNext([]));
        if s.coros[c].taskType !in s.running {
          RegisterKeeps(kind, EndCoro(s, c), s.coros[c].sid, s.coros[c].taskType);
        }
    }
  }

  lemma EnqueueKeeps(kind: Sid -> TaskType, s: State, sid: Sid)
    requires Inv(kind, s)
    ensures Inv(kind, Enqueue(s, sid))
  {
    FrameKeeps(kind, s, Enqueue(s, sid));
  }

  lemma ManualChecksKeeps(kind: Sid -> TaskType, s: State, sid: Sid, t: TaskType, alive: bool)
    requires Inv(kind, s) && t == kind(sid)
    ensures Inv(kind, ManualChecks(s, sid, t, alive))
  {
    if HeldByFlag(t, s.busy, alive) {
      EnqueueKeeps(kind, s, sid);
    } else {
      var s1 := s.(busy := LowerStale(t, s.busy, alive), queue := Without(s.queue, sid));
      FrameKeeps(kind, s, s1);
      UnflaggedKeeps(kind, s1, sid, t);
    }
  }

  lemma UnflaggedKeeps(kind: Sid -> TaskType, s: State, sid: Sid, t: TaskType)
    requires Inv(kind, s) && t == kind(sid)
    ensures Inv(kind, ManualUnflagged(s, sid, t))
  {
    NewCoroKeeps(kind, s, ManualLock(sid, t));
    EnqueueKeeps(kind, s, sid);
  }

  lemma DrainKeeps(kind: Sid -> TaskType, s: State, c: nat)
    requires Inv(kind, s)
    ensures Inv(kind, Apply(s, Drain(c)))
  {
    if Enabled(s, Drain(c)) {
      var rest := s.coros[c].rest;
      if rest == [] {
        ResumeKeeps(kind, s, c, DrainNext([]));
      } else {
        ResumeKeeps(kind, s, c, AfterHead(s, rest));
        FrameKeeps(kind, Resume(s, c, AfterHead(s, rest)), DrainStep(s, c, rest));
      }
    }
  }

  lemma SpawnKeeps(kind: Sid -> TaskType, s: State)
    requires Inv(kind, s)
    ensures Inv(kind, SpawnDrain(s))
  {
    NewCoroKeeps(kind, s, DrainNext(s.queue));
  }

  lemma FinishKeeps(kind: Sid -> TaskType, s: State, e: nat, ok: bool)
    requires Inv(kind, s)
    ensures Inv(kind, Apply(s, Finish(e, ok)))
  {
    if Enabled(s, Finish(e, ok)) {
      var x := s.execs[e];
      var s1 := s.(running := s.running - {x.taskType}, execs := s.execs - {e});
      assert LiveAreRegistered(s1);
      assert Inv(kind, s1);
      var s2 := if x.sid in s.schedules
        then s1.(schedules := s.schedules[x.sid := Completed(s.schedules[x.sid], s.now, ok)])
        else s1;
      assert Inv(kind, s2);
      SpawnKeeps(kind, s2);
    }
  }

  lemma OpenBulkKeeps(kind: Sid -> TaskType, s: State, snapshot: map<TaskType, nat>, wipeAll: bool)
    requires Inv(kind, s)
    ensures Inv(kind, OpenBulk(s, snapshot, wipeAll))
  {
    FrameKeeps(kind, s, OpenBulk(s, snapshot, wipeAll));
  }

  lemma BulkBeginKeeps(kind: Sid -> TaskType, s: State, scope: set<TaskType>, wipeAll: bool)
    requires Inv(kind, s)
    ensures Inv(kind, Apply(s, BulkBegin(scope, wipeAll)))
  {
    var s1 := s.(queue := if wipeAll then [] else s.queue);
    FrameKeeps(kind, s, s1);
    OpenBulkKeeps(kind, s1, Snapshot(s.running, scope, wipeAll), wipeAll);
  }

  /** The end of a bulk cancellation keeps every live execution registered if and only if no live
      execution has a type it is about to erase. */
  lemma BulkEndExactly(s: State)
    requires LiveAreRegistered(s)
    ensures LiveAreRegistered(Apply(s, BulkEnd)) <==> !Erases(s, BulkEnd)
  {
    var s' := Apply(s, BulkEnd);
    if Enabled(s, BulkEnd) {
      assert s'.execs == s.execs;
      assert forall t :: t in s'.running <==> t in s.running && !InBulk(s, t);
    }
  }

  lemma BulkEndKeeps(kind: Sid -> TaskType, s: State)
    requires Inv(kind, s) && !Erases(s, BulkEnd)
    ensures Inv(kind, Apply(s, BulkEnd))
  {
    BulkEndExactly(s);
  }

  /** A probing drain is the one that holds the launch lock. */
  lemma ProbeAbandonKeeps(kind: Sid -> TaskType, s: State, c: nat)
    requires Inv(kind, s) && c in s.coros && s.coros[c].DrainProbe?
    ensures Inv(kind, AbandonStep(s, c))
  {
    var s1 := Resume(s.(lock := None), c, DrainNext([]));
    ReleaseKeeps(kind, s, c, []);
    ResumeKeeps(kind, s1, c, DrainNext([]));
    assert AbandonStep(s, c).coros == EndCoro(s1, c).coros;
  }

  lemma AbandonKeeps(kind: Sid -> TaskType, s: State, c: nat)
    requires Inv(kind, s)
    ensures Inv(kind, Apply(s, Abandon(c)))
  {
    if c !in s.coros {
      assert s.coros - {c} == s.coros;
    } else if s.coros[c].DrainProbe? {
      ProbeAbandonKeeps(kind, s, c);
    } else {
      ResumeKeeps(kind, s, c, DrainNext([]));
    }
  }

  lemma StartKeeps(kind: Sid -> TaskType, s: State, e: nat)
    requires Inv(kind, s)
    ensures Inv(kind, Apply(s, Start(e)))
  {
    if Enabled(s, Start(e)) {
      FrameKeeps(kind, s, s.(execs := s.execs - {e}));
      if s.execs[e].sid in s.schedules {
        var x := s.execs[e].(phase := Executing, taskType := s.schedules[s.execs[e].sid].taskType);
        FrameKeeps(kind, s, s.(execs := s.execs[e := x]));
      }
    }
  }

  lemma CancelKeeps(kind: Sid -> TaskType, s: State, sid: Sid)
    requires Inv(kind, s)
    ensures Inv(kind, Apply(s, CancelOne(sid)))
  {
    FrameKeeps(kind, s, CancelStep(s, sid));
  }

  lemma ToggleKeeps(kind: Sid -> TaskType, s: State, sid: Sid)
    requires Inv(kind, s)
    ensures Inv(kind, Apply(s, Toggle(sid)))
  {
    FrameKeeps(kind, s, ToggleStep(s, sid));
  }

  lemma EditKeeps(kind: Sid -> TaskType, s: State, sid: Sid, interval: Option<int>, enable: Option<bool>)
    requires Inv(kind, s)
    ensures Inv(kind, Apply(s, Edit(sid, interval, enable)))
  {
    FrameKeeps(kind, s, EditStep(s, sid, interval, enable));
  }

  lemma RehintKeeps(kind: Sid -> TaskType, s: State, sid: Sid, at: real)
    requires Inv(kind, s)
    ensures Inv(kind, Apply(s, Rehint(sid, at)))
  {
    FrameKeeps(kind, s, RehintStep(s, sid, at));
  }

  lemma AddKeeps(kind: Sid -> TaskType, s: State, sid: Sid, entry: Entry)
    requires Inv(kind, s) && entry.taskType == kind(sid)
    ensures Inv(kind, Apply(s, Add(sid, entry)))
  {
    FrameKeeps(kind, s, s.(schedules := s.schedules[sid := entry]));
  }

  lemma QuietKeeps(kind: Sid -> TaskType, s: State, a: Action)
    requires Inv(kind, s) && (a.Advance? || a.Delete? || a.SetPaused? || a.SetStopped? || a.SetBusy?)
    ensures Inv(kind, Apply(s, a))
  {
    FrameKeeps(kind, s, Apply(s, a));
  }

  lemma SpawningKeeps(kind: Sid -> TaskType, s: State, a: Action)
    requires Inv(kind, s) && (a.Tick? || a.Trigger?)
    ensures Inv(kind, Apply(s, a))
  {
    if a.Tick? {
      FrameKeeps(kind, s, EnqueueAll(s, a.due));
      SpawnKeeps(kind, EnqueueAll(s, a.due));
    } else {
      SpawnKeeps(kind, Enqueue(s, a.sid));
    }
  }

  lemma StepKeeps(kind: Sid -> TaskType, s: State, a: Action)
    requires Inv(kind, s) && KeepsType(kind, a) && !Erases(s, a)
    ensures Inv(kind, Apply(s, a))
  {
    if a.Tick? || a.Trigger? { SpawningKeeps(kind, s, a); }
    else if a.Drain? { DrainKeeps(kind, s, a.coro); }
    else if a.Lock? { LockKeeps(kind, s, a.coro, a.huntAlive); }
    else if a.Probe? { ProbeKeeps(kind, s, a.coro, a.online); }
    else if a.RunNow? || a.ManualResume? || a.ManualRegister? { ManualKeeps(kind, s, a); }
    else if a.Finish? { FinishKeeps(kind, s, a.exec, a.ok); }
    else if a.Abandon? { AbandonKeeps(kind, s, a.coro); }
    else if a.BulkBegin? { BulkBeginKeeps(kind, s, a.scope, a.wipeAll); }
    else if a.BulkEnd? { BulkEndKeeps(kind, s); }
    else if a.Start? { StartKeeps(kind, s, a.exec); }
    else if a.CancelOne? { CancelKeeps(kind, s, a.sid); }
    else if a.Toggle? { ToggleKeeps(kind, s, a.sid); }
    else if a.Edit? { EditKeeps(kind, s, a.sid, a.interval, a.enable); }
    else if a.Rehint? { RehintKeeps(kind, s, a.sid, a.at); }
    else if a.Add? { AddKeeps(kind, s, a.sid, a.entry); }
    else { QuietKeeps(kind, s, a); }
  }

  lemma {:induction false} RunKeeps(kind: Sid -> TaskType, s: State, actions: seq<Action>)
    requires Inv(kind, s) && Guarded(Apply, Admissible(kind), s, actions)
    ensures Inv(kind, Run(Apply, s, actions))
    decreases |actions|
  {
    if actions != [] {
      StepKeeps(kind, s, actions[0]);
      RunKeeps(kind, Apply(s, actions[0]), actions[1..]);
    }
  }
}

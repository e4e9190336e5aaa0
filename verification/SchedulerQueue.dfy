// Who enters and who leaves the launch queue, and when a schedule is due again.
// Models the promises of hunt/schedule_entry.py and hunt/scheduler.py about the interval and about
// queued schedules, which are never dropped silently.

module SchedulerQueue {
  import opened Wrappers
  import opened TaskTable
  import opened Runs
  import opened SchedulerRuns
  import SchedulerEngine

  // ---- The queue, step by step ----

  /** The time has come: the interval has passed since the last success, or, before any success, the
      expected time has passed or there is none. */
  predicate TimeHasCome(e: Entry, now: real) {
    && (e.lastOk > 0.0 ==> now >= e.lastOk + e.intervalSec as real)
    && (e.lastOk <= 0.0 ==> e.nextRun <= 0.0 || now >= e.nextRun)
  }

  /** A manual run of `sid` passes its first checks now. */
  predicate ManualPasses(s: State, a: Action, sid: Sid) {
    match a
    case RunNow(x, _) =>
      x == sid && sid in s.schedules && TypeOf(s, a, sid) !in s.running && !RespectInternet(TypeOf(s, a, sid))
    case ManualResume(c, online, _) => Enabled(s, a) && online && s.coros[c].sid == sid
    case _ => false
  }

  /** The type that a step launches or tries to launch. */
  function TypeOf(s: State, a: Action, sid: Sid): TaskType {
    if a.ManualResume? && a.coro in s.coros && s.coros[a.coro].ManualProbe? then s.coros[a.coro].taskType
    else if sid in s.schedules then s.schedules[sid].taskType
    else Backup
  }

  /** A busy flag or a conflicting type holds that manual run back. */
  predicate ManualHeld(s: State, a: Action, sid: Sid)
    requires a.RunNow? || a.ManualResume?
  {
    HeldByFlag(TypeOf(s, a, sid), s.busy, a.huntAlive) || !NoConflict(s.running.Keys, TypeOf(s, a, sid))
  }

  /** A tick finds the schedule switched on, idle and due. */
  predicate TickTakes(s: State, a: Action, sid: Sid) {
    && a.Tick? && !s.paused && IsDueList(s, a.due) && sid in s.schedules
    && s.schedules[sid].enabled && s.schedules[sid].intervalSec > 0
    && s.schedules[sid].taskType !in s.running
    && TimeHasCome(s.schedules[sid], s.now)
  }

  /** Somebody asks for the schedule: a trigger, or a manual run that is held back. */
  predicate Asked(s: State, a: Action, sid: Sid) {
    && sid in s.schedules
    && (a == Trigger(sid) || (ManualPasses(s, a, sid) && ManualHeld(s, a, sid)))
  }

  /** What takes a queued schedule off the queue: its launch, its deletion, or somebody's command. */
  predicate Parts(s: State, a: Action, sid: Sid) {
    match a
    case Drain(c) => Enabled(s, a) && s.coros[c].rest != [] && s.coros[c].rest[0] == sid && sid !in s.schedules
    case Lock(c, alive) =>
      && Enabled(s, a) && s.coros[c].sid == sid
      && s.coros[c].taskType !in s.running && !HeldByFlag(s.coros[c].taskType, s.busy, alive)
      && NoConflict(s.running.Keys, s.coros[c].taskType) && !RespectInternet(s.coros[c].taskType)
    case Probe(c, online) => Enabled(s, a) && online && s.coros[c].sid == sid
    case RunNow(_, _) => ManualPasses(s, a, sid) && !ManualHeld(s, a, sid)
    case ManualResume(_, _, alive) =>
      && ManualPasses(s, a, sid) && !HeldByFlag(TypeOf(s, a, sid), s.busy, alive)
      && (NoConflict(s.running.Keys, TypeOf(s, a, sid)) || sid !in s.schedules)
    case CancelOne(x) => x == sid && sid in s.schedules
    case Toggle(x) => x == sid && sid in s.schedules && (s.schedules[sid].enabled || s.schedules[sid].intervalSec <= 0)
    case Edit(x, _, enable) => x == sid && sid in s.schedules && enable == Some(false)
    case SetStopped => true
    case BulkBegin(_, wipeAll) => Enabled(s, a) && wipeAll
    case _ => false
  }

  /** The schedule is queued after the step if and only if it was and did not part, or joined now. */
  ghost predicate QueueAfter(s: State, s': State, a: Action, sid: Sid) {
    sid in s'.queue <==>
      if sid in s.queue then !Parts(s, a, sid) else TickTakes(s, a, sid) || Asked(s, a, sid)
  }

  lemma DueMeans(e: Entry, now: real)
    ensures IsDue(e, now) <==> TimeHasCome(e, now)
  {
  }

  lemma SpawnKeepsQueue(s: State)
    ensures SpawnDrain(s).queue == s.queue && SpawnDrain(s).schedules == s.schedules
  {
  }

  lemma TickQueues(s: State, due: seq<Sid>, sid: Sid)
    ensures QueueAfter(s, Apply(s, Tick(due)), Tick(due), sid)
  {
    if Enabled(s, Tick(due)) {
      SpawnKeepsQueue(EnqueueAll(s, due));
      if sid in s.schedules {
        DueMeans(s.schedules[sid], s.now);
        assert sid in due <==> DueNow(s, sid);
      }
    }
  }

  lemma WithoutIs(q: seq<Sid>, x: Sid, sid: Sid)
    ensures sid in Without(q, x) <==> sid in q && sid != x
  {
    SchedulerEngine.WithoutMembers(q, x);
  }

  lemma DrainQueues(s: State, c: nat, sid: Sid)
    ensures QueueAfter(s, Apply(s, Drain(c)), Drain(c), sid)
  {
    if Enabled(s, Drain(c)) && s.coros[c].rest != [] {
      var rest := s.coros[c].rest;
      WithoutIs(s.queue, rest[0], sid);
      assert Apply(s, Drain(c)).queue == if rest[0] in s.schedules then s.queue else Without(s.queue, rest[0]);
    }
  }

  lemma LockQueues(s: State, c: nat, alive: bool, sid: Sid)
    ensures QueueAfter(s, Apply(s, Lock(c, alive)), Lock(c, alive), sid)
  {
    if Enabled(s, Lock(c, alive)) {
      var x := s.coros[c];
      WithoutIs(s.queue, x.sid, sid);
      var verdict := Gate(s.running.Keys, s.busy, alive, x.taskType);
      GateQueues(s.(busy := FlagsAfter(verdict, x.taskType, s.busy, alive)), c, x.sid, x.taskType, x.rest, verdict);
    }
  }

  lemma GateQueues(s: State, c: nat, sid: Sid, t: TaskType, rest: seq<Sid>, verdict: Verdict)
    ensures AfterGate(s, c, sid, t, rest, verdict).queue ==
      if verdict.Clear? then Without(s.queue, sid) else s.queue
    ensures AfterGate(s, c, sid, t, rest, verdict).schedules == s.schedules
  {
  }

  lemma ProbeQueues(s: State, c: nat, online: bool, sid: Sid)
    ensures QueueAfter(s, Apply(s, Probe(c, online)), Probe(c, online), sid)
  {
    if Enabled(s, Probe(c, online)) {
      WithoutIs(s.queue, s.coros[c].sid, sid);
      var s' := Apply(s, Probe(c, online));
      assert s'.queue == if online then Without(s.queue, s.coros[c].sid) else s.queue;
    }
  }

  lemma ChecksQueue(s: State, x: Sid, t: TaskType, alive: bool, sid: Sid)
    ensures var held := HeldByFlag(t, s.busy, alive);
      sid in ManualChecks(s, x, t, alive).queue <==>
        if sid != x then sid in s.queue
        else if held then sid in s.queue || sid in s.schedules
        else !NoConflict(s.running.Keys, t) && sid in s.schedules
  {
    WithoutIs(s.queue, x, sid);
  }

  lemma ManualQueues(s: State, a: Action, sid: Sid)
    requires a.RunNow? || a.ManualResume?
    ensures QueueAfter(s, Apply(s, a), a, sid)
  {
    match a
    case RunNow(x, alive) =>
      if x in s.schedules {
        ChecksQueue(s, x, s.schedules[x].taskType, alive, sid);
      }
    case ManualResume(c, online, alive) =>
      if Enabled(s, a) {
        ChecksQueue(EndCoro(s, c), s.coros[c].sid, s.coros[c].taskType, alive, sid);
      }
  }

  lemma RewriteQueues(s: State, a: Action, sid: Sid)
    requires a.Toggle? || a.Edit? || a.CancelOne?
    ensures QueueAfter(s, Apply(s, a), a, sid)
  {
    WithoutIs(s.queue, a.sid, sid);
  }

  lemma BulkQueues(s: State, scope: set<TaskType>, wipeAll: bool, sid: Sid)
    ensures QueueAfter(s, Apply(s, BulkBegin(scope, wipeAll)), BulkBegin(scope, wipeAll), sid)
  {
    if Enabled(s, BulkBegin(scope, wipeAll)) {
      assert Apply(s, BulkBegin(scope, wipeAll)).queue == if wipeAll then [] else s.queue;
    }
  }

  lemma OtherQueues(s: State, a: Action, sid: Sid)
    requires a.Advance? || a.ManualRegister? || a.Start? || a.Add? || a.Delete? || a.Rehint?
      || a.SetPaused? || a.SetStopped? || a.SetBusy? || a.Abandon? || a.BulkEnd?
    ensures QueueAfter(s, Apply(s, a), a, sid)
  {
  }

  lemma SpawnersQueue(s: State, a: Action, sid: Sid)
    requires a.Trigger? || a.Finish?
    ensures QueueAfter(s, Apply(s, a), a, sid)
  {
    if a.Trigger? && a.sid in s.schedules {
      SpawnKeepsQueue(Enqueue(s, a.sid));
    }
  }

  /** Every step: a schedule is queued afterwards if and only if it was and is not launched, deleted or
      taken off by command now, or it was not and a tick finds it due now or somebody asks for it. */
  lemma QueueStepExactly(s: State, a: Action, sid: Sid)
    ensures QueueAfter(s, Apply(s, a), a, sid)
  {
    if a.Tick? { TickQueues(s, a.due, sid); }
    else if a.Drain? { DrainQueues(s, a.coro, sid); }
    else if a.Lock? { LockQueues(s, a.coro, a.huntAlive, sid); }
    else if a.Probe? { ProbeQueues(s, a.coro, a.online, sid); }
    else if a.RunNow? || a.ManualResume? { ManualQueues(s, a, sid); }
    else if a.Toggle? || a.Edit? || a.CancelOne? { RewriteQueues(s, a, sid); }
    else if a.BulkBegin? { BulkQueues(s, a.scope, a.wipeAll, sid); }
    else if a.Trigger? || a.Finish? { SpawnersQueue(s, a, sid); }
    else { OtherQueues(s, a, sid); }
  }

  // ---- Nobody is queued twice ----

  lemma AppendsDistinct(q: seq<Sid>, more: seq<Sid>)
    requires NoDuplicates(q) && NoDuplicates(more) && forall sid <- more :: sid !in q
    ensures NoDuplicates(q + more)
  {
    var all := q + more;
    forall i, j | 0 <= i < j < |all|
      ensures all[i] != all[j]
    {
      assert i < |q| ==> all[i] in q;
      assert j >= |q| ==> all[j] in more;
    }
  }

  lemma EnqueueDistinct(s: State, sid: Sid)
    requires NoDuplicates(s.queue)
    ensures NoDuplicates(Enqueue(s, sid).queue)
  {
    if sid !in s.queue {
      AppendsDistinct(s.queue, [sid]);
    }
  }

  lemma ChecksDistinct(s: State, x: Sid, t: TaskType, alive: bool)
    requires NoDuplicates(s.queue)
    ensures NoDuplicates(ManualChecks(s, x, t, alive).queue)
  {
    if HeldByFlag(t, s.busy, alive) {
      EnqueueDistinct(s, x);
    } else {
      SchedulerEngine.WithoutMembers(s.queue, x);
      var s1 := s.(busy := LowerStale(t, s.busy, alive), queue := Without(s.queue, x));
      EnqueueDistinct(s1, x);
      assert ManualUnflagged(s1, x, t).queue == s1.queue || ManualUnflagged(s1, x, t) == Enqueue(s1, x);
    }
  }

  lemma ManualDistinct(s: State, a: Action)
    requires NoDuplicates(s.queue) && (a.RunNow? || a.ManualResume?)
    ensures NoDuplicates(Apply(s, a).queue)
  {
    match a
    case RunNow(x, alive) =>
      if x in s.schedules {
        ChecksDistinct(s, x, s.schedules[x].taskType, alive);
      }
    case ManualResume(c, online, alive) =>
      if Enabled(s, a) {
        ChecksDistinct(EndCoro(s, c), s.coros[c].sid, s.coros[c].taskType, alive);
      }
  }

  lemma DrainDistinct(s: State, a: Action)
    requires NoDuplicates(s.queue) && (a.Drain? || a.Lock? || a.Probe?) && Enabled(s, a)
    ensures NoDuplicates(Apply(s, a).queue)
  {
    var x := s.coros[a.coro];
    match a
    case Drain(c) =>
      if x.rest != [] {
        SchedulerEngine.WithoutMembers(s.queue, x.rest[0]);
        assert Apply(s, a).queue == if x.rest[0] in s.schedules then s.queue else Without(s.queue, x.rest[0]);
      }
    case Lock(c, alive) =>
      var verdict := Gate(s.running.Keys, s.busy, alive, x.taskType);
      SchedulerEngine.WithoutMembers(s.queue, x.sid);
      GateQueues(s.(busy := FlagsAfter(verdict, x.taskType, s.busy, alive)), c, x.sid, x.taskType, x.rest, verdict);
    case Probe(c, online) =>
      SchedulerEngine.WithoutMembers(s.queue, x.sid);
      assert Apply(s, a).queue == if online then Without(s.queue, x.sid) else s.queue;
  }

  lemma SpawnDistinct(s: State, a: Action)
    requires NoDuplicates(s.queue) && (a.Tick? || a.Trigger? || a.Finish?) && Enabled(s, a)
    ensures NoDuplicates(Apply(s, a).queue)
  {
    match a
    case Tick(due) =>
      SpawnKeepsQueue(EnqueueAll(s, due));
      assert forall sid <- due :: DueNow(s, sid);
      AppendsDistinct(s.queue, due);
    case Trigger(sid) =>
      SpawnKeepsQueue(Enqueue(s, sid));
      EnqueueDistinct(s, sid);
    case Finish(_, _) =>
      assert Apply(s, a).queue == s.queue;
  }

  lemma RewriteDistinct(s: State, a: Action)
    requires NoDuplicates(s.queue) && (a.Toggle? || a.Edit? || a.CancelOne?)
    ensures NoDuplicates(Apply(s, a).queue)
  {
    SchedulerEngine.WithoutMembers(s.queue, a.sid);
    assert Apply(s, a).queue == s.queue || Apply(s, a).queue == Without(s.queue, a.sid);
  }

  lemma OtherShape(s: State, a: Action)
    requires a.Advance? || a.ManualRegister? || a.Start? || a.Add? || a.Delete? || a.Rehint?
      || a.SetPaused? || a.SetStopped? || a.SetBusy? || a.Abandon? || a.BulkBegin? || a.BulkEnd?
    ensures Apply(s, a).queue == s.queue || Apply(s, a).queue == []
  {
    if a.BulkBegin? {
      BulkShape(s, a.scope, a.wipeAll);
    } else if a.Start? {
      assert Enabled(s, a) ==> StartStep(s, a.exec).queue == s.queue;
    }
  }

  lemma BulkShape(s: State, scope: set<TaskType>, wipeAll: bool)
    ensures var q := Apply(s, BulkBegin(scope, wipeAll)).queue; q == s.queue || q == []
  {
  }

  /** No step queues a schedule twice. */
  lemma QueuedOnce(s: State, a: Action)
    requires NoDuplicates(s.queue)
    ensures NoDuplicates(Apply(s, a).queue)
  {
    if !Enabled(s, a) {}
    else if a.RunNow? || a.ManualResume? { ManualDistinct(s, a); }
    else if a.Drain? || a.Lock? || a.Probe? { DrainDistinct(s, a); }
    else if a.Tick? || a.Trigger? || a.Finish? { SpawnDistinct(s, a); }
    else if a.Toggle? || a.Edit? || a.CancelOne? { RewriteDistinct(s, a); }
    else { OtherShape(s, a); }
  }

  /** Steps that neither launch the schedule nor take it off the queue. */
  function NotParting(sid: Sid): (State, Action) -> bool {
    (s, a) => !Parts(s, a, sid)
  }

  ghost function Queued(sid: Sid): State -> bool {
    (s: State) => sid in s.queue
  }

  /** A queued schedule is never dropped silently: it stays queued throughout a run if and only if no
      step launches it, finds it deleted or takes it off by command. */
  lemma {:induction false} StaysQueuedExactly(s: State, actions: seq<Action>, sid: Sid)
    requires sid in s.queue
    ensures Throughout(Apply, Queued(sid), s, actions) <==> Guarded(Apply, NotParting(sid), s, actions)
    decreases |actions|
  {
    if actions != [] {
      QueueStepExactly(s, actions[0], sid);
      if !Parts(s, actions[0], sid) {
        StaysQueuedExactly(Apply(s, actions[0]), actions[1..], sid);
      }
    }
  }

  // ---- The schedules, step by step ----

  /** An execution of the schedule ends now. */
  predicate Ends(s: State, a: Action, sid: Sid) {
    a.Finish? && Enabled(s, a) && s.execs[a.exec].sid == sid
  }

  predicate Succeeds(s: State, a: Action, sid: Sid) {
    Ends(s, a, sid) && a.ok
  }

  function SwitchAfter(e: Entry, a: Action, sid: Sid): bool {
    if a == Toggle(sid) then !e.enabled
    else if a.Edit? && a.sid == sid && a.enable.Some? then a.enable.value
    else e.enabled
  }

  function IntervalAfter(e: Entry, a: Action, sid: Sid): int {
    if a.Edit? && a.sid == sid && a.interval.Some? then a.interval.value else e.intervalSec
  }

  /** A command gave the schedule another interval, or switched it, and it is on now. */
  predicate Replans(e: Entry, a: Action, sid: Sid) {
    || (a == Toggle(sid) && !e.enabled && e.intervalSec > 0)
    || (a.Edit? && a.sid == sid && (a.interval.Some? || a.enable.Some?)
        && SwitchAfter(e, a, sid) && IntervalAfter(e, a, sid) > 0)
  }

  /** A command switches the schedule off, or leaves it without an interval. */
  predicate Unplans(e: Entry, a: Action, sid: Sid) {
    (a == Toggle(sid) && !Replans(e, a, sid)) || (a.Edit? && a.sid == sid && a.enable == Some(false))
  }

  /** The schedule is put on the queue now; a manual run that meets a conflict puts it there anew. */
  predicate Enqueues(s: State, a: Action, sid: Sid) {
    || (sid !in s.queue && (TickTakes(s, a, sid) || Asked(s, a, sid)))
    || (a != Trigger(sid) && Asked(s, a, sid) && !HeldByFlag(TypeOf(s, a, sid), s.busy, a.huntAlive))
  }

  /** The expected time of the next run: counted from now when the schedule is queued or an execution
      of it ends, from the last success when it is planned again, and cleared when it is not. */
  function HintAfter(s: State, e: Entry, a: Action, sid: Sid): real {
    if Enqueues(s, a, sid) || Ends(s, a, sid) then s.now + e.intervalSec as real
    else if Replans(e, a, sid) then (if e.lastOk > 0.0 then e.lastOk else s.now) + IntervalAfter(e, a, sid) as real
    else if Unplans(e, a, sid) then 0.0
    else if a.Rehint? && a.sid == sid then a.at
    else e.nextRun
  }

  /** What a step leaves of a schedule that is there before and after. */
  ghost predicate EntryAfter(s: State, s': State, a: Action, sid: Sid) {
    sid in s.schedules && sid in s'.schedules ==>
      var e, e' := s.schedules[sid], s'.schedules[sid];
      && e'.taskType == e.taskType
      && e'.enabled == SwitchAfter(e, a, sid)
      && e'.intervalSec == IntervalAfter(e, a, sid)
      && e'.lastOk == (if Succeeds(s, a, sid) then s.now else e.lastOk)
      && e'.nextRun == HintAfter(s, e, a, sid)
  }

  lemma EditedMeans(e: Entry, interval: Option<int>, enable: Option<bool>, now: real, sid: Sid)
    ensures var e', a := Edited(e, interval, enable, now), Edit(sid, interval, enable);
      && e'.taskType == e.taskType && e'.lastOk == e.lastOk
      && e'.enabled == SwitchAfter(e, a, sid) && e'.intervalSec == IntervalAfter(e, a, sid)
      && e'.nextRun ==
         if Replans(e, a, sid) then (if e.lastOk > 0.0 then e.lastOk else now) + e'.intervalSec as real
         else if Unplans(e, a, sid) then 0.0
         else e.nextRun
  {
  }

  lemma EditEntry(s: State, x: Sid, interval: Option<int>, enable: Option<bool>, sid: Sid)
    ensures EntryAfter(s, Apply(s, Edit(x, interval, enable)), Edit(x, interval, enable), sid)
  {
    if x in s.schedules {
      EditedMeans(s.schedules[x], interval, enable, s.now, x);
      assert Apply(s, Edit(x, interval, enable)).schedules ==
        s.schedules[x := Edited(s.schedules[x], interval, enable, s.now)];
    }
  }

  lemma ToggleEntry(s: State, x: Sid, sid: Sid)
    ensures EntryAfter(s, Apply(s, Toggle(x)), Toggle(x), sid)
  {
    if x in s.schedules {
      assert Apply(s, Toggle(x)).schedules == s.schedules[x := Toggled(s.schedules[x], s.now)];
    }
  }

  lemma TickEntry(s: State, due: seq<Sid>, sid: Sid)
    ensures EntryAfter(s, Apply(s, Tick(due)), Tick(due), sid)
  {
    if Enabled(s, Tick(due)) {
      SpawnKeepsQueue(EnqueueAll(s, due));
      assert sid in due ==> DueNow(s, sid);
    }
  }

  lemma FinishEntry(s: State, e: nat, ok: bool, sid: Sid)
    ensures EntryAfter(s, Apply(s, Finish(e, ok)), Finish(e, ok), sid)
  {
    if Enabled(s, Finish(e, ok)) {
      assert Apply(s, Finish(e, ok)).queue == s.queue;
    }
  }

  lemma TriggerEntry(s: State, x: Sid, sid: Sid)
    ensures EntryAfter(s, Apply(s, Trigger(x)), Trigger(x), sid)
  {
    if x in s.schedules {
      SpawnKeepsQueue(Enqueue(s, x));
    }
  }

  lemma ChecksEntry(s: State, x: Sid, t: TaskType, alive: bool)
    ensures ManualChecks(s, x, t, alive).schedules ==
      if x in s.schedules && (if HeldByFlag(t, s.busy, alive) then x !in s.queue else !NoConflict(s.running.Keys, t))
      then s.schedules[x := s.schedules[x].(nextRun := s.now + s.schedules[x].intervalSec as real)]
      else s.schedules
  {
    SchedulerEngine.WithoutMembers(s.queue, x);
  }

  lemma RunNowSchedules(s: State, x: Sid, alive: bool)
    ensures Apply(s, RunNow(x, alive)).schedules ==
      if Enqueues(s, RunNow(x, alive), x)
      then s.schedules[x := s.schedules[x].(nextRun := s.now + s.schedules[x].intervalSec as real)]
      else s.schedules
  {
    if x in s.schedules {
      ChecksEntry(s, x, s.schedules[x].taskType, alive);
    }
  }

  lemma RunNowEntry(s: State, x: Sid, alive: bool, sid: Sid)
    ensures EntryAfter(s, Apply(s, RunNow(x, alive)), RunNow(x, alive), sid)
  {
    RunNowSchedules(s, x, alive);
    RunNowOnly(s, Apply(s, RunNow(x, alive)), x, alive, sid);
  }

  lemma RunNowOnly(s: State, s': State, x: Sid, alive: bool, sid: Sid)
    requires s'.schedules ==
      if Enqueues(s, RunNow(x, alive), x)
      then s.schedules[x := s.schedules[x].(nextRun := s.now + s.schedules[x].intervalSec as real)]
      else s.schedules
    ensures EntryAfter(s, s', RunNow(x, alive), sid)
  {
  }

  lemma ResumeEntry(s: State, c: nat, online: bool, alive: bool, sid: Sid)
    ensures EntryAfter(s, Apply(s, ManualResume(c, online, alive)), ManualResume(c, online, alive), sid)
  {
    if Enabled(s, ManualResume(c, online, alive)) {
      ChecksEntry(EndCoro(s, c), s.coros[c].sid, s.coros[c].taskType, alive);
    }
  }

  lemma LockKeys(s: State, c: nat, alive: bool)
    ensures Apply(s, Lock(c, alive)).schedules == s.schedules
  {
    if Enabled(s, Lock(c, alive)) {
      var x := s.coros[c];
      var verdict := Gate(s.running.Keys, s.busy, alive, x.taskType);
      GateQueues(s.(busy := FlagsAfter(verdict, x.taskType, s.busy, alive)), c, x.sid, x.taskType, x.rest, verdict);
    }
  }

  /** Steps that leave the schedules alone. */
  predicate Silent(a: Action) {
    || a.Advance? || a.Drain? || a.Lock? || a.Probe? || a.ManualRegister? || a.Start? || a.CancelOne? || a.Abandon?
    || a.SetPaused? || a.SetStopped? || a.SetBusy? || a.BulkBegin? || a.BulkEnd?
  }

  lemma SilentKeeps(s: State, a: Action)
    requires Silent(a)
    ensures Apply(s, a).schedules == s.schedules
  {
    if a.Lock? {
      LockKeys(s, a.coro, a.huntAlive);
    } else if a.Drain? || a.Probe? || a.ManualRegister? || a.Start? {
      MovesKeep(s, a);
    } else if a.BulkBegin? {
      assert BulkBeginStep(s, a.scope, a.wipeAll).schedules == s.schedules;
    } else {
      assert Apply(s, a).schedules == s.schedules;
    }
  }

  lemma MovesKeep(s: State, a: Action)
    requires a.Drain? || a.Probe? || a.ManualRegister? || a.Start?
    ensures Apply(s, a).schedules == s.schedules
  {
    if a.Drain? {
      assert Enabled(s, a) ==> DrainStep(s, a.coro, s.coros[a.coro].rest).schedules == s.schedules;
    } else if a.Start? {
      assert Enabled(s, a) ==> StartStep(s, a.exec).schedules == s.schedules;
    } else {
      assert Apply(s, a).schedules == s.schedules;
    }
  }

  lemma SilentEntry(s: State, s': State, a: Action, sid: Sid)
    requires Silent(a) && s'.schedules == s.schedules
    ensures EntryAfter(s, s', a, sid)
  {
  }

  lemma SetEntry(s: State, a: Action, sid: Sid)
    requires a.Add? || a.Delete? || a.Rehint?
    ensures EntryAfter(s, Apply(s, a), a, sid)
  {
  }

  /** Every step: the switch and the interval change by command only, the time of the last success by
      a success only, and the expected time is the one the program announces. */
  lemma EntryStepExactly(s: State, a: Action, sid: Sid)
    ensures EntryAfter(s, Apply(s, a), a, sid)
  {
    if a.Edit? { EditEntry(s, a.sid, a.interval, a.enable, sid); }
    else if a.Toggle? { ToggleEntry(s, a.sid, sid); }
    else if a.Tick? { TickEntry(s, a.due, sid); }
    else if a.Finish? { FinishEntry(s, a.exec, a.ok, sid); }
    else if a.Trigger? { TriggerEntry(s, a.sid, sid); }
    else if a.RunNow? { RunNowEntry(s, a.sid, a.huntAlive, sid); }
    else if a.ManualResume? { ResumeEntry(s, a.coro, a.online, a.huntAlive, sid); }
    else if Silent(a) {
      SilentKeeps(s, a);
      SilentEntry(s, Apply(s, a), a, sid);
    }
    else { SetEntry(s, a, sid); }
  }

  lemma ManualKeys(s: State, a: Action)
    requires a.RunNow? || a.ManualResume?
    ensures Apply(s, a).schedules.Keys == s.schedules.Keys
  {
    match a
    case RunNow(x, alive) =>
      if x in s.schedules {
        ChecksEntry(s, x, s.schedules[x].taskType, alive);
      }
    case ManualResume(c, online, alive) =>
      if Enabled(s, a) {
        ChecksEntry(EndCoro(s, c), s.coros[c].sid, s.coros[c].taskType, alive);
      }
  }

  lemma OtherKeys(s: State, a: Action)
    requires !a.RunNow? && !a.ManualResume? && !Silent(a) && Enabled(s, a)
    ensures Apply(s, a).schedules.Keys ==
      match a
      case Add(x, _) => s.schedules.Keys + {x}
      case Delete(x) => s.schedules.Keys - {x}
      case _ => s.schedules.Keys
  {
  }

  /** Which schedules there are: an added one is there as given, a deleted one is gone. */
  lemma SchedulesAfter(s: State, a: Action, sid: Sid)
    ensures var s' := Apply(s, a);
      && (sid in s'.schedules <==> (sid in s.schedules && a != Delete(sid)) || (a.Add? && a.sid == sid))
      && (a.Add? && a.sid == sid && sid !in s.schedules ==> s'.schedules[sid] == a.entry)
  {
    if a.RunNow? || a.ManualResume? {
      ManualKeys(s, a);
    } else if Silent(a) {
      SilentKeeps(s, a);
    } else if Enabled(s, a) {
      OtherKeys(s, a);
    }
  }

  // ---- The interval, over whole runs ----

  /** The time of the last success along a run; a new schedule brings its own. */
  function SuccessTime(s: State, actions: seq<Action>, sid: Sid, t: real): real
    decreases |actions|
  {
    if actions == [] then t
    else
      var a := actions[0];
      var t' :=
        if Succeeds(s, a, sid) then s.now
        else if a.Add? && a.sid == sid && sid !in s.schedules then a.entry.lastOk
        else t;
      SuccessTime(Apply(s, a), actions[1..], sid, t')
  }

  lemma {:induction false} LastSuccessCounts(s: State, actions: seq<Action>, sid: Sid, t: real)
    requires sid in s.schedules ==> s.schedules[sid].lastOk == t
    ensures var s' := Run(Apply, s, actions);
      sid in s'.schedules ==> s'.schedules[sid].lastOk == SuccessTime(s, actions, sid, t)
    decreases |actions|
  {
    if actions != [] {
      var a := actions[0];
      SchedulesAfter(s, a, sid);
      EntryStepExactly(s, a, sid);
      var t' :=
        if Succeeds(s, a, sid) then s.now
        else if a.Add? && a.sid == sid && sid !in s.schedules then a.entry.lastOk
        else t;
      LastSuccessCounts(Apply(s, a), actions[1..], sid, t');
    }
  }

  /** After any run: a tick queues an idle schedule that is switched on and not queued if and only if
      its interval has passed since its last success in that run, or, without any success, if its
      expected time has passed or there is none. */
  lemma TickWaitsForInterval(schedules: map<Sid, Entry>, actions: seq<Action>, due: seq<Sid>, sid: Sid)
    requires forall x <- schedules :: schedules[x].lastOk == 0.0
    requires var s := Run(Apply, Boot(schedules), actions);
      && Enabled(s, Tick(due)) && sid in s.schedules && sid !in s.queue
      && s.schedules[sid].enabled && s.schedules[sid].intervalSec > 0 && s.schedules[sid].taskType !in s.running
    ensures var s := Run(Apply, Boot(schedules), actions);
      var t, e := SuccessTime(Boot(schedules), actions, sid, 0.0), s.schedules[sid];
      sid in Apply(s, Tick(due)).queue <==>
        if t > 0.0 then s.now >= t + e.intervalSec as real else e.nextRun <= 0.0 || s.now >= e.nextRun
  {
    LastSuccessCounts(Boot(schedules), actions, sid, 0.0);
    QueueStepExactly(Run(Apply, Boot(schedules), actions), Tick(due), sid);
  }

  /** Steps that have to do with the schedule, ticks and launches apart. */
  predicate Touches(s: State, a: Action, sid: Sid) {
    || Asked(s, a, sid) || Ends(s, a, sid)
    || ((a.Add? || a.Delete? || a.Toggle? || a.Edit? || a.Rehint?) && a.sid == sid)
  }

  /** Other steps, and no tick from `until` on. */
  function Before(sid: Sid, until: real): (State, Action) -> bool {
    (s, a) => !Touches(s, a, sid) && (a.Tick? ==> s.now < until)
  }

  /** The time before which no tick queues the schedule. */
  function ReadyAt(e: Entry): real {
    if e.lastOk > 0.0 then e.lastOk + e.intervalSec as real else e.nextRun
  }

  lemma {:induction false} QuietUntilReady(s: State, actions: seq<Action>, sid: Sid)
    requires sid in s.schedules && sid !in s.queue && ReadyAt(s.schedules[sid]) > 0.0
    requires Guarded(Apply, Before(sid, ReadyAt(s.schedules[sid])), s, actions)
    ensures sid !in Run(Apply, s, actions).queue
    decreases |actions|
  {
    if actions != [] {
      var s' := Apply(s, actions[0]);
      QueueStepExactly(s, actions[0], sid);
      EntryStepExactly(s, actions[0], sid);
      SchedulesAfter(s, actions[0], sid);
      assert s'.schedules[sid] == s.schedules[sid];
      QuietUntilReady(s', actions[1..], sid);
    }
  }

  /** A schedule whose task succeeded at T is not queued by any tick before T plus its interval; one
      that has never succeeded waits its interval after a failure too. */
  lemma QuietAfterEnd(s: State, e: nat, ok: bool, actions: seq<Action>, sid: Sid)
    requires Ends(s, Finish(e, ok), sid) && sid in s.schedules && sid !in s.queue
    requires s.now > 0.0 && s.schedules[sid].intervalSec > 0
    requires ok || s.schedules[sid].lastOk <= 0.0
    requires Guarded(
      Apply, Before(sid, s.now + s.schedules[sid].intervalSec as real), Apply(s, Finish(e, ok)), actions)
    ensures sid !in Run(Apply, Apply(s, Finish(e, ok)), actions).queue
  {
    QueueStepExactly(s, Finish(e, ok), sid);
    EntryStepExactly(s, Finish(e, ok), sid);
    SchedulesAfter(s, Finish(e, ok), sid);
    QuietUntilReady(Apply(s, Finish(e, ok)), actions, sid);
  }

  /** But one that has succeeded before is due again at once when it fails late: the interval counts
      from the success. */
  lemma FailureIsRetriedAtOnce(s: State, e: nat, sid: Sid, due: seq<Sid>)
    requires Ends(s, Finish(e, false), sid) && sid in s.schedules && sid !in s.queue
    requires s.execs[e].taskType == s.schedules[sid].taskType
    requires s.schedules[sid].enabled && s.schedules[sid].intervalSec > 0
    requires 0.0 < s.schedules[sid].lastOk <= s.now - s.schedules[sid].intervalSec as real
    requires Enabled(Apply(s, Finish(e, false)), Tick(due))
    ensures sid in Apply(Apply(s, Finish(e, false)), Tick(due)).queue
  {
    var s' := Apply(s, Finish(e, false));
    QueueStepExactly(s, Finish(e, false), sid);
    EntryStepExactly(s, Finish(e, false), sid);
    SchedulesAfter(s, Finish(e, false), sid);
    QueueStepExactly(s', Tick(due), sid);
  }
}

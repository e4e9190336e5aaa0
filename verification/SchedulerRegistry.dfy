// Which step launches, ends or cancels what, for every step of the scheduler.
// Models the launches, completions and cancellations of hunt/scheduler.py and hunt/scheduler_guard.py.

module SchedulerRegistry {
  import opened Wrappers
  import opened TaskTable
  import opened Runs
  import opened SchedulerRuns

  datatype Launch = Launch(sid: Sid, taskType: TaskType)

  /** What a step launches: the checks pass and need no probe, the probe succeeds, or a manual run gets
      the launch lock while its type is free. */
  function LaunchOf(s: State, a: Action): Option<Launch> {
    match a
    case Lock(c, alive) =>
      if c in s.coros && s.coros[c].DrainLock? && s.lock.None? && MayLaunch(s, s.coros[c].taskType, alive)
      then Some(Launch(s.coros[c].sid, s.coros[c].taskType)) else None
    case Probe(c, online) =>
      if c in s.coros && s.coros[c].DrainProbe? && online
      then Some(Launch(s.coros[c].sid, s.coros[c].taskType)) else None
    case ManualRegister(c) =>
      if c in s.coros && s.coros[c].ManualLock? && s.lock.None? && s.coros[c].taskType !in s.running
      then Some(Launch(s.coros[c].sid, s.coros[c].taskType)) else None
    case _ => None
  }

  /** The type is free, held back by no flag and no conflict, and needs no internet. */
  predicate MayLaunch(s: State, t: TaskType, alive: bool) {
    t !in s.running && !HeldByFlag(t, s.busy, alive) && NoConflict(s.running.Keys, t) && !RespectInternet(t)
  }

  /** A completion unregisters its type, and the end of a bulk cancellation those it covers. */
  predicate Releases(s: State, a: Action, t: TaskType) {
    match a
    case Finish(e, _) => e in s.execs && s.execs[e].phase.Executing? && s.execs[e].taskType == t
    case BulkEnd => Enabled(s, a) && InBulk(s, t)
    case _ => false
  }

  /** An execution goes when it completes, or at its first step if it was cancelled or its schedule is
      gone. */
  predicate Departs(s: State, a: Action, e: nat) {
    && e in s.execs
    && match a
       case Finish(f, _) => f == e && s.execs[e].phase.Executing?
       case Start(f) =>
         f == e && s.execs[e].phase.Created? && (s.execs[e].cancelled || s.execs[e].sid !in s.schedules)
       case _ => false
  }

  /** A cancellation reaches the execution that is registered: of a schedule that is not queued, or of
      the types a bulk cancellation covers. */
  predicate Cancels(s: State, a: Action, e: nat) {
    match a
    case CancelOne(sid) =>
      && sid in s.schedules && sid !in s.queue
      && s.schedules[sid].taskType in s.running && s.running[s.schedules[sid].taskType] == e
    case BulkBegin(scope, wipeAll) =>
      s.bulk.None? && exists t <- s.running :: (wipeAll || t in scope) && s.running[t] == e
    case _ => false
  }

  /** The registry and the executions after a step. */
  ghost predicate RegistryAfter(s: State, s': State, a: Action) {
    forall t ::
      var launched := LaunchOf(s, a).Some? && LaunchOf(s, a).value.taskType == t;
      && (t in s'.running <==> launched || (t in s.running && !Releases(s, a, t)))
      && (t in s'.running ==> s'.running[t] == if launched then s.nextId else s.running[t])
  }

  ghost predicate ExecsAfter(s: State, s': State, a: Action) {
    && (forall e: nat :: e in s'.execs <==>
          (LaunchOf(s, a).Some? && e == s.nextId) || (e in s.execs && !Departs(s, a, e)))
    && (LaunchOf(s, a).Some? ==>
          s'.execs[s.nextId] == Exec(LaunchOf(s, a).value.sid, LaunchOf(s, a).value.taskType, Created, false))
    && (forall e <- s'.execs :: e in s.execs && (LaunchOf(s, a).Some? ==> e != s.nextId) ==>
          && s'.execs[e].sid == s.execs[e].sid
          && (s'.execs[e].cancelled <==> s.execs[e].cancelled || Cancels(s, a, e))
          && (s'.execs[e].phase.Executing? <==> s.execs[e].phase.Executing? || a == Start(e)))
  }

  ghost predicate StepDone(s: State, s': State, a: Action) {
    RegistryAfter(s, s', a) && ExecsAfter(s, s', a) && s.nextId <= s'.nextId
  }

  /** Steps that neither launch nor end nor cancel anything. */
  predicate Quiet(a: Action) {
    || a.Advance? || a.Tick? || a.Trigger? || a.Drain? || a.RunNow? || a.ManualResume? || a.Add? || a.Delete?
    || a.Toggle? || a.Edit? || a.Rehint? || a.SetPaused? || a.SetStopped? || a.SetBusy? || a.Abandon?
  }

  lemma QuietDone(s: State, s': State, a: Action)
    requires Quiet(a) && s'.running == s.running && s'.execs == s.execs && s.nextId <= s'.nextId
    ensures StepDone(s, s', a)
  {
  }

  lemma ChecksQuiet(s: State, sid: Sid, t: TaskType, alive: bool)
    ensures var s' := ManualChecks(s, sid, t, alive);
      s'.running == s.running && s'.execs == s.execs && s.nextId <= s'.nextId
  {
  }

  lemma ManualQuiet(s: State, a: Action)
    requires a.RunNow? || a.ManualResume?
    ensures Apply(s, a).running == s.running && Apply(s, a).execs == s.execs && s.nextId <= Apply(s, a).nextId
  {
    match a
    case RunNow(x, alive) =>
      if x in s.schedules {
        ChecksQuiet(s, x, s.schedules[x].taskType, alive);
      }
    case ManualResume(c, online, alive) =>
      if Enabled(s, a) {
        ChecksQuiet(EndCoro(s, c), s.coros[c].sid, s.coros[c].taskType, alive);
      }
  }

  lemma RewriteQuiet(s: State, a: Action)
    requires a.Toggle? || a.Edit? || a.Rehint? || a.Drain?
    ensures Apply(s, a).running == s.running && Apply(s, a).execs == s.execs && s.nextId <= Apply(s, a).nextId
  {
    if a.Drain? {
      assert Enabled(s, a) ==> DrainStep(s, a.coro, s.coros[a.coro].rest).nextId == s.nextId;
    }
  }

  lemma OtherQuiet(s: State, a: Action)
    requires a.Advance? || a.Tick? || a.Trigger? || a.Add? || a.Delete? || a.SetPaused? || a.SetStopped? || a.SetBusy?
      || a.Abandon?
    ensures Apply(s, a).running == s.running && Apply(s, a).execs == s.execs && s.nextId <= Apply(s, a).nextId
  {
  }

  lemma QuietSteps(s: State, a: Action)
    requires Quiet(a)
    ensures StepDone(s, Apply(s, a), a)
  {
    if a.RunNow? || a.ManualResume? {
      ManualQuiet(s, a);
    } else if a.Toggle? || a.Edit? || a.Rehint? || a.Drain? {
      RewriteQuiet(s, a);
    } else {
      OtherQuiet(s, a);
    }
    QuietDone(s, Apply(s, a), a);
  }

  lemma LaunchDone(s: State, s': State, a: Action)
    requires a.Lock? || a.Probe? || a.ManualRegister?
    requires LaunchOf(s, a).Some? ==>
      var l := LaunchOf(s, a).value;
      && s'.running == s.running[l.taskType := s.nextId]
      && s'.execs == s.execs[s.nextId := Exec(l.sid, l.taskType, Created, false)]
    requires LaunchOf(s, a).None? ==> s'.running == s.running && s'.execs == s.execs
    requires s.nextId <= s'.nextId
    ensures StepDone(s, s', a)
  {
  }

  lemma LockDone(s: State, c: nat, alive: bool)
    ensures StepDone(s, Apply(s, Lock(c, alive)), Lock(c, alive))
  {
    if Enabled(s, Lock(c, alive)) {
      var x := s.coros[c];
      var verdict := Gate(s.running.Keys, s.busy, alive, x.taskType);
      assert verdict.Clear? <==> MayLaunch(s, x.taskType, alive);
      GateLaunches(s.(busy := FlagsAfter(verdict, x.taskType, s.busy, alive)), c, x.sid, x.taskType, x.rest, verdict);
    }
    LaunchDone(s, Apply(s, Lock(c, alive)), Lock(c, alive));
  }

  lemma GateLaunches(s: State, c: nat, sid: Sid, t: TaskType, rest: seq<Sid>, verdict: Verdict)
    ensures var s' := AfterGate(s, c, sid, t, rest, verdict);
      && s'.running == (if verdict.Clear? then s.running[t := s.nextId] else s.running)
      && s'.execs == (if verdict.Clear? then s.execs[s.nextId := Exec(sid, t, Created, false)] else s.execs)
      && s.nextId <= s'.nextId
  {
  }

  lemma ProbeDone(s: State, c: nat, online: bool)
    ensures StepDone(s, Apply(s, Probe(c, online)), Probe(c, online))
  {
    LaunchDone(s, Apply(s, Probe(c, online)), Probe(c, online));
  }

  lemma ManualDone(s: State, c: nat)
    ensures StepDone(s, Apply(s, ManualRegister(c)), ManualRegister(c))
  {
    LaunchDone(s, Apply(s, ManualRegister(c)), ManualRegister(c));
  }

  lemma StartDone(s: State, e: nat)
    ensures StepDone(s, Apply(s, Start(e)), Start(e))
  {
    if Enabled(s, Start(e)) {
      var s' := StartStep(s, e);
      assert s'.running == s.running;
      assert s'.execs == if Departs(s, Start(e), e) then s.execs - {e} else
        s.execs[e := s.execs[e].(phase := Executing, taskType := s.schedules[s.execs[e].sid].taskType)];
    }
  }

  lemma FinishDone(s: State, e: nat, ok: bool)
    ensures StepDone(s, Apply(s, Finish(e, ok)), Finish(e, ok))
  {
    if Enabled(s, Finish(e, ok)) {
      var s' := FinishStep(s, e, ok);
      assert s'.running == s.running - {s.execs[e].taskType} && s'.execs == s.execs - {e};
    }
  }

  lemma CancelDone(s: State, sid: Sid)
    ensures StepDone(s, Apply(s, CancelOne(sid)), CancelOne(sid))
  {
    var s' := Apply(s, CancelOne(sid));
    assert s'.running == s.running && s'.execs == CancelledExecs(s, sid);
  }

  lemma SnapshotHits(s: State, scope: set<TaskType>, wipeAll: bool, e: nat)
    requires s.bulk.None?
    ensures Cancels(s, BulkBegin(scope, wipeAll), e) <==> e in Snapshot(s.running, scope, wipeAll).Values
  {
    var snapshot := Snapshot(s.running, scope, wipeAll);
    if Cancels(s, BulkBegin(scope, wipeAll), e) {
      var t :| t in s.running && (wipeAll || t in scope) && s.running[t] == e;
      assert t in snapshot && snapshot[t] == e;
    }
  }

  lemma BulkState(s: State, scope: set<TaskType>, wipeAll: bool)
    ensures var s' := BulkBeginStep(s, scope, wipeAll);
      && s'.running == s.running && s'.nextId == s.nextId
      && s'.execs == CancelAll(s.execs, Snapshot(s.running, scope, wipeAll).Values)
  {
    if Snapshot(s.running, scope, wipeAll) == map[] {
      assert CancelAll(s.execs, {}) == s.execs;
    }
  }

  lemma BulkBeginDone(s: State, scope: set<TaskType>, wipeAll: bool)
    ensures StepDone(s, Apply(s, BulkBegin(scope, wipeAll)), BulkBegin(scope, wipeAll))
  {
    var a := BulkBegin(scope, wipeAll);
    if s.bulk.None? {
      BulkState(s, scope, wipeAll);
      forall e: nat
        ensures Cancels(s, a, e) <==> e in Snapshot(s.running, scope, wipeAll).Values
      {
        SnapshotHits(s, scope, wipeAll, e);
      }
      CancelledDone(s, BulkBeginStep(s, scope, wipeAll), a, Snapshot(s.running, scope, wipeAll).Values);
    }
  }

  lemma CancelledDone(s: State, s': State, a: Action, ids: set<nat>)
    requires a.BulkBegin? && s'.running == s.running && s'.execs == CancelAll(s.execs, ids) && s'.nextId == s.nextId
    requires forall e: nat :: Cancels(s, a, e) <==> e in ids
    ensures StepDone(s, s', a)
  {
  }

  lemma BulkEndDone(s: State)
    ensures StepDone(s, Apply(s, BulkEnd), BulkEnd)
  {
  }

  /** Every step: what is registered and what is alive afterwards, which executions a cancellation
      reaches, and what a launch creates. */
  lemma RegistryStepExactly(s: State, a: Action)
    ensures StepDone(s, Apply(s, a), a)
  {
    match a
    case Lock(c, alive) => LockDone(s, c, alive);
    case Probe(c, online) => ProbeDone(s, c, online);
    case ManualRegister(c) => ManualDone(s, c);
    case Start(e) => StartDone(s, e);
    case Finish(e, ok) => FinishDone(s, e, ok);
    case CancelOne(sid) => CancelDone(s, sid);
    case BulkBegin(scope, wipeAll) => BulkBeginDone(s, scope, wipeAll);
    case BulkEnd => BulkEndDone(s);
    case _ => QuietSteps(s, a);
  }

  /** After a tick, a trigger or a completion the whole queue is drained, unless the scheduler is paused
      or stopped. */
  lemma DrainFollows(s: State, a: Action)
    requires (a.Tick? || a.Finish? || (a.Trigger? && a.sid in s.schedules)) && Enabled(s, a)
    ensures var s' := Apply(s, a);
      s'.coros == if s'.queue == [] || s.stopped || s.paused then s.coros
        else s.coros[s.nextId := DrainNext(s'.queue)]
  {
  }

  /** A flag is lowered when a launch of a free type with that flag checks it, and nothing is alive
      behind it. */
  predicate Lowers(s: State, a: Action, f: BusyFlag) {
    match a
    case Lock(c, alive) =>
      Enabled(s, a) && Checks(s, s.coros[c].taskType, f, alive) && s.coros[c].taskType !in s.running
    case RunNow(sid, alive) =>
      && sid in s.schedules && s.schedules[sid].taskType !in s.running
      && !RespectInternet(s.schedules[sid].taskType) && Checks(s, s.schedules[sid].taskType, f, alive)
    case ManualResume(c, online, alive) => Enabled(s, a) && online && Checks(s, s.coros[c].taskType, f, alive)
    case SetBusy(g, on) => g == f && !on
    case _ => false
  }

  predicate Checks(s: State, t: TaskType, f: BusyFlag, alive: bool) {
    BusyFlagOf(t) == Some(f) && (f == FetchingIpBlacklists || f == FetchingBlocklists || !alive)
  }

  lemma UnflaggedFlags(s: State, sid: Sid, t: TaskType)
    ensures ManualUnflagged(s, sid, t).busy == s.busy
  {
  }

  lemma ChecksFlags(s: State, sid: Sid, t: TaskType, alive: bool, f: BusyFlag)
    ensures f in ManualChecks(s, sid, t, alive).busy <==> f in s.busy && !Checks(s, t, f, alive)
  {
    if HeldByFlag(t, s.busy, alive) {
      assert !Checks(s, t, f, alive);
    } else {
      var s1 := s.(busy := LowerStale(t, s.busy, alive), queue := Without(s.queue, sid));
      UnflaggedFlags(s1, sid, t);
      assert f in s1.busy <==> f in s.busy && !Checks(s, t, f, alive);
    }
  }

  lemma LockFlags(s: State, c: nat, alive: bool, f: BusyFlag)
    ensures f in Apply(s, Lock(c, alive)).busy <==> f in s.busy && !Lowers(s, Lock(c, alive), f)
  {
    if Enabled(s, Lock(c, alive)) {
      var x := s.coros[c];
      var verdict := Gate(s.running.Keys, s.busy, alive, x.taskType);
      var s1 := s.(busy := FlagsAfter(verdict, x.taskType, s.busy, alive));
      assert f in s1.busy <==> f in s.busy && !Lowers(s, Lock(c, alive), f);
      GateFlags(s1, c, x.sid, x.taskType, x.rest, verdict);
    }
  }

  lemma GateFlags(s: State, c: nat, sid: Sid, t: TaskType, rest: seq<Sid>, verdict: Verdict)
    ensures AfterGate(s, c, sid, t, rest, verdict).busy == s.busy
  {
  }

  lemma ManualFlags(s: State, a: Action, f: BusyFlag)
    requires a.RunNow? || a.ManualResume?
    ensures f in Apply(s, a).busy <==> f in s.busy && !Lowers(s, a, f)
  {
    match a
    case RunNow(sid, alive) =>
      if sid in s.schedules {
        ChecksFlags(s, sid, s.schedules[sid].taskType, alive, f);
      }
    case ManualResume(c, online, alive) =>
      if Enabled(s, a) {
        ChecksFlags(EndCoro(s, c), s.coros[c].sid, s.coros[c].taskType, alive, f);
      }
  }

  lemma StepFlags(s: State, a: Action)
    requires (a.Drain? || a.Start? || a.Finish? || a.BulkBegin?) && Enabled(s, a)
    ensures Apply(s, a).busy == s.busy
  {
    match a
    case Drain(c) => assert DrainStep(s, c, s.coros[c].rest).busy == s.busy;
    case Start(e) => assert StartStep(s, e).busy == s.busy;
    case Finish(e, ok) => assert FinishStep(s, e, ok).busy == s.busy;
    case BulkBegin(scope, wipeAll) => assert BulkBeginStep(s, scope, wipeAll).busy == s.busy;
  }

  lemma OtherFlags(s: State, a: Action)
    requires !a.Lock? && !a.RunNow? && !a.ManualResume? && !a.SetBusy?
    ensures Apply(s, a).busy == s.busy
  {
    if (a.Drain? || a.Start? || a.Finish? || a.BulkBegin?) && Enabled(s, a) {
      StepFlags(s, a);
    }
  }

  /** Every step: a busy flag is up afterwards if and only if it was and is not lowered now, or it is
      raised now. */
  lemma FlagStepExactly(s: State, a: Action, f: BusyFlag)
    ensures f in Apply(s, a).busy <==> (f in s.busy && !Lowers(s, a, f)) || a == SetBusy(f, true)
  {
    if a.Lock? {
      LockFlags(s, a.coro, a.huntAlive, f);
    } else if a.RunNow? || a.ManualResume? {
      ManualFlags(s, a, f);
    } else if !a.SetBusy? {
      OtherFlags(s, a);
    }
  }

  // ---- Clock, pause and stop ----

  predicate SameSettings(s: State, s': State) {
    s'.now == s.now && s'.paused == s.paused && s'.stopped == s.stopped
  }

  lemma ChecksSettings(s: State, sid: Sid, t: TaskType, alive: bool)
    ensures SameSettings(s, ManualChecks(s, sid, t, alive))
  {
  }

  lemma ManualSettings(s: State, a: Action)
    requires a.RunNow? || a.ManualResume?
    ensures SameSettings(s, Apply(s, a))
  {
    match a
    case RunNow(x, alive) =>
      if x in s.schedules {
        ChecksSettings(s, x, s.schedules[x].taskType, alive);
      }
    case ManualResume(c, online, alive) =>
      if Enabled(s, a) {
        ChecksSettings(EndCoro(s, c), s.coros[c].sid, s.coros[c].taskType, alive);
      }
  }

  lemma LockSettings(s: State, c: nat, alive: bool)
    ensures SameSettings(s, Apply(s, Lock(c, alive)))
  {
    if Enabled(s, Lock(c, alive)) {
      var x := s.coros[c];
      var verdict := Gate(s.running.Keys, s.busy, alive, x.taskType);
      GateSettings(s.(busy := FlagsAfter(verdict, x.taskType, s.busy, alive)), c, x.sid, x.taskType, x.rest, verdict);
    }
  }

  lemma GateSettings(s: State, c: nat, sid: Sid, t: TaskType, rest: seq<Sid>, verdict: Verdict)
    ensures SameSettings(s, AfterGate(s, c, sid, t, rest, verdict))
  {
  }

  lemma StepSettings(s: State, a: Action)
    requires (a.Drain? || a.Start? || a.BulkBegin?) && Enabled(s, a)
    ensures SameSettings(s, Apply(s, a))
  {
    match a
    case Drain(c) => assert SameSettings(s, DrainStep(s, c, s.coros[c].rest));
    case Start(e) => assert SameSettings(s, StartStep(s, e));
    case BulkBegin(scope, wipeAll) => assert SameSettings(s, BulkBeginStep(s, scope, wipeAll));
  }

  lemma RewriteSettings(s: State, a: Action)
    requires a.Toggle? || a.Edit? || a.Rehint? || a.Drain? || a.Start? || a.BulkBegin?
    ensures SameSettings(s, Apply(s, a))
  {
    if (a.Drain? || a.Start? || a.BulkBegin?) && Enabled(s, a) {
      StepSettings(s, a);
    }
  }

  lemma OtherSettings(s: State, a: Action)
    requires a.Tick? || a.Trigger? || a.Probe? || a.ManualRegister? || a.Finish? || a.CancelOne? || a.Add? || a.Delete?
      || a.SetBusy? || a.Abandon? || a.BulkEnd?
    ensures SameSettings(s, Apply(s, a))
  {
  }

  /** Every step: only the clock moves the time, pausing and resuming is by command, and a stop is for
      good: it empties the queue and, by DrainFollows, no drain starts any more. */
  lemma SettingsStepExactly(s: State, a: Action)
    ensures var s' := Apply(s, a);
      && s'.now == (if a.Advance? then a.to else s.now)
      && (s'.paused <==> if a.SetPaused? then a.on else s.paused)
      && (s'.stopped <==> s.stopped || a.SetStopped?)
      && (a.SetStopped? ==> s'.queue == [])
  {
    if a.RunNow? || a.ManualResume? {
      ManualSettings(s, a);
    } else if a.Lock? {
      LockSettings(s, a.coro, a.huntAlive);
    } else if a.Toggle? || a.Edit? || a.Rehint? || a.Drain? || a.Start? || a.BulkBegin? {
      RewriteSettings(s, a);
    } else if !a.Advance? && !a.SetPaused? && !a.SetStopped? {
      OtherSettings(s, a);
    }
  }

  /** One pair of task types excludes each other, and the types that use the network are those with a
      busy flag. */
  lemma TaskTableFacts(t: TaskType, u: TaskType)
    ensures Exclusive(t, u) <==> (t == ProxyCheck && u == HealthCheck) || (t == HealthCheck && u == ProxyCheck)
    ensures Lists(t, u) && !Lists(u, t) <==> t == ClearDead && (u == ProxyCheck || u == HealthCheck)
    ensures RespectInternet(t) <==> BusyFlagOf(t).Some?
    ensures !RespectInternet(t) <==> t in {History, ClearDead, Backup, DbMaintenance}
    ensures BusyFlagOf(t) == Some(HuntRunning) <==> t in {ProxyCheck, SourceRefresh, HealthCheck}
    ensures BusyFlagOf(t) == Some(FetchingIpBlacklists) <==> t == TaskType.IpBlacklist
  {
  }

  // ---- Run Now ----

  /** The steps of a manual run that nobody disturbs; those that are not enabled do nothing. */
  function ManualRun(s: State, sid: Sid, online: bool, alive: bool): State
    requires sid in s.schedules
  {
    var probes := if RespectInternet(s.schedules[sid].taskType) then 1 else 0;
    var s1 := Apply(Apply(s, RunNow(sid, alive)), ManualResume(s.nextId, online, alive));
    Apply(s1, ManualRegister(s.nextId + probes))
  }

  predicate NoCoroFrom(s: State, id: nat) {
    forall c <- s.coros :: c < id
  }

  lemma ChecksWait(s: State, sid: Sid, t: TaskType, alive: bool)
    ensures var s' := ManualChecks(s, sid, t, alive);
      var waits := !HeldByFlag(t, s.busy, alive) && NoConflict(s.running.Keys, t);
      && s'.running == s.running && s'.lock == s.lock
      && s'.coros == (if waits then s.coros[s.nextId := ManualLock(sid, t)] else s.coros)
  {
  }

  predicate JustAdds(s: State, s': State, t: TaskType) {
    t in s'.running && s'.running == s.running[t := s'.running[t]]
  }

  /** The launch that ends a manual run, once its checks are made. */
  lemma ChecksLaunch(s: State, sid: Sid, t: TaskType, alive: bool)
    requires s.lock.None? && NoCoroFrom(s, s.nextId) && t !in s.running
    ensures var s' := Apply(ManualChecks(s, sid, t, alive), ManualRegister(s.nextId));
      if !HeldByFlag(t, s.busy, alive) && NoConflict(s.running.Keys, t)
      then JustAdds(s, s', t) else s'.running == s.running
  {
    ChecksWait(s, sid, t, alive);
    RegisterAfter(ManualChecks(s, sid, t, alive), s.nextId, sid, t);
  }

  lemma RegisterAfter(s: State, c: nat, sid: Sid, t: TaskType)
    requires s.lock.None? && t !in s.running
    requires c in s.coros ==> s.coros[c] == ManualLock(sid, t)
    ensures var s' := Apply(s, ManualRegister(c));
      if c in s.coros then JustAdds(s, s', t) else s'.running == s.running
  {
  }

  /** The type is free, the internet answers where it is needed, and neither a busy flag nor a
      conflicting type holds it back. */
  predicate Free(s: State, t: TaskType, online: bool, alive: bool) {
    && t !in s.running && (RespectInternet(t) ==> online)
    && !HeldByFlag(t, s.busy, alive) && NoConflict(s.running.Keys, t)
  }

  ghost predicate RunsRightly(s: State, sid: Sid, online: bool, alive: bool)
    requires sid in s.schedules
  {
    var t, s' := s.schedules[sid].taskType, ManualRun(s, sid, online, alive);
    if Free(s, t, online, alive) then JustAdds(s, s', t) else s'.running == s.running
  }

  lemma ResumesOnline(s: State, c: nat, sid: Sid, t: TaskType, online: bool, alive: bool)
    requires c !in s.coros
    ensures Apply(s.(coros := s.coros[c := ManualProbe(sid, t)]), ManualResume(c, online, alive)) ==
      if online then ManualChecks(s, sid, t, alive) else s
  {
    assert s.coros[c := ManualProbe(sid, t)] - {c} == s.coros;
  }

  lemma ProbedRun(s: State, sid: Sid, online: bool, alive: bool)
    requires sid in s.schedules && s.lock.None? && NoCoroFrom(s, s.nextId)
    requires var t := s.schedules[sid].taskType; RespectInternet(t) && t !in s.running
    ensures RunsRightly(s, sid, online, alive)
  {
    var t, s0 := s.schedules[sid].taskType, s.(nextId := s.nextId + 1);
    assert Apply(s, RunNow(sid, alive)) == s0.(coros := s0.coros[s.nextId := ManualProbe(sid, t)]);
    ResumesOnline(s0, s.nextId, sid, t, online, alive);
    if online {
      ChecksLaunch(s0, sid, t, alive);
    }
  }

  lemma UnprobedRun(s: State, sid: Sid, online: bool, alive: bool)
    requires sid in s.schedules && s.lock.None? && NoCoroFrom(s, s.nextId)
    requires var t := s.schedules[sid].taskType; !RespectInternet(t) && t !in s.running
    ensures RunsRightly(s, sid, online, alive)
  {
    var t := s.schedules[sid].taskType;
    var s1 := Apply(s, RunNow(sid, alive));
    assert s1 == ManualChecks(s, sid, t, alive);
    ChecksWait(s, sid, t, alive);
    assert Apply(s1, ManualResume(s.nextId, online, alive)) == s1;
    ChecksLaunch(s, sid, t, alive);
  }

  lemma RefusedRun(s: State, sid: Sid, online: bool, alive: bool)
    requires sid in s.schedules && NoCoroFrom(s, s.nextId) && s.schedules[sid].taskType in s.running
    ensures RunsRightly(s, sid, online, alive)
  {
    assert ManualRun(s, sid, online, alive) == s;
  }

  /** Run Now launches its schedule if and only if it may, and nothing else. */
  lemma RunNowLaunches(s: State, sid: Sid, online: bool, alive: bool)
    requires sid in s.schedules && s.lock.None? && NoCoroFrom(s, s.nextId)
    ensures RunsRightly(s, sid, online, alive)
  {
    if s.schedules[sid].taskType in s.running {
      RefusedRun(s, sid, online, alive);
    } else if RespectInternet(s.schedules[sid].taskType) {
      ProbedRun(s, sid, online, alive);
    } else {
      UnprobedRun(s, sid, online, alive);
    }
  }

  // ---- Over whole runs ----

  /** The execution is asked to stop by some step of the run, while it is there. */
  predicate CancelledIn(s: State, actions: seq<Action>, e: nat)
    decreases |actions|
  {
    && actions != []
    && ((e in s.execs && Cancels(s, actions[0], e)) || CancelledIn(Apply(s, actions[0]), actions[1..], e))
  }

  /** An execution that is still there was cancelled if and only if some step of the run reached it. */
  lemma {:induction false} CancelledExactly(kind: Sid -> TaskType, s: State, actions: seq<Action>, e: nat)
    requires Inv(kind, s) && Guarded(Apply, Admissible(kind), s, actions)
    requires e in s.execs && e in Run(Apply, s, actions).execs
    ensures Run(Apply, s, actions).execs[e].cancelled <==> s.execs[e].cancelled || CancelledIn(s, actions, e)
    decreases |actions|
  {
    if actions != [] {
      RegistryStepExactly(s, actions[0]);
      StepKeeps(kind, s, actions[0]);
      if e in Apply(s, actions[0]).execs {
        CancelledExactly(kind, Apply(s, actions[0]), actions[1..], e);
      } else {
        GoneStaysGone(kind, Apply(s, actions[0]), actions[1..], e);
      }
    }
  }

  lemma {:induction false} GoneStaysGone(kind: Sid -> TaskType, s: State, actions: seq<Action>, e: nat)
    requires Inv(kind, s) && Guarded(Apply, Admissible(kind), s, actions)
    requires e !in s.execs && e < s.nextId
    ensures e !in Run(Apply, s, actions).execs
    decreases |actions|
  {
    if actions != [] {
      RegistryStepExactly(s, actions[0]);
      StepKeeps(kind, s, actions[0]);
      GoneStaysGone(kind, Apply(s, actions[0]), actions[1..], e);
    }
  }
}

// What every run of the scheduler keeps, and the runs on which it does not.
// Models the promises of hunt/scheduler.py about launching, mutual exclusion and the registry.

module SchedulerTheorems {
  import opened Wrappers
  import opened TaskTable
  import opened Runs
  import opened SchedulerRuns

  ghost predicate Live(s: State, t: TaskType) {
    exists e <- s.execs :: s.execs[e].taskType == t
  }

  predicate Typed(kind: Sid -> TaskType, schedules: map<Sid, Entry>) {
    forall sid <- schedules :: schedules[sid].taskType == kind(sid)
  }

  lemma BootInv(kind: Sid -> TaskType, schedules: map<Sid, Entry>)
    requires Typed(kind, schedules)
    ensures Inv(kind, Boot(schedules))
  {
  }

  /** Every live execution is the one registered under its type, so no type is ever live twice. */
  lemma OneLivePerType(kind: Sid -> TaskType, schedules: map<Sid, Entry>, actions: seq<Action>)
    requires Typed(kind, schedules) && Guarded(Apply, Admissible(kind), Boot(schedules), actions)
    ensures var s := Run(Apply, Boot(schedules), actions);
            && (forall e <- s.execs :: s.execs[e].taskType in s.running && s.running[s.execs[e].taskType] == e)
            && (forall e, f :: e in s.execs && f in s.execs && s.execs[e].taskType == s.execs[f].taskType ==> e == f)
  {
    BootInv(kind, schedules);
    RunKeeps(kind, Boot(schedules), actions);
  }

  function TypeKeeping(kind: Sid -> TaskType): (State, Action) -> bool {
    (s, a) => KeepsType(kind, a)
  }

  ghost function Registered(): State -> bool {
    (s: State) => LiveAreRegistered(s)
  }

  /** The exact condition: live executions are the registered ones throughout a run if and only if no
      bulk cancellation ends while an execution of a type it erases is live. */
  lemma {:induction false} RegistryIsExact(kind: Sid -> TaskType, s: State, actions: seq<Action>)
    requires Inv(kind, s) && Guarded(Apply, TypeKeeping(kind), s, actions)
    ensures Throughout(Apply, Registered(), s, actions) <==> Guarded(Apply, Admissible(kind), s, actions)
    decreases |actions|
  {
    if actions != [] {
      var a := actions[0];
      if Erases(s, a) {
        BulkEndExactly(s);
      } else {
        StepKeeps(kind, s, a);
        RegistryIsExact(kind, Apply(s, a), actions[1..]);
      }
    }
  }

  // ---- Mutual exclusion ----

  /** Not a step of a manual run. */
  predicate FromQueue(a: Action) {
    !a.RunNow? && !a.ManualResume? && !a.ManualRegister?
  }

  /** The admissible steps of runs in which no manual run takes part. */
  function QueueDriven(kind: Sid -> TaskType): (State, Action) -> bool {
    (s, a) => KeepsType(kind, a) && !Erases(s, a) && FromQueue(a)
  }

  /** A manual run that registers its type while one that excludes it is registered. */
  predicate Clashes(s: State, a: Action) {
    && a.ManualRegister? && Enabled(s, a)
    && s.coros[a.coro].taskType !in s.running
    && exists u <- s.running :: Exclusive(u, s.coros[a.coro].taskType)
  }

  /** The admissible steps, manual runs included, without a clash. */
  function ClashFree(kind: Sid -> TaskType): (State, Action) -> bool {
    (s, a) => KeepsType(kind, a) && !Erases(s, a) && !Clashes(s, a)
  }

  ghost predicate MutexInv(s: State) {
    && Compatible(s.running.Keys)
    && (forall c <- s.coros :: s.coros[c].DrainProbe? ==> NoConflict(s.running.Keys, s.coros[c].taskType))
  }

  /** Exclusion survives any change that registers nothing and starts no probe. */
  lemma MutexFrame(s: State, s': State)
    requires MutexInv(s)
    requires s'.running.Keys <= s.running.Keys
    requires forall c <- s'.coros :: s'.coros[c].DrainProbe? ==> c in s.coros && s.coros[c] == s'.coros[c]
    ensures MutexInv(s')
  {
  }

  /** Registering a type while nobody is probing keeps exclusion if and only if no registered type
      excludes it. */
  lemma MutexRegister(s: State, s': State, t: TaskType)
    requires Compatible(s.running.Keys) && s'.running.Keys == s.running.Keys + {t}
    requires forall c <- s'.coros :: !s'.coros[c].DrainProbe?
    ensures MutexInv(s') <==> forall u <- s.running.Keys :: !Exclusive(u, t)
    ensures MutexInv(s') <==> Compatible(s'.running.Keys)
  {
    forall a, b | Exclusive(a, b) && a in s'.running.Keys && b in s'.running.Keys
      ensures exists u <- s.running.Keys :: Exclusive(u, t)
    {
      assert Exclusive(b, a);
      assert Exclusive(if a == t then b else a, t);
    }
    forall u | u in s.running.Keys && Exclusive(u, t)
      ensures !Compatible(s'.running.Keys)
    {
      assert u in s'.running.Keys && t in s'.running.Keys;
    }
  }

  lemma MutexGateKeeps(s: State, c: nat, sid: Sid, t: TaskType, rest: seq<Sid>, verdict: Verdict)
    requires MutexInv(s)
    requires forall d <- s.coros :: !s.coros[d].DrainProbe?
    requires verdict.NeedsProbe? || verdict.Clear? ==> NoConflict(s.running.Keys, t)
    ensures MutexInv(AfterGate(s, c, sid, t, rest, verdict))
  {
    match verdict
    case Clear => MutexRegister(s, DrainLaunch(s, c, sid, t, rest), t);
    case NeedsProbe =>
    case _ => MutexFrame(s, Resume(s, c, DrainNext(rest)));
  }

  lemma MutexLockKeeps(kind: Sid -> TaskType, s: State, c: nat, alive: bool)
    requires Inv(kind, s) && MutexInv(s) && Enabled(s, Lock(c, alive))
    ensures MutexInv(Apply(s, Lock(c, alive)))
  {
    var x := s.coros[c];
    var verdict := Gate(s.running.Keys, s.busy, alive, x.taskType);
    var s1 := s.(busy := FlagsAfter(verdict, x.taskType, s.busy, alive));
    MutexGateKeeps(s1, c, x.sid, x.taskType, x.rest, verdict);
  }

  lemma MutexProbeKeeps(kind: Sid -> TaskType, s: State, c: nat, online: bool)
    requires Inv(kind, s) && MutexInv(s)
    ensures MutexInv(Apply(s, Probe(c, online)))
  {
    if Enabled(s, Probe(c, online)) {
      var s' := Apply(s, Probe(c, online));
      assert forall d <- s.coros :: s.coros[d].DrainProbe? ==> d == c;
      if online {
        MutexRegister(s, s', s.coros[c].taskType);
      } else {
        MutexFrame(s, s');
      }
    }
  }

  /** Steps that only rewrite a schedule. */
  predicate Rewrites(a: Action) {
    a.Toggle? || a.Edit? || a.Rehint?
  }

  lemma RewritesFrame(s: State, a: Action)
    requires Rewrites(a)
    ensures var s' := Apply(s, a);
            s'.running == s.running && s'.execs == s.execs && s'.coros == s.coros && s'.bulk == s.bulk
  {
    match a
    case Toggle(sid) => assert Apply(s, a) == ToggleStep(s, sid);
    case Edit(sid, interval, enable) => assert Apply(s, a) == EditStep(s, sid, interval, enable);
    case Rehint(sid, at) => assert Apply(s, a) == RehintStep(s, sid, at);
  }

  lemma MutexRewriteKeeps(s: State, a: Action)
    requires MutexInv(s) && Rewrites(a)
    ensures MutexInv(Apply(s, a))
  {
    RewritesFrame(s, a);
    MutexFrame(s, Apply(s, a));
  }

  lemma MutexCancelKeeps(s: State, sid: Sid)
    requires MutexInv(s)
    ensures MutexInv(Apply(s, CancelOne(sid)))
  {
    var s' := Apply(s, CancelOne(sid));
    assert s'.running == s.running && s'.coros == s.coros;
  }

  lemma MutexDrainKeeps(s: State, c: nat, rest: seq<Sid>)
    requires MutexInv(s)
    ensures MutexInv(DrainStep(s, c, rest))
  {
    MutexFrame(s, DrainStep(s, c, rest));
  }

  lemma MutexFinishKeeps(s: State, e: nat, ok: bool)
    requires MutexInv(s)
    ensures MutexInv(Apply(s, Finish(e, ok)))
  {
    var s' := Apply(s, Finish(e, ok));
    assert s'.running.Keys <= s.running.Keys;
    MutexFrame(s, s');
  }

  /** Run Now of a type keeps exclusion if and only if the type is registered already or none that
      excludes it is. */
  lemma ManualRegisterExactly(kind: Sid -> TaskType, s: State, c: nat)
    requires Inv(kind, s) && MutexInv(s)
    ensures MutexInv(Apply(s, ManualRegister(c))) <==> !Clashes(s, ManualRegister(c))
    ensures Clashes(s, ManualRegister(c)) ==> !Compatible(Apply(s, ManualRegister(c)).running.Keys)
  {
    if Enabled(s, ManualRegister(c)) {
      MutexFrame(s, EndCoro(s, c));
      if s.coros[c].taskType !in s.running {
        MutexRegister(EndCoro(s, c), Apply(s, ManualRegister(c)), s.coros[c].taskType);
      }
    }
  }

  /** What a manual run does before it registers: wait, or queue its schedule. */
  predicate OnlyWaits(s: State, s': State) {
    && s'.running == s.running && s'.execs == s.execs && s'.bulk == s.bulk
    && forall c <- s'.coros :: s'.coros[c].DrainProbe? ==> c in s.coros && s.coros[c] == s'.coros[c]
  }

  lemma UnflaggedWaits(s: State, sid: Sid, t: TaskType)
    ensures OnlyWaits(s, ManualUnflagged(s, sid, t))
  {
  }

  lemma ChecksWait(s: State, sid: Sid, t: TaskType, alive: bool)
    ensures OnlyWaits(s, ManualChecks(s, sid, t, alive))
  {
    UnflaggedWaits(s.(busy := LowerStale(t, s.busy, alive), queue := Without(s.queue, sid)), sid, t);
  }

  lemma ManualWaits(s: State, a: Action)
    requires a.RunNow? || a.ManualResume?
    ensures OnlyWaits(s, Apply(s, a))
  {
    if Enabled(s, a) {
      match a
      case RunNow(sid, alive) =>
        if sid in s.schedules {
          ChecksWait(s, sid, s.schedules[sid].taskType, alive);
        }
      case ManualResume(c, _, alive) =>
        ChecksWait(EndCoro(s, c), s.coros[c].sid, s.coros[c].taskType, alive);
    }
  }

  /** Every step, Run Now included, keeps exclusion if and only if it does not clash. */
  lemma ExclusionStepExactly(kind: Sid -> TaskType, s: State, a: Action)
    requires Inv(kind, s) && MutexInv(s)
    ensures MutexInv(Apply(s, a)) <==> !Clashes(s, a)
    ensures Clashes(s, a) ==> !Compatible(Apply(s, a).running.Keys)
  {
    if a.ManualRegister? {
      ManualRegisterExactly(kind, s, a.coro);
    } else if a.RunNow? || a.ManualResume? {
      ManualWaits(s, a);
      MutexFrame(s, Apply(s, a));
    } else {
      MutexStepKeeps(kind, s, a);
    }
  }

  lemma MutexBulkKeeps(s: State, scope: set<TaskType>, wipeAll: bool)
    requires MutexInv(s)
    ensures MutexInv(BulkBeginStep(s, scope, wipeAll))
  {
    MutexFrame(s, BulkBeginStep(s, scope, wipeAll));
  }

  lemma MutexSpawnKeeps(s: State, a: Action)
    requires MutexInv(s) && (a.Tick? || a.Trigger?)
    ensures MutexInv(Apply(s, a))
  {
    if Enabled(s, a) {
      match a
      case Tick(due) => MutexFrame(s, SpawnDrain(EnqueueAll(s, due)));
      case Trigger(sid) => MutexFrame(s, SpawnDrain(Enqueue(s, sid)));
    }
  }

  lemma MutexStartKeeps(s: State, e: nat)
    requires MutexInv(s) && e in s.execs
    ensures MutexInv(StartStep(s, e))
  {
    MutexFrame(s, StartStep(s, e));
  }

  lemma MutexQuietKeeps(s: State, a: Action)
    requires MutexInv(s) && Enabled(s, a)
    requires a.Advance? || a.Add? || a.Delete? || a.SetPaused? || a.SetStopped? || a.SetBusy? || a.BulkEnd?
    ensures MutexInv(Apply(s, a))
  {
    MutexFrame(s, Apply(s, a));
  }

  lemma MutexStepKeeps(kind: Sid -> TaskType, s: State, a: Action)
    requires Inv(kind, s) && MutexInv(s) && FromQueue(a)
    ensures MutexInv(Apply(s, a))
  {
    if !Enabled(s, a) {}
    else if a.Lock? { MutexLockKeeps(kind, s, a.coro, a.huntAlive); }
    else if a.Probe? { MutexProbeKeeps(kind, s, a.coro, a.online); }
    else if Rewrites(a) { MutexRewriteKeeps(s, a); }
    else if a.CancelOne? { MutexCancelKeeps(s, a.sid); }
    else if a.Drain? { MutexDrainKeeps(s, a.coro, s.coros[a.coro].rest); }
    else if a.Finish? { MutexFinishKeeps(s, a.exec, a.ok); }
    else if a.Tick? || a.Trigger? { MutexSpawnKeeps(s, a); }
    else if a.Start? { MutexStartKeeps(s, a.exec); }
    else if a.Abandon? { MutexFrame(s, AbandonStep(s, a.coro)); }
    else if a.BulkBegin? { MutexBulkKeeps(s, a.scope, a.wipeAll); }
    else { MutexQuietKeeps(s, a); }
  }

  ghost function Exclusion(): State -> bool {
    (s: State) => Compatible(s.running.Keys)
  }

  /** The exact condition: in an admissible run, manual runs included, types that exclude each other
      are never both registered if and only if no manual run clashes. */
  lemma {:induction false} ExclusionIsExact(kind: Sid -> TaskType, s: State, actions: seq<Action>)
    requires Inv(kind, s) && MutexInv(s) && Guarded(Apply, Admissible(kind), s, actions)
    ensures Throughout(Apply, Exclusion(), s, actions) <==> Guarded(Apply, ClashFree(kind), s, actions)
    decreases |actions|
  {
    if actions != [] {
      var a := actions[0];
      StepKeeps(kind, s, a);
      ExclusionStepExactly(kind, s, a);
      if !Clashes(s, a) {
        ExclusionIsExact(kind, Apply(s, a), actions[1..]);
      }
    }
  }

  lemma {:induction false} MutexRunKeeps(kind: Sid -> TaskType, s: State, actions: seq<Action>)
    requires Inv(kind, s) && MutexInv(s) && Guarded(Apply, ClashFree(kind), s, actions)
    ensures MutexInv(Run(Apply, s, actions)) && Inv(kind, Run(Apply, s, actions))
    decreases |actions|
  {
    if actions != [] {
      StepKeeps(kind, s, actions[0]);
      ExclusionStepExactly(kind, s, actions[0]);
      MutexRunKeeps(kind, Apply(s, actions[0]), actions[1..]);
    }
  }

  /** Without a clash, and so on every queue-driven run, types that list each other are never live
      together. */
  lemma ExclusiveNeverTogether(
    kind: Sid -> TaskType, schedules: map<Sid, Entry>, actions: seq<Action>, t: TaskType, u: TaskType)
    requires Typed(kind, schedules) && Exclusive(t, u)
    requires Guarded(Apply, ClashFree(kind), Boot(schedules), actions)
      || Guarded(Apply, QueueDriven(kind), Boot(schedules), actions)
    ensures var s := Run(Apply, Boot(schedules), actions); !(Live(s, t) && Live(s, u))
  {
    BootInv(kind, schedules);
    if Guarded(Apply, QueueDriven(kind), Boot(schedules), actions) {
      Weaken(Apply, QueueDriven(kind), ClashFree(kind), Boot(schedules), actions);
    }
    MutexRunKeeps(kind, Boot(schedules), actions);
  }

  // ---- Runs that break what one might expect ----

  const PLAIN := Entry(Backup, true, 60, 0.0, 0.0)

  function Unguarded(): (State, Action) -> bool {
    (s, a) => true
  }

  /** Steps that neither add a schedule nor begin a bulk cancellation. */
  predicate Plain(a: Action) {
    !a.Add? && !a.BulkBegin?
  }

  lemma LockKeepsBulk(s: State, c: nat, x: Coro, alive: bool)
    requires x.DrainLock?
    ensures LockStep(s, c, x.sid, x.taskType, x.rest, alive).bulk == s.bulk
  {
    var verdict := Gate(s.running.Keys, s.busy, alive, x.taskType);
    var s1 := s.(busy := FlagsAfter(verdict, x.taskType, s.busy, alive));
    match verdict
    case NeedsProbe =>
    case Clear => assert DrainLaunch(s1, c, x.sid, x.taskType, x.rest).bulk == s.bulk;
    case _ =>
  }

  lemma BulkStaysClosed(s: State, a: Action)
    requires s.bulk.None? && !a.BulkBegin?
    ensures Apply(s, a).bulk.None?
  {
    if a.RunNow? || a.ManualResume? {
      ManualWaits(s, a);
    } else if a.Lock? {
      if Enabled(s, a) {
        LockKeepsBulk(s, a.coro, s.coros[a.coro], a.huntAlive);
      }
    } else if !a.BulkEnd? {
      OtherKeepsBulk(s, a);
    }
  }

  lemma OtherKeepsBulk(s: State, a: Action)
    requires !a.Lock? && !a.RunNow? && !a.ManualResume? && !a.BulkBegin? && !a.BulkEnd?
    ensures Apply(s, a).bulk == s.bulk
  {
    if Enabled(s, a) {
      match a
      case Drain(c) => assert DrainStep(s, c, s.coros[c].rest).bulk == s.bulk;
      case Finish(e, ok) => assert FinishStep(s, e, ok).bulk == s.bulk;
      case _ =>
        if Rewrites(a) {
          RewritesFrame(s, a);
        }
    }
  }

  /** Plain steps with no bulk cancellation open are admissible. */
  lemma {:induction false} PlainRunsAllowed(kind: Sid -> TaskType, s: State, actions: seq<Action>)
    requires s.bulk.None? && forall a <- actions :: Plain(a)
    ensures Guarded(Apply, Admissible(kind), s, actions)
    ensures (forall a <- actions :: FromQueue(a)) ==> Guarded(Apply, QueueDriven(kind), s, actions)
    decreases |actions|
  {
    if actions != [] {
      var a := actions[0];
      assert a in actions;
      assert KeepsType(kind, a) && !Erases(s, a);
      BulkStaysClosed(s, a);
      PlainRunsAllowed(kind, Apply(s, a), actions[1..]);
    }
  }

  /** Launching one idle schedule through the queue: trigger, loop head, launch lock, probe, loop end. */
  function LaunchActions(s: State, sid: Sid): seq<Action> {
    [Trigger(sid), Drain(s.nextId), Lock(s.nextId, false), Probe(s.nextId, true), Drain(s.nextId)]
  }

  predicate Idle(s: State) {
    s.queue == [] && s.coros == map[] && s.lock.None? && s.busy == {} && !s.paused && !s.stopped && s.bulk.None?
  }

  /** The state right after the queue has launched its only schedule. */
  function Launched(s: State, c: nat, sid: Sid, t: TaskType): State {
    s.(queue := [], coros := map[c := DrainNext([])], nextId := s.nextId + 1,
       running := s.running[t := s.nextId], execs := s.execs[s.nextId := Exec(sid, t, Created, false)])
  }

  /** A schedule whose type is neither running nor in conflict is launched by the queue. */
  lemma LaunchFromIdle(s: State, sid: Sid)
    returns (s': State)
    requires Idle(s) && sid in s.schedules
    requires s.schedules[sid].taskType !in s.running && NoConflict(s.running.Keys, s.schedules[sid].taskType)
    ensures s' == Run(Apply, s, LaunchActions(s, sid)) && Idle(s')
    ensures var t := s.schedules[sid].taskType;
            && s'.schedules == ExpectAll(s.schedules, [sid], s.now)
            && s'.running == s.running[t := s.nextId + 1] && s'.nextId == s.nextId + 2
            && s'.execs == s.execs[s.nextId + 1 := Exec(sid, t, Created, false)]
  {
    var c, t := s.nextId, s.schedules[sid].taskType;
    var s1 := Apply(s, Trigger(sid));
    TriggerOne(s, sid);
    var s2 := Apply(s1, Drain(c));
    DrainOne(s1, c, sid);
    var s3 := Apply(s2, Lock(c, false));
    var s4 := Apply(s3, Probe(c, true));
    LockAndProbe(s2, c, sid, t);
    assert s4.coros == map[c := DrainNext([])];
    s' := Apply(s4, Drain(c));
    EndOne(s4, c);
    Five(Apply, Unguarded(), s, s1, s2, s3, s4, s',
      Trigger(sid), Drain(c), Lock(c, false), Probe(c, true), Drain(c));
  }

  lemma LockAndProbe(s: State, c: nat, sid: Sid, t: TaskType)
    requires s.coros == map[c := DrainLock(sid, t, [])] && s.lock.None? && s.busy == {} && s.queue == [sid]
    requires t !in s.running && NoConflict(s.running.Keys, t)
    ensures Apply(Apply(s, Lock(c, false)), Probe(c, true)) == Launched(s, c, sid, t)
  {
    LockOne(s, c, sid, t);
    var s' := Apply(s, Lock(c, false));
    if RespectInternet(t) {
      assert s'.coros == map[c := DrainProbe(sid, t, [])] && s'.queue == [sid];
    } else {
      assert s'.coros == map[c := DrainNext([])];
    }
    ProbeOne(s', c, sid, t);
  }

  lemma DrainOne(s: State, c: nat, sid: Sid)
    requires s.coros == map[c := DrainNext([sid])] && sid in s.schedules && s.schedules[sid].taskType !in s.running
    ensures Apply(s, Drain(c)) == s.(coros := map[c := DrainLock(sid, s.schedules[sid].taskType, [])])
  {
    assert [sid][1..] == [];
  }

  lemma EndOne(s: State, c: nat)
    requires s.coros == map[c := DrainNext([])]
    ensures Apply(s, Drain(c)) == s.(coros := map[])
  {
  }

  lemma LockOne(s: State, c: nat, sid: Sid, t: TaskType)
    requires s.coros == map[c := DrainLock(sid, t, [])] && s.lock.None? && s.busy == {} && s.queue == [sid]
    requires t !in s.running && NoConflict(s.running.Keys, t)
    ensures Apply(s, Lock(c, false)) ==
      if RespectInternet(t)
      then s.(lock := Some(c), coros := map[c := DrainProbe(sid, t, [])])
      else Launched(s, c, sid, t)
  {
    assert Gate(s.running.Keys, s.busy, false, t) == if RespectInternet(t) then NeedsProbe else Clear;
    assert FlagsAfter(Gate(s.running.Keys, s.busy, false, t), t, s.busy, false) == s.busy;
    assert Without([sid], sid) == [];
  }

  lemma TriggerOne(s: State, sid: Sid)
    requires Idle(s) && sid in s.schedules
    ensures Apply(s, Trigger(sid)) ==
      s.(queue := [sid], schedules := ExpectAll(s.schedules, [sid], s.now),
         coros := map[s.nextId := DrainNext([sid])], nextId := s.nextId + 1)
  {
    assert [] + [sid] == [sid];
    assert s.schedules[sid := Expected(s.schedules[sid], s.now)] == ExpectAll(s.schedules, [sid], s.now);
  }

  /** The probe registers the type, unless it was registered without a probe. */
  lemma ProbeOne(s: State, c: nat, sid: Sid, t: TaskType)
    requires (s.coros == map[c := DrainProbe(sid, t, [])] && s.queue == [sid]) || s.coros == map[c := DrainNext([])]
    ensures Apply(s, Probe(c, true)) ==
      if s.coros[c].DrainNext? then s else Launched(s.(lock := None), c, sid, t)
  {
    assert Without([sid], sid) == [];
  }

  lemma LaunchIsPlain(s: State, sid: Sid)
    ensures forall a <- LaunchActions(s, sid) :: Plain(a) && FromQueue(a)
  {
  }

  lemma TwoLaunches(kind: Sid -> TaskType, schedules: map<Sid, Entry>, x: Sid, y: Sid)
    returns (actions: seq<Action>)
    requires x in schedules && y in schedules && schedules[x].taskType != schedules[y].taskType
    requires !Lists(schedules[y].taskType, schedules[x].taskType)
    ensures Guarded(Apply, QueueDriven(kind), Boot(schedules), actions)
    ensures Live(Run(Apply, Boot(schedules), actions), schedules[x].taskType)
    ensures Live(Run(Apply, Boot(schedules), actions), schedules[y].taskType)
  {
    var s0 := Boot(schedules);
    var s1 := LaunchFromIdle(s0, x);
    var s2 := LaunchFromIdle(s1, y);
    actions := LaunchActions(s0, x) + LaunchActions(s1, y);
    Concat(Apply, Unguarded(), s0, LaunchActions(s0, x), LaunchActions(s1, y));
    LaunchIsPlain(s0, x);
    LaunchIsPlain(s1, y);
    PlainRunsAllowed(kind, s0, actions);
    assert s2.execs[s0.nextId + 1].taskType == schedules[x].taskType;
    assert s2.execs[s1.nextId + 1].taskType == schedules[y].taskType;
  }

  /** Some queue-driven run has both types live at once. */
  ghost predicate CanMeet(t: TaskType, u: TaskType) {
    exists kind: Sid -> TaskType, schedules, actions ::
      && Typed(kind, schedules) && Guarded(Apply, QueueDriven(kind), Boot(schedules), actions)
      && Live(Run(Apply, Boot(schedules), actions), t) && Live(Run(Apply, Boot(schedules), actions), u)
  }

  lemma OthersMeet(t: TaskType, u: TaskType)
    requires t != u && !Lists(u, t)
    ensures CanMeet(t, u) && CanMeet(u, t)
  {
    var kind := (sid: Sid) => if sid == "x" then t else u;
    var schedules := map["x" := PLAIN.(taskType := t), "y" := PLAIN.(taskType := u)];
    assert Typed(kind, schedules);
    var actions := TwoLaunches(kind, schedules, "x", "y");
  }

  /** The exact exclusion table of the queue: two types are kept apart if and only if each lists the
      other, so clear_dead, which nobody lists, is not kept apart from the types it lists. */
  lemma QueueExclusionIsExact(t: TaskType, u: TaskType)
    requires t != u
    ensures CanMeet(t, u) <==> !Exclusive(t, u)
  {
    if Exclusive(t, u) && CanMeet(t, u) {
      var kind: Sid -> TaskType, schedules, actions :|
        && Typed(kind, schedules) && Guarded(Apply, QueueDriven(kind), Boot(schedules), actions)
        && Live(Run(Apply, Boot(schedules), actions), t) && Live(Run(Apply, Boot(schedules), actions), u);
      ExclusiveNeverTogether(kind, schedules, actions, t, u);
    }
    if !Lists(u, t) {
      OthersMeet(t, u);
    } else if !Lists(t, u) {
      OthersMeet(u, t);
    }
  }

  const CONFLICTING := map["p" := PLAIN.(taskType := ProxyCheck), "h" := PLAIN.(taskType := HealthCheck)]

  /** While a drain probes the internet for one member of an exclusive pair, Run Now of the other
      passes its mutex test and waits for the launch lock. */
  lemma RunNowWaits()
    returns (actions: seq<Action>, s: State)
    ensures s == Run(Apply, Boot(CONFLICTING), actions)
    ensures forall a <- actions :: Plain(a)
    ensures s.coros == map[0 := DrainProbe("p", ProxyCheck, []), 2 := ManualLock("h", HealthCheck)]
    ensures s.lock == Some(0) && s.running == map[] && s.execs == map[] && s.nextId == 3 && s.bulk.None?
  {
    var s0 := Boot(CONFLICTING);
    var s1 := s0.(queue := ["p"], schedules := ExpectAll(CONFLICTING, ["p"], 0.0),
                  coros := map[0 := DrainNext(["p"])], nextId := 1);
    var s2 := s1.(coros := map[0 := DrainLock("p", ProxyCheck, [])]);
    var s3 := s1.(lock := Some(0), coros := map[0 := DrainProbe("p", ProxyCheck, [])]);
    var s4 := s3.(coros := s3.coros[1 := ManualProbe("h", HealthCheck)], nextId := 2);
    s := s4.(queue := Without(s4.queue, "h"), nextId := 3,
             coros := map[0 := DrainProbe("p", ProxyCheck, []), 2 := ManualLock("h", HealthCheck)]);
    assert Apply(s0, Trigger("p")) == s1 by { TriggerOne(s0, "p"); }
    assert Apply(s1, Drain(0)) == s2 by { DrainOne(s1, 0, "p"); }
    assert Apply(s2, Lock(0, false)) == s3 by { LockOne(s2, 0, "p", ProxyCheck); }
    assert Apply(s3, RunNow("h", false)) == s4 by { ManualOne(s3); }
    assert Apply(s4, ManualResume(1, true, false)) == s by { ResumeOne(s4); }
    actions := [Trigger("p"), Drain(0), Lock(0, false), RunNow("h", false), ManualResume(1, true, false)];
    Five(Apply, Unguarded(), s0, s1, s2, s3, s4, s,
      actions[0], actions[1], actions[2], actions[3], actions[4]);
  }

  lemma ManualOne(s: State)
    requires "h" in s.schedules && s.schedules["h"].taskType == HealthCheck && s.running == map[] && s.nextId == 1
    ensures Apply(s, RunNow("h", false)) == s.(coros := s.coros[1 := ManualProbe("h", HealthCheck)], nextId := 2)
  {
  }

  lemma ResumeOne(s: State)
    requires s.coros == map[0 := DrainProbe("p", ProxyCheck, []), 1 := ManualProbe("h", HealthCheck)]
    requires s.running == map[] && s.busy == {} && s.nextId == 2
    ensures Apply(s, ManualResume(1, true, false)) ==
      s.(queue := Without(s.queue, "h"), nextId := 3,
         coros := map[0 := DrainProbe("p", ProxyCheck, []), 2 := ManualLock("h", HealthCheck)])
  {
    assert s.coros - {1} == map[0 := DrainProbe("p", ProxyCheck, [])];
    assert LowerStale(HealthCheck, s.busy, false) == s.busy;
  }

  lemma BothRegister(s: State)
    requires s.coros == map[0 := DrainProbe("p", ProxyCheck, []), 2 := ManualLock("h", HealthCheck)]
    requires s.lock == Some(0) && s.running == map[] && s.execs == map[] && s.nextId == 3
    ensures var s' := Apply(Apply(s, Probe(0, true)), ManualRegister(2)); Live(s', ProxyCheck) && Live(s', HealthCheck)
  {
    var s1 := Apply(s, Probe(0, true));
    assert s1.execs == map[3 := Exec("p", ProxyCheck, Created, false)];
    var s2 := Apply(s1, ManualRegister(2));
    assert s2.execs[4].taskType == HealthCheck && s2.execs[3].taskType == ProxyCheck;
  }

  lemma TwoMore(s: State, s1: State, head: seq<Action>, a: Action, b: Action) returns (actions: seq<Action>)
    requires s1 == Run(Apply, s, head)
    ensures actions == head + [a] + [b] && Run(Apply, s, actions) == Apply(Apply(s1, a), b)
    ensures (forall x <- head :: Plain(x)) && Plain(a) && Plain(b) ==> forall x <- actions :: Plain(x)
  {
    Snoc(Apply, Unguarded(), s, head, a);
    Snoc(Apply, Unguarded(), s, head + [a], b);
    actions := head + [a] + [b];
  }

  /** Run Now tests the mutex list before it waits for the launch lock and not again with the lock
      held, so both members of an exclusive pair can end up live. */
  lemma RunNowBreaksExclusion(kind: Sid -> TaskType)
    returns (actions: seq<Action>)
    ensures Guarded(Apply, Admissible(kind), Boot(CONFLICTING), actions) && Exclusive(ProxyCheck, HealthCheck)
    ensures Live(Run(Apply, Boot(CONFLICTING), actions), ProxyCheck)
    ensures Live(Run(Apply, Boot(CONFLICTING), actions), HealthCheck)
  {
    var head, s5 := RunNowWaits();
    BothRegister(s5);
    actions := TwoMore(Boot(CONFLICTING), s5, head, Probe(0, true), ManualRegister(2));
    PlainRunsAllowed(kind, Boot(CONFLICTING), actions);
  }

  const BACKUP_AND_HISTORY := Boot(map["x" := PLAIN, "h" := PLAIN.(taskType := History)])

  /** Types that a manual run launches without probing anything. */
  predicate Unchecked(t: TaskType) {
    t == Backup || t == History
  }

  /** Run Now of such a schedule, while its type is not registered. */
  lemma ManualLaunch(s: State, sid: Sid, t: TaskType)
    requires sid in s.schedules && s.schedules[sid].taskType == t && Unchecked(t) && t !in s.running
    requires s.queue == [] && s.coros == map[] && s.lock.None?
    ensures var s1 := Apply(s, RunNow(sid, false));
            Apply(s1, ManualRegister(s.nextId)) == s.(
              running := s.running[t := s.nextId + 1], nextId := s.nextId + 2,
              execs := s.execs[s.nextId + 1 := Exec(sid, t, Created, false)])
  {
    var s1 := Apply(s, RunNow(sid, false));
    assert NoConflict(s.running.Keys, t) && s1.coros == map[s.nextId := ManualLock(sid, t)];
    assert s1 == s.(coros := s1.coros, nextId := s.nextId + 1);
    assert s1.coros - {s.nextId} == map[];
  }

  lemma NotEnding(kind: Sid -> TaskType, s: State, a: Action)
    requires !a.Add? && !a.BulkEnd?
    ensures Admissible(kind)(s, a)
  {
    assert KeepsType(kind, a) && !Erases(s, a);
  }

  /** A history task is running and a bulk cancellation waits for it. */
  lemma BulkOpens(kind: Sid -> TaskType)
    returns (actions: seq<Action>, s: State)
    ensures s == Run(Apply, BACKUP_AND_HISTORY, actions)
    ensures Guarded(Apply, Admissible(kind), BACKUP_AND_HISTORY, actions)
    ensures s == BACKUP_AND_HISTORY.(
      running := map[History := 1], execs := map[1 := Exec("h", History, Executing, true)],
      bulk := Some(Bulk(map[History := 1], true)), nextId := 2)
  {
    var s0 := BACKUP_AND_HISTORY;
    var s1 := Apply(s0, RunNow("h", false));
    var s2 := Apply(s1, ManualRegister(0));
    ManualLaunch(s0, "h", History);
    var s3 := Apply(s2, Start(1));
    assert s3.execs == map[1 := Exec("h", History, Executing, false)] && s3.running == map[History := 1];
    Three(Apply, Admissible(kind), s0, s1, s2, s3, RunNow("h", false), ManualRegister(0), Start(1));
    NotEnding(kind, s0, RunNow("h", false));
    NotEnding(kind, s1, ManualRegister(0));
    NotEnding(kind, s2, Start(1));
    NotEnding(kind, s3, BulkBegin({}, true));
    s := BulkOpensNow(s3);
    var head := [RunNow("h", false), ManualRegister(0), Start(1)];
    Snoc(Apply, Admissible(kind), s0, head, BulkBegin({}, true));
    actions := head + [BulkBegin({}, true)];
  }

  lemma BulkOpensNow(s: State) returns (s': State)
    requires s.running == map[History := 1] && s.execs == map[1 := Exec("h", History, Executing, false)]
    requires s.queue == [] && s.bulk.None?
    ensures s' == Apply(s, BulkBegin({}, true))
    ensures s' == s.(
      execs := map[1 := Exec("h", History, Executing, true)], bulk := Some(Bulk(map[History := 1], true)))
  {
    s' := Apply(s, BulkBegin({}, true));
    assert Snapshot(s.running, {}, true) == map[History := 1] && History in map[History := 1];
    assert 1 in map[History := 1].Values;
    assert CancelAll(s.execs, map[History := 1].Values) == map[1 := Exec("h", History, Executing, true)];
  }

  /** Meanwhile Run Now launches the backup, and then the history task ends. */
  lemma LaunchMeanwhile(kind: Sid -> TaskType, s: State) returns (s': State)
    requires s == BACKUP_AND_HISTORY.(
      running := map[History := 1], execs := map[1 := Exec("h", History, Executing, true)],
      bulk := Some(Bulk(map[History := 1], true)), nextId := 2)
    ensures s' == Run(Apply, s, [RunNow("x", false), ManualRegister(2), Finish(1, false)])
    ensures Guarded(Apply, Admissible(kind), s, [RunNow("x", false), ManualRegister(2), Finish(1, false)])
    ensures HasBackup(s') && s' == BACKUP_AND_HISTORY.(
      running := map[Backup := 3], execs := map[3 := Exec("x", Backup, Created, false)],
      schedules := s'.schedules, bulk := Some(Bulk(map[History := 1], true)), nextId := 4)
  {
    ManualLaunch(s, "x", Backup);
    var s1 := Apply(s, RunNow("x", false));
    var s2 := Apply(s1, ManualRegister(2));
    s' := HistoryEnds(s2);
    NotEnding(kind, s, RunNow("x", false));
    NotEnding(kind, s1, ManualRegister(2));
    NotEnding(kind, s2, Finish(1, false));
    Three(Apply, Admissible(kind), s, s1, s2, s', RunNow("x", false), ManualRegister(2), Finish(1, false));
  }

  predicate HasBackup(s: State) {
    "x" in s.schedules && s.schedules["x"].taskType == Backup
  }

  lemma HistoryEnds(s: State) returns (s': State)
    requires s.running == map[History := 1][Backup := 3] && s.queue == [] && "h" in s.schedules
    requires s.execs == map[1 := Exec("h", History, Executing, true)][3 := Exec("x", Backup, Created, false)]
    ensures s' == Apply(s, Finish(1, false))
    ensures s' == s.(running := map[Backup := 3], execs := map[3 := Exec("x", Backup, Created, false)],
                     schedules := s.schedules["h" := Completed(s.schedules["h"], s.now, false)])
  {
    s' := Apply(s, Finish(1, false));
    assert s.running - {History} == map[Backup := 3];
    assert s.execs - {1} == map[3 := Exec("x", Backup, Created, false)];
  }

  /** The cancellation then ends, and erases the backup from the registry while it is live. */
  lemma BulkErases(kind: Sid -> TaskType)
    returns (actions: seq<Action>, s: State)
    ensures s == Run(Apply, BACKUP_AND_HISTORY, actions)
    ensures !Guarded(Apply, Admissible(kind), BACKUP_AND_HISTORY, actions)
    ensures HasBackup(s) && s == BACKUP_AND_HISTORY.(
      schedules := s.schedules, execs := map[3 := Exec("x", Backup, Created, false)], nextId := 4)
  {
    var s0 := BACKUP_AND_HISTORY;
    var head, s4 := BulkOpens(kind);
    var window := [RunNow("x", false), ManualRegister(2), Finish(1, false)];
    var s7 := LaunchMeanwhile(kind, s4);
    Concat(Apply, Admissible(kind), s0, head, window);
    s := BulkEndsNow(s7);
    Snoc(Apply, Admissible(kind), s0, head + window, BulkEnd);
    actions := head + window + [BulkEnd];
  }

  lemma BulkEndsNow(s: State) returns (s': State)
    requires s.bulk == Some(Bulk(map[History := 1], true))
    requires s.execs == map[3 := Exec("x", Backup, Created, false)]
    ensures s' == Apply(s, BulkEnd) && Erases(s, BulkEnd)
    ensures s' == s.(running := map[], bulk := None)
  {
    assert Enabled(s, BulkEnd) && 3 in s.execs && InBulk(s, s.execs[3].taskType);
    s' := Apply(s, BulkEnd);
  }

  /** So outside the admissible runs two executions of one type can be live. */
  lemma BulkRaceDuplicates(kind: Sid -> TaskType)
    returns (actions: seq<Action>)
    ensures !Guarded(Apply, Admissible(kind), BACKUP_AND_HISTORY, actions)
    ensures var s := Run(Apply, BACKUP_AND_HISTORY, actions);
            exists e, f :: e in s.execs && f in s.execs && e != f && s.execs[e].taskType == s.execs[f].taskType
  {
    var head, s8 := BulkErases(kind);
    ManualLaunch(s8, "x", Backup);
    var s9 := Apply(s8, RunNow("x", false));
    var s10 := Apply(s9, ManualRegister(4));
    assert s10.execs[5].taskType == Backup && s10.execs[3].taskType == Backup;
    Two(Apply, Admissible(kind), s8, s9, s10, RunNow("x", false), ManualRegister(4));
    Concat(Apply, Admissible(kind), BACKUP_AND_HISTORY, head, [RunNow("x", false), ManualRegister(4)]);
    actions := head + [RunNow("x", false), ManualRegister(4)];
  }

  // ---- Orphaned registrations ----

  /** `t` is registered and no execution of it is live. */
  ghost predicate Orphaned(s: State, t: TaskType) {
    t in s.running && !Live(s, t)
  }

  /** A created execution ends at its first step: it was cancelled before, or its schedule is gone. */
  predicate Aborts(s: State, a: Action) {
    && a.Start? && Enabled(s, a)
    && (s.execs[a.exec].cancelled || s.execs[a.exec].sid !in s.schedules)
  }

  predicate AbortsType(s: State, a: Action, t: TaskType) {
    Aborts(s, a) && s.execs[a.exec].taskType == t
  }

  /** The end of a bulk cancellation that takes `t` out of the registry. */
  predicate Clears(s: State, a: Action, t: TaskType) {
    a.BulkEnd? && Enabled(s, a) && InBulk(s, t)
  }

  /** Changes that keep the registry and the types of the executions orphan nobody. */
  lemma OrphanFrame(s: State, s': State, t: TaskType)
    requires s'.running == s.running && s'.execs.Keys == s.execs.Keys
    requires forall e <- s.execs :: s'.execs[e].taskType == s.execs[e].taskType
    ensures Orphaned(s', t) <==> Orphaned(s, t)
  {
    assert forall e :: e in s'.execs <==> e in s'.execs.Keys;
    assert forall e :: e in s.execs <==> e in s.execs.Keys;
  }

  /** A launch registers a live type and so orphans nobody. */
  lemma OrphanRegister(s: State, s': State, sid: Sid, u: TaskType, t: TaskType)
    requires u !in s.running && s.nextId !in s.execs
    requires s'.running == s.running[u := s.nextId]
    requires s'.execs == s.execs[s.nextId := Exec(sid, u, Created, false)]
    ensures Orphaned(s', t) <==> Orphaned(s, t)
  {
    assert s'.execs[s.nextId].taskType == u;
    assert forall e <- s.execs :: e in s'.execs && s'.execs[e] == s.execs[e];
  }

  lemma OrphanGate(
    s: State, c: nat, sid: Sid, u: TaskType, rest: seq<Sid>, verdict: Verdict, t: TaskType)
    requires s.nextId !in s.execs && (verdict.Clear? ==> u !in s.running)
    ensures Orphaned(AfterGate(s, c, sid, u, rest, verdict), t) <==> Orphaned(s, t)
  {
    match verdict
    case Clear => OrphanRegister(s, DrainLaunch(s, c, sid, u, rest), sid, u, t);
    case _ => OrphanFrame(s, AfterGate(s, c, sid, u, rest, verdict), t);
  }

  lemma OrphanLock(kind: Sid -> TaskType, s: State, c: nat, alive: bool, t: TaskType)
    requires Inv(kind, s)
    ensures Orphaned(Apply(s, Lock(c, alive)), t) <==> Orphaned(s, t)
  {
    if Enabled(s, Lock(c, alive)) {
      var x := s.coros[c];
      var verdict := Gate(s.running.Keys, s.busy, alive, x.taskType);
      var s1 := s.(busy := FlagsAfter(verdict, x.taskType, s.busy, alive));
      OrphanFrame(s, s1, t);
      OrphanGate(s1, c, x.sid, x.taskType, x.rest, verdict, t);
    }
  }

  lemma OrphanProbe(kind: Sid -> TaskType, s: State, c: nat, online: bool, t: TaskType)
    requires Inv(kind, s)
    ensures Orphaned(Apply(s, Probe(c, online)), t) <==> Orphaned(s, t)
  {
    if Enabled(s, Probe(c, online)) && online {
      OrphanRegister(s, Apply(s, Probe(c, online)), s.coros[c].sid, s.coros[c].taskType, t);
    }
  }

  lemma OrphanManual(kind: Sid -> TaskType, s: State, c: nat, t: TaskType)
    requires Inv(kind, s)
    ensures Orphaned(Apply(s, ManualRegister(c)), t) <==> Orphaned(s, t)
  {
    if Enabled(s, ManualRegister(c)) && s.coros[c].taskType !in s.running {
      OrphanRegister(s, Apply(s, ManualRegister(c)), s.coros[c].sid, s.coros[c].taskType, t);
    }
  }

  /** When an execution goes, its type alone is no longer live. */
  lemma OrphanRemove(s: State, s': State, e: nat, t: TaskType)
    requires LiveAreRegistered(s) && e in s.execs && s'.execs == s.execs - {e}
    ensures Live(s', t) <==> Live(s, t) && t != s.execs[e].taskType
  {
    assert forall f <- s.execs :: f != e ==> f in s'.execs && s'.execs[f] == s.execs[f];
  }

  lemma OrphanStart(kind: Sid -> TaskType, s: State, e: nat, t: TaskType)
    requires Inv(kind, s)
    ensures Orphaned(Apply(s, Start(e)), t) <==> Orphaned(s, t) || AbortsType(s, Start(e), t)
  {
    if Enabled(s, Start(e)) {
      if Aborts(s, Start(e)) {
        OrphanRemove(s, StartStep(s, e), e, t);
      } else {
        OrphanBegin(kind, s, e, t);
      }
    }
  }

  lemma OrphanBegin(kind: Sid -> TaskType, s: State, e: nat, t: TaskType)
    requires Inv(kind, s) && Enabled(s, Start(e)) && !Aborts(s, Start(e))
    ensures Orphaned(StartStep(s, e), t) <==> Orphaned(s, t)
  {
    var s' := StartStep(s, e);
    assert s'.execs.Keys == s.execs.Keys && s'.execs[e].taskType == s.execs[e].taskType;
    OrphanFrame(s, s', t);
  }

  lemma OrphanFinish(s: State, e: nat, ok: bool, t: TaskType)
    requires LiveAreRegistered(s)
    ensures Orphaned(Apply(s, Finish(e, ok)), t) <==> Orphaned(s, t)
  {
    if Enabled(s, Finish(e, ok)) {
      var s' := FinishStep(s, e, ok);
      OrphanRemove(s, s', e, t);
      assert s'.running == s.running - {s.execs[e].taskType};
    }
  }

  lemma OrphanBulkEnd(s: State, t: TaskType)
    requires LiveAreRegistered(s) && !Erases(s, BulkEnd)
    ensures Orphaned(Apply(s, BulkEnd), t) <==> Orphaned(s, t) && !Clears(s, BulkEnd, t)
  {
    if Enabled(s, BulkEnd) {
      var s' := Apply(s, BulkEnd);
      assert s'.execs == s.execs && (t in s'.running <==> t in s.running && !InBulk(s, t));
    }
  }

  lemma OrphanCancel(s: State, a: Action, t: TaskType)
    requires a.CancelOne? || a.BulkBegin?
    ensures Orphaned(Apply(s, a), t) <==> Orphaned(s, t)
  {
    if a.CancelOne? {
      OrphanFrame(s, CancelStep(s, a.sid), t);
    } else if Enabled(s, a) {
      OrphanBulkBegin(s, a.scope, a.wipeAll, t);
    }
  }

  lemma OrphanBulkBegin(s: State, scope: set<TaskType>, wipeAll: bool, t: TaskType)
    ensures Orphaned(BulkBeginStep(s, scope, wipeAll), t) <==> Orphaned(s, t)
  {
    var s1 := s.(queue := if wipeAll then [] else s.queue);
    OrphanFrame(s, s1, t);
    OrphanFrame(s1, OpenBulk(s1, Snapshot(s.running, scope, wipeAll), wipeAll), t);
  }

  lemma DrainFrame(s: State, c: nat, rest: seq<Sid>, t: TaskType)
    ensures Orphaned(DrainStep(s, c, rest), t) <==> Orphaned(s, t)
  {
    OrphanFrame(s, DrainStep(s, c, rest), t);
  }

  lemma OrphanDrain(s: State, c: nat, t: TaskType)
    ensures Orphaned(Apply(s, Drain(c)), t) <==> Orphaned(s, t)
  {
    if Enabled(s, Drain(c)) {
      DrainFrame(s, c, s.coros[c].rest, t);
    }
  }

  lemma OrphanRewrite(s: State, a: Action, t: TaskType)
    requires Rewrites(a)
    ensures Orphaned(Apply(s, a), t) <==> Orphaned(s, t)
  {
    RewritesFrame(s, a);
    OrphanFrame(s, Apply(s, a), t);
  }

  lemma OrphanQuiet(s: State, a: Action, t: TaskType)
    requires a.Advance? || a.Tick? || a.Trigger? || a.Add? || a.Delete? || a.SetPaused? || a.SetStopped? || a.SetBusy?
      || a.Abandon?
    ensures Orphaned(Apply(s, a), t) <==> Orphaned(s, t)
  {
    assert Apply(s, a).running == s.running && Apply(s, a).execs == s.execs;
  }

  lemma OrphanEnd(kind: Sid -> TaskType, s: State, a: Action, t: TaskType)
    requires Inv(kind, s) && !Erases(s, a) && (a.Start? || a.Finish? || a.BulkEnd?)
    ensures Orphaned(Apply(s, a), t) <==> (Orphaned(s, t) && !Clears(s, a, t)) || AbortsType(s, a, t)
  {
    match a
    case Start(e) => OrphanStart(kind, s, e, t);
    case Finish(e, ok) => OrphanFinish(s, e, ok, t);
    case BulkEnd => OrphanBulkEnd(s, t);
  }

  lemma OrphanNobody(s: State, a: Action, t: TaskType)
    requires !a.Lock? && !a.Probe? && !a.ManualRegister? && !a.RunNow? && !a.ManualResume?
    requires !a.Start? && !a.Finish? && !a.BulkEnd?
    ensures Orphaned(Apply(s, a), t) <==> Orphaned(s, t)
  {
    if a.CancelOne? || a.BulkBegin? {
      OrphanCancel(s, a, t);
    } else if a.Drain? {
      OrphanDrain(s, a.coro, t);
    } else if Rewrites(a) {
      OrphanRewrite(s, a, t);
    } else {
      OrphanQuiet(s, a, t);
    }
  }

  lemma OrphanLaunch(kind: Sid -> TaskType, s: State, a: Action, t: TaskType)
    requires Inv(kind, s) && (a.Lock? || a.Probe? || a.ManualRegister? || a.RunNow? || a.ManualResume?)
    ensures Orphaned(Apply(s, a), t) <==> Orphaned(s, t)
  {
    if a.Lock? {
      OrphanLock(kind, s, a.coro, a.huntAlive, t);
    } else if a.Probe? {
      OrphanProbe(kind, s, a.coro, a.online, t);
    } else if a.ManualRegister? {
      OrphanManual(kind, s, a.coro, t);
    } else {
      ManualWaits(s, a);
    }
  }

  /** The exact condition, for every step: a type is orphaned afterwards if and only if it was before
      and is not cleared now, or its execution aborts now. */
  lemma OrphanStepExactly(kind: Sid -> TaskType, s: State, a: Action, t: TaskType)
    requires Inv(kind, s) && !Erases(s, a)
    ensures Orphaned(Apply(s, a), t) <==> (Orphaned(s, t) && !Clears(s, a, t)) || AbortsType(s, a, t)
  {
    if a.Lock? || a.Probe? || a.ManualRegister? || a.RunNow? || a.ManualResume? {
      OrphanLaunch(kind, s, a, t);
    } else if a.Start? || a.Finish? || a.BulkEnd? {
      OrphanEnd(kind, s, a, t);
    } else {
      OrphanNobody(s, a, t);
    }
  }

  /** The state in which step `i` of the run is taken. */
  function Before(s: State, actions: seq<Action>, i: nat): State
    requires i <= |actions|
  {
    Run(Apply, s, actions[..i])
  }

  /** Step `i` aborts an execution of `t`, and no later step clears `t`. */
  ghost predicate LostAt(s: State, actions: seq<Action>, t: TaskType, i: nat) {
    && i < |actions|
    && AbortsType(Before(s, actions, i), actions[i], t)
    && forall j: nat :: i < j < |actions| ==> !Clears(Before(s, actions, j), actions[j], t)
  }

  lemma LostAtSnoc(s: State, actions: seq<Action>, a: Action, t: TaskType, i: nat)
    requires i <= |actions|
    ensures LostAt(s, actions + [a], t, i) <==>
      if i == |actions| then AbortsType(Run(Apply, s, actions), a, t)
      else LostAt(s, actions, t, i) && !Clears(Run(Apply, s, actions), a, t)
  {
    forall j: nat | j <= |actions|
      ensures Before(s, actions + [a], j) == Before(s, actions, j)
    {
      assert (actions + [a])[..j] == actions[..j];
    }
    assert actions[..|actions|] == actions && (actions + [a])[|actions|] == a;
    assert forall j: nat :: j < |actions| ==> (actions + [a])[j] == actions[j];
  }

  /** Over whole runs: a type is left registered with nothing alive behind it if and only if some
      execution of it aborted and no bulk cancellation cleared the type since. */
  lemma {:induction false} OrphanedExactly(kind: Sid -> TaskType, s: State, actions: seq<Action>, t: TaskType)
    requires Inv(kind, s) && Guarded(Apply, Admissible(kind), s, actions) && !Orphaned(s, t)
    ensures Orphaned(Run(Apply, s, actions), t) <==> exists i: nat :: LostAt(s, actions, t, i)
    decreases |actions|
  {
    if actions != [] {
      var init, a := actions[..|actions| - 1], actions[|actions| - 1];
      assert actions == init + [a];
      Snoc(Apply, Admissible(kind), s, init, a);
      RunKeeps(kind, s, init);
      OrphanedExactly(kind, s, init, t);
      OrphanStepExactly(kind, Run(Apply, s, init), a, t);
      forall i: nat | i <= |init|
        ensures LostAt(s, actions, t, i) <==>
          if i == |init| then AbortsType(Run(Apply, s, init), a, t)
          else LostAt(s, init, t, i) && !Clears(Run(Apply, s, init), a, t)
      {
        LostAtSnoc(s, init, a, t, i);
      }
      assert AbortsType(Run(Apply, s, init), a, t) ==> LostAt(s, actions, t, |init|);
    }
  }

  ghost function AllLive(): State -> bool {
    (s: State) => forall t <- s.running :: Live(s, t)
  }

  function NeverAborts(kind: Sid -> TaskType): (State, Action) -> bool {
    (s, a) => KeepsType(kind, a) && !Erases(s, a) && !Aborts(s, a)
  }

  /** Every registered type has a live execution throughout an admissible run if and only if no
      execution aborts at its first step. */
  lemma {:induction false} AllLiveExactly(kind: Sid -> TaskType, s: State, actions: seq<Action>)
    requires Inv(kind, s) && AllLive()(s) && Guarded(Apply, Admissible(kind), s, actions)
    ensures Throughout(Apply, AllLive(), s, actions) <==> Guarded(Apply, NeverAborts(kind), s, actions)
    decreases |actions|
  {
    if actions != [] {
      var a := actions[0];
      var s' := Apply(s, a);
      forall t
        ensures Orphaned(s', t) <==> AbortsType(s, a, t)
      {
        OrphanStepExactly(kind, s, a, t);
      }
      StepKeeps(kind, s, a);
      if Aborts(s, a) {
        assert Orphaned(s', s.execs[a.exec].taskType);
      } else {
        assert forall t <- s'.running :: !Orphaned(s', t);
        AllLiveExactly(kind, s', actions[1..]);
      }
    }
  }

  lemma AbortAfter(s: State, t: TaskType, hit: Action)
    requires hit == Delete("x") || hit == CancelOne("x")
    requires "x" in s.schedules && s.schedules["x"].taskType == t && s.queue == []
    requires s.running == map[t := 1] && s.execs == map[1 := Exec("x", t, Created, false)]
    ensures Orphaned(Apply(Apply(s, hit), Start(1)), t)
  {
    var s' := Apply(s, hit);
    assert s'.running == s.running && s'.execs.Keys == {1} && Aborts(s', Start(1));
  }

  /** A launched execution whose schedule is deleted, or that is cancelled, before its first step. */
  lemma AbortsWhenHit(kind: Sid -> TaskType, s0: State, t: TaskType, hit: Action)
    returns (actions: seq<Action>)
    requires hit == Delete("x") || hit == CancelOne("x")
    requires Idle(s0) && "x" in s0.schedules && s0.schedules["x"].taskType == t
    requires s0.running == map[] && s0.execs == map[] && s0.nextId == 0
    ensures actions == LaunchActions(s0, "x") + [hit] + [Start(1)]
    ensures Guarded(Apply, QueueDriven(kind), s0, actions)
    ensures Orphaned(Run(Apply, s0, actions), t)
  {
    var s1 := LaunchFromIdle(s0, "x");
    AbortAfter(s1, t, hit);
    var head := LaunchActions(s0, "x");
    actions := TwoMore(s0, s1, head, hit, Start(1));
    LaunchIsPlain(s0, "x");
    assert forall a <- actions :: Plain(a) && FromQueue(a);
    PlainRunsAllowed(kind, s0, actions);
  }

  lemma AbortOrphans(kind: Sid -> TaskType, t: TaskType, hit: Action)
    returns (actions: seq<Action>)
    requires hit == Delete("x") || hit == CancelOne("x")
    ensures var s0 := Boot(map["x" := PLAIN.(taskType := t)]);
            && actions == LaunchActions(s0, "x") + [hit] + [Start(1)]
            && Guarded(Apply, QueueDriven(kind), s0, actions)
            && Orphaned(Run(Apply, s0, actions), t)
  {
    actions := AbortsWhenHit(kind, Boot(map["x" := PLAIN.(taskType := t)]), t, hit);
  }

  /** Deleting the schedule before the first step of its task orphans any type. */
  lemma DeleteOrphans(kind: Sid -> TaskType, t: TaskType)
    returns (schedules: map<Sid, Entry>, actions: seq<Action>)
    ensures Guarded(Apply, QueueDriven(kind), Boot(schedules), actions)
    ensures forall a <- actions :: !a.CancelOne?
    ensures Orphaned(Run(Apply, Boot(schedules), actions), t)
  {
    schedules := map["x" := PLAIN.(taskType := t)];
    actions := AbortOrphans(kind, t, Delete("x"));
  }

  /** So does cancelling it there, with no schedule deleted. */
  lemma CancelOrphans(kind: Sid -> TaskType, t: TaskType)
    returns (schedules: map<Sid, Entry>, actions: seq<Action>)
    ensures Guarded(Apply, QueueDriven(kind), Boot(schedules), actions)
    ensures forall a <- actions :: !a.Delete?
    ensures Orphaned(Run(Apply, Boot(schedules), actions), t)
  {
    schedules := map["x" := PLAIN.(taskType := t)];
    actions := AbortOrphans(kind, t, CancelOne("x"));
  }

  /** An orphaned type stays orphaned, and so is never live again, until a bulk cancellation clears
      the registry. */
  lemma {:induction false} OrphanBlocksType(kind: Sid -> TaskType, s: State, t: TaskType, actions: seq<Action>)
    requires Inv(kind, s) && Orphaned(s, t) && s.bulk.None?
    requires Guarded(Apply, Admissible(kind), s, actions) && forall a <- actions :: !a.BulkBegin?
    ensures Orphaned(Run(Apply, s, actions), t) && !Live(Run(Apply, s, actions), t)
    decreases |actions|
  {
    if actions != [] {
      var a := actions[0];
      assert a in actions;
      BulkStaysClosed(s, a);
      OrphanStepExactly(kind, s, a, t);
      StepKeeps(kind, s, a);
      OrphanBlocksType(kind, Apply(s, a), t, actions[1..]);
    }
  }
}

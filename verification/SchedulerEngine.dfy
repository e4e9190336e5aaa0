// The scheduler's queue operations as they run between two suspensions of anybody else.
// Models _enqueue, the enqueueing half of _run_loop, _try_launch and _drain_queue of
// hunt/scheduler.py. The probe result and the liveness of the hunt task are parameters.

module SchedulerEngine {
  import opened Wrappers
  import opened TaskTable
  import opened Runs
  import opened SchedulerRuns

  /** The launch checks say no, in this environment. */
  predicate Blocked(running: set<TaskType>, busy: set<BusyFlag>, online: bool, huntAlive: bool, t: TaskType) {
    match Gate(running, busy, huntAlive, t)
    case Clear => false
    case NeedsProbe => !online
    case _ => true
  }

  /** A launch is refused exactly for one of the four documented reasons. */
  lemma BlockedBecause(running: set<TaskType>, busy: set<BusyFlag>, online: bool, huntAlive: bool, t: TaskType)
    ensures Blocked(running, busy, online, huntAlive, t) <==>
      || t in running
      || (exists f <- busy :: BusyFlagOf(t) == Some(f) && (f == HuntRunning && huntAlive))
      || (exists u <- running :: Lists(t, u))
      || (RespectInternet(t) && !online)
  {
  }

  /** A drain only adds running types and only lowers stale flags; neither unblocks anybody. */
  lemma BlockedStays(
    running: set<TaskType>, running': set<TaskType>, busy: set<BusyFlag>, busy': set<BusyFlag>,
    online: bool, huntAlive: bool, t: TaskType)
    requires running <= running' && busy' <= busy
    requires forall f <- busy :: !Stale(f, huntAlive) ==> f in busy'
    requires Blocked(running, busy, online, huntAlive, t)
    ensures Blocked(running', busy', online, huntAlive, t)
  {
  }

  lemma WithoutMembers(q: seq<Sid>, sid: Sid)
    ensures forall x :: x in Without(q, sid) <==> x in q && x != sid
    ensures NoDuplicates(q) ==> NoDuplicates(Without(q, sid))
  {
    if q != [] {
      WithoutMembers(q[1..], sid);
      var rest := Without(q[1..], sid);
      if NoDuplicates(q) && q[0] != sid {
        assert q[0] !in q[1..];
        assert Without(q, sid) == [q[0]] + rest;
      }
    }
  }

  // ---- What a drain does, schedule by schedule ----

  /** The scheduler's own book-keeping; a running type maps to the schedule it was launched for. */
  datatype Book = Book(queue: seq<Sid>, running: map<TaskType, Sid>, busy: set<BusyFlag>)

  function Tried(b: Book, sid: Sid, t: TaskType, online: bool, huntAlive: bool): Book {
    var busy' := FlagsAfter(Gate(b.running.Keys, b.busy, huntAlive, t), t, b.busy, huntAlive);
    if Blocked(b.running.Keys, b.busy, online, huntAlive, t) then b.(busy := busy')
    else Book(Without(b.queue, sid), b.running[t := sid], busy')
  }

  function DrainHead(schedules: map<Sid, Entry>, b: Book, sid: Sid, online: bool, huntAlive: bool): Book {
    if sid !in schedules then b.(queue := Without(b.queue, sid))
    else if schedules[sid].taskType in b.running then b
    else Tried(b, sid, schedules[sid].taskType, online, huntAlive)
  }

  function Drained(schedules: map<Sid, Entry>, b: Book, rest: seq<Sid>, online: bool, huntAlive: bool): Book
    decreases |rest|
  {
    if rest == [] then b
    else Drained(schedules, DrainHead(schedules, b, rest[0], online, huntAlive), rest[1..], online, huntAlive)
  }

  /** A drain registers types and lowers stale flags, and only takes schedules off the queue. */
  ghost predicate Grows(b: Book, b': Book, huntAlive: bool) {
    && (forall t <- b.running :: t in b'.running && b'.running[t] == b.running[t])
    && b'.busy <= b.busy && (forall f <- b.busy :: f !in b'.busy ==> Stale(f, huntAlive))
    && (forall sid <- b'.queue :: sid in b.queue)
    && (Compatible(b.running.Keys) ==> Compatible(b'.running.Keys))
  }

  lemma HeadGrows(schedules: map<Sid, Entry>, b: Book, sid: Sid, online: bool, huntAlive: bool)
    ensures Grows(b, DrainHead(schedules, b, sid, online, huntAlive), huntAlive)
    ensures forall x <- b.queue :: x != sid ==> x in DrainHead(schedules, b, sid, online, huntAlive).queue
  {
    WithoutMembers(b.queue, sid);
  }

  lemma {:induction false} DrainGrows(
    schedules: map<Sid, Entry>, b: Book, rest: seq<Sid>, online: bool, huntAlive: bool)
    ensures Grows(b, Drained(schedules, b, rest, online, huntAlive), huntAlive)
    ensures forall x <- b.queue :: x !in rest ==> x in Drained(schedules, b, rest, online, huntAlive).queue
    decreases |rest|
  {
    if rest != [] {
      HeadGrows(schedules, b, rest[0], online, huntAlive);
      DrainGrows(schedules, DrainHead(schedules, b, rest[0], online, huntAlive), rest[1..], online, huntAlive);
    }
  }

  /** What became of one schedule: still queued and blocked, or launched now, or deleted. */
  ghost predicate Settled(
    schedules: map<Sid, Entry>, b: Book, b': Book, sid: Sid, online: bool, huntAlive: bool) {
    && (sid in b'.queue ==>
          sid in schedules && Blocked(b'.running.Keys, b'.busy, online, huntAlive, schedules[sid].taskType))
    && (sid in b.queue && sid !in b'.queue && sid in schedules ==>
          var t := schedules[sid].taskType; t !in b.running && t in b'.running && b'.running[t] == sid)
  }

  lemma HeadSettles(schedules: map<Sid, Entry>, b: Book, sid: Sid, online: bool, huntAlive: bool)
    ensures Settled(schedules, b, DrainHead(schedules, b, sid, online, huntAlive), sid, online, huntAlive)
  {
    WithoutMembers(b.queue, sid);
    var b' := DrainHead(schedules, b, sid, online, huntAlive);
    if sid in schedules && Blocked(b.running.Keys, b.busy, online, huntAlive, schedules[sid].taskType) {
      HeadGrows(schedules, b, sid, online, huntAlive);
      BlockedStays(b.running.Keys, b'.running.Keys, b.busy, b'.busy, online, huntAlive, schedules[sid].taskType);
    }
  }

  lemma SettledStays(
    schedules: map<Sid, Entry>, b: Book, b1: Book, b': Book, sid: Sid, online: bool, huntAlive: bool)
    requires Settled(schedules, b, b1, sid, online, huntAlive) && Grows(b, b1, huntAlive) && Grows(b1, b', huntAlive)
    requires sid in b1.queue ==> sid in b'.queue
    ensures Settled(schedules, b, b', sid, online, huntAlive)
  {
    if sid in b'.queue {
      BlockedStays(b1.running.Keys, b'.running.Keys, b1.busy, b'.busy, online, huntAlive, schedules[sid].taskType);
    }
  }

  lemma SettledBefore(
    schedules: map<Sid, Entry>, b: Book, b1: Book, b': Book, sid: Sid, online: bool, huntAlive: bool)
    requires Grows(b, b1, huntAlive) && Settled(schedules, b1, b', sid, online, huntAlive)
    requires sid in b.queue ==> sid in b1.queue
    ensures Settled(schedules, b, b', sid, online, huntAlive)
  {
  }

  /** Every schedule of the drained snapshot is settled at the end of the drain. */
  lemma {:induction false} DrainSettles(
    schedules: map<Sid, Entry>, b: Book, rest: seq<Sid>, online: bool, huntAlive: bool, sid: Sid)
    requires NoDuplicates(rest) && sid in rest
    ensures Settled(schedules, b, Drained(schedules, b, rest, online, huntAlive), sid, online, huntAlive)
    decreases |rest|
  {
    var b1 := DrainHead(schedules, b, rest[0], online, huntAlive);
    HeadGrows(schedules, b, rest[0], online, huntAlive);
    DrainGrows(schedules, b1, rest[1..], online, huntAlive);
    if sid == rest[0] {
      HeadSettles(schedules, b, sid, online, huntAlive);
      assert sid !in rest[1..];
      SettledStays(schedules, b, b1, Drained(schedules, b, rest, online, huntAlive), sid, online, huntAlive);
    } else {
      DrainSettles(schedules, b1, rest[1..], online, huntAlive, sid);
      SettledBefore(schedules, b, b1, Drained(schedules, b, rest, online, huntAlive), sid, online, huntAlive);
    }
  }

  /** A type that a drain registered belongs to a schedule that it took off the queue. */
  lemma {:induction false} DrainLaunches(
    schedules: map<Sid, Entry>, b: Book, rest: seq<Sid>, online: bool, huntAlive: bool, t: TaskType)
    requires t !in b.running && t in Drained(schedules, b, rest, online, huntAlive).running
    ensures var b' := Drained(schedules, b, rest, online, huntAlive);
            && b'.running[t] in rest && b'.running[t] !in b'.queue
            && b'.running[t] in schedules && schedules[b'.running[t]].taskType == t
    decreases |rest|
  {
    var b1 := DrainHead(schedules, b, rest[0], online, huntAlive);
    DrainGrows(schedules, b1, rest[1..], online, huntAlive);
    if t in b1.running {
      WithoutMembers(b.queue, rest[0]);
    } else {
      DrainLaunches(schedules, b1, rest[1..], online, huntAlive, t);
    }
  }

  lemma AfterDrain(schedules: map<Sid, Entry>, b: Book, rest: seq<Sid>, online: bool, huntAlive: bool)
    requires NoDuplicates(rest)
    ensures var b' := Drained(schedules, b, rest, online, huntAlive);
            && Grows(b, b', huntAlive)
            && (forall sid <- rest :: Settled(schedules, b, b', sid, online, huntAlive))
            && (forall t <- b'.running :: t !in b.running ==>
                  && b'.running[t] in rest && b'.running[t] !in b'.queue
                  && b'.running[t] in schedules && schedules[b'.running[t]].taskType == t)
  {
    var b' := Drained(schedules, b, rest, online, huntAlive);
    DrainGrows(schedules, b, rest, online, huntAlive);
    forall sid | sid in rest
      ensures Settled(schedules, b, b', sid, online, huntAlive)
    {
      DrainSettles(schedules, b, rest, online, huntAlive, sid);
    }
    forall t | t in b'.running && t !in b.running
      ensures b'.running[t] in rest && b'.running[t] !in b'.queue
      ensures b'.running[t] in schedules && schedules[b'.running[t]].taskType == t
    {
      DrainLaunches(schedules, b, rest, online, huntAlive, t);
    }
  }

  // ---- The same drain, step by step ----

  /** The steps of one drain that nobody disturbs, over `n` more schedules; those that are not
      enabled do nothing. */
  function DrainActions(c: nat, n: nat, online: bool, huntAlive: bool): seq<Action> {
    if n == 0 then [Drain(c)]
    else [Drain(c), Lock(c, huntAlive), Probe(c, online)] + DrainActions(c, n - 1, online, huntAlive)
  }

  predicate Matches(b: Book, s: State) {
    b.queue == s.queue && b.running.Keys == s.running.Keys && b.busy == s.busy
  }

  lemma HeadMatches(s: State, c: nat, b: Book, online: bool, huntAlive: bool)
    requires c in s.coros && s.coros[c].DrainNext? && s.coros[c].rest != [] && s.lock.None? && Matches(b, s)
    ensures var rest := s.coros[c].rest;
            var s' := Apply(Apply(Apply(s, Drain(c)), Lock(c, huntAlive)), Probe(c, online));
            && c in s'.coros && s'.coros[c] == DrainNext(rest[1..]) && s'.lock.None? && s'.schedules == s.schedules
            && Matches(DrainHead(s.schedules, b, rest[0], online, huntAlive), s')
  {
    var rest := s.coros[c].rest;
    var s1 := Apply(s, Drain(c));
    if AfterHead(s, rest).DrainLock? {
      LockMatches(s1, c, b, online, huntAlive);
    }
  }

  /** The drain goes on with `rest`, with the registry and the queue as told. */
  predicate GoesOn(s: State, s': State, c: nat, rest: seq<Sid>, sid: Sid, t: TaskType, launched: bool) {
    && c in s'.coros && s'.coros[c] == DrainNext(rest) && s'.lock.None?
    && s'.schedules == s.schedules && s'.busy == s.busy
    && s'.queue == (if launched then Without(s.queue, sid) else s.queue)
    && s'.running.Keys == if launched then s.running.Keys + {t} else s.running.Keys
  }

  lemma ProbeGoesOn(s: State, c: nat, sid: Sid, t: TaskType, rest: seq<Sid>, online: bool)
    requires c in s.coros && s.lock.None?
    ensures var s1 := Resume(s.(lock := Some(c)), c, DrainProbe(sid, t, rest));
            GoesOn(s, Apply(s1, Probe(c, online)), c, rest, sid, t, online)
  {
  }

  lemma ClearGoesOn(s: State, c: nat, sid: Sid, t: TaskType, rest: seq<Sid>, online: bool)
    requires c in s.coros && s.lock.None?
    ensures GoesOn(s, Apply(DrainLaunch(s, c, sid, t, rest), Probe(c, online)), c, rest, sid, t, true)
  {
  }

  lemma RefusedGoesOn(s: State, c: nat, sid: Sid, t: TaskType, rest: seq<Sid>, online: bool)
    requires c in s.coros && s.lock.None?
    ensures GoesOn(s, Apply(Resume(s, c, DrainNext(rest)), Probe(c, online)), c, rest, sid, t, false)
  {
  }

  lemma GateGoesOn(
    s: State, c: nat, sid: Sid, t: TaskType, rest: seq<Sid>, verdict: Verdict, online: bool)
    requires c in s.coros && s.lock.None?
    ensures GoesOn(s, Apply(AfterGate(s, c, sid, t, rest, verdict), Probe(c, online)), c, rest, sid, t,
      verdict.Clear? || (verdict.NeedsProbe? && online))
  {
    match verdict
    case NeedsProbe => ProbeGoesOn(s, c, sid, t, rest, online);
    case Clear => ClearGoesOn(s, c, sid, t, rest, online);
    case _ => RefusedGoesOn(s, c, sid, t, rest, online);
  }

  lemma LockMatches(s: State, c: nat, b: Book, online: bool, huntAlive: bool)
    requires c in s.coros && s.coros[c].DrainLock? && s.lock.None? && Matches(b, s)
    ensures var x := s.coros[c];
            var s' := Apply(Apply(s, Lock(c, huntAlive)), Probe(c, online));
            && c in s'.coros && s'.coros[c] == DrainNext(x.rest) && s'.lock.None? && s'.schedules == s.schedules
            && Matches(Tried(b, x.sid, x.taskType, online, huntAlive), s')
  {
    var x := s.coros[c];
    var verdict := Gate(s.running.Keys, s.busy, huntAlive, x.taskType);
    var s0 := s.(busy := FlagsAfter(verdict, x.taskType, s.busy, huntAlive));
    GateGoesOn(s0, c, x.sid, x.taskType, x.rest, verdict, online);
  }

  /** A drain of the state machine that nobody disturbs does what the queue operation does. */
  lemma {:induction false} UndisturbedDrain(s: State, c: nat, b: Book, online: bool, huntAlive: bool)
    requires c in s.coros && s.coros[c].DrainNext? && s.lock.None? && Matches(b, s)
    ensures var rest := s.coros[c].rest;
            var s' := Run(Apply, s, DrainActions(c, |rest|, online, huntAlive));
            && c !in s'.coros && s'.lock.None? && s'.schedules == s.schedules
            && Matches(Drained(s.schedules, b, rest, online, huntAlive), s')
    decreases |s.coros[c].rest|
  {
    var rest := s.coros[c].rest;
    var all := (_: State, _: Action) => true;
    if rest == [] {
      assert Run(Apply, s, [] + [Drain(c)]) == Apply(s, Drain(c)) by { Snoc(Apply, all, s, [], Drain(c)); }
      assert [] + [Drain(c)] == [Drain(c)];
    } else {
      var s1 := Apply(s, Drain(c));
      var s2 := Apply(s1, Lock(c, huntAlive));
      var s3 := Apply(s2, Probe(c, online));
      HeadMatches(s, c, b, online, huntAlive);
      Three(Apply, all, s, s1, s2, s3, Drain(c), Lock(c, huntAlive), Probe(c, online));
      Concat(Apply, all, s, [Drain(c), Lock(c, huntAlive), Probe(c, online)],
        DrainActions(c, |rest| - 1, online, huntAlive));
      UndisturbedDrain(s3, c, DrainHead(s.schedules, b, rest[0], online, huntAlive), online, huntAlive);
    }
  }

  class Engine {
    var schedules: map<Sid, Entry>
    var queue: seq<Sid>
    var running: map<TaskType, Sid>  // the schedule whose task is registered under the type
    var busy: set<BusyFlag>
    var paused: bool
    var stopped: bool

    constructor (schedules: map<Sid, Entry>)
      ensures this.schedules == schedules && queue == [] && running == map[] && busy == {}
      ensures !paused && !stopped
    {
      this.schedules := schedules;
      queue, running, busy := [], map[], {};
      paused, stopped := false, false;
    }

    method Enqueue(sid: Sid, now: real)
      modifies this`queue, this`schedules
      ensures if sid in old(schedules) && sid !in old(queue)
        then
          && queue == old(queue) + [sid]
          && schedules == old(schedules)[sid := Expected(old(schedules)[sid], now)]
        else queue == old(queue) && schedules == old(schedules)
    {
      if sid !in schedules || sid in queue {
        return;
      }
      queue := queue + [sid];
      schedules := schedules[sid := schedules[sid].(nextRun := now + schedules[sid].intervalSec as real)];
    }

    predicate Due(sid: Sid, now: real)
      reads this
    {
      && sid in schedules
      && schedules[sid].enabled
      && schedules[sid].intervalSec > 0
      && schedules[sid].taskType !in running
      && IsDue(schedules[sid], now)
    }

    /** A tick appends exactly the due schedules that were not queued yet, each once, and announces
        their next run; a schedule that succeeded before is due once its interval has passed since. */
    method EnqueueDue(sids: seq<Sid>, now: real)
      requires NoDuplicates(queue) && NoDuplicates(sids) && forall sid :: sid in sids <==> sid in schedules
      modifies this`queue, this`schedules
      ensures old(queue) <= queue && NoDuplicates(queue)
      ensures forall sid :: sid !in old(queue) ==>
        (sid in queue <==>
          && sid in old(schedules) && old(schedules)[sid].enabled && old(schedules)[sid].intervalSec > 0
          && old(schedules)[sid].taskType !in running
          && (old(schedules)[sid].lastOk > 0.0 ==>
                now >= old(schedules)[sid].lastOk + old(schedules)[sid].intervalSec as real)
          && (old(schedules)[sid].lastOk <= 0.0 ==>
                old(schedules)[sid].nextRun <= 0.0 || now >= old(schedules)[sid].nextRun))
      ensures schedules == ExpectAll(old(schedules), queue[|old(queue)|..], now)
    {
      assert ExpectAll(schedules, [], now) == schedules && queue[|queue|..] == [];
      for i := 0 to |sids|
        invariant old(queue) <= queue && NoDuplicates(queue)
        invariant schedules == ExpectAll(old(schedules), queue[|old(queue)|..], now)
        invariant forall sid :: sid in queue <==> sid in old(queue) || (sid in sids[..i] && old(Due(sid, now)))
      {
        var e := schedules[sids[i]];
        assert sids[i] !in sids[..i];
        assert sids[i] !in queue ==> e == old(schedules)[sids[i]];
        if !e.enabled || e.intervalSec <= 0 || e.taskType in running || sids[i] in queue {
          continue;
        }
        if IsDue(e, now) {
          ghost var tail := queue[|old(queue)|..];
          Enqueue(sids[i], now);
          assert queue[|old(queue)|..] == tail + [sids[i]];
        }
      }
      assert sids[..|sids|] == sids;
    }

    method TryLaunch(sid: Sid, online: bool, huntAlive: bool) returns (launched: bool)
      modifies this`running, this`busy
      ensures launched <==> (
        && sid in schedules
        && !Blocked(old(running).Keys, old(busy), online, huntAlive, schedules[sid].taskType))
      ensures running == if launched then old(running)[schedules[sid].taskType := sid] else old(running)
      ensures busy <= old(busy) && forall f <- old(busy) :: f !in busy ==> Stale(f, huntAlive)
      ensures busy == if sid !in schedules then old(busy) else
        var t := schedules[sid].taskType;
        FlagsAfter(Gate(old(running).Keys, old(busy), huntAlive, t), t, old(busy), huntAlive)
    {
      if sid !in schedules {
        return false;
      }
      var t := schedules[sid].taskType;
      var verdict := Gate(running.Keys, busy, huntAlive, t);
      busy := FlagsAfter(verdict, t, busy, huntAlive);
      if verdict.Clear? || (verdict.NeedsProbe? && online) {
        running := running[t := sid];
        return true;
      }
      return false;
    }

    ghost function Books(): Book
      reads this
    {
      Book(queue, running, busy)
    }

    /** After an undisturbed drain the queue holds exactly the schedules that could not be launched;
        whoever left it was launched now or had been deleted. */
    method DrainQueue(online: bool, huntAlive: bool)
      requires NoDuplicates(queue)
      modifies this`queue, this`running, this`busy
      ensures old(stopped || paused) ==> queue == old(queue) && running == old(running) && busy == old(busy)
      ensures !old(stopped || paused) ==>
        Books() == Drained(schedules, old(Books()), old(queue), online, huntAlive)
      ensures !old(stopped || paused) ==> forall sid <- queue ::
        sid in schedules && Blocked(running.Keys, busy, online, huntAlive, schedules[sid].taskType)
      ensures forall sid <- old(queue) :: sid !in queue && sid in schedules ==>
        var t := schedules[sid].taskType; t !in old(running) && t in running && running[t] == sid
      ensures forall sid <- queue :: sid in old(queue)
      ensures forall t <- old(running) :: t in running && running[t] == old(running)[t]
      ensures forall t <- running :: t !in old(running) ==>
        && running[t] in old(queue) && running[t] !in queue
        && running[t] in schedules && schedules[running[t]].taskType == t
      ensures Compatible(old(running).Keys) ==> Compatible(running.Keys)
    {
      if queue == [] || stopped || paused {
        return;
      }
      var snapshot := queue;
      ghost var before := Books();
      for i := 0 to |snapshot|
        invariant Drained(schedules, Books(), snapshot[i..], online, huntAlive)
          == Drained(schedules, before, snapshot, online, huntAlive)
      {
        var sid := snapshot[i];
        assert snapshot[i..][0] == sid && snapshot[i..][1..] == snapshot[i + 1..];
        ghost var b := Books();
        if sid !in schedules {
          queue := Without(queue, sid);
          assert Books() == DrainHead(schedules, b, sid, online, huntAlive);
          continue;
        }
        if schedules[sid].taskType in running {
          continue;
        }
        var launched := TryLaunch(sid, online, huntAlive);
        if launched {
          queue := Without(queue, sid);
        }
        assert Books() == DrainHead(schedules, b, sid, online, huntAlive);
      }
      AfterDrain(schedules, before, snapshot, online, huntAlive);
    }
  }
}

// What the counters of a validation tell about its run, who begins a check, and who is done.
// Models hunt/check_validation.py, hunt/check_validation_helpers.py and hunt/health_check.py.

module ValidationCounts {
  import opened Wrappers
  import opened Runs
  import opened ValidationPool

  datatype Verdict = NewlyWorking | StillWorking | NotWorking

  /** The verdict that a step records: a full result while the internet is trusted and no health check
      owns the counters, or a fast failure under the latter condition. An address that worked before
      still works, any other is new. */
  function RecordOf(s: State, a: Action): Option<Verdict> {
    if !a.Move? || a.w !in s.workers || !s.workers[a.w].At? || s.health.Running? then None
    else match s.workers[a.w].point
      case FastLock => Some(NotWorking)
      case RecordLock(ok) =>
        if s.suspect then None
        else if !ok then Some(NotWorking)
        else Some(if a.known then StillWorking else NewlyWorking)
      case _ => None
  }

  /** How often the run records the verdict. */
  function Recorded(total: nat, s: State, actions: seq<Action>, v: Verdict): nat
    decreases |actions|
  {
    if actions == [] then 0
    else (if RecordOf(s, actions[0]) == Some(v) then 1 else 0)
         + Recorded(total, Apply(total, s, actions[0]), actions[1..], v)
  }

  function More(e: Option<Verdict>, v: Verdict): nat {
    if e == Some(v) then 1 else 0
  }

  lemma MoveRecords(s: State, w: nat, outcome: Outcome, known: bool)
    requires w in s.workers && s.workers[w].At?
    ensures var e, c := RecordOf(s, Move(w, outcome, known)), Moved(s, w, s.workers[w], outcome, known).ctx;
      && c.novel == s.ctx.novel + More(e, NewlyWorking) && c.confirmed == s.ctx.confirmed + More(e, StillWorking)
      && c.fail == s.ctx.fail + More(e, NotWorking)
      && c.ok == s.ctx.ok + More(e, NewlyWorking) + More(e, StillWorking)
  {
  }

  lemma StepRecords(total: nat, s: State, a: Action)
    ensures var e, c := RecordOf(s, a), Apply(total, s, a).ctx;
      && c.novel == s.ctx.novel + More(e, NewlyWorking) && c.confirmed == s.ctx.confirmed + More(e, StillWorking)
      && c.fail == s.ctx.fail + More(e, NotWorking)
      && c.ok == s.ctx.ok + More(e, NewlyWorking) + More(e, StillWorking)
  {
    if a.Move? && a.w in s.workers && s.workers[a.w].At? {
      MoveRecords(s, a.w, a.outcome, a.known);
    } else {
      assert Apply(total, s, a).ctx == s.ctx;
    }
  }

  /** Over every run each counter is the number of its verdicts: new for addresses that had not worked,
      confirmed for those that had, failed for the others. */
  lemma {:induction false} CountersTell(total: nat, s: State, actions: seq<Action>)
    ensures var c := Run(StepFn(total), s, actions).ctx;
      && c.novel == s.ctx.novel + Recorded(total, s, actions, NewlyWorking)
      && c.confirmed == s.ctx.confirmed + Recorded(total, s, actions, StillWorking)
      && c.fail == s.ctx.fail + Recorded(total, s, actions, NotWorking)
      && c.ok == s.ctx.ok + Recorded(total, s, actions, NewlyWorking) + Recorded(total, s, actions, StillWorking)
    decreases |actions|
  {
    if actions != [] {
      StepRecords(total, s, actions[0]);
      CountersTell(total, Apply(total, s, actions[0]), actions[1..]);
    }
  }

  /** The board shows the counters of the run. */
  predicate ShowsRun(s: State) {
    && s.board.working == s.ctx.ok && s.board.newWorking == s.ctx.novel
    && s.board.confirmed == s.ctx.confirmed && s.board.failed == s.ctx.fail
  }

  /** Without a health check it does so throughout. */
  lemma {:induction false} BoardShowsRun(total: nat, s: State, actions: seq<Action>)
    requires ShowsRun(s) && s.health.Off? && forall a <- actions :: !FromHealth(a)
    ensures ShowsRun(Run(StepFn(total), s, actions))
    decreases |actions|
  {
    if actions != [] {
      var a := actions[0];
      assert a in actions && forall b <- actions[1..] :: b in actions;
      StepShows(total, s, a);
      BoardShowsRun(total, Apply(total, s, a), actions[1..]);
    }
  }

  lemma StepShows(total: nat, s: State, a: Action)
    requires ShowsRun(s) && s.health.Off? && !FromHealth(a)
    ensures ShowsRun(Apply(total, s, a)) && Apply(total, s, a).health.Off?
  {
    if a.Move? && a.w in s.workers && s.workers[a.w].At? {
      var t := Moved(s, a.w, s.workers[a.w], a.outcome, a.known);
      assert t.health.Off?;
    }
  }

  /** From the start of a validation without a health check, the board holds exactly the verdicts. */
  lemma BoardTells(addrs: seq<string>, parallel: nat, suspect: bool, excluded: set<string>, actions: seq<Action>)
    requires forall a <- actions :: !FromHealth(a)
    ensures var s0, total := Start(addrs, parallel, suspect, excluded), |Members(addrs)|;
      var b := Run(StepFn(total), s0, actions).board;
      && b.newWorking == Recorded(total, s0, actions, NewlyWorking)
      && b.confirmed == Recorded(total, s0, actions, StillWorking)
      && b.working == b.newWorking + b.confirmed
      && b.failed == Recorded(total, s0, actions, NotWorking)
  {
    var s0, total := Start(addrs, parallel, suspect, excluded), |Members(addrs)|;
    CountersTell(total, s0, actions);
    BoardShowsRun(total, s0, actions);
  }

  // ---- Who checks, and who is done ----

  /** A worker begins a check exactly when it stands at the gate and the internet is trusted; while it
      is suspect the worker waits instead. */
  lemma ChecksBegin(total: nat, s: State, w: nat, outcome: Outcome, known: bool)
    requires w in s.workers && s.workers[w].At?
    ensures var k, k' := s.workers[w], Apply(total, s, Move(w, outcome, known)).workers[w];
      && (k'.At? && k'.point == Checking <==> k.point == Gate && !s.suspect)
      && (k'.At? && k'.point == Waiting <==> k.point in {Gate, FastAfter, RecordAfter} && s.suspect)
      && (k'.At? && k'.point == Top <==> k.point == Waiting)
      && (k'.At? && k'.point == ExcludedLock <==> k.point == Top && k.addr in s.excluded)
      && (k'.At? ==> k'.addr == k.addr)
  {
  }

  /** A worker is done with its address when that is excluded, when a health check owns the counters
      that its result is for, or when the result is processed and the internet is trusted. */
  predicate Finishes(s: State, a: Action, x: string) {
    && a.Move? && Holds(s, a.w, x)
    && match s.workers[a.w].point
       case ExcludedLock => true
       case FastLock => s.health.Running?
       case RecordLock(_) => s.health.Running?
       case FastAfter => !s.suspect
       case RecordAfter => !s.suspect
       case _ => false
  }

  lemma FinishesExactly(total: nat, s: State, a: Action, x: string)
    ensures x in Apply(total, s, a).finished <==> x in s.finished || Finishes(s, a, x)
  {
    if a.Move? && a.w in s.workers && s.workers[a.w].At? {
      var k := s.workers[a.w];
      var next := Next(s, k, a.outcome, a.known).0;
      assert next.Idle? <==> Finishes(s, a, k.addr);
    }
  }

  /** A check ends in a fast failure, a failure or a success. */
  lemma ChecksEnd(total: nat, s: State, w: nat, outcome: Outcome, known: bool)
    requires w in s.workers && s.workers[w].At? && s.workers[w].point == Checking
    ensures var p := Apply(total, s, Move(w, outcome, known)).workers[w].point;
      && (p == FastLock <==> outcome == FastFail)
      && (p == RecordLock(true) <==> outcome == Fine)
      && (p == RecordLock(false) <==> outcome == Bad)
  {
  }

  // ---- The crew ----

  function Stops(queue: seq<Option<string>>): nat {
    if queue == [] then 0 else (if queue[0].None? then 1 else 0) + Stops(queue[1..])
  }

  lemma {:induction false} CrewIs(n: nat)
    ensures forall w: nat :: w in Crew(n) <==> w < n
  {
    if n > 0 {
      CrewIs(n - 1);
    }
  }

  lemma {:induction false} StopsAre(addrs: seq<Option<string>>, n: nat)
    requires forall a <- addrs :: a.Some?
    ensures Stops(addrs + seq(n, _ => None)) == n
    decreases |addrs|, n
  {
    var queue := addrs + seq(n, _ => None);
    if addrs != [] {
      assert addrs[0] in addrs && forall a <- addrs[1..] :: a in addrs;
      assert queue[1..] == addrs[1..] + seq(n, _ => None);
      StopsAre(addrs[1..], n);
    } else if n > 0 {
      var less: seq<Option<string>> := seq(n - 1, _ => None);
      assert queue[1..] == [] + less;
      StopsAre([], n - 1);
    }
  }

  /** At least one worker, as many as set otherwise, all idle, with one stop mark each behind the
      addresses; the counters begin at zero. */
  lemma StartMeans(addrs: seq<string>, parallel: nat, suspect: bool, excluded: set<string>)
    ensures var s := Start(addrs, parallel, suspect, excluded);
      var crew: nat := if parallel == 0 then 1 else parallel;
      && (forall w: nat :: w in s.workers <==> w < crew) && (forall w <- s.workers :: s.workers[w].Idle?)
      && Stops(s.queue) == crew && |s.queue| == |addrs| + crew
      && (forall i :: 0 <= i < |addrs| ==> s.queue[i] == Some(addrs[i]))
      && s.board.checked == 0 && ShowsRun(s) && s.ctx.ok == 0 && s.ctx.fail == 0 && s.ctx.novel == 0
  {
    var crew: nat := if parallel == 0 then 1 else parallel;
    var marks := seq(|addrs|, i requires 0 <= i < |addrs| => Some(addrs[i]));
    CrewIs(crew);
    StopsAre(marks, crew);
  }

  /** A worker takes the next address, and leaves at a stop mark. */
  lemma TakesNext(total: nat, s: State, w: nat, outcome: Outcome, known: bool)
    requires w in s.workers && s.workers[w].Idle? && s.queue != []
    ensures var s' := Apply(total, s, Move(w, outcome, known));
      && [s.queue[0]] + s'.queue == s.queue
      && s'.workers[w] == match s.queue[0] case None => Gone case Some(x) => At(x, Top, false)
  {
  }

  // ---- The health check and the board ----

  /** The steps of a health check that owns the board, and of the workers beside it. */
  predicate KeepsHealth(a: Action) {
    !a.HealthEnd? && !a.PhaseMoves?
  }

  lemma {:induction false} HealthKeepsSaved(total: nat, s: State, actions: seq<Action>)
    requires s.health.Running? && forall a <- actions :: KeepsHealth(a)
    ensures Run(StepFn(total), s, actions).health == s.health
    decreases |actions|
  {
    if actions != [] {
      var a := actions[0];
      assert a in actions && forall b <- actions[1..] :: b in actions;
      assert Apply(total, s, a).health == s.health;
      HealthKeepsSaved(total, Apply(total, s, a), actions[1..]);
    }
  }

  /** A health check starts from an empty board; whatever it shows, and whatever the workers do
      meanwhile, its end brings back the whole board as it was when it saved it; a count above the total,
      which only an earlier check without restoring can leave, is capped. */
  lemma BoardComesBack(s: State, proxies: set<string>, actions: seq<Action>)
    requires Inv(s, proxies) && s.health.Off? && forall a <- actions :: KeepsHealth(a)
    ensures var n := |proxies|;
      var t := Apply(n, Apply(n, s, HealthSave), HealthStart(true));
      && t.board == Board(0, 0, 0, 0, 0)
      && var b := Apply(n, Run(StepFn(n), t, actions), HealthEnd).board;
      && b == s.board.(checked := if s.board.checked <= n then s.board.checked else n)
      && (!s.slips.mixed ==> b == s.board)
  {
    var n := |proxies|;
    var t := Apply(n, Apply(n, s, HealthSave), HealthStart(true));
    SubsetSize(s.counted, proxies);
    HealthKeepsSaved(n, t, actions);
  }

  /** If the phase was taken from it meanwhile, its own numbers stay. */
  lemma NumbersStay(total: nat, s: State)
    requires s.health.Running? && !s.health.ours
    ensures Apply(total, s, HealthEnd).board == s.board
  {
  }
}

// The validation worker pool: workers take addresses from a shared queue and update shared counters
// under a lock, with retries while the internet is suspect and a health check that takes the counters
// over. Models hunt/check_validation.py, hunt/check_validation_helpers.py and the counter hand-over of
// hunt/health_check.py as a state machine whose steps are the stretches between awaits. Any step of any
// worker may come next.

module ValidationPool {
  import opened Wrappers
  import opened Runs

  /** The counters shown to the user. */
  datatype Board = Board(checked: nat, working: nat, newWorking: nat, confirmed: nat, failed: nat)

  /** The counters of one validation run. */
  datatype Ctx = Ctx(ok: nat, fail: nat, novel: nat, confirmed: nat)

  /** Where the check of one address stands. */
  datatype Point =
    | Top | ExcludedLock | Gate | Checking | FastLock | FastAfter | RecordLock(ok: bool) | RecordAfter | Waiting

  datatype Worker = Idle | At(addr: string, point: Point, counted: bool) | Gone

  datatype Outcome = FastFail | Bad | Fine

  /** The health check first saves the counters, later declares itself running, finally restores.
      `ours` says whether the phase shown is still that of the health check. */
  datatype Health = Off | Saved(saved: Board) | Running(saved: Board, ours: bool)

  /** What went past the books: counts that the board lacks (or, negative, has too many of), whether a
      health check ended without restoring, and records made for an address counted before. */
  datatype Slips = Slips(lost: int, mixed: bool, again: nat)

  datatype State = State(
    queue: seq<Option<string>>, workers: map<nat, Worker>, board: Board, ctx: Ctx, suspect: bool,
    health: Health, excluded: set<string>,
    // History: what was counted, finished, dropped by a cancellation, excluded-and-counted, and slips.
    counted: set<string>, finished: set<string>, dropped: set<string>, passedOver: set<string>, slips: Slips)

  /** What a critical section adds to the counters. */
  datatype Effect = Nothing | Excluded | Failed | Succeeded(known: bool)

  function Next(s: State, k: Worker, outcome: Outcome, known: bool): (Worker, Effect)
    requires k.At?
  {
    var owned := s.health.Running?;
    match k.point
    case Top => (k.(point := if k.addr in s.excluded then ExcludedLock else Gate), Nothing)
    case ExcludedLock => (Idle, if owned then Nothing else Excluded)
    case Gate => (k.(point := if s.suspect then Waiting else Checking), Nothing)
    case Checking =>
      (k.(point := match outcome case FastFail => FastLock case Bad => RecordLock(false) case Fine => RecordLock(true)),
       Nothing)
    case FastLock => if owned then (Idle, Nothing) else (k.(point := FastAfter, counted := true), Failed)
    case FastAfter => (if s.suspect then k.(point := Waiting) else Idle, Nothing)
    case RecordLock(ok) =>
      if owned then (Idle, Nothing)
      else (k.(point := RecordAfter, counted := true),
            if s.suspect then Nothing else if ok then Succeeded(known) else Failed)
    case RecordAfter => (if s.suspect then k.(point := Waiting) else Idle, Nothing)
    case Waiting => (k.(point := Top), Nothing)
  }

  function NextCtx(c: Ctx, e: Effect): Ctx {
    Ctx(if e.Succeeded? then c.ok + 1 else c.ok,
        if e.Failed? then c.fail + 1 else c.fail,
        if e.Succeeded? && !e.known then c.novel + 1 else c.novel,
        if e.Succeeded? && e.known then c.confirmed + 1 else c.confirmed)
  }

  function NextBoard(b: Board, c: Ctx, e: Effect, counted: bool): Board {
    Board(if !e.Nothing? && !counted then b.checked + 1 else b.checked,
          if e.Succeeded? then c.ok + 1 else b.working,
          if e.Succeeded? && !e.known then c.novel + 1 else b.newWorking,
          if e.Succeeded? && e.known then c.confirmed + 1 else b.confirmed,
          if e.Failed? then c.fail + 1 else b.failed)
  }

  datatype Action =
    | Move(w: nat, outcome: Outcome, known: bool)
    | Cancel(w: nat)
    | Suspect(on: bool)
    | Exclude(addr: string)
    | HealthSave
    | HealthStart(candidates: bool)
    | HealthWrite(board: Board)
    | PhaseMoves(ours: bool)
    | HealthEnd

  function Taken(s: State, w: nat): State
    requires s.queue != []
  {
    s.(queue := s.queue[1..],
       workers := s.workers[w := if s.queue[0].None? then Gone else At(s.queue[0].value, Top, false)])
  }

  function Moved(s: State, w: nat, k: Worker, outcome: Outcome, known: bool): State
    requires k.At?
  {
    var (next, e) := Next(s, k, outcome, known);
    s.(workers := s.workers[w := next],
       board := NextBoard(s.board, s.ctx, e, k.counted),
       ctx := NextCtx(s.ctx, e),
       counted := if !e.Nothing? && !k.counted then s.counted + {k.addr} else s.counted,
       passedOver := if e.Excluded? then s.passedOver + {k.addr} else s.passedOver,
       slips := if !e.Nothing? && k.counted then s.slips.(again := s.slips.again + 1) else s.slips,
       finished := if next.Idle? then s.finished + {k.addr} else s.finished)
  }

  /** Restoring caps the saved count at the saved total, which is the size of the run. */
  function Restored(b: Board, total: nat): Board {
    b.(checked := if b.checked <= total then b.checked else total)
  }

  /** Without candidates the check is over at once, with nothing touched and nothing restored. */
  function Started(s: State, candidates: bool): State
    requires s.health.Saved?
  {
    if candidates then s.(health := Running(s.health.saved, true), board := Board(0, 0, 0, 0, 0))
    else s.(health := Off)
  }

  /** The saved counters come back only while the phase is still that of the health check. */
  function Ended(s: State, total: nat): State
    requires s.health.Running?
  {
    var b := if s.health.ours then Restored(s.health.saved, total) else s.board;
    s.(health := Off, board := b,
       slips := s.slips.(lost := |s.counted| - b.checked, mixed := s.slips.mixed || !s.health.ours))
  }

  function Apply(total: nat, s: State, a: Action): State {
    match a
    case Move(w, outcome, known) =>
      if w !in s.workers then s
      else (match s.workers[w]
            case Idle => if s.queue == [] then s else Taken(s, w)
            case At(_, _, _) => Moved(s, w, s.workers[w], outcome, known)
            case Gone => s)
    case Cancel(w) =>
      if w !in s.workers then s
      else s.(workers := s.workers[w := Gone],
              dropped := if s.workers[w].At? then s.dropped + {s.workers[w].addr} else s.dropped)
    case Suspect(on) => s.(suspect := on)
    case Exclude(addr) => s.(excluded := s.excluded + {addr})
    case HealthSave => if s.health.Off? then s.(health := Saved(s.board)) else s
    case HealthStart(candidates) => if s.health.Saved? then Started(s, candidates) else s
    case HealthWrite(board) => if s.health.Running? then s.(board := board) else s
    case PhaseMoves(ours) => if s.health.Running? then s.(health := Running(s.health.saved, ours)) else s
    case HealthEnd => if s.health.Running? then Ended(s, total) else s
  }

  /** At least one worker, whatever the setting. */
  function CrewSize(parallel: nat): nat { if parallel > 0 then parallel else 1 }

  function Crew(n: nat): (workers: map<nat, Worker>)
    ensures forall w <- workers :: workers[w] == Idle
    ensures n > 0 ==> 0 in workers
  {
    if n == 0 then map[] else Crew(n - 1)[n - 1 := Idle]
  }

  /** The addresses, then one stop mark for every worker. */
  function Queue(addrs: seq<string>, parallel: nat): seq<Option<string>> {
    seq(|addrs|, i requires 0 <= i < |addrs| => Some(addrs[i])) + seq(CrewSize(parallel), _ => None)
  }

  function Start(addrs: seq<string>, parallel: nat, suspect: bool, excluded: set<string>): State {
    State(Queue(addrs, parallel), Crew(CrewSize(parallel)),
          Board(0, 0, 0, 0, 0), Ctx(0, 0, 0, 0), suspect, Off, excluded, {}, {}, {}, {}, Slips(0, false, 0))
  }

  // ---- Who has an address ----

  predicate Queued(s: State, x: string) {
    exists i :: 0 <= i < |s.queue| && s.queue[i] == Some(x)
  }

  predicate Holds(s: State, w: nat, x: string) {
    w in s.workers && s.workers[w].At? && s.workers[w].addr == x
  }

  predicate Through(s: State, x: string) {
    x in s.finished || x in s.dropped
  }

  /** Every address is queued, with one worker, or through, and never in two of these places. */
  ghost predicate OnePlace(s: State, proxies: set<string>) {
    && (forall i, j :: 0 <= i < j < |s.queue| && s.queue[i].Some? ==> s.queue[i] != s.queue[j])
    && (forall x :: Queued(s, x) ==> x in proxies && !Through(s, x))
    && (forall w, x :: Holds(s, w, x) ==> x in proxies && !Through(s, x) && !Queued(s, x))
    && (forall v, w, x :: Holds(s, v, x) && Holds(s, w, x) ==> v == w)
    && (forall x :: Through(s, x) ==> x in proxies)
    && (forall x <- proxies :: Queued(s, x) || Through(s, x) || exists w :: Holds(s, w, x))
  }

  /** Nobody who may still be counted has been counted before. */
  ghost predicate CountedOnce(s: State, proxies: set<string>) {
    && s.counted <= proxies
    && (forall x :: Queued(s, x) ==> x !in s.counted)
    && (forall w, x :: Holds(s, w, x) && !s.workers[w].counted ==>
          x !in s.counted && !s.workers[w].point.FastAfter? && !s.workers[w].point.RecordAfter?)
  }

  predicate Tally(s: State) {
    && s.ctx.ok == s.ctx.novel + s.ctx.confirmed
    && (!s.slips.mixed ==> s.slips.lost >= 0)
    && match s.health
       case Off => s.board.checked + s.slips.lost == |s.counted|
       case Saved(b) => s.board.checked + s.slips.lost == |s.counted| && b.checked <= s.board.checked
       case Running(b, _) => b.checked + s.slips.lost <= |s.counted|
  }

  /** Records and exclusions are the count and what was recorded again. */
  predicate Balanced(s: State) {
    s.passedOver <= s.finished && s.ctx.ok + s.ctx.fail + |s.passedOver| == |s.counted| + s.slips.again
  }

  ghost predicate Inv(s: State, proxies: set<string>) {
    OnePlace(s, proxies) && CountedOnce(s, proxies) && Tally(s) && Balanced(s)
  }

  lemma SubsetSize(a: set<string>, b: set<string>)
    requires a <= b
    ensures |a| <= |b|
    decreases |a|
  {
    if a != {} {
      var x :| x in a;
      SubsetSize(a - {x}, b - {x});
    }
  }

  lemma QueueTail(s: State, x: string)
    requires s.queue != []
    ensures Queued(s, x) <==> s.queue[0] == Some(x) || Queued(s.(queue := s.queue[1..]), x)
  {
    var q := s.queue[1..];
    if Queued(s, x) && s.queue[0] != Some(x) {
      var i :| 0 <= i < |s.queue| && s.queue[i] == Some(x);
      assert q[i - 1] == Some(x);
    }
    if Queued(s.(queue := q), x) {
      var i :| 0 <= i < |q| && q[i] == Some(x);
      assert s.queue[i + 1] == Some(x);
    }
  }

  lemma TakeKeeps(s: State, proxies: set<string>, w: nat)
    requires Inv(s, proxies) && w in s.workers && s.workers[w].Idle? && s.queue != []
    ensures Inv(Taken(s, w), proxies)
  {
    var t := Taken(s, w);
    forall x
      ensures Queued(s, x) <==> s.queue[0] == Some(x) || Queued(t, x)
    {
      QueueTail(s, x);
      assert Queued(t, x) == Queued(s.(queue := s.queue[1..]), x);
    }
    forall v, x
      ensures Holds(t, v, x) <==> if v == w then s.queue[0] == Some(x) else Holds(s, v, x)
    {
    }
    if s.queue[0].Some? {
      var x := s.queue[0].value;
      assert Queued(s, x);
      assert !Queued(t, x);
      assert Holds(t, w, x);
    }
    forall x | x in proxies
      ensures Queued(t, x) || Through(t, x) || exists v :: Holds(t, v, x)
    {
      if exists v :: Holds(s, v, x) {
        var v :| Holds(s, v, x);
        assert Holds(t, v, x);
      }
    }
  }

  /** What a worker's move does to places. */
  lemma MovePlaces(s: State, proxies: set<string>, w: nat, outcome: Outcome, known: bool)
    requires OnePlace(s, proxies) && w in s.workers && s.workers[w].At?
    ensures OnePlace(Moved(s, w, s.workers[w], outcome, known), proxies)
  {
    var k := s.workers[w];
    var next := Next(s, k, outcome, known).0;
    var t := Moved(s, w, k, outcome, known);
    assert Holds(s, w, k.addr);
    assert next.At? ==> next.addr == k.addr;
    assert forall x :: Queued(t, x) <==> Queued(s, x);
    assert forall v, x :: Holds(t, v, x) <==> (if v == w then next.At? && x == k.addr else Holds(s, v, x));
    assert forall x :: Through(t, x) <==> Through(s, x) || (next.Idle? && x == k.addr);
    forall x | x in proxies
      ensures Queued(t, x) || Through(t, x) || exists v :: Holds(t, v, x)
    {
      if exists v :: Holds(s, v, x) {
        var v :| Holds(s, v, x);
        assert v == w || Holds(t, v, x);
        assert v == w && next.At? ==> Holds(t, w, x);
      }
    }
  }

  lemma NextFlag(s: State, k: Worker, outcome: Outcome, known: bool)
    requires k.At? && (!k.counted ==> !k.point.FastAfter? && !k.point.RecordAfter?)
    ensures var (next, e) := Next(s, k, outcome, known);
            next.At? ==>
              && next.addr == k.addr && (k.counted || !e.Nothing? ==> next.counted)
              && (!next.counted ==> !next.point.FastAfter? && !next.point.RecordAfter?)
  {
  }

  lemma MoveCounts(s: State, proxies: set<string>, w: nat, outcome: Outcome, known: bool)
    requires OnePlace(s, proxies) && CountedOnce(s, proxies) && w in s.workers && s.workers[w].At?
    ensures CountedOnce(Moved(s, w, s.workers[w], outcome, known), proxies)
  {
    var k := s.workers[w];
    var t := Moved(s, w, k, outcome, known);
    assert Holds(s, w, k.addr);
    NextFlag(s, k, outcome, known);
    assert forall x :: Queued(t, x) <==> Queued(s, x);
    forall v, x | Holds(t, v, x) && !t.workers[v].counted
      ensures x !in t.counted && !t.workers[v].point.FastAfter? && !t.workers[v].point.RecordAfter?
    {
      assert Holds(s, v, x);
    }
  }

  lemma MoveTally(s: State, proxies: set<string>, w: nat, outcome: Outcome, known: bool)
    requires Inv(s, proxies) && w in s.workers && s.workers[w].At?
    ensures Tally(Moved(s, w, s.workers[w], outcome, known))
  {
    var k := s.workers[w];
    var (next, e) := Next(s, k, outcome, known);
    assert Holds(s, w, k.addr);
    assert !e.Nothing? ==> !s.health.Running?;
  }

  /** The history after one move. */
  lemma MoveHistory(s: State, proxies: set<string>, w: nat, outcome: Outcome, known: bool)
    requires Inv(s, proxies) && w in s.workers && s.workers[w].At?
    ensures var k := s.workers[w];
            var e := Next(s, k, outcome, known).1;
            var t := Moved(s, w, k, outcome, known);
            && t.passedOver <= t.finished
            && |t.counted| == |s.counted| + (if !e.Nothing? && !k.counted then 1 else 0)
            && |t.passedOver| == |s.passedOver| + (if e.Excluded? then 1 else 0)
  {
    var k := s.workers[w];
    var (next, e) := Next(s, k, outcome, known);
    assert Holds(s, w, k.addr) && !Through(s, k.addr);
    assert k.addr !in s.passedOver && (e.Excluded? ==> next.Idle?);
    assert !k.counted ==> k.addr !in s.counted;
  }

  lemma MoveBalance(s: State, proxies: set<string>, w: nat, outcome: Outcome, known: bool)
    requires Inv(s, proxies) && w in s.workers && s.workers[w].At?
    ensures Balanced(Moved(s, w, s.workers[w], outcome, known))
  {
    MoveHistory(s, proxies, w, outcome, known);
  }

  lemma CancelKeeps(s: State, proxies: set<string>, total: nat, w: nat)
    requires Inv(s, proxies)
    ensures Inv(Apply(total, s, Cancel(w)), proxies)
  {
    var t := Apply(total, s, Cancel(w));
    assert forall x :: Queued(t, x) <==> Queued(s, x);
    if w in s.workers {
      assert forall v, x :: Holds(t, v, x) <==> v != w && Holds(s, v, x);
      assert forall x :: Through(t, x) <==> Through(s, x) || Holds(s, w, x);
      forall x | x in proxies
        ensures Queued(t, x) || Through(t, x) || exists v :: Holds(t, v, x)
      {
        if exists v :: Holds(s, v, x) {
          var v :| Holds(s, v, x);
          assert v == w || Holds(t, v, x);
        }
      }
    }
  }

  /** Steps that leave queue, workers and history alone. */
  lemma AsideKeeps(s: State, t: State, proxies: set<string>)
    requires OnePlace(s, proxies) && CountedOnce(s, proxies)
    requires t.queue == s.queue && t.workers == s.workers && t.counted == s.counted
    requires t.finished == s.finished && t.dropped == s.dropped
    ensures OnePlace(t, proxies) && CountedOnce(t, proxies)
  {
    assert forall x :: Queued(t, x) <==> Queued(s, x);
    assert forall w, x :: Holds(t, w, x) <==> Holds(s, w, x);
    assert forall x :: Through(t, x) <==> Through(s, x);
  }

  lemma StepKeeps(s: State, proxies: set<string>, a: Action)
    requires Inv(s, proxies)
    ensures Inv(Apply(|proxies|, s, a), proxies)
  {
    var t := Apply(|proxies|, s, a);
    match a
    case Move(w, outcome, known) =>
      if w in s.workers {
        if s.workers[w].At? {
          MovePlaces(s, proxies, w, outcome, known);
          MoveCounts(s, proxies, w, outcome, known);
          MoveTally(s, proxies, w, outcome, known);
          MoveBalance(s, proxies, w, outcome, known);
        } else if s.workers[w].Idle? && s.queue != [] {
          TakeKeeps(s, proxies, w);
        }
      }
    case Cancel(w) => CancelKeeps(s, proxies, |proxies|, w);
    case HealthEnd =>
      SubsetSize(s.counted, proxies);
      AsideKeeps(s, t, proxies);
    case _ => AsideKeeps(s, t, proxies);
  }

  function StepFn(total: nat): (State, Action) -> State {
    (s: State, a: Action) => Apply(total, s, a)
  }

  lemma {:induction false} RunKeeps(s: State, proxies: set<string>, actions: seq<Action>)
    requires Inv(s, proxies)
    ensures Inv(Run(StepFn(|proxies|), s, actions), proxies)
    decreases |actions|
  {
    if actions != [] {
      StepKeeps(s, proxies, actions[0]);
      RunKeeps(Apply(|proxies|, s, actions[0]), proxies, actions[1..]);
    }
  }

  predicate Distinct(addrs: seq<string>) {
    forall i, j :: 0 <= i < j < |addrs| ==> addrs[i] != addrs[j]
  }

  function Members(addrs: seq<string>): set<string> {
    set x | x in addrs
  }

  lemma StartIsGood(addrs: seq<string>, parallel: nat, suspect: bool, excluded: set<string>)
    requires Distinct(addrs)
    ensures Inv(Start(addrs, parallel, suspect, excluded), Members(addrs))
  {
    var s := Start(addrs, parallel, suspect, excluded);
    forall x
      ensures Queued(s, x) <==> x in addrs
    {
      if x in addrs {
        var i :| 0 <= i < |addrs| && addrs[i] == x;
        assert s.queue[i] == Some(x);
      }
    }
    assert forall w, x :: !Holds(s, w, x);
  }

  // ---- The promises ----

  /** In every reachable state each address sits in one place; it is counted at most once; the count
      shown never passes what was counted unless a health check ended without restoring; successes are
      the new and the confirmed ones; records and exclusions exceed the count by exactly what was
      recorded again. */
  lemma EachAddressOnce(addrs: seq<string>, parallel: nat, suspect: bool, excluded: set<string>, actions: seq<Action>)
    requires Distinct(addrs)
    ensures var proxies := Members(addrs);
            var s := Run(StepFn(|proxies|), Start(addrs, parallel, suspect, excluded), actions);
            && OnePlace(s, proxies) && s.counted <= proxies
            && |s.counted| <= |proxies|
            && (!s.health.Running? && !s.slips.mixed ==> s.board.checked <= |s.counted|)
            && s.ctx.ok == s.ctx.novel + s.ctx.confirmed
            && s.ctx.ok + s.ctx.fail + |s.passedOver| == |s.counted| + s.slips.again
  {
    StartIsGood(addrs, parallel, suspect, excluded);
    RunKeeps(Start(addrs, parallel, suspect, excluded), Members(addrs), actions);
    var s := Run(StepFn(|Members(addrs)|), Start(addrs, parallel, suspect, excluded), actions);
    SubsetSize(s.counted, Members(addrs));
  }

  /** A worker never changes a counter that the health check owns. */
  lemma HealthOwnsCounters(s: State, total: nat, w: nat, outcome: Outcome, known: bool)
    requires s.health.Running?
    ensures var t := Apply(total, s, Move(w, outcome, known));
            t.board == s.board && t.ctx == s.ctx && t.counted == s.counted
  {
  }

  /** One step raises the count by at most one, and only for an address not counted before. */
  lemma StepCountsOne(s: State, proxies: set<string>, w: nat, outcome: Outcome, known: bool)
    requires Inv(s, proxies)
    ensures var t := Apply(|proxies|, s, Move(w, outcome, known));
            && s.counted <= t.counted
            && t.board.checked - s.board.checked == |t.counted - s.counted| <= 1
  {
    assert s.counted - s.counted == {};
    if w in s.workers && s.workers[w].At? {
      MoveCountsOne(s, proxies, w, outcome, known);
    }
  }

  lemma MoveCountsOne(s: State, proxies: set<string>, w: nat, outcome: Outcome, known: bool)
    requires Inv(s, proxies) && w in s.workers && s.workers[w].At?
    ensures var t := Moved(s, w, s.workers[w], outcome, known);
            s.counted <= t.counted && t.board.checked - s.board.checked == |t.counted - s.counted| <= 1
  {
    var k := s.workers[w];
    var t := Moved(s, w, k, outcome, known);
    assert Holds(s, w, k.addr);
    if k.addr in t.counted && k.addr !in s.counted {
      assert t.counted - s.counted == {k.addr};
    } else {
      assert t.counted - s.counted == {};
    }
  }

  // ---- When the numbers add up ----

  /** No suspicion, no health check, no cancellation. */
  predicate Calm(s: State, a: Action) {
    a.Move? || a.Exclude? || (a.Suspect? && !a.on)
  }

  predicate Quiet(s: State) {
    !s.suspect && s.health.Off? && s.slips == Slips(0, false, 0) && s.dropped == {}
  }

  /** An address that was finished is counted, and a flagged worker holds a counted address. */
  ghost predicate FlagsTrue(s: State) {
    && s.finished <= s.counted && s.passedOver <= s.counted
    && (forall w, x :: Holds(s, w, x) ==>
          (s.workers[w].counted <==> s.workers[w].point.FastAfter? || s.workers[w].point.RecordAfter?)
          && (s.workers[w].counted <==> x in s.counted))
  }

  ghost predicate AddsUp(s: State) {
    Quiet(s) && FlagsTrue(s)
  }

  /** In calm, the flag of the moving worker stays true to the history. */
  lemma CalmOwnFlag(s: State, proxies: set<string>, w: nat, outcome: Outcome, known: bool)
    requires Inv(s, proxies) && Quiet(s) && FlagsTrue(s) && w in s.workers && s.workers[w].At?
    ensures var k := s.workers[w];
            var (next, e) := Next(s, k, outcome, known);
            && (next.At? ==> (next.counted <==> next.point.FastAfter? || next.point.RecordAfter?))
            && (next.At? ==> (next.counted <==> k.addr in s.counted || (!e.Nothing? && !k.counted)))
            && (next.Idle? ==> k.counted || !e.Nothing?)
  {
    assert Holds(s, w, s.workers[w].addr);
  }

  lemma CalmFlags(s: State, proxies: set<string>, w: nat, outcome: Outcome, known: bool)
    requires Inv(s, proxies) && Quiet(s) && FlagsTrue(s) && w in s.workers && s.workers[w].At?
    ensures FlagsTrue(Moved(s, w, s.workers[w], outcome, known))
  {
    var k := s.workers[w];
    var t := Moved(s, w, k, outcome, known);
    assert Holds(s, w, k.addr);
    CalmOwnFlag(s, proxies, w, outcome, known);
    forall v, x | Holds(t, v, x)
      ensures t.workers[v].counted <==> t.workers[v].point.FastAfter? || t.workers[v].point.RecordAfter?
      ensures t.workers[v].counted <==> x in t.counted
    {
      if v != w {
        assert Holds(s, v, x) && x != k.addr;
      }
    }
  }

  lemma CalmQuiet(s: State, w: nat, outcome: Outcome, known: bool)
    requires AddsUp(s) && w in s.workers && s.workers[w].At?
    ensures Quiet(Moved(s, w, s.workers[w], outcome, known))
  {
    var k := s.workers[w];
    var e := Next(s, k, outcome, known).1;
    assert Holds(s, w, k.addr);
    assert !e.Nothing? ==> !k.counted;
  }

  lemma CalmTake(s: State, proxies: set<string>, w: nat)
    requires Inv(s, proxies) && FlagsTrue(s) && w in s.workers && s.workers[w].Idle? && s.queue != []
    ensures FlagsTrue(Taken(s, w))
  {
    var t := Taken(s, w);
    assert forall v, x :: v != w ==> (Holds(t, v, x) <==> Holds(s, v, x));
    if s.queue[0].Some? {
      assert Queued(s, s.queue[0].value);
    }
  }

  lemma CalmKeeps(s: State, proxies: set<string>, a: Action)
    requires Inv(s, proxies) && AddsUp(s) && Calm(s, a)
    ensures AddsUp(Apply(|proxies|, s, a))
  {
    var t := Apply(|proxies|, s, a);
    if a.Move? {
      var w := a.w;
      if w in s.workers && s.workers[w].At? {
        CalmFlags(s, proxies, w, a.outcome, a.known);
        CalmQuiet(s, w, a.outcome, a.known);
      } else if w in s.workers && s.workers[w].Idle? && s.queue != [] {
        CalmTake(s, proxies, w);
      }
    } else {
      assert forall w, x :: Holds(t, w, x) <==> Holds(s, w, x);
    }
  }

  lemma {:induction false} CalmRunKeeps(s: State, proxies: set<string>, actions: seq<Action>)
    requires Inv(s, proxies) && AddsUp(s) && Guarded(StepFn(|proxies|), Calm, s, actions)
    ensures AddsUp(Run(StepFn(|proxies|), s, actions)) && Inv(Run(StepFn(|proxies|), s, actions), proxies)
    decreases |actions|
  {
    if actions != [] {
      StepKeeps(s, proxies, actions[0]);
      CalmKeeps(s, proxies, actions[0]);
      CalmRunKeeps(Apply(|proxies|, s, actions[0]), proxies, actions[1..]);
    }
  }

  /** In a calm run the count is the number of recorded attempts plus exclusions, and once every
      address is finished it is the total. */
  lemma CalmRunAddsUp(addrs: seq<string>, parallel: nat, excluded: set<string>, actions: seq<Action>)
    requires Distinct(addrs)
    requires var proxies := Members(addrs);
             Guarded(StepFn(|proxies|), Calm, Start(addrs, parallel, false, excluded), actions)
    ensures var proxies := Members(addrs);
            var s := Run(StepFn(|proxies|), Start(addrs, parallel, false, excluded), actions);
            && s.board.checked == s.ctx.ok + s.ctx.fail + |s.passedOver|
            && (s.finished == proxies ==> s.board.checked == |proxies|)
  {
    StartIsGood(addrs, parallel, false, excluded);
    var s0 := Start(addrs, parallel, false, excluded);
    assert forall w, x :: !Holds(s0, w, x);
    CalmRunKeeps(s0, Members(addrs), actions);
    var s := Run(StepFn(|Members(addrs)|), s0, actions);
    if s.finished == Members(addrs) {
      assert s.counted == Members(addrs);
    }
  }

  // ---- And when they do not ----

  /** An address that can no longer be counted. */
  predicate Skipped(s: State, x: string) {
    x !in s.counted && (Through(s, x) || exists w <- s.workers :: Holds(s, w, x) && s.workers[w].counted)
  }

  /** The result of worker w is about to be thrown away uncounted: the health check owns the counters,
      or a full result arrives while the internet is suspect. */
  predicate ThrowsAway(s: State, w: nat) {
    && w in s.workers && s.workers[w].At? && !s.workers[w].counted
    && match s.workers[w].point
       case RecordLock(_) => s.health.Running? || s.suspect
       case ExcludedLock => s.health.Running?
       case FastLock => s.health.Running?
       case _ => false
  }

  /** A worker's move takes the last chance of counting an address exactly when it throws its result
      away; the retry that follows a suspect result never makes up for it. */
  lemma SkippedExactly(s: State, proxies: set<string>, w: nat, outcome: Outcome, known: bool, x: string)
    requires Inv(s, proxies)
    ensures Skipped(Apply(|proxies|, s, Move(w, outcome, known)), x) <==>
      Skipped(s, x) || (Holds(s, w, x) && ThrowsAway(s, w))
  {
    if w in s.workers && s.workers[w].At? {
      SkippedByMove(s, proxies, w, outcome, known, x);
    } else if w in s.workers && s.workers[w].Idle? && s.queue != [] {
      var t := Taken(s, w);
      assert forall v :: v != w ==> (Holds(t, v, x) <==> Holds(s, v, x));
    }
  }

  lemma SkippedByMove(s: State, proxies: set<string>, w: nat, outcome: Outcome, known: bool, x: string)
    requires Inv(s, proxies) && w in s.workers && s.workers[w].At?
    ensures Skipped(Moved(s, w, s.workers[w], outcome, known), x) <==>
      Skipped(s, x) || (Holds(s, w, x) && ThrowsAway(s, w))
  {
    assert Holds(s, w, s.workers[w].addr);
    if x == s.workers[w].addr {
      SkippedOwn(s, proxies, w, outcome, known);
    } else {
      SkippedOther(s, proxies, w, outcome, known, x);
    }
  }

  lemma SkippedOther(s: State, proxies: set<string>, w: nat, outcome: Outcome, known: bool, x: string)
    requires Inv(s, proxies) && w in s.workers && s.workers[w].At? && x != s.workers[w].addr
    ensures Skipped(Moved(s, w, s.workers[w], outcome, known), x) <==> Skipped(s, x)
  {
    var t := Moved(s, w, s.workers[w], outcome, known);
    assert forall v :: Holds(t, v, x) <==> Holds(s, v, x);
    assert forall v :: Holds(s, v, x) ==> v != w && t.workers[v] == s.workers[v];
    assert Through(t, x) <==> Through(s, x);
    assert x in t.counted <==> x in s.counted;
  }

  lemma SkippedOwn(s: State, proxies: set<string>, w: nat, outcome: Outcome, known: bool)
    requires Inv(s, proxies) && w in s.workers && s.workers[w].At?
    ensures Skipped(Moved(s, w, s.workers[w], outcome, known), s.workers[w].addr) <==>
      Skipped(s, s.workers[w].addr) || ThrowsAway(s, w)
  {
    var k := s.workers[w];
    var (next, e) := Next(s, k, outcome, known);
    var t := Moved(s, w, k, outcome, known);
    assert Holds(s, w, k.addr);
    assert forall v :: v != w ==> !Holds(s, v, k.addr) && !Holds(t, v, k.addr);
    assert Through(t, k.addr) <==> next.Idle?;
    assert Holds(t, w, k.addr) <==> next.At?;
    SkippedOne(s, proxies, w, outcome, known);
    assert k.addr in t.counted <==> k.addr in s.counted || (!e.Nothing? && !k.counted);
    assert Skipped(s, k.addr) <==> k.addr !in s.counted && k.counted;
    assert Skipped(t, k.addr) <==> k.addr !in t.counted && (next.Idle? || next.counted);
  }

  lemma SkippedOne(s: State, proxies: set<string>, w: nat, outcome: Outcome, known: bool)
    requires Inv(s, proxies) && w in s.workers && s.workers[w].At?
    ensures var k := s.workers[w];
            var (next, e) := Next(s, k, outcome, known);
            (next.Idle? || next.counted) && (e.Nothing? || k.counted) <==> k.counted || ThrowsAway(s, w)
  {
    assert Holds(s, w, s.workers[w].addr);
  }

  /** The step skips `x`: the worker that holds it throws its result away, or is cancelled before it
      has counted it. */
  predicate Skips(s: State, a: Action, x: string) {
    || (a.Move? && Holds(s, a.w, x) && ThrowsAway(s, a.w))
    || (a.Cancel? && Holds(s, a.w, x) && !s.workers[a.w].counted)
  }

  lemma CancelSkips(s: State, proxies: set<string>, w: nat, x: string)
    requires Inv(s, proxies)
    ensures Skipped(Apply(|proxies|, s, Cancel(w)), x) <==> Skipped(s, x) || Skips(s, Cancel(w), x)
  {
    var t := Apply(|proxies|, s, Cancel(w));
    assert forall v :: v != w ==> (Holds(t, v, x) <==> Holds(s, v, x));
    if Holds(s, w, x) {
      assert Through(t, x) && !Through(s, x);
      assert forall v :: Holds(s, v, x) ==> v == w;
    } else {
      assert Through(t, x) <==> Through(s, x);
    }
  }

  /** Every step: an address is skipped afterwards if and only if it was before or the step skips it. */
  lemma SkipStepExactly(s: State, proxies: set<string>, a: Action, x: string)
    requires Inv(s, proxies)
    ensures Skipped(Apply(|proxies|, s, a), x) <==> Skipped(s, x) || Skips(s, a, x)
  {
    match a {
      case Move(w, outcome, known) => SkippedExactly(s, proxies, w, outcome, known, x);
      case Cancel(w) => CancelSkips(s, proxies, w, x);
      case _ => assert forall v :: Holds(Apply(|proxies|, s, a), v, x) <==> Holds(s, v, x);
    }
  }

  /** Once skipped, an address stays out of the count for the rest of every run. */
  lemma {:induction false} SkippedForever(s: State, proxies: set<string>, actions: seq<Action>, x: string)
    requires Inv(s, proxies) && Skipped(s, x)
    ensures Skipped(Run(StepFn(|proxies|), s, actions), x)
    decreases |actions|
  {
    if actions != [] {
      StepKeeps(s, proxies, actions[0]);
      SkipStepExactly(s, proxies, actions[0], x);
      SkippedForever(Apply(|proxies|, s, actions[0]), proxies, actions[1..], x);
    }
  }

  /** The state in which step `i` of the run is taken. */
  function Before(total: nat, s: State, actions: seq<Action>, i: nat): State
    requires i <= |actions|
  {
    Run(StepFn(total), s, actions[..i])
  }

  predicate SkippedAt(total: nat, s: State, actions: seq<Action>, x: string, i: nat) {
    i < |actions| && Skips(Before(total, s, actions, i), actions[i], x)
  }

  lemma SkippedAtSnoc(total: nat, s: State, actions: seq<Action>, a: Action, x: string, i: nat)
    requires i <= |actions|
    ensures SkippedAt(total, s, actions + [a], x, i) <==>
      if i == |actions| then Skips(Run(StepFn(total), s, actions), a, x) else SkippedAt(total, s, actions, x, i)
  {
    assert (actions + [a])[..i] == actions[..i];
    assert actions[..|actions|] == actions;
  }

  /** Over whole runs: an address ends skipped if and only if some step of the run skipped it. */
  lemma {:induction false} SkippedInRun(s: State, proxies: set<string>, actions: seq<Action>, x: string)
    requires Inv(s, proxies) && !Skipped(s, x)
    ensures Skipped(Run(StepFn(|proxies|), s, actions), x) <==>
      exists i: nat :: SkippedAt(|proxies|, s, actions, x, i)
    decreases |actions|
  {
    if actions != [] {
      var n, init, a := |proxies|, actions[..|actions| - 1], actions[|actions| - 1];
      var s1 := Run(StepFn(n), s, init);
      assert actions == init + [a];
      Snoc(StepFn(n), Calm, s, init, a);
      RunKeeps(s, proxies, init);
      SkippedInRun(s, proxies, init, x);
      SkipStepExactly(s1, proxies, a, x);
      forall i: nat | i <= |init|
        ensures SkippedAt(n, s, actions, x, i) <==>
          if i == |init| then Skips(s1, a, x) else SkippedAt(n, s, init, x, i)
      {
        SkippedAtSnoc(n, s, init, a, x, i);
      }
      assert Skips(s1, a, x) ==> SkippedAt(n, s, actions, x, |init|);
    }
  }

  /** When all addresses are through, what is missing from the count was skipped or lost. */
  lemma CountedOrSkipped(s: State, proxies: set<string>)
    requires Inv(s, proxies) && s.health.Off? && forall x <- proxies :: Through(s, x)
    ensures s.board.checked + s.slips.lost + |proxies - s.counted| == |proxies|
    ensures forall x <- proxies :: Skipped(s, x) <==> x in proxies - s.counted
    ensures !s.slips.mixed ==>
      (s.board.checked == |proxies| <==> s.slips.lost == 0 && forall x <- proxies :: !Skipped(s, x))
  {
    var missed := proxies - s.counted;
    assert proxies == s.counted + missed;
    forall x | x in proxies
      ensures Skipped(s, x) <==> x in missed
    {
      assert forall w :: !Holds(s, w, x);
    }
    if missed != {} {
      var x :| x in missed;
      SubsetSize({x}, missed);
    }
  }

  /** The addresses that some step of the run skipped. */
  ghost function SkippedOf(proxies: set<string>, s: State, actions: seq<Action>): set<string> {
    set x | x in proxies && exists i: nat :: SkippedAt(|proxies|, s, actions, x, i)
  }

  /** At the end of every run, with all addresses through, the count is the total less the addresses
      that a step skipped and the counts that a health check overwrote. So, unless a health check ended
      without restoring, it is the total if and only if no count was overwritten and no step of the run
      threw an uncounted result away or cancelled its worker. */
  lemma FinalCount(addrs: seq<string>, parallel: nat, suspect: bool, excluded: set<string>, actions: seq<Action>)
    requires Distinct(addrs)
    ensures var proxies := Members(addrs);
      var s0 := Start(addrs, parallel, suspect, excluded);
      var s := Run(StepFn(|proxies|), s0, actions);
      s.health.Off? && (forall x <- proxies :: Through(s, x)) ==>
        && s.board.checked + s.slips.lost + |SkippedOf(proxies, s0, actions)| == |proxies|
        && (!s.slips.mixed ==>
              (s.board.checked == |proxies| <==>
                 s.slips.lost == 0
                 && forall x, i: nat :: x in proxies ==> !SkippedAt(|proxies|, s0, actions, x, i)))
  {
    var proxies := Members(addrs);
    var s0 := Start(addrs, parallel, suspect, excluded);
    var s := Run(StepFn(|proxies|), s0, actions);
    StartIsGood(addrs, parallel, suspect, excluded);
    RunKeeps(s0, proxies, actions);
    if s.health.Off? && forall x <- proxies :: Through(s, x) {
      CountedOrSkipped(s, proxies);
      forall x | x in proxies
        ensures Skipped(s, x) <==> x in SkippedOf(proxies, s0, actions)
      {
        assert forall w :: !Holds(s0, w, x);
        SkippedInRun(s0, proxies, actions, x);
      }
      assert SkippedOf(proxies, s0, actions) == proxies - s.counted;
    }
  }

  /** The end of a health check brings back the saved count if the phase is still its own; what was
      counted since the saving is then lost. Otherwise the board stays as the check left it. */
  lemma RestoreLoses(s: State, proxies: set<string>)
    requires Inv(s, proxies) && s.health.Running?
    ensures var t := Apply(|proxies|, s, HealthEnd);
            && t.board.checked == (if s.health.ours then Restored(s.health.saved, |proxies|) else s.board).checked
            && (s.health.ours && !s.slips.mixed ==> t.board.checked == s.health.saved.checked)
            && t.slips.lost == |s.counted| - t.board.checked
            && t.slips.mixed == (s.slips.mixed || !s.health.ours)
  {
    SubsetSize(s.counted, proxies);
  }

  predicate FromHealth(a: Action) {
    a.HealthSave? || a.HealthStart? || a.HealthWrite? || a.PhaseMoves? || a.HealthEnd?
  }

  lemma {:induction false} WindowKeeps(total: nat, s: State, window: seq<Action>)
    requires s.health.Saved? && forall a <- window :: !FromHealth(a)
    ensures var t := Run(StepFn(total), s, window);
            t.health == s.health && t.slips.lost == s.slips.lost && t.slips.mixed == s.slips.mixed
    decreases |window|
  {
    if window != [] {
      var a := window[0];
      assert a in window && forall b <- window[1..] :: b in window;
      OthersAside(total, s, a);
      WindowKeeps(total, Apply(total, s, a), window[1..]);
    }
  }

  lemma OthersAside(total: nat, s: State, a: Action)
    requires !FromHealth(a)
    ensures var t := Apply(total, s, a);
            t.health == s.health && t.slips.lost == s.slips.lost && t.slips.mixed == s.slips.mixed
  {
  }

  /** A health check that starts with candidates and keeps its phase costs exactly what was counted
      between its saving and its start, whatever happened there; without candidates it costs nothing.
      So a count is lost if and only if there were candidates and something was counted. */
  lemma HealthWindowLoses(s: State, proxies: set<string>, window: seq<Action>, candidates: bool)
    requires Inv(s, proxies) && s.health.Off? && forall a <- window :: !FromHealth(a)
    ensures var n := |proxies|;
            var saved := Apply(n, s, HealthSave);
            var counted := Run(StepFn(n), saved, window);
            var t := Apply(n, Apply(n, counted, HealthStart(candidates)), HealthEnd);
            && t.board.checked == (if candidates then Restored(s.board, n) else counted.board).checked
            && (!s.slips.mixed ==>
                  && t.slips.lost - s.slips.lost == (if candidates then |counted.counted| - |s.counted| else 0)
                  && (t.slips.lost != s.slips.lost <==> candidates && |counted.counted| != |s.counted|))
  {
    var n := |proxies|;
    var saved := Apply(n, s, HealthSave);
    var counted := Run(StepFn(n), saved, window);
    StepKeeps(s, proxies, HealthSave);
    RunKeeps(saved, proxies, window);
    WindowKeeps(n, saved, window);
    StepKeeps(counted, proxies, HealthStart(candidates));
    if candidates {
      RestoreLoses(Apply(n, counted, HealthStart(candidates)), proxies);
    }
  }

  /** While a health check runs the phase can be taken from it: by resuming the hunt that the check
      paused and pausing it again, or by stopping the hunt. The numbers of the check then stay on the
      board of the validation, where they can pass its total. */
  lemma PhaseTakenMixes(addrs: seq<string>, parallel: nat, suspect: bool, excluded: set<string>, extra: nat)
    returns (actions: seq<Action>)
    requires Distinct(addrs) && addrs != []
    ensures var total := |Members(addrs)|;
      var t := Run(StepFn(total), Start(addrs, parallel, suspect, excluded), actions);
      && t.health.Off? && t.counted == {} && t.slips.mixed
      && t.board.checked == total + 1 + extra > total > 0
  {
    var n := |Members(addrs)|;
    assert addrs[0] in Members(addrs);
    var b := Board(n + 1 + extra, 0, 0, 0, 0);
    var s0 := Start(addrs, parallel, suspect, excluded);
    var s1 := Apply(n, s0, HealthSave);
    var s2 := Apply(n, s1, HealthStart(true));
    var s3 := Apply(n, s2, HealthWrite(b));
    var s4 := Apply(n, s3, PhaseMoves(false));
    var s5 := Apply(n, s4, HealthEnd);
    assert s3.board == b && s4.health == Running(s0.board, false) && s5.board == b;
    actions := [HealthSave, HealthStart(true), HealthWrite(b), PhaseMoves(false), HealthEnd];
    Five(StepFn(n), Unguarded(), s0, s1, s2, s3, s4, s5,
      HealthSave, HealthStart(true), HealthWrite(b), PhaseMoves(false), HealthEnd);
  }

  function Unguarded(): (State, Action) -> bool {
    (s, a) => true
  }

  ghost predicate Reaches(total: nat, s: State, t: State) {
    exists actions :: Run(StepFn(total), s, actions) == t
  }

  lemma Onward(total: nat, s: State, t: State, a: Action)
    requires Reaches(total, s, t)
    ensures Reaches(total, s, Apply(total, t, a))
  {
    var actions :| Run(StepFn(total), s, actions) == t;
    Snoc(StepFn(total), Calm, s, actions, a);
  }

  /** The only worker makes its next move. */
  lemma Next0(s: State, t: State, outcome: Outcome) returns (u: State)
    requires Reaches(1, s, t) && 0 in t.workers && t.workers[0].At?
    ensures Reaches(1, s, u) && u == Moved(t, 0, t.workers[0], outcome, false)
  {
    u := Apply(1, t, Move(0, outcome, false));
    Onward(1, s, t, Move(0, outcome, false));
  }

  lemma FirstCheck(x: string) returns (s: State, t: State)
    ensures s == Start([x], 1, false, {}) && Reaches(1, s, t)
    ensures 0 in t.workers && t.workers[0] == At(x, Checking, false)
    ensures t.health.Off? && !t.suspect && t.excluded == {} && t.ctx.ok == t.ctx.fail == 0 && t.counted == {}
  {
    s := Start([x], 1, false, {});
    assert Run(StepFn(1), s, []) == s;
    Onward(1, s, s, Move(0, Fine, false));
    t := Apply(1, s, Move(0, Fine, false));
    assert s.queue[0] == Some(x) && t == Taken(s, 0);
    t := Next0(s, t, Fine);
    t := Next0(s, t, Fine);
  }

  /** Successes and failures together pass the number of counted addresses exactly when more was
      recorded again than was passed over, in every reachable state. */
  lemma AttemptsExceedExactly(
    addrs: seq<string>, parallel: nat, suspect: bool, excluded: set<string>, actions: seq<Action>)
    requires Distinct(addrs)
    ensures var s := Run(StepFn(|Members(addrs)|), Start(addrs, parallel, suspect, excluded), actions);
            && s.ctx.ok + s.ctx.fail + |s.passedOver| == |s.counted| + s.slips.again
            && (s.ctx.ok + s.ctx.fail > |s.counted| <==> s.slips.again > |s.passedOver|)
  {
    EachAddressOnce(addrs, parallel, suspect, excluded, actions);
  }

  /** A fast failure that suspicion sends back to the start. */
  lemma FailedOnce(x: string) returns (s: State, t: State)
    ensures s == Start([x], 1, false, {}) && Reaches(1, s, t)
    ensures 0 in t.workers && t.workers[0] == At(x, Top, true)
    ensures t.health.Off? && !t.suspect && t.excluded == {} && t.ctx.ok == 0 && t.ctx.fail == 1 && t.counted == {x}
  {
    s, t := FirstCheck(x);
    t := Next0(s, t, FastFail);
    t := Next0(s, t, FastFail);
    assert t.counted == {x} && t.ctx.fail == 1;
    Onward(1, s, t, Suspect(true));
    t := Apply(1, t, Suspect(true));
    t := Next0(s, t, Fine);
    t := Next0(s, t, Fine);
    Onward(1, s, t, Suspect(false));
    t := Apply(1, t, Suspect(false));
  }

  /** So one address can fail fast, be retried after the suspicion and succeed, and then the two
      counters together exceed the total. */
  lemma AttemptsCanExceedTotal(x: string) returns (s: State, t: State)
    ensures s == Start([x], 1, false, {}) && Reaches(1, s, t)
    ensures t.ctx.ok + t.ctx.fail == 2 && t.counted == {x}
  {
    s, t := FailedOnce(x);
    t := Next0(s, t, Fine);
    t := Next0(s, t, Fine);
    t := Next0(s, t, Fine);
    t := Next0(s, t, Fine);
  }

  /** A result that arrives while the internet is suspect is thrown away, yet the address is marked as
      counted: it is skipped for good. */
  lemma SuspicionSkips(x: string) returns (s: State, t: State)
    ensures s == Start([x], 1, false, {}) && Reaches(1, s, t) && Skipped(t, x)
  {
    s, t := FirstCheck(x);
    t := Next0(s, t, Fine);
    Onward(1, s, t, Suspect(true));
    t := Apply(1, t, Suspect(true));
    t := Next0(s, t, Fine);
    assert Holds(t, 0, x) && t.workers[0].counted;
  }

  // ---- The critical sections ----

  class SharedCounters {
    var checked: nat
    var working: nat
    var newWorking: nat
    var confirmedWorking: nat
    var failed: nat
    var okCount: nat
    var failCount: nat
    var newCount: nat
    var confirmedCount: nat

    function Shown(): Board
      reads this
    {
      Board(checked, working, newWorking, confirmedWorking, failed)
    }

    function OfRun(): Ctx
      reads this
    {
      Ctx(okCount, failCount, newCount, confirmedCount)
    }

    method HandleBlacklisted(counted: bool, healthRunning: bool)
      modifies this
      ensures var e := if healthRunning then Nothing else Excluded;
              Shown() == NextBoard(old(Shown()), old(OfRun()), e, counted) && OfRun() == NextCtx(old(OfRun()), e)
      ensures checked == old(checked) + if healthRunning || counted then 0 else 1
    {
      if healthRunning {
        return;
      }
      if !counted {
        checked := checked + 1;
      }
    }

    method HandleFastFail(counted: bool, healthRunning: bool) returns (stop: bool)
      modifies this
      ensures stop == healthRunning
      ensures var e := if healthRunning then Nothing else Failed;
              Shown() == NextBoard(old(Shown()), old(OfRun()), e, counted) && OfRun() == NextCtx(old(OfRun()), e)
      ensures checked == old(checked) + if healthRunning || counted then 0 else 1
      ensures if healthRunning then failCount == old(failCount) && failed == old(failed)
        else failCount == old(failCount) + 1 == failed
    {
      if healthRunning {
        return true;
      }
      if !counted {
        checked := checked + 1;
      }
      failCount := failCount + 1;
      failed := failCount;
      return false;
    }

    method RecordCheckResult(ok: bool, known: bool, counted: bool, healthRunning: bool, suspect: bool)
      returns (stop: bool)
      modifies this
      ensures stop == healthRunning
      ensures var e := if healthRunning || suspect then Nothing else if ok then Succeeded(known) else Failed;
              Shown() == NextBoard(old(Shown()), old(OfRun()), e, counted) && OfRun() == NextCtx(old(OfRun()), e)
      ensures checked == old(checked) + if healthRunning || suspect || counted then 0 else 1
      ensures !healthRunning && !suspect && ok ==> okCount == old(okCount) + 1 == working
      ensures !healthRunning && !suspect && ok && known ==>
        confirmedCount == old(confirmedCount) + 1 == confirmedWorking
      ensures !healthRunning && !suspect && ok && !known ==> newCount == old(newCount) + 1 == newWorking
      ensures !healthRunning && !suspect && !ok ==> failCount == old(failCount) + 1 == failed
    {
      if healthRunning {
        return true;
      }
      if suspect {
        return false;
      }
      if !counted {
        checked := checked + 1;
      }
      if ok {
        okCount := okCount + 1;
        working := okCount;
        if known {
          confirmedCount := confirmedCount + 1;
          confirmedWorking := confirmedCount;
        } else {
          newCount := newCount + 1;
          newWorking := newCount;
        }
      } else {
        failCount := failCount + 1;
        failed := failCount;
      }
      return false;
    }
  }
}

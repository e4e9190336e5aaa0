// Routing tables, their writers, and the time-limited route cache in front of them.
// Models the domain-list mutators, _route_cache_get/_build/_invalidate and _resolve_route of
// hunt/routing.py, and the table writes of hunt/blocklists.py that do not invalidate the cache.

module RouteCache {
  import opened Wrappers
  import opened PyText
  import opened RouteIndex
  import opened Runs

  datatype Row = Row(id: string, route: string, enabled: bool, priority: int, patterns: seq<string>)

  datatype Tables = Tables(enabled: bool, default: string, rows: seq<Row>)

  datatype Runner = NoRunner | Runner(direct: bool, active: string)

  // ---- Reading ----

  /** Stable insertion: a row goes before the rows of greater or equal priority that follow it. */
  function InsertByPriority(r: Row, rows: seq<Row>): seq<Row> {
    if rows == [] || r.priority <= rows[0].priority then [r] + rows
    else [rows[0]] + InsertByPriority(r, rows[1..])
  }

  /** The enabled rows with a route, by ascending priority, ties in table order. */
  function ActiveLists(rows: seq<Row>): seq<Row> {
    if rows == [] then []
    else if rows[0].enabled && rows[0].route != "" then InsertByPriority(rows[0], ActiveLists(rows[1..]))
    else ActiveLists(rows[1..])
  }

  function AsLists(rows: seq<Row>): seq<DomainList> {
    seq(|rows|, i requires 0 <= i < |rows| => DomainList(rows[i].route, rows[i].patterns))
  }

  /** Without routing the runner decides. */
  function Unrouted(runner: Runner): string {
    if runner.NoRunner? then "pool"
    else if runner.direct then "direct"
    else if runner.active != "" then "proxy:" + runner.active
    else "pool"
  }

  /** A fresh evaluation of the tables, pattern by pattern. */
  function Evaluate(t: Tables, host: string, runner: Runner): string {
    if t.enabled then Scan(host, AsLists(ActiveLists(t.rows)), t.default) else Unrouted(runner)
  }

  // ---- Writing ----

  /** Patterns as stored: stripped, lowercase, blanks and repetitions dropped. */
  function Clean(patterns: seq<string>): seq<string> {
    if patterns == [] then []
    else
      var init := Clean(patterns[..|patterns| - 1]);
      var p := Lower(Strip(patterns[|patterns| - 1]));
      if p == "" || p in init then init else init + [p]
  }

  predicate HasRow(rows: seq<Row>, id: string) {
    exists i :: 0 <= i < |rows| && rows[i].id == id
  }

  function MaxPriority(rows: seq<Row>): int {
    if rows == [] then -1
    else if rows[0].priority > MaxPriority(rows[1..]) then rows[0].priority else MaxPriority(rows[1..])
  }

  /** Changing the rows with the given id. */
  function Alter(rows: seq<Row>, id: string, f: Row -> Row): seq<Row> {
    if rows == [] then []
    else [if rows[0].id == id then f(rows[0]) else rows[0]] + Alter(rows[1..], id, f)
  }

  function Drop(rows: seq<Row>, id: string): seq<Row> {
    if rows == [] then []
    else if rows[0].id == id then Drop(rows[1..], id)
    else [rows[0]] + Drop(rows[1..], id)
  }

  function Reprioritise(rows: seq<Row>, order: seq<string>, from: nat): seq<Row>
    decreases |order|
  {
    if order == [] then rows
    else Reprioritise(Alter(rows, order[0], (r: Row) => r.(priority := from)), order[1..], from + 1)
  }

  datatype Settings = Settings(route: string, enabled: bool)

  /** The mutators of hunt/routing.py. */
  datatype Mutator =
    | Enable
    | Disable
    | SetDefault(route: string)
    | Create(id: string, route: string, enabled: bool, patterns: seq<string>)
    | Update(id: string, settings: Option<Settings>, replacement: Option<seq<string>>)
    | Delete(id: string)
    | Toggle(id: string)
    | Reorder(order: seq<string>)

  function Changed(r: Row, settings: Option<Settings>, patterns: Option<seq<string>>): Row {
    var r1 := if settings.Some? then r.(route := settings.value.route, enabled := settings.value.enabled) else r;
    if patterns.Some? then r1.(patterns := Clean(patterns.value)) else r1
  }

  /** A refused mutation (taken id, unknown id) changes nothing. */
  function Mutate(t: Tables, m: Mutator): Tables {
    match m
    case Enable => t.(enabled := true)
    case Disable => t.(enabled := false)
    case SetDefault(route) => t.(default := route)
    case Create(id, route, enabled, patterns) =>
      if HasRow(t.rows, id) then t
      else t.(rows := t.rows + [Row(id, route, enabled, MaxPriority(t.rows) + 1, Clean(patterns))])
    case Update(id, settings, patterns) =>
      t.(rows := Alter(t.rows, id, (r: Row) => Changed(r, settings, patterns)))
    case Delete(id) => t.(rows := Drop(t.rows, id))
    case Toggle(id) => t.(rows := Alter(t.rows, id, (r: Row) => r.(enabled := !r.enabled)))
    case Reorder(order) => t.(rows := Reprioritise(t.rows, order, 0))
  }

  /** Whether the mutator reached its commit, after which it drops the cache. */
  predicate Commits(t: Tables, m: Mutator) {
    match m
    case Create(id, _, _, _) => !HasRow(t.rows, id)
    case Update(id, _, _) => HasRow(t.rows, id)
    case Toggle(id) => HasRow(t.rows, id)
    case _ => true
  }

  /** Blocklist writes: a download replaces or appends a list; deleting a source removes its patterns,
      and the list too if it is marked as a blocklist, which `owned` says.
      `lines` are the lines of a download as the line parser has cleaned them. */
  datatype Bypass =
    | Download(id: string, route: string, lines: seq<string>)
    | DropSource(id: string, owned: bool)

  /** A cleaned line is a pattern if it has a dot, and only the first time. */
  function Yielded(lines: seq<string>): seq<string> {
    if lines == [] then []
    else
      var init, line := Yielded(lines[..|lines| - 1]), lines[|lines| - 1];
      if '.' in line && line !in init then init + [line] else init
  }

  function WriteBypass(t: Tables, b: Bypass): Tables {
    match b
    case Download(id, route, lines) =>
      var domains := Yielded(lines);
      if domains == [] then t
      else if HasRow(t.rows, id)
      then t.(rows := Alter(t.rows, id, (r: Row) => r.(route := route, patterns := domains)))
      else t.(rows := t.rows + [Row(id, route, true, MaxPriority(t.rows) + 1, domains)])
    case DropSource(id, owned) =>
      t.(rows := if owned then Drop(t.rows, id) else Alter(t.rows, id, (r: Row) => r.(patterns := [])))
  }

  // ---- No blank pattern is ever stored ----

  predicate Sound(t: Tables) {
    forall r <- t.rows :: forall p <- r.patterns :: !IsBlank(p)
  }

  lemma {:induction false} StripKeeps(s: string, c: char)
    requires c in s && !IsSpace(c)
    ensures c in StripLeft(s) && c in StripRight(s)
    decreases |s|
  {
    if IsSpace(s[0]) {
      StripKeeps(s[1..], c);
    }
    if IsSpace(s[|s| - 1]) {
      assert c in s[..|s| - 1];
      StripKeeps(s[..|s| - 1], c);
    }
  }

  lemma NotBlankBecauseOf(p: string, i: nat)
    requires i < |p| && !IsSpace(p[i])
    ensures !IsBlank(p)
  {
    var l := Lower(p);
    StripKeeps(l, l[i]);
    StripKeeps(StripLeft(l), l[i]);
  }

  lemma {:induction false} StripLeftStops(s: string)
    ensures StripLeft(s) != "" ==> !IsSpace(StripLeft(s)[0])
  {
    if s != "" && IsSpace(s[0]) {
      StripLeftStops(s[1..]);
    }
  }

  lemma {:induction false} CleanIsSound(patterns: seq<string>)
    ensures forall p <- Clean(patterns) :: !IsBlank(p)
    decreases |patterns|
  {
    if patterns != [] {
      CleanIsSound(patterns[..|patterns| - 1]);
      var raw := StripLeft(patterns[|patterns| - 1]);
      StripLeftStops(patterns[|patterns| - 1]);
      if raw != "" {
        StripRightKeepsFirst(raw);
        NotBlankBecauseOf(Lower(StripRight(raw)), 0);
      }
    }
  }

  lemma {:induction false} StripRightKeepsFirst(s: string)
    requires s != "" && !IsSpace(s[0])
    ensures StripRight(s) != "" && StripRight(s)[0] == s[0]
    decreases |s|
  {
    if IsSpace(s[|s| - 1]) {
      StripRightKeepsFirst(s[..|s| - 1]);
    }
  }

  lemma {:induction false} AlterSound(rows: seq<Row>, id: string, f: Row -> Row)
    requires forall r <- rows :: forall p <- r.patterns :: !IsBlank(p)
    requires forall r <- rows :: forall p <- f(r).patterns :: !IsBlank(p)
    ensures forall r <- Alter(rows, id, f) :: forall p <- r.patterns :: !IsBlank(p)
  {
    if rows != [] {
      AlterSound(rows[1..], id, f);
    }
  }

  lemma {:induction false} DropSound(rows: seq<Row>, id: string)
    ensures forall r <- Drop(rows, id) :: r in rows
  {
    if rows != [] {
      DropSound(rows[1..], id);
    }
  }

  lemma {:induction false} ReprioritiseSound(rows: seq<Row>, order: seq<string>, from: nat)
    requires forall r <- rows :: forall p <- r.patterns :: !IsBlank(p)
    ensures forall r <- Reprioritise(rows, order, from) :: forall p <- r.patterns :: !IsBlank(p)
    decreases |order|
  {
    if order != [] {
      var f := (r: Row) => r.(priority := from);
      AlterSound(rows, order[0], f);
      ReprioritiseSound(Alter(rows, order[0], f), order[1..], from + 1);
    }
  }

  lemma MutateSound(t: Tables, m: Mutator)
    requires Sound(t)
    ensures Sound(Mutate(t, m))
  {
    match m
    case Create(_, _, _, patterns) => CleanIsSound(patterns);
    case Update(id, settings, patterns) =>
      if patterns.Some? {
        CleanIsSound(patterns.value);
      }
      AlterSound(t.rows, id, (r: Row) => Changed(r, settings, patterns));
    case Delete(id) => DropSound(t.rows, id);
    case Toggle(id) => AlterSound(t.rows, id, (r: Row) => r.(enabled := !r.enabled));
    case Reorder(order) => ReprioritiseSound(t.rows, order, 0);
    case _ =>
  }

  lemma {:induction false} YieldedHaveDots(lines: seq<string>)
    ensures forall d <- Yielded(lines) :: '.' in d
  {
    if lines != [] {
      YieldedHaveDots(lines[..|lines| - 1]);
    }
  }

  lemma BypassSound(t: Tables, b: Bypass)
    requires Sound(t)
    ensures Sound(WriteBypass(t, b))
  {
    match b
    case Download(id, route, lines) =>
      var domains := Yielded(lines);
      YieldedHaveDots(lines);
      forall d | d in domains ensures !IsBlank(d) {
        var i :| 0 <= i < |d| && d[i] == '.';
        NotBlankBecauseOf(d, i);
      }
      AlterSound(t.rows, id, (r: Row) => r.(route := route, patterns := domains));
    case DropSource(id, owned) =>
      DropSound(t.rows, id);
      AlterSound(t.rows, id, (r: Row) => r.(patterns := []));
  }

  lemma {:induction false} ActiveRowsAreRows(rows: seq<Row>)
    ensures forall r <- ActiveLists(rows) :: r in rows && r.enabled && r.route != ""
  {
    if rows != [] {
      ActiveRowsAreRows(rows[1..]);
      InsertMembers(rows[0], ActiveLists(rows[1..]));
    }
  }

  lemma {:induction false} InsertMembers(r: Row, rows: seq<Row>)
    ensures forall x :: x in InsertByPriority(r, rows) <==> x == r || x in rows
  {
    if rows != [] && r.priority > rows[0].priority {
      InsertMembers(r, rows[1..]);
    }
  }

  lemma SoundHasNoBlanks(t: Tables)
    requires Sound(t)
    ensures NoBlanks(AsLists(ActiveLists(t.rows)))
  {
    ActiveRowsAreRows(t.rows);
    var rows := ActiveLists(t.rows);
    forall l, p | l in AsLists(rows) && p in l.patterns
      ensures !IsBlank(p)
    {
      var i :| 0 <= i < |rows| && l == DomainList(rows[i].route, rows[i].patterns);
      assert rows[i] in t.rows;
    }
  }

  predicate Sorted(rows: seq<Row>) {
    forall i, j :: 0 <= i < j < |rows| ==> rows[i].priority <= rows[j].priority
  }

  /** Active lists come in ascending priority. */
  lemma {:induction false} ActiveSorted(rows: seq<Row>)
    ensures Sorted(ActiveLists(rows))
  {
    if rows != [] {
      ActiveSorted(rows[1..]);
      InsertSorted(rows[0], ActiveLists(rows[1..]));
    }
  }

  lemma {:induction false} InsertSorted(r: Row, rows: seq<Row>)
    requires Sorted(rows)
    ensures Sorted(InsertByPriority(r, rows))
  {
    if rows != [] && r.priority > rows[0].priority {
      var rest := InsertByPriority(r, rows[1..]);
      InsertSorted(r, rows[1..]);
      forall j | 0 <= j < |rest|
        ensures rows[0].priority <= rest[j].priority
      {
        InsertMembers(r, rows[1..]);
        assert rest[j] in rest;
        if rest[j] != r {
          var k :| 0 <= k < |rows| - 1 && rows[1..][k] == rest[j];
        }
      }
      assert InsertByPriority(r, rows) == [rows[0]] + rest;
    }
  }

  // ---- What the mutators mean for routing ----

  lemma {:induction false} MaxIsMax(rows: seq<Row>)
    ensures forall r <- rows :: r.priority <= MaxPriority(rows)
  {
    if rows != [] {
      MaxIsMax(rows[1..]);
      assert forall r <- rows :: r == rows[0] || r in rows[1..];
    }
  }

  lemma {:induction false} InsertBefore(r: Row, rows: seq<Row>, last: Row)
    requires r.priority <= last.priority
    ensures InsertByPriority(r, rows + [last]) == InsertByPriority(r, rows) + [last]
  {
    if rows != [] && r.priority > rows[0].priority {
      assert (rows + [last])[1..] == rows[1..] + [last];
      InsertBefore(r, rows[1..], last);
    } else if rows == [] {
      assert [] + [last] == [last];
    }
  }

  lemma {:induction false} ActiveSnoc(rows: seq<Row>, last: Row)
    requires forall r <- rows :: r.priority <= last.priority
    ensures ActiveLists(rows + [last]) ==
      ActiveLists(rows) + if last.enabled && last.route != "" then [last] else []
  {
    if rows == [] {
      assert rows + [last] == [last] && [last][1..] == [] && ActiveLists([]) == [];
      assert InsertByPriority(last, []) == [last];
    } else {
      assert (rows + [last])[1..] == rows[1..] + [last] && (rows + [last])[0] == rows[0];
      assert rows[0] in rows;
      ActiveSnoc(rows[1..], last);
      InsertBefore(rows[0], ActiveLists(rows[1..]), last);
      assert ActiveLists(rows) + [] == ActiveLists(rows) && ActiveLists(rows[1..]) + [] == ActiveLists(rows[1..]);
    }
  }

  lemma {:induction false} ScanSnoc(host: string, lists: seq<DomainList>, last: DomainList, default: string)
    ensures Scan(host, lists + [last], default) ==
      Scan(host, lists, if ListMatches(host, last.patterns) then last.route else default)
  {
    if lists == [] {
      assert ([] + [last])[1..] == [];
    } else {
      assert (lists + [last])[1..] == lists[1..] + [last];
      ScanSnoc(host, lists[1..], last, default);
    }
  }

  /** A new list is asked last: it takes over exactly the hosts that would have had the default route. */
  lemma CreateGoesLast(t: Tables, id: string, route: string, patterns: seq<string>, host: string, runner: Runner)
    requires t.enabled && !HasRow(t.rows, id) && route != ""
    ensures Evaluate(Mutate(t, Create(id, route, true, patterns)), host, runner) ==
      Scan(host, AsLists(ActiveLists(t.rows)), if ListMatches(host, Clean(patterns)) then route else t.default)
  {
    var last := Row(id, route, true, MaxPriority(t.rows) + 1, Clean(patterns));
    MaxIsMax(t.rows);
    ActiveSnoc(t.rows, last);
    var active := ActiveLists(t.rows);
    assert AsLists(active + [last]) == AsLists(active) + [DomainList(route, Clean(patterns))];
    ScanSnoc(host, AsLists(active), DomainList(route, Clean(patterns)), t.default);
  }

  /** Toggling twice gives back the tables. */
  lemma {:induction false} ToggleTwice(rows: seq<Row>, id: string)
    ensures var f := (r: Row) => r.(enabled := !r.enabled); Alter(Alter(rows, id, f), id, f) == rows
  {
    if rows != [] {
      ToggleTwice(rows[1..], id);
      var f := (r: Row) => r.(enabled := !r.enabled);
      assert Alter(rows, id, f)[1..] == Alter(rows[1..], id, f);
    }
  }

  lemma {:induction false} AlterAt(rows: seq<Row>, id: string, f: Row -> Row)
    ensures |Alter(rows, id, f)| == |rows|
    ensures forall i :: 0 <= i < |rows| ==> Alter(rows, id, f)[i] == if rows[i].id == id then f(rows[i]) else rows[i]
  {
    if rows != [] {
      AlterAt(rows[1..], id, f);
    }
  }

  /** The last mention of an id. */
  predicate LastAt(order: seq<string>, k: nat, id: string) {
    k < |order| && order[k] == id && id !in order[k + 1..]
  }

  lemma LastAtTail(order: seq<string>, k: nat, id: string)
    requires 1 <= k && order != []
    ensures LastAt(order, k, id) <==> LastAt(order[1..], k - 1, id)
  {
    if k < |order| {
      assert order[1..][k..] == order[k + 1..] && order[1..][k - 1] == order[k];
    }
  }

  /** Reordering gives every named list its last place in the order as its priority and changes nothing
      else. */
  lemma {:induction false} ReorderIsObeyed(rows: seq<Row>, order: seq<string>, from: nat, i: nat)
    requires i < |rows|
    ensures var after := Reprioritise(rows, order, from);
            && |after| == |rows| && after[i] == rows[i].(priority := after[i].priority)
            && (forall k: nat :: LastAt(order, k, rows[i].id) ==> after[i].priority == from + k)
            && (rows[i].id !in order ==> after[i] == rows[i])
    decreases |order|
  {
    if order != [] {
      var f := (r: Row) => r.(priority := from);
      AlterAt(rows, order[0], f);
      ReorderIsObeyed(Alter(rows, order[0], f), order[1..], from + 1, i);
      forall k: nat | 1 <= k && LastAt(order, k, rows[i].id)
        ensures LastAt(order[1..], k - 1, rows[i].id)
      {
        LastAtTail(order, k, rows[i].id);
      }
    }
  }

  // ---- The cache over time ----

  const TTL := 30.0

  /** The tables from one moment until the next entry of the log. */
  datatype Version = Version(since: real, tables: Tables)

  /** `cache` is the tables the cache was compiled from; `bypassed` remembers a write that did not
      invalidate it. */
  datatype State = State(
    tables: Tables,
    cache: Option<Tables>,
    builtAt: real,
    now: real,
    log: seq<Version>,
    bypassed: bool)

  datatype Action =
    | Advance(dt: real)
    | Change(mutator: Mutator)
    | ChangeBehind(bypass: Bypass)
    | Resolve

  function Boot(t: Tables, now: real): State {
    State(t, None, 0.0, now, [Version(now, t)], false)
  }

  predicate NeedsBuild(s: State) {
    s.cache.None? || s.now - s.builtAt >= TTL
  }

  /** The tables that answer the next resolution. */
  function Answering(s: State): Tables {
    if NeedsBuild(s) then s.tables else s.cache.value
  }

  function Apply(s: State, a: Action): State {
    match a
    case Advance(dt) => if dt < 0.0 then s else s.(now := s.now + dt)
    case Change(m) =>
      var t := Mutate(s.tables, m);
      if Commits(s.tables, m)
      then s.(tables := t, cache := None, bypassed := false, log := s.log + [Version(s.now, t)])
      else s
    case ChangeBehind(b) =>
      var t := WriteBypass(s.tables, b);
      s.(tables := t, bypassed := true, log := s.log + [Version(s.now, t)])
    case Resolve =>
      if NeedsBuild(s) then s.(cache := Some(s.tables), builtAt := s.now, bypassed := false) else s
  }

  /** Version `i` of the log is how the tables stood at time `u`. */
  predicate StoodAt(log: seq<Version>, i: nat, u: real) {
    i < |log| && log[i].since <= u && (i + 1 < |log| ==> u <= log[i + 1].since)
  }

  ghost predicate CacheInv(s: State) {
    && s.log != []
    && s.log[|s.log| - 1].tables == s.tables && s.log[|s.log| - 1].since <= s.now
    && (s.cache.Some? ==>
          && s.builtAt <= s.now
          && (exists i: nat :: StoodAt(s.log, i, s.builtAt) && s.log[i].tables == s.cache.value)
          && (!s.bypassed ==> s.cache.value == s.tables))
  }

  lemma StepKeeps(s: State, a: Action)
    requires CacheInv(s)
    ensures CacheInv(Apply(s, a))
  {
    var s' := Apply(s, a);
    if s'.cache.Some? {
      if a.Resolve? && NeedsBuild(s) {
        assert StoodAt(s'.log, |s.log| - 1, s'.builtAt);
      } else {
        var i: nat :| StoodAt(s.log, i, s.builtAt) && s.log[i].tables == s.cache.value;
        assert StoodAt(s'.log, i, s'.builtAt) && s'.log[i] == s.log[i];
      }
    }
  }

  lemma {:induction false} RunKeeps(s: State, actions: seq<Action>)
    requires CacheInv(s)
    ensures CacheInv(Run(Apply, s, actions))
    decreases |actions|
  {
    if actions != [] {
      StepKeeps(s, actions[0]);
      RunKeeps(Apply(s, actions[0]), actions[1..]);
    }
  }

  /** Whatever was written, and however: a resolution at time t equals the evaluation of the tables
      as they stood at some time after t - 30 and not after t. */
  lemma BoundedStaleness(t: Tables, start: real, actions: seq<Action>, host: string, runner: Runner)
    returns (i: nat, u: real)
    ensures var s := Run(Apply, Boot(t, start), actions);
            && s.now - TTL < u <= s.now && StoodAt(s.log, i, u)
            && Evaluate(Answering(s), host, runner) == Evaluate(s.log[i].tables, host, runner)
  {
    var s := Run(Apply, Boot(t, start), actions);
    RunKeeps(Boot(t, start), actions);
    if NeedsBuild(s) {
      i, u := |s.log| - 1, s.now;
    } else {
      u := s.builtAt;
      i :| StoodAt(s.log, i, u) && s.log[i].tables == s.cache.value;
    }
  }

  function ByMutators(): (State, Action) -> bool {
    (s: State, a: Action) => !a.ChangeBehind?
  }

  lemma {:induction false} MutatorRunKeeps(s: State, actions: seq<Action>)
    requires CacheInv(s) && !s.bypassed && Guarded(Apply, ByMutators(), s, actions)
    ensures CacheInv(Run(Apply, s, actions)) && !Run(Apply, s, actions).bypassed
    decreases |actions|
  {
    if actions != [] {
      StepKeeps(s, actions[0]);
      MutatorRunKeeps(Apply(s, actions[0]), actions[1..]);
    }
  }

  /** After any history of the routing mutators the next resolution is a fresh evaluation, at any
      time; and a single mutator that commits makes up for every write that bypassed the cache. */
  lemma FreshAfterMutators(t: Tables, start: real, actions: seq<Action>)
    requires Guarded(Apply, ByMutators(), Boot(t, start), actions)
    ensures var s := Run(Apply, Boot(t, start), actions); Answering(s) == s.tables
  {
    MutatorRunKeeps(Boot(t, start), actions);
  }

  lemma MutatorRefreshes(s: State, m: Mutator, later: seq<Action>)
    requires CacheInv(s) && Commits(s.tables, m)
    requires Guarded(Apply, ByMutators(), Apply(s, Change(m)), later)
    ensures var s' := Run(Apply, Apply(s, Change(m)), later); Answering(s') == s'.tables
  {
    StepKeeps(s, Change(m));
    MutatorRunKeeps(Apply(s, Change(m)), later);
  }

  /** A refused mutator leaves the tables as they were, so keeping the cache then is right. */
  lemma RefusedChangesNothing(t: Tables, m: Mutator)
    requires !Commits(t, m)
    ensures Mutate(t, m) == t
  {
    match m
    case Update(id, settings, replacement) => AlterNobody(t.rows, id, (r: Row) => Changed(r, settings, replacement));
    case Toggle(id) => AlterNobody(t.rows, id, (r: Row) => r.(enabled := !r.enabled));
    case _ =>
  }

  lemma {:induction false} AlterNobody(rows: seq<Row>, id: string, f: Row -> Row)
    requires !HasRow(rows, id)
    ensures Alter(rows, id, f) == rows
  {
    if rows != [] {
      assert forall i :: 0 <= i < |rows| - 1 ==> rows[1..][i] == rows[i + 1];
      AlterNobody(rows[1..], id, f);
    }
  }

  // ---- The object behind every proxied connection ----

  class Router {
    var tables: Tables
    var cached: bool
    var enabled: bool
    var default: string
    var lists: seq<Compiled>
    var builtAt: real
    ghost var builtFrom: Tables

    ghost predicate Valid()
      reads this
    {
      && Sound(tables)
      && (cached ==>
            && Sound(builtFrom) && enabled == builtFrom.enabled && default == builtFrom.default
            && (enabled ==> CompilesAll(lists, AsLists(ActiveLists(builtFrom.rows)))))
    }

    /** The state of the run this object is in. */
    ghost predicate Represents(s: State)
      reads this
    {
      && s.tables == tables && s.builtAt == builtAt
      && s.cache == if cached then Some(builtFrom) else None
    }

    constructor (t: Tables)
      requires Sound(t)
      ensures Valid() && tables == t && !cached
    {
      tables, builtFrom := t, t;
      cached, enabled, default, lists, builtAt := false, false, "direct", [], 0.0;
    }

    method Build(now: real)
      requires Valid()
      modifies this
      ensures Valid() && cached && builtFrom == tables == old(tables) && builtAt == now
    {
      enabled, default, lists := tables.enabled, tables.default, [];
      if enabled {
        lists := CompileLists(AsLists(ActiveLists(tables.rows)));
      }
      cached, builtAt, builtFrom := true, now, tables;
    }

    /** A resolution answers with the tables the run says and leaves the cache as the run says. */
    method ResolveRoute(host: string, now: real, runner: Runner, ghost s: State) returns (route: string)
      requires Valid() && Represents(s) && s.now == now
      modifies this
      ensures Valid() && Represents(Apply(s, Resolve))
      ensures route == Evaluate(Answering(s), host, runner)
    {
      if !cached || now - builtAt >= TTL {
        Build(now);
      }
      if !enabled {
        return Unrouted(runner);
      }
      SoundHasNoBlanks(builtFrom);
      route := Probe(host, lists, default, AsLists(ActiveLists(builtFrom.rows)));
    }

    method Write(m: Mutator, ghost s: State)
      requires Valid() && Represents(s)
      modifies this`tables, this`cached
      ensures Valid() && Represents(Apply(s, Change(m)))
      ensures tables == Mutate(old(tables), m) && cached == (old(cached) && !Commits(old(tables), m))
    {
      MutateSound(tables, m);
      if !Commits(tables, m) {
        RefusedChangesNothing(tables, m);
      }
      if Commits(tables, m) {
        tables := Mutate(tables, m);
        cached := false;
      }
    }

    method WriteBehind(b: Bypass, ghost s: State)
      requires Valid() && Represents(s)
      modifies this`tables
      ensures Valid() && Represents(Apply(s, ChangeBehind(b)))
    {
      BypassSound(tables, b);
      tables := WriteBypass(tables, b);
    }

    /** The operator's test: the slow scan, straight from the tables. */
    method RoutingTest(domain: string, runner: Runner) returns (route: string)
      ensures route == Evaluate(tables, domain, runner)
    {
      if !tables.enabled {
        return Unrouted(runner);
      }
      var active := AsLists(ActiveLists(tables.rows));
      for i := 0 to |active|
        invariant Scan(domain, active, tables.default) == Scan(domain, active[i..], tables.default)
      {
        assert active[i..][1..] == active[i + 1..];
        for j := 0 to |active[i].patterns|
          invariant forall k :: 0 <= k < j ==> !PatternMatches(domain, active[i].patterns[k])
        {
          if PatternMatches(domain, active[i].patterns[j]) {
            return active[i].route;
          }
        }
      }
      return tables.default;
    }
  }
}

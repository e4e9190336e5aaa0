// The hourly traffic counters against the plain log of requests, and the buffer in front of the log
// writer. Models hunt/traffic_stats.py, hunt/db.py (queueing and flushing of traffic rows) and the period
// fold of hunt/handlers/traffic_summary.py. Times and durations are whole microseconds; a missing upstream
// is the empty string.

module TrafficRollup {
  const WINDOW: int := 3_024_000_000_000
  const PRUNE_EVERY: int := 600_000_000
  const PRUNE_THRESHOLD: nat := 900
  const FLUSH_BATCH: nat := 500
  const DAY: int := 86_400_000_000
  const WEEK: int := 604_800_000_000
  const MONTH: int := 2_592_000_000_000

  /** A logged request; `hour` is the start of the hour it falls into. */
  datatype Row = Row(ts: int, hour: int, ok: bool, upstream: string, bytesIn: int, bytesOut: int, duration: int)

  /** The five counters of a bucket. */
  datatype Counts = Counts(n: int, bytesIn: int, bytesOut: int, ok: int, dur: int)
  {
    function Of(m: Measure): int {
      match m
      case Requests => n
      case BytesIn => bytesIn
      case BytesOut => bytesOut
      case Oks => ok
      case Time => dur
    }

    function Plus(c: Counts): Counts {
      Counts(n + c.n, bytesIn + c.bytesIn, bytesOut + c.bytesOut, ok + c.ok, dur + c.dur)
    }
  }

  datatype Measure = Requests | BytesIn | BytesOut | Oks | Time

  function One(r: Row): Counts {
    Counts(1, r.bytesIn, r.bytesOut, if r.ok then 1 else 0, r.duration)
  }

  /** What one row contributes. */
  function Value(r: Row, m: Measure): int { One(r).Of(m) }

  function HourOf(ts: int): int {
    ts / 3_600_000_000 * 3_600_000_000
  }

  predicate Stamped(r: Row) {
    r.hour == HourOf(r.ts)
  }

  type Cell = (int, string)

  function CellOf(r: Row): Cell {
    (r.hour, r.upstream)
  }

  /** The row log, summed over the rows of some cells. */
  function Total(log: seq<Row>, cells: set<Cell>, m: Measure): int {
    if log == [] then 0
    else
      var r := log[|log| - 1];
      Total(log[..|log| - 1], cells, m) + if CellOf(r) in cells then Value(r, m) else 0
  }

  predicate Recent(r: Row, cutoff: int) { r.hour >= cutoff }

  /** The row log, summed over the rows whose hour starts at the cutoff or later. */
  function TotalSince(log: seq<Row>, cutoff: int, m: Measure): int {
    if log == [] then 0
    else
      var r := log[|log| - 1];
      TotalSince(log[..|log| - 1], cutoff, m) + if Recent(r, cutoff) then Value(r, m) else 0
  }

  // ---- Plain sums over rows ----

  function RecentRows(log: seq<Row>, cutoff: int): seq<Row> {
    if log == [] then []
    else
      var r := log[|log| - 1];
      RecentRows(log[..|log| - 1], cutoff) + if r.hour >= cutoff then [r] else []
  }

  function InOf(rows: seq<Row>): int {
    if rows == [] then 0 else InOf(rows[..|rows| - 1]) + rows[|rows| - 1].bytesIn
  }

  function OutOf(rows: seq<Row>): int {
    if rows == [] then 0 else OutOf(rows[..|rows| - 1]) + rows[|rows| - 1].bytesOut
  }

  function TimeOf(rows: seq<Row>): int {
    if rows == [] then 0 else TimeOf(rows[..|rows| - 1]) + rows[|rows| - 1].duration
  }

  /** The successful rows. */
  function GoodRows(rows: seq<Row>): seq<Row> {
    if rows == [] then []
    else GoodRows(rows[..|rows| - 1]) + if rows[|rows| - 1].ok then [rows[|rows| - 1]] else []
  }

  lemma SnocSums(rows: seq<Row>, r: Row)
    ensures InOf(rows + [r]) == InOf(rows) + r.bytesIn && OutOf(rows + [r]) == OutOf(rows) + r.bytesOut
    ensures TimeOf(rows + [r]) == TimeOf(rows) + r.duration
    ensures GoodRows(rows + [r]) == GoodRows(rows) + if r.ok then [r] else []
  {
    assert (rows + [r])[..|rows|] == rows;
  }

  /** The plain sum behind each measure. */
  function Plainly(rows: seq<Row>, m: Measure): int {
    match m
    case Requests => |rows|
    case BytesIn => InOf(rows)
    case BytesOut => OutOf(rows)
    case Oks => |GoodRows(rows)|
    case Time => TimeOf(rows)
  }

  lemma PlainlySnoc(rows: seq<Row>, r: Row, m: Measure)
    ensures Plainly(rows + [r], m) == Plainly(rows, m) + Value(r, m)
  {
    SnocSums(rows, r);
  }

  lemma {:induction false} SincePlainly(log: seq<Row>, cutoff: int, m: Measure)
    ensures TotalSince(log, cutoff, m) == Plainly(RecentRows(log, cutoff), m)
  {
    if log != [] {
      var r, rest := log[|log| - 1], log[..|log| - 1];
      SincePlainly(rest, cutoff, m);
      PlainlySnoc(RecentRows(rest, cutoff), r, m);
      assert RecentRows(rest, cutoff) + [] == RecentRows(rest, cutoff);
    }
  }

  /** The measures of the recent rows are their number and the plain sums of their fields. */
  lemma SinceSums(log: seq<Row>, cutoff: int)
    ensures var rows := RecentRows(log, cutoff);
      && TotalSince(log, cutoff, Requests) == |rows|
      && TotalSince(log, cutoff, BytesIn) == InOf(rows) && TotalSince(log, cutoff, BytesOut) == OutOf(rows)
      && TotalSince(log, cutoff, Oks) == |GoodRows(rows)| && TotalSince(log, cutoff, Time) == TimeOf(rows)
  {
    forall m {
      SincePlainly(log, cutoff, m);
    }
    assert Plainly(RecentRows(log, cutoff), Requests) == |RecentRows(log, cutoff)|;
    assert Plainly(RecentRows(log, cutoff), BytesIn) == InOf(RecentRows(log, cutoff));
    assert Plainly(RecentRows(log, cutoff), BytesOut) == OutOf(RecentRows(log, cutoff));
    assert Plainly(RecentRows(log, cutoff), Oks) == |GoodRows(RecentRows(log, cutoff))|;
    assert Plainly(RecentRows(log, cutoff), Time) == TimeOf(RecentRows(log, cutoff));
  }

  // ---- Hours ----

  /** The hour of a time is the full hour at or before it. */
  lemma HourBounds(ts: int)
    ensures HourOf(ts) <= ts < HourOf(ts) + 3_600_000_000 && HourOf(ts) % 3_600_000_000 == 0
  {
  }

  /** Every row at least an hour younger than the cutoff is counted, no row older than it is. */
  lemma CutoffBrackets(r: Row, cutoff: int)
    requires Stamped(r)
    ensures r.ts >= cutoff + 3_600_000_000 ==> r.hour >= cutoff
    ensures r.hour >= cutoff ==> r.ts >= cutoff
  {
    HourBounds(r.ts);
  }

  // ---- Sums over cells ----

  lemma {:induction false} TotalSplit(log: seq<Row>, a: set<Cell>, b: set<Cell>, m: Measure)
    requires a !! b
    ensures Total(log, a + b, m) == Total(log, a, m) + Total(log, b, m)
  {
    if log != [] {
      TotalSplit(log[..|log| - 1], a, b, m);
    }
  }

  lemma {:induction false} SinceIsTotal(log: seq<Row>, cutoff: int, cells: set<Cell>, m: Measure)
    requires forall r <- log :: Recent(r, cutoff) <==> CellOf(r) in cells
    ensures TotalSince(log, cutoff, m) == Total(log, cells, m)
  {
    if log != [] {
      assert log[|log| - 1] in log;
      assert forall r <- log[..|log| - 1] :: r in log;
      SinceIsTotal(log[..|log| - 1], cutoff, cells, m);
    }
  }

  lemma {:induction false} TotalNone(log: seq<Row>, cells: set<Cell>, m: Measure)
    requires forall r <- log :: CellOf(r) !in cells
    ensures Total(log, cells, m) == 0
  {
    if log != [] {
      assert log[|log| - 1] in log;
      assert forall r <- log[..|log| - 1] :: r in log;
      TotalNone(log[..|log| - 1], cells, m);
    }
  }

  lemma {:induction false} TotalCounts(log: seq<Row>, cells: set<Cell>)
    ensures Total(log, cells, Requests) >= 0
    ensures (exists r <- log :: CellOf(r) in cells) ==> Total(log, cells, Requests) > 0
  {
    if log != [] {
      TotalCounts(log[..|log| - 1], cells);
      assert log == log[..|log| - 1] + [log[|log| - 1]];
    }
  }

  lemma TotalSnoc(log: seq<Row>, r: Row, cells: set<Cell>, m: Measure)
    ensures Total(log + [r], cells, m) == Total(log, cells, m) + if CellOf(r) in cells then Value(r, m) else 0
  {
    var more := log + [r];
    assert more[|more| - 1] == r && more[..|more| - 1] == log;
  }

  lemma SinceSnoc(log: seq<Row>, r: Row, cutoff: int, m: Measure)
    ensures TotalSince(log + [r], cutoff, m) ==
      TotalSince(log, cutoff, m) + if Recent(r, cutoff) then Value(r, m) else 0
  {
    var more := log + [r];
    assert more[|more| - 1] == r && more[..|more| - 1] == log;
  }

  // ---- The counters ----

  type Hours = map<int, map<string, Counts>>

  predicate Has(hours: Hours, c: Cell) {
    c.0 in hours && c.1 in hours[c.0]
  }

  predicate Logged(log: seq<Row>, c: Cell) {
    exists i :: 0 <= i < |log| && CellOf(log[i]) == c
  }

  /** The counters of a cell are the sums over its rows. */
  ghost predicate Sums(counts: Counts, log: seq<Row>, cells: set<Cell>) {
    forall m :: counts.Of(m) == Total(log, cells, m)
  }

  /** From `floor` on the counters hold exactly the sums of the log; below it they may have been cut. */
  ghost predicate Rolled(hours: Hours, log: seq<Row>, floor: int) {
    && (forall h <- hours :: hours[h] != map[])
    && (forall c: Cell :: Has(hours, c) ==> Logged(log, c))
    && (forall c: Cell :: c.0 >= floor && Logged(log, c) ==> Has(hours, c) && Sums(hours[c.0][c.1], log, {c}))
  }

  function AddRow(hours: Hours, c: Cell, more: Counts): Hours {
    var bucket := if c.0 in hours then hours[c.0] else map[];
    hours[c.0 := bucket[c.1 := if c.1 in bucket then bucket[c.1].Plus(more) else more]]
  }

  function Kept(hours: Hours, lo: int): Hours {
    map h | h in hours && h >= lo :: hours[h]
  }

  lemma LoggedSnoc(log: seq<Row>, r: Row, c: Cell)
    ensures Logged(log + [r], c) <==> Logged(log, c) || c == CellOf(r)
  {
    var more := log + [r];
    assert more[|log|] == r;
    assert forall i :: 0 <= i < |log| ==> more[i] == log[i];
  }

  lemma AddHas(hours: Hours, d: Cell, more: Counts, c: Cell)
    ensures var next := AddRow(hours, d, more);
            && (Has(next, c) <==> Has(hours, c) || c == d)
            && (Has(hours, c) && c != d ==> next[c.0][c.1] == hours[c.0][c.1])
            && next[d.0][d.1] == if Has(hours, d) then hours[d.0][d.1].Plus(more) else more
  {
  }

  lemma AddKeepsCell(hours: Hours, log: seq<Row>, r: Row, c: Cell)
    requires Logged(log, c) ==> Has(hours, c) && Sums(hours[c.0][c.1], log, {c})
    requires Has(hours, c) ==> Logged(log, c)
    ensures var next := AddRow(hours, CellOf(r), One(r));
            Logged(log + [r], c) ==> Has(next, c) && Sums(next[c.0][c.1], log + [r], {c})
  {
    LoggedSnoc(log, r, c);
    AddHas(hours, CellOf(r), One(r), c);
    forall m
      ensures Total(log + [r], {c}, m) == Total(log, {c}, m) + if CellOf(r) == c then Value(r, m) else 0
      ensures !Logged(log, c) ==> Total(log, {c}, m) == 0
    {
      TotalSnoc(log, r, {c}, m);
      if !Logged(log, c) {
        NotLogged(log, c, m);
      }
    }
  }

  lemma AddKeeps(hours: Hours, log: seq<Row>, floor: int, r: Row)
    requires Rolled(hours, log, floor)
    ensures Rolled(AddRow(hours, CellOf(r), One(r)), log + [r], floor)
  {
    var next := AddRow(hours, CellOf(r), One(r));
    forall c: Cell
      ensures Has(next, c) ==> Logged(log + [r], c)
      ensures c.0 >= floor && Logged(log + [r], c) ==> Has(next, c) && Sums(next[c.0][c.1], log + [r], {c})
    {
      LoggedSnoc(log, r, c);
      AddHas(hours, CellOf(r), One(r), c);
      if c.0 >= floor {
        AddKeepsCell(hours, log, r, c);
      }
    }
  }

  lemma NotLogged(log: seq<Row>, c: Cell, m: Measure)
    requires !Logged(log, c)
    ensures Total(log, {c}, m) == 0
  {
    TotalNone(log, {c}, m);
  }

  function Max(a: int, b: int): int { if a <= b then b else a }

  lemma PruneKeeps(hours: Hours, log: seq<Row>, floor: int, lo: int)
    requires Rolled(hours, log, floor)
    ensures Rolled(Kept(hours, lo), log, Max(floor, lo))
  {
    var kept := Kept(hours, lo);
    forall c: Cell
      ensures Has(kept, c) <==> Has(hours, c) && c.0 >= lo
    {
    }
  }

  ghost predicate SameTotals(xlog: seq<Row>, ylog: seq<Row>, c: Cell) {
    forall m :: Total(xlog, {c}, m) == Total(ylog, {c}, m)
  }

  lemma LoggedCounts(log: seq<Row>, c: Cell)
    ensures Logged(log, c) <==> Total(log, {c}, Requests) > 0
  {
    TotalCounts(log, {c});
    if !Logged(log, c) {
      NotLogged(log, c, Requests);
    } else {
      var i :| 0 <= i < |log| && CellOf(log[i]) == c;
      assert log[i] in log;
    }
  }

  lemma SameCounts(x: Counts, y: Counts)
    requires forall m :: x.Of(m) == y.Of(m)
    ensures x == y
  {
    assert x.Of(Requests) == y.Of(Requests) && x.Of(BytesIn) == y.Of(BytesIn) && x.Of(BytesOut) == y.Of(BytesOut);
    assert x.Of(Oks) == y.Of(Oks) && x.Of(Time) == y.Of(Time);
  }

  /** Two rollups without older hours hold the same counters exactly when their logs agree, cell by
      cell, on the hours they keep. */
  lemma Determined(x: Hours, xlog: seq<Row>, y: Hours, ylog: seq<Row>, floor: int)
    requires Rolled(x, xlog, floor) && Rolled(y, ylog, floor)
    requires (forall h <- x :: h >= floor) && (forall h <- y :: h >= floor)
    ensures x == y <==> forall c: Cell :: c.0 >= floor ==> SameTotals(xlog, ylog, c)
  {
    if forall c: Cell :: c.0 >= floor ==> SameTotals(xlog, ylog, c) {
      SameCells(x, xlog, y, ylog, floor);
    }
    if x == y {
      forall c: Cell, m | c.0 >= floor
        ensures Total(xlog, {c}, m) == Total(ylog, {c}, m)
      {
        if Has(x, c) {
          assert x[c.0][c.1].Of(m) == Total(xlog, {c}, m);
          assert y[c.0][c.1].Of(m) == Total(ylog, {c}, m);
        } else {
          NotLogged(xlog, c, m);
          NotLogged(ylog, c, m);
        }
      }
    }
  }

  lemma SameCells(x: Hours, xlog: seq<Row>, y: Hours, ylog: seq<Row>, floor: int)
    requires Rolled(x, xlog, floor) && Rolled(y, ylog, floor)
    requires (forall h <- x :: h >= floor) && (forall h <- y :: h >= floor)
    requires forall c: Cell :: c.0 >= floor ==> SameTotals(xlog, ylog, c)
    ensures x == y
  {
    forall c: Cell
      ensures Has(x, c) <==> Has(y, c)
      ensures Has(x, c) ==> x[c.0][c.1] == y[c.0][c.1]
    {
      LoggedCounts(xlog, c);
      LoggedCounts(ylog, c);
      if c.0 >= floor {
        assert Total(xlog, {c}, Requests) == Total(ylog, {c}, Requests);
        if Has(x, c) {
          SameCounts(x[c.0][c.1], y[c.0][c.1]);
        }
      }
    }
    SameKeys(x, y);
    SameKeys(y, x);
    forall h | h in x
      ensures x[h] == y[h]
    {
      assert forall u :: u in x[h] <==> Has(x, (h, u));
      assert forall u :: u in y[h] <==> Has(y, (h, u));
      assert forall u <- x[h] :: x[(h, u).0][(h, u).1] == y[(h, u).0][(h, u).1];
    }
  }

  lemma SameKeys(x: Hours, y: Hours)
    requires forall c: Cell :: Has(x, c) ==> Has(y, c)
    requires forall h <- x :: x[h] != map[]
    ensures x.Keys <= y.Keys
  {
    forall h | h in x
      ensures h in y
    {
      var u :| u in x[h];
      assert Has(x, (h, u));
    }
  }

  // ---- Rebuilding from the log table ----

  /** The rows of the grouped query. */
  function After(rows: seq<Row>, since: int): seq<Row> {
    if rows == [] then []
    else
      var r := rows[|rows| - 1];
      After(rows[..|rows| - 1], since) + if r.ts > since then [r] else []
  }

  lemma AfterSnoc(rest: seq<Row>, r: Row, since: int, cells: set<Cell>, m: Measure)
    ensures Total(After(rest + [r], since), cells, m) ==
      Total(After(rest, since), cells, m) + if r.ts > since && CellOf(r) in cells then Value(r, m) else 0
  {
    var rows := rest + [r];
    assert rows[|rows| - 1] == r && rows[..|rows| - 1] == rest;
    if r.ts > since {
      TotalSnoc(After(rest, since), r, cells, m);
    } else {
      assert After(rows, since) == After(rest, since);
    }
  }

  lemma {:induction false} AfterTotal(rows: seq<Row>, since: int, c: Cell, m: Measure)
    requires forall r <- rows :: CellOf(r) == c ==> r.ts > since
    ensures Total(After(rows, since), {c}, m) == Total(rows, {c}, m)
  {
    if rows != [] {
      var r, rest := rows[|rows| - 1], rows[..|rows| - 1];
      assert r in rows && rows == rest + [r];
      assert forall q <- rest :: q in rows;
      AfterTotal(rest, since, c, m);
      AfterSnoc(rest, r, since, {c}, m);
      TotalSnoc(rest, r, {c}, m);
    }
  }

  lemma {:induction false} AfterLoses(rows: seq<Row>, since: int, c: Cell)
    ensures Total(After(rows, since), {c}, Requests) <= Total(rows, {c}, Requests)
    ensures (exists r <- rows :: CellOf(r) == c && r.ts <= since) ==>
      Total(After(rows, since), {c}, Requests) < Total(rows, {c}, Requests)
  {
    if rows != [] {
      var r, rest := rows[|rows| - 1], rows[..|rows| - 1];
      assert rows == rest + [r];
      AfterLoses(rest, since, c);
      AfterSnoc(rest, r, since, {c}, Requests);
      TotalSnoc(rest, r, {c}, Requests);
    }
  }

  /** A row on the very start of the window, at a full hour. */
  predicate OnTheEdge(r: Row, since: int) {
    r.ts == since && r.hour == since
  }

  /** Rebuilding agrees with adding every row and pruning at the same moment exactly when no row sits
      on the very start of the window at a full hour: the query leaves it out, pruning keeps it. */
  lemma RebuildIsExact(rebuilt: Hours, added: Hours, rows: seq<Row>, since: int)
    requires forall r <- rows :: Stamped(r)
    requires Rolled(rebuilt, After(rows, since), since) && Rolled(added, rows, since)
    requires (forall h <- rebuilt :: h >= since) && (forall h <- added :: h >= since)
    ensures rebuilt == added <==> forall r <- rows :: !OnTheEdge(r, since)
  {
    Determined(rebuilt, After(rows, since), added, rows, since);
    if forall r <- rows :: !OnTheEdge(r, since) {
      forall c: Cell, m | c.0 >= since
        ensures Total(After(rows, since), {c}, m) == Total(rows, {c}, m)
      {
        forall r | r in rows && CellOf(r) == c
          ensures r.ts > since
        {
          HourBounds(r.ts);
        }
        AfterTotal(rows, since, c, m);
      }
    } else {
      var r :| r in rows && OnTheEdge(r, since);
      AfterLoses(rows, since, CellOf(r));
      assert !SameTotals(After(rows, since), rows, CellOf(r));
    }
  }

  /** One group of the query: a cell and the sums of its rows. */
  datatype Group = Group(cell: Cell, sums: Counts)

  ghost predicate GroupsOf(groups: seq<Group>, rows: seq<Row>) {
    && (forall i, j :: 0 <= i < j < |groups| ==> groups[i].cell != groups[j].cell)
    && (forall i :: 0 <= i < |groups| ==> Logged(rows, groups[i].cell) && Sums(groups[i].sums, rows, {groups[i].cell}))
    && (forall c: Cell :: Logged(rows, c) ==> Grouped(groups, c))
  }

  predicate Grouped(groups: seq<Group>, c: Cell) {
    exists i :: 0 <= i < |groups| && groups[i].cell == c
  }

  /** The rows of the table that the first groups stand for, as far as one cell goes. */
  function Arrived(groups: seq<Group>, rows: seq<Row>, c: Cell): seq<Row> {
    if Grouped(groups, c) then rows else []
  }

  ghost predicate SumsBoth(counts: Counts, log: seq<Row>, more: seq<Row>, c: Cell) {
    forall m :: counts.Of(m) == Total(log, {c}, m) + Total(more, {c}, m)
  }

  /** The counters hold what they held and, from the floor on, the sums of the first groups on top. */
  ghost predicate Loaded(hours: Hours, base: Hours, log: seq<Row>, floor: int, groups: seq<Group>, rows: seq<Row>) {
    && (forall h <- hours :: hours[h] != map[])
    && (forall c: Cell :: Has(hours, c) <==> Has(base, c) || Grouped(groups, c))
    && (forall c: Cell :: c.0 >= floor && Has(hours, c) ==>
          SumsBoth(hours[c.0][c.1], log, Arrived(groups, rows, c), c))
  }

  lemma GroupedSnoc(groups: seq<Group>, g: Group, c: Cell)
    ensures Grouped(groups + [g], c) <==> Grouped(groups, c) || c == g.cell
  {
    var more := groups + [g];
    assert more[|groups|] == g;
    assert forall i :: 0 <= i < |groups| ==> more[i] == groups[i];
  }

  lemma PlusAdds(x: Counts, y: Counts, m: Measure)
    ensures x.Plus(y).Of(m) == x.Of(m) + y.Of(m)
  {
  }

  lemma LoadCell(
    hours: Hours, base: Hours, log: seq<Row>, floor: int, groups: seq<Group>, g: Group, rows: seq<Row>)
    requires Rolled(base, log, floor) && Loaded(hours, base, log, floor, groups, rows)
    requires !Grouped(groups, g.cell) && Sums(g.sums, rows, {g.cell}) && g.cell.0 >= floor
    ensures var next := AddRow(hours, g.cell, g.sums);
            Has(next, g.cell) && SumsBoth(next[g.cell.0][g.cell.1], log, rows, g.cell)
  {
    var next: Hours, c := AddRow(hours, g.cell, g.sums), g.cell;
    AddHas(hours, c, g.sums, c);
    forall m: Measure
      ensures next[c.0][c.1].Of(m) == Total(log, {c}, m) + Total(rows, {c}, m)
    {
      if Has(hours, c) {
        PlusAdds(hours[c.0][c.1], g.sums, m);
      } else {
        NotLogged(log, c, m);
      }
    }
  }

  lemma LoadOne(
    hours: Hours, base: Hours, log: seq<Row>, floor: int, groups: seq<Group>, g: Group, rows: seq<Row>)
    requires Rolled(base, log, floor) && Loaded(hours, base, log, floor, groups, rows)
    requires !Grouped(groups, g.cell) && Sums(g.sums, rows, {g.cell})
    ensures Loaded(AddRow(hours, g.cell, g.sums), base, log, floor, groups + [g], rows)
  {
    var next := AddRow(hours, g.cell, g.sums);
    if g.cell.0 >= floor {
      LoadCell(hours, base, log, floor, groups, g, rows);
    }
    forall c: Cell
      ensures Has(next, c) <==> Has(base, c) || Grouped(groups + [g], c)
      ensures c.0 >= floor && Has(next, c) ==>
        SumsBoth(next[c.0][c.1], log, Arrived(groups + [g], rows, c), c)
    {
      GroupedSnoc(groups, g, c);
      AddHas(hours, g.cell, g.sums, c);
    }
  }

  /** Any element; the order in which a dictionary yields its keys does not matter here. */
  method Pick<T(==)>(s: set<T>) returns (x: T)
    requires s != {}
    ensures x in s
  {
    x :| x in s;
  }

  /** `done` holds the cells of all hours that are not pending, from the cutoff on. */
  ghost predicate Covered(done: set<Cell>, hours: Hours, cutoff: int, pending: set<int>) {
    forall c: Cell :: c in done <==> Has(hours, c) && c.0 >= cutoff && c.0 !in pending
  }

  ghost function HourCells(hours: Hours, h: int): set<Cell>
    requires h in hours
  {
    set u | u in hours[h] :: (h, u)
  }

  /** `all` adds to `done` the cells of one hour whose upstreams are not pending. */
  ghost predicate WithHour(all: set<Cell>, done: set<Cell>, hours: Hours, h: int, pending: set<string>) {
    forall c: Cell :: c in all <==> c in done || (c.0 == h && Has(hours, c) && c.1 !in pending)
  }

  lemma WholeHour(all: set<Cell>, done: set<Cell>, hours: Hours, h: int)
    requires h in hours && WithHour(all, done, hours, h, {})
    ensures all == done + HourCells(hours, h)
  {
  }

  class TrafficStats {
    var hours: Hours
    var lastPrune: int
    var ready: bool
    ghost var log: seq<Row>
    ghost var floor: int

    ghost predicate Valid()
      reads this
    {
      Rolled(hours, log, floor)
    }

    constructor ()
      ensures Valid() && hours == map[] && log == [] && !ready
      ensures floor == -WINDOW
    {
      hours, lastPrune, ready, log, floor := map[], 0, false, [], -WINDOW;
    }

    method Prune(now: int)
      requires Valid()
      modifies this`hours, this`lastPrune, this`floor
      ensures Valid() && hours == Kept(old(hours), now - WINDOW) && floor == Max(old(floor), now - WINDOW)
    {
      PruneKeeps(hours, log, floor, now - WINDOW);
      hours := map h | h in hours && h >= now - WINDOW :: hours[h];
      floor := Max(floor, now - WINDOW);
      lastPrune := now;
    }

    /** Adding a row at clock time `now`; a new hour may first trigger a prune. */
    method Add(r: Row, now: int)
      requires Valid() && Stamped(r)
      modifies this`hours, this`lastPrune, this`floor, this`log
      ensures Valid() && log == old(log) + [r]
      ensures floor == old(floor) || floor == Max(old(floor), now - WINDOW)
    {
      var h := r.ts / 3_600_000_000 * 3_600_000_000;
      if h !in hours && |hours| > PRUNE_THRESHOLD && now - lastPrune > PRUNE_EVERY {
        Prune(now);
      }
      AddKeeps(hours, log, floor, r);
      var bucket := if h in hours then hours[h] else map[];
      if r.upstream in bucket {
        var row := bucket[r.upstream];
        bucket := bucket[r.upstream := Counts(
          row.n + 1, row.bytesIn + r.bytesIn, row.bytesOut + r.bytesOut,
          if r.ok then row.ok + 1 else row.ok, row.dur + r.duration)];
      } else {
        bucket := bucket[r.upstream := Counts(1, r.bytesIn, r.bytesOut, if r.ok then 1 else 0, r.duration)];
      }
      assert hours[h := bucket] == AddRow(hours, CellOf(r), One(r));
      hours := hours[h := bucket];
      log := log + [r];
    }

    /** Requests, bytes and successes since the cutoff are those of the row log. */
    method Totals(cutoff: int) returns (n: int, bytesIn: int, bytesOut: int, ok: int)
      requires Valid() && cutoff >= floor
      ensures var rows := RecentRows(log, cutoff);
        n == |rows| && bytesIn == InOf(rows) && bytesOut == OutOf(rows) && ok == |GoodRows(rows)|
    {
      n, bytesIn, bytesOut, ok := 0, 0, 0, 0;
      ghost var done: set<Cell> := {};
      forall m {
        TotalNone(log, {}, m);
      }
      var pending := hours.Keys;
      while pending != {}
        invariant pending <= hours.Keys
        invariant Covered(done, hours, cutoff, pending)
        invariant n == Total(log, done, Requests) && bytesIn == Total(log, done, BytesIn)
        invariant bytesOut == Total(log, done, BytesOut) && ok == Total(log, done, Oks)
        decreases |pending|
      {
        var h := Pick(pending);
        pending := pending - {h};
        if h >= cutoff {
          n, bytesIn, bytesOut, ok := SumBucket(h, n, bytesIn, bytesOut, ok, done);
          done := done + HourCells(hours, h);
        }
      }
      forall m {
        SinceIsTotal(log, cutoff, done, m);
      }
      SinceSums(log, cutoff);
    }

    method SumBucket(h: int, n0: int, in0: int, out0: int, ok0: int, ghost done: set<Cell>)
      returns (n: int, bytesIn: int, bytesOut: int, ok: int)
      requires Valid() && h in hours && h >= floor
      requires n0 == Total(log, done, Requests) && in0 == Total(log, done, BytesIn)
      requires out0 == Total(log, done, BytesOut) && ok0 == Total(log, done, Oks)
      requires forall c <- done :: c.0 != h
      ensures var all := done + HourCells(hours, h);
              && n == Total(log, all, Requests) && bytesIn == Total(log, all, BytesIn)
              && bytesOut == Total(log, all, BytesOut) && ok == Total(log, all, Oks)
    {
      n, bytesIn, bytesOut, ok := n0, in0, out0, ok0;
      ghost var all := done;
      var pending := hours[h].Keys;
      while pending != {}
        invariant pending <= hours[h].Keys && WithHour(all, done, hours, h, pending)
        invariant n == Total(log, all, Requests) && bytesIn == Total(log, all, BytesIn)
        invariant bytesOut == Total(log, all, BytesOut) && ok == Total(log, all, Oks)
        decreases |pending|
      {
        var u := Pick(pending);
        var row := hours[h][u];
        assert Has(hours, (h, u)) && Sums(row, log, {(h, u)});
        assert row.Of(Requests) == row.n && row.Of(BytesIn) == row.bytesIn;
        assert row.Of(BytesOut) == row.bytesOut && row.Of(Oks) == row.ok;
        n, bytesIn, bytesOut, ok := n + row.n, bytesIn + row.bytesIn, bytesOut + row.bytesOut, ok + row.ok;
        forall m {
          TotalSplit(log, all, {(h, u)}, m);
        }
        all := all + {(h, u)};
        pending := pending - {u};
      }
      WholeHour(all, done, hours, h);
    }

    /** Per upstream: exactly the upstreams logged since the cutoff, each with its own sums. */
    method ByUpstream(cutoff: int) returns (out: map<string, Counts>)
      requires Valid() && cutoff >= floor
      ensures IsByUpstream(out, log, cutoff) && Reports(out, log, cutoff)
    {
      out := map[];
      ghost var done: set<Cell> := {};
      var pending := hours.Keys;
      while pending != {}
        invariant pending <= hours.Keys
        invariant Covered(done, hours, cutoff, pending)
        invariant SumsOf(out, log, done)
        decreases |pending|
      {
        var h := Pick(pending);
        pending := pending - {h};
        if h >= cutoff {
          out := SpreadBucket(h, out, done);
          done := done + HourCells(hours, h);
        }
      }
      SpreadIsSince(log, cutoff, done, out);
      ReportsSums(out, log, cutoff);
    }

    method SpreadBucket(h: int, start: map<string, Counts>, ghost done: set<Cell>)
      returns (out: map<string, Counts>)
      requires Valid() && h in hours && h >= floor && SumsOf(start, log, done)
      requires forall c <- done :: c.0 != h
      ensures SumsOf(out, log, done + HourCells(hours, h))
    {
      out := start;
      ghost var all := done;
      var pending := hours[h].Keys;
      while pending != {}
        invariant pending <= hours[h].Keys && WithHour(all, done, hours, h, pending)
        invariant SumsOf(out, log, all)
        decreases |pending|
      {
        var u := Pick(pending);
        var row := hours[h][u];
        assert Has(hours, (h, u));
        SpreadOne(log, all, (h, u), out, row);
        out := out[u := if u in out then out[u].Plus(row) else row];
        all := all + {(h, u)};
        pending := pending - {u};
      }
      WholeHour(all, done, hours, h);
    }

    /** One fold over the hours for the three cutoffs of the dashboard: per period exactly the upstreams
        of recent rows, each with its own sums. */
    method FoldHours(now: int) returns (day: Tally, week: Tally, month: Tally)
      requires Valid() && now - MONTH >= floor
      ensures IsByUpstream(day, log, now - DAY) && IsByUpstream(week, log, now - WEEK)
      ensures IsByUpstream(month, log, now - MONTH)
      ensures Reports(day, log, now - DAY) && Reports(week, log, now - WEEK) && Reports(month, log, now - MONTH)
    {
      var d, w, m := now - DAY, now - WEEK, now - MONTH;
      day, week, month := map[], map[], map[];
      ghost var days: set<Cell>, weeks: set<Cell>, months: set<Cell> := {}, {}, {};
      var pending := hours.Keys;
      while pending != {}
        invariant pending <= hours.Keys
        invariant Folded(day, days, log, hours, d, pending) && Folded(week, weeks, log, hours, w, pending)
        invariant Folded(month, months, log, hours, m, pending)
        decreases |pending|
      {
        var h := Pick(pending);
        FoldedOn(day, days, log, hours, d, pending, h);
        FoldedOn(week, weeks, log, hours, w, pending, h);
        FoldedOn(month, months, log, hours, m, pending, h);
        pending := pending - {h};
        if h < m {
          continue;
        }
        day, week, month := FoldBucket(h, d, w, m, day, week, month, days, weeks, months);
        days := if h >= d then days + HourCells(hours, h) else days;
        weeks := if h >= w then weeks + HourCells(hours, h) else weeks;
        months := months + HourCells(hours, h);
      }
      FoldedIsSince(day, days, log, hours, d, floor);
      FoldedIsSince(week, weeks, log, hours, w, floor);
      FoldedIsSince(month, months, log, hours, m, floor);
      ReportsSums(day, log, d);
      ReportsSums(week, log, w);
      ReportsSums(month, log, m);
    }

    /** One hour of that fold. */
    method FoldBucket(
      h: int, d: int, w: int, m: int, day0: Tally, week0: Tally, month0: Tally,
      ghost days: set<Cell>, ghost weeks: set<Cell>, ghost months: set<Cell>)
      returns (day: Tally, week: Tally, month: Tally)
      requires Valid() && h in hours && h >= floor && h >= m
      requires SumsOf(day0, log, days) && SumsOf(week0, log, weeks) && SumsOf(month0, log, months)
      requires forall c <- days + weeks + months :: c.0 != h
      ensures SumsOf(day, log, if h >= d then days + HourCells(hours, h) else days)
      ensures SumsOf(week, log, if h >= w then weeks + HourCells(hours, h) else weeks)
      ensures SumsOf(month, log, months + HourCells(hours, h))
    {
      day, week, month := day0, week0, month0;
      ghost var dd, ww, mm := days, weeks, months;
      var pending := hours[h].Keys;
      while pending != {}
        invariant pending <= hours[h].Keys
        invariant HalfFolded(day, dd, days, log, hours, h, d, pending)
        invariant HalfFolded(week, ww, weeks, log, hours, h, w, pending)
        invariant HalfFolded(month, mm, months, log, hours, h, m, pending)
        decreases |pending|
      {
        var u := Pick(pending);
        var row := hours[h][u];
        assert Has(hours, (h, u)) && Sums(row, log, {(h, u)});
        HalfStep(day, dd, days, log, hours, h, d, pending, u);
        HalfStep(week, ww, weeks, log, hours, h, w, pending, u);
        HalfStep(month, mm, months, log, hours, h, m, pending, u);
        if h >= d {
          day, dd := Into(day, u, row), dd + {(h, u)};
        }
        if h >= w {
          week, ww := Into(week, u, row), ww + {(h, u)};
        }
        month, mm := Into(month, u, row), mm + {(h, u)};
        pending := pending - {u};
      }
      HalfEnd(day, dd, days, log, hours, h, d);
      HalfEnd(week, ww, weeks, log, hours, h, w);
      HalfEnd(month, mm, months, log, hours, h, m);
    }

    /** Rebuilding from the groups of the rows after the start of the window, on top of whatever was
        counted before. */
    method LoadFromDb(groups: seq<Group>, ghost rows: seq<Row>, now: int)
      requires Valid() && GroupsOf(groups, After(rows, now - WINDOW))
      modifies this
      ensures Valid() && ready && log == old(log) + After(rows, now - WINDOW)
      ensures floor == Max(old(floor), now - WINDOW) && forall h <- hours :: h >= now - WINDOW
    {
      ghost var after, base := After(rows, now - WINDOW), hours;
      NothingLoaded(base, log, floor, after);
      for i := 0 to |groups|
        invariant Loaded(hours, base, log, floor, groups[..i], after)
        invariant log == old(log) && floor == old(floor)
      {
        var g := groups[i];
        assert !Grouped(groups[..i], g.cell);
        LoadOne(hours, base, log, floor, groups[..i], g, after);
        assert groups[..i + 1] == groups[..i] + [g];
        hours := AddRow(hours, g.cell, g.sums);
      }
      assert groups[..|groups|] == groups;
      LoadedIsRolled(hours, base, log, floor, groups, after);
      log := log + after;
      Prune(now);
      ready := true;
    }
  }

  // ---- Any history ----

  datatype Event = Added(row: Row, clock: int) | Pruned(clock: int)

  function RowsOf(events: seq<Event>): seq<Row> {
    if events == [] then []
    else
      var e := events[|events| - 1];
      RowsOf(events[..|events| - 1]) + if e.Added? then [e.row] else []
  }

  /** After any sequence of additions and prunes up to `now`, totals for a cutoff within the window are
      those of every row ever added. */
  method TotalsAfter(events: seq<Event>, now: int, cutoff: int)
    returns (n: int, bytesIn: int, bytesOut: int, ok: int)
    requires now >= 0 && cutoff >= now - WINDOW
    requires forall e <- events :: e.clock <= now && (e.Added? ==> Stamped(e.row))
    ensures var rows := RecentRows(RowsOf(events), cutoff);
            n == |rows| && bytesIn == InOf(rows) && bytesOut == OutOf(rows) && ok == |GoodRows(rows)|
  {
    var stats := new TrafficStats();
    for i := 0 to |events|
      invariant stats.Valid() && stats.log == RowsOf(events[..i]) && stats.floor <= now - WINDOW
    {
      assert events[..i + 1][..i] == events[..i] && events[i] in events;
      match events[i]
      case Added(row, clock) => stats.Add(row, clock);
      case Pruned(clock) => stats.Prune(clock);
    }
    assert events[..|events|] == events;
    n, bytesIn, bytesOut, ok := stats.Totals(cutoff);
  }

  lemma NothingLoaded(base: Hours, log: seq<Row>, floor: int, rows: seq<Row>)
    requires Rolled(base, log, floor)
    ensures Loaded(base, base, log, floor, [], rows)
  {
    forall c: Cell | c.0 >= floor && Has(base, c)
      ensures SumsBoth(base[c.0][c.1], log, Arrived([], rows, c), c)
    {
      assert Sums(base[c.0][c.1], log, {c});
    }
  }

  lemma {:induction false} TotalConcat(a: seq<Row>, b: seq<Row>, cells: set<Cell>, m: Measure)
    ensures Total(a + b, cells, m) == Total(a, cells, m) + Total(b, cells, m)
  {
    if b == [] {
      assert a + b == a;
    } else {
      var r, rest := b[|b| - 1], b[..|b| - 1];
      assert a + b == (a + rest) + [r];
      TotalConcat(a, rest, cells, m);
      TotalSnoc(a + rest, r, cells, m);
    }
  }

  lemma LoggedConcat(a: seq<Row>, b: seq<Row>, c: Cell)
    ensures Logged(a + b, c) <==> Logged(a, c) || Logged(b, c)
  {
    if i :| 0 <= i < |a| && CellOf(a[i]) == c {
      assert (a + b)[i] == a[i];
    }
    if i :| 0 <= i < |b| && CellOf(b[i]) == c {
      assert (a + b)[|a| + i] == b[i];
    }
  }

  lemma LoadedIsRolled(
    hours: Hours, base: Hours, log: seq<Row>, floor: int, groups: seq<Group>, rows: seq<Row>)
    requires Rolled(base, log, floor) && Loaded(hours, base, log, floor, groups, rows) && GroupsOf(groups, rows)
    ensures Rolled(hours, log + rows, floor)
  {
    forall c: Cell
      ensures Has(hours, c) ==> Logged(log + rows, c)
      ensures c.0 >= floor && Logged(log + rows, c) ==> Has(hours, c) && Sums(hours[c.0][c.1], log + rows, {c})
    {
      LoggedConcat(log, rows, c);
      if c.0 >= floor && Has(hours, c) {
        LoadedSums(hours[c.0][c.1], log, floor, groups, rows, c);
      }
    }
  }

  lemma LoadedSums(counts: Counts, log: seq<Row>, floor: int, groups: seq<Group>, rows: seq<Row>, c: Cell)
    requires GroupsOf(groups, rows) && SumsBoth(counts, log, Arrived(groups, rows, c), c)
    ensures Sums(counts, log + rows, {c})
  {
    forall m
      ensures counts.Of(m) == Total(log + rows, {c}, m)
    {
      TotalConcat(log, rows, {c}, m);
      if !Grouped(groups, c) {
        NotLogged(rows, c, m);
      }
    }
  }

  // ---- Sums per upstream ----

  function CellsOf(cells: set<Cell>, u: string): set<Cell> {
    set c | c in cells && c.1 == u
  }

  ghost predicate SumsOf(out: map<string, Counts>, log: seq<Row>, cells: set<Cell>) {
    && (forall u :: u in out <==> exists c <- cells :: c.1 == u)
    && (forall u <- out :: Sums(out[u], log, CellsOf(cells, u)))
  }

  lemma SpreadOne(log: seq<Row>, cells: set<Cell>, c: Cell, out: map<string, Counts>, row: Counts)
    requires SumsOf(out, log, cells) && c !in cells && Sums(row, log, {c})
    ensures SumsOf(out[c.1 := if c.1 in out then out[c.1].Plus(row) else row], log, cells + {c})
  {
    var all := cells + {c};
    var next := out[c.1 := if c.1 in out then out[c.1].Plus(row) else row];
    forall u, m | u in next
      ensures next[u].Of(m) == Total(log, CellsOf(all, u), m)
    {
      if u == c.1 {
        assert CellsOf(all, u) == CellsOf(cells, u) + {c};
        TotalSplit(log, CellsOf(cells, u), {c}, m);
        if u !in out {
          assert CellsOf(cells, u) == {};
          TotalNone(log, {}, m);
        }
      } else {
        assert CellsOf(all, u) == CellsOf(cells, u);
      }
    }
    forall u
      ensures u in next <==> exists d <- all :: d.1 == u
    {
      if u == c.1 {
        assert c in all;
      } else if exists d <- cells :: d.1 == u {
        var d :| d in cells && d.1 == u;
        assert d in all;
      }
    }
  }

  function UpstreamsSince(log: seq<Row>, cutoff: int): set<string> {
    set i | 0 <= i < |log| && Recent(log[i], cutoff) :: log[i].upstream
  }

  /** The rows of some upstreams. */
  function OfUpstreams(log: seq<Row>, us: set<string>): seq<Row> {
    if log == [] then []
    else
      var r := log[|log| - 1];
      OfUpstreams(log[..|log| - 1], us) + if r.upstream in us then [r] else []
  }

  /** The reference answer: for every upstream of a recent row, the sums over its recent rows. */
  ghost predicate IsByUpstream(out: map<string, Counts>, log: seq<Row>, cutoff: int) {
    && out.Keys == UpstreamsSince(log, cutoff)
    && forall u, m :: u in out ==> out[u].Of(m) == TotalSince(OfUpstreams(log, {u}), cutoff, m)
  }

  /** Exactly the upstreams of recent rows, each with the number of its recent rows and the plain sums of
      their fields. */
  ghost predicate Reports(out: map<string, Counts>, log: seq<Row>, cutoff: int) {
    && (forall u :: u in out <==> exists r <- log :: r.upstream == u && r.hour >= cutoff)
    && forall u <- out ::
         var rows := RecentRows(OfUpstreams(log, {u}), cutoff);
         out[u] == Counts(|rows|, InOf(rows), OutOf(rows), |GoodRows(rows)|, TimeOf(rows))
  }

  lemma ReportsSums(out: map<string, Counts>, log: seq<Row>, cutoff: int)
    requires IsByUpstream(out, log, cutoff)
    ensures Reports(out, log, cutoff)
  {
    forall u
      ensures u in out <==> exists r <- log :: r.upstream == u && r.hour >= cutoff
    {
      if r :| r in log && r.upstream == u && r.hour >= cutoff {
        var i :| 0 <= i < |log| && log[i] == r;
        assert Recent(log[i], cutoff);
      }
      if u in out {
        assert u in UpstreamsSince(log, cutoff);
        var i :| 0 <= i < |log| && Recent(log[i], cutoff) && log[i].upstream == u;
        assert log[i] in log;
      }
    }
    forall u | u in out
      ensures var rows := RecentRows(OfUpstreams(log, {u}), cutoff);
        out[u] == Counts(|rows|, InOf(rows), OutOf(rows), |GoodRows(rows)|, TimeOf(rows))
    {
      SinceSums(OfUpstreams(log, {u}), cutoff);
      var c := out[u];
      assert c.Of(Requests) == c.n && c.Of(BytesIn) == c.bytesIn && c.Of(BytesOut) == c.bytesOut;
      assert c.Of(Oks) == c.ok && c.Of(Time) == c.dur;
    }
  }

  lemma {:induction false} UpstreamTotal(log: seq<Row>, cutoff: int, cells: set<Cell>, u: string, m: Measure)
    requires forall r <- log :: Recent(r, cutoff) <==> CellOf(r) in cells
    ensures Total(log, CellsOf(cells, u), m) == TotalSince(OfUpstreams(log, {u}), cutoff, m)
  {
    if log != [] {
      var r, rest := log[|log| - 1], log[..|log| - 1];
      assert r in log;
      assert forall q <- rest :: q in log;
      UpstreamTotal(rest, cutoff, cells, u, m);
      UpstreamsStep(rest, r, {u}, cutoff, m);
      TotalSnoc(rest, r, CellsOf(cells, u), m);
      assert log == rest + [r];
    }
  }

  lemma UpstreamsStep(rest: seq<Row>, r: Row, us: set<string>, cutoff: int, m: Measure)
    ensures TotalSince(OfUpstreams(rest + [r], us), cutoff, m) ==
      TotalSince(OfUpstreams(rest, us), cutoff, m) + if r.upstream in us && Recent(r, cutoff) then Value(r, m) else 0
  {
    var log := rest + [r];
    assert log[|log| - 1] == r && log[..|log| - 1] == rest;
    if r.upstream in us {
      SinceSnoc(OfUpstreams(rest, us), r, cutoff, m);
    } else {
      assert OfUpstreams(log, us) == OfUpstreams(rest, us);
    }
  }

  // ---- One fold for several cutoffs ----

  /** Counters per upstream. */
  type Tally = map<string, Counts>

  function Into(out: Tally, u: string, row: Counts): Tally {
    out[u := if u in out then out[u].Plus(row) else row]
  }

  /** The hours that are not pending are in the tally of this cutoff. */
  ghost predicate Folded(
    out: Tally, done: set<Cell>, log: seq<Row>, hours: Hours, cutoff: int, pending: set<int>) {
    SumsOf(out, log, done) && Covered(done, hours, cutoff, pending)
  }

  lemma FoldedOn(
    out: Tally, done: set<Cell>, log: seq<Row>, hours: Hours, cutoff: int, pending: set<int>, h: int)
    requires Folded(out, done, log, hours, cutoff, pending) && h in pending && h in hours
    ensures (forall c <- done :: c.0 != h)
    ensures Covered(if h >= cutoff then done + HourCells(hours, h) else done, hours, cutoff, pending - {h})
  {
  }

  lemma FoldedIsSince(out: Tally, done: set<Cell>, log: seq<Row>, hours: Hours, cutoff: int, floor: int)
    requires Folded(out, done, log, hours, cutoff, {}) && Rolled(hours, log, floor) && cutoff >= floor
    ensures IsByUpstream(out, log, cutoff)
  {
    forall r | r in log
      ensures Recent(r, cutoff) <==> CellOf(r) in done
    {
      var i :| 0 <= i < |log| && log[i] == r;
      assert Logged(log, CellOf(r));
    }
    SpreadIsSince(log, cutoff, done, out);
  }

  /** The upstreams of hour `h` that are not pending are in the tally, if the cutoff takes the hour. */
  ghost predicate HalfFolded(
    out: Tally, all: set<Cell>, done: set<Cell>, log: seq<Row>, hours: Hours, h: int, cutoff: int,
    pending: set<string>) {
    && SumsOf(out, log, all)
    && if h >= cutoff then WithHour(all, done, hours, h, pending) else all == done
  }

  lemma HalfStep(
    out: Tally, all: set<Cell>, done: set<Cell>, log: seq<Row>, hours: Hours, h: int, cutoff: int,
    pending: set<string>, u: string)
    requires HalfFolded(out, all, done, log, hours, h, cutoff, pending) && u in pending
    requires Has(hours, (h, u)) && Sums(hours[h][u], log, {(h, u)}) && forall c <- done :: c.0 != h
    ensures if h >= cutoff
      then HalfFolded(Into(out, u, hours[h][u]), all + {(h, u)}, done, log, hours, h, cutoff, pending - {u})
      else HalfFolded(out, all, done, log, hours, h, cutoff, pending - {u})
  {
    if h >= cutoff {
      SpreadOne(log, all, (h, u), out, hours[h][u]);
    }
  }

  lemma HalfEnd(
    out: Tally, all: set<Cell>, done: set<Cell>, log: seq<Row>, hours: Hours, h: int, cutoff: int)
    requires h in hours && HalfFolded(out, all, done, log, hours, h, cutoff, {})
    ensures SumsOf(out, log, if h >= cutoff then done + HourCells(hours, h) else done)
  {
    if h >= cutoff {
      WholeHour(all, done, hours, h);
    }
  }

  lemma SpreadIsSince(log: seq<Row>, cutoff: int, cells: set<Cell>, out: map<string, Counts>)
    requires SumsOf(out, log, cells)
    requires forall r <- log :: Recent(r, cutoff) <==> CellOf(r) in cells
    requires forall c <- cells :: Logged(log, c)
    ensures IsByUpstream(out, log, cutoff)
  {
    forall u
      ensures u in out <==> u in UpstreamsSince(log, cutoff)
    {
      if u in out {
        var c :| c in cells && c.1 == u;
        var i :| 0 <= i < |log| && CellOf(log[i]) == c;
        assert log[i] in log && Recent(log[i], cutoff);
      }
      if u in UpstreamsSince(log, cutoff) {
        var i :| 0 <= i < |log| && Recent(log[i], cutoff) && log[i].upstream == u;
        assert log[i] in log;
        assert CellOf(log[i]) in cells;
      }
    }
    forall u, m | u in out
      ensures out[u].Of(m) == TotalSince(OfUpstreams(log, {u}), cutoff, m)
    {
      UpstreamTotal(log, cutoff, cells, u, m);
    }
  }

  // ---- The period fold ----

  function SumOver(byUp: map<string, Counts>, order: seq<string>, m: Measure): int
    requires forall u <- order :: u in byUp
  {
    if order == [] then 0 else SumOver(byUp, order[..|order| - 1], m) + byUp[order[|order| - 1]].Of(m)
  }

  predicate Unrepeated(order: seq<string>) {
    forall i, j :: 0 <= i < j < |order| ==> order[i] != order[j]
  }

  lemma {:induction false} UpstreamsSplit(log: seq<Row>, us: set<string>, u: string, cutoff: int, m: Measure)
    requires u !in us
    ensures TotalSince(OfUpstreams(log, us + {u}), cutoff, m) ==
      TotalSince(OfUpstreams(log, us), cutoff, m) + TotalSince(OfUpstreams(log, {u}), cutoff, m)
  {
    if log != [] {
      var r, rest := log[|log| - 1], log[..|log| - 1];
      UpstreamsSplit(rest, us, u, cutoff, m);
      UpstreamsStep(rest, r, us + {u}, cutoff, m);
      UpstreamsStep(rest, r, us, cutoff, m);
      UpstreamsStep(rest, r, {u}, cutoff, m);
      assert log == rest + [r];
    }
  }

  lemma {:induction false} SomeUpstreams(log: seq<Row>, cutoff: int, us: set<string>, m: Measure)
    requires forall r <- log :: Recent(r, cutoff) ==> r.upstream in us
    ensures TotalSince(OfUpstreams(log, us), cutoff, m) == TotalSince(log, cutoff, m)
  {
    if log != [] {
      var r, rest := log[|log| - 1], log[..|log| - 1];
      assert r in log;
      assert forall q <- rest :: q in log;
      SomeUpstreams(rest, cutoff, us, m);
      UpstreamsStep(rest, r, us, cutoff, m);
      SinceSnoc(rest, r, cutoff, m);
      assert log == rest + [r];
    }
  }

  lemma {:induction false} NoUpstreams(log: seq<Row>, cutoff: int, m: Measure)
    ensures TotalSince(OfUpstreams(log, {}), cutoff, m) == 0
  {
    if log != [] {
      var r, rest := log[|log| - 1], log[..|log| - 1];
      NoUpstreams(rest, cutoff, m);
      UpstreamsStep(rest, r, {}, cutoff, m);
      assert log == rest + [r];
    }
  }

  function Among(order: seq<string>): set<string> {
    set u | u in order
  }

  lemma AmongSnoc(rest: seq<string>, last: string)
    ensures Among(rest + [last]) == Among(rest) + {last}
  {
  }

  lemma {:induction false} SumOverSome(
    log: seq<Row>, cutoff: int, byUp: map<string, Counts>, order: seq<string>, m: Measure)
    requires IsByUpstream(byUp, log, cutoff) && (forall u <- order :: u in byUp) && Unrepeated(order)
    ensures SumOver(byUp, order, m) == TotalSince(OfUpstreams(log, Among(order)), cutoff, m)
  {
    if order == [] {
      assert Among(order) == {};
      NoUpstreams(log, cutoff, m);
    } else {
      var rest, last := order[..|order| - 1], order[|order| - 1];
      SumOverSome(log, cutoff, byUp, rest, m);
      UpstreamsSplit(log, Among(rest), last, cutoff, m);
      assert order == rest + [last];
      AmongSnoc(rest, last);
    }
  }

  /** The per-upstream sums, taken in any order, add up to the totals. */
  lemma UpstreamsAddUp(log: seq<Row>, cutoff: int, byUp: map<string, Counts>, order: seq<string>, m: Measure)
    requires IsByUpstream(byUp, log, cutoff)
    requires Unrepeated(order) && (forall u :: u in order <==> u in byUp)
    ensures SumOver(byUp, order, m) == TotalSince(log, cutoff, m)
  {
    SumOverSome(log, cutoff, byUp, order, m);
    forall r | r in log && Recent(r, cutoff)
      ensures r.upstream in order
    {
      var i :| 0 <= i < |log| && log[i] == r;
      assert r.upstream in UpstreamsSince(log, cutoff);
    }
    SomeUpstreams(log, cutoff, Among(order), m);
  }

  /** A dashboard tile. */
  datatype Period = Period(requests: int, upload: int, download: int, total: int, success: int, failed: int)

  /** The tile shows the totals since its cutoff, whatever the order of the routes. */
  method FoldPeriod(byUp: map<string, Counts>, order: seq<string>, ghost log: seq<Row>, ghost cutoff: int)
    returns (p: Period)
    requires IsByUpstream(byUp, log, cutoff)
    requires Unrepeated(order) && (forall u :: u in order <==> u in byUp)
    ensures Shows(p, log, cutoff)
  {
    var requests, upload, download, success := 0, 0, 0, 0;
    var total, failed := 0, 0;
    for i := 0 to |order|
      invariant requests == SumOver(byUp, order[..i], Requests) && upload == SumOver(byUp, order[..i], BytesIn)
      invariant download == SumOver(byUp, order[..i], BytesOut) && success == SumOver(byUp, order[..i], Oks)
      invariant total == upload + download && requests == success + failed
    {
      var row := byUp[order[i]];
      SumOverOneMore(byUp, order, i);
      requests, upload, download := requests + row.n, upload + row.bytesIn, download + row.bytesOut;
      total, success, failed := total + row.bytesIn + row.bytesOut, success + row.ok, failed + row.n - row.ok;
    }
    assert order[..|order|] == order;
    forall m {
      UpstreamsAddUp(log, cutoff, byUp, order, m);
    }
    SinceSums(log, cutoff);
    p := Period(requests, upload, download, total, success, failed);
  }

  /** A tile that shows the recent rows of the log: their number and their bytes, and how many succeeded. */
  ghost predicate Shows(p: Period, log: seq<Row>, cutoff: int) {
    var rows := RecentRows(log, cutoff);
    && p.requests == |rows| && p.upload == InOf(rows) && p.download == OutOf(rows)
    && p.success == |GoodRows(rows)|
    && p.total == p.upload + p.download && p.requests == p.success + p.failed
  }

  /** The upstreams of a tally, each once; the order in which a tile adds them does not matter. */
  method Listing(byUp: Tally) returns (order: seq<string>)
    ensures Unrepeated(order) && forall u :: u in order <==> u in byUp
  {
    order := [];
    var pending := byUp.Keys;
    while pending != {}
      invariant pending <= byUp.Keys && Unrepeated(order)
      invariant forall u :: u in order <==> u in byUp && u !in pending
      decreases |pending|
    {
      var u := Pick(pending);
      order := order + [u];
      pending := pending - {u};
    }
  }

  /** The dashboard summary from the counters: each tile shows the totals of its period. */
  method Summary(stats: TrafficStats, now: int) returns (day: Period, week: Period, month: Period)
    requires stats.Valid() && now - MONTH >= stats.floor
    ensures Shows(day, stats.log, now - DAY)
    ensures Shows(week, stats.log, now - WEEK)
    ensures Shows(month, stats.log, now - MONTH)
  {
    var d, w, m := stats.FoldHours(now);
    var days := Listing(d);
    var weeks := Listing(w);
    var months := Listing(m);
    day := FoldPeriod(d, days, stats.log, now - DAY);
    week := FoldPeriod(w, weeks, stats.log, now - WEEK);
    month := FoldPeriod(m, months, stats.log, now - MONTH);
  }

  lemma SumOverOneMore(byUp: map<string, Counts>, order: seq<string>, i: nat)
    requires i < |order| && forall u <- order :: u in byUp
    ensures forall m :: SumOver(byUp, order[..i + 1], m) == SumOver(byUp, order[..i], m) + byUp[order[i]].Of(m)
  {
    assert order[..i + 1][..i] == order[..i];
  }

  // ---- The buffer in front of the writer ----

  function Flat(batches: seq<seq<Row>>): seq<Row> {
    if batches == [] then [] else Flat(batches[..|batches| - 1]) + batches[|batches| - 1]
  }

  class TrafficLog {
    const stats: TrafficStats
    var buffer: seq<Row>
    var submitted: seq<seq<Row>>
    ghost var base: seq<Row>

    /** Everything counted since the start is in the buffer or was submitted, once and in order. */
    ghost predicate Valid()
      reads this, stats
    {
      && stats.Valid()
      && |buffer| < FLUSH_BATCH
      && stats.log == base + (Flat(submitted) + buffer)
    }

    constructor (stats: TrafficStats)
      requires stats.Valid()
      ensures Valid() && this.stats == stats && buffer == [] && submitted == []
    {
      this.stats, buffer, submitted, base := stats, [], [], stats.log;
    }

    method Queue(row: Row, now: int)
      requires Valid() && Stamped(row)
      modifies this, stats
      ensures Valid() && base == old(base)
      ensures Flat(submitted) + buffer == old(Flat(submitted) + buffer) + [row]
      ensures submitted == old(submitted) ||
        (submitted != [] && |submitted[|submitted| - 1]| == FLUSH_BATCH && buffer == [])
    {
      stats.Add(row, now);
      buffer := buffer + [row];
      assert Flat(submitted) + buffer == old(Flat(submitted) + buffer) + [row];
      assert stats.log == base + (Flat(submitted) + buffer);
      if |buffer| >= FLUSH_BATCH {
        Flush();
      }
    }

    method Flush()
      requires stats.Valid() && stats.log == base + (Flat(submitted) + buffer)
      modifies this`buffer, this`submitted
      ensures Valid() && buffer == []
      ensures Flat(submitted) == old(Flat(submitted) + buffer)
      ensures submitted == if old(buffer) == [] then old(submitted) else old(submitted) + [old(buffer)]
    {
      if buffer == [] {
        return;
      }
      var batch := buffer;
      buffer := [];
      submitted := submitted + [batch];
      assert submitted[..|submitted| - 1] == old(submitted);
    }
  }
}

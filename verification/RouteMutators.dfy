// What each mutator of the routing tables does to the rows, and what it means for resolution.
// Models the domain-list mutators of hunt/routing.py and the table writes of hunt/blocklists.py.

module RouteMutators {
  import opened Wrappers
  import opened PyText
  import opened RouteIndex
  import opened RouteCache

  // ---- Which lists are tried ----

  predicate IsActive(r: Row) { r.enabled && r.route != "" }

  function WithPriority(rows: seq<Row>, priority: int): seq<Row> {
    if rows == [] then []
    else (if rows[0].priority == priority then [rows[0]] else []) + WithPriority(rows[1..], priority)
  }

  function Actives(rows: seq<Row>): seq<Row> {
    if rows == [] then [] else (if IsActive(rows[0]) then [rows[0]] else []) + Actives(rows[1..])
  }

  lemma {:induction false} InsertCounts(r: Row, rows: seq<Row>)
    ensures multiset(InsertByPriority(r, rows)) == multiset([r] + rows)
  {
    if rows != [] && r.priority > rows[0].priority {
      InsertCounts(r, rows[1..]);
      assert rows == [rows[0]] + rows[1..];
    }
  }

  lemma {:induction false} InsertTies(r: Row, rows: seq<Row>, priority: int)
    ensures WithPriority(InsertByPriority(r, rows), priority) == WithPriority([r] + rows, priority)
  {
    assert ([r] + rows)[1..] == rows;
    if rows != [] && r.priority > rows[0].priority {
      InsertTies(r, rows[1..], priority);
      assert ([r] + rows[1..])[1..] == rows[1..];
      assert ([rows[0]] + InsertByPriority(r, rows[1..]))[1..] == InsertByPriority(r, rows[1..]);
    }
  }

  /** The lists that are tried are exactly the enabled ones with a route, and lists of equal priority
      keep their table order. */
  lemma {:induction false} ActiveExactly(rows: seq<Row>, r: Row, priority: int)
    ensures multiset(ActiveLists(rows))[r] == if IsActive(r) then multiset(rows)[r] else 0
    ensures WithPriority(ActiveLists(rows), priority) == WithPriority(Actives(rows), priority)
  {
    if rows != [] {
      ActiveExactly(rows[1..], r, priority);
      assert rows == [rows[0]] + rows[1..];
      if IsActive(rows[0]) {
        InsertCounts(rows[0], ActiveLists(rows[1..]));
        InsertTies(rows[0], ActiveLists(rows[1..]), priority);
        assert ([rows[0]] + ActiveLists(rows[1..]))[1..] == ActiveLists(rows[1..]);
        assert ([rows[0]] + Actives(rows[1..]))[1..] == Actives(rows[1..]);
      } else {
        assert [] + Actives(rows[1..]) == Actives(rows[1..]);
      }
    }
  }

  // ---- Which patterns are stored ----

  predicate Distinct(items: seq<string>) {
    forall i, j :: 0 <= i < j < |items| ==> items[i] != items[j]
  }

  /** What is stored are the given patterns, stripped and in lower case, without blanks, each once. */
  lemma {:induction false} CleanMeans(patterns: seq<string>, q: string)
    ensures q in Clean(patterns) <==> q != "" && exists p <- patterns :: q == Lower(Strip(p))
    ensures Distinct(Clean(patterns))
    decreases |patterns|
  {
    if patterns != [] {
      var init, last := patterns[..|patterns| - 1], patterns[|patterns| - 1];
      CleanMeans(init, q);
      assert patterns == init + [last];
      assert forall p <- patterns :: p in init || p == last;
    }
  }

  /** A download stores its lines with a dot, each once. */
  lemma {:induction false} YieldedMeans(lines: seq<string>, d: string)
    ensures d in Yielded(lines) <==> d in lines && '.' in d
    ensures Distinct(Yielded(lines))
    decreases |lines|
  {
    if lines != [] {
      var init, last := lines[..|lines| - 1], lines[|lines| - 1];
      YieldedMeans(init, d);
      assert lines == init + [last];
    }
  }

  // ---- What stays and what changes ----

  /** The same rows in the same places, except those with the id. */
  predicate OnlyChanges(before: seq<Row>, after: seq<Row>, id: string) {
    && |after| == |before|
    && forall i :: 0 <= i < |before| ==> after[i].id == before[i].id && (before[i].id != id ==> after[i] == before[i])
  }

  predicate SameSettings(t: Tables, t': Tables) {
    t'.enabled == t.enabled && t'.default == t.default
  }

  /** Toggling flips the switch of exactly the named list. */
  lemma ToggleMeans(t: Tables, id: string)
    ensures var t' := Mutate(t, Toggle(id));
      && SameSettings(t, t') && OnlyChanges(t.rows, t'.rows, id)
      && forall i :: 0 <= i < |t.rows| && t.rows[i].id == id ==>
           t'.rows[i] == Row(id, t.rows[i].route, !t.rows[i].enabled, t.rows[i].priority, t.rows[i].patterns)
  {
    AlterAt(t.rows, id, (r: Row) => r.(enabled := !r.enabled));
  }

  /** Updating gives the named list the given route and switch, if there are any, and the given
      patterns, if there are any, and keeps its priority. */
  lemma UpdateMeans(t: Tables, id: string, settings: Option<Settings>, patterns: Option<seq<string>>)
    ensures var t' := Mutate(t, Update(id, settings, patterns));
      && SameSettings(t, t') && OnlyChanges(t.rows, t'.rows, id)
      && forall i :: 0 <= i < |t.rows| && t.rows[i].id == id ==>
           var r, r' := t.rows[i], t'.rows[i];
           && (settings.Some? ==> r'.route == settings.value.route && r'.enabled == settings.value.enabled)
           && (settings.None? ==> r'.route == r.route && r'.enabled == r.enabled)
           && (patterns.Some? ==> r'.patterns == Clean(patterns.value))
           && (patterns.None? ==> r'.patterns == r.patterns)
           && r'.priority == r.priority
  {
    AlterAt(t.rows, id, (r: Row) => Changed(r, settings, patterns));
  }

  lemma {:induction false} DropSplits(before: seq<Row>, row: Row, after: seq<Row>)
    requires !HasRow(before, row.id) && !HasRow(after, row.id)
    ensures Drop(before + [row] + after, row.id) == before + after
  {
    var rows := before + [row] + after;
    if before == [] {
      assert rows[1..] == after;
      DropNone(after, row.id);
    } else {
      assert before[0].id != row.id;
      assert rows[1..] == before[1..] + [row] + after;
      assert forall i :: 0 <= i < |before| - 1 ==> before[1..][i] == before[i + 1];
      DropSplits(before[1..], row, after);
    }
  }

  lemma {:induction false} DropNone(rows: seq<Row>, id: string)
    requires !HasRow(rows, id)
    ensures Drop(rows, id) == rows
  {
    if rows != [] {
      assert rows[0].id != id;
      assert forall i :: 0 <= i < |rows| - 1 ==> rows[1..][i] == rows[i + 1];
      DropNone(rows[1..], id);
    }
  }

  /** Deleting cuts the list out and leaves all others as they are and where they are; there is nothing
      to cut if no list has the id. */
  lemma DeleteMeans(t: Tables, before: seq<Row>, row: Row, after: seq<Row>)
    requires !HasRow(before, row.id) && !HasRow(after, row.id)
    ensures t.rows == before + [row] + after ==> Mutate(t, Delete(row.id)) == t.(rows := before + after)
    ensures t.rows == before + after ==> Mutate(t, Delete(row.id)) == t
  {
    DropSplits(before, row, after);
    if t.rows == before + after {
      forall i | 0 <= i < |t.rows|
        ensures t.rows[i].id != row.id
      {
        assert i < |before| ==> t.rows[i] == before[i];
        assert i >= |before| ==> t.rows[i] == after[i - |before|];
      }
      DropNone(t.rows, row.id);
    }
  }

  lemma {:induction false} MaxIsThere(rows: seq<Row>)
    ensures MaxPriority(rows) == -1 || exists r <- rows :: r.priority == MaxPriority(rows)
    ensures MaxPriority(rows) >= -1
  {
    if rows != [] {
      MaxIsThere(rows[1..]);
      assert rows[0] in rows && forall r <- rows[1..] :: r in rows;
    }
  }

  /** A new list comes behind all others: at zero in empty tables, else one above the highest. */
  predicate GoesLast(rows: seq<Row>, priority: int) {
    && (forall r <- rows :: r.priority < priority)
    && (priority == 0 || exists r <- rows :: r.priority == priority - 1)
  }

  /** Creating appends the list as given, unless the id is taken. */
  lemma CreateMeans(t: Tables, id: string, route: string, enabled: bool, patterns: seq<string>)
    ensures var t' := Mutate(t, Create(id, route, enabled, patterns));
      if HasRow(t.rows, id) then t' == t
      else
        && SameSettings(t, t') && |t'.rows| == |t.rows| + 1 && t'.rows[..|t.rows|] == t.rows
        && GoesLast(t.rows, t'.rows[|t.rows|].priority)
        && t'.rows[|t.rows|] == Row(id, route, enabled, t'.rows[|t.rows|].priority, Clean(patterns))
  {
    MaxIsMax(t.rows);
    MaxIsThere(t.rows);
  }

  /** A mutator fails exactly for a taken id at a creation and an unknown one at an update or toggle;
      then tables, cache and log stay as they are. */
  lemma FailsExactly(s: State, m: Mutator)
    ensures Commits(s.tables, m) <==>
      !((m.Create? && HasRow(s.tables.rows, m.id)) || ((m.Update? || m.Toggle?) && !HasRow(s.tables.rows, m.id)))
    ensures !Commits(s.tables, m) ==> Apply(s, Change(m)) == s
    ensures Commits(s.tables, m) ==>
      var s' := Apply(s, Change(m));
      s'.tables == Mutate(s.tables, m) && s'.cache.None? && s'.log == s.log + [Version(s.now, s'.tables)]
  {
  }

  /** A download writes its patterns and route to the named list, new ones come last and enabled; a
      download without patterns changes nothing. */
  lemma DownloadMeans(t: Tables, id: string, route: string, lines: seq<string>)
    ensures var t', patterns := WriteBypass(t, Download(id, route, lines)), Yielded(lines);
      && SameSettings(t, t')
      && if patterns == [] then t' == t
         else if HasRow(t.rows, id) then
           && OnlyChanges(t.rows, t'.rows, id)
           && forall i :: 0 <= i < |t.rows| && t.rows[i].id == id ==>
                t'.rows[i] == Row(id, route, t.rows[i].enabled, t.rows[i].priority, patterns)
         else
           && |t'.rows| == |t.rows| + 1 && t'.rows[..|t.rows|] == t.rows
           && GoesLast(t.rows, t'.rows[|t.rows|].priority)
           && t'.rows[|t.rows|] == Row(id, route, true, t'.rows[|t.rows|].priority, patterns)
  {
    AlterAt(t.rows, id, (r: Row) => r.(route := route, patterns := Yielded(lines)));
    MaxIsMax(t.rows);
    MaxIsThere(t.rows);
  }

  /** Dropping a blocklist source removes its list as deleting it does, or at least its patterns. */
  lemma DropSourceMeans(t: Tables, id: string, owned: bool)
    ensures var t' := WriteBypass(t, DropSource(id, owned));
      if owned then t' == Mutate(t, Delete(id))
      else
        && SameSettings(t, t') && OnlyChanges(t.rows, t'.rows, id)
        && forall i :: 0 <= i < |t.rows| && t.rows[i].id == id ==>
             t'.rows[i] == Row(id, t.rows[i].route, t.rows[i].enabled, t.rows[i].priority, [])
  {
    AlterAt(t.rows, id, (r: Row) => r.(patterns := []));
  }

  // ---- What that means for resolution ----

  /** The scan that passes over the lists with the id. */
  function ScanWithout(host: string, rows: seq<Row>, id: string, default: string): string {
    if rows == [] then default
    else if rows[0].id != id && ListMatches(host, rows[0].patterns) then rows[0].route
    else ScanWithout(host, rows[1..], id, default)
  }

  lemma {:induction false} InsertDrops(r: Row, rows: seq<Row>, id: string)
    requires Sorted(rows)
    ensures Drop(InsertByPriority(r, rows), id) ==
      if r.id == id then Drop(rows, id) else InsertByPriority(r, Drop(rows, id))
  {
    if rows == [] {
      assert [r][1..] == [];
    } else if r.priority > rows[0].priority {
      InsertDrops(r, rows[1..], id);
      assert InsertByPriority(r, rows)[1..] == InsertByPriority(r, rows[1..]);
    } else {
      assert ([r] + rows)[1..] == rows;
      DropSound(rows, id);
      assert Drop(rows, id) != [] ==> Drop(rows, id)[0] in rows;
    }
  }

  lemma {:induction false} ActiveDrops(rows: seq<Row>, id: string)
    ensures ActiveLists(Drop(rows, id)) == Drop(ActiveLists(rows), id)
  {
    if rows != [] {
      ActiveDrops(rows[1..], id);
      ActiveSorted(rows[1..]);
      if IsActive(rows[0]) {
        InsertDrops(rows[0], ActiveLists(rows[1..]), id);
      }
      if rows[0].id != id {
        assert ([rows[0]] + Drop(rows[1..], id))[1..] == Drop(rows[1..], id);
      }
    }
  }

  lemma {:induction false} ScanDrops(host: string, rows: seq<Row>, id: string, default: string)
    ensures Scan(host, AsLists(Drop(rows, id)), default) == ScanWithout(host, rows, id, default)
  {
    if rows != [] {
      ScanDrops(host, rows[1..], id, default);
      if rows[0].id != id {
        assert AsLists(Drop(rows, id))[1..] == AsLists(Drop(rows[1..], id));
      }
    }
  }

  /** After a deletion the remaining active lists are tried as before. */
  lemma DeletedIsSkipped(t: Tables, id: string, host: string, runner: Runner)
    requires t.enabled
    ensures Evaluate(Mutate(t, Delete(id)), host, runner) == ScanWithout(host, ActiveLists(t.rows), id, t.default)
  {
    ActiveDrops(t.rows, id);
    ScanDrops(host, ActiveLists(t.rows), id, t.default);
  }

  lemma {:induction false} ActiveWithoutOff(rows: seq<Row>, id: string)
    requires forall r <- rows :: r.id == id ==> r.enabled
    ensures ActiveLists(Alter(rows, id, (r: Row) => r.(enabled := !r.enabled))) == Drop(ActiveLists(rows), id)
  {
    if rows != [] {
      var f := (r: Row) => r.(enabled := !r.enabled);
      assert rows[0] in rows && forall r <- rows[1..] :: r in rows;
      ActiveWithoutOff(rows[1..], id);
      ActiveSorted(rows[1..]);
      assert Alter(rows, id, f)[1..] == Alter(rows[1..], id, f);
      if IsActive(rows[0]) {
        InsertDrops(rows[0], ActiveLists(rows[1..]), id);
      }
    }
  }

  /** Switching a list off is, for resolution, the same as deleting it. */
  lemma SwitchedOffIsSkipped(t: Tables, id: string, host: string, runner: Runner)
    requires t.enabled && forall r <- t.rows :: r.id == id ==> r.enabled
    ensures Evaluate(Mutate(t, Toggle(id)), host, runner) == ScanWithout(host, ActiveLists(t.rows), id, t.default)
  {
    ActiveWithoutOff(t.rows, id);
    ScanDrops(host, ActiveLists(t.rows), id, t.default);
  }

  lemma {:induction false} InsertEmptied(r: Row, rows: seq<Row>, id: string)
    ensures var f := (x: Row) => x.(patterns := []);
      Alter(InsertByPriority(r, rows), id, f) == InsertByPriority(if r.id == id then f(r) else r, Alter(rows, id, f))
  {
    var f := (x: Row) => x.(patterns := []);
    if rows == [] {
      assert [r][1..] == [];
    } else if r.priority > rows[0].priority {
      InsertEmptied(r, rows[1..], id);
      assert InsertByPriority(r, rows)[1..] == InsertByPriority(r, rows[1..]);
      assert Alter(rows, id, f)[1..] == Alter(rows[1..], id, f);
    } else {
      assert ([r] + rows)[1..] == rows;
    }
  }

  lemma {:induction false} ActiveEmptied(rows: seq<Row>, id: string)
    ensures var f := (x: Row) => x.(patterns := []); ActiveLists(Alter(rows, id, f)) == Alter(ActiveLists(rows), id, f)
  {
    if rows != [] {
      var f := (x: Row) => x.(patterns := []);
      ActiveEmptied(rows[1..], id);
      assert Alter(rows, id, f)[1..] == Alter(rows[1..], id, f);
      InsertEmptied(rows[0], ActiveLists(rows[1..]), id);
    }
  }

  lemma {:induction false} ScanEmptied(host: string, rows: seq<Row>, id: string, default: string)
    ensures Scan(host, AsLists(Alter(rows, id, (x: Row) => x.(patterns := []))), default) ==
      ScanWithout(host, rows, id, default)
  {
    if rows != [] {
      var f := (x: Row) => x.(patterns := []);
      ScanEmptied(host, rows[1..], id, default);
      assert AsLists(Alter(rows, id, f))[1..] == AsLists(Alter(rows[1..], id, f));
    }
  }

  /** Either way its hosts are routed by the remaining lists. */
  lemma DroppedSourceIsSkipped(t: Tables, id: string, owned: bool, host: string, runner: Runner)
    requires t.enabled
    ensures Evaluate(WriteBypass(t, DropSource(id, owned)), host, runner) ==
      ScanWithout(host, ActiveLists(t.rows), id, t.default)
  {
    if owned {
      DeletedIsSkipped(t, id, host, runner);
    } else {
      ActiveEmptied(t.rows, id);
      ScanEmptied(host, ActiveLists(t.rows), id, t.default);
    }
  }

  /** With routing off the runner decides: directly, over its active proxy, or over the pool. */
  lemma DisabledAsksRunner(t: Tables, host: string, runner: Runner)
    ensures var route := Evaluate(Mutate(t, Disable), host, runner);
      && (route == "direct" || route == "pool" || HasPrefix(route, "proxy:"))
      && (route == "direct" <==> runner.Runner? && runner.direct)
      && (HasPrefix(route, "proxy:") <==> runner.Runner? && !runner.direct && runner.active != "")
      && (HasPrefix(route, "proxy:") ==> route[6..] == runner.active)
    ensures !t.enabled ==> Evaluate(t, host, runner) == Evaluate(Mutate(t, Disable), host, runner)
  {
    assert |"proxy:"| == 6 && "direct"[0] == 'd' && "pool"[1] == 'o' && "proxy:"[1] == 'r' && "proxy:"[0] == 'p';
  }

  /** With routing on, or a new default route, the lists decide as before, and the default behind them. */
  lemma EnabledScans(t: Tables, route: string, host: string, runner: Runner)
    ensures Mutate(t, Enable).rows == t.rows && Mutate(t, SetDefault(route)).rows == t.rows
    ensures Evaluate(Mutate(t, Enable), host, runner) == Scan(host, AsLists(ActiveLists(t.rows)), t.default)
    ensures Evaluate(Mutate(Mutate(t, SetDefault(route)), Enable), host, runner) ==
      Scan(host, AsLists(ActiveLists(t.rows)), route)
    ensures !t.enabled ==>
      Evaluate(Mutate(t, SetDefault(route)), host, runner) == Evaluate(t, host, runner)
  {
  }

  /** Reordering obeys the given order and changes nothing but priorities. */
  lemma ReorderMeans(t: Tables, order: seq<string>)
    ensures var t' := Mutate(t, Reorder(order));
      && SameSettings(t, t') && |t'.rows| == |t.rows|
      && forall i :: 0 <= i < |t.rows| ==>
           && t'.rows[i] == t.rows[i].(priority := t'.rows[i].priority)
           && (forall k: nat :: LastAt(order, k, t.rows[i].id) ==> t'.rows[i].priority == k)
           && (t.rows[i].id !in order ==> t'.rows[i] == t.rows[i])
  {
    forall i | 0 <= i < |t.rows|
      ensures var rows := Mutate(t, Reorder(order)).rows;
        && |rows| == |t.rows| && rows[i] == t.rows[i].(priority := rows[i].priority)
        && (forall k: nat :: LastAt(order, k, t.rows[i].id) ==> rows[i].priority == k)
        && (t.rows[i].id !in order ==> rows[i] == t.rows[i])
    {
      ReorderIsObeyed(t.rows, order, 0, i);
    }
    if t.rows == [] {
      ReorderEmpty(order, 0);
    }
  }

  lemma {:induction false} ReorderEmpty(order: seq<string>, from: nat)
    ensures Reprioritise([], order, from) == []
    decreases |order|
  {
    if order != [] {
      ReorderEmpty(order[1..], from + 1);
    }
  }
}

// Write-behind persistence of the ratings table.
// Models _save_state and _save_dirty_ratings of hunt/state_persistence.py, the writer thread of
// hunt/db_writer.py and the dirty-set protocol of hunt/check_rating.py, as a state machine in which
// the writer's batches interleave with every step of the main thread.

module WriteBehind {
  import opened Wrappers
  import opened Runs

  type Address = string
  type Record = string  // the serialised rating
  type Table = map<Address, Record>
  type Row = (Address, Record)

  /** Queued statements on the ratings table. */
  datatype Stmt =
    | DeleteAll
    | Insert(rows: seq<Row>)
    | Upsert(rows: seq<Row>)

  function PutAll(rows: seq<Row>, t: Table): Table
    decreases |rows|
  {
    if rows == [] then t else PutAll(rows[1..], t[rows[0].0 := rows[0].1])
  }

  /** A plain INSERT fails on a primary key that is already there. */
  function InsertAll(rows: seq<Row>, t: Table): Option<Table>
    decreases |rows|
  {
    if rows == [] then Some(t)
    else if rows[0].0 in t then None
    else InsertAll(rows[1..], t[rows[0].0 := rows[0].1])
  }

  function Execute(stmt: Stmt, t: Table): Option<Table> {
    match stmt
    case DeleteAll => Some(map[])
    case Insert(rows) => InsertAll(rows, t)
    case Upsert(rows) => Some(PutAll(rows, t))
  }

  /** One transaction: all the statements or, when one fails, none of them. */
  function Transact(stmts: seq<Stmt>, t: Table): Option<Table> {
    if stmts == [] then Some(t)
    else
      match Execute(stmts[0], t)
      case None => None
      case Some(t') => Transact(stmts[1..], t')
  }

  /** The progress of a full save, which blocks the main thread until it is over. */
  datatype FullSave = NotSaving | DeleteQueued | InsertQueued

  /** `gone` is what left memory since the last full save and may still be in the table. */
  datatype State = State(
    memory: Table,
    dirty: set<Address>,
    table: Table,
    queue: seq<Stmt>,
    saving: FullSave,
    gone: set<Address>)

  datatype Action =
    | Update(address: Address, record: Record)
    | Remove(address: Address)
    | SaveDirty(order: seq<Address>)
    | QueueDelete
    | QueueInsert(order: seq<Address>)
    | EndFullSave
    | Batch(size: nat, broken: bool)

  const MAX_BATCH: nat := 128

  /** The rows written for the addresses that are still in memory. */
  function RowsOf(memory: Table, order: seq<Address>): seq<Row> {
    if order == [] then []
    else if order[0] in memory then [(order[0], memory[order[0]])] + RowsOf(memory, order[1..])
    else RowsOf(memory, order[1..])
  }

  predicate Lists(order: seq<Address>, addresses: set<Address>) {
    && (forall a <- order :: a in addresses)
    && (forall a <- addresses :: a in order)
    && (forall i, j :: 0 <= i < j < |order| ==> order[i] != order[j])
  }

  predicate Enabled(s: State, a: Action) {
    match a
    case SaveDirty(order) => s.saving.NotSaving? && Lists(order, s.dirty)
    case QueueInsert(order) => s.saving.DeleteQueued? && Lists(order, s.memory.Keys)
    case EndFullSave => s.saving.InsertQueued? && s.queue == []
    case Batch(size, _) => 1 <= size <= MAX_BATCH && size <= |s.queue|
    case _ => s.saving.NotSaving?
  }

  /** The outcome of the writer's next batch; `broken` stands for a failing connection or commit. */
  function Committed(s: State, size: nat, broken: bool): Option<Table>
    requires size <= |s.queue|
  {
    if broken then None else Transact(s.queue[..size], s.table)
  }

  function Apply(s: State, a: Action): State {
    if !Enabled(s, a) then s
    else
      match a
      case Update(address, record) =>
        s.(memory := s.memory[address := record], dirty := s.dirty + {address}, gone := s.gone - {address})
      case Remove(address) =>
        s.(memory := s.memory - {address}, gone := s.gone + {address})
      case SaveDirty(order) =>
        var rows := RowsOf(s.memory, order);
        s.(queue := if rows == [] then s.queue else s.queue + [Upsert(rows)], dirty := {})
      case QueueDelete => s.(queue := s.queue + [DeleteAll], saving := DeleteQueued)
      case QueueInsert(order) => s.(queue := s.queue + [Insert(RowsOf(s.memory, order))], saving := InsertQueued)
      case EndFullSave => s.(dirty := {}, gone := {}, saving := NotSaving)
      case Batch(size, broken) =>
        s.(queue := s.queue[size..],
           table := match Committed(s, size, broken) case Some(t) => t case None => s.table)
  }

  /** The rows of a save are the listed addresses that are in memory, each once with its record. */
  lemma {:induction false} RowsAre(memory: Table, order: seq<Address>, row: Row)
    ensures row in RowsOf(memory, order) <==> row.0 in order && row.0 in memory && row.1 == memory[row.0]
  {
    if order != [] {
      RowsAre(memory, order[1..], row);
    }
  }

  /** A dirty save queues one statement with exactly the dirty ratings that are in memory, and none if
      there are none; a full save queues a deletion and one statement with all of memory. */
  lemma SavesQueue(s: State, order: seq<Address>, row: Row)
    ensures Enabled(s, SaveDirty(order)) ==>
      var q := Apply(s, SaveDirty(order)).queue;
      if forall a <- s.dirty :: a !in s.memory then q == s.queue
      else
        && |q| == |s.queue| + 1 && q[..|s.queue|] == s.queue && q[|s.queue|].Upsert?
        && (row in q[|s.queue|].rows <==> row.0 in s.dirty && row.0 in s.memory && s.memory[row.0] == row.1)
    ensures Enabled(s, QueueDelete) ==> Apply(s, QueueDelete).queue == s.queue + [DeleteAll]
    ensures Enabled(s, QueueInsert(order)) ==>
      var q := Apply(s, QueueInsert(order)).queue;
      && |q| == |s.queue| + 1 && q[..|s.queue|] == s.queue && q[|s.queue|].Insert?
      && (row in q[|s.queue|].rows <==> row.0 in s.memory && s.memory[row.0] == row.1)
  {
    RowsAre(s.memory, order, row);
    if Enabled(s, SaveDirty(order)) {
      var rows := RowsOf(s.memory, order);
      if rows != [] {
        RowsAre(s.memory, order, rows[0]);
        assert rows[0] in rows;
      }
      if a :| a in s.dirty && a in s.memory {
        RowsAre(s.memory, order, (a, s.memory[a]));
      }
    }
  }

  /** A row whose country codes had to be repaired while it was loaded. */
  function Repaired(t: Table, repairs: Table): Table {
    map a | a in t :: if a in repairs then repairs[a] else t[a]
  }

  /** A freshly started engine: memory as loaded from the table, with the repaired rows dirty. */
  function Loaded(t: Table, repairs: Table): State {
    State(Repaired(t, repairs), t.Keys * repairs.Keys, t, [], NotSaving, {})
  }

  /** The connection and the commits work. */
  function Healthy(): (State, Action) -> bool {
    (s: State, a: Action) => a.Batch? ==> !a.broken
  }

  // ---- Rows and tables ----

  lemma {:induction false} TransactConcat(a: seq<Stmt>, b: seq<Stmt>, t: Table)
    ensures Transact(a + b, t) ==
      match Transact(a, t) case None => None case Some(t') => Transact(b, t')
  {
    if a == [] {
      assert a + b == b;
    } else {
      assert (a + b)[1..] == a[1..] + b;
      if Execute(a[0], t).Some? {
        TransactConcat(a[1..], b, Execute(a[0], t).value);
      }
    }
  }

  lemma TransactOne(stmt: Stmt, t: Table)
    ensures Transact([stmt], t) == Execute(stmt, t)
  {
    if Execute(stmt, t).Some? {
      assert Transact([stmt][1..], Execute(stmt, t).value) == Execute(stmt, t);
    }
  }

  /** Writing the rows of `order` makes the table agree with memory there and changes nothing else. */
  lemma {:induction false} PutRows(memory: Table, order: seq<Address>, t: Table, a: Address)
    ensures var t' := PutAll(RowsOf(memory, order), t);
            if a in order && a in memory then a in t' && t'[a] == memory[a]
            else (a in t' <==> a in t) && (a in t ==> t'[a] == t[a])
  {
    if order != [] {
      var b := order[0];
      if b in memory {
        assert RowsOf(memory, order)[1..] == RowsOf(memory, order[1..]);
        PutRows(memory, order[1..], t[b := memory[b]], a);
        assert RowsOf(memory, order)[0] == (b, memory[b]);
      } else {
        PutRows(memory, order[1..], t, a);
      }
    }
  }

  /** Inserting distinct, absent keys never conflicts. */
  lemma {:induction false} InsertRows(memory: Table, order: seq<Address>, t: Table)
    requires forall i, j :: 0 <= i < j < |order| ==> order[i] != order[j]
    requires forall a <- order :: a !in t
    ensures InsertAll(RowsOf(memory, order), t) == Some(PutAll(RowsOf(memory, order), t))
  {
    if order != [] {
      var b := order[0];
      assert b !in order[1..];
      if b in memory {
        assert RowsOf(memory, order)[1..] == RowsOf(memory, order[1..]);
        assert RowsOf(memory, order)[0] == (b, memory[b]);
        InsertRows(memory, order[1..], t[b := memory[b]]);
      } else {
        InsertRows(memory, order[1..], t);
      }
    }
  }

  lemma InsertIntoEmpty(memory: Table, order: seq<Address>)
    requires Lists(order, memory.Keys)
    ensures Execute(Insert(RowsOf(memory, order)), map[]) == Some(memory)
  {
    InsertRows(memory, order, map[]);
    var t := PutAll(RowsOf(memory, order), map[]);
    forall a ensures AgreesOn(t, memory, a) {
      PutRows(memory, order, map[], a);
    }
    EqualTables(t, memory);
  }

  // ---- Coherence ----

  /** The table as it will be once the queue is written. */
  function Pending(s: State): Option<Table> {
    Transact(s.queue, s.table)
  }

  predicate AgreesOn(t: Table, memory: Table, a: Address) {
    (a in t <==> a in memory) && (a in t ==> t[a] == memory[a])
  }

  ghost predicate Coherent(s: State) {
    && Pending(s).Some?
    && match s.saving
       case NotSaving => forall a :: a !in s.dirty && a !in s.gone ==> AgreesOn(Pending(s).value, s.memory, a)
       case DeleteQueued => Pending(s).value == map[]
       case InsertQueued => Pending(s).value == s.memory
  }

  /** A dirty address that left memory is in `gone`, so a dirty save that skips it loses nothing. */
  ghost predicate DirtyOk(s: State) {
    forall a <- s.dirty :: a in s.memory || a in s.gone
  }

  lemma SubmitKeepsPending(s: State, stmt: Stmt)
    requires Pending(s).Some?
    ensures Transact(s.queue + [stmt], s.table) == Execute(stmt, Pending(s).value)
  {
    TransactConcat(s.queue, [stmt], s.table);
    TransactOne(stmt, Pending(s).value);
  }

  lemma BatchKeepsPending(s: State, size: nat)
    requires Pending(s).Some? && size <= |s.queue|
    ensures Transact(s.queue[..size], s.table).Some?
    ensures Transact(s.queue[size..], Transact(s.queue[..size], s.table).value) == Pending(s)
  {
    TransactConcat(s.queue[..size], s.queue[size..], s.table);
    assert s.queue[..size] + s.queue[size..] == s.queue;
  }

  lemma SaveDirtyKeeps(s: State, order: seq<Address>)
    requires Coherent(s) && DirtyOk(s) && Enabled(s, SaveDirty(order))
    ensures Coherent(Apply(s, SaveDirty(order)))
  {
    var rows := RowsOf(s.memory, order);
    var t := Pending(s).value;
    SubmitKeepsPending(s, Upsert(rows));
    forall a | a !in s.gone
      ensures AgreesOn(PutAll(rows, t), s.memory, a)
    {
      PutRows(s.memory, order, t, a);
    }
  }

  lemma StepKeeps(s: State, a: Action)
    requires Coherent(s) && DirtyOk(s) && (a.Batch? ==> !a.broken)
    ensures Coherent(Apply(s, a)) && DirtyOk(Apply(s, a))
  {
    if Enabled(s, a) {
      match a
      case SaveDirty(order) => SaveDirtyKeeps(s, order);
      case QueueDelete => SubmitKeepsPending(s, DeleteAll);
      case QueueInsert(order) =>
        SubmitKeepsPending(s, Insert(RowsOf(s.memory, order)));
        InsertIntoEmpty(s.memory, order);
      case Batch(size, _) => BatchKeepsPending(s, size);
      case _ =>
    }
  }

  /** After any run on a working connection, the table with the pending queue applied agrees with
      memory on every address that is neither dirty nor removed since the last full save. In
      particular no batch of the run ever fails on a duplicate key. */
  lemma {:induction false} RunCoherent(s: State, actions: seq<Action>)
    requires Coherent(s) && DirtyOk(s) && Guarded(Apply, Healthy(), s, actions)
    ensures Coherent(Run(Apply, s, actions)) && DirtyOk(Run(Apply, s, actions))
    decreases |actions|
  {
    if actions != [] {
      StepKeeps(s, actions[0]);
      RunCoherent(Apply(s, actions[0]), actions[1..]);
    }
  }

  lemma LoadedCoherent(t: Table, repairs: Table)
    ensures Coherent(Loaded(t, repairs)) && DirtyOk(Loaded(t, repairs))
  {
  }

  lemma EqualTables(t: Table, u: Table)
    requires forall a :: AgreesOn(t, u, a)
    ensures t == u
  {
    forall a: Address
      ensures (a in t <==> a in u) && (a in t ==> t[a] == u[a])
    {
      assert AgreesOn(t, u, a);
    }
  }

  /** Once nothing is dirty and the queue is written, table and memory agree on every address that
      was not removed since the last full save; right after a full save they are equal. */
  lemma QuiescentAgrees(t: Table, repairs: Table, actions: seq<Action>)
    requires Guarded(Apply, Healthy(), Loaded(t, repairs), actions)
    ensures var s := Run(Apply, Loaded(t, repairs), actions);
            s.queue == [] && s.saving.NotSaving? && s.dirty == {} ==>
              && (forall a :: a !in s.gone ==> AgreesOn(s.table, s.memory, a))
              && (s.gone == {} ==> s.table == s.memory)
  {
    LoadedCoherent(t, repairs);
    RunCoherent(Loaded(t, repairs), actions);
    var s := Run(Apply, Loaded(t, repairs), actions);
    if s.queue == [] && s.saving.NotSaving? && s.dirty == {} && s.gone == {} {
      EqualTables(s.table, s.memory);
    }
  }

  // ---- Rollback ----

  /** A rolled-back batch is consumed: its rows are lost although nothing is marked dirty any more,
      and waiting for the queue does not tell. */
  lemma RollbackLosesUpdates(a: Address, r: Record)
    returns (actions: seq<Action>)
    ensures var s := Run(Apply, Loaded(map[], map[]), actions);
            && s.queue == [] && s.dirty == {} && s.gone == {} && s.saving.NotSaving?
            && s.memory == map[a := r] && s.table == map[]
  {
    var s0 := Loaded(map[], map[]);
    assert s0.memory == map[] && s0.dirty == {};
    actions := [Update(a, r), SaveDirty([a]), Batch(1, true)];
    var s1 := s0.(memory := map[a := r], dirty := {a});
    var s2 := s1.(queue := [Upsert([(a, r)])], dirty := {});
    assert Apply(s0, actions[0]) == s1;
    assert [a][1..] == [] && RowsOf(s1.memory, [a]) == [(a, r)];
    assert Lists([a], s1.dirty);
    assert Apply(s1, actions[1]) == s2;
    assert s2.queue[1..] == [];
    Three(Apply, Healthy(), s0, s1, s2, s2.(queue := []), actions[0], actions[1], actions[2]);
  }

  /** How many of the current full save's own statements are still queued. */
  function OwnStatements(s: State): nat {
    match s.saving
    case NotSaving => 0
    case DeleteQueued => if s.queue == [] then 0 else 1
    case InsertQueued => if |s.queue| < 2 then |s.queue| else 2
  }

  /** A batch is rolled back only if it holds no statement of the full save in progress. */
  function SaveSucceeds(): (State, Action) -> bool {
    (s: State, a: Action) =>
      a.Batch? && Enabled(s, a) && Committed(s, a.size, a.broken).None? ==> a.size <= |s.queue| - OwnStatements(s)
  }

  ghost predicate Saving(s: State) {
    match s.saving
    case NotSaving => true
    case DeleteQueued => if s.queue == [] then s.table == map[] else s.queue[|s.queue| - 1] == DeleteAll
    case InsertQueued =>
      if s.queue == [] then s.table == s.memory
      else
        && s.queue[|s.queue| - 1].Insert?
        && Execute(s.queue[|s.queue| - 1], map[]) == Some(s.memory)
        && if |s.queue| == 1 then s.table == map[] else s.queue[|s.queue| - 2] == DeleteAll
  }

  lemma LastOf(stmts: seq<Stmt>, t: Table)
    requires stmts != [] && Transact(stmts, t).Some?
    ensures var init := Transact(stmts[..|stmts| - 1], t);
            init.Some? && Transact(stmts, t) == Execute(stmts[|stmts| - 1], init.value)
  {
    var k := |stmts| - 1;
    assert stmts == stmts[..k] + [stmts[k]];
    TransactConcat(stmts[..k], [stmts[k]], t);
    if Transact(stmts[..k], t).Some? {
      TransactOne(stmts[k], Transact(stmts[..k], t).value);
    }
  }

  lemma SavingBatchKeeps(s: State, size: nat, broken: bool)
    requires Saving(s) && Enabled(s, Batch(size, broken)) && SaveSucceeds()(s, Batch(size, broken))
    ensures Saving(Apply(s, Batch(size, broken)))
  {
    if Committed(s, size, broken).Some? && !s.saving.NotSaving? {
      var done := s.queue[..size];
      LastOf(done, s.table);
      if s.saving.InsertQueued? && size == |s.queue| >= 2 {
        assert done == s.queue;
        LastOf(done[..size - 1], s.table);
        assert done[..size - 1][size - 2] == DeleteAll;
      }
    }
  }

  lemma {:induction false} SavingRunKeeps(s: State, actions: seq<Action>)
    requires Saving(s) && Guarded(Apply, SaveSucceeds(), s, actions)
    ensures Saving(Run(Apply, s, actions))
    decreases |actions|
  {
    if actions != [] {
      var a := actions[0];
      if Enabled(s, a) {
        match a
        case Batch(size, broken) => SavingBatchKeeps(s, size, broken);
        case QueueInsert(order) => InsertIntoEmpty(s.memory, order);
        case _ =>
      }
      SavingRunKeeps(Apply(s, a), actions[1..]);
    }
  }

  /** A full save whose own batches commit leaves the table equal to memory, whatever was lost, left
      over or queued before it. */
  lemma FullSaveHeals(s: State, actions: seq<Action>)
    requires s.saving.NotSaving?
    requires Guarded(Apply, SaveSucceeds(), s, actions)
    ensures var s' := Run(Apply, s, actions);
            Enabled(s', EndFullSave) ==>
              var s'' := Apply(s', EndFullSave); s''.table == s''.memory && s''.dirty == {}
  {
    SavingRunKeeps(s, actions);
  }
}

// What a rolled-back batch costs, over every run, healthy or not.
// Models the consequence of hunt/db_writer.py consuming a failed batch while the dirty set of
// hunt/state_persistence.py was cleared when its rows were submitted.

module WriteLoss {
  import opened Wrappers
  import opened Runs
  import opened WriteBehind

  // ---- The last row that the queue holds for an address ----

  function LastIn(rows: seq<Row>, a: Address): Option<Record> {
    if rows == [] then None
    else if LastIn(rows[1..], a).Some? then LastIn(rows[1..], a)
    else if rows[0].0 == a then Some(rows[0].1)
    else None
  }

  function LastOfStmt(stmt: Stmt, a: Address): Option<Record> {
    if stmt.Upsert? then LastIn(stmt.rows, a) else None
  }

  function LastWrite(queue: seq<Stmt>, a: Address): Option<Record> {
    if queue == [] then None
    else if LastWrite(queue[1..], a).Some? then LastWrite(queue[1..], a)
    else LastOfStmt(queue[0], a)
  }

  predicate Writes(queue: seq<Stmt>, a: Address) {
    LastWrite(queue, a).Some?
  }

  predicate Upserts(queue: seq<Stmt>) {
    forall stmt <- queue :: stmt.Upsert?
  }

  function At(t: Table, a: Address): Option<Record> {
    if a in t then Some(t[a]) else None
  }

  lemma {:induction false} PutAt(rows: seq<Row>, t: Table, a: Address)
    ensures At(PutAll(rows, t), a) == if LastIn(rows, a).Some? then LastIn(rows, a) else At(t, a)
    decreases |rows|
  {
    if rows != [] {
      PutAt(rows[1..], t[rows[0].0 := rows[0].1], a);
    }
  }

  /** Upserts never fail, and the table ends with the last row of each address. */
  lemma {:induction false} UpsertsAt(queue: seq<Stmt>, t: Table, a: Address)
    requires Upserts(queue)
    ensures Transact(queue, t).Some?
    ensures At(Transact(queue, t).value, a) == if Writes(queue, a) then LastWrite(queue, a) else At(t, a)
  {
    if queue != [] {
      assert queue[0] in queue;
      PutAt(queue[0].rows, t, a);
      UpsertsAt(queue[1..], PutAll(queue[0].rows, t), a);
    }
  }

  lemma {:induction false} LastWriteConcat(q: seq<Stmt>, r: seq<Stmt>, a: Address)
    ensures LastWrite(q + r, a) == if Writes(r, a) then LastWrite(r, a) else LastWrite(q, a)
  {
    if q == [] {
      assert q + r == r;
    } else {
      assert (q + r)[1..] == q[1..] + r;
      LastWriteConcat(q[1..], r, a);
    }
  }

  lemma {:induction false} LastOfRows(memory: Table, order: seq<Address>, a: Address)
    ensures LastIn(RowsOf(memory, order), a) == if a in order then At(memory, a) else None
  {
    if order != [] {
      LastOfRows(memory, order[1..], a);
      if order[0] in memory {
        assert RowsOf(memory, order)[1..] == RowsOf(memory, order[1..]);
        assert RowsOf(memory, order)[0] == (order[0], memory[order[0]]);
      }
    }
  }

  // ---- What every run keeps, whatever fails ----

  /** Nothing is known to be left to save for `a`. */
  predicate Clean(s: State, a: Address) {
    a !in s.dirty && a !in s.gone
  }

  /** The insert of a full save: all of memory, in some order. */
  ghost predicate InsertsMemory(stmt: Stmt, memory: Table) {
    exists order :: Lists(order, memory.Keys) && stmt == Insert(RowsOf(memory, order))
  }

  /** The two statements of a full save stand at the end of the queue, behind upserts. */
  ghost predicate SaveInQueue(s: State) {
    var n := |s.queue|;
    match s.saving
    case NotSaving => Upserts(s.queue)
    case DeleteQueued => n == 0 || (s.queue[n - 1] == DeleteAll && Upserts(s.queue[..n - 1]))
    case InsertQueued =>
      n == 0 || (InsertsMemory(s.queue[n - 1], s.memory)
                 && (n == 1 || (s.queue[n - 2] == DeleteAll && Upserts(s.queue[..n - 2]))))
  }

  /** Outside a full save the last row queued for a clean address is the one in memory. */
  ghost predicate QueueOk(s: State) {
    && DirtyOk(s) && SaveInQueue(s)
    && (s.saving.NotSaving? ==>
          forall a :: Clean(s, a) && Writes(s.queue, a) ==> LastWrite(s.queue, a) == At(s.memory, a))
  }

  lemma SaveKeepsQueue(s: State, order: seq<Address>)
    requires QueueOk(s) && Enabled(s, SaveDirty(order))
    ensures QueueOk(Apply(s, SaveDirty(order)))
    ensures var s' := Apply(s, SaveDirty(order));
      forall a :: Writes(s'.queue, a) <==> Writes(s.queue, a) || (a in s.dirty && a in s.memory)
  {
    var rows := RowsOf(s.memory, order);
    var s' := Apply(s, SaveDirty(order));
    forall a
      ensures LastWrite(s'.queue, a) ==
        if a in s.dirty && a in s.memory then At(s.memory, a) else LastWrite(s.queue, a)
    {
      LastOfRows(s.memory, order, a);
      LastWriteConcat(s.queue, [Upsert(rows)], a);
      assert LastWrite([Upsert(rows)], a) == LastIn(rows, a);
    }
  }

  lemma BatchSplits(s: State, size: nat, a: Address)
    requires size <= |s.queue|
    ensures LastWrite(s.queue, a) ==
      if Writes(s.queue[size..], a) then LastWrite(s.queue[size..], a) else LastWrite(s.queue[..size], a)
  {
    assert s.queue[..size] + s.queue[size..] == s.queue;
    LastWriteConcat(s.queue[..size], s.queue[size..], a);
  }

  lemma BatchKeepsQueue(s: State, size: nat, broken: bool)
    requires QueueOk(s) && Enabled(s, Batch(size, broken))
    ensures QueueOk(Apply(s, Batch(size, broken)))
  {
    BatchKeepsSave(s, size, broken);
    forall a | Writes(s.queue[size..], a)
      ensures LastWrite(s.queue[size..], a) == LastWrite(s.queue, a)
    {
      BatchSplits(s, size, a);
    }
  }

  lemma BatchKeepsSave(s: State, size: nat, broken: bool)
    requires SaveInQueue(s) && Enabled(s, Batch(size, broken))
    ensures SaveInQueue(Apply(s, Batch(size, broken)))
  {
    var n, rest := |s.queue|, s.queue[size..];
    if |rest| > 0 {
      assert rest[|rest| - 1] == s.queue[n - 1];
      assert rest[..|rest| - 1] == s.queue[..n - 1][size..];
    }
    if |rest| > 1 {
      assert rest[|rest| - 2] == s.queue[n - 2];
      assert rest[..|rest| - 2] == s.queue[..n - 2][size..];
    }
  }

  lemma SaveStepKeeps(s: State, a: Action)
    requires SaveInQueue(s) && Enabled(s, a) && (a.QueueDelete? || a.QueueInsert?)
    ensures SaveInQueue(Apply(s, a))
  {
    var n, queue := |s.queue|, Apply(s, a).queue;
    assert queue[..n] == s.queue;
    if a.QueueInsert? {
      assert InsertsMemory(queue[n], s.memory);
      assert n > 0 ==> queue[..n - 1] == s.queue[..n - 1];
    }
  }

  lemma StepKeepsQueue(s: State, a: Action)
    requires QueueOk(s)
    ensures QueueOk(Apply(s, a))
  {
    if Enabled(s, a) {
      match a
      case SaveDirty(order) => SaveKeepsQueue(s, order);
      case Batch(size, broken) => BatchKeepsQueue(s, size, broken);
      case QueueDelete => SaveStepKeeps(s, a);
      case QueueInsert(_) => SaveStepKeeps(s, a);
      case _ =>
    }
  }

  lemma {:induction false} RunKeepsQueue(s: State, actions: seq<Action>)
    requires QueueOk(s)
    ensures QueueOk(Run(Apply, s, actions))
    decreases |actions|
  {
    if actions != [] {
      StepKeepsQueue(s, actions[0]);
      RunKeepsQueue(Apply(s, actions[0]), actions[1..]);
    }
  }

  // ---- The statements of a full save ----

  /** Some row of memory is in the table already, on which a plain insert fails. */
  predicate Clash(t: Table, memory: Table) {
    exists k <- t :: k in memory
  }

  lemma {:induction false} InsertFails(memory: Table, order: seq<Address>, t: Table, a: Address)
    requires a in order && a in memory && a in t
    ensures InsertAll(RowsOf(memory, order), t) == None
  {
    var b := order[0];
    if b in memory {
      assert RowsOf(memory, order)[1..] == RowsOf(memory, order[1..]);
      assert RowsOf(memory, order)[0] == (b, memory[b]);
      if b !in t {
        InsertFails(memory, order[1..], t[b := memory[b]], a);
      }
    } else {
      InsertFails(memory, order[1..], t, a);
    }
  }

  /** The insert of a full save fails exactly on a clash, and otherwise adds memory to the table. */
  lemma InsertAt(stmt: Stmt, memory: Table, t: Table, a: Address)
    requires InsertsMemory(stmt, memory)
    ensures Execute(stmt, t).None? <==> Clash(t, memory)
    ensures Execute(stmt, t).Some? ==>
      At(Execute(stmt, t).value, a) == if a in memory then At(memory, a) else At(t, a)
  {
    var order :| Lists(order, memory.Keys) && stmt == Insert(RowsOf(memory, order));
    if k :| k in t && k in memory {
      InsertFails(memory, order, t, k);
    } else {
      InsertRows(memory, order, t);
      PutAt(RowsOf(memory, order), t, a);
      LastOfRows(memory, order, a);
    }
  }

  predicate HoldsInsert(s: State, size: nat) {
    s.saving.InsertQueued? && size == |s.queue|
  }

  predicate HoldsDelete(s: State, size: nat) {
    || (s.saving.DeleteQueued? && size == |s.queue|)
    || (s.saving.InsertQueued? && |s.queue| >= 2 && size >= |s.queue| - 1)
  }

  /** Upserts and the delete behind them empty the table, and nothing in them can fail. */
  lemma DeleteEmpties(stmts: seq<Stmt>, t: Table)
    requires stmts != [] && stmts[|stmts| - 1] == DeleteAll && Upserts(stmts[..|stmts| - 1])
    ensures Transact(stmts, t) == Some(map[])
  {
    var init := stmts[..|stmts| - 1];
    UpsertsAt(init, t, "");
    TransactConcat(init, [DeleteAll], t);
    TransactOne(DeleteAll, Transact(init, t).value);
    assert stmts == init + [DeleteAll];
  }

  lemma BothReplace(stmts: seq<Stmt>, memory: Table, t: Table)
    requires |stmts| >= 2 && InsertsMemory(stmts[|stmts| - 1], memory)
    requires stmts[|stmts| - 2] == DeleteAll && Upserts(stmts[..|stmts| - 2])
    ensures Transact(stmts, t) == Some(memory)
  {
    var init, last := stmts[..|stmts| - 1], stmts[|stmts| - 1];
    assert init[..|init| - 1] == stmts[..|stmts| - 2];
    DeleteEmpties(init, t);
    TransactConcat(init, [last], t);
    TransactOne(last, map[]);
    assert stmts == init + [last];
    var order :| Lists(order, memory.Keys) && last == Insert(RowsOf(memory, order));
    InsertIntoEmpty(memory, order);
  }

  // ---- The cost, exactly ----

  predicate RolledBack(s: State, a: Action) {
    a.Batch? && Enabled(s, a) && Committed(s, a.size, a.broken).None?
  }

  /** What the insert of a full save leaves wrong when it meets the table `t`: it fails on a clash, and
      without one it leaves the rows that are not in memory. */
  predicate Spoils(t: Table, memory: Table, a: Address) {
    if Clash(t, memory) then !AgreesOn(t, memory, a) else a in t && a !in memory
  }

  /** `a` will be wrong in the table once the queue is written. Outside a full save: it is clean,
      nothing is queued for it, and its row is not the one in memory. In a full save whose delete is no
      longer queued: the table is one that the insert spoils or, with the insert gone too, is wrong. */
  predicate Lost(s: State, a: Address) {
    match s.saving
    case NotSaving => Clean(s, a) && !Writes(s.queue, a) && !AgreesOn(s.table, s.memory, a)
    case DeleteQueued => s.queue == [] && Spoils(s.table, s.memory, a)
    case InsertQueued =>
      if s.queue == [] then !AgreesOn(s.table, s.memory, a)
      else |s.queue| == 1 && Spoils(s.table, s.memory, a)
  }

  /** `Lost` says what it should: the queue, once written, leaves a clean address wrong. */
  lemma LostMeansWrong(s: State, a: Address)
    requires QueueOk(s) && s.saving.NotSaving? && Clean(s, a)
    ensures Pending(s).Some? && (AgreesOn(Pending(s).value, s.memory, a) <==> !Lost(s, a))
  {
    UpsertsAt(s.queue, s.table, a);
  }

  /** What a rolled-back batch costs: a clean address comes out right if and only if the remaining
      queue writes it again or the table was right about it already. */
  lemma RollbackCost(s: State, act: Action, a: Address)
    requires QueueOk(s) && s.saving.NotSaving? && RolledBack(s, act) && Clean(s, a)
    ensures var s' := Apply(s, act);
      && Pending(s').Some?
      && (AgreesOn(Pending(s').value, s'.memory, a) <==>
            Writes(s.queue[act.size..], a) || AgreesOn(s.table, s.memory, a))
  {
    StepKeepsQueue(s, act);
    LostMeansWrong(Apply(s, act), a);
  }

  /** What only a rolled-back batch can do, by the statements it held. Outside a full save: it was the
      last to write a clean address that the table has wrong. In a full save: with both statements, the
      table stays as it was; with the delete alone, the insert will meet the old table; with the insert
      alone, the rows of memory are missing. */
  predicate Costs(s: State, act: Action, a: Address) {
    && RolledBack(s, act)
    && if s.saving.NotSaving? then
         Clean(s, a) && !Writes(s.queue[act.size..], a) && !AgreesOn(s.table, s.memory, a)
       else if HoldsDelete(s, act.size) && HoldsInsert(s, act.size) then !AgreesOn(s.table, s.memory, a)
       else if HoldsDelete(s, act.size) then Spoils(s.table, s.memory, a)
       else HoldsInsert(s, act.size) && a in s.memory && a !in s.table
  }

  /** The step starts over with `a`: it is changed or removed, or a full save begins. */
  predicate Renews(s: State, act: Action, a: Address) {
    && Enabled(s, act)
    && match act
       case Update(b, _) => a == b
       case Remove(b) => a == b
       case QueueDelete => true
       case _ => false
  }

  lemma CommitLosesNothing(s: State, size: nat, broken: bool, a: Address)
    requires QueueOk(s) && s.saving.NotSaving? && Enabled(s, Batch(size, broken))
    requires !RolledBack(s, Batch(size, broken))
    ensures Lost(Apply(s, Batch(size, broken)), a) <==> Lost(s, a)
  {
    assert Upserts(s.queue[..size]);
    UpsertsAt(s.queue[..size], s.table, a);
    BatchSplits(s, size, a);
  }

  lemma RollbackStep(s: State, size: nat, broken: bool, a: Address)
    requires QueueOk(s) && s.saving.NotSaving? && RolledBack(s, Batch(size, broken))
    ensures Lost(Apply(s, Batch(size, broken)), a) <==> Costs(s, Batch(size, broken), a)
    ensures Lost(s, a) ==> Costs(s, Batch(size, broken), a)
  {
    BatchSplits(s, size, a);
  }

  lemma DeleteBatch(s: State, size: nat, broken: bool, a: Address)
    requires QueueOk(s) && Enabled(s, Batch(size, broken)) && HoldsDelete(s, size) && !HoldsInsert(s, size)
    ensures RolledBack(s, Batch(size, broken)) <==> broken
    ensures Lost(Apply(s, Batch(size, broken)), a) <==> Costs(s, Batch(size, broken), a)
  {
    var done := s.queue[..size];
    assert done[..size - 1] == s.queue[..size - 1];
    DeleteEmpties(done, s.table);
  }

  lemma BothBatch(s: State, size: nat, broken: bool, a: Address)
    requires QueueOk(s) && Enabled(s, Batch(size, broken)) && HoldsDelete(s, size) && HoldsInsert(s, size)
    ensures RolledBack(s, Batch(size, broken)) <==> broken
    ensures Lost(Apply(s, Batch(size, broken)), a) <==> Costs(s, Batch(size, broken), a)
  {
    assert s.queue[..size] == s.queue;
    BothReplace(s.queue, s.memory, s.table);
  }

  lemma InsertBatch(s: State, broken: bool, a: Address)
    requires QueueOk(s) && s.saving.InsertQueued? && |s.queue| == 1
    ensures RolledBack(s, Batch(1, broken)) <==> broken || Clash(s.table, s.memory)
    ensures Lost(Apply(s, Batch(1, broken)), a) <==> Costs(s, Batch(1, broken), a) || Lost(s, a)
  {
    var stmt := s.queue[0];
    assert s.queue[..1] == [stmt] && s.queue[1..] == [];
    TransactOne(stmt, s.table);
    InsertAt(stmt, s.memory, s.table, a);
  }

  lemma SavingBatch(s: State, size: nat, broken: bool, a: Address)
    requires QueueOk(s) && Enabled(s, Batch(size, broken)) && !s.saving.NotSaving?
    ensures Lost(Apply(s, Batch(size, broken)), a) <==> Costs(s, Batch(size, broken), a) || Lost(s, a)
  {
    if HoldsDelete(s, size) && HoldsInsert(s, size) {
      BothBatch(s, size, broken, a);
    } else if HoldsDelete(s, size) {
      DeleteBatch(s, size, broken, a);
    } else if HoldsInsert(s, size) {
      InsertBatch(s, broken, a);
    }
  }

  /** Every step: an address is lost afterwards if and only if the step costs it, or it was lost and
      the step does not start over with it. */
  lemma LossStepExactly(s: State, act: Action, a: Address)
    requires QueueOk(s)
    ensures Lost(Apply(s, act), a) <==> Costs(s, act, a) || (Lost(s, a) && !Renews(s, act, a))
  {
    if Enabled(s, act) {
      match act
      case SaveDirty(order) => SaveKeepsQueue(s, order);
      case Batch(size, broken) =>
        if !s.saving.NotSaving? {
          SavingBatch(s, size, broken, a);
        } else if RolledBack(s, act) {
          RollbackStep(s, size, broken, a);
        } else {
          CommitLosesNothing(s, size, broken, a);
        }
      case _ =>
    }
  }

  /** A full save whose statements are both queued, by which of them committed: together they replace
      the table or leave it; apart, an insert that fails behind the delete leaves nothing, and one that
      goes through although the delete failed leaves the rows that are not in memory. */
  lemma SaveOutcome(s: State, deleteBroken: bool, insertBroken: bool, a: Address)
    requires QueueOk(s) && s.saving.InsertQueued? && 2 <= |s.queue| <= MAX_BATCH
    ensures AgreesOn(Apply(s, Batch(|s.queue|, deleteBroken)).table, s.memory, a) <==>
      !deleteBroken || AgreesOn(s.table, s.memory, a)
    ensures var s1 := Apply(s, Batch(|s.queue| - 1, deleteBroken));
      AgreesOn(Apply(s1, Batch(1, insertBroken)).table, s.memory, a) <==>
        if !deleteBroken then !insertBroken || a !in s.memory
        else if insertBroken || Clash(s.table, s.memory) then AgreesOn(s.table, s.memory, a)
        else a in s.memory || a !in s.table
  {
    var n := |s.queue|;
    BothBatch(s, n, deleteBroken, a);
    var first, second := Batch(n - 1, deleteBroken), Batch(1, insertBroken);
    var s1 := Apply(s, first);
    DeleteBatch(s, n - 1, deleteBroken, a);
    StepKeepsQueue(s, first);
    InsertBatch(s1, insertBroken, a);
    if !deleteBroken {
      assert s.queue[..n - 1][..n - 2] == s.queue[..n - 2];
      DeleteEmpties(s.queue[..n - 1], s.table);
      assert s1.table == map[];
    }
  }

  function Before(s: State, actions: seq<Action>, i: nat): State
    requires i <= |actions|
  {
    Run(Apply, s, actions[..i])
  }

  /** Step `i` costs `a`, and no later step starts over with it. */
  ghost predicate LostAt(s: State, actions: seq<Action>, a: Address, i: nat) {
    && i < |actions|
    && Costs(Before(s, actions, i), actions[i], a)
    && forall j: nat :: i < j < |actions| ==> !Renews(Before(s, actions, j), actions[j], a)
  }

  lemma LostAtSnoc(s: State, actions: seq<Action>, act: Action, a: Address, i: nat)
    requires i <= |actions|
    ensures LostAt(s, actions + [act], a, i) <==>
      if i == |actions| then Costs(Run(Apply, s, actions), act, a)
      else LostAt(s, actions, a, i) && !Renews(Run(Apply, s, actions), act, a)
  {
    forall j: nat | j <= |actions|
      ensures Before(s, actions + [act], j) == Before(s, actions, j)
    {
      assert (actions + [act])[..j] == actions[..j];
    }
    assert actions[..|actions|] == actions && (actions + [act])[|actions|] == act;
    assert forall j: nat :: j < |actions| ==> (actions + [act])[j] == actions[j];
  }

  ghost predicate LossIsExact(s: State, actions: seq<Action>, a: Address) {
    Lost(Run(Apply, s, actions), a) <==> exists i: nat :: LostAt(s, actions, a, i)
  }

  lemma {:induction false} LossExactly(s: State, actions: seq<Action>, a: Address)
    requires QueueOk(s) && !Lost(s, a)
    ensures LossIsExact(s, actions, a)
    decreases |actions|
  {
    if actions != [] {
      var init, act := actions[..|actions| - 1], actions[|actions| - 1];
      assert actions == init + [act];
      Snoc(Apply, Healthy(), s, init, act);
      RunKeepsQueue(s, init);
      LossExactly(s, init, a);
      forall i: nat | i <= |init|
        ensures LostAt(s, actions, a, i) <==>
          if i == |init| then Costs(Run(Apply, s, init), act, a)
          else LostAt(s, init, a, i) && !Renews(Run(Apply, s, init), act, a)
      {
        LostAtSnoc(s, init, act, a, i);
      }
      LossSnoc(s, init, act, a);
    }
  }

  lemma LossSnoc(s: State, init: seq<Action>, act: Action, a: Address)
    requires QueueOk(Run(Apply, s, init)) && LossIsExact(s, init, a)
    requires Run(Apply, s, init + [act]) == Apply(Run(Apply, s, init), act)
    requires forall i: nat | i <= |init| ::
      LostAt(s, init + [act], a, i) <==>
        if i == |init| then Costs(Run(Apply, s, init), act, a)
        else LostAt(s, init, a, i) && !Renews(Run(Apply, s, init), act, a)
    ensures LossIsExact(s, init + [act], a)
  {
    var s1 := Run(Apply, s, init);
    LossStepExactly(s1, act, a);
    if Costs(s1, act, a) {
      assert LostAt(s, init + [act], a, |init|);
    }
    if i: nat :| LostAt(s, init, a, i) {
      assert LostAt(s, init + [act], a, i) <==> !Renews(s1, act, a);
    }
  }

  /** Over every run from a freshly loaded engine, whatever batches fail: what is neither dirty nor
      removed will come out right in the table if and only if no rolled-back batch cost it since it was
      last changed or removed or the last full save began. */
  lemma RunCost(t: Table, repairs: Table, actions: seq<Action>, a: Address)
    ensures var s := Run(Apply, Loaded(t, repairs), actions);
      s.saving.NotSaving? && Clean(s, a) ==>
        && Pending(s).Some?
        && (AgreesOn(Pending(s).value, s.memory, a) <==> !exists i: nat :: LostAt(Loaded(t, repairs), actions, a, i))
  {
    RunKeepsQueue(Loaded(t, repairs), actions);
    LossExactly(Loaded(t, repairs), actions, a);
    var s := Run(Apply, Loaded(t, repairs), actions);
    if s.saving.NotSaving? && Clean(s, a) {
      LostMeansWrong(s, a);
    }
  }
}

// The ratings store and its background writer as objects.
// Models _DbWriter of hunt/db_writer.py, the save methods of hunt/state_persistence.py and the save
// cadence of hunt/check_rating.py. The runs they take part in are the subject of WriteBehind.

module RatingStore {
  import opened Wrappers
  import opened Runs
  import opened WriteBehind
  import opened WriteLoss

  class DbWriter {
    var queue: seq<Stmt>
    var table: Table

    constructor (table: Table)
      ensures this.table == table && queue == []
    {
      this.table := table;
      queue := [];
    }

    method Submit(stmt: Stmt)
      modifies this`queue
      ensures queue == old(queue) + [stmt]
    {
      queue := queue + [stmt];
    }

    /** One pass of the writer loop: the first item and up to 127 more in one transaction. A failing
        batch is rolled back and consumed all the same. */
    method RunBatch(broken: bool) returns (size: nat, committed: bool)
      requires queue != []
      modifies this
      ensures size == if |old(queue)| < MAX_BATCH then |old(queue)| else MAX_BATCH
      ensures queue == old(queue)[size..]
      ensures committed <==> !broken && Transact(old(queue)[..size], old(table)).Some?
      ensures table == if committed then Transact(old(queue)[..size], old(table)).value else old(table)
    {
      var batch := [queue[0]];
      while |batch| < MAX_BATCH && |batch| < |queue|
        invariant 1 <= |batch| <= MAX_BATCH && |batch| <= |queue|
        invariant batch == queue[..|batch|]
      {
        batch := batch + [queue[|batch|]];
      }
      size := |batch|;
      queue := queue[size..];
      var work, i := Some(table), 0;
      while i < |batch| && work.Some?
        invariant i <= |batch|
        invariant work.Some? ==> Transact(batch, table) == Transact(batch[i..], work.value)
        invariant work.None? ==> Transact(batch, table).None?
      {
        assert batch[i..][1..] == batch[i + 1..];
        work := Execute(batch[i], work.value);
        i := i + 1;
      }
      assert batch[|batch|..] == [];
      committed := work.Some? && !broken;
      if committed {
        table := work.value;
      }
    }

    /** Waiting for the queue; `failing(k)` says whether the commit of the k-th batch fails. `s` is
        any state of the engine with this writer in it, and `batches` are its steps. */
    method Drain(failing: nat -> bool, ghost s: State) returns (ghost batches: seq<Action>)
      requires s.queue == queue && s.table == table
      modifies this
      ensures queue == [] && Run(Apply, s, batches) == s.(queue := [], table := table)
      ensures forall a <- batches :: a.Batch?
      ensures (forall k :: !failing(k)) && Transact(old(queue), old(table)).Some? ==>
        table == Transact(old(queue), old(table)).value
    {
      var k := 0;
      batches := [];
      while queue != []
        invariant Run(Apply, s, batches) == s.(queue := queue, table := table)
        invariant forall a <- batches :: a.Batch?
        invariant (forall k :: !failing(k)) && Transact(old(queue), old(table)).Some? ==>
          Transact(queue, table) == Transact(old(queue), old(table))
        decreases |queue|
      {
        ghost var before := s.(queue := queue, table := table);
        var size, committed := RunBatch(failing(k));
        TransactConcat(before.queue[..size], before.queue[size..], before.table);
        assert before.queue[..size] + before.queue[size..] == before.queue;
        assert Apply(before, Batch(size, failing(k))) == s.(queue := queue, table := table);
        Snoc(Apply, Healthy(), s, batches, Batch(size, failing(k)));
        batches := batches + [Batch(size, failing(k))];
        k := k + 1;
      }
    }
  }

  /** The refresh is over but for `rest`. */
  ghost predicate RefreshedBut(s: State, s': State, changed: Table, rest: set<Address>) {
    && s'.memory.Keys == s.memory.Keys && rest <= s.memory.Keys
    && (forall a <- s.memory :: s'.memory[a] == if a in changed && a !in rest then changed[a] else s.memory[a])
    && (forall a :: a in s'.dirty <==> a in s.dirty || (a in s.memory && a !in rest && a in changed))
  }

  lemma RefreshOne(s: State, s': State, changed: Table, rest: set<Address>, a: Address)
    requires RefreshedBut(s, s', changed, rest) && a in rest && s'.saving.NotSaving?
    ensures a !in changed ==> RefreshedBut(s, s', changed, rest - {a})
    ensures a in changed ==> RefreshedBut(s, Apply(s', Update(a, changed[a])), changed, rest - {a})
  {
  }

  class Store {
    var memory: Table
    var dirty: set<Address>
    var updates: nat  // since the counter was last set to zero
    ghost var gone: set<Address>
    ghost var marked: nat  // addresses marked dirty since the last save without being counted
    const writer: DbWriter

    /** Loading: a row whose country codes had to be repaired is dirty from the start. */
    constructor (table: Table, repairs: Table)
      ensures fresh(writer) && Abs() == Loaded(table, repairs) && Valid()
      ensures marked == |table.Keys * repairs.Keys| && updates == 0
    {
      memory, dirty, updates, gone := Repaired(table, repairs), table.Keys * repairs.Keys, 0, {};
      marked := |table.Keys * repairs.Keys|;
      writer := new DbWriter(table);
    }

    ghost function Abs(): State
      reads this, writer
    {
      State(memory, dirty, writer.table, writer.queue, NotSaving, gone)
    }

    /** What waits for a save: fewer than fifty counted updates, and what was marked uncounted. */
    ghost predicate Valid()
      reads this
    {
      updates < 200 && |dirty| <= updates % 50 + marked && gone !! memory.Keys
    }

    method SaveDirty() returns (order: seq<Address>)
      modifies this`dirty, this`marked, writer
      ensures dirty == {} && marked == 0
      ensures Enabled(old(Abs()), WriteBehind.SaveDirty(order))
      ensures Abs() == Apply(old(Abs()), WriteBehind.SaveDirty(order))
    {
      var rows: seq<Row> := [];
      var rest := dirty;
      order := [];
      while rest != {}
        invariant rest <= dirty && rows == RowsOf(memory, order)
        invariant Lists(order, dirty - rest)
        modifies {}
      {
        var a :| a in rest;
        RowsAppend(memory, order, a);
        if a in memory {
          rows := rows + [(a, memory[a])];
        }
        order := order + [a];
        rest := rest - {a};
      }
      assert dirty - rest == dirty;
      if rows != [] {
        writer.Submit(Upsert(rows));
      }
      dirty, marked := {}, 0;
    }

    method UpdateRating(a: Address, r: Record)
      requires Valid()
      modifies this, writer
      ensures Valid() && memory == old(memory)[a := r] && writer.table == old(writer.table)
      ensures updates == (old(updates) + 1) % 200
      ensures updates % 50 != 0 ==> Abs() == Apply(old(Abs()), Update(a, r))
      ensures if updates % 50 == 0 then dirty == {} && marked == 0 else marked == old(marked)
      ensures updates % 50 == 0 ==> exists order ::
        var s := Apply(old(Abs()), Update(a, r));
        Enabled(s, WriteBehind.SaveDirty(order)) && Abs() == Apply(s, WriteBehind.SaveDirty(order))
    {
      memory := memory[a := r];
      dirty := dirty + {a};
      gone := gone - {a};
      updates := updates + 1;
      if updates >= 200 {
        var order := SaveDirty();
        updates := 0;
      } else if updates % 50 == 0 {
        var order := SaveDirty();
      }
    }

    /** A changed rating is marked dirty; nothing is counted and nothing saved. */
    method ApplyHits(a: Address, r: Record)
      requires Valid() && a in memory
      modifies this`memory, this`dirty, this`marked
      ensures Valid() && Abs() == Apply(old(Abs()), Update(a, r)) && marked == old(marked) + 1
      ensures memory == old(memory)[a := r] && dirty == old(dirty) + {a}
    {
      memory := memory[a := r];
      dirty := dirty + {a};
      marked := marked + 1;
    }

    /** The refresh after a blocklist download visits every rating; `changed` holds the new records of
        those whose hits changed. */
    method RefreshHits(changed: Table) returns (ghost steps: seq<Action>)
      requires Valid()
      modifies this`memory, this`dirty, this`marked
      ensures Valid() && memory == Repaired(old(memory), changed)
      ensures memory.Keys == old(memory).Keys
      ensures forall a <- memory :: memory[a] == if a in changed then changed[a] else old(memory)[a]
      ensures forall a :: a in dirty <==> a in old(dirty) || (a in memory && a in changed)
      ensures marked == old(marked) + |steps|
      ensures Abs() == Run(Apply, old(Abs()), steps) && forall a <- steps :: a.Update? && a.address in changed
    {
      var rest := memory.Keys;
      steps := [];
      while rest != {}
        invariant Valid() && RefreshedBut(old(Abs()), Abs(), changed, rest)
        invariant marked == old(marked) + |steps|
        invariant Abs() == Run(Apply, old(Abs()), steps)
        invariant forall a <- steps :: a.Update? && a.address in changed
        decreases |rest|
      {
        var a :| a in rest;
        RefreshOne(old(Abs()), Abs(), changed, rest, a);
        rest := rest - {a};
        if a in changed {
          Snoc(Apply, Healthy(), old(Abs()), steps, Update(a, changed[a]));
          ApplyHits(a, changed[a]);
          steps := steps + [Update(a, changed[a])];
        }
      }
    }

    /** A validation run or a health check starts the count over. */
    method ResetCounter()
      requires Valid()
      modifies this`updates, this`marked
      ensures Valid() && updates == 0 && marked == |dirty|
    {
      updates, marked := 0, |dirty|;
    }

    /** Removals only touch memory; the table keeps the row until the next full save. */
    method Remove(a: Address)
      modifies this`memory, this`gone
      ensures Abs() == Apply(old(Abs()), WriteBehind.Remove(a))
      ensures old(Valid()) ==> Valid()
    {
      memory := memory - {a};
      gone := gone + {a};
    }

    method AllRows() returns (rows: seq<Row>, ghost order: seq<Address>)
      ensures Lists(order, memory.Keys) && rows == RowsOf(memory, order)
    {
      rows, order := [], [];
      var rest := memory.Keys;
      while rest != {}
        invariant rest <= memory.Keys && rows == RowsOf(memory, order)
        invariant Lists(order, memory.Keys - rest)
      {
        var a :| a in rest;
        RowsAppend(memory, order, a);
        rows := rows + [(a, memory[a])];
        order := order + [a];
        rest := rest - {a};
      }
      assert memory.Keys - rest == memory.Keys;
    }

    /** A full save, whatever was queued or lost before it: a run of the machine that ends it. The
        table equals memory if no batch that holds a statement of the save is rolled back, so always
        when no commit fails. */
    method SaveState(failing: nat -> bool) returns (ghost steps: seq<Action>)
      modifies this, writer
      ensures memory == old(memory) && updates == old(updates)
      ensures writer.queue == [] && dirty == {} && gone == {} && marked == 0
      ensures Enabled(Run(Apply, old(Abs()), steps), EndFullSave)
      ensures Abs() == Apply(Run(Apply, old(Abs()), steps), EndFullSave)
      ensures Guarded(Apply, SaveSucceeds(), old(Abs()), steps) ==> writer.table == memory
      ensures Upserts(old(writer.queue)) && (forall k :: !failing(k)) ==> writer.table == memory
    {
      ghost var s := Abs();
      writer.Submit(DeleteAll);
      ghost var s1 := s.(queue := writer.queue, saving := DeleteQueued);
      var rows, order := AllRows();
      writer.Submit(Insert(rows));
      ghost var s2 := s1.(queue := writer.queue, saving := InsertQueued);
      Two(Apply, Healthy(), s, s1, s2, QueueDelete, QueueInsert(order));
      SaveWrites(s, order);
      ghost var batches := writer.Drain(failing, s2);
      steps := [QueueDelete, QueueInsert(order)] + batches;
      Concat(Apply, Healthy(), s, [QueueDelete, QueueInsert(order)], batches);
      dirty, gone, marked := {}, {}, 0;
      if Guarded(Apply, SaveSucceeds(), s, steps) {
        FullSaveHeals(s, steps);
      }
    }
  }

  /** Behind upserts, which never fail, the two statements of a full save write memory. */
  lemma SaveWrites(s: State, order: seq<Address>)
    requires Lists(order, s.memory.Keys)
    ensures Upserts(s.queue) ==>
      Transact(s.queue + [DeleteAll] + [Insert(RowsOf(s.memory, order))], s.table) == Some(s.memory)
  {
    if Upserts(s.queue) {
      UpsertsAt(s.queue, s.table, "");
      SubmitKeepsPending(s, DeleteAll);
      SubmitKeepsPending(s.(queue := s.queue + [DeleteAll]), Insert(RowsOf(s.memory, order)));
      InsertIntoEmpty(s.memory, order);
    }
  }

  lemma {:induction false} RowsAppend(memory: Table, order: seq<Address>, a: Address)
    ensures RowsOf(memory, order + [a]) == RowsOf(memory, order) + if a in memory then [(a, memory[a])] else []
  {
    if order == [] {
      assert [a][1..] == [];
    } else {
      assert (order + [a])[1..] == order[1..] + [a];
      RowsAppend(memory, order[1..], a);
    }
  }
}

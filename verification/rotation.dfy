/** The scheduled rotation tick (`PartitioningTablesTask`): one inventory
    read, a create batch for the missing lookahead days, then a retire batch
    for the day that left the retention window, each executed only when it
    is not empty. */
module Rotation {
  import opened Keys
  import opened Statements
  import opened Planner
  import opened Bootstrap

  function CreateStatements(cfg: Config, date: int, inv: set<Key>): seq<Stmt>
    requires cfg.Valid()
  {
    CreateBatch(CreateKeys(cfg, date, inv))
  }

  function RetireStatements(cfg: Config, date: int, inv: set<Key>): seq<Stmt>
    requires cfg.Valid()
  {
    RetireBatch(RetireKey(cfg, date, inv))
  }

  /** Hands a batch to the executor unless it is empty; the log lists the
      executed batches in order. */
  function Execute(log: seq<seq<Stmt>>, batch: seq<Stmt>): (r: seq<seq<Stmt>>)
    ensures batch == [] ==> r == log
    ensures batch != [] ==> |r| == |log| + 1 && r[..|log|] == log && r[|log|] == batch
  {
    if batch != [] then log + [batch] else log
  }

  /** The batches a tick hands to the executor, in order: the create batch,
      then the retire batch, each only if it is not empty. */
  function TickBatches(cfg: Config, date: int, inv: set<Key>): (r: seq<seq<Stmt>>)
    requires cfg.Valid()
    ensures |r| <= 2
    ensures forall b :: b in r ==> b != []
  {
    Execute(Execute([], CreateStatements(cfg, date, inv)), RetireStatements(cfg, date, inv))
  }

  /** The tick as the service runs it. The catalog read is the `inventory`
      parameter (read once, used for both batches); the as-of day is
      `today + addDay`. The result lists the batches in the order they are
      executed. */
  method PartitioningTablesTask(cfg: Config, today: int, addDay: int, inventory: set<Key>)
    returns (executed: seq<seq<Stmt>>)
    requires cfg.Valid()
    ensures executed == TickBatches(cfg, today + addDay, inventory)
  {
    var sql: seq<Stmt> := [];
    var date := today + addDay;
    var i := 1;
    while i <= cfg.reservePartitions
      invariant 1 <= i <= cfg.reservePartitions + 1
      invariant sql == CreateBatch(MissingDays(date, i - 1, inventory))
    {
      var dateStr := Day(date + i);
      CreateStep(date, i, inventory, sql);
      if dateStr !in inventory {
        sql := sql + [AddFilegroup(dateStr), AddFile(dateStr)];
        sql := sql + [NextUsed(dateStr), SplitRange(dateStr)];
      }
      i := i + 1;
    }
    assert i - 1 == cfg.reservePartitions;
    assert MissingDays(date, i - 1, inventory) == CreateKeys(cfg, date, inventory);
    assert sql == CreateStatements(cfg, date, inventory);
    executed := Execute([], sql);
    sql := [];
    var deleteDate := Day(date - cfg.reserveDay / cfg.taskDay);
    if deleteDate in inventory {
      sql := sql + [RemoveFile(deleteDate)];
      sql := sql + [MergeRange(deleteDate)];
      sql := sql + [RemoveFilegroup(deleteDate)];
    }
    assert sql == RetireStatements(cfg, date, inventory);
    executed := Execute(executed, sql);
  }

  /** One step of the create loop: day `date + i` appends its four
      statements iff its key is absent, which extends the batch for the
      first `i - 1` lookahead days to the batch for the first `i`. */
  lemma CreateStep(date: int, i: nat, inv: set<Key>, sql: seq<Stmt>)
    requires i >= 1
    requires sql == CreateBatch(MissingDays(date, i - 1, inv))
    ensures var k := Day(date + i);
      (if k in inv then sql else sql + [AddFilegroup(k), AddFile(k)] + [NextUsed(k), SplitRange(k)])
        == CreateBatch(MissingDays(date, i, inv))
  {
    var k := Day(date + i);
    var before := MissingDays(date, i - 1, inv);
    if k !in inv {
      assert MissingDays(date, i, inv) == before + [k];
      CreateBatchAppend(before, k);
      assert sql + [AddFilegroup(k), AddFile(k)] + [NextUsed(k), SplitRange(k)] == sql + CreateQuad(k);
    } else {
      assert MissingDays(date, i, inv) == before + [];
      assert before + [] == before;
    }
  }

  /** The inventory after a tick's batches have both been applied. */
  function ApplyTick(cfg: Config, date: int, inv: set<Key>): set<Key>
    requires cfg.Valid()
  {
    var retired := match RetireKey(cfg, date, inv)
      case Some(k) => {k}
      case None => {};
    (inv + Elements(CreateKeys(cfg, date, inv))) - retired
  }

  /** After both batches succeed, a key is present iff it was present or
      created, and it is not the retired key. */
  lemma ApplyTickMembers(cfg: Config, date: int, inv: set<Key>)
    requires cfg.Valid()
    ensures forall k :: k in ApplyTick(cfg, date, inv) <==>
      (k in inv || k in CreateKeys(cfg, date, inv)) && RetireKey(cfg, date, inv) != Some(k)
  {
  }

  /** The window of day keys kept around `date`. */
  function WindowSet(cfg: Config, date: int): set<Key>
    requires cfg.Valid()
  {
    Elements(Boundaries(cfg, date))
  }

  /** The window around a day holds `partitions + ReservePartitions` day
      keys: exactly the days `date + 1 - partitions .. date + ReservePartitions`. */
  lemma WindowSetSpec(cfg: Config, date: int)
    requires cfg.Valid()
    ensures |WindowSet(cfg, date)| == cfg.WindowSize()
    ensures forall k :: k in WindowSet(cfg, date) <==>
      k.Day? && date + 1 - cfg.Partitions() <= k.n <= date + cfg.reservePartitions
  {
    BoundariesAreWindow(cfg, date);
    IncreasingElements(Boundaries(cfg, date));
  }

  /** What a tick emits: create statements for the missing days, then
      REMOVE FILE, MERGE RANGE, REMOVE FILEGROUP for the retire day when its
      key is present; nothing at all exactly when both are empty. */
  lemma TickBatchesShape(cfg: Config, date: int, inv: set<Key>)
    requires cfg.Valid()
    ensures TickBatches(cfg, date, inv) == [] <==>
      CreateKeys(cfg, date, inv) == [] && Day(date - cfg.Partitions()) !in inv
    ensures CreateKeys(cfg, date, inv) != [] ==>
      TickBatches(cfg, date, inv)[0] == CreateBatch(CreateKeys(cfg, date, inv))
    ensures Day(date - cfg.Partitions()) in inv ==>
      var k := Day(date - cfg.Partitions());
      TickBatches(cfg, date, inv)[|TickBatches(cfg, date, inv)| - 1]
        == [RemoveFile(k), MergeRange(k), RemoveFilegroup(k)]
  {
  }

  /** A tick on the bootstrap day finds every lookahead key present and the
      retire key absent, so it executes nothing, whatever non-day names the
      catalog also holds. */
  lemma TickOnBootstrapDayIsEmpty(cfg: Config, today: int, others: set<Key>)
    requires cfg.Valid()
    requires forall k :: k in others ==> !k.Day?
    ensures TickBatches(cfg, today, BootInventory(cfg, today, others)) == []
  {
    var inv := BootInventory(cfg, today, others);
    BoundariesAreWindow(cfg, today);
    forall d | today < d <= today + cfg.reservePartitions ensures Day(d) in inv {
      assert Day(d) in Boundaries(cfg, today);
    }
    MissingDaysAllPresent(today, cfg.reservePartitions, inv);
    assert Day(today - cfg.Partitions()) !in Boundaries(cfg, today);
  }

  /** Re-running a tick on the same day after its own batches were applied
      executes nothing: every lookahead key is then present and the retire
      key gone. */
  lemma TickIdempotent(cfg: Config, date: int, inv: set<Key>)
    requires cfg.Valid()
    ensures TickBatches(cfg, date, ApplyTick(cfg, date, inv)) == []
  {
    var inv' := ApplyTick(cfg, date, inv);
    ApplyTickMembers(cfg, date, inv);
    CreateKeysSpec(cfg, date, inv);
    forall d | date < d <= date + cfg.reservePartitions ensures Day(d) in inv' {
      assert Day(d) in inv || Day(d) in CreateKeys(cfg, date, inv);
    }
    MissingDaysAllPresent(date, cfg.reservePartitions, inv');
    var d := Day(date - cfg.Partitions());
    assert d !in CreateKeys(cfg, date, inv);
  }

  /** In steady state (the day keys are exactly the window around `date`),
      the next day's tick creates exactly the one new lookahead day. */
  lemma SteadyTickCreates(cfg: Config, date: int, inv: set<Key>)
    requires cfg.Valid()
    requires DayKeys(inv) == WindowSet(cfg, date)
    ensures CreateKeys(cfg, date + 1, inv) ==
      (if cfg.reservePartitions >= 1 then [Day(date + 1 + cfg.reservePartitions)] else [])
  {
    var created := CreateKeys(cfg, date + 1, inv);
    var next := Day(date + 1 + cfg.reservePartitions);
    WindowSetSpec(cfg, date);
    CreateKeysSpec(cfg, date + 1, inv);
    if cfg.reservePartitions >= 1 {
      forall k | k in created ensures k == next {
        assert k.Day? && k !in inv;
        assert k !in DayKeys(inv);
        assert !(date + 1 - cfg.Partitions() <= k.n <= date + cfg.reservePartitions);
      }
      assert next !in DayKeys(inv);
      assert next in created;
      assert Elements(created) == {next};
      IncreasingElements(created);
      assert created[0] in created;
    }
  }

  /** In steady state the next day's tick retires exactly the day that left
      the retention window, provided the window is not empty. */
  lemma SteadyTickRetires(cfg: Config, date: int, inv: set<Key>)
    requires cfg.Valid()
    requires DayKeys(inv) == WindowSet(cfg, date)
    ensures RetireKey(cfg, date + 1, inv) ==
      (if cfg.WindowSize() >= 1 then Some(Day(date + 1 - cfg.Partitions())) else None)
  {
    var old_ := Day(date + 1 - cfg.Partitions());
    WindowSetSpec(cfg, date);
    assert old_ in inv <==> old_ in WindowSet(cfg, date);
  }

  /** A tick on the following day keeps the window: the day keys after it
      are exactly the window around the new day, of the same size. */
  lemma TickAdvancesWindow(cfg: Config, date: int, inv: set<Key>)
    requires cfg.Valid() && cfg.reservePartitions >= 1
    requires DayKeys(inv) == WindowSet(cfg, date)
    ensures DayKeys(ApplyTick(cfg, date + 1, inv)) == WindowSet(cfg, date + 1)
    ensures |DayKeys(ApplyTick(cfg, date + 1, inv))| == cfg.WindowSize()
    ensures (Floor in ApplyTick(cfg, date + 1, inv)) == (Floor in inv)
  {
    SteadyTickCreates(cfg, date, inv);
    SteadyTickRetires(cfg, date, inv);
    WindowSetSpec(cfg, date);
    WindowSetSpec(cfg, date + 1);
    ApplyTickMembers(cfg, date + 1, inv);
    var inv' := ApplyTick(cfg, date + 1, inv);
    forall k | k in DayKeys(inv') ensures k in WindowSet(cfg, date + 1) {
      assert k in inv || k in CreateKeys(cfg, date + 1, inv);
    }
    forall k | k in WindowSet(cfg, date + 1) ensures k in DayKeys(inv') {
      if k !in WindowSet(cfg, date) {
        assert k == Day(date + 1 + cfg.reservePartitions);
        assert k in CreateKeys(cfg, date + 1, inv);
      }
    }
  }

  /** Without lookahead partitions the window does not hold: a tick on the
      following day creates nothing but still retires the oldest day, so the
      window loses one day per tick. */
  lemma NoLookaheadShrinksWindow(cfg: Config, date: int, inv: set<Key>)
    requires cfg.Valid() && cfg.reservePartitions == 0 && cfg.Partitions() >= 1
    requires DayKeys(inv) == WindowSet(cfg, date)
    ensures DayKeys(ApplyTick(cfg, date + 1, inv)) == WindowSet(cfg, date) - {Day(date + 1 - cfg.Partitions())}
    ensures |DayKeys(ApplyTick(cfg, date + 1, inv))| == cfg.WindowSize() - 1
  {
    SteadyTickCreates(cfg, date, inv);
    SteadyTickRetires(cfg, date, inv);
    WindowSetSpec(cfg, date);
    ApplyTickMembers(cfg, date + 1, inv);
    var gone := Day(date + 1 - cfg.Partitions());
    assert gone in WindowSet(cfg, date);
    assert DayKeys(ApplyTick(cfg, date + 1, inv)) == WindowSet(cfg, date) - {gone};
  }

  /** The inventory after ticks on each of the `n` days following `date`. */
  function RunTicks(cfg: Config, date: int, inv: set<Key>, n: nat): set<Key>
    requires cfg.Valid()
    decreases n
  {
    if n == 0 then inv else RunTicks(cfg, date + 1, ApplyTick(cfg, date + 1, inv), n - 1)
  }

  /** From a window-shaped inventory, any number of daily ticks keeps the
      window: it slides by one day per tick, keeps its size, and the floor
      unit stays. */
  lemma {:induction false} DailyTicksKeepWindow(cfg: Config, date: int, inv: set<Key>, n: nat)
    requires cfg.Valid() && cfg.reservePartitions >= 1
    requires DayKeys(inv) == WindowSet(cfg, date)
    ensures DayKeys(RunTicks(cfg, date, inv, n)) == WindowSet(cfg, date + n)
    ensures (Floor in RunTicks(cfg, date, inv, n)) == (Floor in inv)
    decreases n
  {
    if n > 0 {
      var next := ApplyTick(cfg, date + 1, inv);
      assert DayKeys(next) == WindowSet(cfg, date + 1) && (Floor in next) == (Floor in inv) by {
        TickAdvancesWindow(cfg, date, inv);
      }
      DailyTicksKeepWindow(cfg, date + 1, next, n - 1);
      assert date + 1 + (n - 1) == date + n;
    }
  }

  /** After bootstrap on `today` and a daily tick on each of the next `n`
      days, the day keys are exactly the window around `today + n`: there
      are `partitions + ReservePartitions` of them, plus the floor. The
      catalog's other, non-day names do not disturb the window. */
  lemma WindowSizeAfterBootstrap(cfg: Config, today: int, others: set<Key>, n: nat)
    requires cfg.Valid() && cfg.reservePartitions >= 1
    requires forall k :: k in others ==> !k.Day?
    ensures DayKeys(RunTicks(cfg, today, BootInventory(cfg, today, others), n)) == WindowSet(cfg, today + n)
    ensures |DayKeys(RunTicks(cfg, today, BootInventory(cfg, today, others), n))| == cfg.WindowSize()
    ensures Floor in RunTicks(cfg, today, BootInventory(cfg, today, others), n)
  {
    var inv := BootInventory(cfg, today, others);
    assert Floor in inv && DayKeys(inv) == WindowSet(cfg, today) by {
      BoundariesAreWindow(cfg, today);
      WindowSetSpec(cfg, today);
      assert Floor in Units(cfg, today);
    }
    DailyTicksKeepWindow(cfg, today, inv, n);
    WindowSetSpec(cfg, today + n);
  }
}

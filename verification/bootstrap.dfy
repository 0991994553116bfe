/** The one-time bootstrap (`InitPartitioningTables`): the initial window of
    filegroups and files, the partition function over its boundaries, the
    scheme over its filegroups, and the rebinding of the log table's
    clustering to that scheme. */
module Bootstrap {
  import opened Keys
  import opened Statements

  /** The boundary list (`dateList`): one key per day from
      `today + 1 - partitions` to `today + ReservePartitions`, ascending. */
  function Boundaries(cfg: Config, today: int): (b: seq<Key>)
    requires cfg.Valid()
    ensures |b| == cfg.WindowSize()
  {
    seq(cfg.WindowSize(), j => Day(today + 1 - cfg.Partitions() + j))
  }

  /** The units in emission order (`tableNameList`): the floor, then every boundary. */
  function Units(cfg: Config, today: int): (u: seq<Key>)
    requires cfg.Valid()
    ensures |u| == cfg.WindowSize() + 1
  {
    [Floor] + Boundaries(cfg, today)
  }

  /** The whole bootstrap batch, in the order it is appended. */
  function BootStatements(cfg: Config, today: int): (r: seq<Stmt>)
    requires cfg.Valid()
    ensures |r| == 2 * cfg.WindowSize() + 7
  {
    UnitStatements(Units(cfg, today))
      + [ CreateFunction(Boundaries(cfg, today)), CreateScheme(Units(cfg, today)),
          DropPk, AddPkNonclustered, CreateClusteredIndex ]
  }

  /** The inventory a successful bootstrap leaves behind: every unit, plus
      the filegroups the database had before (`others`, such as PRIMARY). */
  function BootInventory(cfg: Config, today: int, others: set<Key>): (inv: set<Key>)
    requires cfg.Valid()
    ensures forall k :: k in inv <==> k in Units(cfg, today) || k in others
  {
    Elements(Units(cfg, today)) + others
  }

  /** Builds the bootstrap batch the way the service does: a descending
      counter from `partitions + ReservePartitions + 1` to 1, the first
      iteration replaced by the floor, each iteration appending its unit's
      filegroup and file; then the function, the scheme and the table
      rebinding. The result is the single batch handed to the executor. */
  method InitPartitioningTables(cfg: Config, today: int) returns (sql: seq<Stmt>)
    requires cfg.Valid()
    ensures sql == BootStatements(cfg, today)
  {
    var partitions := cfg.reserveDay / cfg.taskDay;
    var total := partitions + cfg.reservePartitions + 1;
    ghost var units := Units(cfg, today);
    var dateList: seq<Key> := [];
    var tableNameList: seq<Key> := [];
    sql := [];
    var i := total;
    while i > 0
      invariant 0 <= i <= total
      invariant tableNameList == units[..total - i]
      invariant i < total ==> dateList == tableNameList[1..]
      invariant i == total ==> dateList == []
      invariant sql == UnitStatements(tableNameList)
    {
      var dayStr := Day(today + 1 + cfg.reservePartitions - i);
      if i == total {
        dayStr := Floor;
      } else {
        dateList := dateList + [dayStr];
      }
      tableNameList := tableNameList + [dayStr];
      assert tableNameList[..|tableNameList| - 1] == units[..total - i];
      sql := sql + [AddFilegroup(dayStr), AddFile(dayStr)];
      i := i - 1;
    }
    assert tableNameList == units;
    sql := sql + [CreateFunction(dateList), CreateScheme(tableNameList)];
    sql := sql + [DropPk, AddPkNonclustered];
    sql := sql + [CreateClusteredIndex];
  }

  /** The boundary list is exactly the window of days
      `today + 1 - partitions .. today + ReservePartitions`, strictly
      increasing, and never holds the floor. */
  lemma BoundariesAreWindow(cfg: Config, today: int)
    requires cfg.Valid()
    ensures StrictlyIncreasing(Boundaries(cfg, today))
    ensures Floor !in Boundaries(cfg, today)
    ensures forall k :: k in Boundaries(cfg, today) ==> k.Day?
    ensures forall d :: Day(d) in Boundaries(cfg, today) <==>
      today + 1 - cfg.Partitions() <= d <= today + cfg.reservePartitions
  {
    var b := Boundaries(cfg, today);
    var lo := today + 1 - cfg.Partitions();
    forall d | lo <= d <= today + cfg.reservePartitions
      ensures Day(d) in b
    {
      assert b[d - lo] == Day(d);
    }
  }

  /** The scheme list has one entry more than the boundary list: the floor
      first, then every boundary in the same order; it is strictly increasing. */
  lemma UnitsAreFloorThenBoundaries(cfg: Config, today: int)
    requires cfg.Valid()
    ensures |Units(cfg, today)| == |Boundaries(cfg, today)| + 1
    ensures Units(cfg, today)[0] == Floor
    ensures forall j :: 0 <= j < |Boundaries(cfg, today)| ==>
      Units(cfg, today)[j + 1] == Boundaries(cfg, today)[j]
    ensures StrictlyIncreasing(Units(cfg, today))
  {
    var u := Units(cfg, today);
    var b := Boundaries(cfg, today);
    var lo := today + 1 - cfg.Partitions();
    forall j | 0 <= j < |b| ensures u[j + 1] == b[j] {
    }
    forall i, j | 0 <= i < j < |u| ensures Before(u[i], u[j]) {
      assert u[j] == b[j - 1] == Day(lo + j - 1);
      if i > 0 {
        assert u[i] == b[i - 1] == Day(lo + i - 1);
      }
    }
  }

  /** Shape of the bootstrap batch: for each unit, floor first and then
      ascending, ADD FILEGROUP followed by ADD FILE into that filegroup; then
      the partition function over all boundaries, the scheme over all units,
      and the three statements that move the clustering onto the scheme. */
  lemma BootStatementsOrder(cfg: Config, today: int)
    requires cfg.Valid()
    ensures var r := BootStatements(cfg, today);
      var u := Units(cfg, today);
      && (forall j :: 0 <= j < |u| ==> r[2 * j] == AddFilegroup(u[j]) && r[2 * j + 1] == AddFile(u[j]))
      && r[2 * |u|..] == [ CreateFunction(Boundaries(cfg, today)), CreateScheme(u),
                           DropPk, AddPkNonclustered, CreateClusteredIndex ]
  {
    var r := BootStatements(cfg, today);
    var u := Units(cfg, today);
    forall j | 0 <= j < |u| ensures r[2 * j] == AddFilegroup(u[j]) && r[2 * j + 1] == AddFile(u[j]) {
      UnitStatementsAt(u, j);
    }
  }

  /** Bootstrap with a 30-day retention, daily task and two lookahead
      partitions: 33 units, 32 boundaries, 33 scheme entries. */
  lemma ThirtyDayWindowSizes(today: int)
    ensures var cfg := Config(30, 1, 2);
      |Units(cfg, today)| == 33 && |Boundaries(cfg, today)| == 32
      && BootStatements(cfg, today)[|BootStatements(cfg, today)| - 4] == CreateScheme(Units(cfg, today))
  {
  }
}

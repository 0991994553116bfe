# Partition-window rotation for the partitioned log table

This project models the partition maintenance of `DbService` in
Wynnyo.PartitioningTable, and proves properties of that model. The log
table is range-partitioned by day. Each partition has its own filegroup
(named table name + day key) and one data file. The service does two things:

- **Bootstrap** (`InitPartitioningTables`) runs once. It creates a floor unit
  (`00010101`) and one unit per day from `today + 1 - partitions` through
  `today + ReservePartitions`. Here `partitions = ReserveDay / TaskDay`. It
  then defines a `RANGE RIGHT` partition function over the day keys and a
  scheme over the floor plus every day's filegroup. Finally it moves the
  table's clustering onto that scheme: drop the primary key, re-add it as
  non-clustered, and create a clustered index on the scheme.
- **Rotation tick** (`PartitioningTablesTask`) runs once per schedule. It reads
  the filegroup inventory once. For each missing lookahead day
  `date+1 .. date+ReservePartitions`, in ascending order, it emits
  ADD FILEGROUP, ADD FILE, NEXT USED and SPLIT RANGE. If the key of the day
  `date - partitions` is present, it emits REMOVE FILE, MERGE RANGE and
  REMOVE FILEGROUP for that day. It executes the create batch and then the
  retire batch, and skips a batch when it is empty.

Modules:

- `Keys` (keys.dfy): partition keys and the configuration.
  - `Floor` is the sentinel key.
  - `Day(n)` stands for the `yyyyMMdd` rendering of day number `n`. That
    rendering is injective and keeps the order.
  - `Other(name)` is any other catalog name the unfiltered inventory may hold,
    such as `PRIMARY`. It is never `00010101` and never the `yyyyMMdd`
    rendering of a day: such a name would compare equal to that key in the
    service, so the model writes it as `Floor` or `Day(n)`.
- `Statements` (statements.dfy): the DDL statements as a datatype, and the
  order of statements within each batch.
- `Bootstrap` (bootstrap.dfy): the bootstrap loop as a method. It is proved
  equal to a specification function, and the window facts are proved about
  that function.
- `Planner` (planner.dfy): the create set and the retire day of a tick.
- `Rotation` (rotation.dfy): the tick loop as a method, proved equal to its
  specification. This module also proves the lifecycle facts: a tick on the
  bootstrap day emits nothing, a tick is idempotent, and the window slides
  with a fixed size under daily ticks.
- `Naming` (naming.dfy): filegroup naming and the `Replace`-based inventory
  projection, with its round trip for digit-only keys.

The service talks to the database. The model does not:

- Each method returns the statements it would hand to `ExecuteCommand`. The
  bootstrap returns one batch. The tick returns the list of batches it
  executes, in order.
- The catalog read is an input: a set of keys.
- The current day is a parameter. The tick's as-of day is `today + addDay`.
- `ApplyTick` gives the inventory after a tick's batches succeed: the created
  keys are added and the retired key is removed. The window lemmas are stated
  over it.

The create batch follows the code: the four statements of each day are
interleaved (`DbService.cs` lines 126-140).

## Model

| member | source | states |
|---|---|---|
| `Keys.Config.PartitionsIsQuotient` | Wynnyo.PartitioningTable/Services/DbService.cs:37 | `partitions` is the truncated quotient: `p * TaskDay <= ReserveDay < (p + 1) * TaskDay`; the window has no trailing days iff `ReserveDay < TaskDay` |
| `Bootstrap.Boundaries` | Wynnyo.PartitioningTable/Services/DbService.cs:43-54 | the boundary list has `partitions + ReservePartitions` keys |
| `Bootstrap.Units` | Wynnyo.PartitioningTable/Services/DbService.cs:43-59 | the scheme list has one entry more than the boundary list |
| `Bootstrap.BootStatements` | Wynnyo.PartitioningTable/Services/DbService.cs:43-92 | the bootstrap batch has two statements per unit plus five |
| `Bootstrap.InitPartitioningTables` | Wynnyo.PartitioningTable/Services/DbService.cs:32-96 | the descending-counter loop (floor on the first pass, appending to the three lists) yields exactly the bootstrap batch |
| `Bootstrap.BoundariesAreWindow` | Wynnyo.PartitioningTable/Services/DbService.cs:37-54 | the boundaries are strictly increasing, are all day keys, never the floor, and `Day(d)` is among them iff `today+1-partitions <= d <= today+ReservePartitions` |
| `Bootstrap.UnitsAreFloorThenBoundaries` | Wynnyo.PartitioningTable/Services/DbService.cs:43-59 | the scheme list is the floor followed by every boundary in the same order, one longer, strictly increasing |
| `Bootstrap.BootStatementsOrder` | Wynnyo.PartitioningTable/Services/DbService.cs:61-92 | for each unit in order (floor first), ADD FILEGROUP then ADD FILE for it; then CREATE FUNCTION over all boundaries, CREATE SCHEME over all units, DROP PK, ADD nonclustered PK, CREATE CLUSTERED INDEX |
| `Bootstrap.ThirtyDayWindowSizes` | Wynnyo.PartitioningTable/Services/DbService.cs:37-59 | retention 30, task 1, lookahead 2: 33 units, 32 boundaries; the scheme statement lists all 33 |
| `Bootstrap.BootInventory` | Wynnyo.PartitioningTable/Services/DbService.cs:43-71 | after bootstrap the present keys are exactly the units plus the catalog's other, non-day names (such as `PRIMARY`) |
| `Statements.UnitStatements` | Wynnyo.PartitioningTable/Services/DbService.cs:61-71 | two statements per bootstrap unit |
| `Statements.UnitStatementsAt` | Wynnyo.PartitioningTable/Services/DbService.cs:56-71 | positions `2j` and `2j+1` are ADD FILEGROUP and ADD FILE of unit `j` |
| `Statements.UnitStatementsPairing` | Wynnyo.PartitioningTable/Services/DbService.cs:61-71 | every ADD FILE sits at an odd position, directly after the ADD FILEGROUP of the same unit |
| `Statements.CreateBatch` | Wynnyo.PartitioningTable/Services/DbService.cs:126-140 | four statements per created day |
| `Statements.CreateBatchAt` | Wynnyo.PartitioningTable/Services/DbService.cs:123-140 | statements `4j .. 4j+3` are ADD FILEGROUP, ADD FILE, NEXT USED, SPLIT RANGE of the `j`-th created key |
| `Statements.SplitFollowsNextUsed` | Wynnyo.PartitioningTable/Services/DbService.cs:126-140 | every SPLIT RANGE is directly preceded by NEXT USED, ADD FILE and ADD FILEGROUP of the same key |
| `Statements.CreateBatchSplits` | Wynnyo.PartitioningTable/Services/DbService.cs:119-140 | the batch splits at key `k` iff `k` is one of the keys it was built from |
| `Statements.RetireBatch` | Wynnyo.PartitioningTable/Services/DbService.cs:155-166 | empty iff nothing is retired; otherwise REMOVE FILE, MERGE RANGE, REMOVE FILEGROUP, all for the retired key |
| `Planner.MissingDays` | Wynnyo.PartitioningTable/Services/DbService.cs:117-121 | at most `n` of the first `n` lookahead days are missing |
| `Planner.MissingDaysMembers` | Wynnyo.PartitioningTable/Services/DbService.cs:117-121 | a key is missing iff it is one of the days `date+1 .. date+n` and absent from the inventory |
| `Planner.MissingDaysIncreasing` | Wynnyo.PartitioningTable/Services/DbService.cs:117-121 | the missing days come in strictly ascending order |
| `Planner.MissingDaysAllPresent` | Wynnyo.PartitioningTable/Services/DbService.cs:117-121 | when every lookahead day is present, nothing is missing |
| `Planner.CreateKeysSpec` | Wynnyo.PartitioningTable/Services/DbService.cs:117-121 | `Day(d)` is created iff `date < d <= date+ReservePartitions` and its key is absent; created keys are absent day keys in strictly ascending order |
| `Planner.RetireKey` | Wynnyo.PartitioningTable/Services/DbService.cs:153-155 | a day is retired iff `Day(date - partitions)` is present, and then it is that key |
| `Planner.RetireNotCreated` | Wynnyo.PartitioningTable/Services/DbService.cs:117-155 | the retired key is never one of the created keys |
| `Planner.EmptyInventoryCreatesLookahead` | Wynnyo.PartitioningTable/Services/DbService.cs:117-155 | empty inventory, lookahead 3: the three following days are created in order and nothing is retired |
| `Rotation.Execute` | Wynnyo.PartitioningTable/Services/DbService.cs:145-148 | an empty batch is skipped; any other batch is added after the batches executed before it |
| `Rotation.TickBatches` | Wynnyo.PartitioningTable/Services/DbService.cs:145-171 | at most two batches are executed, and none of them is empty |
| `Rotation.PartitioningTablesTask` | Wynnyo.PartitioningTable/Services/DbService.cs:101-172 | the counting loop over the lookahead days, the clear and the retire step execute exactly the specified batches, from one inventory read |
| `Rotation.CreateStep` | Wynnyo.PartitioningTable/Services/DbService.cs:117-143 | one pass of the create loop: day `date+i` adds its four statements iff its key is absent, which turns the batch for the first `i-1` lookahead days into the batch for the first `i` |
| `Rotation.TickBatchesShape` | Wynnyo.PartitioningTable/Services/DbService.cs:145-171 | nothing is executed iff nothing is missing and the retire key is absent; the create batch comes first; the retire batch is last and is REMOVE FILE, MERGE RANGE, REMOVE FILEGROUP of `Day(date - partitions)` |
| `Rotation.ApplyTickMembers` | Wynnyo.PartitioningTable/Services/DbService.cs:145-171 | after both batches succeed, a key is present iff it was present or created, and it is not the retired key |
| `Rotation.WindowSetSpec` | Wynnyo.PartitioningTable/Services/DbService.cs:37-54 | the window around a day holds `partitions + ReservePartitions` day keys, `date+1-partitions .. date+ReservePartitions` |
| `Rotation.TickOnBootstrapDayIsEmpty` | Wynnyo.PartitioningTable/Services/DbService.cs:117-155 | a tick on the bootstrap day, against the bootstrap inventory plus any non-day names such as `PRIMARY`, executes nothing |
| `Rotation.TickIdempotent` | Wynnyo.PartitioningTable/Services/DbService.cs:117-166 | for any inventory, a second tick on the same day after the first one's batches were applied executes nothing |
| `Rotation.SteadyTickCreates` | Wynnyo.PartitioningTable/Services/DbService.cs:117-143 | when the day keys are the window around `date`, the tick on `date+1` creates exactly `Day(date+1+ReservePartitions)` (nothing without lookahead) |
| `Rotation.SteadyTickRetires` | Wynnyo.PartitioningTable/Services/DbService.cs:153-166 | when the day keys are the window around `date`, the tick on `date+1` retires exactly `Day(date+1-partitions)` (nothing when the window is empty) |
| `Rotation.TickAdvancesWindow` | Wynnyo.PartitioningTable/Services/DbService.cs:117-166 | with lookahead at least 1, the next day's tick turns the window around `date` into the window around `date+1`, of the same size, and leaves the floor alone |
| `Rotation.NoLookaheadShrinksWindow` | Wynnyo.PartitioningTable/Services/DbService.cs:117-166 | with no lookahead partitions, each daily tick only retires, so the window loses one day |
| `Rotation.DailyTicksKeepWindow` | Wynnyo.PartitioningTable/Services/DbService.cs:101-172 | any number of consecutive daily ticks keeps the window shape and the floor |
| `Rotation.WindowSizeAfterBootstrap` | Wynnyo.PartitioningTable/Services/DbService.cs:43-166 | after bootstrap (with any non-day names such as `PRIMARY` also present) and `n` daily ticks, the day keys are exactly the window around `today+n`: `partitions + ReservePartitions` of them, plus the floor |
| `Naming.FilegroupName` | Wynnyo.PartitioningTable/Services/DbService.cs:56 | the name is the table name followed by the key text |
| `Naming.RemoveAll` | Wynnyo.PartitioningTable/Services/DbService.cs:108 | deleting every occurrence of the table name never lengthens the name and invents no character |
| `Naming.Snapshot` | Wynnyo.PartitioningTable/Services/DbService.cs:104-109 | the inventory holds the stripped form of every catalog name and nothing else |
| `Naming.RemoveAllKeepsDigits` | Wynnyo.PartitioningTable/Services/DbService.cs:108 | a digit-only text is left unchanged by stripping a table name that has a non-digit |
| `Naming.StripRoundTrip` | Wynnyo.PartitioningTable/Services/DbService.cs:105-109 | stripping the table name from `TableName + key` gives back `key` for every digit-only key |
| `Naming.SnapshotHasKey` | Wynnyo.PartitioningTable/Services/DbService.cs:104-109 | a unit whose filegroup is in the catalog appears in the inventory under its bare key; so does the floor |

## Left out

- Database access is not modelled: the `DbContext` construction, `InitDbTable`'s code-first table creation, and the `ExecuteCommand` and `GetDataTable` calls. The methods return the batches instead, and the catalog read is an input set.
- `GetPartitioningFilesInfo` and `GetPartitioningTablesInfo` are not modelled. They pass query results through unchanged.
- `DateTime.Today` is not read. The day is a parameter.
- Calendar formatting is not modelled. `Day(n)` stands for the `yyyyMMdd` text. The model cannot express `DateTime.AddDays` failing outside years 1 to 9999, or the 32-bit loop counter overflowing.
- Statements are structural. SQL text, separators, the file path from `Path.Combine`, and the size, max size and growth values are not modelled. For example, the model cannot show what the function text becomes when the boundary list is empty.
- What the database does with SPLIT, MERGE and REMOVE is not modelled, and neither is partial or failed execution. `ApplyTick` assumes both batches succeed. Idempotence and the window lemmas hold under that assumption.
- Concurrent ticks are not modelled. The service has no lock.
- `Keys.Config.Valid`: negative `ReserveDay` or `ReservePartitions`, and `TaskDay <= 0`, are not modelled. `TaskDay == 0` would throw a division error in the source.
- `Naming.RemoveAll`: requires a non-empty table name. `Replace` throws on an empty search string.
- The tick takes its inventory as a set of `Key`s, and the `Naming` strings are not linked to it. Linking them would need the calendar rendering.
- `Rotation.TickAdvancesWindow`: stated for ticks on consecutive days with `ReservePartitions >= 1`. `Rotation.NoLookaheadShrinksWindow` shows that without lookahead the window shrinks. With `TaskDay > 1`, ticks every `TaskDay` days retire only one daily key per tick, so the other keys stay; this is not stated as a lemma.

/** Partition keys and the window configuration.

    A key is the text that follows the table name in a filegroup name and is
    used as a boundary value of the partition function. Real keys render a
    calendar day as "yyyyMMdd"; here a day is an integer and `Day(n)` stands
    for its rendering, which is injective and keeps chronological order
    because the rendering is fixed-width. */
module Keys {

  datatype Key =
    | Floor              // the sentinel unit "00010101", below every real day
    | Day(n: int)        // the rendering of day number n
    | Other(name: string) // any other catalog name left after stripping (e.g. PRIMARY);
                          // never "00010101" nor the yyyyMMdd rendering of a day

  datatype Option<+T> = None | Some(value: T)

  /** Strict order of boundary keys: the floor is below every day, days
      compare by day number; other names are not boundaries and are unordered. */
  predicate Before(a: Key, b: Key)
  {
    match (a, b)
    case (Floor, Day(_)) => true
    case (Day(m), Day(n)) => m < n
    case _ => false
  }

  predicate StrictlyIncreasing(s: seq<Key>)
  {
    forall i, j :: 0 <= i < j < |s| ==> Before(s[i], s[j])
  }

  /** The keys listed in a sequence, as a set. */
  function Elements(s: seq<Key>): (r: set<Key>)
    ensures forall k :: k in r <==> k in s
  {
    set k | k in s
  }

  /** A strictly increasing list has no repetitions, so its set of keys is
      as large as the list. */
  lemma {:induction false} IncreasingElements(s: seq<Key>)
    requires StrictlyIncreasing(s)
    ensures |Elements(s)| == |s|
  {
    if s != [] {
      var n := |s| - 1;
      IncreasingElements(s[..n]);
      assert Elements(s) == Elements(s[..n]) + {s[n]};
      forall i | 0 <= i < n ensures s[..n][i] != s[n] {
        assert Before(s[i], s[n]);
      }
    }
  }

  /** The day keys of an inventory: the floor and non-date names excluded. */
  function DayKeys(inv: set<Key>): (r: set<Key>)
    ensures r <= inv
    ensures forall k :: k in r <==> k in inv && k.Day?
  {
    set k | k in inv && k.Day?
  }

  /** The constants the service reads: retention in days, the task interval in
      days and the number of partitions kept ahead of the current day. */
  datatype Config = Config(reserveDay: int, taskDay: int, reservePartitions: int)
  {
    predicate Valid()
    {
      taskDay > 0 && reserveDay >= 0 && reservePartitions >= 0
    }

    /** Number of trailing partitions kept (`ReserveDay / TaskDay`). */
    function Partitions(): nat
      requires Valid()
    {
      reserveDay / taskDay
    }

    /** Number of real (non-floor) units in a full window. */
    function WindowSize(): nat
      requires Valid()
    {
      Partitions() + reservePartitions
    }

    /** For the non-negative operands admitted here, C#'s truncating division
        and Dafny's Euclidean one agree: `Partitions()` is the largest count
        of whole task intervals within the retention period, and the window
        holds no trailing days exactly when the retention is shorter than one
        task interval. */
    lemma PartitionsIsQuotient()
      requires Valid()
      ensures Partitions() * taskDay <= reserveDay < (Partitions() + 1) * taskDay
      ensures WindowSize() == reservePartitions <==> reserveDay < taskDay
    {
    }
  }
}

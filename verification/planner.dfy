/** What one rotation tick decides, as a function of the as-of day and one
    inventory snapshot: the lookahead days still missing (created in
    ascending order) and at most one day to retire. */
module Planner {
  import opened Keys

  /** The lookahead days `date + 1 .. date + n` whose keys are absent from
      the inventory, in ascending order. */
  function MissingDays(date: int, n: nat, inv: set<Key>): (r: seq<Key>)
    ensures |r| <= n
    decreases n
  {
    if n == 0 then []
    else MissingDays(date, n - 1, inv) + (if Day(date + n) in inv then [] else [Day(date + n)])
  }

  /** The days a tick on `date` creates. */
  function CreateKeys(cfg: Config, date: int, inv: set<Key>): seq<Key>
    requires cfg.Valid()
  {
    MissingDays(date, cfg.reservePartitions, inv)
  }

  /** The day a tick on `date` retires, if its key is present. */
  function RetireKey(cfg: Config, date: int, inv: set<Key>): (r: Option<Key>)
    requires cfg.Valid()
    ensures r.Some? <==> Day(date - cfg.Partitions()) in inv
    ensures r.Some? ==> r.value == Day(date - cfg.Partitions())
  {
    var deleteDate := Day(date - cfg.Partitions());
    if deleteDate in inv then Some(deleteDate) else None
  }

  /** A key is missing iff it is one of the `n` lookahead days and absent
      from the inventory. */
  lemma {:induction false} MissingDaysMembers(date: int, n: nat, inv: set<Key>)
    ensures forall k :: k in MissingDays(date, n, inv) <==>
      k.Day? && date < k.n <= date + n && k !in inv
    decreases n
  {
    if n > 0 {
      MissingDaysMembers(date, n - 1, inv);
    }
  }

  /** The missing days come in ascending order. */
  lemma {:induction false} MissingDaysIncreasing(date: int, n: nat, inv: set<Key>)
    ensures StrictlyIncreasing(MissingDays(date, n, inv))
    decreases n
  {
    if n > 0 {
      var m := MissingDays(date, n - 1, inv);
      MissingDaysIncreasing(date, n - 1, inv);
      MissingDaysMembers(date, n - 1, inv);
      if Day(date + n) !in inv {
        var r := m + [Day(date + n)];
        forall i, j | 0 <= i < j < |r| ensures Before(r[i], r[j]) {
          if j == |m| {
            assert r[i] in m;
          }
        }
      }
    }
  }

  /** When every lookahead day is present, nothing is missing. */
  lemma {:induction false} MissingDaysAllPresent(date: int, n: nat, inv: set<Key>)
    requires forall d :: date < d <= date + n ==> Day(d) in inv
    ensures MissingDays(date, n, inv) == []
    decreases n
  {
    if n > 0 {
      MissingDaysAllPresent(date, n - 1, inv);
    }
  }

  /** The create set: day `date + i`, `1 <= i <= ReservePartitions`, is
      created iff its key is absent from the inventory; nothing else is
      created; the days come in ascending order. */
  lemma CreateKeysSpec(cfg: Config, date: int, inv: set<Key>)
    requires cfg.Valid()
    ensures StrictlyIncreasing(CreateKeys(cfg, date, inv))
    ensures forall k :: k in CreateKeys(cfg, date, inv) ==> k.Day? && k !in inv
    ensures forall d :: Day(d) in CreateKeys(cfg, date, inv) <==>
      date < d <= date + cfg.reservePartitions && Day(d) !in inv
  {
    MissingDaysMembers(date, cfg.reservePartitions, inv);
    MissingDaysIncreasing(date, cfg.reservePartitions, inv);
  }

  /** The retire day is never among the create days: it is at or before
      the as-of day, while every created day is after it. */
  lemma RetireNotCreated(cfg: Config, date: int, inv: set<Key>)
    requires cfg.Valid()
    ensures RetireKey(cfg, date, inv).Some? ==>
      RetireKey(cfg, date, inv).value !in CreateKeys(cfg, date, inv)
  {
    CreateKeysSpec(cfg, date, inv);
  }

  /** With an empty inventory and three lookahead partitions, a tick creates
      the three following days and retires nothing. */
  lemma EmptyInventoryCreatesLookahead(date: int, reserveDay: nat)
    ensures var cfg := Config(reserveDay, 1, 3);
      CreateKeys(cfg, date, {}) == [Day(date + 1), Day(date + 2), Day(date + 3)]
      && RetireKey(cfg, date, {}).None?
  {
    assert MissingDays(date, 1, {}) == [Day(date + 1)];
    assert MissingDays(date, 2, {}) == [Day(date + 1), Day(date + 2)];
  }
}

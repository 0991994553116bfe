/** The data-definition statements the service sends, represented by their
    structure rather than their SQL text. A statement that names a filegroup
    or a file names the one derived from its key (`TableName + key`,
    `FileName + key`); since the prefixes are constants, the key identifies
    the unit. */
module Statements {
  import opened Keys

  datatype Stmt =
    | AddFilegroup(key: Key)          // ALTER DATABASE .. ADD FILEGROUP
    | AddFile(key: Key)               // ALTER DATABASE .. ADD FILE (..) TO FILEGROUP
    | NextUsed(key: Key)              // ALTER PARTITION SCHEME .. NEXT USED
    | SplitRange(key: Key)            // ALTER PARTITION FUNCTION .. SPLIT RANGE
    | RemoveFile(key: Key)            // ALTER DATABASE .. REMOVE FILE
    | MergeRange(key: Key)            // ALTER PARTITION FUNCTION .. MERGE RANGE
    | RemoveFilegroup(key: Key)       // ALTER DATABASE .. REMOVE FILEGROUP
    | CreateFunction(boundaries: seq<Key>) // CREATE PARTITION FUNCTION .. RANGE RIGHT
    | CreateScheme(groups: seq<Key>)  // CREATE PARTITION SCHEME .. TO (filegroups)
    | DropPk                          // DROP CONSTRAINT PK_<table>_Id
    | AddPkNonclustered               // ADD CONSTRAINT .. PRIMARY KEY NONCLUSTERED
    | CreateClusteredIndex            // CREATE CLUSTERED INDEX IX_CreateTime .. ON scheme

  /** Bootstrap emits, per unit, its filegroup and then its file. */
  function UnitStatements(units: seq<Key>): (r: seq<Stmt>)
    ensures |r| == 2 * |units|
  {
    if units == [] then []
    else UnitStatements(units[..|units| - 1])
         + [AddFilegroup(units[|units| - 1]), AddFile(units[|units| - 1])]
  }

  /** The four statements a tick emits for one lookahead day. */
  function CreateQuad(k: Key): seq<Stmt>
  {
    [AddFilegroup(k), AddFile(k), NextUsed(k), SplitRange(k)]
  }

  /** A tick's create batch for the missing days, in the given order. */
  function CreateBatch(keys: seq<Key>): (r: seq<Stmt>)
    ensures |r| == 4 * |keys|
  {
    if keys == [] then []
    else CreateBatch(keys[..|keys| - 1]) + CreateQuad(keys[|keys| - 1])
  }

  /** A tick's retire batch: empty when there is nothing to retire. */
  function RetireBatch(retire: Option<Key>): (r: seq<Stmt>)
    ensures retire.None? <==> r == []
    ensures retire.Some? ==> |r| == 3 && r[0].RemoveFile? && r[1].MergeRange? && r[2].RemoveFilegroup?
    ensures retire.Some? ==> r[0].key == r[1].key == r[2].key == retire.value
  {
    match retire
    case None => []
    case Some(k) => [RemoveFile(k), MergeRange(k), RemoveFilegroup(k)]
  }

  /** Appending a key appends its four statements. */
  lemma CreateBatchAppend(keys: seq<Key>, k: Key)
    ensures CreateBatch(keys + [k]) == CreateBatch(keys) + CreateQuad(k)
  {
    assert (keys + [k])[..|keys|] == keys;
  }

  /** Position 2j and 2j+1 of the bootstrap unit statements belong to unit j. */
  lemma {:induction false} UnitStatementsAt(units: seq<Key>, j: nat)
    requires j < |units|
    ensures UnitStatements(units)[2 * j] == AddFilegroup(units[j])
    ensures UnitStatements(units)[2 * j + 1] == AddFile(units[j])
  {
    var n := |units| - 1;
    if j < n {
      UnitStatementsAt(units[..n], j);
      assert units[..n][j] == units[j];
    }
  }

  /** Every file of the bootstrap goes into the filegroup created just before it. */
  lemma UnitStatementsPairing(units: seq<Key>)
    ensures forall p :: 0 <= p < |UnitStatements(units)| && UnitStatements(units)[p].AddFile? ==>
      p % 2 == 1 && UnitStatements(units)[p - 1] == AddFilegroup(UnitStatements(units)[p].key)
  {
    var r := UnitStatements(units);
    forall p | 0 <= p < |r| && r[p].AddFile?
      ensures p % 2 == 1 && r[p - 1] == AddFilegroup(r[p].key)
    {
      UnitStatementsAt(units, p / 2);
    }
  }

  /** The four statements of the j-th created day sit at 4j .. 4j+3. */
  lemma {:induction false} CreateBatchAt(keys: seq<Key>, j: nat)
    requires j < |keys|
    ensures CreateBatch(keys)[4 * j .. 4 * j + 4] == CreateQuad(keys[j])
  {
    var n := |keys| - 1;
    var prefix := CreateBatch(keys[..n]);
    if j < n {
      CreateBatchAt(keys[..n], j);
      assert keys[..n][j] == keys[j];
      assert CreateBatch(keys)[4 * j .. 4 * j + 4] == prefix[4 * j .. 4 * j + 4];
    } else {
      assert CreateBatch(keys)[4 * j .. 4 * j + 4] == CreateQuad(keys[n]);
    }
  }

  /** Within a create batch every SPLIT RANGE is directly preceded by the NEXT
      USED of the same unit, which is preceded by that unit's file and
      filegroup. */
  lemma {:induction false} SplitFollowsNextUsed(keys: seq<Key>)
    ensures forall p :: 0 <= p < |CreateBatch(keys)| && CreateBatch(keys)[p].SplitRange? ==>
      3 <= p &&
      CreateBatch(keys)[p - 1] == NextUsed(CreateBatch(keys)[p].key) &&
      CreateBatch(keys)[p - 2] == AddFile(CreateBatch(keys)[p].key) &&
      CreateBatch(keys)[p - 3] == AddFilegroup(CreateBatch(keys)[p].key)
  {
    if keys != [] {
      var n := |keys| - 1;
      SplitFollowsNextUsed(keys[..n]);
      var prefix := CreateBatch(keys[..n]);
      var r := CreateBatch(keys);
      assert r == prefix + CreateQuad(keys[n]);
      forall p | 0 <= p < |r| && r[p].SplitRange?
        ensures 3 <= p && r[p - 1] == NextUsed(r[p].key) && r[p - 2] == AddFile(r[p].key)
             && r[p - 3] == AddFilegroup(r[p].key)
      {
        if p < |prefix| {
          assert r[p] == prefix[p];
        } else {
          assert p == |prefix| + 3;
        }
      }
    }
  }

  /** A create batch splits the partition function at exactly the keys it
      was built from. */
  lemma {:induction false} CreateBatchSplits(keys: seq<Key>)
    ensures forall k :: SplitRange(k) in CreateBatch(keys) <==> k in keys
  {
    if keys != [] {
      var n := |keys| - 1;
      CreateBatchSplits(keys[..n]);
      assert keys == keys[..n] + [keys[n]];
      assert CreateBatch(keys) == CreateBatch(keys[..n]) + CreateQuad(keys[n]);
    }
  }
}

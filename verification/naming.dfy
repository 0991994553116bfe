/** Filegroup names and the inventory projection. A filegroup is named by
    the table name followed by the key text; the tick reads every catalog
    filegroup name and deletes every occurrence of the table name from it
    (not only a leading one, and without filtering out names such as
    PRIMARY). */
module Naming {

  predicate IsDigit(c: char)
  {
    '0' <= c <= '9'
  }

  predicate AllDigits(s: string)
  {
    forall i :: 0 <= i < |s| ==> IsDigit(s[i])
  }

  /** The text of the floor unit's key. */
  const FloorText: string := "00010101"

  /** `TableName + key`. */
  function FilegroupName(table: string, key: string): (r: string)
    ensures |r| == |table| + |key|
    ensures r[..|table|] == table && r[|table|..] == key
  {
    table + key
  }

  /** `s.Replace(pat, "")`: scanning left to right, every occurrence of
      `pat` that does not overlap an earlier removed one is deleted. The
      result never grows and every character of it comes from `s`. */
  function RemoveAll(s: string, pat: string): (r: string)
    requires pat != []
    ensures |r| <= |s|
    ensures forall i :: 0 <= i < |r| ==> r[i] in s
    decreases |s|
  {
    if |s| < |pat| then s
    else if s[..|pat|] == pat then RemoveAll(s[|pat|..], pat)
    else [s[0]] + RemoveAll(s[1..], pat)
  }

  /** The inventory snapshot: the stripped name of every catalog filegroup. */
  function Snapshot(catalog: seq<string>, table: string): (inv: set<string>)
    requires table != []
    ensures forall name :: name in catalog ==> RemoveAll(name, table) in inv
    ensures forall key :: key in inv ==> exists name :: name in catalog && RemoveAll(name, table) == key
  {
    set name | name in catalog :: RemoveAll(name, table)
  }

  /** A digit-only text contains no occurrence of a table name that has a
      non-digit character, so stripping leaves it unchanged. */
  lemma {:induction false} RemoveAllKeepsDigits(s: string, pat: string)
    requires pat != [] && !AllDigits(pat)
    requires AllDigits(s)
    ensures RemoveAll(s, pat) == s
    decreases |s|
  {
    if |s| >= |pat| {
      var i :| 0 <= i < |pat| && !IsDigit(pat[i]);
      assert s[..|pat|][i] == s[i];
      assert s[..|pat|] != pat;
      RemoveAllKeepsDigits(s[1..], pat);
      assert s == [s[0]] + s[1..];
    }
  }

  /** Naming then stripping is the identity on digit-only keys (every day
      key and the floor key "00010101") whenever the table name has a
      non-digit character. */
  lemma StripRoundTrip(table: string, key: string)
    requires table != [] && !AllDigits(table)
    requires AllDigits(key)
    ensures RemoveAll(FilegroupName(table, key), table) == key
  {
    var name := FilegroupName(table, key);
    assert name[|table|..] == key;
    RemoveAllKeepsDigits(key, table);
  }

  /** A unit whose filegroup is in the catalog shows up in the snapshot
      under its bare key; in particular the floor unit does. */
  lemma SnapshotHasKey(catalog: seq<string>, table: string, key: string)
    requires table != [] && !AllDigits(table)
    requires AllDigits(key)
    requires FilegroupName(table, key) in catalog
    ensures key in Snapshot(catalog, table)
    ensures FilegroupName(table, FloorText) in catalog ==> FloorText in Snapshot(catalog, table)
  {
    StripRoundTrip(table, key);
    StripRoundTrip(table, FloorText);
  }
}

/** The fixed tables of an original and the check of its schema entries against their definitions. */
module Schemas {
  import opened Base
  import opened Images
  import opened Shapes

  type Verdict = Outcome<ShapeError>

  /** The bytes of an ASCII name. */
  function Named(name: string): Bytes {
    seq(|name|, i requires 0 <= i < |name| => (name[i] as int % 256) as Byte)
  }

  const ID_COLUMN := BlobColumn(16)
  const KEY_COLUMN := BlobColumn(64)
  const FRAME_COLUMN := BlobColumn(FRAME)
  const RECEIPT_COLUMN := BlobColumn(FRAME + 8192)

  function ColumnsOf(table: Bytes): Shaped<seq<Column>> {
    if table == Named("header") then
      Ok([IntegerColumn, IntegerColumn, IntegerColumn, IntegerColumn, IntegerColumn, IntegerColumn, BlobColumn(8192)])
    else if table == Named("head") then Ok([IntegerColumn, IntegerColumn, IntegerColumn, IntegerColumn, NullableBlob(16)])
    else if table == Named("records") then Ok([ID_COLUMN, IntegerColumn, NullableBlob(16), FRAME_COLUMN])
    else if table == Named("record_integrity") || table == Named("requests") || table == Named("request_integrity") then
      Ok([ID_COLUMN, FRAME_COLUMN])
    else if table == Named("creations") then Ok([IntegerColumn, ID_COLUMN, ID_COLUMN])
    else if table == Named("materials") then Ok([KEY_COLUMN, BlobColumn(1024 * 1024)])
    else if table == Named("establishments") then Ok([KEY_COLUMN, ID_COLUMN, IntegerColumn, ID_COLUMN])
    else if table == Named("memberships") then Ok([ID_COLUMN, KEY_COLUMN, IntegerColumn])
    else if table == Named("grounds") then Ok([ID_COLUMN, ID_COLUMN])
    else if table == Named("record_grounds") then Ok([ID_COLUMN, ID_COLUMN, ID_COLUMN])
    else if table == Named("results") then Ok([ID_COLUMN, ID_COLUMN, ID_COLUMN, BlobColumn(64), ID_COLUMN, NullableBlob(24)])
    else if table == Named("grant_events") then Ok([ID_COLUMN, ID_COLUMN, IntegerColumn, IntegerColumn])
    else if table == Named("activation") || table == Named("activation_integrity") then Ok([IntegerColumn, RECEIPT_COLUMN])
    else Err(Unsupported)
  }

  function IndexColumnsOf(table: Bytes, n: nat): Shaped<seq<Column>> {
    if n == 2 && table == Named("records") then Ok([IntegerColumn, IntegerColumn])
    else if n == 2 && table == Named("grant_events") then Ok([ID_COLUMN, IntegerColumn, IntegerColumn])
    else if n != 1 then Err(Unsupported)
    else if table == Named("creations") then Ok([IntegerColumn, ID_COLUMN, IntegerColumn])
    else if table == Named("memberships") then Ok([ID_COLUMN, KEY_COLUMN, IntegerColumn])
    else if table == Named("grounds") || table == Named("record_grounds") then Ok([ID_COLUMN, ID_COLUMN, IntegerColumn])
    else if table == Named("materials") || table == Named("establishments") then Ok([KEY_COLUMN, IntegerColumn])
    else if table == Named("records") || table == Named("record_integrity") || table == Named("requests")
            || table == Named("request_integrity") || table == Named("results") || table == Named("grant_events") then
      Ok([ID_COLUMN, IntegerColumn])
    else Err(Unsupported)
  }

  function AutoIndices(table: Bytes): nat {
    if table == Named("records") || table == Named("grant_events") then 2
    else if table == Named("header") || table == Named("head") || table == Named("activation") || table == Named("activation_integrity") then 0
    else 1
  }

  function RowCap(table: Bytes): nat {
    if table == Named("header") || table == Named("head") || table == Named("activation") || table == Named("activation_integrity") then 1
    else if table == Named("records") || table == Named("record_integrity") || table == Named("requests") || table == Named("request_integrity")
    then 256
    else MAX_ROWS
  }

  function DigitsValue(b: Bytes): Option<nat> {
    if b == [] then Some(0)
    else
      var before := DigitsValue(b[..|b| - 1]);
      var digit := b[|b| - 1];
      if before.None? || digit < 48 || digit > 57 then None else Some(before.value * 10 + (digit - 48))
  }

  /** A decimal number of a machine word, an optional plus sign in front. */
  function ParsedNumber(b: Bytes): Option<nat> {
    var digits := if b != [] && b[0] == 43 then b[1..] else b;
    var value := if digits == [] then None else DigitsValue(digits);
    if value.Some? && value.value <= U64_MAX then value else None
  }

  function AutoIndexPrefix(table: Bytes): Bytes {
    Named("sqlite_autoindex_") + table + Named("_")
  }

  /** The number behind the automatic name of an index on its table. */
  function IndexNumber(e: SchemaEntry): Option<nat> {
    var prefix := AutoIndexPrefix(e.table);
    if prefix <= e.name then ParsedNumber(e.name[|prefix|..]) else None
  }

  /** The columns behind an entry. */
  function ColumnsFor(e: SchemaEntry): Shaped<seq<Column>> {
    if !e.index then ColumnsOf(e.name)
    else if IndexNumber(e).None? then Err(Corrupt)
    else IndexColumnsOf(e.table, IndexNumber(e).value)
  }

  // ----- the entries together

  function Defined(ddl: map<Bytes, Bytes>, name: Bytes): Option<Bytes> {
    if name in ddl then Some(ddl[name]) else None
  }

  predicate IndexAccepted(ddl: map<Bytes, Bytes>, e: SchemaEntry) {
    && IndexNumber(e).Some? && e.sql.None? && 1 <= IndexNumber(e).value <= AutoIndices(e.table) && e.table in ddl
  }

  predicate TableAccepted(ddl: map<Bytes, Bytes>, e: SchemaEntry) {
    e.table == e.name && e.sql == Defined(ddl, e.name)
  }

  predicate EntryAccepted(ddl: map<Bytes, Bytes>, e: SchemaEntry) {
    e.root > 1 && if e.index then IndexAccepted(ddl, e) else TableAccepted(ddl, e)
  }

  /** Two entries share no root, no table name and no index. */
  predicate EntriesApart(a: SchemaEntry, b: SchemaEntry) {
    && a.root != b.root
    && (!a.index && !b.index ==> a.name != b.name)
    && (a.index && b.index ==> (a.table, IndexNumber(a)) != (b.table, IndexNumber(b)))
  }

  function TableNames(entries: seq<SchemaEntry>): set<Bytes> {
    set e | e in entries && !e.index :: e.name
  }

  function Roots(entries: seq<SchemaEntry>): set<nat> {
    {1} + set e | e in entries :: e.root
  }

  function IndexNames(entries: seq<SchemaEntry>): set<(Bytes, Option<nat>)> {
    set e | e in entries && e.index :: (e.table, IndexNumber(e))
  }

  predicate EntriesAccepted(ddl: map<Bytes, Bytes>, entries: seq<SchemaEntry>) {
    && (forall i :: 0 <= i < |entries| ==> EntryAccepted(ddl, entries[i]))
    && (forall i, j :: 0 <= i < j < |entries| ==> EntriesApart(entries[i], entries[j]))
  }

  /** Exactly the defined tables, each with all of its automatic indices, on roots of their own. */
  predicate SchemaAccepted(ddl: map<Bytes, Bytes>, entries: seq<SchemaEntry>) {
    && EntriesAccepted(ddl, entries)
    && |TableNames(entries)| == |ddl|
    && forall table, n | table in ddl && 1 <= n <= AutoIndices(table) :: (table, Some(n)) in IndexNames(entries)
  }

  lemma OneMoreAccepted(ddl: map<Bytes, Bytes>, entries: seq<SchemaEntry>, i: nat)
    requires i < |entries| && EntriesAccepted(ddl, entries[..i])
    ensures EntriesAccepted(ddl, entries[..i + 1]) <==>
            var e := entries[i];
            && EntryAccepted(ddl, e) && e.root !in Roots(entries[..i])
            && (if e.index then (e.table, IndexNumber(e)) !in IndexNames(entries[..i]) else e.name !in TableNames(entries[..i]))
    ensures Roots(entries[..i + 1]) == Roots(entries[..i]) + {entries[i].root}
    ensures TableNames(entries[..i + 1]) == TableNames(entries[..i]) + if entries[i].index then {} else {entries[i].name}
    ensures IndexNames(entries[..i + 1]) == IndexNames(entries[..i]) + if entries[i].index then {(entries[i].table, IndexNumber(entries[i]))} else {}
  {
    hide IndexNumber, EntryAccepted, EntriesAccepted, EntriesApart;
    var before, e := entries[..i], entries[i];
    assert entries[..i + 1] == before + [e];
    AcceptedOneMore(ddl, before, e);
    ApartFromAll(before, e);
    RootsOfAll(ddl, before, e);
  }

  lemma AcceptedOneMore(ddl: map<Bytes, Bytes>, before: seq<SchemaEntry>, e: SchemaEntry)
    requires EntriesAccepted(ddl, before)
    ensures EntriesAccepted(ddl, before + [e]) <==>
            EntryAccepted(ddl, e) && forall k :: 0 <= k < |before| ==> EntriesApart(before[k], e)
  {
    hide EntryAccepted, EntriesApart;
    var all := before + [e];
    assert forall k :: 0 <= k < |before| ==> all[k] == before[k];
    if EntriesAccepted(ddl, all) {
      forall k | 0 <= k < |before| ensures EntriesApart(before[k], e) {
        assert EntriesApart(all[k], all[|before|]);
      }
      assert EntryAccepted(ddl, all[|before|]);
    }
  }

  lemma RootsOfAll(ddl: map<Bytes, Bytes>, before: seq<SchemaEntry>, e: SchemaEntry)
    ensures EntryAccepted(ddl, e) ==> (e.root !in Roots(before) <==> forall k :: 0 <= k < |before| ==> before[k].root != e.root)
  {
    hide IndexAccepted, TableAccepted;
    if e.root in Roots(before) && e.root != 1 {
      var x :| x in before && x.root == e.root;
      var k :| 0 <= k < |before| && before[k] == x;
    }
  }

  lemma ApartFromAll(before: seq<SchemaEntry>, e: SchemaEntry)
    ensures (forall k :: 0 <= k < |before| ==> EntriesApart(before[k], e)) <==>
            && (forall k :: 0 <= k < |before| ==> before[k].root != e.root)
            && (if e.index then (e.table, IndexNumber(e)) !in IndexNames(before) else e.name !in TableNames(before))
  {
    hide IndexNumber;
    if e.index && (e.table, IndexNumber(e)) in IndexNames(before) {
      var x :| x in before && x.index && (x.table, IndexNumber(x)) == (e.table, IndexNumber(e));
      var k :| 0 <= k < |before| && before[k] == x;
      assert !EntriesApart(before[k], e);
    }
    if !e.index && e.name in TableNames(before) {
      var x :| x in before && !x.index && x.name == e.name;
      var k :| 0 <= k < |before| && before[k] == x;
      assert !EntriesApart(before[k], e);
    }
  }

  lemma {:induction false} RefusedBefore(ddl: map<Bytes, Bytes>, entries: seq<SchemaEntry>, i: nat)
    requires i <= |entries| && !EntriesAccepted(ddl, entries[..i])
    ensures !EntriesAccepted(ddl, entries)
  {
    hide EntryAccepted, EntriesApart;
    assert forall k :: 0 <= k < i ==> entries[..i][k] == entries[k];
  }

  /** Walks the entries, then looks for what is missing. */
  method CheckSchema(ddl: map<Bytes, Bytes>, entries: seq<SchemaEntry>) returns (r: Verdict)
    ensures r.Pass? <==> SchemaAccepted(ddl, entries)
  {
    var roots: set<nat>, tables: set<Bytes>, indices: set<(Bytes, Option<nat>)> := {1}, {}, {};
    var i := 0;
    while i < |entries|
      invariant 0 <= i <= |entries| && EntriesAccepted(ddl, entries[..i])
      invariant roots == Roots(entries[..i]) && tables == TableNames(entries[..i]) && indices == IndexNames(entries[..i])
    {
      hide EntriesAccepted, Roots, TableNames, IndexNames, IndexNumber;
      var e := entries[i];
      OneMoreAccepted(ddl, entries, i);
      RefusedIfNext(ddl, entries, i);
      if e.root == 0 || e.root in roots {
        RootsHaveOne(entries[..i]);
        return Fail(Corrupt);
      }
      roots := roots + {e.root};
      if e.index {
        if IndexNumber(e).None? || e.sql.Some? || IndexNumber(e).value == 0 || IndexNumber(e).value > AutoIndices(e.table) || e.table !in ddl
           || (e.table, IndexNumber(e)) in indices {
          return Fail(Unsupported);
        }
        indices := indices + {(e.table, IndexNumber(e))};
      } else {
        if e.table != e.name || e.sql != Defined(ddl, e.name) || e.name in tables {
          return Fail(Unsupported);
        }
        tables := tables + {e.name};
      }
      RootsHaveOne(entries[..i]);
      i := i + 1;
    }
    assert entries[..i] == entries;
    if |tables| != |ddl| {
      return Fail(Unsupported);
    }
    r := if forall table, n | table in ddl && 1 <= n <= AutoIndices(table) :: (table, Some(n)) in indices then Pass else Fail(Corrupt);
  }

  lemma RootsHaveOne(entries: seq<SchemaEntry>)
    ensures 1 in Roots(entries)
  {
  }

  lemma RefusedIfNext(ddl: map<Bytes, Bytes>, entries: seq<SchemaEntry>, i: nat)
    requires i < |entries|
    ensures !EntriesAccepted(ddl, entries[..i + 1]) ==> !SchemaAccepted(ddl, entries)
  {
    if !EntriesAccepted(ddl, entries[..i + 1]) {
      RefusedBefore(ddl, entries, i + 1);
    }
  }
}

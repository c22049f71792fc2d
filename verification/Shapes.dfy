/** The shapes of records and schema entries, the roles of pages, and spans that do not overlap. */
module Shapes {
  import opened Base
  import opened Images

  const FRAME: nat := 16 * 1024 * 1024
  const MAX_SCHEMA: nat := 30
  const MAX_ROWS: nat := 16384
  const MAX_CELLS: nat := 65536
  const MAX_DEPTH: nat := 20

  // ----- records

  datatype Column = IntegerColumn | BlobColumn(max: nat) | NullableBlob(max: nat)

  datatype Value = Value(serial: nat, offset: nat, length: nat)

  function SerialSize(serial: nat): Option<nat> {
    if serial == 0 || serial == 8 || serial == 9 then Some(0)
    else if serial <= 4 then Some(serial)
    else if serial == 5 then Some(6)
    else if serial <= 7 then Some(8)
    else if serial <= 11 then None
    else Some((serial - 12) / 2)
  }

  /** The values of a record lie one after another from the end of its header to its end. */
  ghost predicate Tiles(values: seq<Value>, start: nat, end: nat) {
    && start <= end
    && (forall i :: 0 <= i < |values| ==> SerialSize(values[i].serial) == Some(values[i].length))
    && (if values == [] then start == end
        else && values[0].offset == start
             && (forall i, j :: 0 <= i < |values| - 1 && j == i + 1 ==> values[j].offset == values[i].offset + values[i].length)
             && values[|values| - 1].offset + values[|values| - 1].length == end)
  }

  /** The serial types from `at` to `end` and the values they place from `body` on, with both final positions. */
  function SerialsFrom(prefix: Bytes, at: nat, end: nat, body: nat, count: nat): (r: Option<(seq<Value>, nat, nat)>)
    ensures r.Some? ==> |r.value.0| == count
    decreases count
  {
    if count == 0 then Some(([], at, body))
    else if at >= end then None
    else
      var serial := VarintAt(prefix, at);
      if serial.None? || SerialSize(serial.value.0).None? then None
      else
        var size := SerialSize(serial.value.0).value;
        var rest := SerialsFrom(prefix, serial.value.1, end, body + size, count - 1);
        if rest.None? then None else Some(([Value(serial.value.0, body, size)] + rest.value.0, rest.value.1, rest.value.2))
  }

  /** The values of a record: its header holds exactly the expected serial types, and they account for its whole length. */
  function RecordValues(prefix: Bytes, length: nat, expected: nat): (r: Option<seq<Value>>)
    ensures r.Some? ==> |r.value| == expected <= 8
  {
    var head := VarintAt(prefix, 0);
    if expected > 8 || head.None? || head.value.0 > |prefix| || head.value.0 > 128 || head.value.0 > length then None
    else
      var end := head.value.0;
      var read := SerialsFrom(prefix, head.value.1, end, end, expected);
      if read.None? || read.value.1 != end || read.value.2 != length then None else Some(read.value.0)
  }

  lemma {:induction false} SerialsTile(prefix: Bytes, at: nat, end: nat, body: nat, count: nat)
    requires SerialsFrom(prefix, at, end, body, count).Some?
    ensures Tiles(SerialsFrom(prefix, at, end, body, count).value.0, body, SerialsFrom(prefix, at, end, body, count).value.2)
    decreases count
  {
    hide VarintAt;
    if count > 0 {
      var serial := VarintAt(prefix, at).value;
      var size := SerialSize(serial.0).value;
      SerialsTile(prefix, serial.1, end, body + size, count - 1);
      var rest := SerialsFrom(prefix, serial.1, end, body + size, count - 1).value;
      TilesBefore(Value(serial.0, body, size), rest.0, body, rest.2);
    }
  }

  lemma TilesBefore(first: Value, rest: seq<Value>, body: nat, end: nat)
    requires first.offset == body && SerialSize(first.serial) == Some(first.length) && Tiles(rest, body + first.length, end)
    ensures Tiles([first] + rest, body, end)
  {
    var all := [first] + rest;
    forall i, j | 0 <= i < |all| - 1 && j == i + 1 ensures all[j].offset == all[i].offset + all[i].length {
      if i > 0 {
        assert all[i] == rest[i - 1] && all[j] == rest[j - 1];
      }
    }
  }

  /** The values of an accepted record lie one after another from the end of its header to its end. */
  lemma RecordTiles(prefix: Bytes, length: nat, expected: nat)
    requires RecordValues(prefix, length, expected).Some?
    ensures exists start :: start <= 128 && Tiles(RecordValues(prefix, length, expected).value, start, length)
  {
    hide VarintAt, Tiles;
    var head := VarintAt(prefix, 0).value;
    SerialsTile(prefix, head.1, head.0, head.0, expected);
  }

  /** Reads the header of a record. */
  method RecordHeader(prefix: Bytes, length: nat, expected: nat) returns (r: Shaped<seq<Value>>)
    ensures r.Ok? <==> RecordValues(prefix, length, expected).Some?
    ensures r.Ok? ==> r.value == RecordValues(prefix, length, expected).value
    ensures r.Err? ==> r.error == Corrupt
  {
    hide VarintLength, VarintValue, SerialsFrom;
    if expected > 8 {
      return Err(Corrupt);
    }
    var head := Varint(prefix, 0);
    if head.Err? {
      return Err(Corrupt);
    }
    var end: nat := head.value.0;
    if end > |prefix| || end > 128 || end > length {
      return Err(Corrupt);
    }
    var serials := ReadSerials(prefix, head.value.1, end, expected);
    if serials.Err? || serials.value.1 != end || serials.value.2 != length {
      return Err(Corrupt);
    }
    r := Ok(serials.value.0);
  }

  /** Serial type by serial type, each placing its value after the one before. */
  method ReadSerials(prefix: Bytes, start: nat, end: nat, expected: nat) returns (r: Shaped<(seq<Value>, nat, nat)>)
    ensures r.Ok? <==> SerialsFrom(prefix, start, end, end, expected).Some?
    ensures r.Ok? ==> r.value == SerialsFrom(prefix, start, end, end, expected).value
    ensures r.Err? ==> r.error == Corrupt
  {
    hide SerialsFrom, Joined, VarintAt;
    var values: seq<Value> := [];
    var at: nat, body: nat := start, end;
    ghost var whole := SerialsFrom(prefix, start, end, end, expected);
    NothingJoined(whole);
    while |values| < expected
      invariant |values| <= expected
      invariant whole == Joined(values, SerialsFrom(prefix, at, end, body, expected - |values|))
    {
      if at >= end {
        SerialRefused(prefix, at, end, body, expected - |values|, values);
        return Err(Corrupt);
      }
      var serial := Varint(prefix, at);
      VarintIsAt(prefix, at);
      if serial.Err? || SerialSize(serial.value.0).None? {
        SerialRefused(prefix, at, end, body, expected - |values|, values);
        return Err(Corrupt);
      }
      SerialRead(prefix, at, end, body, expected - |values|, values);
      var size := SerialSize(serial.value.0).value;
      values := values + [Value(serial.value.0, body, size)];
      body := body + size;
      at := serial.value.1;
    }
    AllJoined(prefix, at, end, body, values);
    r := Ok((values, at, body));
  }

  function Joined(values: seq<Value>, rest: Option<(seq<Value>, nat, nat)>): Option<(seq<Value>, nat, nat)> {
    if rest.None? then None else Some((values + rest.value.0, rest.value.1, rest.value.2))
  }

  lemma NothingJoined(rest: Option<(seq<Value>, nat, nat)>)
    ensures Joined([], rest) == rest
  {
    assert rest.Some? ==> [] + rest.value.0 == rest.value.0;
  }

  lemma JoinedFurther(values: seq<Value>, value: Value, rest: Option<(seq<Value>, nat, nat)>)
    ensures Joined(values, Joined([value], rest)) == Joined(values + [value], rest)
  {
    if rest.Some? {
      assert values + ([value] + rest.value.0) == values + [value] + rest.value.0;
    }
  }

  lemma SerialRead(prefix: Bytes, at: nat, end: nat, body: nat, count: nat, values: seq<Value>)
    requires count > 0 && at < end && VarintAt(prefix, at).Some? && SerialSize(VarintAt(prefix, at).value.0).Some?
    ensures var serial := VarintAt(prefix, at).value;
            var size := SerialSize(serial.0).value;
            Joined(values, SerialsFrom(prefix, at, end, body, count))
            == Joined(values + [Value(serial.0, body, size)], SerialsFrom(prefix, serial.1, end, body + size, count - 1))
  {
    hide VarintAt;
    SerialsStep(prefix, at, end, body, count);
    hide SerialsFrom, Joined;
    var serial := VarintAt(prefix, at).value;
    var size := SerialSize(serial.0).value;
    JoinedFurther(values, Value(serial.0, body, size), SerialsFrom(prefix, serial.1, end, body + size, count - 1));
  }

  lemma SerialRefused(prefix: Bytes, at: nat, end: nat, body: nat, count: nat, values: seq<Value>)
    requires count > 0 && (at >= end || VarintAt(prefix, at).None? || SerialSize(VarintAt(prefix, at).value.0).None?)
    ensures Joined(values, SerialsFrom(prefix, at, end, body, count)).None?
  {
    hide VarintAt;
    SerialsStep(prefix, at, end, body, count);
  }

  lemma AllJoined(prefix: Bytes, at: nat, end: nat, body: nat, values: seq<Value>)
    ensures Joined(values, SerialsFrom(prefix, at, end, body, 0)) == Some((values, at, body))
  {
    hide VarintAt;
    assert values + [] == values;
  }

  lemma VarintIsAt(b: Bytes, at: nat)
    ensures VarintAt(b, at) == if VarintLength(b, at, 0).None? then None
                               else Some((VarintValue(b[at..at + VarintLength(b, at, 0).value]), at + VarintLength(b, at, 0).value))
  {
  }

  lemma SerialsStep(prefix: Bytes, at: nat, end: nat, body: nat, count: nat)
    requires count > 0
    ensures SerialsFrom(prefix, at, end, body, count) ==
            if at >= end || VarintAt(prefix, at).None? || SerialSize(VarintAt(prefix, at).value.0).None? then None
            else
              var serial := VarintAt(prefix, at).value;
              var size := SerialSize(serial.0).value;
              Joined([Value(serial.0, body, size)], SerialsFrom(prefix, serial.1, end, body + size, count - 1))
  {
    hide VarintAt;
  }

  predicate ColumnFits(v: Value, c: Column) {
    match c
    case IntegerColumn => v.serial <= 6 || v.serial == 8 || v.serial == 9
    case BlobColumn(max) => v.serial >= 12 && v.serial % 2 == 0 && v.length <= max
    case NullableBlob(max) => v.serial == 0 || (v.serial >= 12 && v.serial % 2 == 0 && v.length <= max)
  }

  predicate ColumnsFit(values: seq<Value>, columns: seq<Column>) {
    |values| == |columns| && forall i :: 0 <= i < |values| ==> ColumnFits(values[i], columns[i])
  }

  datatype SchemaEntry = SchemaEntry(name: Bytes, table: Bytes, root: nat, sql: Option<Bytes>, index: bool)

  function Text(payload: Bytes, v: Value, max: nat): Shaped<Bytes> {
    if v.serial < 13 || v.serial % 2 == 0 || v.length > max || v.offset + v.length > |payload| then Err(Corrupt)
    else Ok(payload[v.offset..v.offset + v.length])
  }

  function Unsigned(b: Bytes): nat {
    if b == [] then 0 else Unsigned(b[..|b| - 1]) * 256 + b[|b| - 1]
  }

  /** A root page number: a non-negative integer of at most four bytes. */
  function RootNumber(payload: Bytes, v: Value): (r: Shaped<nat>)
    ensures r.Ok? && 1 <= v.serial <= 4 ==> v.length > 0 && v.offset + v.length <= |payload| && payload[v.offset] < 128
  {
    if 1 <= v.serial <= 4 then
      if v.offset + v.length > |payload| || v.length == 0 || payload[v.offset] >= 128 then Err(Corrupt)
      else Ok(Unsigned(payload[v.offset..v.offset + v.length]))
    else if v.serial == 8 then Ok(0)
    else if v.serial == 9 then Ok(1)
    else Err(Corrupt)
  }

  const TABLE_KIND: Bytes := [116, 97, 98, 108, 101]
  const INDEX_KIND: Bytes := [105, 110, 100, 101, 120]

  function EntryOf(payload: Bytes, values: seq<Value>): Shaped<SchemaEntry>
    requires |values| == 5
  {
    var kind :- Text(payload, values[0], 8);
    :- Need(kind == TABLE_KIND || kind == INDEX_KIND, Unsupported);
    var root :- RootNumber(payload, values[3]);
    var name :- Text(payload, values[1], 64);
    var table :- Text(payload, values[2], 64);
    if values[4].serial == 0 then Ok(SchemaEntry(name, table, root, None, kind == INDEX_KIND))
    else
      var sql :- Text(payload, values[4], 16384);
      Ok(SchemaEntry(name, table, root, Some(sql), kind == INDEX_KIND))
  }

  // ----- roles of pages

  const ROOT: nat := 1
  const FREE: nat := 2
  const FIRST_OVERFLOW: nat := 3
  const LATER_OVERFLOW: nat := 4
  const NON_ROOT: nat := 5
  const POINTER_MAP: nat := 6

  // ----- spans of one page

  datatype Span = Span(start: nat, length: nat) {
    function End(): nat {
      start + length
    }
  }

  ghost predicate Apart(a: Span, b: Span) {
    a.length == 0 || b.length == 0 || a.End() <= b.start || b.End() <= a.start
  }

  ghost predicate Disjoint(spans: seq<Span>, usable: nat) {
    && (forall i :: 0 <= i < |spans| ==> spans[i].End() <= usable)
    && (forall i, j :: 0 <= i < j < |spans| ==> Apart(spans[i], spans[j]))
  }

  ghost predicate Covered(spans: seq<Span>, x: nat) {
    exists i :: 0 <= i < |spans| && spans[i].start <= x < spans[i].End()
  }

  /** The used map says exactly which bytes some span covers. */
  ghost predicate Tracked(used: seq<bool>, spans: seq<Span>) {
    forall x :: 0 <= x < |used| ==> (used[x] <==> Covered(spans, x))
  }

  lemma SpanAdded(used: seq<bool>, later: seq<bool>, spans: seq<Span>, s: Span, usable: nat)
    requires Tracked(used, spans) && Disjoint(spans, usable) && s.End() <= usable <= |used| == |later|
    requires forall x :: s.start <= x < s.End() ==> !used[x]
    requires forall x :: 0 <= x < |used| ==> later[x] == (used[x] || s.start <= x < s.End())
    ensures Tracked(later, spans + [s]) && Disjoint(spans + [s], usable)
  {
    var more := spans + [s];
    forall x | 0 <= x < |later| ensures later[x] <==> Covered(more, x) {
      if Covered(spans, x) {
        var i :| 0 <= i < |spans| && spans[i].start <= x < spans[i].End();
        assert more[i] == spans[i];
      }
      if s.start <= x < s.End() {
        assert more[|spans|] == s;
      }
    }
    forall i | 0 <= i < |spans| ensures Apart(spans[i], s) {
      var x := if spans[i].start <= s.start then s.start else spans[i].start;
      assert spans[i].start <= x < spans[i].End() && x < |used| ==> Covered(spans, x) && used[x];
    }
  }
}

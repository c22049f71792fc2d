/** The declared constraints of an original's tables: keys, references and checks, and insertions that never break them. */
module Constraints {
  import opened Base
  import opened Model
  import opened Rules
  import opened Records
  import opened Change
  import opened Identities
  import Catalogue
  import Histories
  import Runs
  import opened Controls

  const MAX_CONTENT: nat := 1024 * 1024

  /** One row of one table; a frame and its copy stand beside each record. */
  datatype Row =
    | RecordRow(operation: OperationId, sequence: nat, predecessor: Option<OperationId>)
    | RecordCopy(operation: OperationId)
    | RequestRow(operation: OperationId)
    | RequestCopy(operation: OperationId)
    | CreationRow(created: CreatedIdentity, operation: OperationId)
    | MaterialRow(key: ContentKey, bytes: Bytes)
    | EstablishmentRow(key: ContentKey, operation: OperationId, isFresh: bool)
    | MembershipRow(operation: OperationId, key: ContentKey, intake: IntakeCase)
    | GroundRow(ground: GroundId, version: GroundVersion)
    | RecordGroundRow(operation: OperationId, ground: GroundId, version: GroundVersion)
    | ResultsRow(result: ResultRow)
    | GrantEventRow(event: GrantEvent)

  /** The order in which a new record's rows are put: its frames first, then table after table. */
  function Table(row: Row): nat {
    match row
    case RecordRow(_, _, _) => 0
    case RecordCopy(_) => 1
    case RequestRow(_) => 2
    case RequestCopy(_) => 3
    case CreationRow(_, _) => 4
    case MaterialRow(_, _) => 5
    case EstablishmentRow(_, _, _) => 6
    case MembershipRow(_, _, _) => 7
    case GroundRow(_, _) => 8
    case RecordGroundRow(_, _, _) => 9
    case ResultsRow(_) => 10
    case GrantEventRow(_) => 11
  }

  /** Two rows of one table that share its primary key or a unique column. */
  predicate Clash(a: Row, b: Row) {
    match (a, b)
    case (RecordRow(o, s, _), RecordRow(p, t, _)) => o == p || s == t
    case (RecordCopy(o), RecordCopy(p)) => o == p
    case (RequestRow(o), RequestRow(p)) => o == p
    case (RequestCopy(o), RequestCopy(p)) => o == p
    case (CreationRow(c, _), CreationRow(d, _)) => c == d
    case (MaterialRow(k, _), MaterialRow(l, _)) => k == l
    case (EstablishmentRow(k, _, _), EstablishmentRow(l, _, _)) => k == l
    case (MembershipRow(o, k, _), MembershipRow(p, l, _)) => o == p && k == l
    case (GroundRow(g, v), GroundRow(h, w)) => g == h && v == w
    case (RecordGroundRow(o, g, _), RecordGroundRow(p, h, _)) => o == p && g == h
    case (ResultsRow(a), ResultsRow(b)) => a.operation == b.operation
    case (GrantEventRow(a), GrantEventRow(b)) => a.operation == b.operation || a.written == b.written
    case _ => false
  }

  /** The checks of a table on the numbers and sizes in its row. */
  predicate Checked(row: Row) {
    match row
    case RecordRow(_, sequence, predecessor) => 0 < sequence <= I64_MAX && (sequence == 1 <==> predecessor.None?)
    case MaterialRow(_, bytes) => |bytes| <= MAX_CONTENT
    case GrantEventRow(event) => 0 < event.written.generation <= I64_MAX
    case _ => true
  }

  datatype Reference = ToRecord(operation: OperationId) | ToMaterial(key: ContentKey) | ToGround(ground: GroundId, version: GroundVersion)

  function References(row: Row): set<Reference> {
    match row
    case RecordRow(_, _, predecessor) => if predecessor.Some? then {ToRecord(predecessor.value)} else {}
    case RecordCopy(o) => {ToRecord(o)}
    case RequestRow(o) => {ToRecord(o)}
    case RequestCopy(o) => {ToRecord(o)}
    case CreationRow(_, o) => {ToRecord(o)}
    case MaterialRow(_, _) => {}
    case EstablishmentRow(k, o, _) => {ToRecord(o), ToMaterial(k)}
    case MembershipRow(o, k, _) => {ToRecord(o), ToMaterial(k)}
    case GroundRow(_, _) => {}
    case RecordGroundRow(o, g, v) => {ToRecord(o), ToGround(g, v)}
    case ResultsRow(r) => {ToRecord(r.operation)}
    case GrantEventRow(e) => {ToRecord(e.operation)}
  }

  predicate Satisfies(row: Row, ref: Reference) {
    match ref
    case ToRecord(o) => row.RecordRow? && row.operation == o
    case ToMaterial(k) => row.MaterialRow? && row.key == k
    case ToGround(g, v) => row == GroundRow(g, v)
  }

  ghost predicate Resolved(db: set<Row>, ref: Reference) {
    exists row :: row in db && Satisfies(row, ref)
  }

  ghost predicate RowHolds(db: set<Row>, row: Row) {
    && Checked(row)
    && (forall other :: other in db && other != row ==> !Clash(other, row))
    && (forall ref :: ref in References(row) ==> Resolved(db, ref))
  }

  /** Every declared constraint holds of every row. */
  ghost predicate ConstraintsHold(db: set<Row>) {
    forall row :: row in db ==> RowHolds(db, row)
  }

  /** The database takes a row only if its checks hold, no key is taken, and what it refers to is there, itself included. */
  ghost predicate MayPut(db: set<Row>, row: Row) {
    && Checked(row)
    && (forall other :: other in db ==> !Clash(other, row))
    && (forall ref :: ref in References(row) ==> Resolved(db + {row}, ref))
  }

  /** Rows put one at a time; the first one refused ends it. */
  ghost function PutAllRows(db: set<Row>, rows: seq<Row>): Option<set<Row>> {
    if rows == [] then Some(db)
    else
      var before := PutAllRows(db, rows[..|rows| - 1]);
      var row := rows[|rows| - 1];
      if before.None? || !MayPut(before.value, row) then None else Some(before.value + {row})
  }

  // ----- the rows of a history

  function FrameRows(r: StoredOperation): set<Row> {
    var o := r.operation.id;
    {RecordRow(o, r.sequence, r.checks.expectedOperation), RecordCopy(o), RequestRow(o), RequestCopy(o)}
  }

  function AllFrameRows(records: seq<StoredOperation>): set<Row> {
    set r, row | r in records && row in FrameRows(r) :: row
  }

  function TableRows(t: Tables): set<Row> {
    (set x | x in t.creations :: CreationRow(x.0, x.1))
    + (set x | x in t.establishments :: EstablishmentRow(x.0, x.1, x.2))
    + (set x | x in t.memberships :: MembershipRow(x.0, x.1, x.2))
    + (set x | x in t.grounds :: GroundRow(x.0, x.1))
    + (set x | x in t.recordGrounds :: RecordGroundRow(x.0, x.1, x.2))
    + (set x | x in t.results :: ResultsRow(x))
    + (set x | x in t.grantEvents :: GrantEventRow(x))
  }

  function MaterialRows(d: Derived): set<Row> {
    set x | x in Materials(d) :: MaterialRow(x.0, x.1)
  }

  /** The whole database of a history: its frames with their copies, and its controls. */
  function DatabaseOf(records: seq<StoredOperation>): set<Row>
    requires ControlsOf(records).Ok?
  {
    AllFrameRows(records) + TableRows(ControlsOf(records).value.tables) + MaterialRows(ControlsOf(records).value)
  }

  /** The encoder refuses larger contents. */
  predicate Encodable(r: StoredOperation) {
    forall k :: k in r.checks.contentItems ==> |r.checks.contentItems[k]| <= MAX_CONTENT
  }

  predicate AllEncodable(records: seq<StoredOperation>) {
    |records| <= I64_MAX && forall r :: r in records ==> Encodable(r)
  }

  // ----- the frames

  /** Records are numbered from one, each naming the one before it. */
  lemma RecordsAreChained(head: HistoryHead, records: seq<StoredOperation>, i: nat)
    requires ReplayPrefix(head, records).Ok? && i < |records|
    ensures records[i].sequence == i + 1
    ensures records[i].checks.expectedOperation == if i == 0 then None else Some(records[i - 1].operation.id)
  {
    hide ReplayPrefix, ReplayRecord, ValidateCurrent, Transition, CreationClaims;
    Catalogue.RecordAt(head, records, i);
    var l := ReplayPrefix(head, records[..i]).value;
    var _ := Histories.RecordParts(l, head, records[i]);
    SequenceIsNext(l, head, records[i]);
    ExpectedIsLast(l, records[i]);
    CountAt(head, records[..i]);
    if i > 0 {
      Catalogue.RecordAt(head, records, i - 1);
      Histories.RecordJoins(ReplayPrefix(head, records[..i - 1]).value, head, records[i - 1]);
    } else {
      assert records[..0] == [];
      NothingLast(head);
    }
  }

  lemma SequenceIsNext(l: Ledger, head: HistoryHead, r: StoredOperation)
    requires ReplayRecord(l, head, r).Ok?
    ensures r.sequence == |l.records| + 1
  {
    hide Candidate, CreationClaims, EstablishmentClaims, RetainedBindings, UsedGrant, GrantSnapshot, RequestOf, Retain;
  }

  lemma ExpectedIsLast(l: Ledger, r: StoredOperation)
    requires ValidateCurrent(l, r.operation, r.checks).Pass?
    ensures r.checks.expectedOperation == l.state.lastOperation
  {
    hide PrepareCreation, Requirements, BoundContents, ExactlyBound, CheckIntakes, DerivationReferences, ProposalReferences, InOrder;
  }

  lemma {:induction false} CountAt(head: HistoryHead, records: seq<StoredOperation>)
    requires ReplayPrefix(head, records).Ok?
    ensures |ReplayPrefix(head, records).value.records| == |records|
  {
    hide ReplayRecord;
    if records != [] {
      CountAt(head, records[..|records| - 1]);
      Histories.RecordJoins(ReplayPrefix(head, records[..|records| - 1]).value, head, records[|records| - 1]);
    }
  }

  lemma NothingLast(head: HistoryHead)
    requires ReplayPrefix(head, []).Ok?
    ensures ReplayPrefix(head, []).value.state.lastOperation == None
  {
    hide ReplayRecord;
  }

  // ----- what the controls hold

  /** Each table row refers to a content and a ground that are there, and every content is small enough. */
  ghost predicate Grounded(d: Derived) {
    && (forall x :: x in d.tables.memberships ==> x.1 in d.bytes)
    && (forall x :: x in d.tables.establishments ==> x.0 in d.bytes)
    && (forall x :: x in d.tables.recordGrounds ==> (x.1, x.2) in d.tables.grounds)
    && (forall k :: k in d.bytes ==> |d.bytes[k]| <= MAX_CONTENT)
  }

  lemma JoinedGrounded(d: Derived, r: StoredOperation)
    requires Grounded(d) && Joined(d, r).Ok? && Encodable(r)
    ensures Grounded(Joined(d, r).value)
  {
    hide GrantEventRows, CreationRows, RetainedBy, ResultOf, Insertable, SameWhereBoth, WrittenGrant;
  }

  lemma {:induction false} ControlsGrounded(records: seq<StoredOperation>)
    requires ControlsOf(records).Ok? && AllEncodable(records)
    ensures Grounded(ControlsOf(records).value)
  {
    hide Joined, Encodable, Grounded;
    if records == [] {
      NothingGrounded();
    } else {
      ControlsGrounded(records[..|records| - 1]);
      JoinedGrounded(ControlsOf(records[..|records| - 1]).value, records[|records| - 1]);
    }
  }

  lemma NothingGrounded()
    ensures Grounded(NOTHING)
  {
  }

  lemma WrittenIsPositive(head: HistoryHead, records: seq<StoredOperation>, i: nat)
    requires ReplayPrefix(head, records).Ok? && i < |records| && WrittenGrant(records[i]).Some?
    ensures WrittenGrant(records[i]).value.generation > 0
  {
    hide ReplayPrefix, ReplayRecord, ValidateCurrent, Transition, CreationClaims;
    Catalogue.RecordAt(head, records, i);
    var l := ReplayPrefix(head, records[..i]).value;
    var s := Histories.RecordParts(l, head, records[i]);
    GrantIsPositive(l.state, records[i].operation.command, ValidationOf(records[i].checks), WrittenGrant(records[i]).value);
  }

  lemma GrantIsPositive(s: State, c: Command, v: Validation, used: GrantUse)
    requires Transition(s, c, v).Ok?
    requires Transition(s, c, v).value.1 == Granted(used) || Transition(s, c, v).value.1 == Revoked(used)
    ensures used.generation > 0
  {
    hide StepSetGrant, StepRevokeGrant, StepPropose, StepAssess, StepDecide, StepReaffirm, StepRetract, StepAdmit, StepDispatch, StepFinding,
      StepAdapt, StepProgress, StepFulfill, StepReconcile, StepInitiate, StepWithdraw;
    match c
    case SetGrant(id, expected, spec) => SetIsPositive(s, id, expected, spec, v);
    case RevokeGrant(id, expected) => RevokeIsPositive(s, id, expected, v);
    case _ => OnlyGrantCommandsWriteGrants(s, c, v);
  }

  lemma SetIsPositive(s: State, id: GrantId, expected: Option<nat>, spec: GrantSpec, v: Validation)
    requires StepSetGrant(s, id, expected, spec, v).Ok?
    ensures StepSetGrant(s, id, expected, spec, v).value.1 == Granted(GrantUse(id, GenerationFor(s, id, expected).value))
    ensures GenerationFor(s, id, expected).Ok? && GenerationFor(s, id, expected).value > 0
  {
  }

  lemma RevokeIsPositive(s: State, id: GrantId, expected: nat, v: Validation)
    requires StepRevokeGrant(s, id, expected, v).Ok?
    ensures exists generation: nat :: generation > 0 && StepRevokeGrant(s, id, expected, v).value.1 == Revoked(GrantUse(id, generation))
  {
    var generation := NextGeneration(s.grants[id].generation).value;
    assert generation > 0;
  }

  lemma {:induction false} GenerationsFit(records: seq<StoredOperation>, r: StoredOperation)
    requires ControlsOf(records).Ok? && r in records
    ensures FitsColumn(r)
  {
    hide Insertable, RowsOf, SameWhereBoth, RetainedBy, Complete;
    var earlier, last := records[..|records| - 1], records[|records| - 1];
    if r != last {
      assert records == earlier + [last];
      GenerationsFit(earlier, r);
    }
  }

  // ----- where a row of the database comes from

  ghost predicate RowIsOf(records: seq<StoredOperation>, d: Derived, row: Row) {
    match row
    case RecordRow(_, _, _) => exists r :: r in records && row in FrameRows(r)
    case RecordCopy(_) => exists r :: r in records && row in FrameRows(r)
    case RequestRow(_) => exists r :: r in records && row in FrameRows(r)
    case RequestCopy(_) => exists r :: r in records && row in FrameRows(r)
    case CreationRow(c, o) => (c, o) in d.tables.creations
    case MaterialRow(k, b) => k in d.bytes && d.bytes[k] == b
    case EstablishmentRow(k, o, f) => (k, o, f) in d.tables.establishments
    case MembershipRow(o, k, i) => (o, k, i) in d.tables.memberships
    case GroundRow(g, v) => (g, v) in d.tables.grounds
    case RecordGroundRow(o, g, v) => (o, g, v) in d.tables.recordGrounds
    case ResultsRow(r) => r in d.tables.results
    case GrantEventRow(e) => e in d.tables.grantEvents
  }

  lemma RowsAreOf(records: seq<StoredOperation>, row: Row)
    requires ControlsOf(records).Ok?
    ensures row in DatabaseOf(records) <==> RowIsOf(records, ControlsOf(records).value, row)
  {
    hide ControlsOf, FrameRows;
    var d := ControlsOf(records).value;
    if row.MaterialRow? && RowIsOf(records, d, row) {
      assert (row.key, row.bytes) in Materials(d);
    }
    FrameTables(records, row);
  }

  lemma FrameTables(records: seq<StoredOperation>, row: Row)
    ensures row in AllFrameRows(records) ==> Table(row) <= 3
    ensures row in AllFrameRows(records) <==> exists r :: r in records && row in FrameRows(r)
  {
  }

  /** The record a row belongs to. */
  function Owner(row: Row): Option<OperationId> {
    match row
    case RecordRow(o, _, _) => Some(o)
    case RecordCopy(o) => Some(o)
    case RequestRow(o) => Some(o)
    case RequestCopy(o) => Some(o)
    case CreationRow(_, o) => Some(o)
    case MaterialRow(_, _) => None
    case EstablishmentRow(_, o, _) => Some(o)
    case MembershipRow(o, _, _) => Some(o)
    case GroundRow(_, _) => None
    case RecordGroundRow(o, _, _) => Some(o)
    case ResultsRow(r) => Some(r.operation)
    case GrantEventRow(e) => Some(e.operation)
  }

  lemma OwnerIsRecorded(records: seq<StoredOperation>, d: Derived, row: Row)
    requires RowIsOf(records, d, row) && FromRecords(d.tables, records) && Owner(row).Some?
    ensures exists r :: r in records && r.operation.id == Owner(row).value
  {
    hide Complete, WrittenGrant;
  }

  // ----- every constraint holds

  lemma NoTwoClash(records: seq<StoredOperation>, d: Derived, a: Row, b: Row)
    requires RowIsOf(records, d, a) && RowIsOf(records, d, b) && a != b
    requires KeysHold(d.tables, Materials(d)) && AllApart(records) && Numbered(records)
    ensures !Clash(a, b)
  {
    hide Complete, WrittenGrant, Materials, MaterialKey;
    if Table(a) <= 3 && Table(b) <= 3 {
      FramesApart(records, d, a, b);
    }
  }

  ghost predicate Numbered(records: seq<StoredOperation>) {
    forall i :: 0 <= i < |records| ==> records[i].sequence == i + 1
  }

  lemma FramesApart(records: seq<StoredOperation>, d: Derived, a: Row, b: Row)
    requires RowIsOf(records, d, a) && RowIsOf(records, d, b) && a != b && Table(a) <= 3 && Table(b) <= 3
    requires AllApart(records) && Numbered(records)
    ensures !Clash(a, b)
  {
    hide AllApart, Numbered, FrameRows, Clash;
    var r :| r in records && a in FrameRows(r);
    var q :| q in records && b in FrameRows(q);
    if r != q {
      NumbersDiffer(records, r, q);
    }
    FramesOfApart(r, q, a, b);
  }

  lemma FramesOfApart(r: StoredOperation, q: StoredOperation, a: Row, b: Row)
    requires a in FrameRows(r) && b in FrameRows(q) && a != b
    requires r == q || (r.operation.id != q.operation.id && r.sequence != q.sequence)
    ensures !Clash(a, b)
  {
  }

  lemma NumbersDiffer(records: seq<StoredOperation>, r: StoredOperation, q: StoredOperation)
    requires AllApart(records) && Numbered(records) && r in records && q in records && r != q
    ensures r.operation.id != q.operation.id && r.sequence != q.sequence
  {
    hide WrittenGrant;
    assert Apart(r, q);
    var i :| 0 <= i < |records| && records[i] == r;
    var j :| 0 <= j < |records| && records[j] == q;
  }

  lemma ReferencesResolve(records: seq<StoredOperation>, d: Derived, row: Row, ref: Reference)
    requires ControlsOf(records) == Ok(d) && RowIsOf(records, d, row) && FromRecords(d.tables, records) && Grounded(d)
    requires ref in References(row) && (row.RecordRow? ==> PredecessorIn(records, row))
    ensures Resolved(DatabaseOf(records), ref)
  {
    hide ControlsOf, FromRecords, DatabaseOf, Complete;
    match ref
    case ToRecord(o) =>
      if !row.RecordRow? {
        OwnerIsRecorded(records, d, row);
      }
      var r :| r in records && r.operation.id == o;
      RecordRowIn(records, r);
    case ToMaterial(k) =>
      RowsAreOf(records, MaterialRow(k, d.bytes[k]));
      assert Satisfies(MaterialRow(k, d.bytes[k]), ref);
    case ToGround(g, v) =>
      RowsAreOf(records, GroundRow(g, v));
      assert Satisfies(GroundRow(g, v), ref);
  }

  lemma RecordRowIn(records: seq<StoredOperation>, r: StoredOperation)
    requires ControlsOf(records).Ok? && r in records
    ensures Resolved(DatabaseOf(records), ToRecord(r.operation.id))
  {
    hide ControlsOf, DatabaseOf;
    var row := RecordRow(r.operation.id, r.sequence, r.checks.expectedOperation);
    assert row in FrameRows(r);
    RowsAreOf(records, row);
    assert Satisfies(row, ToRecord(r.operation.id));
  }

  ghost predicate PredecessorIn(records: seq<StoredOperation>, row: Row)
    requires row.RecordRow?
  {
    row.predecessor.Some? ==> exists r :: r in records && r.operation.id == row.predecessor.value
  }

  /** The record row of position `i`, with what it names. */
  lemma RecordRowAt(head: HistoryHead, records: seq<StoredOperation>, row: Row) returns (i: nat)
    requires ReplayPrefix(head, records).Ok? && |records| <= I64_MAX && row.RecordRow? && exists r :: r in records && row in FrameRows(r)
    ensures i < |records| && row == RecordRow(records[i].operation.id, i + 1, if i == 0 then None else Some(records[i - 1].operation.id))
    ensures Checked(row) && PredecessorIn(records, row)
  {
    hide ReplayPrefix;
    var r :| r in records && row in FrameRows(r);
    i :| 0 <= i < |records| && records[i] == r;
    RecordsAreChained(head, records, i);
    assert i > 0 ==> records[i - 1] in records;
  }

  lemma EventChecked(head: HistoryHead, records: seq<StoredOperation>, event: GrantEvent)
    requires ReplayPrefix(head, records).Ok? && ControlsOf(records).Ok? && event in ControlsOf(records).value.tables.grantEvents
    ensures Checked(GrantEventRow(event))
  {
    hide ReplayPrefix, ControlsOf;
    RowsComeFromRecords(records);
    hide FromRecords;
    EventOfRecord(records, ControlsOf(records).value.tables, event);
    var r :| r in records && event in GrantEventRows(r);
    var i :| 0 <= i < |records| && records[i] == r;
    WrittenIsPositive(head, records, i);
    GenerationsFit(records, r);
  }

  lemma EventOfRecord(records: seq<StoredOperation>, t: Tables, event: GrantEvent)
    requires FromRecords(t, records) && event in t.grantEvents
    ensures exists r :: r in records && event in GrantEventRows(r)
  {
    hide Complete, CreationRows, GrantEventRows;
  }

  lemma AllNumbered(head: HistoryHead, records: seq<StoredOperation>)
    requires ReplayPrefix(head, records).Ok?
    ensures Numbered(records) && AllApart(records)
  {
    hide ReplayPrefix, Apart;
    forall i | 0 <= i < |records| ensures records[i].sequence == i + 1 {
      RecordsAreChained(head, records, i);
    }
    forall a, b | a in records && b in records && a != b ensures Apart(a, b) {
      RecordsApart(head, records, a, b);
    }
  }

  /** Every key, reference and check that the schema declares holds of the database of an accepted history. */
  lemma ConstraintsAlwaysHold(head: HistoryHead, records: seq<StoredOperation>)
    requires Reconstruction(head, records).Ok? && ControlsOf(records).Ok? && AllEncodable(records)
    ensures ConstraintsHold(DatabaseOf(records))
  {
    hide ReplayPrefix, ControlsOf, DatabaseOf, KeysHold, FromRecords, Grounded, Numbered, AllApart, Clash, References;
    DeclaredKeysHold(head, records);
    AllNumbered(head, records);
    RowsComeFromRecords(records);
    ControlsGrounded(records);
    forall row | row in DatabaseOf(records) ensures RowHolds(DatabaseOf(records), row) {
      RowAlwaysHolds(head, records, row);
    }
  }

  lemma RowAlwaysHolds(head: HistoryHead, records: seq<StoredOperation>, row: Row)
    requires ReplayPrefix(head, records).Ok? && ControlsOf(records).Ok? && AllEncodable(records) && row in DatabaseOf(records)
    requires KeysHold(ControlsOf(records).value.tables, Materials(ControlsOf(records).value)) && AllApart(records) && Numbered(records)
    requires FromRecords(ControlsOf(records).value.tables, records) && Grounded(ControlsOf(records).value)
    ensures RowHolds(DatabaseOf(records), row)
  {
    hide ReplayPrefix, ControlsOf, DatabaseOf, KeysHold, FromRecords, Numbered, AllApart, Clash, References, FrameRows;
    var d := ControlsOf(records).value;
    RowsAreOf(records, row);
    if row.RecordRow? {
      var _ := RecordRowAt(head, records, row);
    }
    if row.GrantEventRow? {
      EventChecked(head, records, row.event);
    }
    forall other | other in DatabaseOf(records) && other != row ensures !Clash(other, row) {
      RowsAreOf(records, other);
      NoTwoClash(records, d, other, row);
    }
    forall ref | ref in References(row) ensures Resolved(DatabaseOf(records), ref) {
      ReferencesResolve(records, d, row, ref);
    }
  }

  // ----- one more record, row by row

  function Those(rows: seq<Row>): set<Row> {
    set row | row in rows
  }

  /** The added rows, each once, table after table; within a table in any order. */
  ghost predicate AppendOrder(rows: seq<Row>, added: set<Row>) {
    && (forall i, j :: 0 <= i < j < |rows| ==> rows[i] != rows[j] && Table(rows[i]) <= Table(rows[j]))
    && (forall row :: row in rows <==> row in added)
  }

  lemma DatabaseGrows(prefix: seq<StoredOperation>, r: StoredOperation)
    requires ControlsOf(prefix + [r]).Ok?
    ensures ControlsOf(prefix).Ok? && DatabaseOf(prefix) <= DatabaseOf(prefix + [r])
  {
    hide RowsOf, GrantEventRows, RetainedBy, CreatedBy, DatabaseOf, FrameRows;
    assert (prefix + [r])[..|prefix|] == prefix;
    var before, after := ControlsOf(prefix).value, ControlsOf(prefix + [r]).value;
    assert Joined(before, r) == Ok(after);
    forall row | row in DatabaseOf(prefix) ensures row in DatabaseOf(prefix + [r]) {
      RowsAreOf(prefix, row);
      RowGrows(prefix, r, before, after, row);
      RowsAreOf(prefix + [r], row);
    }
  }

  lemma RowGrows(prefix: seq<StoredOperation>, r: StoredOperation, before: Derived, after: Derived, row: Row)
    requires RowIsOf(prefix, before, row) && Joined(before, r) == Ok(after)
    ensures RowIsOf(prefix + [r], after, row)
  {
    hide RowsOf, FrameRows, RetainedBy, WrittenGrant;
    assert forall q :: q in prefix ==> q in prefix + [r];
  }

  /** What a row refers to is in an earlier table, but for the record before. */
  lemma ReferencesAreEarlier(row: Row, ref: Reference, other: Row)
    requires ref in References(row) && Satisfies(other, ref)
    ensures row.RecordRow? || Table(other) < Table(row)
  {
  }

  /** The record before a new one was there before. */
  lemma PredecessorWasThere(head: HistoryHead, prefix: seq<StoredOperation>, r: StoredOperation, row: Row, ref: Reference)
    requires ReplayPrefix(head, prefix + [r]).Ok? && ControlsOf(prefix + [r]).Ok? && ControlsOf(prefix).Ok? && |prefix| < I64_MAX
    requires row.RecordRow? && row in DatabaseOf(prefix + [r]) && row !in DatabaseOf(prefix) && ref in References(row)
    ensures Resolved(DatabaseOf(prefix), ref)
  {
    hide ReplayPrefix, ControlsOf, DatabaseOf, FrameRows;
    var records := prefix + [r];
    RowsAreOf(records, row);
    var i := RecordRowAt(head, records, row);
    if i < |prefix| {
      RecordRowOfPrefix(head, prefix, r, i);
    }
    assert records[|prefix| - 1] == prefix[|prefix| - 1] && prefix[|prefix| - 1] in prefix;
    RecordRowIn(prefix, prefix[|prefix| - 1]);
  }

  lemma RecordRowOfPrefix(head: HistoryHead, prefix: seq<StoredOperation>, r: StoredOperation, i: nat)
    requires ReplayPrefix(head, prefix + [r]).Ok? && ControlsOf(prefix).Ok? && i < |prefix|
    ensures RecordRow(prefix[i].operation.id, i + 1, if i == 0 then None else Some(prefix[i - 1].operation.id)) in DatabaseOf(prefix)
  {
    hide ReplayPrefix, ControlsOf, DatabaseOf;
    RecordsAreChained(head, prefix + [r], i);
    var row := RecordRow(prefix[i].operation.id, prefix[i].sequence, prefix[i].checks.expectedOperation);
    assert row in FrameRows(prefix[i]) && prefix[i] in prefix;
    RowsAreOf(prefix, row);
  }

  lemma RowMayBePut(head: HistoryHead, prefix: seq<StoredOperation>, r: StoredOperation, rows: seq<Row>, n: nat)
    requires ReplayPrefix(head, prefix + [r]).Ok? && ControlsOf(prefix + [r]).Ok? && ControlsOf(prefix).Ok? && |prefix| < I64_MAX
    requires ConstraintsHold(DatabaseOf(prefix + [r])) && DatabaseOf(prefix) <= DatabaseOf(prefix + [r])
    requires AppendOrder(rows, DatabaseOf(prefix + [r]) - DatabaseOf(prefix)) && n < |rows|
    ensures MayPut(DatabaseOf(prefix) + Those(rows[..n]), rows[n])
  {
    hide ReplayPrefix, ControlsOf, DatabaseOf, Clash, References, Satisfies, Checked;
    var before, after, row := DatabaseOf(prefix), DatabaseOf(prefix + [r]), rows[n];
    var db := before + Those(rows[..n]);
    assert row in rows && row in after && row !in before;
    assert RowHolds(after, row);
    forall other | other in db ensures !Clash(other, row) {
      assert other in rows[..n] ==> other in rows && other != row;
    }
    forall ref | ref in References(row) ensures Resolved(db + {row}, ref) {
      if row.RecordRow? {
        PredecessorWasThere(head, prefix, r, row, ref);
        var x :| x in before && Satisfies(x, ref);
        assert x in db + {row};
      } else {
        var x :| x in after && Satisfies(x, ref);
        ReferencesAreEarlier(row, ref, x);
        if x !in before {
          assert x in rows;
          var m :| 0 <= m < |rows| && rows[m] == x;
          assert m < n && rows[..n][m] == x;
        }
        assert x in db + {row};
      }
    }
  }

  /** Putting the added rows in the order of their tables is never refused, and gives the database of the longer history. */
  lemma InsertionsSucceed(head: HistoryHead, prefix: seq<StoredOperation>, r: StoredOperation, rows: seq<Row>)
    requires Reconstruction(head, prefix + [r]).Ok? && ControlsOf(prefix + [r]).Ok? && AllEncodable(prefix + [r])
    requires ControlsOf(prefix).Ok? && AppendOrder(rows, DatabaseOf(prefix + [r]) - DatabaseOf(prefix))
    ensures PutAllRows(DatabaseOf(prefix), rows) == Some(DatabaseOf(prefix + [r]))
  {
    hide ReplayPrefix, ControlsOf, DatabaseOf, ConstraintsHold, MayPut;
    ConstraintsAlwaysHold(head, prefix + [r]);
    DatabaseGrows(prefix, r);
    RowsGoIn(head, prefix, r, rows, |rows|);
    assert rows[..|rows|] == rows;
    assert DatabaseOf(prefix) + Those(rows) == DatabaseOf(prefix + [r]);
  }

  lemma {:induction false} RowsGoIn(head: HistoryHead, prefix: seq<StoredOperation>, r: StoredOperation, rows: seq<Row>, n: nat)
    requires ReplayPrefix(head, prefix + [r]).Ok? && ControlsOf(prefix + [r]).Ok? && ControlsOf(prefix).Ok? && |prefix| < I64_MAX
    requires ConstraintsHold(DatabaseOf(prefix + [r])) && DatabaseOf(prefix) <= DatabaseOf(prefix + [r])
    requires AppendOrder(rows, DatabaseOf(prefix + [r]) - DatabaseOf(prefix)) && n <= |rows|
    ensures PutAllRows(DatabaseOf(prefix), rows[..n]) == Some(DatabaseOf(prefix) + Those(rows[..n]))
  {
    hide ReplayPrefix, ControlsOf, DatabaseOf, ConstraintsHold, MayPut, AppendOrder;
    if n == 0 {
      assert DatabaseOf(prefix) + Those(rows[..0]) == DatabaseOf(prefix);
    } else {
      RowsGoIn(head, prefix, r, rows, n - 1);
      RowMayBePut(head, prefix, r, rows, n - 1);
      ThoseFurther(rows, n);
      var before := DatabaseOf(prefix);
      assert before + Those(rows[..n]) == before + Those(rows[..n - 1]) + {rows[n - 1]};
      LastIsPut(before, rows[..n]);
    }
  }

  lemma LastIsPut(db: set<Row>, rows: seq<Row>)
    requires rows != []
    ensures var before, row := PutAllRows(db, rows[..|rows| - 1]), rows[|rows| - 1];
            PutAllRows(db, rows) == if before.None? || !MayPut(before.value, row) then None else Some(before.value + {row})
  {
    hide MayPut;
  }

  lemma ThoseFurther(rows: seq<Row>, n: nat)
    requires 0 < n <= |rows|
    ensures rows[..n] != [] && rows[..n][..|rows[..n]| - 1] == rows[..n - 1] && rows[..n][|rows[..n]| - 1] == rows[n - 1]
    ensures Those(rows[..n]) == Those(rows[..n - 1]) + {rows[n - 1]}
  {
    assert rows[..n] == rows[..n - 1] + [rows[n - 1]];
  }
}

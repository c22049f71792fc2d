/** The normalized control tables beside the stored frames: derivation, insertion and declared keys. */
module Controls {
  import opened Base
  import opened Model
  import opened Rules
  import opened Records
  import opened Change
  import opened Replay
  import Histories
  import opened Catalogue
  import opened Identities

  const I64_MAX: nat := 0x7FFF_FFFF_FFFF_FFFF

  datatype StoreError = Corrupt | Limit

  type Stored<+T> = Result<T, StoreError>

  datatype ResultRow = ResultRow(
    operation: OperationId,
    actor: ActorId,
    owner: OwnerId,
    effect: Effect,
    context: ContextVersion,
    usedGrant: Option<GrantUse>)

  datatype GrantEvent = GrantEvent(operation: OperationId, written: GrantUse, revoked: bool)

  /** The rows of every control table but the contents themselves. */
  datatype Tables = Tables(
    creations: set<(CreatedIdentity, OperationId)>,
    memberships: set<(OperationId, ContentKey, IntakeCase)>,
    establishments: set<(ContentKey, OperationId, bool)>,
    grounds: set<(GroundId, GroundVersion)>,
    recordGrounds: set<(OperationId, GroundId, GroundVersion)>,
    results: set<ResultRow>,
    grantEvents: set<GrantEvent>)

  const NO_ROWS := Tables({}, {}, {}, {}, {}, {}, {})

  datatype Retained = Retained(bytes: Bytes, establishment: ContentEstablishment, created: Option<RecordedContent>)

  type Catalog = map<ContentKey, Retained>

  /** Tables, catalogue and content bytes accumulated over records. */
  datatype Derived = Derived(tables: Tables, catalog: Catalog, bytes: map<ContentKey, Bytes>)

  const NOTHING := Derived(NO_ROWS, map[], map[])

  // ----- one record's rows

  function CreationRows(r: StoredOperation): set<(CreatedIdentity, OperationId)> {
    set c | c in r.creations :: (c, r.operation.id)
  }

  function MembershipRows(r: StoredOperation): set<(OperationId, ContentKey, IntakeCase)>
    requires r.checks.contentItems.Keys <= r.checks.intakes.Keys
  {
    set k | k in r.checks.contentItems :: (r.operation.id, k, r.checks.intakes[k].intakeCase)
  }

  function EstablishmentRows(r: StoredOperation): set<(ContentKey, OperationId, bool)>
    requires r.establishments <= r.checks.intakes.Keys
  {
    set k | k in r.establishments :: (k, r.operation.id, r.checks.intakes[k].intakeCase == Fresh)
  }

  function GroundRows(r: StoredOperation): set<(GroundId, GroundVersion)> {
    set g | g in r.checks.grounds :: (g, r.checks.grounds[g])
  }

  function RecordGroundRows(r: StoredOperation): set<(OperationId, GroundId, GroundVersion)> {
    set g | g in r.checks.grounds :: (r.operation.id, g, r.checks.grounds[g])
  }

  function ResultOf(r: StoredOperation): ResultRow {
    ResultRow(r.operation.id, r.accepted.actor, r.accepted.representedOwner, r.accepted.effect, r.checks.context.version, r.usedGrant)
  }

  function GrantEventRows(r: StoredOperation): set<GrantEvent> {
    match WrittenGrant(r)
    case None => {}
    case Some(written) => {GrantEvent(r.operation.id, written, r.accepted.effect.Revoked?)}
  }

  /** Every content a record binds or establishes carries its intake and its bytes. */
  predicate Complete(r: StoredOperation) {
    && r.checks.contentItems.Keys <= r.checks.intakes.Keys
    && r.establishments <= r.checks.intakes.Keys
    && r.establishments <= r.checks.contentItems.Keys
  }

  function RowsOf(r: StoredOperation): Tables
    requires Complete(r)
  {
    Tables(CreationRows(r), MembershipRows(r), EstablishmentRows(r), GroundRows(r), RecordGroundRows(r), {ResultOf(r)}, GrantEventRows(r))
  }

  function Union(a: Tables, b: Tables): Tables {
    Tables(a.creations + b.creations, a.memberships + b.memberships, a.establishments + b.establishments, a.grounds + b.grounds,
           a.recordGrounds + b.recordGrounds, a.results + b.results, a.grantEvents + b.grantEvents)
  }

  predicate Within(a: Tables, b: Tables) {
    && a.creations <= b.creations && a.memberships <= b.memberships && a.establishments <= b.establishments && a.grounds <= b.grounds
    && a.recordGrounds <= b.recordGrounds && a.results <= b.results && a.grantEvents <= b.grantEvents
  }

  function Minus(a: Tables, b: Tables): Tables {
    Tables(a.creations - b.creations, a.memberships - b.memberships, a.establishments - b.establishments, a.grounds - b.grounds,
           a.recordGrounds - b.recordGrounds, a.results - b.results, a.grantEvents - b.grantEvents)
  }

  /** No row may be put twice; only shared grounds repeat. */
  predicate Insertable(a: Tables, b: Tables) {
    && a.creations !! b.creations && a.memberships !! b.memberships && a.establishments !! b.establishments
    && a.recordGrounds !! b.recordGrounds && a.results !! b.results
  }

  predicate SameWhereBoth(a: map<ContentKey, Bytes>, b: map<ContentKey, Bytes>) {
    forall k :: k in a && k in b ==> a[k] == b[k]
  }

  function RetainedBy(r: StoredOperation): Catalog
    requires Complete(r)
  {
    map k | k in r.establishments ::
      Retained(r.checks.contentItems[k], EstablishmentBy(r, k), if k in CreatedBy(r) then Some(CreatedBy(r)[k]) else None)
  }

  /** One record joins the controls, unless it contradicts them or its generation does not fit its column. */
  function Joined(d: Derived, r: StoredOperation): Stored<Derived> {
    if !Complete(r) || !Insertable(d.tables, RowsOf(r)) || !SameWhereBoth(d.bytes, r.checks.contentItems) || !(d.catalog.Keys !! r.establishments)
    then Err(Corrupt)
    else if WrittenGrant(r).Some? && WrittenGrant(r).value.generation > I64_MAX then Err(Limit)
    else if !(d.tables.grantEvents !! GrantEventRows(r)) then Err(Corrupt)
    else Ok(Derived(Union(d.tables, RowsOf(r)), d.catalog + RetainedBy(r), d.bytes + r.checks.contentItems))
  }

  function ControlsOf(records: seq<StoredOperation>): Stored<Derived> {
    if records == [] then Ok(NOTHING)
    else
      var earlier :- ControlsOf(records[..|records| - 1]);
      Joined(earlier, records[|records| - 1])
  }

  /** The contents table: one row for every content bound by any record. */
  function Materials(d: Derived): set<(ContentKey, Bytes)> {
    set k | k in d.bytes :: (k, d.bytes[k])
  }

  // ----- agreement with the reconstructed kernel

  predicate FitsColumn(r: StoredOperation) {
    WrittenGrant(r).Some? ==> WrittenGrant(r).value.generation <= I64_MAX
  }

  function RetainedIn(s: State, key: ContentKey): Retained
    requires key in s.established && key in s.contentItems
  {
    Retained(s.contentItems[key], s.established[key], if key in s.created then Some(s.created[key]) else None)
  }

  ghost predicate CatalogAgrees(s: State, catalog: Catalog) {
    && catalog.Keys == s.established.Keys == s.contentItems.Keys
    && forall k :: k in catalog ==> catalog[k] == RetainedIn(s, k)
  }

  /** Every row names an operation that is recorded. */
  ghost predicate RowsNameRecords(t: Tables, ids: set<OperationId>) {
    && (forall x :: x in t.creations ==> x.1 in ids)
    && (forall x :: x in t.memberships ==> x.0 in ids)
    && (forall x :: x in t.establishments ==> x.1 in ids)
    && (forall x :: x in t.recordGrounds ==> x.0 in ids)
    && (forall x :: x in t.results ==> x.operation in ids)
    && (forall x :: x in t.grantEvents ==> x.operation in ids)
  }

  /** The controls of an accepted prefix say what its reconstructed ledger says. */
  ghost predicate Agrees(l: Ledger, d: Derived) {
    && Catalogued(l)
    && d.bytes == l.state.contentItems
    && CatalogAgrees(l.state, d.catalog)
    && RowsNameRecords(d.tables, l.records.Keys)
  }

  lemma NewRowsAreNew(t: Tables, ids: set<OperationId>, r: StoredOperation)
    requires RowsNameRecords(t, ids) && r.operation.id !in ids && Complete(r)
    ensures Insertable(t, RowsOf(r)) && t.grantEvents !! GrantEventRows(r)
    ensures RowsNameRecords(Union(t, RowsOf(r)), ids + {r.operation.id})
  {
  }

  lemma CreatedAreEstablished(s: State, r: StoredOperation)
    requires Binds(s, r)
    ensures CreatedBy(r).Keys <= r.establishments
  {
    hide CreatedAs;
  }

  lemma CatalogExtended(s: State, next: State, r: StoredOperation, catalog: Catalog)
    requires Binds(s, r) && CatalogAgrees(s, catalog) && CreationsKept(s.created, s.established)
    requires next.established == s.established + Established(r)
    requires next.contentItems == s.contentItems + r.checks.contentItems
    requires next.created == s.created + CreatedBy(r)
    ensures CatalogAgrees(next, catalog + RetainedBy(r))
  {
    hide CreatedFrom, CreatedAs, CreatedBy;
    BindsTogether(s, r);
    CreatedAreEstablished(s, r);
    assert s.created.Keys <= s.established.Keys;
    var joined := catalog + RetainedBy(r);
    forall k | k in joined ensures joined[k] == RetainedIn(next, k) {
      assert k !in r.establishments ==> catalog[k] == RetainedIn(s, k);
    }
  }

  lemma Joinable(l: Ledger, r: StoredOperation, d: Derived)
    requires Binds(l.state, r) && Agrees(l, d) && r.operation.id !in l.records
    ensures Complete(r) && Insertable(d.tables, RowsOf(r)) && d.tables.grantEvents !! GrantEventRows(r)
    ensures RowsNameRecords(Union(d.tables, RowsOf(r)), l.records.Keys + {r.operation.id})
    ensures SameWhereBoth(d.bytes, r.checks.contentItems) && d.catalog.Keys !! r.establishments
  {
    hide RowsOf, Insertable, RowsNameRecords, CreatedFrom, EstablishmentsKept, BytesKept, CreationsKept, HistoryKept;
    NewRowsAreNew(d.tables, l.records.Keys, r);
  }

  lemma AgreementExtended(l: Ledger, s: State, r: StoredOperation, d: Derived)
    requires Binds(l.state, r) && Agrees(l, d) && r.operation.id !in l.records
    requires Histories.SameCatalogue(l.state, s)
    ensures Complete(r)
    ensures Agrees(Ledger(Retain(s, r), l.records[r.operation.id := r]),
                   Derived(Union(d.tables, RowsOf(r)), d.catalog + RetainedBy(r), d.bytes + r.checks.contentItems))
  {
    hide RowsOf, Insertable, RowsNameRecords, Union, CatalogAgrees, CreatedFrom, Catalogued, Established, RetainedBy, CreatedBy;
    Joinable(l, r, d);
    RetentionKeeps(l, s, r);
    assert l.records[r.operation.id := r].Keys == l.records.Keys + {r.operation.id};
    CataloguedCreations(l);
    CatalogExtended(l.state, Retain(s, r), r, d.catalog);
  }

  lemma CataloguedCreations(l: Ledger)
    requires Catalogued(l)
    ensures CreationsKept(l.state.created, l.state.established)
  {
  }

  /** A record that reconstruction accepts joins the controls exactly when its grant generation fits the column. */
  lemma JoinedAgrees(l: Ledger, head: HistoryHead, r: StoredOperation, d: Derived)
    requires ReplayRecord(l, head, r).Ok? && Agrees(l, d)
    ensures Joined(d, r).Ok? <==> FitsColumn(r)
    ensures Joined(d, r).Err? ==> Joined(d, r).error == Limit
    ensures Joined(d, r).Ok? ==> Agrees(ReplayRecord(l, head, r).value, Joined(d, r).value)
  {
    hide ReplayRecord, ValidateCurrent, Transition, CreationClaims, RowsOf, Insertable, Agrees, Binds, Retain, WrittenGrant, GrantEventRows;
    var s := Histories.RecordParts(l, head, r);
    RecordBinds(l, r);
    Joinable(l, r, d);
    AgreementExtended(l, s, r, d);
  }

  predicate AllFit(records: seq<StoredOperation>) {
    forall r :: r in records ==> FitsColumn(r)
  }

  /** For an accepted prefix the controls exist exactly when every generation fits, and then agree with the kernel. */
  lemma {:induction false} ControlsAgree(head: HistoryHead, records: seq<StoredOperation>)
    requires ReplayPrefix(head, records).Ok?
    ensures ControlsOf(records).Ok? <==> AllFit(records)
    ensures ControlsOf(records).Err? ==> ControlsOf(records).error == Limit
    ensures ControlsOf(records).Ok? ==> Agrees(ReplayPrefix(head, records).value, ControlsOf(records).value)
  {
    hide ReplayRecord, Joined, Agrees, FitsColumn;
    if records == [] {
      NothingAgrees(head);
    } else {
      var earlier, last := records[..|records| - 1], records[|records| - 1];
      assert records == earlier + [last];
      ControlsAgree(head, earlier);
      if ControlsOf(earlier).Ok? {
        JoinedAgrees(ReplayPrefix(head, earlier).value, head, last, ControlsOf(earlier).value);
      }
    }
  }

  lemma NothingAgrees(head: HistoryHead)
    requires ReplayPrefix(head, []).Ok?
    ensures Agrees(ReplayPrefix(head, []).value, NOTHING)
  {
    hide ReplayRecord;
  }

  // ----- preparing and appending one record

  /** The rows that the next record adds. */
  function Prepared(prefix: seq<StoredOperation>, r: StoredOperation): Stored<(Tables, set<(ContentKey, Bytes)>)> {
    var before :- ControlsOf(prefix);
    var after :- ControlsOf(prefix + [r]);
    Ok((Minus(after.tables, before.tables), Materials(after) - Materials(before)))
  }

  /** Inserting only the prepared rows, and deleting nothing, gives exactly the controls of the longer history. */
  lemma PreparedCompletes(prefix: seq<StoredOperation>, r: StoredOperation)
    requires Prepared(prefix, r).Ok?
    ensures ControlsOf(prefix).Ok? && ControlsOf(prefix + [r]).Ok?
    ensures var added, before, after := Prepared(prefix, r).value, ControlsOf(prefix).value, ControlsOf(prefix + [r]).value;
            && Union(before.tables, added.0) == after.tables
            && Materials(before) + added.1 == Materials(after)
  {
    hide RowsOf, GrantEventRows, RetainedBy, CreatedBy;
    var before, after := ControlsOf(prefix).value, ControlsOf(prefix + [r]).value;
    assert (prefix + [r])[..|prefix|] == prefix;
    assert Joined(before, r) == Ok(after);
    assert Within(before.tables, after.tables);
    forall k | k in before.bytes ensures k in after.bytes && after.bytes[k] == before.bytes[k] {
    }
    assert Materials(before) <= Materials(after);
  }

  // ----- declared keys

  ghost predicate CreationKey(rows: set<(CreatedIdentity, OperationId)>) {
    forall a, b :: a in rows && b in rows && a.0 == b.0 ==> a == b
  }

  ghost predicate MembershipKey(rows: set<(OperationId, ContentKey, IntakeCase)>) {
    forall a, b :: a in rows && b in rows && a.0 == b.0 && a.1 == b.1 ==> a == b
  }

  ghost predicate EstablishmentKey(rows: set<(ContentKey, OperationId, bool)>) {
    forall a, b :: a in rows && b in rows && a.0 == b.0 ==> a == b
  }

  ghost predicate RecordGroundKey(rows: set<(OperationId, GroundId, GroundVersion)>) {
    forall a, b :: a in rows && b in rows && a.0 == b.0 && a.1 == b.1 ==> a == b
  }

  ghost predicate ResultKey(rows: set<ResultRow>) {
    forall a, b :: a in rows && b in rows && a.operation == b.operation ==> a == b
  }

  ghost predicate GrantEventKeys(rows: set<GrantEvent>) {
    forall a, b :: a in rows && b in rows && (a.operation == b.operation || a.written == b.written) ==> a == b
  }

  ghost predicate MaterialKey(rows: set<(ContentKey, Bytes)>) {
    forall a, b :: a in rows && b in rows && a.0 == b.0 ==> a == b
  }

  /** The primary and unique keys that the schema declares. */
  ghost predicate KeysHold(t: Tables, materials: set<(ContentKey, Bytes)>) {
    && CreationKey(t.creations)
    && MembershipKey(t.memberships)
    && EstablishmentKey(t.establishments)
    && RecordGroundKey(t.recordGrounds)
    && ResultKey(t.results)
    && GrantEventKeys(t.grantEvents)
    && MaterialKey(materials)
  }

  /** Every row was put by some record. */
  ghost predicate FromRecords(t: Tables, records: seq<StoredOperation>) {
    && (forall x :: x in t.creations ==> exists r :: r in records && x in CreationRows(r))
    && (forall x :: x in t.memberships ==> exists r :: r in records && Complete(r) && x in MembershipRows(r))
    && (forall x :: x in t.establishments ==> exists r :: r in records && Complete(r) && x in EstablishmentRows(r))
    && (forall x :: x in t.recordGrounds ==> exists r :: r in records && x in RecordGroundRows(r))
    && (forall x :: x in t.results ==> exists r :: r in records && x == ResultOf(r))
    && (forall x :: x in t.grantEvents ==> exists r :: r in records && x in GrantEventRows(r))
  }

  lemma RowsJoin(t: Tables, earlier: seq<StoredOperation>, r: StoredOperation)
    requires FromRecords(t, earlier) && Complete(r)
    ensures FromRecords(Union(t, RowsOf(r)), earlier + [r])
  {
    hide CreationRows, MembershipRows, EstablishmentRows, RecordGroundRows, ResultOf, GrantEventRows, Complete;
    assert r in earlier + [r];
    assert forall q :: q in earlier ==> q in earlier + [r];
  }

  lemma {:induction false} RowsComeFromRecords(records: seq<StoredOperation>)
    requires ControlsOf(records).Ok?
    ensures FromRecords(ControlsOf(records).value.tables, records)
  {
    hide RowsOf, FromRecords, Complete, Insertable, Union;
    if records == [] {
      NoRows();
    } else {
      var earlier, last := records[..|records| - 1], records[|records| - 1];
      RowsComeFromRecords(earlier);
      RowsJoin(ControlsOf(earlier).value.tables, earlier, last);
      assert records == earlier + [last];
    }
  }

  lemma NoRows()
    ensures FromRecords(NO_ROWS, [])
  {
  }

  /** What two records of an accepted history cannot share. */
  ghost predicate Apart(a: StoredOperation, b: StoredOperation) {
    && a.operation.id != b.operation.id
    && a.creations !! b.creations
    && a.establishments !! b.establishments
    && (WrittenGrant(a).Some? ==> WrittenGrant(a) != WrittenGrant(b))
  }

  lemma RecordsApart(head: HistoryHead, records: seq<StoredOperation>, a: StoredOperation, b: StoredOperation)
    requires ReplayPrefix(head, records).Ok?
    requires a in records && b in records && a != b
    ensures Apart(a, b)
  {
    hide ReplayPrefix, ReplayRecord, WrittenGrant;
    var i :| 0 <= i < |records| && records[i] == a;
    var j :| 0 <= j < |records| && records[j] == b;
    if i < j {
      PositionsApart(head, records, i, j);
    } else {
      PositionsApart(head, records, j, i);
    }
  }

  lemma PositionsApart(head: HistoryHead, records: seq<StoredOperation>, i: nat, j: nat)
    requires ReplayPrefix(head, records).Ok? && i < j < |records|
    ensures Apart(records[i], records[j])
  {
    hide ReplayPrefix, ReplayRecord, WrittenGrant, CreationClaims;
    forall x | x in records[i].creations ensures x !in records[j].creations {
      IdentitiesAreCreatedOnce(head, records, i, j, x);
    }
    ClaimedIds(head, records, i);
    ClaimedIds(head, records, j);
    ContentIsEstablishedOnce(head, records, i, j);
    if WrittenGrant(records[i]).Some? && WrittenGrant(records[i]) == WrittenGrant(records[j]) {
      GenerationsRise(head, records, i, j);
    }
  }

  lemma ClaimedIds(head: HistoryHead, records: seq<StoredOperation>, i: nat)
    requires ReplayPrefix(head, records).Ok? && i < |records|
    ensures OfOperation(records[i].operation.id) in records[i].creations
  {
    hide ReplayPrefix, ReplayRecord, ValidateCurrent, Transition;
    RecordAt(head, records, i);
    var s := Histories.RecordParts(ReplayPrefix(head, records[..i]).value, head, records[i]);
    OperationIsClaimed(ReplayPrefix(head, records[..i]).value.state, records[i].operation);
  }

  ghost predicate AllApart(records: seq<StoredOperation>) {
    forall a, b :: a in records && b in records && a != b ==> Apart(a, b)
  }

  lemma ClaimKeysHold(records: seq<StoredOperation>, t: Tables)
    requires FromRecords(t, records) && AllApart(records)
    ensures CreationKey(t.creations) && EstablishmentKey(t.establishments)
  {
    forall a, b | a in t.creations && b in t.creations && a.0 == b.0 ensures a == b {
      var r :| r in records && a in CreationRows(r);
      var q :| q in records && b in CreationRows(q);
      assert r != q ==> Apart(r, q);
    }
    forall a, b | a in t.establishments && b in t.establishments && a.0 == b.0 ensures a == b {
      var r :| r in records && Complete(r) && a in EstablishmentRows(r);
      var q :| q in records && Complete(q) && b in EstablishmentRows(q);
      assert r != q ==> Apart(r, q);
    }
  }

  lemma UseKeysHold(records: seq<StoredOperation>, t: Tables)
    requires FromRecords(t, records) && AllApart(records)
    ensures MembershipKey(t.memberships) && RecordGroundKey(t.recordGrounds)
  {
    forall a, b | a in t.memberships && b in t.memberships && a.0 == b.0 && a.1 == b.1 ensures a == b {
      var r :| r in records && Complete(r) && a in MembershipRows(r);
      var q :| q in records && Complete(q) && b in MembershipRows(q);
      assert r != q ==> Apart(r, q);
    }
    forall a, b | a in t.recordGrounds && b in t.recordGrounds && a.0 == b.0 && a.1 == b.1 ensures a == b {
      var r :| r in records && a in RecordGroundRows(r);
      var q :| q in records && b in RecordGroundRows(q);
      assert r != q ==> Apart(r, q);
    }
  }

  lemma EffectKeysHold(records: seq<StoredOperation>, t: Tables)
    requires FromRecords(t, records) && AllApart(records)
    ensures ResultKey(t.results) && GrantEventKeys(t.grantEvents)
  {
    forall a, b | a in t.results && b in t.results && a.operation == b.operation ensures a == b {
      var r :| r in records && a == ResultOf(r);
      var q :| q in records && b == ResultOf(q);
      assert r != q ==> Apart(r, q);
    }
    forall a, b | a in t.grantEvents && b in t.grantEvents && (a.operation == b.operation || a.written == b.written) ensures a == b {
      var r :| r in records && a in GrantEventRows(r);
      var q :| q in records && b in GrantEventRows(q);
      assert r != q ==> Apart(r, q);
    }
  }

  /** No declared key is ever violated by the controls of an accepted history. */
  lemma DeclaredKeysHold(head: HistoryHead, records: seq<StoredOperation>)
    requires Reconstruction(head, records).Ok? && ControlsOf(records).Ok?
    ensures KeysHold(ControlsOf(records).value.tables, Materials(ControlsOf(records).value))
  {
    hide ReplayPrefix, ReplayRecord, ControlsOf, FromRecords, Apart;
    RowsComeFromRecords(records);
    forall a, b | a in records && b in records && a != b ensures Apart(a, b) {
      RecordsApart(head, records, a, b);
    }
    var d := ControlsOf(records).value;
    ClaimKeysHold(records, d.tables);
    UseKeysHold(records, d.tables);
    EffectKeysHold(records, d.tables);
  }

  // ----- the loops that fill the tables

  /** Puts rows one at a time; a row already there is a contradiction. */
  method PutAll<T(==)>(table: set<T>, rows: set<T>) returns (filled: Option<set<T>>)
    ensures filled == if table !! rows then Some(table + rows) else None
  {
    var todo := rows;
    var out := table;
    while todo != {}
      invariant todo <= rows && out == table + (rows - todo) && table !! (rows - todo)
      decreases todo
    {
      var row :| row in todo;
      if row in out {
        assert row in table && row in rows;
        return None;
      }
      out := out + {row};
      todo := todo - {row};
    }
    assert rows - todo == rows;
    filled := Some(out);
  }

  /** Remembers each content's bytes and refuses a second, different value. */
  method MergeBytes(bytes: map<ContentKey, Bytes>, items: map<ContentKey, Bytes>) returns (merged: Option<map<ContentKey, Bytes>>)
    ensures merged == if SameWhereBoth(bytes, items) then Some(bytes + items) else None
  {
    var todo := items.Keys;
    var out := bytes;
    while todo != {}
      invariant todo <= items.Keys
      invariant out.Keys == bytes.Keys + (items.Keys - todo)
      invariant forall k :: k in out ==> out[k] == if k in items && k !in todo then items[k] else bytes[k]
      invariant forall k :: k in bytes && k in items && k !in todo ==> bytes[k] == items[k]
      decreases todo
    {
      var k :| k in todo;
      if k in out {
        if out[k] != items[k] {
          return None;
        }
      } else {
        out := out[k := items[k]];
      }
      todo := todo - {k};
    }
    assert out == bytes + items;
    merged := Some(out);
  }

  method JoinRecord(d: Derived, r: StoredOperation) returns (joined: Stored<Derived>)
    ensures joined == Joined(d, r)
  {
    hide CreationRows, MembershipRows, EstablishmentRows, GroundRows, RecordGroundRows, GrantEventRows, ResultOf, WrittenGrant;
    if !Complete(r) {
      return Err(Corrupt);
    }
    var t := d.tables;
    var creations := PutAll(t.creations, CreationRows(r));
    var bytes := MergeBytes(d.bytes, r.checks.contentItems);
    var memberships := PutAll(t.memberships, MembershipRows(r));
    var establishments := PutAll(t.establishments, EstablishmentRows(r));
    var keys := PutAll(d.catalog.Keys, r.establishments);
    var recordGrounds := PutAll(t.recordGrounds, RecordGroundRows(r));
    var results := PutAll(t.results, {ResultOf(r)});
    if creations.None? || bytes.None? || memberships.None? || establishments.None? || keys.None? || recordGrounds.None? || results.None? {
      return Err(Corrupt);
    }
    if WrittenGrant(r).Some? && WrittenGrant(r).value.generation > I64_MAX {
      return Err(Limit);
    }
    var grantEvents := PutAll(t.grantEvents, GrantEventRows(r));
    if grantEvents.None? {
      return Err(Corrupt);
    }
    joined := Ok(Derived(Tables(creations.value, memberships.value, establishments.value, t.grounds + GroundRows(r), recordGrounds.value,
                                results.value, grantEvents.value), d.catalog + RetainedBy(r), bytes.value));
  }

  method Derive(records: seq<StoredOperation>) returns (r: Stored<Derived>)
    ensures r == ControlsOf(records)
  {
    hide Joined;
    var d := NOTHING;
    var i := 0;
    while i < |records|
      invariant 0 <= i <= |records|
      invariant ControlsOf(records[..i]) == Ok(d)
    {
      var next := JoinRecord(d, records[i]);
      assert records[..i + 1][..i] == records[..i];
      if next.Err? {
        RefusedEarlier(records, i + 1);
        return next;
      }
      d := next.value;
      i := i + 1;
    }
    assert records[..i] == records;
    r := Ok(d);
  }

  lemma {:induction false} RefusedEarlier(records: seq<StoredOperation>, n: nat)
    requires n <= |records| && ControlsOf(records[..n]).Err?
    ensures ControlsOf(records) == ControlsOf(records[..n])
  {
    hide Joined;
    if n == |records| {
      assert records[..n] == records;
    } else {
      assert records[..|records| - 1][..n] == records[..n];
      RefusedEarlier(records[..|records| - 1], n);
    }
  }
}

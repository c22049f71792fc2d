/** What retention keeps beside the kernel: contents, establishments and origins over whole histories. */
module Catalogue {
  import opened Base
  import opened Model
  import opened Rules
  import opened Records
  import opened Change
  import opened Replay
  import Histories

  /** The derived fields of a record follow from its operation and checks and the ledger before it. */
  lemma RecordIsDetermined(l: Ledger, head: HistoryHead, a: StoredOperation, b: StoredOperation)
    requires ReplayRecord(l, head, a).Ok? && ReplayRecord(l, head, b).Ok?
    requires a.operation == b.operation && a.checks == b.checks
    ensures a == b
  {
    hide Candidate, CreationClaims, EstablishmentClaims, RetainedBindings, UsedGrant, GrantSnapshot, RequestOf, Retain;
  }

  // ----- what fresh content creates

  ghost predicate CreatedAs(s: State, op: Operation, payloads: seq<FreshContent>, key: ContentKey, content: RecordedContent) {
    && content.origin.binding == ContentReference(s.identity, op.id, key)
    && content.payload.key == key
    && content.payload in payloads
  }

  /** One created item for each payload, bound to this operation, none of it present before. */
  ghost predicate CreatedFrom(s: State, op: Operation, payloads: seq<FreshContent>, created: map<ContentKey, RecordedContent>) {
    && created.Keys == FreshKeys(payloads)
    && created.Keys !! s.contentItems.Keys
    && forall k :: k in created ==> CreatedAs(s, op, payloads, k, created[k])
  }

  lemma CreatedOneMore(s: State, op: Operation, payloads: seq<FreshContent>, created: map<ContentKey, RecordedContent>,
                       last: FreshContent, content: RecordedContent)
    requires CreatedFrom(s, op, payloads, created)
    requires last.key !in s.contentItems && CreatedAs(s, op, [last], last.key, content)
    ensures CreatedFrom(s, op, payloads + [last], created[last.key := content])
  {
    var next := created[last.key := content];
    assert FreshKeys(payloads + [last]) == FreshKeys(payloads) + {last.key};
    assert next.Keys == created.Keys + {last.key};
    forall k | k in next ensures CreatedAs(s, op, payloads + [last], k, next[k]) {
      assert k != last.key ==> CreatedAs(s, op, payloads, k, created[k]);
    }
  }

  lemma {:induction false} ContentsCreated(s: State, op: Operation, used: GrantUse, g: Grant, a: Authority, payloads: seq<FreshContent>)
    requires CreatedContents(s, op, used, g, a, payloads).Ok?
    ensures CreatedFrom(s, op, payloads, CreatedContents(s, op, used, g, a, payloads).value)
  {
    if payloads != [] {
      var shorter := payloads[..|payloads| - 1];
      var last := payloads[|payloads| - 1];
      ContentsCreated(s, op, used, g, a, shorter);
      assert payloads == shorter + [last];
      CreatedOneMore(s, op, shorter, CreatedContents(s, op, used, g, a, shorter).value, last, RecordedOrigin(s, op, used, g, a, last));
    }
  }

  lemma CreationIsFresh(s: State, op: Operation, a: Authority)
    requires PrepareCreation(s, op, a).Ok?
    ensures match PrepareCreation(s, op, a).value
            case None => op.freshContent == []
            case Some(creation) => CreatedFrom(s, op, op.freshContent, creation.contentItems)
  {
    hide GrantFor, Measure;
    if op.freshContent != [] {
      var used := CreatingGrant(op.command).value;
      ContentsCreated(s, op, used, GrantFor(s, used, a).value, a, op.freshContent);
    }
  }

  // ----- the invariant of the catalogue

  type Establishments = map<ContentKey, ContentEstablishment>
  type StoredOperations = map<OperationId, StoredOperation>

  /** An establishment is what its operation's record says about the key. */
  ghost predicate EstablishedAs(who: Identity, records: StoredOperations, key: ContentKey, e: ContentEstablishment) {
    && e.binding.identity == who && e.binding.content == key
    && e.binding.operation in records
    && var r := records[e.binding.operation];
    && key in r.establishments && key in r.checks.intakes && key in r.checks.contentItems
    && e == EstablishmentBy(r, key)
  }

  /** Every content an accepted operation bound still has the bytes it was bound with. */
  ghost predicate BytesKept(records: StoredOperations, contentItems: map<ContentKey, Bytes>) {
    forall id :: id in records ==> Submap(records[id].checks.contentItems, contentItems)
  }

  ghost predicate EstablishmentsKept(who: Identity, records: StoredOperations, established: Establishments) {
    forall k :: k in established ==> EstablishedAs(who, records, k, established[k])
  }

  /** Created content carries the binding it was established with. */
  ghost predicate CreationsKept(created: map<ContentKey, RecordedContent>, established: Establishments) {
    forall k :: k in created ==> k in established && created[k].origin.binding == established[k].binding
  }

  ghost predicate HistoryKept(records: StoredOperations, history: map<OperationId, (Operation, Accepted)>) {
    && history.Keys == records.Keys
    && forall id :: id in records ==> records[id].operation.id == id && history[id] == (records[id].operation, records[id].accepted)
  }

  ghost predicate Catalogued(l: Ledger) {
    && l.state.established.Keys == l.state.contentItems.Keys
    && EstablishmentsKept(l.state.identity, l.records, l.state.established)
    && BytesKept(l.records, l.state.contentItems)
    && CreationsKept(l.state.created, l.state.established)
    && HistoryKept(l.records, l.state.history)
  }

  /** What the catalogue holds is never rebound. */
  ghost predicate CatalogueForward(s: State, t: State) {
    && t.identity == s.identity
    && Submap(s.contentItems, t.contentItems)
    && Submap(s.established, t.established)
    && Submap(s.created, t.created)
    && Submap(s.history, t.history)
  }

  // ----- one record

  /** What an accepted record says about the contents it binds. */
  ghost predicate Binds(s: State, r: StoredOperation) {
    && r.checks.intakes.Keys == r.checks.contentItems.Keys
    && r.checks.identity == s.identity
    && r.establishments == FreshKeys(r.operation.freshContent) + r.operation.firstRetention
    && r.establishments <= r.checks.contentItems.Keys
    && r.establishments !! s.established.Keys
    && r.operation.firstRetention !! FreshKeys(r.operation.freshContent)
    && (forall k :: k in r.checks.contentItems && k !in r.establishments ==>
          k in s.established && k in s.contentItems && s.contentItems[k] == r.checks.contentItems[k])
    && match r.checks.creation
       case None => r.operation.freshContent == []
       case Some(creation) => CreatedFrom(s, r.operation, r.operation.freshContent, creation.contentItems)
  }

  lemma KeyBound(s: State, op: Operation, c: Checks, key: ContentKey)
    requires TakenIn(s, op, c, key)
    ensures key in FreshKeys(op.freshContent) + op.firstRetention ==> key !in s.established
    ensures key !in FreshKeys(op.freshContent) + op.firstRetention ==>
              key in s.established && key in s.contentItems && s.contentItems[key] == c.contentItems[key]
  {
  }

  lemma RecordBinds(l: Ledger, r: StoredOperation)
    requires ValidateCurrent(l, r.operation, r.checks).Pass?
    requires r.establishments == EstablishmentClaims(r.operation)
    ensures Binds(l.state, r)
  {
    hide Requirements, AdaptationContents, NativeContents, ActionOf, PrepareCreation, TakenIn, ProposalReferences, DerivationReferences,
      ValidateCurrent, CreatedFrom;
    var needs, adapted, native := ValidationParts(l, r.operation, r.checks);
    CreationIsFresh(l.state, r.operation, r.checks.context.authority);
    forall k | k in r.checks.contentItems
      ensures k in r.establishments ==> k !in l.state.established
      ensures k !in r.establishments ==>
                k in l.state.established && k in l.state.contentItems && l.state.contentItems[k] == r.checks.contentItems[k]
    {
      KeyBound(l.state, r.operation, r.checks, k);
    }
  }

  lemma BindsTogether(s: State, r: StoredOperation)
    requires Binds(s, r) && s.established.Keys == s.contentItems.Keys
    ensures (s.established + Established(r)).Keys == (s.contentItems + r.checks.contentItems).Keys
    ensures Submap(s.contentItems, s.contentItems + r.checks.contentItems)
    ensures Submap(s.established, s.established + Established(r))
  {
    hide CreatedFrom;
    assert Established(r).Keys == r.establishments;
  }

  lemma EstablishmentsStayKept(s: State, records: StoredOperations, r: StoredOperation)
    requires Binds(s, r) && EstablishmentsKept(s.identity, records, s.established) && r.operation.id !in records
    ensures EstablishmentsKept(s.identity, records[r.operation.id := r], s.established + Established(r))
  {
    hide CreatedFrom;
    var after := records[r.operation.id := r];
    var joined := s.established + Established(r);
    forall k | k in joined ensures EstablishedAs(s.identity, after, k, joined[k]) {
      assert k !in r.establishments ==> EstablishedAs(s.identity, records, k, s.established[k]);
    }
  }

  lemma BytesStayKept(s: State, records: StoredOperations, r: StoredOperation)
    requires BytesKept(records, s.contentItems) && Submap(s.contentItems, s.contentItems + r.checks.contentItems)
    ensures BytesKept(records[r.operation.id := r], s.contentItems + r.checks.contentItems)
  {
    var after := records[r.operation.id := r];
    forall id | id in after ensures Submap(after[id].checks.contentItems, s.contentItems + r.checks.contentItems) {
      assert id != r.operation.id ==> Submap(records[id].checks.contentItems, s.contentItems);
    }
  }

  lemma CreationsStayKept(s: State, r: StoredOperation)
    requires Binds(s, r) && CreationsKept(s.created, s.established)
    ensures CreationsKept(s.created + CreatedBy(r), s.established + Established(r))
    ensures Submap(s.created, s.created + CreatedBy(r))
  {
    if r.checks.creation.Some? {
      forall k | k in CreatedBy(r) ensures CreatedAs(s, r.operation, r.operation.freshContent, k, CreatedBy(r)[k]) && k in r.establishments {
      }
    }
  }

  lemma RetentionKeeps(l: Ledger, s: State, r: StoredOperation)
    requires Catalogued(l) && Histories.SameCatalogue(l.state, s) && Binds(l.state, r)
    requires r.operation.id !in l.records
    ensures Catalogued(Ledger(Retain(s, r), l.records[r.operation.id := r]))
    ensures CatalogueForward(l.state, Retain(s, r))
  {
    hide EstablishmentsKept, BytesKept, CreationsKept, HistoryKept, Established, CreatedBy, CreatedFrom;
    BindsTogether(l.state, r);
    hide Binds, Submap;
    EstablishmentsStayKept(l.state, l.records, r);
    BytesStayKept(l.state, l.records, r);
    CreationsStayKept(l.state, r);
    HistoryStaysKept(l.records, l.state.history, r);
  }

  lemma HistoryStaysKept(records: StoredOperations, history: map<OperationId, (Operation, Accepted)>, r: StoredOperation)
    requires HistoryKept(records, history) && r.operation.id !in records
    ensures HistoryKept(records[r.operation.id := r], history[r.operation.id := (r.operation, r.accepted)])
    ensures Submap(history, history[r.operation.id := (r.operation, r.accepted)])
  {
  }

  lemma RetainedAreFirstRetentions(s: State, r: StoredOperation)
    requires Binds(s, r) && s.established.Keys == s.contentItems.Keys
    requires r.retained == RetainedBindings(s, r.operation, r.checks)
    ensures r.retained == r.operation.firstRetention
  {
    hide CreatedFrom;
    forall k ensures k in r.retained <==> k in r.operation.firstRetention {
    }
  }

  /** Each accepted record keeps the catalogue, rebinds nothing, and establishes only keys nothing established before. */
  lemma RecordKeepsCatalogue(l: Ledger, head: HistoryHead, r: StoredOperation)
    requires Catalogued(l) && ReplayRecord(l, head, r).Ok?
    ensures var next := ReplayRecord(l, head, r).value;
            && Catalogued(next)
            && CatalogueForward(l.state, next.state)
            && next.state.established.Keys == l.state.established.Keys + r.establishments
            && r.establishments !! l.state.established.Keys
            && r.retained == r.operation.firstRetention
  {
    hide ReplayRecord, ValidateCurrent, Transition, CreationClaims, RetainedBindings, EstablishmentsKept, BytesKept, CreationsKept, CreatedFrom;
    var s := Histories.RecordParts(l, head, r);
    RecordBinds(l, r);
    RetentionKeeps(l, s, r);
    RetainedAreFirstRetentions(l.state, r);
    assert Established(r).Keys == r.establishments;
  }

  // ----- whole histories

  lemma {:induction false} HistoryIsCatalogued(head: HistoryHead, records: seq<StoredOperation>)
    requires ReplayPrefix(head, records).Ok?
    ensures Catalogued(ReplayPrefix(head, records).value)
  {
    hide ReplayRecord, EstablishmentsKept, BytesKept, CreationsKept;
    if records != [] {
      var earlier := records[..|records| - 1];
      HistoryIsCatalogued(head, earlier);
      RecordKeepsCatalogue(ReplayPrefix(head, earlier).value, head, records[|records| - 1]);
    } else {
      hide *;
      NothingCatalogued(head);
    }
  }

  lemma NothingCatalogued(head: HistoryHead)
    requires ReplayPrefix(head, []).Ok?
    ensures Catalogued(ReplayPrefix(head, []).value)
  {
    hide ReplayRecord;
  }

  /** Bytes, establishments, origins and results never change once accepted. */
  lemma {:induction false} CatalogueOnlyGrows(head: HistoryHead, records: seq<StoredOperation>, n: nat)
    requires ReplayPrefix(head, records).Ok? && n <= |records|
    ensures ReplayPrefix(head, records[..n]).Ok?
    ensures CatalogueForward(ReplayPrefix(head, records[..n]).value.state, ReplayPrefix(head, records).value.state)
  {
    hide ReplayRecord, Catalogued;
    if n == |records| {
      assert records[..n] == records;
    } else {
      var earlier := records[..|records| - 1];
      CatalogueOnlyGrows(head, earlier, n);
      assert earlier[..n] == records[..n];
      HistoryIsCatalogued(head, earlier);
      RecordKeepsCatalogue(ReplayPrefix(head, earlier).value, head, records[|records| - 1]);
    }
  }

  /** The record at one position of a history, with the ledger it was accepted on. */
  lemma RecordAt(head: HistoryHead, records: seq<StoredOperation>, i: nat)
    requires ReplayPrefix(head, records).Ok? && i < |records|
    ensures ReplayPrefix(head, records[..i]).Ok? && ReplayPrefix(head, records[..i + 1]).Ok?
    ensures ReplayRecord(ReplayPrefix(head, records[..i]).value, head, records[i]) == ReplayPrefix(head, records[..i + 1])
  {
    hide ReplayRecord;
    Histories.EarlierPrefix(head, records, i);
    Histories.EarlierPrefix(head, records, i + 1);
    assert records[..i + 1][..i] == records[..i];
  }

  /** A content key is established by one record of a history, and its establishment names that record for ever. */
  lemma ContentIsEstablishedOnce(head: HistoryHead, records: seq<StoredOperation>, i: nat, j: nat)
    requires ReplayPrefix(head, records).Ok? && i < j < |records|
    ensures records[i].establishments !! records[j].establishments
    ensures records[i].retained == records[i].operation.firstRetention
  {
    hide ReplayRecord, ReplayPrefix, Catalogued;
    RecordAt(head, records, i);
    RecordAt(head, records, j);
    HistoryIsCatalogued(head, records[..i]);
    HistoryIsCatalogued(head, records[..j]);
    RecordKeepsCatalogue(ReplayPrefix(head, records[..i]).value, head, records[i]);
    RecordKeepsCatalogue(ReplayPrefix(head, records[..j]).value, head, records[j]);
    CatalogueOnlyGrows(head, records[..j], i + 1);
    assert records[..j][..i + 1] == records[..i + 1];
  }
}

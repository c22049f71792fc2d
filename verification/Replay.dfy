/** Live acceptance and reconstruction agree: each retained record is one live submission, and conversely. */
module Replay {
  import opened Base
  import opened Model
  import opened Rules
  import opened Records
  import opened Change

  // ----- a boundary that answers what a record says it answered

  function KeyOf(request: IntakeRequest): ContentKey {
    match request
    case FreshIntake(payload) => payload.key
    case RetentionIntake(key) => key
    case ReuseIntake(key) => key
  }

  function RecordedContentOf(c: Checks, key: ContentKey): Checked<ContentObservation> {
    if key in c.contentItems && key in c.intakes
    then Ok(ContentObservation(c.contentItems[key], c.intakes[key].sourceClaim))
    else Err(Unavailable)
  }

  function Answers(c: Checks): Ports {
    Ports(Ok(c.context),
          (request: IntakeRequest) => RecordedContentOf(c, KeyOf(request)),
          (g: GroundId) => Found(c.grounds, g, Unavailable),
          if c.adaptation.Some? then Ok(c.adaptation.value.1) else Err(Unavailable),
          if c.native.Some? then Ok(c.native.value.1) else Err(Unavailable),
          Pass, Pass)
  }

  // ----- intake

  /** The record's intake of one key passes the rules. */
  ghost predicate TakenIn(s: State, op: Operation, c: Checks, key: ContentKey) {
    && key in c.contentItems && key in c.intakes
    && c.intakes[key].intakeCase == ExpectedCase(op, key)
    && CheckIntake(s, Some(op), key, c.contentItems[key], c.intakes[key]).Pass?
  }

  lemma IntakeRepeats(s: State, op: Operation, c: Checks, key: ContentKey)
    requires TakenIn(s, op, c, key)
    ensures Intake(s, Some(op), key, Answers(c)) == Ok((c.contentItems[key], c.intakes[key]))
  {
  }

  lemma {:induction false} IntakesTakenIn(s: State, op: Operation, c: Checks, keys: seq<ContentKey>, key: ContentKey)
    requires c.intakes.Keys == c.contentItems.Keys
    requires forall k :: k in keys ==> k in c.contentItems
    requires CheckIntakes(s, op, c, keys).Pass? && key in keys
    ensures TakenIn(s, op, c, key)
  {
    if key != keys[0] {
      IntakesTakenIn(s, op, c, keys[1..], key);
    }
  }

  ghost predicate Submap<K, V>(a: map<K, V>, b: map<K, V>) {
    forall k :: k in a ==> k in b && b[k] == a[k]
  }

  /** Some of the record's contents have been taken in, each exactly as the record says. */
  ghost predicate Partly(c: Checks, d: Checks) {
    Submap(d.contentItems, c.contentItems) && Submap(d.intakes, c.intakes) && d.intakes.Keys == d.contentItems.Keys
  }

  ghost predicate Progressed(c: Checks, d: Checks, keys: set<ContentKey>, e: Checks) {
    && Partly(c, e)
    && e.contentItems.Keys == d.contentItems.Keys + keys
    && e == d.(contentItems := e.contentItems, intakes := e.intakes)
  }

  lemma {:induction false} GatheringRepeats(s: State, op: Operation, c: Checks, keys: seq<ContentKey>, d: Checks)
    requires Partly(c, d)
    requires forall k :: k in keys ==> TakenIn(s, op, c, k)
    ensures Gathered(s, Some(op), keys, Answers(c), d).Ok?
    ensures Progressed(c, d, Elements(keys), Gathered(s, Some(op), keys, Answers(c), d).value)
    decreases |keys|
  {
    if keys != [] {
      var key := keys[0];
      IntakeRepeats(s, op, c, key);
      var one := GatheredOne(s, Some(op), key, Answers(c), d).value;
      assert Progressed(c, d, {key}, one);
      GatheringRepeats(s, op, c, keys[1..], one);
      assert Elements(keys) == {key} + Elements(keys[1..]);
    }
  }

  lemma {:induction false} ObservingRepeats(c: Checks, ids: seq<GroundId>, d: Checks)
    requires Submap(d.grounds, c.grounds)
    requires forall g :: g in ids ==> g in c.grounds
    ensures ObservedGrounds(ids, Answers(c), d).Ok?
    ensures var e := ObservedGrounds(ids, Answers(c), d).value;
            && e == d.(grounds := e.grounds)
            && Submap(e.grounds, c.grounds)
            && e.grounds.Keys == d.grounds.Keys + Elements(ids)
    decreases |ids|
  {
    if ids != [] {
      var one := d.(grounds := d.grounds[ids[0] := c.grounds[ids[0]]]);
      ObservingRepeats(c, ids[1..], one);
      assert Elements(ids) == {ids[0]} + Elements(ids[1..]);
    }
  }

  // ----- the keys asked for are the keys bound

  lemma {:induction false} EvidenceOrderVisits(items: seq<Evidence>)
    ensures Elements(EvidenceOrder(items)) == EvidenceContents(items)
  {
    if items != [] {
      EvidenceOrderVisits(items[1..]);
      assert items == [items[0]] + items[1..];
      assert EvidenceContents(items) == {items[0].content, items[0].limitations} + EvidenceContents(items[1..]);
      assert Elements(EvidenceOrder(items)) ==
             {items[0].content, items[0].limitations} + Elements(EvidenceOrder(items[1..]));
    }
  }

  function DerivedContents(payloads: seq<FreshContent>): set<ContentKey> {
    set p, r | p in payloads && r in p.derivedFrom :: r.content
  }

  lemma {:induction false} DerivedOrderVisits(payloads: seq<FreshContent>)
    ensures Elements(DerivedOrder(payloads)) == DerivedContents(payloads)
  {
    if payloads != [] {
      DerivedOrderVisits(payloads[1..]);
      var first := ContentsOf(payloads[0].derivedFrom);
      InOrderVisitsAll(first);
      assert payloads == [payloads[0]] + payloads[1..];
      assert DerivedContents(payloads) == first + DerivedContents(payloads[1..]);
      assert Elements(DerivedOrder(payloads)) == first + Elements(DerivedOrder(payloads[1..]));
    }
  }

  // ----- collecting again what a validated record holds

  /** What validation of an operation's checks establishes, part by part. */
  ghost predicate Validated(l: Ledger, op: Operation, c: Checks, needs: Needs, adapted: set<ContentKey>, native: set<ContentKey>) {
    && OpenedFor(l, op, c)
    && PrepareCreation(l.state, op, c.context.authority) == Ok(c.creation)
    && Requirements(l.state, op.command) == Ok(needs)
    && AdaptationContents(op.command, c.adaptation) == Ok(adapted)
    && ActionOf(l.state, op.command).Ok?
    && NativeContents(ActionOf(l.state, op.command).value, c.native) == Ok(native)
    && ExactlyBound(l.state, op, c, needs.contents + adapted + native + ContentsOf(DerivedReferences(op)), needs.grounds)
    && (forall k :: k in c.contentItems ==> TakenIn(l.state, op, c, k))
  }

  lemma ValidationParts(l: Ledger, op: Operation, c: Checks) returns (needs: Needs, adapted: set<ContentKey>, native: set<ContentKey>)
    requires ValidateCurrent(l, op, c).Pass?
    ensures Validated(l, op, c, needs, adapted, native)
    ensures ProposalReferences(l, op, c).Pass? && DerivationReferences(l, op, c).Pass?
  {
    needs := Requirements(l.state, op.command).value;
    adapted := AdaptationContents(op.command, c.adaptation).value;
    native := NativeContents(ActionOf(l.state, op.command).value, c.native).value;
    var keys := InOrder(c.contentItems.Keys);
    InOrderVisitsAll(c.contentItems.Keys);
    assert CheckIntakes(l.state, op, c, keys).Pass?;
    forall k | k in c.contentItems ensures TakenIn(l.state, op, c, k) {
      IntakesTakenIn(l.state, op, c, keys, k);
    }
  }

  /** The checks as they stand before anything has been asked for. */
  function Opening(c: Checks): Checks {
    c.(creation := None, contentItems := map[], intakes := map[], grounds := map[], adaptation := None, native := None)
  }

  lemma OpeningRepeats(l: Ledger, op: Operation, c: Checks)
    requires OpenedFor(l, op, c)
    ensures OpenChecks(l.state, op.id, Answers(c)) == Ok(Opening(c))
  {
  }

  lemma AdaptationRepeats(l: Ledger, op: Operation, c: Checks, d: Checks, adapted: set<ContentKey>) returns (e: Checks)
    requires AdaptationContents(op.command, c.adaptation) == Ok(adapted)
    requires adapted <= c.contentItems.Keys && forall k :: k in c.contentItems ==> TakenIn(l.state, op, c, k)
    requires Partly(c, d) && d.adaptation.None?
    ensures CollectAdaptation(l.state, op, d, Answers(c)) == Ok(e)
    ensures Partly(c, e) && e.contentItems.Keys == d.contentItems.Keys + adapted
    ensures e == d.(contentItems := e.contentItems, intakes := e.intakes, adaptation := c.adaptation)
  {
    if op.command.Adapt? {
      var judgment := c.adaptation.value.1;
      var evidence := if judgment.WithinDiscretion? then [judgment.evidence] else [];
      EvidenceOrderVisits(evidence);
      var keys := if judgment.WithinDiscretion? then EvidenceOrder([judgment.evidence]) else [];
      assert Elements(keys) == adapted;
      GatheringRepeats(l.state, op, c, keys, d);
    }
    e := CollectAdaptation(l.state, op, d, Answers(c)).value;
  }

  lemma NativeRepeats(l: Ledger, op: Operation, c: Checks, d: Checks, native: set<ContentKey>) returns (e: Checks)
    requires ActionOf(l.state, op.command).Ok?
    requires NativeContents(ActionOf(l.state, op.command).value, c.native) == Ok(native)
    requires native <= c.contentItems.Keys && forall k :: k in c.contentItems ==> TakenIn(l.state, op, c, k)
    requires Partly(c, d) && d.native.None?
    ensures CollectNative(l.state, op, d, Answers(c)) == Ok(e)
    ensures Partly(c, e) && e.contentItems.Keys == d.contentItems.Keys + native
    ensures e == d.(contentItems := e.contentItems, intakes := e.intakes, native := c.native)
  {
    var request := ActionOf(l.state, op.command).value;
    if request.Some? {
      var keys := EvidenceOrder(c.native.value.1.evidence);
      EvidenceOrderVisits(c.native.value.1.evidence);
      assert Elements(keys) == native;
      GatheringRepeats(l.state, op, c, keys, d);
    }
    e := CollectNative(l.state, op, d, Answers(c)).value;
  }

  lemma RequiredRepeats(l: Ledger, op: Operation, c: Checks, d: Checks, contents: set<ContentKey>) returns (e: Checks)
    requires contents + ContentsOf(DerivedReferences(op)) <= c.contentItems.Keys
    requires forall k :: k in c.contentItems ==> TakenIn(l.state, op, c, k)
    requires Partly(c, d)
    ensures Gathered(l.state, Some(op), InOrder(contents) + DerivedOrder(op.freshContent), Answers(c), d) == Ok(e)
    ensures Progressed(c, d, contents + ContentsOf(DerivedReferences(op)), e)
  {
    var keys := InOrder(contents) + DerivedOrder(op.freshContent);
    InOrderVisitsAll(contents);
    DerivedOrderVisits(op.freshContent);
    assert DerivedContents(op.freshContent) == ContentsOf(DerivedReferences(op));
    assert Elements(keys) == contents + ContentsOf(DerivedReferences(op));
    GatheringRepeats(l.state, op, c, keys, d);
    e := Gathered(l.state, Some(op), keys, Answers(c), d).value;
  }

  lemma GroundsRepeat(c: Checks, d: Checks)
    requires d.grounds == map[]
    ensures ObservedGrounds(Rising(c.grounds.Keys), Answers(c), d) == Ok(d.(grounds := c.grounds))
  {
    hide Answers, Rising, ObservedGrounds;
    RisingVisitsAll(c.grounds.Keys);
    ObservingRepeats(c, Rising(c.grounds.Keys), d);
    var e := ObservedGrounds(Rising(c.grounds.Keys), Answers(c), d).value;
    assert e.grounds.Keys == c.grounds.Keys;
    assert e.grounds == c.grounds;
  }

  lemma TermsAreLocal(l: Ledger, op: Operation, c: Checks)
    requires ProposalReferences(l, op, c).Pass? && op.command.Propose?
    ensures forall r :: r in TermReferences(op.command.proposal.terms) ==> r.identity == l.state.identity
  {
    var refs := TermReferences(op.command.proposal.terms);
    var outcomes := set r | r in refs :: ProposalReference(l, op, c, r);
    assert Fail(Invalid) !in outcomes;
    forall r | r in refs ensures r.identity == l.state.identity {
      assert ProposalReference(l, op, c, r) in outcomes;
    }
  }

  lemma CollectedInStages(l: Ledger, op: Operation, start: Checks, ports: Ports, needs: Needs, required: Checks, grounded: Checks, judged: Checks, done: Checks)
    requires op.command.Propose? ==> forall r :: r in TermReferences(op.command.proposal.terms) ==> r.identity == l.state.identity
    requires PrepareCreation(l.state, op, start.context.authority).Ok?
    requires Requirements(l.state, op.command) == Ok(needs)
    requires Gathered(l.state, Some(op), InOrder(needs.contents) + DerivedOrder(op.freshContent), ports,
                      start.(creation := PrepareCreation(l.state, op, start.context.authority).value)) == Ok(required)
    requires ObservedGrounds(Rising(needs.grounds), ports, required) == Ok(grounded)
    requires CollectAdaptation(l.state, op, grounded, ports) == Ok(judged)
    requires CollectNative(l.state, op, judged, ports) == Ok(done)
    requires FreshKeys(op.freshContent) <= done.contentItems.Keys
    ensures Collect(l, op, start, ports) == Ok(done)
  {
    hide Requirements, PrepareCreation, Gathered, ObservedGrounds, CollectAdaptation, CollectNative, TermReferences, InOrder, DerivedOrder, Rising;
  }

  lemma WholeRecord(c: Checks, d: Checks)
    requires Partly(c, d) && d.contentItems.Keys == c.contentItems.Keys == c.intakes.Keys
    ensures d.contentItems == c.contentItems && d.intakes == c.intakes
  {
  }

  lemma StagesRepeat(l: Ledger, op: Operation, c: Checks, needs: Needs, adapted: set<ContentKey>, native: set<ContentKey>)
    returns (required: Checks, judged: Checks, done: Checks)
    requires Validated(l, op, c, needs, adapted, native)
    ensures Gathered(l.state, Some(op), InOrder(needs.contents) + DerivedOrder(op.freshContent), Answers(c),
                     Opening(c).(creation := c.creation)) == Ok(required)
    ensures ObservedGrounds(Rising(needs.grounds), Answers(c), required) == Ok(required.(grounds := c.grounds))
    ensures CollectAdaptation(l.state, op, required.(grounds := c.grounds), Answers(c)) == Ok(judged)
    ensures CollectNative(l.state, op, judged, Answers(c)) == Ok(done)
    ensures done == c
  {
    hide Gathered, ObservedGrounds, CollectAdaptation, CollectNative, AdaptationContents, NativeContents, InOrder, DerivedOrder, Rising,
      Answers, TakenIn, Requirements, PrepareCreation, ActionOf, OpenedFor;
    required := RequiredRepeats(l, op, c, Opening(c).(creation := c.creation), needs.contents);
    GroundsRepeat(c, required);
    judged := AdaptationRepeats(l, op, c, required.(grounds := c.grounds), adapted);
    done := NativeRepeats(l, op, c, judged, native);
    WholeRecord(c, done);
  }

  lemma CollectionRepeats(l: Ledger, op: Operation, c: Checks)
    requires ValidateCurrent(l, op, c).Pass?
    ensures Collect(l, op, Opening(c), Answers(c)) == Ok(c)
  {
    hide Requirements, PrepareCreation, Gathered, ObservedGrounds, CollectAdaptation, CollectNative, TermReferences, ValidateCurrent,
      AdaptationContents, NativeContents, Collect, InOrder, DerivedOrder, Rising, Answers, TakenIn;
    var needs, adapted, native := ValidationParts(l, op, c);
    if op.command.Propose? {
      TermsAreLocal(l, op, c);
    }
    var required, judged, done := StagesRepeat(l, op, c, needs, adapted, native);
    CollectedInStages(l, op, Opening(c), Answers(c), needs, required, required.(grounds := c.grounds), judged, done);
  }
  // ----- one record, one submission

  lemma CandidateIsValidated(l: Ledger, op: Operation, c: Checks)
    requires Candidate(l, op, c).Ok?
    ensures ValidateCurrent(l, op, c).Pass?
  {
  }

  /** A record that reconstruction accepts is a record that live acceptance writes, from the same ledger. */
  lemma PlanRepeats(l: Ledger, head: HistoryHead, r: StoredOperation)
    requires ReplayRecord(l, head, r).Ok?
    ensures Plan(l, RequestOf(r).value, Opening(r.checks), Answers(r.checks)) == Ok((r, ReplayRecord(l, head, r).value))
  {
    hide Collect, Candidate, ValidateCurrent, Retain, CreationClaims, EstablishmentClaims, RetainedBindings, UsedGrant, GrantSnapshot;
    CandidateIsValidated(l, r.operation, r.checks);
    CollectionRepeats(l, r.operation, r.checks);
  }

  lemma RecordIsLive(l: Ledger, head: HistoryHead, r: StoredOperation)
    requires head.profile == CURRENT_PROFILE && head.identity == l.state.identity
    requires ReplayRecord(l, head, r).Ok?
    ensures Execution(l, false, RequestOf(r).value, Answers(r.checks), AcceptedNow)
         == Executed(Answered(r.accepted), ReplayRecord(l, head, r).value, false, Some(r))
  {
    hide Collect, Transition, Plan;
    PlanRepeats(l, head, r);
    assert OpenedFor(l, r.operation, r.checks);
    OpeningRepeats(l, r.operation, r.checks);
  }

  /** A record that live acceptance writes is accepted by reconstruction, with the same result. */
  lemma LiveIsReplayed(l: Ledger, request: OperationRequest, ports: Ports, acceptance: Acceptance, head: HistoryHead)
    requires head.profile == CURRENT_PROFILE && head.identity == l.state.identity
    requires |l.records| < head.acceptedOperations
    requires Execution(l, false, request, ports, acceptance).committed.Some?
    ensures var e := Execution(l, false, request, ports, acceptance);
            && ReplayRecord(l, head, e.committed.value) == Ok(e.ledger)
            && e.reply == Answered(e.committed.value.accepted)
            && !e.fenced
  {
    hide Collect, Candidate, OpenChecks, Recall, Retain, CreationClaims, EstablishmentClaims, RetainedBindings, UsedGrant, GrantSnapshot;
  }
}

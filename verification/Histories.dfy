/** Whole histories: the live state equals the reconstructed state, in both directions and at every prefix. */
module Histories {
  import opened Base
  import opened Model
  import opened Rules
  import opened Records
  import opened Change
  import opened Replay

  // ----- live sessions

  datatype Submission = Submission(request: OperationRequest, ports: Ports, acceptance: Acceptance)

  /** A handle's ledger, whether it is fenced, and what was committed through it so far. */
  datatype Session = Session(ledger: Ledger, fenced: bool, log: seq<StoredOperation>)

  function Opened(identity: Identity): Checked<Session> {
    var s :- NewState(identity);
    Ok(Session(Ledger(s, map[]), false, []))
  }

  function Submit(session: Session, submission: Submission): Session {
    var e := Execution(session.ledger, session.fenced, submission.request, submission.ports, submission.acceptance);
    Session(e.ledger, e.fenced, if e.committed.Some? then session.log + [e.committed.value] else session.log)
  }

  /** Any number of submissions, each with arbitrary answers from its boundary. */
  function SubmitAll(session: Session, submissions: seq<Submission>): Session {
    if submissions == [] then session
    else Submit(SubmitAll(session, submissions[..|submissions| - 1]), submissions[|submissions| - 1])
  }

  // ----- reconstruction, record by record

  lemma RecordJoins(l: Ledger, head: HistoryHead, r: StoredOperation)
    requires ReplayRecord(l, head, r).Ok?
    ensures var next := ReplayRecord(l, head, r).value;
            && next.records == l.records[r.operation.id := r]
            && |next.records| == |l.records| + 1 <= head.acceptedOperations
            && r.operation.id !in l.records
            && next.state.lastOperation == Some(r.operation.id)
  {
    hide Candidate, CreationClaims, EstablishmentClaims, RetainedBindings, UsedGrant, GrantSnapshot, RequestOf;
    var next := ReplayRecord(l, head, r).value;
    assert next.records.Keys == l.records.Keys + {r.operation.id};
  }

  /** The head bounds a prefix and names its subject; a larger head changes nothing else. */
  lemma LargerHead(l: Ledger, head: HistoryHead, larger: HistoryHead, r: StoredOperation)
    requires ReplayRecord(l, head, r).Ok?
    requires larger.profile == head.profile && larger.identity == head.identity
    requires |l.records| < larger.acceptedOperations
    ensures ReplayRecord(l, larger, r) == ReplayRecord(l, head, r)
  {
    hide Candidate, CreationClaims, EstablishmentClaims, RetainedBindings, UsedGrant, GrantSnapshot, RequestOf;
  }

  // ----- the kernel leaves the catalogue to retention

  ghost predicate SameCatalogue(s: State, t: State) {
    && t.identity == s.identity
    && t.history == s.history
    && t.lastOperation == s.lastOperation
    && t.contentItems == s.contentItems
    && t.created == s.created
    && t.established == s.established
  }

  lemma ConclusionLeavesCatalogue(s: State, p: Proposal, adoption: DecisionId, undertaking: DecisionId)
    requires adoption in s.decisions && undertaking in s.decisions && Conclude(s, p, adoption, undertaking).Ok?
    ensures SameCatalogue(s, Conclude(s, p, adoption, undertaking).value)
    ensures Conclude(s, p, adoption, undertaking).value.decisions.Keys == s.decisions.Keys
  {
  }

  lemma ExtensionLeavesCatalogue(s: State, a: AgreementId)
    requires ExtendBlockers(s, a).Ok?
    ensures SameCatalogue(s, ExtendBlockers(s, a).value)
    ensures ExtendBlockers(s, a).value.decisions == s.decisions
  {
  }

  lemma ActivationLeavesCatalogue(s: State, proposal: ProposalId, v: Validation)
    requires Activate(s, proposal, v).Ok?
    ensures SameCatalogue(s, Activate(s, proposal, v).value.0)
    ensures Activate(s, proposal, v).value.0.decisions.Keys == s.decisions.Keys
  {
    hide MatchingDecisions, Conclude, ExtendBlockers, Rising;
    var p := s.proposals[proposal];
    if s.current == Some(p.agreement) {
      ExtensionLeavesCatalogue(s, p.agreement);
    } else {
      var found := MatchingDecisions(s, Rising(s.decisions.Keys), proposal, v, None, None).value;
      if found.0.Some? && found.1.Some? {
        ConclusionLeavesCatalogue(s, p, found.0.value, found.1.value);
      }
    }
  }

  lemma DecisionsLeaveCatalogue(s: State, c: Command, v: Validation)
    requires c.Decide? || c.Reaffirm?
    requires Perform(s, c, v).Ok?
    ensures SameCatalogue(s, Perform(s, c, v).value.0)
  {
    hide Activate, NewDecision, RenewedDecision;
    match c
    case Decide(d) =>
      var written := NewDecision(s, d, v).value;
      ActivationLeavesCatalogue(WithDecision(s, d.id, written), d.proposal, v);
    case Reaffirm(id, dependencies, renewal) =>
      var written := RenewedDecision(s, id, dependencies, renewal, v).value;
      ActivationLeavesCatalogue(WithDecision(s, id, written), written.decision.proposal, v);
  }

  lemma OthersLeaveCatalogue(s: State, c: Command, v: Validation)
    requires !c.Decide? && !c.Reaffirm?
    requires Perform(s, c, v).Ok?
    ensures SameCatalogue(s, Perform(s, c, v).value.0)
  {
    hide RecordAccess, CurrentGrounds, NativeGrant, ProposalAdmissible, CoversContentItems, ValidateOriginSelectors, TargetAllowed, Resolved,
      CriterionIds, AgreementDependencies;
  }

  lemma TransitionLeavesCatalogue(s: State, c: Command, v: Validation)
    requires Transition(s, c, v).Ok?
    ensures SameCatalogue(s, Transition(s, c, v).value.0)
  {
    hide Perform;
    if c.Decide? || c.Reaffirm? {
      DecisionsLeaveCatalogue(s, c, v);
    } else {
      OthersLeaveCatalogue(s, c, v);
    }
  }

  // ----- prefixes

  /** What reconstruction checked about a record, and the kernel step it made. */
  lemma RecordParts(l: Ledger, head: HistoryHead, r: StoredOperation) returns (s: State)
    requires ReplayRecord(l, head, r).Ok?
    ensures ValidateCurrent(l, r.operation, r.checks).Pass?
    ensures Transition(l.state, r.operation.command, ValidationOf(r.checks)) == Ok((s, r.accepted.effect))
    ensures SameCatalogue(l.state, s)
    ensures r.creations == CreationClaims(l.state, r.operation)
    ensures r.establishments == EstablishmentClaims(r.operation)
    ensures r.retained == RetainedBindings(l.state, r.operation, r.checks)
    ensures r.operation.id !in l.records
    ensures r.establishments <= r.checks.intakes.Keys
    ensures ReplayRecord(l, head, r).value == Ledger(Retain(s, r), l.records[r.operation.id := r])
  {
    hide ValidateCurrent, Transition, CreationClaims, EstablishmentClaims, RetainedBindings, UsedGrant, GrantSnapshot, RequestOf, Retain;
    TransitionLeavesCatalogue(l.state, r.operation.command, ValidationOf(r.checks));
    s := Transition(l.state, r.operation.command, ValidationOf(r.checks)).value.0;
    EstablishmentsTakenIn(l, r.operation, r.checks);
  }

  lemma RecordKeepsIdentity(l: Ledger, head: HistoryHead, r: StoredOperation)
    requires ReplayRecord(l, head, r).Ok?
    ensures ReplayRecord(l, head, r).value.state.identity == l.state.identity
  {
    hide ReplayRecord, ValidateCurrent, Transition;
    var _ := RecordParts(l, head, r);
  }

  /** The head a prefix of records has by itself. */
  lemma {:induction false} PrefixShape(head: HistoryHead, records: seq<StoredOperation>)
    requires ReplayPrefix(head, records).Ok?
    ensures var l := ReplayPrefix(head, records).value;
            && |l.records| == |records|
            && l.state.identity == head.identity
            && l.state.lastOperation == (if records == [] then None else Some(records[|records| - 1].operation.id))
            && (records != [] ==> |records| <= head.acceptedOperations)
  {
    hide ReplayRecord;
    if records != [] {
      var earlier := records[..|records| - 1];
      PrefixShape(head, earlier);
      RecordJoins(ReplayPrefix(head, earlier).value, head, records[|records| - 1]);
      RecordKeepsIdentity(ReplayPrefix(head, earlier).value, head, records[|records| - 1]);
    }
  }

  lemma {:induction false} PrefixUnderHead(head: HistoryHead, other: HistoryHead, records: seq<StoredOperation>)
    requires ReplayPrefix(head, records).Ok?
    requires other.profile == head.profile && other.identity == head.identity && |records| <= other.acceptedOperations
    ensures ReplayPrefix(other, records) == ReplayPrefix(head, records)
  {
    hide ReplayRecord;
    if records != [] {
      var earlier := records[..|records| - 1];
      PrefixUnderHead(head, other, earlier);
      PrefixShape(head, earlier);
      LargerHead(ReplayPrefix(head, earlier).value, head, other, records[|records| - 1]);
    }
  }

  lemma {:induction false} EarlierPrefix(head: HistoryHead, records: seq<StoredOperation>, n: nat)
    requires ReplayPrefix(head, records).Ok? && n <= |records|
    ensures ReplayPrefix(head, records[..n]).Ok?
  {
    hide ReplayRecord;
    if n == |records| {
      assert records[..n] == records;
    } else {
      EarlierPrefix(head, records[..|records| - 1], n);
      assert records[..|records| - 1][..n] == records[..n];
    }
  }

  /** Every prefix of an accepted history is accepted under its own head. */
  lemma EveryPrefixReconstructs(head: HistoryHead, records: seq<StoredOperation>, n: nat)
    requires Reconstruction(head, records).Ok? && n <= |records|
    ensures ReplayPrefix(head, records[..n]).Ok?
    ensures var l := ReplayPrefix(head, records[..n]).value;
            Reconstruction(HeadOf(l), records[..n]) == Ok(l)
  {
    EarlierPrefix(head, records, n);
    PrefixShape(head, records[..n]);
    PrefixUnderHead(head, HeadOf(ReplayPrefix(head, records[..n]).value), records[..n]);
  }

  // ----- live is replayed

  /** A history can be extended by whatever live acceptance commits to it. */
  lemma ExtendedByLive(session: Session, submission: Submission)
    requires !session.fenced
    requires Reconstruction(HeadOf(session.ledger), session.log) == Ok(session.ledger)
    ensures var next := Submit(session, submission);
            Reconstruction(HeadOf(next.ledger), next.log) == Ok(next.ledger)
  {
    hide Execution, ReplayRecord;
    var l := session.ledger;
    var e := Execution(l, false, submission.request, submission.ports, submission.acceptance);
    if e.committed.Some? {
      var r := e.committed.value;
      var head := HistoryHead(CURRENT_PROFILE, l.state.identity, |l.records| + 1, Some(r.operation.id));
      PrefixShape(HeadOf(l), session.log);
      PrefixUnderHead(HeadOf(l), head, session.log);
      LiveIsReplayed(l, submission.request, submission.ports, submission.acceptance, head);
      RecordJoins(l, head, r);
      RecordKeepsIdentity(l, head, r);
      assert (session.log + [r])[..|session.log|] == session.log;
      assert HeadOf(e.ledger) == head;
    } else {
      NothingCommitted(l, submission.request, submission.ports, submission.acceptance);
    }
  }

  lemma NothingCommitted(l: Ledger, request: OperationRequest, ports: Ports, acceptance: Acceptance)
    ensures Execution(l, false, request, ports, acceptance).committed.None? ==> Execution(l, false, request, ports, acceptance).ledger == l
    ensures Execution(l, true, request, ports, acceptance) == Executed(Fenced, l, true, None)
  {
    hide Plan, OpenChecks, Recall;
  }

  /** After any submissions, reconstruction of what was committed gives exactly the live ledger. */
  lemma {:induction false} LiveIsReconstructed(identity: Identity, submissions: seq<Submission>)
    requires Opened(identity).Ok?
    ensures var live := SubmitAll(Opened(identity).value, submissions);
            Reconstruction(HeadOf(live.ledger), live.log) == Ok(live.ledger)
  {
    hide Execution, ReplayRecord;
    if submissions != [] {
      var earlier := submissions[..|submissions| - 1];
      LiveIsReconstructed(identity, earlier);
      var session := SubmitAll(Opened(identity).value, earlier);
      var last := submissions[|submissions| - 1];
      if session.fenced {
        NothingCommitted(session.ledger, last.request, last.ports, last.acceptance);
      } else {
        ExtendedByLive(session, last);
      }
    }
  }

  // ----- replayed is live

  /** The submissions, with the recorded answers, that produce a history live. */
  function Resubmissions(records: seq<StoredOperation>): seq<Submission>
    requires forall r :: r in records ==> RequestOf(r).Ok?
  {
    seq(|records|, i requires 0 <= i < |records| =>
      assert records[i] in records;
      Submission(RequestOf(records[i]).value, Answers(records[i].checks), AcceptedNow))
  }

  lemma {:induction false} PrefixRequests(head: HistoryHead, records: seq<StoredOperation>)
    requires ReplayPrefix(head, records).Ok?
    ensures forall r :: r in records ==> RequestOf(r).Ok?
  {
    hide Candidate, CreationClaims, EstablishmentClaims, RetainedBindings, UsedGrant, GrantSnapshot, RequestOf, Retain;
    if records != [] {
      PrefixRequests(head, records[..|records| - 1]);
      assert records == records[..|records| - 1] + [records[|records| - 1]];
    }
  }

  lemma {:induction false} PrefixIsLive(head: HistoryHead, records: seq<StoredOperation>)
    requires head.profile == CURRENT_PROFILE
    requires ReplayPrefix(head, records).Ok?
    requires forall r :: r in records ==> RequestOf(r).Ok?
    ensures Opened(head.identity).Ok?
    ensures SubmitAll(Opened(head.identity).value, Resubmissions(records))
         == Session(ReplayPrefix(head, records).value, false, records)
  {
    hide Execution, ReplayRecord;
    if records != [] {
      var earlier := records[..|records| - 1];
      var last := records[|records| - 1];
      PrefixIsLive(head, earlier);
      PrefixShape(head, earlier);
      RecordIsLive(ReplayPrefix(head, earlier).value, head, last);
      assert Resubmissions(records)[..|records| - 1] == Resubmissions(earlier);
      assert earlier + [last] == records;
    }
  }

  ghost predicate LiveHistory(identity: Identity, submissions: seq<Submission>, records: seq<StoredOperation>, l: Ledger) {
    && Opened(identity).Ok?
    && SubmitAll(Opened(identity).value, submissions).ledger == l
    && SubmitAll(Opened(identity).value, submissions).log == records
  }

  /** Reconstruction accepts a list of records exactly when some live session committed it, and yields that session's ledger. */
  lemma ReconstructedExactlyWhenLive(head: HistoryHead, records: seq<StoredOperation>, l: Ledger)
    ensures Reconstruction(head, records) == Ok(l)
       <==> head == HeadOf(l) && exists submissions :: LiveHistory(head.identity, submissions, records, l)
  {
    hide Execution, ReplayRecord, SubmitAll;
    if Reconstruction(head, records) == Ok(l) {
      PrefixRequests(head, records);
      PrefixIsLive(head, records);
      PrefixShape(head, records);
      assert LiveHistory(head.identity, Resubmissions(records), records, l);
    }
    if head == HeadOf(l) && exists submissions :: LiveHistory(head.identity, submissions, records, l) {
      var submissions :| LiveHistory(head.identity, submissions, records, l);
      LiveIsReconstructed(head.identity, submissions);
    }
  }

  // ----- an uncertain commit

  /** When the boundary cannot tell whether it committed, the handle is fenced; the record it may hold reopens as if accepted. */
  lemma IndeterminateReopens(session: Session, request: OperationRequest, ports: Ports) returns (record: StoredOperation, next: Ledger)
    requires !session.fenced
    requires Reconstruction(HeadOf(session.ledger), session.log) == Ok(session.ledger)
    requires Execution(session.ledger, false, request, ports, IndeterminateCommit).reply == Indeterminate
    ensures Submit(session, Submission(request, ports, IndeterminateCommit)) == session.(fenced := true)
    ensures Execution(session.ledger, false, request, ports, AcceptedNow) == Executed(Answered(record.accepted), next, false, Some(record))
    ensures Reconstruction(HeadOf(next), session.log + [record]) == Ok(next)
  {
    hide ReplayRecord, Plan, OpenChecks, Recall;
    ExtendedByLive(session, Submission(request, ports, AcceptedNow));
    var e := Execution(session.ledger, false, request, ports, AcceptedNow);
    record, next := e.committed.value, e.ledger;
  }
}

/** A live session over a store: commits, uncertain commits and reopenings, with the ledger always the one its store reconstructs to. */
module Durable {
  import opened Base
  import opened Model
  import opened Records
  import opened Change
  import opened Replay
  import opened Histories

  /** What became of a guarded append. */
  datatype Commit = Confirmed | Unknown(stored: bool) | Declined(error: Error)

  function AcceptanceOf(c: Commit): Acceptance {
    match c
    case Confirmed => AcceptedNow
    case Unknown(_) => IndeterminateCommit
    case Declined(e) => RefusedWith(e)
  }

  /** A handle, and the records its store really holds. */
  datatype Store = Store(session: Session, stored: seq<StoredOperation>)

  datatype Call = Submitting(request: OperationRequest, ports: Ports, commit: Commit) | Reopening

  /** The record a submission would append, had the append happened. */
  function Candidate(session: Session, request: OperationRequest, ports: Ports): Option<StoredOperation> {
    Execution(session.ledger, session.fenced, request, ports, AcceptedNow).committed
  }

  function HeadFor(identity: Identity, stored: seq<StoredOperation>): HistoryHead {
    HistoryHead(CURRENT_PROFILE, identity, |stored|, if stored == [] then None else Some(stored[|stored| - 1].operation.id))
  }

  function After(store: Store, call: Call): Store {
    match call
    case Submitting(request, ports, commit) =>
      var candidate := Candidate(store.session, request, ports);
      var appended := candidate.Some? && (commit.Confirmed? || (commit.Unknown? && commit.stored));
      Store(Submit(store.session, Submission(request, ports, AcceptanceOf(commit))),
            if appended then store.stored + [candidate.value] else store.stored)
    case Reopening =>
      match Reconstruction(HeadFor(store.session.ledger.state.identity, store.stored), store.stored)
      case Ok(l) => store.(session := Session(l, false, store.stored))
      case Err(_) => store
  }

  function AfterAll(store: Store, calls: seq<Call>): Store {
    if calls == [] then store else After(AfterAll(store, calls[..|calls| - 1]), calls[|calls| - 1])
  }

  /** The handle's ledger is what its log reconstructs to; the store holds that log, or after an uncertain append one record more. */
  ghost predicate Consistent(store: Store) {
    && Reconstruction(HeadOf(store.session.ledger), store.session.log) == Ok(store.session.ledger)
    && Reconstruction(HeadFor(store.session.ledger.state.identity, store.stored), store.stored).Ok?
    && (if store.session.fenced then store.session.log <= store.stored && |store.stored| <= |store.session.log| + 1
        else store.stored == store.session.log)
  }

  lemma HeadsAgree(l: Ledger, log: seq<StoredOperation>)
    requires Reconstruction(HeadOf(l), log) == Ok(l)
    ensures HeadFor(l.state.identity, log) == HeadOf(l)
  {
    hide ReplayPrefix;
    PrefixShape(HeadOf(l), log);
  }

  /** Only an execution that reaches the append differs by how the append ended. */
  lemma OutcomeOfAppend(l: Ledger, fenced: bool, request: OperationRequest, ports: Ports, acceptance: Acceptance)
    ensures var e := Execution(l, fenced, request, ports, AcceptedNow);
            && (e.committed.None? ==> Execution(l, fenced, request, ports, acceptance) == e)
            && (e.committed.Some? && acceptance == IndeterminateCommit ==>
                  Execution(l, fenced, request, ports, acceptance) == Executed(Indeterminate, l, true, None))
            && (e.committed.Some? && acceptance.RefusedWith? ==>
                  Execution(l, fenced, request, ports, acceptance) == Executed(Refused(acceptance.error), l, false, None))
  {
    hide Plan, OpenChecks, Recall;
  }

  lemma SubmittingConsistent(store: Store, request: OperationRequest, ports: Ports, commit: Commit)
    requires Consistent(store)
    ensures Consistent(After(store, Submitting(request, ports, commit)))
  {
    hide Execution, ReplayPrefix, Reconstruction;
    var session := store.session;
    var acceptance := AcceptanceOf(commit);
    OutcomeOfAppend(session.ledger, session.fenced, request, ports, acceptance);
    NothingCommitted(session.ledger, request, ports, acceptance);
    NothingCommitted(session.ledger, request, ports, AcceptedNow);
    if !session.fenced {
      var accepted := Submit(session, Submission(request, ports, AcceptedNow));
      ExtendedByLive(session, Submission(request, ports, AcceptedNow));
      HeadsAgree(accepted.ledger, accepted.log);
      SameIdentity(session, Submission(request, ports, AcceptedNow));
      UnfencedByAcceptance(session.ledger, request, ports);
    }
  }

  lemma UnfencedByAcceptance(l: Ledger, request: OperationRequest, ports: Ports)
    ensures !Execution(l, false, request, ports, AcceptedNow).fenced
  {
    hide Plan, OpenChecks, Recall;
  }

  lemma SameIdentity(session: Session, submission: Submission)
    requires !session.fenced && submission.acceptance == AcceptedNow
    requires Reconstruction(HeadOf(session.ledger), session.log) == Ok(session.ledger)
    ensures Submit(session, submission).ledger.state.identity == session.ledger.state.identity
  {
    hide Execution, ReplayPrefix, ReplayRecord;
    var l := session.ledger;
    var e := Execution(l, false, submission.request, submission.ports, AcceptedNow);
    if e.committed.Some? {
      var head := HistoryHead(CURRENT_PROFILE, l.state.identity, |l.records| + 1, None);
      LiveIsReplayed(l, submission.request, submission.ports, AcceptedNow, head);
      RecordKeepsIdentity(l, head, e.committed.value);
    } else {
      NothingCommitted(l, submission.request, submission.ports, AcceptedNow);
    }
  }

  lemma ReopeningConsistent(store: Store)
    requires Consistent(store)
    ensures Consistent(After(store, Reopening))
    ensures After(store, Reopening).session.log == store.stored && !After(store, Reopening).session.fenced
  {
    hide ReplayPrefix, ReplayRecord;
    var head := HeadFor(store.session.ledger.state.identity, store.stored);
    PrefixShape(head, store.stored);
    HeadsAgree(Reconstruction(head, store.stored).value, store.stored);
  }

  /** Over any calls, commits, uncertain commits and reopenings, the live ledger is the reconstruction of the stored records. */
  lemma {:induction false} AlwaysConsistent(store: Store, calls: seq<Call>)
    requires Consistent(store)
    ensures Consistent(AfterAll(store, calls))
  {
    hide Consistent, After;
    if calls != [] {
      AlwaysConsistent(store, calls[..|calls| - 1]);
      var before := AfterAll(store, calls[..|calls| - 1]);
      match calls[|calls| - 1]
      case Submitting(request, ports, commit) => SubmittingConsistent(before, request, ports, commit);
      case Reopening => ReopeningConsistent(before);
    }
  }

  /** Stored records are never lost: later calls only append to them. */
  lemma {:induction false} StoredOnlyGrows(store: Store, calls: seq<Call>)
    ensures store.stored <= AfterAll(store, calls).stored
  {
    hide Execution, Reconstruction, Submit;
    if calls != [] {
      StoredOnlyGrows(store, calls[..|calls| - 1]);
    }
  }

  /** An answered submission of something new is in the store, and in the ledger of every later reopening. */
  lemma AnsweredIsReopened(store: Store, request: OperationRequest, ports: Ports, calls: seq<Call>)
    requires Consistent(store) && !store.session.fenced && request.operation.id !in store.session.ledger.records
    requires Execution(store.session.ledger, false, request, ports, AcceptedNow).reply.Answered?
    ensures Candidate(store.session, request, ports).Some?
    ensures var later := AfterAll(After(store, Submitting(request, ports, Confirmed)), calls);
            && store.stored + [Candidate(store.session, request, ports).value] <= later.stored
            && After(later, Reopening).session.log == later.stored
            && Consistent(After(later, Reopening))
  {
    hide Execution, Consistent;
    AnsweredCommits(store.session.ledger, request, ports);
    var next := After(store, Submitting(request, ports, Confirmed));
    SubmittingConsistent(store, request, ports, Confirmed);
    AlwaysConsistent(next, calls);
    StoredOnlyGrows(next, calls);
    ReopeningConsistent(AfterAll(next, calls));
  }

  lemma AnsweredCommits(l: Ledger, request: OperationRequest, ports: Ports)
    requires request.operation.id !in l.records
    requires Execution(l, false, request, ports, AcceptedNow).reply.Answered?
    ensures Execution(l, false, request, ports, AcceptedNow).committed.Some?
  {
    hide Plan, OpenChecks;
  }
}

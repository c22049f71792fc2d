/**
 * A session over the crash-safe store: every guarded append runs the two-phase protocol, every reopening reconstructs what
 * the database holds, and together they behave like a session over a store of records.
 */
module Sessions {
  import opened Base
  import opened Model
  import opened Records
  import opened Change
  import opened Replay
  import opened Histories
  import opened Rules
  import Backends
  import C = Commits
  import D = Durable
  import W = Witnesses

  /** The exact request frame a row keeps. */
  type Encoding = OperationRequest -> Bytes

  function RowFor(encode: Encoding, r: StoredOperation): C.Row {
    C.Row(W.Append, if RequestOf(r).Ok? then encode(RequestOf(r).value) else [])
  }

  function CutAfter(cut: W.Cut, r: StoredOperation): W.Cut {
    W.Cut(cut.revision + 1, r.sequence, cut.included, Some(r.operation.id))
  }

  // ----- guarded acceptance

  /** What stands before the append: the mode of the call, the prepared request, the rows, and the boundary's last word. */
  datatype Gate = Gate(readonly: bool, resolving: bool, prepared: Option<OperationRequest>, rows: bool, guard: Check)

  /** The record continues exactly the cut the writer holds, for the request that was prepared. */
  predicate Continues(w: W.Witness, request: OperationRequest, r: StoredOperation) {
    && RequestOf(r) == Ok(request)
    && w.subject.identity == Some(r.checks.identity)
    && r.checks.expectedOperation == w.cut.last
    && w.cut.count < U64_MAX && r.sequence == w.cut.count + 1
  }

  /** Why nothing is appended, if so. */
  function Refusal(w: W.Witness, r: StoredOperation, gate: Gate): Option<Error> {
    if gate.readonly || gate.resolving then Some(Denied)
    else if gate.prepared.None? then Some(Invalid)
    else if !Continues(w, gate.prepared.value, r) then Some(Conflict)
    else if !gate.rows || w.cut.revision >= U64_MAX then Some(Invalid)
    else if gate.guard.Fail? then Some(gate.guard.error)
    else None
  }

  function AcceptanceOf(reply: C.MutateReply): Acceptance {
    if reply.Accepted? then AcceptedNow else IndeterminateCommit
  }

  /** Only a record that continues the held cut reaches the protocol; anything but a finished mutation is indeterminate. */
  ghost predicate AcceptStep(encode: Encoding, a: C.World, r: StoredOperation, gate: Gate, acceptance: Acceptance, b: C.World) {
    && a.handle.Some?
    && var held := a.handle.value.held;
    match Refusal(held, r, gate)
    case Some(e) => acceptance == RefusedWith(e) && b == a
    case None =>
      exists reply {:trigger AcceptanceOf(reply)} ::
        acceptance == AcceptanceOf(reply) && C.MutateStep(a, RowFor(encode, r), CutAfter(held.cut, r), reply, b)
  }

  lemma LiveWitness(w: C.World)
    requires C.Sound(w) && C.LiveHandle(w)
    ensures W.Valid(w.handle.value.held) && w.handle.value.held.phase == W.Live && w.handle.value.held.pending.None?
  {
  }

  /** A record that continues the held cut prepares a valid witness, whatever it says. */
  lemma ContinuingIsAcceptable(encode: Encoding, w: W.Witness, r: StoredOperation, gate: Gate)
    requires W.Valid(w) && w.phase == W.Live && w.pending.None? && Refusal(w, r, gate).None?
    ensures |RowFor(encode, r).request| <= W.DESCRIPTOR && w.cut.revision < Backends.I64_MAX && w.cut.count < Backends.I64_MAX
            && Backends.RoomFor(w) && w.cut.included <= Backends.I64_MAX
            ==> Backends.Acceptable(w, RowFor(encode, r), CutAfter(w.cut, r))
    ensures w.cut.included == 0
  {
    hide RequestOf;
  }

  /** The boundary of one call over the writer. */
  class StorePorts {
    const store: Backends.Backend
    var committed: Option<StoredOperation>

    constructor (store: Backends.Backend)
      ensures this.store == store && committed.None?
    {
      this.store := store;
      committed := None;
    }

    method Accept(encode: Encoding, r: StoredOperation, gate: Gate, faults: Backends.MutateFaults) returns (acceptance: Acceptance)
      requires C.Sound(store.View())
      modifies this`committed, store`held, store`fenced, store.disk
      ensures C.Sound(store.View())
      ensures AcceptStep(encode, old(store.View()), r, gate, acceptance, store.View())
      ensures committed == if acceptance.AcceptedNow? then Some(r) else old(committed)
      ensures var held := old(store.held);
              && faults == Backends.NO_MUTATE_FAULTS && old(C.LiveHandle(store.View())) && Refusal(held, r, gate).None?
              && |RowFor(encode, r).request| <= W.DESCRIPTOR && held.cut.revision < Backends.I64_MAX && held.cut.count < Backends.I64_MAX
              && Backends.RoomFor(held) ==>
                acceptance == AcceptedNow
    {
      if C.LiveHandle(store.View()) && Refusal(store.held, r, gate).None? {
        LiveWitness(store.View());
        ContinuingIsAcceptable(encode, store.held, r, gate);
      }
      hide C.Sound, C.MutateStep, C.LiveHandle, Backends.Acceptable;
      if gate.readonly || gate.resolving {
        return RefusedWith(Denied);
      }
      if gate.prepared.None? {
        return RefusedWith(Invalid);
      }
      var request := gate.prepared.value;
      if !Continues(store.held, request, r) {
        return RefusedWith(Conflict);
      }
      if !gate.rows || store.held.cut.revision >= U64_MAX {
        return RefusedWith(Invalid);
      }
      if gate.guard.Fail? {
        return RefusedWith(gate.guard.error);
      }
      var after := store.held.cut.(revision := store.held.cut.revision + 1, count := r.sequence, last := Some(r.operation.id));
      var reply := store.Mutate(C.Row(W.Append, encode(request)), after, faults);
      acceptance := AcceptanceOf(reply);
      if acceptance.AcceptedNow? {
        committed := Some(r);
      }
    }
  }

  // ----- a session beside its two durable stores

  /** The application's session with the records its database holds, and the world of the protocol. */
  datatype Joined = Joined(store: D.Store, world: C.World)

  function Appends(rows: seq<C.Row>): seq<C.Row> {
    if rows == [] then []
    else
      var last := rows[|rows| - 1];
      Appends(rows[..|rows| - 1]) + (if last.mutation == W.Append then [last] else [])
  }

  function RowsFor(encode: Encoding, records: seq<StoredOperation>): seq<C.Row> {
    if records == [] then [] else RowsFor(encode, records[..|records| - 1]) + [RowFor(encode, records[|records| - 1])]
  }

  function LastOf(records: seq<StoredOperation>): Option<OperationId> {
    if records == [] then None else Some(records[|records| - 1].operation.id)
  }

  /** What the database says is what the records say. */
  ghost predicate Holds(encode: Encoding, held: C.Snapshot, records: seq<StoredOperation>) {
    && Appends(held.rows) == RowsFor(encode, records)
    && held.head.count == |records| && held.head.last == LastOf(records)
  }

  ghost predicate Agrees(encode: Encoding, j: Joined) {
    && C.Sound(j.world)
    && D.Consistent(j.store)
    && j.world.control.subject.identity == Some(j.store.session.ledger.state.identity)
    && Holds(encode, j.world.database.Contents(), j.store.stored)
  }

  datatype Event =
    | Submitting(request: OperationRequest, ports: Ports, gate: Gate, acceptance: Acceptance)
    | Reopening
    | Maintaining(event: C.Event)

  /** Everything else that may happen to the store: activation, checkpoints, closing, failed openings, crashes. */
  ghost predicate Maintenance(held: C.Snapshot, e: C.Event) {
    match e
    case Mutating(row, after, _) => row.mutation == W.MarkActive && after.count == held.head.count && after.last == held.head.last
    case Opening(succeeded) => !succeeded
    case _ => true
  }

  /** The records in the database after an append that may or may not have landed. */
  ghost function StoredAfter(a: Joined, r: StoredOperation, b: C.World): seq<StoredOperation>
  {
    if b.database == a.world.database then a.store.stored else a.store.stored + [r]
  }

  ghost predicate Step(encode: Encoding, a: Joined, e: Event, b: Joined) {
    match e
    case Submitting(request, ports, gate, acceptance) =>
      && a.world.handle.Some?
      && b.store.session == Submit(a.store.session, Submission(request, ports, acceptance))
      && (match D.Candidate(a.store.session, request, ports)
          case None => b.world == a.world && b.store.stored == a.store.stored
          case Some(r) => AcceptStep(encode, a.world, r, gate, acceptance, b.world) && b.store.stored == StoredAfter(a, r, b.world))
    case Reopening =>
      C.OpenStep(a.world, true, b.world) && b.store == D.After(a.store, D.Reopening)
    case Maintaining(event) =>
      a.world.database.Readable() && Maintenance(a.world.database.Contents(), event) && C.Step(a.world, event, b.world) && b.store == a.store
  }

  // ----- one step

  lemma SoundReads(w: C.World)
    requires C.Sound(w)
    ensures w.database.Readable()
  {
  }

  /** No step changes which pursuit a store belongs to. */
  lemma SubjectKept(a: C.World, e: C.Event, b: C.World)
    requires C.Sound(a) && C.Step(a, e, b)
    ensures b.control.subject == a.control.subject
  {
    hide C.Sound, W.Valid, C.Inspected, C.MainAlone;
  }

  lemma AppendedHolds(encode: Encoding, held: C.Snapshot, records: seq<StoredOperation>, r: StoredOperation, after: W.Cut)
    requires Holds(encode, held, records)
    requires after.count == |records| + 1 && after.last == Some(r.operation.id)
    ensures Holds(encode, C.Snapshot(after, held.rows + [RowFor(encode, r)]), records + [r])
  {
    var rows, more := held.rows + [RowFor(encode, r)], records + [r];
    assert rows[..|rows| - 1] == held.rows && more[..|more| - 1] == records;
  }

  lemma MarkedHolds(encode: Encoding, held: C.Snapshot, records: seq<StoredOperation>, row: C.Row, after: W.Cut)
    requires Holds(encode, held, records) && row.mutation != W.Append
    requires after.count == held.head.count && after.last == held.head.last
    ensures Holds(encode, C.Snapshot(after, held.rows + [row]), records)
  {
    var rows := held.rows + [row];
    assert rows[..|rows| - 1] == held.rows;
  }

  lemma AppendSteps(encode: Encoding, a: Joined, r: StoredOperation, gate: Gate, acceptance: Acceptance, b: C.World)
    requires Agrees(encode, a) && AcceptStep(encode, a.world, r, gate, acceptance, b)
    ensures C.Sound(b) && b.control.subject == a.world.control.subject
    ensures Holds(encode, b.database.Contents(), StoredAfter(a, r, b))
    ensures acceptance.RefusedWith? || acceptance.AcceptedNow? || acceptance.IndeterminateCommit?
    ensures acceptance.RefusedWith? ==> StoredAfter(a, r, b) == a.store.stored
    ensures acceptance.AcceptedNow? ==> StoredAfter(a, r, b) == a.store.stored + [r]
  {
    hide C.MutateStep, D.Consistent, Holds, C.Sound;
    var held := a.world.handle.value.held;
    if Refusal(held, r, gate).None? {
      var row, after := RowFor(encode, r), CutAfter(held.cut, r);
      var reply :| acceptance == AcceptanceOf(reply) && C.MutateStep(a.world, row, after, reply, b);
      var e := C.Mutating(row, after, reply);
      assert C.Step(a.world, e, b);
      C.StepKeepsSound(a.world, e, b);
      SubjectKept(a.world, e, b);
      C.MutationLands(a.world, row, after, reply, b);
      if !reply.Refused? {
        LiveHeadIsHeld(a.world, row, after, reply, b);
        SoundReads(a.world);
        HeldCount(encode, a.world.database.Contents(), a.store.stored);
        AppendedHolds(encode, a.world.database.Contents(), a.store.stored, r, after);
      }
    }
  }

  lemma HeldCount(encode: Encoding, held: C.Snapshot, records: seq<StoredOperation>)
    requires Holds(encode, held, records)
    ensures held.head.count == |records| && held.head.last == LastOf(records)
  {
  }

  lemma LiveHeadIsHeld(a: C.World, row: C.Row, after: W.Cut, reply: C.MutateReply, b: C.World)
    requires C.Sound(a) && C.MutateStep(a, row, after, reply, b) && !reply.Refused?
    ensures a.handle.value.held == a.control && a.database.Contents().head == a.control.cut
  {
  }

  /** How an append ended, in terms of the store of records. */
  function CommitFor(acceptance: Acceptance, grew: bool): D.Commit {
    match acceptance
    case AcceptedNow => D.Confirmed
    case IndeterminateCommit => D.Unknown(grew)
    case RefusedWith(e) => D.Declined(e)
    case NotAcceptedWith(e) => D.Declined(e)
  }

  lemma SubmittingRefines(encode: Encoding, a: Joined, request: OperationRequest, ports: Ports, gate: Gate, acceptance: Acceptance, b: Joined)
    returns (commit: D.Commit)
    requires Agrees(encode, a) && Step(encode, a, Submitting(request, ports, gate, acceptance), b)
    ensures b.store == D.After(a.store, D.Submitting(request, ports, commit))
    ensures C.Sound(b.world) && b.world.control.subject == a.world.control.subject
    ensures Holds(encode, b.world.database.Contents(), b.store.stored)
  {
    hide Execution, Holds, D.Consistent, AcceptStep, C.Sound;
    var session := a.store.session;
    match D.Candidate(session, request, ports)
    case None =>
      D.OutcomeOfAppend(session.ledger, session.fenced, request, ports, acceptance);
      commit := D.Confirmed;
    case Some(r) =>
      AppendSteps(encode, a, r, gate, acceptance, b.world);
      commit := CommitFor(acceptance, b.world.database != a.world.database);
      assert D.AcceptanceOf(commit) == acceptance;
  }

  lemma AfterKeepsIdentity(store: D.Store, call: D.Call)
    requires D.Consistent(store)
    ensures D.After(store, call).session.ledger.state.identity == store.session.ledger.state.identity
  {
    hide Execution, ReplayPrefix, Reconstruction;
    var session := store.session;
    match call
    case Submitting(request, ports, commit) =>
      var submission := Submission(request, ports, D.AcceptanceOf(commit));
      D.OutcomeOfAppend(session.ledger, session.fenced, request, ports, submission.acceptance);
      NothingCommitted(session.ledger, request, ports, submission.acceptance);
      NothingCommitted(session.ledger, request, ports, AcceptedNow);
      if !session.fenced && submission.acceptance == AcceptedNow {
        D.SameIdentity(session, submission);
      }
    case Reopening => ReopenedIdentity(store);
  }

  lemma ReopenedIdentity(store: D.Store)
    requires D.Consistent(store)
    ensures D.After(store, D.Reopening).session.ledger.state.identity == store.session.ledger.state.identity
  {
    hide ReplayPrefix;
    PrefixShape(D.HeadFor(store.session.ledger.state.identity, store.stored), store.stored);
  }

  /** Every step of the joined system is a step of a session over a store of records, or leaves that alone. */
  lemma StepRefines(encode: Encoding, a: Joined, e: Event, b: Joined)
    requires Agrees(encode, a) && Step(encode, a, e, b)
    ensures Agrees(encode, b)
    ensures b.store == a.store || exists call :: b.store == D.After(a.store, call)
  {
    hide D.Consistent, D.After, Holds, C.Sound, C.Step, AcceptStep, C.OpenStep, Submit;
    match e
    case Submitting(request, ports, gate, acceptance) =>
      var commit := SubmittingRefines(encode, a, request, ports, gate, acceptance, b);
      D.SubmittingConsistent(a.store, request, ports, commit);
      AfterKeepsIdentity(a.store, D.Submitting(request, ports, commit));
    case Reopening =>
      ReopeningSteps(encode, a, b);
      D.ReopeningConsistent(a.store);
      AfterKeepsIdentity(a.store, D.Reopening);
    case Maintaining(event) => MaintainingSteps(encode, a, event, b.world);
  }

  lemma ReopeningSteps(encode: Encoding, a: Joined, b: Joined)
    requires Agrees(encode, a) && Step(encode, a, Reopening, b)
    ensures C.Sound(b.world) && b.world.control.subject == a.world.control.subject
    ensures b.world.database.Contents() == a.world.database.Contents() && b.store.stored == a.store.stored
  {
    hide C.Sound, C.OpenStep, D.Consistent, Holds, Reconstruction;
    assert C.Step(a.world, C.Opening(true), b.world);
    C.StepKeepsSound(a.world, C.Opening(true), b.world);
    SubjectKept(a.world, C.Opening(true), b.world);
  }

  lemma MaintainingSteps(encode: Encoding, a: Joined, e: C.Event, b: C.World)
    requires Agrees(encode, a) && Maintenance(a.world.database.Contents(), e) && C.Step(a.world, e, b)
    ensures C.Sound(b) && b.control.subject == a.world.control.subject
    ensures Holds(encode, b.database.Contents(), a.store.stored)
  {
    hide C.Sound, C.Step, D.Consistent, Holds;
    C.StepKeepsSound(a.world, e, b);
    SubjectKept(a.world, e, b);
    if e.Mutating? {
      SoundReads(a.world);
      MarkedHolds(encode, a.world.database.Contents(), a.store.stored, e.row, e.after);
    }
  }

  // ----- acceptance is never refused for a prefix that moved

  /** What a live ledger plans over an unfenced session always continues the cut that the store holds. */
  lemma PlannedContinues(encode: Encoding, j: Joined, request: OperationRequest, ports: Ports, r: StoredOperation)
    requires Agrees(encode, j) && !j.store.session.fenced && C.LiveHandle(j.world)
    requires D.Candidate(j.store.session, request, ports) == Some(r)
    ensures Continues(j.world.handle.value.held, request, r)
  {
    hide Execution, ReplayPrefix, C.LiveHandle;
    var l := j.store.session.ledger;
    PrefixShape(HeadOf(l), j.store.session.log);
    PlannedRecord(l, request, ports, r);
    LiveHeadAgrees(j.world);
  }

  lemma LiveHeadAgrees(a: C.World)
    requires C.Sound(a) && C.LiveHandle(a)
    ensures a.handle.value.held == a.control && a.database.Contents().head == a.control.cut
  {
  }

  lemma PlannedRecord(l: Ledger, request: OperationRequest, ports: Ports, r: StoredOperation)
    requires Execution(l, false, request, ports, AcceptedNow).committed == Some(r)
    ensures RequestOf(r) == Ok(request)
    ensures r.checks.identity == l.state.identity && r.checks.expectedOperation == l.state.lastOperation
    ensures r.sequence == |l.records| + 1 <= U64_MAX
  {
    hide OpenChecks, Recall, Retain, Transition, PrepareCreation, Requirements, DerivationReferences, ProposalReferences, CheckIntakes,
      Collect, CreationClaims, RetainedBindings, UsedGrant, GrantSnapshot, BoundContents, ExactlyBound;
  }

  // ----- whole runs

  ghost predicate Run(encode: Encoding, states: seq<Joined>, events: seq<Event>) {
    && |states| == |events| + 1
    && Agrees(encode, states[0])
    && forall i, j {:trigger states[i], states[j]} :: 0 <= i < |events| && j == i + 1 ==> Step(encode, states[i], events[i], states[j])
  }

  /** Over every interleaving of submissions, commits, crashes, closings and reopenings the stores and the session agree. */
  lemma {:induction false} RunsAgree(encode: Encoding, states: seq<Joined>, events: seq<Event>, i: nat)
    requires Run(encode, states, events) && i < |states|
    ensures Agrees(encode, states[i])
    decreases i
  {
    hide Agrees, Step;
    if i > 0 {
      RunsAgree(encode, states, events, i - 1);
      StepRefines(encode, states[i - 1], events[i - 1], states[i]);
    }
  }

  lemma AfterOnlyAdds(store: D.Store, call: D.Call)
    ensures store.stored <= D.After(store, call).stored
  {
    hide Execution, Reconstruction, Submit;
  }

  lemma {:induction false} StoredOnlyGrows(encode: Encoding, states: seq<Joined>, events: seq<Event>, i: nat, j: nat)
    requires Run(encode, states, events) && i <= j < |states|
    ensures states[i].store.stored <= states[j].store.stored
    decreases j
  {
    hide Agrees, Step, D.After;
    if i < j {
      StoredOnlyGrows(encode, states, events, i, j - 1);
      RunsAgree(encode, states, events, j - 1);
      StepRefines(encode, states[j - 1], events[j - 1], states[j]);
      if states[j].store != states[j - 1].store {
        var call :| states[j].store == D.After(states[j - 1].store, call);
        AfterOnlyAdds(states[j - 1].store, call);
      }
    }
  }

  /** A record of a reconstructed log is the ledger's record for its operation. */
  lemma {:induction false} LogIsLedger(head: HistoryHead, log: seq<StoredOperation>, i: nat)
    requires ReplayPrefix(head, log).Ok? && i < |log|
    ensures log[i].operation.id in ReplayPrefix(head, log).value.records
    ensures ReplayPrefix(head, log).value.records[log[i].operation.id] == log[i]
    decreases |log|
  {
    hide ReplayRecord;
    var earlier := log[..|log| - 1];
    RecordJoins(ReplayPrefix(head, earlier).value, head, log[|log| - 1]);
    if i < |earlier| {
      LogIsLedger(head, earlier, i);
    }
  }

  /** The caller was told that the operation is accepted, and it was new. */
  ghost predicate NewlyAnswered(a: Joined, e: Event, r: StoredOperation) {
    && e.Submitting?
    && D.Candidate(a.store.session, e.request, e.ports) == Some(r)
    && Execution(a.store.session.ledger, a.store.session.fenced, e.request, e.ports, e.acceptance).reply.Answered?
  }

  lemma AnsweredIsStored(encode: Encoding, a: Joined, e: Event, b: Joined, r: StoredOperation)
    requires Agrees(encode, a) && Step(encode, a, e, b) && NewlyAnswered(a, e, r)
    ensures b.store.stored == a.store.stored + [r]
  {
    hide AcceptStep, Holds, D.Consistent, C.Sound, Execution;
    AppendSteps(encode, a, r, e.gate, e.acceptance, b.world);
    D.OutcomeOfAppend(a.store.session.ledger, a.store.session.fenced, e.request, e.ports, e.acceptance);
  }

  /** The record is in the database, in the log it reconstructs from, and in the ledger under its own operation. */
  ghost predicate Recovered(encode: Encoding, b: Joined, r: StoredOperation) {
    && !b.store.session.fenced
    && r in b.store.session.log
    && r.operation.id in b.store.session.ledger.records && b.store.session.ledger.records[r.operation.id] == r
    && b.world.database.Readable() && RowFor(encode, r) in b.world.database.Contents().rows
  }

  /** An operation answered as accepted is in the ledger of every later reopening, with the result that was answered. */
  lemma AnsweredSurvives(encode: Encoding, states: seq<Joined>, events: seq<Event>, i: nat, j: nat, r: StoredOperation)
    requires Run(encode, states, events) && i < j < |events|
    requires NewlyAnswered(states[i], events[i], r) && events[j] == Reopening
    ensures Recovered(encode, states[j + 1], r)
  {
    hide Agrees, Step, NewlyAnswered, Recovered;
    RunsAgree(encode, states, events, i);
    AnsweredIsStored(encode, states[i], events[i], states[i + 1], r);
    StoredOnlyGrows(encode, states, events, i + 1, j + 1);
    var stored := states[j + 1].store.stored;
    var k := |states[i].store.stored|;
    assert stored[k] == r;
    RunsAgree(encode, states, events, j);
    RunsAgree(encode, states, events, j + 1);
    ReopenedHolds(encode, states[j], states[j + 1], k);
  }

  lemma ReopenedHolds(encode: Encoding, a: Joined, b: Joined, k: nat)
    requires Agrees(encode, a) && Agrees(encode, b) && Step(encode, a, Reopening, b) && k < |b.store.stored|
    ensures Recovered(encode, b, b.store.stored[k])
  {
    hide C.Sound, C.OpenStep, ReplayPrefix, Holds, RowFor;
    SoundReads(b.world);
    D.ReopeningConsistent(a.store);
    ReconstructedHolds(b.store, k);
    StoredRow(encode, b.world.database.Contents(), b.store.stored, k);
  }

  lemma ReconstructedHolds(store: D.Store, k: nat)
    requires D.Consistent(store) && store.session.log == store.stored && k < |store.stored|
    ensures var r := store.stored[k];
            r.operation.id in store.session.ledger.records && store.session.ledger.records[r.operation.id] == r
  {
    hide ReplayPrefix;
    LogIsLedger(HeadOf(store.session.ledger), store.stored, k);
  }

  lemma StoredRow(encode: Encoding, held: C.Snapshot, records: seq<StoredOperation>, k: nat)
    requires Holds(encode, held, records) && k < |records|
    ensures RowFor(encode, records[k]) in held.rows
  {
    hide RowFor;
    RowsHold(encode, records, k);
    AppendsAreRows(held.rows, RowFor(encode, records[k]));
  }

  /** An operation that an unfenced session does not know was never appended: it may be reported as not accepted. */
  lemma UnknownWasNeverAppended(encode: Encoding, j: Joined, id: OperationId)
    requires Agrees(encode, j) && !j.store.session.fenced && id !in j.store.session.ledger.records
    ensures forall k :: 0 <= k < |j.store.stored| ==> j.store.stored[k].operation.id != id
  {
    hide C.Sound, Holds, Reconstruction;
    forall k | 0 <= k < |j.store.stored| ensures j.store.stored[k].operation.id != id {
      ReconstructedHolds(j.store, k);
    }
  }

  lemma {:induction false} RowsHold(encode: Encoding, records: seq<StoredOperation>, k: nat)
    requires k < |records|
    ensures RowFor(encode, records[k]) in RowsFor(encode, records)
  {
    hide RowFor;
    if k < |records| - 1 {
      RowsHold(encode, records[..|records| - 1], k);
    }
  }

  lemma {:induction false} AppendsAreRows(rows: seq<C.Row>, row: C.Row)
    requires row in Appends(rows)
    ensures row in rows
  {
    if rows != [] && row in Appends(rows[..|rows| - 1]) {
      AppendsAreRows(rows[..|rows| - 1], row);
    }
  }
}

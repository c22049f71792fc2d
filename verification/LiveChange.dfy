/** The live handle: its fields are updated step by step, and always equal what reconstruction of its log gives. */
module LiveChange {
  import opened Base
  import opened Model
  import opened Rules
  import opened Records
  import opened Change
  import opened Histories
  import Creations
  import Kernels

  /** Takes in each key of a list, asking the boundary for those not yet held. */
  method GatherAll(s: State, op: Option<Operation>, keys: seq<ContentKey>, ports: Ports, start: Checks) returns (r: Checked<Checks>)
    ensures r == Gathered(s, op, keys, ports, start)
  {
    hide GatheredOne;
    var checks := start;
    var i := 0;
    while i < |keys|
      invariant 0 <= i <= |keys|
      invariant Gathered(s, op, keys, ports, start) == Gathered(s, op, keys[i..], ports, checks)
    {
      var one := GatheredOne(s, op, keys[i], ports, checks);
      assert keys[i..][1..] == keys[i + 1..];
      if one.Err? {
        return Err(one.error);
      }
      checks := one.value;
      i := i + 1;
    }
    r := Ok(checks);
  }

  method ObserveAll(ids: seq<GroundId>, ports: Ports, start: Checks) returns (r: Checked<Checks>)
    ensures r == ObservedGrounds(ids, ports, start)
  {
    var checks := start;
    var i := 0;
    while i < |ids|
      invariant 0 <= i <= |ids|
      invariant ObservedGrounds(ids, ports, start) == ObservedGrounds(ids[i..], ports, checks)
    {
      var version := ports.ground(ids[i]);
      assert ids[i..][1..] == ids[i + 1..];
      if version.Err? {
        return Err(version.error);
      }
      checks := checks.(grounds := checks.grounds[ids[i] := version.value]);
      i := i + 1;
    }
    r := Ok(checks);
  }

  /** Asks for everything the operation needs, in order, and stops at the first refusal. */
  method CollectAll(l: Ledger, op: Operation, start: Checks, ports: Ports) returns (r: Checked<Checks>)
    ensures r == Collect(l, op, start, ports)
  {
    hide Gathered, ObservedGrounds, Requirements, PrepareCreation, TermReferences, CollectAdaptation, CollectNative, ActionOf, InOrder,
      DerivedOrder, Rising;
    var s := l.state;
    if op.command.Propose? && exists r :: r in TermReferences(op.command.proposal.terms) && r.identity != s.identity {
      return Err(Invalid);
    }
    var creation := Creations.Prepare(s, op, start.context.authority);
    if creation.Err? {
      return Err(creation.error);
    }
    var needs := Requirements(s, op.command);
    if needs.Err? {
      return Err(needs.error);
    }
    var checks := start.(creation := creation.value);
    var gathered := GatherAll(s, Some(op), InOrder(needs.value.contents) + DerivedOrder(op.freshContent), ports, checks);
    if gathered.Err? {
      return gathered;
    }
    var observed := ObserveAll(Rising(needs.value.grounds), ports, gathered.value);
    if observed.Err? {
      return observed;
    }
    var adapted := AdaptAll(s, op, observed.value, ports);
    if adapted.Err? {
      return adapted;
    }
    var native := ConditionAll(s, op, adapted.value, ports);
    if native.Err? {
      return native;
    }
    if !(FreshKeys(op.freshContent) <= native.value.contentItems.Keys) {
      return Err(Invalid);
    }
    r := native;
  }

  method AdaptAll(s: State, op: Operation, start: Checks, ports: Ports) returns (r: Checked<Checks>)
    ensures r == CollectAdaptation(s, op, start, ports)
  {
    hide Gathered;
    if !op.command.Adapt? {
      return Ok(start);
    }
    if ports.discretion.Err? {
      return Err(ports.discretion.error);
    }
    var judgment := ports.discretion.value;
    var gathered := GatherAll(s, Some(op), if judgment.WithinDiscretion? then EvidenceOrder([judgment.evidence]) else [], ports, start);
    if gathered.Err? {
      return gathered;
    }
    r := Ok(gathered.value.(adaptation := Some((op.command.adaptation, judgment))));
  }

  method ConditionAll(s: State, op: Operation, start: Checks, ports: Ports) returns (r: Checked<Checks>)
    ensures r == CollectNative(s, op, start, ports)
  {
    hide Gathered, ActionOf;
    var request := ActionOf(s, op.command);
    if request.Err? {
      return Err(request.error);
    }
    if request.value.None? {
      return Ok(start);
    }
    if ports.native.Err? {
      return Err(ports.native.error);
    }
    var conditions := ports.native.value;
    var gathered := GatherAll(s, Some(op), EvidenceOrder(conditions.evidence), ports, start);
    if gathered.Err? {
      return gathered;
    }
    r := Ok(gathered.value.(native := Some((request.value.value, conditions))));
  }

  /** Plans on a private candidate; nothing is published. */
  method Propound(l: Ledger, request: OperationRequest, start: Checks, ports: Ports) returns (r: Checked<(StoredOperation, Ledger)>)
    ensures r == Plan(l, request, start, ports)
  {
    hide Collect, ValidateCurrent, Transition, Kernels.Written, UsedGrant, GrantSnapshot, CreationClaims, RetainedBindings, RequestOf, Retain;
    var op := request.operation;
    var checks := CollectAll(l, op, start, ports);
    if checks.Err? {
      return Err(checks.error);
    }
    var valid := ValidateCurrent(l, op, checks.value);
    if valid.Fail? {
      return Err(valid.error);
    }
    var candidate := new Kernels.Kernel(l.state);
    var effect := candidate.Transition(op.command, ValidationOf(checks.value));
    if effect.Err? {
      return Err(effect.error);
    }
    if ports.authorize.Fail? {
      return Err(ports.authorize.error);
    }
    if |l.records| >= U64_MAX {
      return Err(Invalid);
    }
    var record := RecordOf(l, request, checks.value, candidate.View(), effect.value);
    if RequestOf(record) != Ok(request) {
      return Err(Invalid);
    }
    EstablishmentsTakenIn(l, op, checks.value);
    r := Ok((record, Ledger(Retain(candidate.View(), record), l.records[op.id := record])));
  }

  class Handle {
    var state: State
    var records: map<OperationId, StoredOperation>
    var fenced: bool
    ghost var log: seq<StoredOperation>

    ghost function View(): Session
      reads this
    {
      Session(Ledger(state, records), fenced, log)
    }

    /** What the handle holds is what its committed log reconstructs to. */
    ghost predicate Valid()
      reads this
    {
      Reconstruction(HeadOf(Ledger(state, records)), log) == Ok(Ledger(state, records))
    }

    constructor (s: State)
      requires NewState(s.identity) == Ok(s)
      ensures Opened(s.identity) == Ok(View()) && Valid()
    {
      state := s;
      records := map[];
      fenced := false;
      log := [];
      new;
      StartsValid(s);
    }

    /** One submission; only guarded acceptance publishes, and an uncertain one fences the handle. */
    method Execute(request: OperationRequest, ports: Ports, acceptance: Acceptance) returns (reply: Reply)
      requires Valid()
      modifies this
      ensures Valid()
      ensures View() == Submit(old(View()), Submission(request, ports, acceptance))
      ensures reply == Execution(old(Ledger(state, records)), old(fenced), request, ports, acceptance).reply
    {
      hide ReplayRecord, Reconstruction, Plan, OpenChecks, Recall;
      if fenced {
        return Fenced;
      }
      SubmittedValid(View(), Submission(request, ports, acceptance));
      if request.profile != CURRENT_PROFILE || request.target != state.identity.Key() {
        return Refused(Conflict);
      }
      var checks := OpenChecks(state, request.operation.id, ports);
      if checks.Err? {
        return Refused(checks.error);
      }
      if request.actor != checks.value.context.authority.actor
         || request.representedOwner != checks.value.context.authority.representedOwner {
        return Refused(Denied);
      }
      if request.operation.id in records {
        var recalled := Recall(Ledger(state, records), records[request.operation.id], request, checks.value, ports);
        return if recalled.Err? then Refused(recalled.error) else Answered(recalled.value);
      }
      var planned := Propound(Ledger(state, records), request, checks.value, ports);
      if planned.Err? {
        return Refused(planned.error);
      }
      var record, next := planned.value.0, planned.value.1;
      match acceptance {
        case AcceptedNow =>
          state, records := next.state, next.records;
          log := log + [record];
          return Answered(record.accepted);
        case RefusedWith(e) => return Refused(e);
        case NotAcceptedWith(e) => return NotAccepted(e);
        case IndeterminateCommit =>
          fenced := true;
          return Indeterminate;
      }
    }
  }

  lemma StartsValid(s: State)
    requires NewState(s.identity) == Ok(s)
    ensures Reconstruction(HeadOf(Ledger(s, map[])), []) == Ok(Ledger(s, map[]))
  {
    hide ReplayRecord;
  }

  lemma SubmittedValid(session: Session, submission: Submission)
    requires Reconstruction(HeadOf(session.ledger), session.log) == Ok(session.ledger)
    ensures var next := Submit(session, submission);
            Reconstruction(HeadOf(next.ledger), next.log) == Ok(next.ledger)
  {
    hide Execution, ReplayRecord, Reconstruction;
    if session.fenced {
      NothingCommitted(session.ledger, submission.request, submission.ports, submission.acceptance);
    } else {
      ExtendedByLive(session, submission);
    }
  }

  /** Reopens a handle from retained records, or refuses the whole of them. */
  method Reconstruct(head: HistoryHead, stored: seq<StoredOperation>) returns (r: Checked<Handle>)
    ensures r.Ok? <==> Reconstruction(head, stored).Ok?
    ensures r.Err? ==> r.error == Reconstruction(head, stored).error
    ensures r.Ok? ==> fresh(r.value) && r.value.Valid()
    ensures r.Ok? ==> r.value.View() == Session(Reconstruction(head, stored).value, false, stored)
  {
    hide ReplayRecord;
    if head.profile != CURRENT_PROFILE {
      return Err(Invalid);
    }
    var start := NewState(head.identity);
    if start.Err? {
      RefusedFromTheStart(head, stored);
      return Err(start.error);
    }
    var handle := new Handle(start.value);
    var i := 0;
    while i < |stored|
      invariant 0 <= i <= |stored| && fresh(handle) && !handle.fenced
      invariant ReplayPrefix(head, stored[..i]) == Ok(Ledger(handle.state, handle.records))
    {
      var l := Ledger(handle.state, handle.records);
      var next := ReplayRecord(l, head, stored[i]);
      assert stored[..i + 1][..i] == stored[..i];
      if next.Err? {
        RefusedInside(head, stored, i + 1);
        return Err(next.error);
      }
      handle.state, handle.records := next.value.state, next.value.records;
      i := i + 1;
    }
    assert stored[..i] == stored;
    if |handle.records| != head.acceptedOperations || handle.state.lastOperation != head.lastOperation {
      return Err(Invalid);
    }
    handle.log := stored;
    PrefixShape(head, stored);
    r := Ok(handle);
  }

  lemma {:induction false} RefusedFromTheStart(head: HistoryHead, stored: seq<StoredOperation>)
    requires NewState(head.identity).Err?
    ensures ReplayPrefix(head, stored) == Err(NewState(head.identity).error)
  {
    hide ReplayRecord;
    if stored != [] {
      RefusedFromTheStart(head, stored[..|stored| - 1]);
    }
  }

  lemma {:induction false} RefusedInside(head: HistoryHead, stored: seq<StoredOperation>, n: nat)
    requires n <= |stored| && ReplayPrefix(head, stored[..n]).Err?
    ensures ReplayPrefix(head, stored) == Err(ReplayPrefix(head, stored[..n]).error)
  {
    hide ReplayRecord;
    if n == |stored| {
      assert stored[..n] == stored;
    } else {
      assert stored[..|stored| - 1][..n] == stored[..n];
      RefusedInside(head, stored[..|stored| - 1], n);
    }
  }
}

/** Accepted histories as runs of the kernel: typed identities and grant generations are created once. */
module Identities {
  import opened Base
  import opened Model
  import opened Rules
  import opened Records
  import opened Change
  import opened Pursuits
  import Catalogue
  import Histories
  import Runs
  import opened Traces

  // ----- histories are kernel runs

  function MoveOf(r: StoredOperation): Move {
    Move(r.operation.command, ValidationOf(r.checks))
  }

  /** The kernel states before and after each record of a history. */
  ghost predicate RunOf(head: HistoryHead, records: seq<StoredOperation>, states: seq<State>, moves: seq<Move>) {
    && Run(states, moves)
    && |moves| == |records|
    && (forall i :: 0 <= i < |records| ==> moves[i] == MoveOf(records[i]))
    && (forall i :: 0 <= i <= |records| ==> ReplayPrefix(head, records[..i]).Ok? && ReplayPrefix(head, records[..i]).value.state == states[i])
  }

  lemma RecordSteps(l: Ledger, head: HistoryHead, r: StoredOperation)
    requires ReplayRecord(l, head, r).Ok?
    ensures Steps(l.state, MoveOf(r), ReplayRecord(l, head, r).value.state)
  {
    hide ReplayRecord, ValidateCurrent, Transition, CreationClaims, EstablishmentClaims, RetainedBindings;
    var s := Histories.RecordParts(l, head, r);
  }

  lemma HistoryStarts(head: HistoryHead)
    requires ReplayPrefix(head, []).Ok?
    ensures Starts(ReplayPrefix(head, []).value.state)
  {
    hide ReplayRecord;
  }

  /** An accepted history drives the kernel through a run, so every property of runs is a property of histories. */
  lemma HistoryIsRun(head: HistoryHead, records: seq<StoredOperation>) returns (states: seq<State>, moves: seq<Move>)
    requires ReplayPrefix(head, records).Ok?
    ensures RunOf(head, records, states, moves)
  {
    hide ReplayRecord, ReplayPrefix, Steps, Starts;
    forall i | 0 <= i <= |records| ensures ReplayPrefix(head, records[..i]).Ok? {
      Histories.EarlierPrefix(head, records, i);
    }
    states := seq(|records| + 1, i requires 0 <= i <= |records| => ReplayPrefix(head, records[..i]).value.state);
    moves := seq(|records|, i requires 0 <= i < |records| => MoveOf(records[i]));
    assert records[..0] == [];
    HistoryStarts(head);
    forall i, j | 0 <= i < |moves| && j == i + 1 ensures Steps(states[i], moves[i], states[j]) {
      Catalogue.RecordAt(head, records, i);
      RecordSteps(ReplayPrefix(head, records[..i]).value, head, records[i]);
    }
  }

  // ----- which typed identities exist

  ghost predicate Exists(s: State, x: CreatedIdentity) {
    match x
    case OfOperation(id) => id in s.history
    case OfProposal(id) => id in s.proposals
    case OfAgreement(id) => exists p :: p in s.proposals && s.proposals[p].agreement == id
    case OfAssessment(id) => id in s.assessments
    case OfDecision(id) => id in s.decisions
    case OfGrant(id) => id in s.grants
    case OfAction(id) => id in s.actions
    case OfCriterion(id) => exists p, c :: p in s.proposals && c in s.proposals[p].terms.criteria && c.id == id
  }

  lemma ExistsForward(s: State, t: State, x: CreatedIdentity)
    requires Forward(s, t) && Exists(s, x)
    ensures x.OfOperation? || Exists(t, x)
  {
    match x
    case OfAgreement(id) =>
      var p :| p in s.proposals && s.proposals[p].agreement == id;
      assert p in t.proposals;
    case OfCriterion(id) =>
      var p, c :| p in s.proposals && c in s.proposals[p].terms.criteria && c.id == id;
      assert p in t.proposals && c in t.proposals[p].terms.criteria;
    case _ =>
  }

  lemma CriteriaClaimed(s: State, p: Proposal, id: CriterionId)
    ensures id in NewCriteria(s, p.terms) <==> !Exists(s, OfCriterion(id)) && exists c :: c in p.terms.criteria && c.id == id
  {
    if Exists(s, OfCriterion(id)) {
      var q, c :| q in s.proposals && c in s.proposals[q].terms.criteria && c.id == id;
      assert c in CriteriaOf(s);
    }
  }

  lemma ProposalClaims(s: State, p: Proposal, access: Access, v: Validation, x: CreatedIdentity)
    requires StepPropose(s, p, access, v).Ok?
    requires x in {OfProposal(p.id), OfAgreement(p.agreement)} || (x.OfCriterion? && x.criterion in NewCriteria(s, p.terms))
    ensures !Exists(s, x) && Exists(StepPropose(s, p, access, v).value.0, x)
  {
    hide StepPropose, NewCriteria;
    ProposeWrites(s, p, access, v);
    var t := s.(proposals := s.proposals[p.id := p]);
    assert t.proposals[p.id] == p;
    if x.OfCriterion? {
      CriteriaClaimed(s, p, x.criterion);
      var c :| c in p.terms.criteria && c.id == x.criterion;
      assert c in t.proposals[p.id].terms.criteria;
    }
  }

  lemma DecisionClaims(s: State, d: Decision, v: Validation)
    requires StepDecide(s, d, v).Ok?
    ensures d.id !in s.decisions && d.id in StepDecide(s, d, v).value.0.decisions
  {
    hide Activate, DependenciesValid, DecisionDependencies, ObservedCheck, KindBlockers, CheckParty;
    var written := NewDecision(s, d, v).value;
    assert DecisionAdmissible(s, d, v.authority).Pass?;
    Histories.ActivationLeavesCatalogue(WithDecision(s, d.id, written), d.proposal, v);
  }

  /** What an accepted command claims to create did not exist before and exists after. */
  lemma ClaimsAreNew(s: State, op: Operation, v: Validation, x: CreatedIdentity)
    requires Transition(s, op.command, v).Ok?
    requires x in CreationClaims(s, op) && !x.OfOperation?
    ensures !Exists(s, x) && Exists(Transition(s, op.command, v).value.0, x)
  {
    hide StepPropose, StepAssess, StepDecide, StepSetGrant, StepAdmit;
    match op.command
    case Propose(p, access) => ProposalClaims(s, p, access, v, x);
    case Assess(a, access) => AssessWrites(s, a, access, v);
    case Decide(d) => DecisionClaims(s, d, v);
    case SetGrant(id, expected, spec) => Runs.SetGrantWrites(s, id, expected, spec, v);
    case Admit(a) => AdmitWrites(s, a, v);
    case _ =>
  }

  lemma OperationIsClaimed(s: State, op: Operation)
    ensures OfOperation(op.id) in CreationClaims(s, op)
    ensures forall id :: OfOperation(id) in CreationClaims(s, op) ==> id == op.id
  {
  }

  /** Each typed identity is created by one record of a history. */
  lemma IdentitiesAreCreatedOnce(head: HistoryHead, records: seq<StoredOperation>, i: nat, j: nat, x: CreatedIdentity)
    requires ReplayPrefix(head, records).Ok? && i < j < |records|
    requires x in records[i].creations
    ensures x !in records[j].creations
  {
    hide ReplayRecord, ReplayPrefix, Exists, CreationClaims, Transition, Forward, ValidateCurrent, Steps, Starts;
    var states, moves := HistoryIsRun(head, records);
    Catalogue.RecordAt(head, records, i);
    Catalogue.RecordAt(head, records, j);
    var before, later := ReplayPrefix(head, records[..i]).value, ReplayPrefix(head, records[..j]).value;
    var s := Histories.RecordParts(before, head, records[i]);
    var t := Histories.RecordParts(later, head, records[j]);
    OperationIsClaimed(states[i], records[i].operation);
    OperationIsClaimed(states[j], records[j].operation);
    if x.OfOperation? {
      Catalogue.CatalogueOnlyGrows(head, records[..j], i + 1);
      assert records[..j][..i + 1] == records[..i + 1];
      Catalogue.HistoryIsCatalogued(head, records[..j]);
      assert x.operation in ReplayPrefix(head, records[..i + 1]).value.state.history;
    } else {
      ClaimsAreNew(states[i], records[i].operation, ValidationOf(records[i].checks), x);
      RetentionLeavesKernel(s, records[i], x);
      RunsMoveForward(states, moves, i + 1, j);
      ExistsForward(states[i + 1], states[j], x);
      if x in records[j].creations {
        ClaimsAreNew(states[j], records[j].operation, ValidationOf(records[j].checks), x);
      }
    }
  }

  lemma RetentionLeavesKernel(s: State, r: StoredOperation, x: CreatedIdentity)
    requires r.establishments <= r.checks.intakes.Keys && !x.OfOperation?
    ensures Exists(Retain(s, r), x) <==> Exists(s, x)
  {
  }

  // ----- grant generations

  /** The grant a record wrote: set, or revoked under a generation of its own. */
  function WrittenGrant(r: StoredOperation): Option<GrantUse> {
    match r.accepted.effect
    case Granted(used) => Some(used)
    case Revoked(used) => Some(used)
    case _ => None
  }

  /** What a grant effect says about the grants before and after it. */
  ghost predicate Regenerated(before: Grants, after: Grants, used: GrantUse) {
    && used.id in after && after[used.id].generation == used.generation
    && (used.id in before ==> !before[used.id].revoked && before[used.id].generation < used.generation)
  }

  lemma OnlyGrantCommandsWriteGrants(s: State, c: Command, v: Validation)
    requires Perform(s, c, v).Ok? && !c.SetGrant? && !c.RevokeGrant?
    ensures !Perform(s, c, v).value.1.Granted? && !Perform(s, c, v).value.1.Revoked?
  {
    hide RecordAccess, CurrentGrounds, NativeGrant, ProposalAdmissible, CoversContentItems, ValidateOriginSelectors, TargetAllowed, Resolved,
      CriterionIds, AgreementDependencies, Activate, NewDecision, RenewedDecision, GrantFor;
  }

  lemma GrantEffects(s: State, c: Command, v: Validation, used: GrantUse)
    requires Transition(s, c, v).Ok?
    requires Transition(s, c, v).value.1 == Granted(used) || Transition(s, c, v).value.1 == Revoked(used)
    ensures Regenerated(s.grants, Transition(s, c, v).value.0.grants, used)
    ensures Transition(s, c, v).value.1.Revoked? ==> Transition(s, c, v).value.0.grants[used.id].revoked
  {
    hide StepSetGrant, StepRevokeGrant, StepPropose, StepAssess, StepDecide, StepReaffirm, StepRetract, StepAdmit, StepDispatch, StepFinding,
      StepAdapt, StepProgress, StepFulfill, StepReconcile, StepInitiate, StepWithdraw;
    match c
    case SetGrant(id, expected, spec) => Runs.SetGrantWrites(s, id, expected, spec, v);
    case RevokeGrant(id, expected) => Runs.RevokeGrantWrites(s, id, expected, v);
    case _ => OnlyGrantCommandsWriteGrants(s, c, v);
  }

  /** Generations of one grant strictly rise along a history, and nothing is written for a grant after its revocation. */
  lemma GenerationsRise(head: HistoryHead, records: seq<StoredOperation>, i: nat, j: nat)
    requires ReplayPrefix(head, records).Ok? && i < j < |records|
    requires WrittenGrant(records[i]).Some? && WrittenGrant(records[j]).Some?
    requires WrittenGrant(records[i]).value.id == WrittenGrant(records[j]).value.id
    ensures WrittenGrant(records[i]).value.generation < WrittenGrant(records[j]).value.generation
    ensures records[i].accepted.effect.Granted?
  {
    hide ReplayRecord, ReplayPrefix, Transition, ValidateCurrent, Steps, Starts, CreationClaims;
    var states, moves := HistoryIsRun(head, records);
    Catalogue.RecordAt(head, records, i);
    Catalogue.RecordAt(head, records, j);
    var s := Histories.RecordParts(ReplayPrefix(head, records[..i]).value, head, records[i]);
    var t := Histories.RecordParts(ReplayPrefix(head, records[..j]).value, head, records[j]);
    GrantEffects(states[i], records[i].operation.command, ValidationOf(records[i].checks), WrittenGrant(records[i]).value);
    GrantEffects(states[j], records[j].operation.command, ValidationOf(records[j].checks), WrittenGrant(records[j]).value);
    RunsMoveForward(states, moves, i + 1, j);
  }
}

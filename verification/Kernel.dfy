/**
 * The kernel in place: its fields change step by step, in the order of the rules. A decision is written before its
 * activation is tried, yet at every state a run can reach a refused command leaves nothing behind.
 */
module Kernels {
  import opened Base
  import opened Model
  import opened Rules
  import opened Pursuits
  import Runs
  import Traces

  /** The checks that come before any command is looked at. */
  function Guarded(s: State, c: Command, v: Validation): Check {
    if v.authority.representedOwner != s.identity.owner then Fail(Denied)
    else if s.settlement.Some? && !AllowedWhenSettled(c) then Fail(Terminal)
    else Need(s.initiated || AllowedBeforeStart(c), Invalid)
  }

  /** The decision entry a command writes before it tries to activate the proposal. */
  function Written(s: State, c: Command, v: Validation): Option<(DecisionId, EffectiveDecision)> {
    match c
    case Decide(d) =>
      var written := NewDecision(s, d, v);
      if written.Ok? then Some((d.id, written.value)) else None
    case Reaffirm(id, dependencies, renewal) =>
      var written := RenewedDecision(s, id, dependencies, renewal, v);
      if written.Ok? then Some((id, written.value)) else None
    case _ => None
  }

  /** What a command leaves, accepted or refused. */
  function After(s: State, c: Command, v: Validation): State {
    var t := Transition(s, c, v);
    if t.Ok? then t.value.0
    else if Guarded(s, c, v).Pass? then WithWritten(s, Written(s, c, v))
    else s
  }

  function WithWritten(s: State, written: Option<(DecisionId, EffectiveDecision)>): State {
    if written.None? then s else WithDecision(s, written.value.0, written.value.1)
  }

  /** A method did what the rules say: on success their effect and state, on refusal their error and the given state. */
  ghost predicate Did(t: Stepped, otherwise: State, r: Checked<Effect>, after: State) {
    if t.Ok? then r == Ok(t.value.1) && after == t.value.0 else r == Err(t.error) && after == otherwise
  }

  lemma GuardedFirst(s: State, c: Command, v: Validation)
    ensures Transition(s, c, v) == if Guarded(s, c, v).Pass? then Perform(s, c, v) else Err(Guarded(s, c, v).error)
  {
    hide Perform;
  }

  class Kernel {
    const identity: Identity
    var initiated: bool
    var current: Option<AgreementId>
    var settlement: Option<Settlement>
    var proposals: map<ProposalId, Proposal>
    var assessments: map<AssessmentId, Assessment>
    var decisions: map<DecisionId, EffectiveDecision>
    var agreements: map<AgreementId, Agreement>
    var grants: map<GrantId, Grant>
    var actions: map<ActionId, Action>
    var history: map<OperationId, (Operation, Accepted)>
    var lastOperation: Option<OperationId>
    var contentItems: map<ContentKey, Bytes>
    var created: map<ContentKey, RecordedContent>
    var established: map<ContentKey, ContentEstablishment>

    function View(): State
      reads this
    {
      State(identity, initiated, current, settlement, proposals, assessments, decisions, agreements, grants, actions,
            history, lastOperation, contentItems, created, established)
    }

    /** A private copy of a state. */
    constructor (s: State)
      ensures View() == s
    {
      identity, initiated, current, settlement := s.identity, s.initiated, s.current, s.settlement;
      proposals, assessments, decisions := s.proposals, s.assessments, s.decisions;
      agreements, grants, actions := s.agreements, s.grants, s.actions;
      history, lastOperation := s.history, s.lastOperation;
      contentItems, created, established := s.contentItems, s.created, s.established;
    }

    /** The last adoption and the last undertaking of a proposal whose grounds are observed. */
    method FindMatching(proposal: ProposalId, v: Validation) returns (r: Checked<(Option<DecisionId>, Option<DecisionId>)>)
      ensures r == MatchingDecisions(View(), Rising(decisions.Keys), proposal, v, None, None)
      ensures r.Ok? && r.value.0.Some? ==> r.value.0.value in decisions
      ensures r.Ok? && r.value.1.Some? ==> r.value.1.value in decisions
    {
      hide DecisionDependencies, Observed, Rising;
      var ids := Rising(decisions.Keys);
      var adopt: Option<DecisionId>, undertake: Option<DecisionId> := None, None;
      var i := 0;
      while i < |ids|
        invariant 0 <= i <= |ids|
        invariant adopt.Some? ==> adopt.value in decisions
        invariant undertake.Some? ==> undertake.value in decisions
        invariant MatchingDecisions(View(), ids, proposal, v, None, None)
               == MatchingDecisions(View(), ids[i..], proposal, v, adopt, undertake)
      {
        var id := ids[i];
        assert ids[i..][0] == id && ids[i..][1..] == ids[i + 1..];
        if LivePeer(decisions, id, proposal) {
          var deps := DecisionDependencies(View(), decisions[id].decision);
          if deps.Err? {
            return Err(deps.error);
          }
          if Observed(deps.value, v.grounds) {
            if decisions[id].decision.kind.Adopt? {
              adopt := Some(id);
            } else {
              undertake := Some(id);
            }
          }
        }
        i := i + 1;
      }
      r := Ok((adopt, undertake));
    }

    /** The current agreement inherits the blockers of its renewed undertaking. */
    method Extend(id: AgreementId) returns (r: Check)
      modifies `agreements
      ensures var extended := ExtendBlockers(old(View()), id);
              if extended.Ok? then r.Pass? && View() == extended.value else r == Fail(extended.error) && View() == old(View())
    {
      if id !in agreements || agreements[id].undertaking !in decisions {
        return Fail(Invalid);
      }
      var a := agreements[id];
      agreements := agreements[id := a.(blockers := a.blockers + decisions[a.undertaking].blockers)];
      r := Pass;
    }

    method MarkMatched(adoption: DecisionId, undertaking: DecisionId)
      requires adoption in decisions && undertaking in decisions
      modifies `decisions
      ensures decisions == BothMatched(old(decisions), adoption, undertaking)
    {
      decisions := decisions[adoption := decisions[adoption].(matched := true)];
      decisions := decisions[undertaking := decisions[undertaking].(matched := true)];
    }

    /** Both decisions become matched, and the proposal's agreement becomes current with every inherited blocker. */
    method Agree(p: Proposal, adoption: DecisionId, undertaking: DecisionId) returns (r: Check)
      requires adoption in decisions && undertaking in decisions
      modifies `decisions, `agreements, `current
      ensures var concluded := Conclude(old(View()), p, adoption, undertaking);
              if concluded.Ok? then r.Pass? && View() == concluded.value else r == Fail(concluded.error) && View() == old(View())
    {
      hide BothMatched, InheritedBlockers;
      var inherited := InheritedBlockers(View());
      if inherited.Err? {
        return Fail(inherited.error);
      }
      var blockers := decisions[undertaking].blockers + inherited.value;
      MarkMatched(adoption, undertaking);
      agreements := agreements[p.agreement := Agreement(p.id, adoption, undertaking, blockers)];
      current := Some(p.agreement);
      r := Pass;
    }

    /** Extends the blockers of the current agreement, or concludes a new one once both parties stand behind it. */
    method Activate(proposal: ProposalId, v: Validation) returns (r: Checked<Option<AgreementId>>)
      modifies `decisions, `agreements, `current
      ensures var activated := Rules.Activate(old(View()), proposal, v);
              if activated.Ok? then r == Ok(activated.value.1) && View() == activated.value.0
              else r == Err(activated.error) && View() == old(View())
    {
      hide MatchingDecisions, Rising, Rules.Activate, ExtendBlockers, Conclude;
      ActivationCases(View(), proposal, v);
      if proposal !in proposals {
        return Err(Invalid);
      }
      var p := proposals[proposal];
      if current == Some(p.agreement) {
        var extended := Extend(p.agreement);
        return if extended.Pass? then Ok(None) else Err(extended.error);
      }
      if p.expectedAgreement != current || settlement.Some? {
        return Err(Stale);
      }
      var found := FindMatching(proposal, v);
      if found.Err? {
        return Err(found.error);
      }
      if found.value.0.None? || found.value.1.None? {
        return Ok(None);
      }
      var agreed := Agree(p, found.value.0.value, found.value.1.value);
      r := if agreed.Pass? then Ok(Some(p.agreement)) else Err(agreed.error);
    }

    /** Writes a new or renewed decision, then tries to activate its proposal. */
    method WriteAndActivate(id: DecisionId, written: EffectiveDecision, v: Validation) returns (r: Checked<Option<AgreementId>>)
      modifies `decisions, `agreements, `current
      ensures var activated := Rules.Activate(WithDecision(old(View()), id, written), written.decision.proposal, v);
              if activated.Ok? then r == Ok(activated.value.1) && View() == activated.value.0
              else r == Err(activated.error) && View() == WithDecision(old(View()), id, written)
    {
      hide Rules.Activate;
      decisions := decisions[id := written];
      r := Activate(written.decision.proposal, v);
    }

    method Decide(d: Decision, v: Validation) returns (r: Checked<Effect>)
      modifies `decisions, `agreements, `current
      ensures Did(StepDecide(old(View()), d, v), WithWritten(old(View()), Written(old(View()), Command.Decide(d), v)), r, View())
    {
      hide Rules.Activate, NewDecision;
      var written := NewDecision(View(), d, v);
      if written.Err? {
        return Err(written.error);
      }
      NewDecisionIsAbout(View(), d, v);
      var activated := WriteAndActivate(d.id, written.value, v);
      r := if activated.Ok? then Ok(Decided(d.id, activated.value)) else Err(activated.error);
    }

    method Reaffirm(id: DecisionId, dependencies: seq<Dependency>, renewal: Option<AssessmentId>, v: Validation)
      returns (r: Checked<Effect>)
      modifies `decisions, `agreements, `current
      ensures Did(StepReaffirm(old(View()), id, dependencies, renewal, v),
                  WithWritten(old(View()), Written(old(View()), Command.Reaffirm(id, dependencies, renewal), v)), r, View())
    {
      hide Rules.Activate, RenewedDecision;
      var written := RenewedDecision(View(), id, dependencies, renewal, v);
      if written.Err? {
        return Err(written.error);
      }
      var activated := WriteAndActivate(id, written.value, v);
      r := if activated.Ok? then Ok(Reaffirmed(id, activated.value)) else Err(activated.error);
    }

    /** One command, in place. */
    method Transition(c: Command, v: Validation) returns (r: Checked<Effect>)
      modifies this
      ensures View() == After(old(View()), c, v)
      ensures var t := Rules.Transition(old(View()), c, v);
              r == if t.Ok? then Ok(t.value.1) else Err(t.error)
    {
      hide Perform, Rules.Transition, Written;
      GuardedFirst(View(), c, v);
      if v.authority.representedOwner != identity.owner {
        return Err(Denied);
      }
      if settlement.Some? && !AllowedWhenSettled(c) {
        return Err(Terminal);
      }
      if !initiated && !AllowedBeforeStart(c) {
        return Err(Invalid);
      }
      r := Execute(c, v);
    }

    /** Decisions are written before their activation is tried; every other command has all its checks before its one write. */
    method Execute(c: Command, v: Validation) returns (r: Checked<Effect>)
      modifies this
      ensures Did(Perform(old(View()), c, v), WithWritten(old(View()), Written(old(View()), c, v)), r, View())
    {
      hide StepInitiate, StepPropose, StepAssess, StepDecide, StepRetract, StepReaffirm, StepSetGrant, StepRevokeGrant, StepAdmit,
        StepDispatch, StepFinding, StepAdapt, StepProgress, StepFulfill, StepWithdraw, StepReconcile, Written, View;
      OthersWriteNothingFirst(View(), c, v);
      match c {
        case Decide(d) => r := Decide(d, v);
        case Reaffirm(id, dependencies, renewal) => r := Reaffirm(id, dependencies, renewal, v);
        case _ =>
          var t := Perform(View(), c, v);
          if t.Err? {
            return Err(t.error);
          }
          OnlyKernelChanges(View(), c, v);
          Store(t.value.0);
          r := Ok(t.value.1);
      }
    }

    /** The write of a command whose checks have all passed. */
    method Store(s: State)
      requires KernelOnly(View(), s)
      modifies `initiated, `current, `settlement, `proposals, `assessments, `decisions, `agreements, `grants, `actions
      ensures View() == s
    {
      StoreDrafts(s);
      StoreConduct(s);
      initiated := s.initiated;
      current := s.current;
      settlement := s.settlement;
    }

    method StoreDrafts(s: State)
      modifies `proposals, `assessments, `decisions
      ensures View() == old(View()).(proposals := s.proposals, assessments := s.assessments, decisions := s.decisions)
    {
      proposals := s.proposals;
      assessments := s.assessments;
      decisions := s.decisions;
    }

    method StoreConduct(s: State)
      modifies `agreements, `grants, `actions
      ensures View() == old(View()).(agreements := s.agreements, grants := s.grants, actions := s.actions)
    {
      agreements := s.agreements;
      grants := s.grants;
      actions := s.actions;
    }
  }

  /** The identity, the history and the catalogue are the same. */
  ghost predicate KernelOnly(s: State, t: State) {
    && t.identity == s.identity && t.history == s.history && t.lastOperation == s.lastOperation
    && t.contentItems == s.contentItems && t.created == s.created && t.established == s.established
  }

  // ----- activation, case by case

  lemma ActivationCases(s: State, proposal: ProposalId, v: Validation)
    ensures var activated := Rules.Activate(s, proposal, v);
            if proposal !in s.proposals then activated == Err(Invalid)
            else
              var p := s.proposals[proposal];
              if s.current == Some(p.agreement) then
                var extended := ExtendBlockers(s, p.agreement);
                activated == if extended.Ok? then Ok((extended.value, None)) else Err(extended.error)
              else if p.expectedAgreement != s.current || s.settlement.Some? then activated == Err(Stale)
              else
                var found := MatchingDecisions(s, Rising(s.decisions.Keys), proposal, v, None, None);
                if found.Err? then activated == Err(found.error)
                else if found.value.0.None? || found.value.1.None? then activated == Ok((s, None))
                else if found.value.0.value !in s.decisions || found.value.1.value !in s.decisions then activated == Err(Invalid)
                else
                  var concluded := Conclude(s, p, found.value.0.value, found.value.1.value);
                  activated == if concluded.Ok? then Ok((concluded.value, Some(p.agreement))) else Err(concluded.error)
  {
    hide MatchingDecisions, Rising, ExtendBlockers, Conclude;
  }

  lemma OthersWriteNothingFirst(s: State, c: Command, v: Validation)
    ensures !c.Decide? && !c.Reaffirm? ==> Written(s, c, v).None?
  {
  }

  lemma NewDecisionIsAbout(s: State, d: Decision, v: Validation)
    requires NewDecision(s, d, v).Ok?
    ensures NewDecision(s, d, v).value.decision == d
  {
  }

  lemma OnlyKernelChanges(s: State, c: Command, v: Validation)
    requires Perform(s, c, v).Ok? && !c.Decide? && !c.Reaffirm?
    ensures KernelOnly(s, Perform(s, c, v).value.0)
  {
    hide RecordAccess, CurrentGrounds, NativeGrant, ProposalAdmissible, CoversContentItems, ValidateOriginSelectors, TargetAllowed, Resolved,
      CriterionIds, AgreementDependencies, GrantFor, StepDecide, StepReaffirm, CriteriaMet, NothingInFlight, GenerationFor, CheckParty,
      DependenciesValid, ObservedCheck, CheckOwner, NextGeneration;
  }

  // ----- a refused command leaves nothing behind

  /** The dependencies of every decision can be resolved. */
  ghost predicate Resolvable(s: State) {
    forall id :: id in s.decisions ==> DecisionDependencies(s, s.decisions[id].decision).Ok?
  }

  lemma StillResolves(s: State, t: State, d: Decision)
    requires Extends(s.proposals, t.proposals) && Extends(s.assessments, t.assessments)
    requires DecisionDependencies(s, d).Ok?
    ensures DecisionDependencies(t, d) == DecisionDependencies(s, d)
  {
    hide NoContradiction, NoRepeatedGround, Collected;
  }

  lemma WrittenResolves(s: State, c: Command, v: Validation)
    requires Written(s, c, v).Some?
    ensures DecisionDependencies(s, Written(s, c, v).value.1.decision).Ok?
    ensures c.Decide? ==> Written(s, c, v).value.1.decision == c.decided
  {
    hide DecisionDependencies, DecisionAdmissible, RenewalAdmissible, DependenciesValid, KindBlockers, Renewed, ObservedCheck;
  }

  /** Every decision afterwards is one from before, or one whose dependencies resolve. */
  ghost predicate Rewritten(s: State, t: State) {
    forall id :: id in t.decisions ==>
      || (id in s.decisions && t.decisions[id].decision == s.decisions[id].decision)
      || DecisionDependencies(s, t.decisions[id].decision).Ok?
  }

  lemma ActivationRewrites(s: State, proposal: ProposalId, v: Validation)
    requires Activate(s, proposal, v).Ok?
    ensures SameDecisions(s.decisions, Activate(s, proposal, v).value.0.decisions)
  {
    hide MatchingDecisions, Rising, Activate, Conclude, ExtendBlockers, SameDecisions;
    ActivationCases(s, proposal, v);
    Unrewritten(s.decisions);
    var p := s.proposals[proposal];
    if s.current == Some(p.agreement) {
      ExtensionRewrites(s, p.agreement);
    } else {
      var found := MatchingDecisions(s, Rising(s.decisions.Keys), proposal, v, None, None).value;
      if found.0.Some? && found.1.Some? {
        ConclusionRewrites(s, p, found.0.value, found.1.value);
      }
    }
  }

  ghost predicate SameDecisions(s: Decisions, t: Decisions) {
    t.Keys == s.Keys && forall id :: id in t ==> t[id].decision == s[id].decision
  }

  lemma Unrewritten(decisions: Decisions)
    ensures SameDecisions(decisions, decisions)
  {
  }

  lemma ExtensionRewrites(s: State, id: AgreementId)
    requires ExtendBlockers(s, id).Ok?
    ensures ExtendBlockers(s, id).value.decisions == s.decisions
  {
  }

  lemma ConclusionRewrites(s: State, p: Proposal, adoption: DecisionId, undertaking: DecisionId)
    requires adoption in s.decisions && undertaking in s.decisions && Conclude(s, p, adoption, undertaking).Ok?
    ensures SameDecisions(s.decisions, Conclude(s, p, adoption, undertaking).value.decisions)
  {
    hide InheritedBlockers;
  }

  lemma DecidingRewrites(s: State, c: Command, v: Validation)
    requires Perform(s, c, v).Ok? && (c.Decide? || c.Reaffirm?)
    ensures Rewritten(s, Perform(s, c, v).value.0)
  {
    hide Activate, NewDecision, RenewedDecision, DecisionDependencies;
    assert Written(s, c, v).Some?;
    WrittenResolves(s, c, v);
    var w := WithDecision(s, Written(s, c, v).value.0, Written(s, c, v).value.1);
    ActivationRewrites(w, Written(s, c, v).value.1.decision.proposal, v);
  }

  lemma OthersRewriteNothing(s: State, c: Command, v: Validation)
    requires Perform(s, c, v).Ok? && !c.Decide? && !c.Reaffirm?
    ensures Rewritten(s, Perform(s, c, v).value.0)
  {
    hide StepPropose, StepAssess, StepRetract, StepSetGrant, StepRevokeGrant, StepAdmit, StepDispatch, StepFulfill, StepReconcile,
      StepFinding, StepAdapt, StepProgress, RecordAccess, DecisionDependencies;
    match c
    case Propose(p, access) => ProposeWrites(s, p, access, v);
    case Assess(a, access) => AssessWrites(s, a, access, v);
    case Retract(id) => RetractWrites(s, id, v);
    case SetGrant(id, expected, spec) => Runs.SetGrantWrites(s, id, expected, spec, v);
    case RevokeGrant(id, expected) => Runs.RevokeGrantWrites(s, id, expected, v);
    case Admit(a) => AdmitWrites(s, a, v);
    case Dispatch(id) => DispatchWrites(s, id, v);
    case Fulfill(f) => FulfillWrites(s, f, v);
    case Reconcile(id, used, evidence, outcome) => Runs.ReconcileWrites(s, id, used, evidence, outcome, v);
    case Initiate(_, _) =>
    case Withdraw(_) =>
    case _ => Runs.RecordingWritesNothing(s, c, v);
  }

  lemma StepResolvable(s: State, m: Traces.Move, t: State)
    requires Traces.Steps(s, m, t) && Resolvable(s) && Forward(s, t)
    ensures Resolvable(t)
  {
    hide Perform, DecisionDependencies, DecisionsForward, AgreementsForward, GrantsForward, ActionsForward;
    if m.command.Decide? || m.command.Reaffirm? {
      DecidingRewrites(s, m.command, m.validation);
    } else {
      OthersRewriteNothing(s, m.command, m.validation);
    }
    forall id | id in t.decisions ensures DecisionDependencies(t, t.decisions[id].decision).Ok? {
      StillResolves(s, t, t.decisions[id].decision);
    }
  }

  lemma {:induction false} RunResolvable(states: seq<State>, moves: seq<Traces.Move>, i: nat)
    requires Traces.Run(states, moves) && i < |states|
    ensures Resolvable(states[i])
    decreases i
  {
    hide Forward, Traces.Steps, Traces.Starts;
    if i > 0 {
      RunResolvable(states, moves, i - 1);
      Traces.RunsMoveForward(states, moves, i - 1, i);
      StepResolvable(states[i - 1], moves[i - 1], states[i]);
    } else {
      StartResolvable(states[0]);
    }
  }

  lemma StartResolvable(s: State)
    requires Traces.Starts(s)
    ensures Resolvable(s)
  {
  }

  lemma {:induction false} MatchingSucceeds(s: State, ids: seq<DecisionId>, proposal: ProposalId, v: Validation,
                                            adopt: Option<DecisionId>, undertake: Option<DecisionId>)
    requires Resolvable(s)
    requires adopt.Some? ==> adopt.value in s.decisions
    requires undertake.Some? ==> undertake.value in s.decisions
    ensures var found := MatchingDecisions(s, ids, proposal, v, adopt, undertake);
            && found.Ok?
            && (found.value.0.Some? ==> found.value.0.value in s.decisions)
            && (found.value.1.Some? ==> found.value.1.value in s.decisions)
    decreases |ids|
  {
    hide DecisionDependencies, Observed;
    if ids != [] {
      var id := ids[0];
      if !LivePeer(s.decisions, id, proposal)
         || !Observed(DecisionDependencies(s, s.decisions[id].decision).value, v.grounds) {
        MatchingSucceeds(s, ids[1..], proposal, v, adopt, undertake);
      } else if s.decisions[id].decision.kind.Adopt? {
        MatchingSucceeds(s, ids[1..], proposal, v, Some(id), undertake);
      } else {
        MatchingSucceeds(s, ids[1..], proposal, v, adopt, Some(id));
      }
    }
  }

  /** The agreement that is current, if any, is there with its undertaking. */
  ghost predicate Standing(s: State) {
    s.current.Some? ==> s.current.value in s.agreements && s.agreements[s.current.value].undertaking in s.decisions
  }

  /** Once a decision has been written, activation cannot fail. */
  lemma ActivationSucceeds(s: State, proposal: ProposalId, v: Validation)
    requires Resolvable(s) && Standing(s) && s.settlement.None? && proposal in s.proposals
    requires s.current == Some(s.proposals[proposal].agreement) || s.proposals[proposal].expectedAgreement == s.current
    ensures Activate(s, proposal, v).Ok?
  {
    hide MatchingDecisions, Rising, DecisionDependencies, BothMatched;
    MatchingSucceeds(s, Rising(s.decisions.Keys), proposal, v, None, None);
  }

  lemma WrittenMayActivate(s: State, c: Command, v: Validation)
    requires Written(s, c, v).Some?
    ensures var w := Written(s, c, v).value;
            && w.1.decision.proposal in s.proposals
            && (|| s.current == Some(s.proposals[w.1.decision.proposal].agreement)
                || s.proposals[w.1.decision.proposal].expectedAgreement == s.current)
  {
    hide DecisionDependencies, DependenciesValid, KindBlockers, ObservedCheck, CheckParty;
  }

  lemma WritingKeepsResolvable(s: State, id: DecisionId, d: EffectiveDecision)
    requires Resolvable(s) && Standing(s) && DecisionDependencies(s, d.decision).Ok?
    ensures Resolvable(WithDecision(s, id, d)) && Standing(WithDecision(s, id, d))
  {
    hide DecisionDependencies;
    var t := WithDecision(s, id, d);
    forall other | other in t.decisions ensures DecisionDependencies(t, t.decisions[other].decision).Ok? {
      StillResolves(s, t, t.decisions[other].decision);
    }
  }

  lemma CurrentStands(s: State, chain: seq<AgreementId>)
    requires Inv(s, chain)
    ensures Standing(s)
  {
    if s.current.Some? {
      assert s.current.value in chain;
      assert Backed(s.proposals, s.decisions, s.agreements, s.current.value);
    }
  }

  lemma WrittenIsAccepted(s: State, c: Command, v: Validation)
    requires Resolvable(s) && Standing(s) && s.settlement.None? && Written(s, c, v).Some?
    ensures Perform(s, c, v).Ok?
  {
    hide DecisionDependencies, Activate, NewDecision, RenewedDecision, Resolvable, Standing;
    var w := Written(s, c, v).value;
    WrittenResolves(s, c, v);
    WrittenMayActivate(s, c, v);
    WritingKeepsResolvable(s, w.0, w.1);
    ActivationSucceeds(WithDecision(s, w.0, w.1), w.1.decision.proposal, v);
  }

  /** At every moment of every run, a refused command leaves the kernel exactly as it was. */
  lemma RefusalLeavesNothing(states: seq<State>, moves: seq<Traces.Move>, i: nat, c: Command, v: Validation)
    requires Traces.Run(states, moves) && i < |states| && Transition(states[i], c, v).Err?
    ensures After(states[i], c, v) == states[i]
  {
    hide Perform, Written, Resolvable, Inv, Standing;
    var s := states[i];
    RunResolvable(states, moves, i);
    var chains := Traces.RunKept(states, moves);
    assert Inv(s, chains[i]);
    CurrentStands(s, chains[i]);
    GuardedFirst(s, c, v);
    if Guarded(s, c, v).Pass? && Written(s, c, v).Some? {
      OthersWriteNothingFirst(s, c, v);
      WrittenIsAccepted(s, c, v);
    }
  }
}

/** Whole runs of the kernel, over every command, every observation and every catalogue update between them. */
module Runs {
  import opened Base
  import opened Model
  import opened Rules
  import opened Pursuits

  // ----- deliberation steps

  lemma NewDecisionWrites(s: State, d: Decision, v: Validation)
    requires NewDecision(s, d, v).Ok? && ProposalsKept(s.proposals)
    ensures DecisionKept(s.identity, s.proposals, s.assessments, NewDecision(s, d, v).value)
    ensures Writable(s.decisions, d.id, NewDecision(s, d, v).value) && d.id !in s.decisions
    ensures NewDecision(s, d, v).value.decision == d
  {
    assert DecisionAdmissible(s, d, v.authority).Pass?;
    assert DecisionDependencies(s, d).Ok?;
    if d.kind.Undertake? {
      assert AssessedDependencies(s, s.proposals[d.proposal], d).Ok?;
    }
  }

  lemma DecideKeeps(s: State, chain: seq<AgreementId>, d: Decision, v: Validation)
    requires Inv(s, chain) && StepDecide(s, d, v).Ok? && s.settlement.None?
    ensures Kept(s, StepDecide(s, d, v).value.0, chain)
  {
    NewDecisionWrites(s, d, v);
    var written := NewDecision(s, d, v).value;
    var w := WithDecision(s, d.id, written);
    WrittenKept(s, d.id, written, chain);
    WrittenForward(s, d.id, written);
    EndorsedBesides(s, d.id, written, chain);
    ActivateKeeps(w, d.proposal, v, chain);
    KeptAfter(s, w, Activate(w, d.proposal, v).value.0, chain);
  }

  /** Writing a decision about another proposal leaves the current agreement's endorsement alone. */
  lemma EndorsedBesides(s: State, id: DecisionId, written: EffectiveDecision, chain: seq<AgreementId>)
    requires Inv(s, chain)
    requires id in s.decisions ==> s.decisions[id].decision.proposal == written.decision.proposal
    requires written.decision.proposal in s.proposals
    requires id in s.decisions ==> s.current != Some(s.proposals[written.decision.proposal].agreement)
    ensures BlockersEndorsed(s.decisions[id := written], s.agreements, s.current)
  {
    if s.current.Some? {
      assert s.current.value in chain;
      assert Backed(s.proposals, s.decisions, s.agreements, s.current.value);
    }
  }

  lemma RenewedDecisionWrites(s: State, id: DecisionId, deps: seq<Dependency>, renewal: Option<AssessmentId>, v: Validation)
    requires RenewedDecision(s, id, deps, renewal, v).Ok? && id in s.decisions
    ensures var prior, written := s.decisions[id], RenewedDecision(s, id, deps, renewal, v).value;
            && RenewalAdmissible(s, id, v.authority).Ok?
            && Renewed(prior.decision, deps, renewal).Ok?
            && written.decision == Renewed(prior.decision, deps, renewal).value
            && DecisionDependencies(s, written.decision).Ok?
            && KindBlockers(s, written.decision.kind).Ok?
            && written == prior.(decision := written.decision, blockers := prior.blockers + KindBlockers(s, written.decision.kind).value)
  {
  }

  lemma RenewedWritable(s: State, chain: seq<AgreementId>, id: DecisionId, deps: seq<Dependency>, renewal: Option<AssessmentId>, v: Validation)
    requires Inv(s, chain) && RenewedDecision(s, id, deps, renewal, v).Ok?
    ensures id in s.decisions
    ensures var prior, written := s.decisions[id], RenewedDecision(s, id, deps, renewal, v).value;
            && written.decision.proposal == prior.decision.proposal
            && written.decision.proposal in s.proposals
            && DecisionKept(s.identity, s.proposals, s.assessments, written)
            && Writable(s.decisions, id, written)
  {
    RenewedDecisionWrites(s, id, deps, renewal, v);
    var prior, written := s.decisions[id], RenewedDecision(s, id, deps, renewal, v).value;
    assert DecisionKept(s.identity, s.proposals, s.assessments, prior);
    assert LivePeer(s.decisions, id, prior.decision.proposal);
    if written.decision.kind.Undertake? {
      assert AssessedDependencies(s, s.proposals[written.decision.proposal], written.decision).Ok?;
    }
  }

  lemma ReaffirmKeeps(s: State, chain: seq<AgreementId>, id: DecisionId, deps: seq<Dependency>, renewal: Option<AssessmentId>, v: Validation)
    requires Inv(s, chain) && StepReaffirm(s, id, deps, renewal, v).Ok? && s.settlement.None?
    ensures Kept(s, StepReaffirm(s, id, deps, renewal, v).value.0, chain)
  {
    RenewedWritable(s, chain, id, deps, renewal, v);
    var written := RenewedDecision(s, id, deps, renewal, v).value;
    var w := WithDecision(s, id, written);
    WrittenKept(s, id, written, chain);
    WrittenForward(s, id, written);
    if s.current != Some(s.proposals[written.decision.proposal].agreement) {
      EndorsedBesides(s, id, written, chain);
    }
    ActivateKeeps(w, written.decision.proposal, v, chain);
    KeptAfter(s, w, Activate(w, written.decision.proposal, v).value.0, chain);
  }

  lemma SameBlockersEndorsed(decisions: Decisions, agreements: Agreements, current: Option<AgreementId>, id: DecisionId, d: EffectiveDecision)
    requires BlockersEndorsed(decisions, agreements, current)
    requires id in decisions && d.blockers == decisions[id].blockers
    ensures BlockersEndorsed(decisions[id := d], agreements, current)
  {
  }

  lemma RetractKeeps(s: State, chain: seq<AgreementId>, id: DecisionId, v: Validation)
    requires Inv(s, chain) && s.settlement.None? && StepRetract(s, id, v).Ok?
    ensures Kept(s, StepRetract(s, id, v).value.0, chain)
  {
    RetractWrites(s, id, v);
    var written := s.decisions[id].(retracted := true);
    assert DecisionKept(s.identity, s.proposals, s.assessments, s.decisions[id]);
    WrittenKept(s, id, written, chain);
    WrittenForward(s, id, written);
    SameBlockersEndorsed(s.decisions, s.agreements, s.current, id, written);
  }

  // ----- every accepted command

  lemma SetGrantWrites(s: State, id: GrantId, expected: Option<nat>, spec: GrantSpec, v: Validation)
    requires StepSetGrant(s, id, expected, spec, v).Ok?
    ensures GenerationFor(s, id, expected).Ok?
    ensures var generation := GenerationFor(s, id, expected).value;
            && StepSetGrant(s, id, expected, spec, v).value
               == (s.(grants := s.grants[id := Grant(id, generation, spec, false)]), Granted(GrantUse(id, generation)))
            && generation >= 1
            && (id in s.grants ==> generation > s.grants[id].generation && !s.grants[id].revoked)
  {
  }

  lemma RevokeGrantWrites(s: State, id: GrantId, expected: nat, v: Validation)
    requires StepRevokeGrant(s, id, expected, v).Ok?
    ensures id in s.grants && !s.grants[id].revoked && s.grants[id].generation < U64_MAX
    ensures var prior := s.grants[id];
            StepRevokeGrant(s, id, expected, v).value
            == (s.(grants := s.grants[id := prior.(generation := prior.generation + 1, revoked := true)]),
                Revoked(GrantUse(id, prior.generation + 1)))
  {
  }

  lemma ReconcileWrites(s: State, id: ActionId, used: GrantUse, evidence: seq<Evidence>, outcome: ActionOutcome, v: Validation)
    requires StepReconcile(s, id, used, evidence, outcome, v).Ok?
    ensures id in s.actions && s.actions[id].phase != Admitted
    ensures StepReconcile(s, id, used, evidence, outcome, v).value.0
         == s.(actions := s.actions[id :=
                 s.actions[id].(evidence := s.actions[id].evidence + evidence, outcome := outcome,
                                phase := if outcome == UnknownOutcome then Dispatched else Reconciled)])
  {
  }

  lemma ProposeKeeps(s: State, chain: seq<AgreementId>, p: Proposal, access: Access, v: Validation)
    requires Inv(s, chain) && s.settlement.None? && StepPropose(s, p, access, v).Ok?
    ensures Kept(s, StepPropose(s, p, access, v).value.0, chain)
  {
    ProposeWrites(s, p, access, v);
    OnlyProposals(s, StepPropose(s, p, access, v).value.0, chain);
  }

  lemma AssessKeeps(s: State, chain: seq<AgreementId>, a: Assessment, access: Access, v: Validation)
    requires Inv(s, chain) && s.settlement.None? && StepAssess(s, a, access, v).Ok?
    ensures Kept(s, StepAssess(s, a, access, v).value.0, chain)
  {
    AssessWrites(s, a, access, v);
    OnlyAssessments(s, StepAssess(s, a, access, v).value.0, chain);
  }

  lemma SetGrantKeeps(s: State, chain: seq<AgreementId>, id: GrantId, expected: Option<nat>, spec: GrantSpec, v: Validation)
    requires Inv(s, chain) && StepSetGrant(s, id, expected, spec, v).Ok?
    ensures Kept(s, StepSetGrant(s, id, expected, spec, v).value.0, chain)
  {
    SetGrantWrites(s, id, expected, spec, v);
    OnlyGrants(s, StepSetGrant(s, id, expected, spec, v).value.0, chain);
  }

  lemma RevokeGrantKeeps(s: State, chain: seq<AgreementId>, id: GrantId, expected: nat, v: Validation)
    requires Inv(s, chain) && StepRevokeGrant(s, id, expected, v).Ok?
    ensures Kept(s, StepRevokeGrant(s, id, expected, v).value.0, chain)
  {
    RevokeGrantWrites(s, id, expected, v);
    OnlyGrants(s, StepRevokeGrant(s, id, expected, v).value.0, chain);
  }

  lemma AddedAction(s: State, t: State, chain: seq<AgreementId>, id: ActionId)
    requires Inv(s, chain) && id !in s.actions && id in t.actions && t.actions[id].request.id == id
    requires t == s.(actions := s.actions[id := t.actions[id]])
    ensures Kept(s, t, chain)
  {
    OnlyActions(s, t, chain);
  }

  lemma AdmitKeeps(s: State, chain: seq<AgreementId>, a: ActionRequest, v: Validation)
    requires Inv(s, chain) && StepAdmit(s, a, v).Ok?
    ensures Kept(s, StepAdmit(s, a, v).value.0, chain)
  {
    AdmitWrites(s, a, v);
    AddedAction(s, StepAdmit(s, a, v).value.0, chain, a.id);
  }

  lemma DispatchKeeps(s: State, chain: seq<AgreementId>, id: ActionId, v: Validation)
    requires Inv(s, chain) && StepDispatch(s, id, v).Ok?
    ensures Kept(s, StepDispatch(s, id, v).value.0, chain)
  {
    DispatchWrites(s, id, v);
    OnlyActions(s, StepDispatch(s, id, v).value.0, chain);
  }

  lemma ReconcileKeeps(s: State, chain: seq<AgreementId>, id: ActionId, used: GrantUse, evidence: seq<Evidence>,
                       outcome: ActionOutcome, v: Validation)
    requires Inv(s, chain) && StepReconcile(s, id, used, evidence, outcome, v).Ok?
    ensures Kept(s, StepReconcile(s, id, used, evidence, outcome, v).value.0, chain)
  {
    ReconcileWrites(s, id, used, evidence, outcome, v);
    OnlyActions(s, StepReconcile(s, id, used, evidence, outcome, v).value.0, chain);
  }

  lemma FulfillKeeps(s: State, chain: seq<AgreementId>, f: Fulfillment, v: Validation)
    requires Inv(s, chain) && s.settlement.None? && StepFulfill(s, f, v).Ok?
    ensures Kept(s, StepFulfill(s, f, v).value.0, chain)
  {
    FulfillWrites(s, f, v);
    OnlySettlement(s, StepFulfill(s, f, v).value.0, chain);
  }

  lemma UnchangedKept(s: State, chain: seq<AgreementId>)
    requires Inv(s, chain)
    ensures Kept(s, s, chain)
  {
    ForwardReflexive(s);
  }

  lemma InitiatedKept(s: State, chain: seq<AgreementId>)
    requires Inv(s, chain)
    ensures Kept(s, s.(initiated := true), chain)
  {
    ForwardReflexive(s);
  }

  lemma RecordingWritesNothing(s: State, c: Command, v: Validation)
    requires c.RecordFinding? || c.Adapt? || c.RecordProgress?
    requires Perform(s, c, v).Ok?
    ensures Perform(s, c, v).value == (s, Recorded)
  {
  }

  /** Commands of deliberation, open only before settlement. */
  lemma DeliberationKeeps(s: State, chain: seq<AgreementId>, c: Command, v: Validation)
    requires Inv(s, chain) && s.settlement.None? && Perform(s, c, v).Ok?
    requires c.Initiate? || c.Propose? || c.Assess? || c.Decide? || c.Retract? || c.Reaffirm?
    ensures Kept(s, Perform(s, c, v).value.0, chain)
  {
    match c
    case Initiate(_, _) => InitiatedKept(s, chain);
    case Propose(p, access) => ProposeKeeps(s, chain, p, access, v);
    case Assess(a, access) => AssessKeeps(s, chain, a, access, v);
    case Decide(d) => DecideKeeps(s, chain, d, v);
    case Retract(id) => RetractKeeps(s, chain, id, v);
    case Reaffirm(id, deps, renewal) => ReaffirmKeeps(s, chain, id, deps, renewal, v);
  }

  lemma ConclusionKeeps(s: State, chain: seq<AgreementId>, c: Command, v: Validation)
    requires Inv(s, chain) && s.settlement.None? && Perform(s, c, v).Ok?
    requires c.RecordFinding? || c.Adapt? || c.RecordProgress? || c.Fulfill? || c.Withdraw?
    ensures Kept(s, Perform(s, c, v).value.0, chain)
  {
    match c
    case Fulfill(f) => FulfillKeeps(s, chain, f, v);
    case Withdraw(_) => OnlySettlement(s, s.(settlement := Some(Withdrawn)), chain);
    case _ =>
      RecordingWritesNothing(s, c, v);
      UnchangedKept(s, chain);
  }

  /** Commands over grants and actions; some stay open after settlement. */
  lemma ExecutionKeeps(s: State, chain: seq<AgreementId>, c: Command, v: Validation)
    requires Inv(s, chain) && Perform(s, c, v).Ok?
    requires c.SetGrant? || c.RevokeGrant? || c.Admit? || c.Dispatch? || c.Reconcile?
    ensures Kept(s, Perform(s, c, v).value.0, chain)
  {
    match c
    case SetGrant(id, expected, spec) => SetGrantKeeps(s, chain, id, expected, spec, v);
    case RevokeGrant(id, expected) => RevokeGrantKeeps(s, chain, id, expected, v);
    case Admit(a) => AdmitKeeps(s, chain, a, v);
    case Dispatch(id) => DispatchKeeps(s, chain, id, v);
    case Reconcile(id, used, evidence, outcome) => ReconcileKeeps(s, chain, id, used, evidence, outcome, v);
  }

  /** Every accepted command keeps the invariant and moves only forward. */
  lemma TransitionKeeps(s: State, chain: seq<AgreementId>, c: Command, v: Validation)
    requires Inv(s, chain) && Transition(s, c, v).Ok?
    ensures Kept(s, Transition(s, c, v).value.0, chain)
  {
    assert Transition(s, c, v) == Perform(s, c, v);
    if c.SetGrant? || c.RevokeGrant? || c.Admit? || c.Dispatch? || c.Reconcile? {
      ExecutionKeeps(s, chain, c, v);
    } else if c.RecordFinding? || c.Adapt? || c.RecordProgress? || c.Fulfill? || c.Withdraw? {
      ConclusionKeeps(s, chain, c, v);
    } else {
      DeliberationKeeps(s, chain, c, v);
    }
  }
}

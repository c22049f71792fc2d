/** A command sees observed grounds only through the grounds it declares it requires. */
module Grounds {
  import opened Base
  import opened Model
  import opened Rules

  ghost predicate SameObservation(a: map<GroundId, GroundVersion>, b: map<GroundId, GroundVersion>, g: GroundId) {
    (g in a <==> g in b) && (g in a ==> a[g] == b[g])
  }

  /** Two validations that differ at most in grounds outside the given set. */
  ghost predicate AgreeOn(v: Validation, w: Validation, grounds: set<GroundId>) {
    && w == v.(grounds := w.grounds)
    && forall g :: g in grounds ==> SameObservation(v.grounds, w.grounds, g)
  }

  lemma {:induction false} CollectedKeys(deps: seq<Dependency>)
    ensures Collected(deps).Keys == GroundsOf(deps)
  {
    if deps != [] {
      var front, last := deps[..|deps| - 1], deps[|deps| - 1];
      CollectedKeys(front);
      assert deps == front + [last];
      assert GroundsOf(deps) == GroundsOf(front) + {last.ground} by {
        forall g ensures g in GroundsOf(deps) <==> g in GroundsOf(front) + {last.ground} {
          assert forall d :: d in deps <==> d in front || d == last;
        }
      }
    }
  }

  lemma {:induction false} SameDependencyCheck(deps: seq<Dependency>, seen: set<GroundId>, v: Validation, w: Validation)
    requires AgreeOn(v, w, GroundsOf(deps))
    ensures DependenciesValidAfter(deps, seen, v.grounds) == DependenciesValidAfter(deps, seen, w.grounds)
    decreases |deps|
  {
    if deps != [] {
      assert deps[0].ground in GroundsOf(deps);
      assert GroundsOf(deps[1..]) <= GroundsOf(deps);
      SameDependencyCheck(deps[1..], seen + {deps[0].ground}, v, w);
    }
  }

  lemma SameObserved(deps: map<GroundId, GroundVersion>, v: Validation, w: Validation)
    requires AgreeOn(v, w, deps.Keys)
    ensures Observed(deps, v.grounds) <==> Observed(deps, w.grounds)
  {
    assert forall g :: g in deps ==> SameObservation(v.grounds, w.grounds, g);
  }

  lemma DecisionGroundsNeeded(s: State, d: Decision)
    requires DecisionNeeds(s, d).Ok? && DecisionDependencies(s, d).Ok?
    ensures DecisionDependencies(s, d).value.Keys <= DecisionNeeds(s, d).value.grounds
  {
    var p := s.proposals[d.proposal];
    CollectedKeys(p.dependencies);
    CollectedKeys(d.dependencies);
    if d.kind.Undertake? {
      CollectedKeys(s.assessments[d.kind.assessment].dependencies);
    }
  }

  lemma AgreementGroundsNeeded(s: State, id: AgreementId)
    requires AgreementNeeds(s, id).Ok? && AgreementDependencies(s, id).Ok?
    ensures AgreementDependencies(s, id).value.Keys <= AgreementNeeds(s, id).value.grounds
  {
    var a := s.agreements[id];
    DecisionGroundsNeeded(s, s.decisions[a.adoption].decision);
    DecisionGroundsNeeded(s, s.decisions[a.undertaking].decision);
  }

  lemma SameCurrentGrounds(s: State, id: AgreementId, v: Validation, w: Validation)
    requires AgreementNeeds(s, id).Ok?
    requires AgreeOn(v, w, AgreementNeeds(s, id).value.grounds)
    ensures CurrentGrounds(s, id, v) == CurrentGrounds(s, id, w)
  {
    if AgreementDependencies(s, id).Ok? {
      AgreementGroundsNeeded(s, id);
      SameObserved(AgreementDependencies(s, id).value, v, w);
    }
  }

  lemma SameRecordAccess(s: State, access: Access, action: GrantAction, agreement: Option<AgreementId>, v: Validation, w: Validation)
    requires w == v.(grounds := w.grounds)
    ensures RecordAccess(s, access, action, agreement, v) == RecordAccess(s, access, action, agreement, w)
  {
    if access.ByGrant? {
      var g := GrantFor(s, access.used, v.authority);
      assert g.Ok? ==> CoversContentItems(s, g.value, v) == CoversContentItems(s, g.value, w);
    }
  }

  lemma {:induction false} PeersNeeded(s: State, ids: seq<DecisionId>, proposal: ProposalId, id: DecisionId)
    requires PeerNeeds(s, ids, proposal).Ok? && id in ids && LivePeer(s.decisions, id, proposal)
    ensures DecisionNeeds(s, s.decisions[id].decision).Ok?
    ensures DecisionNeeds(s, s.decisions[id].decision).value.grounds <= PeerNeeds(s, ids, proposal).value.grounds
    decreases |ids|
  {
    if ids[0] != id {
      PeersNeeded(s, ids[1..], proposal, id);
    }
  }

  /** Every live decision about the proposal rests on grounds of the given set. */
  ghost predicate PeersWithin(s: State, proposal: ProposalId, grounds: set<GroundId>) {
    forall id :: LivePeer(s.decisions, id, proposal) && DecisionDependencies(s, s.decisions[id].decision).Ok? ==>
      DecisionDependencies(s, s.decisions[id].decision).value.Keys <= grounds
  }

  lemma {:induction false} SameMatching(s: State, ids: seq<DecisionId>, proposal: ProposalId, v: Validation, w: Validation,
                                        grounds: set<GroundId>, adopt: Option<DecisionId>, undertake: Option<DecisionId>)
    requires PeersWithin(s, proposal, grounds) && AgreeOn(v, w, grounds)
    ensures MatchingDecisions(s, ids, proposal, v, adopt, undertake) == MatchingDecisions(s, ids, proposal, w, adopt, undertake)
    decreases |ids|
  {
    if ids == [] {
    } else if !LivePeer(s.decisions, ids[0], proposal) {
      SameMatching(s, ids[1..], proposal, v, w, grounds, adopt, undertake);
    } else if DecisionDependencies(s, s.decisions[ids[0]].decision).Ok? {
      SameObserved(DecisionDependencies(s, s.decisions[ids[0]].decision).value, v, w);
      SameMatching(s, ids[1..], proposal, v, w, grounds, adopt, undertake);
      SameMatching(s, ids[1..], proposal, v, w, grounds, Some(ids[0]), undertake);
      SameMatching(s, ids[1..], proposal, v, w, grounds, adopt, Some(ids[0]));
    }
  }

  lemma SameActivation(s: State, proposal: ProposalId, v: Validation, w: Validation, grounds: set<GroundId>)
    requires PeersWithin(s, proposal, grounds) && AgreeOn(v, w, grounds)
    ensures Activate(s, proposal, v) == Activate(s, proposal, w)
  {
    SameMatching(s, Rising(s.decisions.Keys), proposal, v, w, grounds, None, None);
  }

  lemma PeersWithinNeeds(s: State, proposal: ProposalId)
    requires PeerNeeds(s, Rising(s.decisions.Keys), proposal).Ok?
    ensures PeersWithin(s, proposal, PeerNeeds(s, Rising(s.decisions.Keys), proposal).value.grounds)
  {
    RisingVisitsAll(s.decisions.Keys);
    forall peer | LivePeer(s.decisions, peer, proposal) && DecisionDependencies(s, s.decisions[peer].decision).Ok?
      ensures DecisionDependencies(s, s.decisions[peer].decision).value.Keys
           <= PeerNeeds(s, Rising(s.decisions.Keys), proposal).value.grounds
    {
      PeersNeeded(s, Rising(s.decisions.Keys), proposal, peer);
      DecisionGroundsNeeded(s, s.decisions[peer].decision);
    }
  }

  lemma DependenciesReadProposals(s: State, t: State, d: Decision)
    requires s.proposals == t.proposals && s.assessments == t.assessments
    ensures DecisionDependencies(s, d) == DecisionDependencies(t, d)
  {
  }

  /** Replacing or adding one decision keeps the peers within the needed grounds. */
  lemma PeersAfterWriting(s: State, id: DecisionId, d: EffectiveDecision, needed: set<GroundId>, grounds: set<GroundId>)
    requires PeersWithin(s, d.decision.proposal, needed) && needed <= grounds
    requires DecisionDependencies(s, d.decision).Ok?
    requires DecisionDependencies(s, d.decision).value.Keys <= grounds
    ensures PeersWithin(WithDecision(s, id, d), d.decision.proposal, grounds)
  {
    var t := WithDecision(s, id, d);
    forall peer | LivePeer(t.decisions, peer, d.decision.proposal) && DecisionDependencies(t, t.decisions[peer].decision).Ok?
      ensures DecisionDependencies(t, t.decisions[peer].decision).value.Keys <= grounds
    {
      DependenciesReadProposals(s, t, t.decisions[peer].decision);
      if peer != id {
        assert LivePeer(s.decisions, peer, d.decision.proposal);
      }
    }
  }

  /** The write and activation half of a decision or a reaffirmation. */
  lemma SameWrittenActivation(s: State, id: DecisionId, written: EffectiveDecision, v: Validation, w: Validation, grounds: set<GroundId>)
    requires PeerNeeds(s, Rising(s.decisions.Keys), written.decision.proposal).Ok?
    requires PeerNeeds(s, Rising(s.decisions.Keys), written.decision.proposal).value.grounds <= grounds
    requires DecisionDependencies(s, written.decision).Ok?
    requires DecisionDependencies(s, written.decision).value.Keys <= grounds
    requires AgreeOn(v, w, grounds)
    ensures Activate(WithDecision(s, id, written), written.decision.proposal, v)
         == Activate(WithDecision(s, id, written), written.decision.proposal, w)
  {
    PeersWithinNeeds(s, written.decision.proposal);
    PeersAfterWriting(s, id, written, PeerNeeds(s, Rising(s.decisions.Keys), written.decision.proposal).value.grounds, grounds);
    SameActivation(WithDecision(s, id, written), written.decision.proposal, v, w, grounds);
  }

  lemma SameDecide(s: State, d: Decision, v: Validation, w: Validation)
    requires Requirements(s, Decide(d)).Ok?
    requires AgreeOn(v, w, Requirements(s, Decide(d)).value.grounds)
    ensures StepDecide(s, d, v) == StepDecide(s, d, w)
  {
    SameDependencyCheck(d.dependencies, {}, v, w);
    if DecisionDependencies(s, d).Ok? {
      DecisionGroundsNeeded(s, d);
      SameObserved(DecisionDependencies(s, d).value, v, w);
    }
    assert NewDecision(s, d, v) == NewDecision(s, d, w);
    if NewDecision(s, d, v).Ok? {
      SameWrittenActivation(s, d.id, NewDecision(s, d, v).value, v, w, Requirements(s, Decide(d)).value.grounds);
    }
  }

  lemma ReaffirmNeeds(s: State, id: DecisionId, deps: seq<Dependency>, renewal: Option<AssessmentId>)
    requires Requirements(s, Reaffirm(id, deps, renewal)).Ok?
    ensures id in s.decisions
    ensures var proposal := s.decisions[id].decision.proposal;
            var grounds := Requirements(s, Reaffirm(id, deps, renewal)).value.grounds;
            && ProposalNeeds(s, proposal).Ok? && RenewalNeeds(s, renewal).Ok?
            && PeerNeeds(s, Rising(s.decisions.Keys), proposal).Ok?
            && ProposalNeeds(s, proposal).value.grounds + RenewalNeeds(s, renewal).value.grounds + GroundsOf(deps) <= grounds
            && PeerNeeds(s, Rising(s.decisions.Keys), proposal).value.grounds <= grounds
  {
  }

  lemma RenewedGroundsNeeded(s: State, prior: Decision, deps: seq<Dependency>, renewal: Option<AssessmentId>)
    requires Renewed(prior, deps, renewal).Ok? && DecisionDependencies(s, Renewed(prior, deps, renewal).value).Ok?
    requires ProposalNeeds(s, prior.proposal).Ok? && RenewalNeeds(s, renewal).Ok?
    ensures DecisionDependencies(s, Renewed(prior, deps, renewal).value).value.Keys
         <= ProposalNeeds(s, prior.proposal).value.grounds + RenewalNeeds(s, renewal).value.grounds + GroundsOf(deps)
  {
    CollectedKeys(s.proposals[prior.proposal].dependencies);
    CollectedKeys(deps);
    if renewal.Some? {
      CollectedKeys(s.assessments[renewal.value].dependencies);
    }
  }

  /** The dependencies of the renewed decision are observed alike. */
  lemma SameRenewalObserved(s: State, prior: Decision, deps: seq<Dependency>, renewal: Option<AssessmentId>, v: Validation, w: Validation,
                            grounds: set<GroundId>)
    requires ProposalNeeds(s, prior.proposal).Ok? && RenewalNeeds(s, renewal).Ok?
    requires ProposalNeeds(s, prior.proposal).value.grounds + RenewalNeeds(s, renewal).value.grounds + GroundsOf(deps) <= grounds
    requires AgreeOn(v, w, grounds)
    requires Renewed(prior, deps, renewal).Ok? && DecisionDependencies(s, Renewed(prior, deps, renewal).value).Ok?
    ensures var next := DecisionDependencies(s, Renewed(prior, deps, renewal).value).value;
            next.Keys <= grounds && (Observed(next, v.grounds) <==> Observed(next, w.grounds))
  {
    RenewedGroundsNeeded(s, prior, deps, renewal);
    SameObserved(DecisionDependencies(s, Renewed(prior, deps, renewal).value).value, v, w);
  }

  lemma RenewedDecisionRests(s: State, id: DecisionId, deps: seq<Dependency>, renewal: Option<AssessmentId>, v: Validation)
    requires RenewedDecision(s, id, deps, renewal, v).Ok?
    ensures id in s.decisions && Renewed(s.decisions[id].decision, deps, renewal).Ok?
    ensures var decision := RenewedDecision(s, id, deps, renewal, v).value.decision;
            && decision == Renewed(s.decisions[id].decision, deps, renewal).value
            && decision.proposal == s.decisions[id].decision.proposal
            && DecisionDependencies(s, decision).Ok?
  {
  }

  lemma SameRenewedDecision(s: State, id: DecisionId, deps: seq<Dependency>, renewal: Option<AssessmentId>, v: Validation, w: Validation,
                            grounds: set<GroundId>)
    requires id in s.decisions
    requires ProposalNeeds(s, s.decisions[id].decision.proposal).Ok? && RenewalNeeds(s, renewal).Ok?
    requires ProposalNeeds(s, s.decisions[id].decision.proposal).value.grounds + RenewalNeeds(s, renewal).value.grounds
             + GroundsOf(deps) <= grounds
    requires AgreeOn(v, w, grounds)
    ensures RenewedDecision(s, id, deps, renewal, v) == RenewedDecision(s, id, deps, renewal, w)
  {
    hide DecisionDependencies, Renewed, ProposalNeeds, RenewalNeeds, GroundsOf;
    var prior := s.decisions[id].decision;
    if Renewed(prior, deps, renewal).Ok? && DecisionDependencies(s, Renewed(prior, deps, renewal).value).Ok? {
      SameRenewalObserved(s, prior, deps, renewal, v, w, grounds);
    }
  }

  lemma SameReaffirm(s: State, id: DecisionId, deps: seq<Dependency>, renewal: Option<AssessmentId>, v: Validation, w: Validation)
    requires Requirements(s, Reaffirm(id, deps, renewal)).Ok?
    requires AgreeOn(v, w, Requirements(s, Reaffirm(id, deps, renewal)).value.grounds)
    ensures StepReaffirm(s, id, deps, renewal, v) == StepReaffirm(s, id, deps, renewal, w)
  {
    var grounds := Requirements(s, Reaffirm(id, deps, renewal)).value.grounds;
    ReaffirmNeeds(s, id, deps, renewal);
    SameRenewedDecision(s, id, deps, renewal, v, w, grounds);
    var written := RenewedDecision(s, id, deps, renewal, v);
    if written.Ok? {
      RenewedDecisionRests(s, id, deps, renewal, v);
      SameRenewalObserved(s, s.decisions[id].decision, deps, renewal, v, w, grounds);
      SameWrittenActivation(s, id, written.value, v, w, grounds);
    }
  }

  lemma SameNativeGrant(s: State, a: ActionRequest, kind: GrantAction, v: Validation, w: Validation)
    requires AgreementNeeds(s, a.agreement).Ok?
    requires AgreeOn(v, w, AgreementNeeds(s, a.agreement).value.grounds + GroundsOf(a.dependencies))
    ensures NativeGrant(s, a, kind, v) == NativeGrant(s, a, kind, w)
  {
    SameCurrentGrounds(s, a.agreement, v, w);
    SameDependencyCheck(a.dependencies, {}, v, w);
  }

  lemma SamePropose(s: State, p: Proposal, access: Access, v: Validation, w: Validation)
    requires AgreeOn(v, w, GroundsOf(p.dependencies))
    ensures StepPropose(s, p, access, v) == StepPropose(s, p, access, w)
  {
    SameRecordAccess(s, access, MayPropose, None, v, w);
    SameDependencyCheck(p.dependencies, {}, v, w);
  }

  lemma SameAssess(s: State, a: Assessment, access: Access, v: Validation, w: Validation)
    requires AgreeOn(v, w, GroundsOf(a.dependencies))
    ensures StepAssess(s, a, access, v) == StepAssess(s, a, access, w)
  {
    SameRecordAccess(s, access, MayAssess, None, v, w);
    SameDependencyCheck(a.dependencies, {}, v, w);
  }

  lemma SameAdmit(s: State, a: ActionRequest, v: Validation, w: Validation)
    requires Requirements(s, Admit(a)).Ok?
    requires AgreeOn(v, w, Requirements(s, Admit(a)).value.grounds)
    ensures StepAdmit(s, a, v) == StepAdmit(s, a, w)
  {
    SameNativeGrant(s, a, MayAdmit, v, w);
  }

  lemma SameDispatch(s: State, id: ActionId, v: Validation, w: Validation)
    requires Requirements(s, Dispatch(id)).Ok?
    requires AgreeOn(v, w, Requirements(s, Dispatch(id)).value.grounds)
    ensures StepDispatch(s, id, v) == StepDispatch(s, id, w)
  {
    var a := s.actions[id];
    SameNativeGrant(s, a.request, MayDispatch, v, w);
    SameObserved(a.admissionDependencies, v, w);
  }

  lemma SameReconcile(s: State, id: ActionId, used: GrantUse, evidence: seq<Evidence>, outcome: ActionOutcome, v: Validation, w: Validation)
    requires w == v.(grounds := w.grounds)
    ensures StepReconcile(s, id, used, evidence, outcome, v) == StepReconcile(s, id, used, evidence, outcome, w)
  {
    var g := GrantFor(s, used, v.authority);
    assert g.Ok? ==> CoversContentItems(s, g.value, v) == CoversContentItems(s, g.value, w);
  }

  lemma SameFinding(s: State, f: Finding, access: Access, v: Validation, w: Validation)
    requires SomeAgreementNeeds(s, f.agreement).Ok?
    requires AgreeOn(v, w, SomeAgreementNeeds(s, f.agreement).value.grounds)
    ensures StepFinding(s, f, access, v) == StepFinding(s, f, access, w)
  {
    SameRecordAccess(s, access, MayFind, f.agreement, v, w);
    if f.agreement.Some? {
      SameCurrentGrounds(s, f.agreement.value, v, w);
    }
  }

  lemma SameAdapt(s: State, a: Adaptation, access: Access, v: Validation, w: Validation)
    requires AgreementNeeds(s, a.agreement).Ok?
    requires AgreeOn(v, w, AgreementNeeds(s, a.agreement).value.grounds)
    ensures StepAdapt(s, a, access, v) == StepAdapt(s, a, access, w)
  {
    SameCurrentGrounds(s, a.agreement, v, w);
    SameRecordAccess(s, access, MayAdapt, Some(a.agreement), v, w);
  }

  lemma SameProgress(s: State, p: Progress, access: Access, v: Validation, w: Validation)
    requires AgreementNeeds(s, p.agreement).Ok?
    requires AgreeOn(v, w, AgreementNeeds(s, p.agreement).value.grounds)
    ensures StepProgress(s, p, access, v) == StepProgress(s, p, access, w)
  {
    SameCurrentGrounds(s, p.agreement, v, w);
    SameRecordAccess(s, access, MayProgress, Some(p.agreement), v, w);
  }

  lemma SameFulfill(s: State, f: Fulfillment, v: Validation, w: Validation)
    requires AgreementNeeds(s, f.agreement).Ok?
    requires AgreeOn(v, w, AgreementNeeds(s, f.agreement).value.grounds)
    ensures StepFulfill(s, f, v) == StepFulfill(s, f, w)
  {
    SameCurrentGrounds(s, f.agreement, v, w);
  }

  lemma SameDeliberation(s: State, c: Command, v: Validation, w: Validation)
    requires c.Initiate? || c.Propose? || c.Assess? || c.Decide? || c.Reaffirm?
    requires Requirements(s, c).Ok?
    requires AgreeOn(v, w, Requirements(s, c).value.grounds)
    ensures Perform(s, c, v) == Perform(s, c, w)
  {
    match c
    case Initiate(_, access) => SameRecordAccess(s, access, CreateDraft, None, v, w);
    case Propose(p, access) => SamePropose(s, p, access, v, w);
    case Assess(a, access) => SameAssess(s, a, access, v, w);
    case Decide(d) => SameDecide(s, d, v, w);
    case Reaffirm(id, deps, renewal) => SameReaffirm(s, id, deps, renewal, v, w);
  }

  lemma SamePursuit(s: State, c: Command, v: Validation, w: Validation)
    requires !(c.Initiate? || c.Propose? || c.Assess? || c.Decide? || c.Reaffirm?)
    requires Requirements(s, c).Ok?
    requires AgreeOn(v, w, Requirements(s, c).value.grounds)
    ensures Perform(s, c, v) == Perform(s, c, w)
  {
    match c
    case Admit(a) => SameAdmit(s, a, v, w);
    case Dispatch(id) => SameDispatch(s, id, v, w);
    case Reconcile(id, used, evidence, outcome) => SameReconcile(s, id, used, evidence, outcome, v, w);
    case RecordFinding(f, access) => SameFinding(s, f, access, v, w);
    case Adapt(a, access) => SameAdapt(s, a, access, v, w);
    case RecordProgress(p, access) => SameProgress(s, p, access, v, w);
    case Fulfill(f) => SameFulfill(s, f, v, w);
    case _ =>
  }

  /** Unrelated ground changes never alter an effect, an error or the next state. */
  lemma OnlyRequiredGroundsMatter(s: State, c: Command, v: Validation, w: Validation)
    requires Requirements(s, c).Ok?
    requires AgreeOn(v, w, Requirements(s, c).value.grounds)
    ensures Transition(s, c, v) == Transition(s, c, w)
  {
    if c.Initiate? || c.Propose? || c.Assess? || c.Decide? || c.Reaffirm? {
      SameDeliberation(s, c, v, w);
    } else {
      SamePursuit(s, c, v, w);
    }
  }
}

/** The portable pursuit model: identities, terms, decisions, grants, actions and the kernel state. */
module Model {
  import opened Base

  // Sixteen-byte identities, ordered as big-endian numbers.
  type Id = nat
  type ActorId = Id
  type OwnerId = Id
  type LedgerId = Id
  type ChangeId = Id
  type ProposalId = Id
  type AgreementId = Id
  type AssessmentId = Id
  type DecisionId = Id
  type GrantId = Id
  type ActionId = Id
  type OperationId = Id
  type ContentId = Id
  type GroundId = Id
  type GroundVersion = Id
  type CriterionId = Id
  type ScopeId = Id
  type LimitId = Id
  type NativeActionId = Id
  type ContextVersion = Id

  datatype Error = Invalid | Conflict | Denied | Stale | Unavailable | Terminal | NeedsRevision

  type Checked<+T> = Result<T, Error>
  type Check = Outcome<Error>

  datatype ChangeKey = ChangeKey(owner: OwnerId, ledger: LedgerId, change: ChangeId)

  datatype ContentKey = ContentKey(establishing: ChangeKey, id: ContentId)

  datatype Identity = Identity(owner: OwnerId, ownerActor: ActorId, ledger: LedgerId, change: ChangeId, agent: ActorId) {
    function Key(): ChangeKey {
      ChangeKey(owner, ledger, change)
    }
  }

  datatype Dependency = Dependency(ground: GroundId, version: GroundVersion)

  datatype Evidence = Evidence(source: ActorId, content: ContentKey, limitations: ContentKey)

  datatype ContentReference = ContentReference(identity: Identity, operation: OperationId, content: ContentKey)

  datatype TermSelection = TermSelection(statement: ContentReference, context: set<ContentReference>)

  datatype Unknown = Unknown(question: ContentKey, boundedBy: ContentKey, affected: set<ContentReference>)

  datatype Criterion = Criterion(id: CriterionId, definition: ContentReference, terms: set<ContentReference>)

  datatype Terms = Terms(
    binding: seq<TermSelection>,
    context: set<ContentReference>,
    unknowns: seq<Unknown>,
    criteria: seq<Criterion>)

  datatype Proposal = Proposal(
    id: ProposalId,
    agreement: AgreementId,
    identity: Identity,
    expectedAgreement: Option<AgreementId>,
    terms: Terms,
    dependencies: seq<Dependency>)

  datatype Assessment = Assessment(
    id: AssessmentId,
    proposal: ProposalId,
    feasibility: ContentKey,
    capabilities: ContentKey,
    resources: ContentKey,
    commitments: ContentKey,
    coverage: ContentKey,
    limitations: ContentKey,
    dependencies: seq<Dependency>,
    blockers: seq<ContentKey>)

  datatype DecisionKind = Adopt | Undertake(assessment: AssessmentId)

  datatype Decision = Decision(id: DecisionId, proposal: ProposalId, kind: DecisionKind, dependencies: seq<Dependency>)

  datatype GrantUse = GrantUse(id: GrantId, generation: nat)

  datatype Access = ByOwner | ByGrant(used: GrantUse)

  datatype GrantTarget =
    | DraftCreation(change: ChangeId)
    | Draft(change: ChangeId)
    | Pursuit(agreement: AgreementId)
    | Reconciliation(actions: set<ActionId>)

  datatype GrantAction =
    | CreateDraft | MayPropose | MayAssess | MayFind | MayAdapt | MayProgress | MayAdmit | MayDispatch | MayReconcile

  datatype ContentLimits = ContentLimits(items: nat, payloadBytes: nat)

  datatype ContentUsage = ContentUsage(items: nat, payloadBytes: nat) {
    predicate Within(limits: ContentLimits) {
      items <= limits.items && payloadBytes <= limits.payloadBytes
    }
  }

  datatype OriginScope = OriginScope(identity: Identity, grant: GrantUse, target: GrantTarget)

  datatype ContentOrigin = ContentOrigin(
    binding: ContentReference,
    recorder: ActorId,
    representedOwner: OwnerId,
    grant: GrantUse,
    target: GrantTarget)

  datatype OriginSelector = CurrentGrant | Historical(origin: ContentOrigin)

  datatype GrantSpec = GrantSpec(
    recipient: ActorId,
    target: GrantTarget,
    actions: set<GrantAction>,
    contentItems: set<ContentKey>,
    disclosure: set<ContentKey>,
    creation: Option<ContentLimits>,
    contentOrigins: set<OriginSelector>,
    disclosureOrigins: set<OriginSelector>,
    nativeActions: set<NativeActionId>,
    nativeScope: set<ScopeId>,
    limits: set<LimitId>)

  datatype Grant = Grant(id: GrantId, generation: nat, spec: GrantSpec, revoked: bool)

  datatype Disposition = Supports | Challenges | UnknownDisposition

  datatype Finding = Finding(
    agreement: Option<AgreementId>,
    claim: ContentKey,
    evidence: seq<Evidence>,
    disposition: Disposition)

  datatype Adaptation = Adaptation(
    agreement: AgreementId,
    previousApproach: ContentKey,
    changedApproach: ContentKey,
    grounds: seq<Evidence>,
    discretion: ScopeId)

  datatype ProgressValue = Advanced | Unchanged | Regressed | UnknownProgress

  datatype ProgressDimension = ProgressDimension(value: ProgressValue, assessment: ContentKey)

  datatype ChangeBasis = Observation | CorrectedUnderstanding | RevisedTargets

  datatype Progress = Progress(
    agreement: AgreementId,
    terms: set<ContentReference>,
    criteria: set<CriterionId>,
    evidence: seq<Evidence>,
    understanding: ProgressDimension,
    outcome: ProgressDimension,
    basis: ChangeBasis)

  datatype ActionRequest = ActionRequest(
    id: ActionId,
    agreement: AgreementId,
    grant: GrantUse,
    nativeAction: NativeActionId,
    scope: set<ScopeId>,
    limits: set<LimitId>,
    dependencies: seq<Dependency>,
    conditions: seq<ContentKey>)

  datatype ActionPhase = Admitted | Dispatched | Reconciled

  datatype ActionOutcome = UnknownOutcome | ReportedApplied | ReportedNotApplied | ReportedPartial

  datatype Action = Action(
    request: ActionRequest,
    actor: ActorId,
    phase: ActionPhase,
    admissionDependencies: map<GroundId, GroundVersion>,
    evidence: seq<Evidence>,
    outcome: ActionOutcome)

  datatype CriterionEvidence = CriterionEvidence(criterion: CriterionId, evidence: seq<Evidence>)

  datatype Resolution = Resolution(blocker: ContentKey, evidence: seq<Evidence>)

  datatype Fulfillment = Fulfillment(
    agreement: AgreementId,
    criteria: seq<CriterionEvidence>,
    resolutions: seq<Resolution>,
    acceptance: ContentKey)

  datatype Settlement = Fulfilled(agreement: AgreementId) | Withdrawn

  datatype Command =
    | Initiate(wish: ContentKey, access: Access)
    | Propose(proposal: Proposal, access: Access)
    | Assess(assessment: Assessment, access: Access)
    | Decide(decided: Decision)
    | Retract(retracted: DecisionId)
    | Reaffirm(reaffirmed: DecisionId, dependencies: seq<Dependency>, renewal: Option<AssessmentId>)
    | SetGrant(id: GrantId, expectedGeneration: Option<nat>, spec: GrantSpec)
    | RevokeGrant(id: GrantId, revokedGeneration: nat)
    | Admit(request: ActionRequest)
    | Dispatch(dispatched: ActionId)
    | RecordFinding(finding: Finding, access: Access)
    | Adapt(adaptation: Adaptation, access: Access)
    | RecordProgress(progress: Progress, access: Access)
    | Fulfill(fulfillment: Fulfillment)
    | Withdraw(reason: ContentKey)
    | Reconcile(action: ActionId, grant: GrantUse, evidence: seq<Evidence>, outcome: ActionOutcome)

  datatype FreshContent = FreshContent(
    key: ContentKey,
    derivedFrom: set<ContentReference>,
    bytes: Bytes,
    attributedSource: ActorId)

  datatype Operation = Operation(
    id: OperationId,
    command: Command,
    freshContent: seq<FreshContent>,
    firstRetention: set<ContentKey>)

  datatype Effect =
    | Initiated
    | Proposed(proposal: ProposalId)
    | Assessed(assessment: AssessmentId)
    | Decided(decision: DecisionId, activated: Option<AgreementId>)
    | Retracted(decision: DecisionId)
    | Reaffirmed(decision: DecisionId, activated: Option<AgreementId>)
    | Granted(grant: GrantUse)
    | Revoked(grant: GrantUse)
    | ActionAdmitted(action: ActionId)
    | ActionDispatched(action: ActionId)
    | Recorded
    | Settled(settlement: Settlement)
    | ActionReconciled(action: ActionId)

  datatype Accepted = Accepted(operation: OperationId, actor: ActorId, representedOwner: OwnerId, effect: Effect)

  datatype Authority = Authority(
    actor: ActorId,
    representedOwner: OwnerId,
    ownerControl: Option<Identity>,
    agentRole: Option<Identity>)

  datatype ScopeJudgment = WithinDiscretion(evidence: Evidence) | RequiresRevision | JudgmentUnavailable

  datatype NativeConditions = NativeConditions(action: ActionId, evidence: seq<Evidence>)

  datatype Validation = Validation(
    authority: Authority,
    contentItems: set<ContentKey>,
    freshKeys: set<ContentKey>,
    grounds: map<GroundId, GroundVersion>,
    scope: Option<ScopeJudgment>,
    native: Option<NativeConditions>)

  datatype EffectiveDecision = EffectiveDecision(
    decision: Decision,
    actor: ActorId,
    retracted: bool,
    matched: bool,
    blockers: set<ContentKey>)

  datatype Agreement = Agreement(
    proposal: ProposalId,
    adoption: DecisionId,
    undertaking: DecisionId,
    blockers: set<ContentKey>)

  datatype RecordedContent = RecordedContent(payload: FreshContent, origin: ContentOrigin)

  datatype ContentCreation = ContentCreation(
    grant: Grant,
    contentItems: map<ContentKey, RecordedContent>,
    usage: ContentUsage)

  datatype InputKind = NewContribution | PreExisting

  datatype BindingKnowledge = NoKnownBinding | Known(key: ContentKey)

  datatype Attribution = Unattributed | AttributedTo(actor: ActorId)

  datatype SourceClaim = SourceClaim(
    inputKind: InputKind,
    bindingKnowledge: BindingKnowledge,
    attribution: Attribution,
    limitations: Bytes)
  {
    predicate SameStableFacts(other: SourceClaim) {
      attribution == other.attribution && limitations == other.limitations
    }
  }

  datatype IntakeCase = Fresh | FirstRetention | KnownReuse

  datatype IntakeSnapshot = IntakeSnapshot(
    intakeCase: IntakeCase,
    sourceClaim: SourceClaim,
    priorEstablishment: Option<ContentReference>)

  datatype ContentEstablishment = ContentEstablishment(
    binding: ContentReference,
    original: IntakeSnapshot,
    recorder: ActorId,
    representedOwner: OwnerId,
    grant: Option<GrantUse>,
    target: Option<GrantTarget>)

  /** The kernel state together with the content catalogue the application retains beside it. */
  datatype State = State(
    identity: Identity,
    initiated: bool,
    current: Option<AgreementId>,
    settlement: Option<Settlement>,
    proposals: map<ProposalId, Proposal>,
    assessments: map<AssessmentId, Assessment>,
    decisions: map<DecisionId, EffectiveDecision>,
    agreements: map<AgreementId, Agreement>,
    grants: map<GrantId, Grant>,
    actions: map<ActionId, Action>,
    history: map<OperationId, (Operation, Accepted)>,
    lastOperation: Option<OperationId>,
    contentItems: map<ContentKey, Bytes>,
    created: map<ContentKey, RecordedContent>,
    established: map<ContentKey, ContentEstablishment>)

  function EmptyState(identity: Identity): State {
    State(identity, false, None, None, map[], map[], map[], map[], map[], map[], map[], None, map[], map[], map[])
  }

  /** A new pursuit needs two distinct participants. */
  function NewState(identity: Identity): Checked<State> {
    if identity.ownerActor == identity.agent then Err(Invalid) else Ok(EmptyState(identity))
  }
}

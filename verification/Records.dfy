/** Retained operations, what was checked for them, and the claims derived from them. */
module Records {
  import opened Base
  import opened Model
  import opened Rules

  datatype ReadScope =
    | ChangeScope(change: ChangeId)
    | OperationScope(operation: OperationId)
    | OriginsOf(origin: OriginScope)
    | ContentScope(content: ContentKey)
    | ActionScope(action: ActionId)

  datatype Context = Context(version: ContextVersion, authority: Authority, disclosure: set<ReadScope>)

  /** Everything one operation was accepted on. */
  datatype Checks = Checks(
    identity: Identity,
    expectedOperation: Option<OperationId>,
    context: Context,
    disclosure: ReadScope,
    disclosureOrigin: Option<OriginScope>,
    creation: Option<ContentCreation>,
    contentItems: map<ContentKey, Bytes>,
    intakes: map<ContentKey, IntakeSnapshot>,
    grounds: map<GroundId, GroundVersion>,
    adaptation: Option<(Adaptation, ScopeJudgment)>,
    native: Option<(ActionRequest, NativeConditions)>)

  datatype Profile = Profile(codec: nat, schema: nat, semantic: nat)

  const CURRENT_PROFILE := Profile(3, 3, 3)

  datatype OperationRequest = OperationRequest(
    profile: Profile,
    target: ChangeKey,
    actor: ActorId,
    representedOwner: OwnerId,
    operation: Operation)

  datatype CreatedIdentity =
    | OfOperation(operation: OperationId)
    | OfProposal(proposal: ProposalId)
    | OfAgreement(agreement: AgreementId)
    | OfAssessment(assessment: AssessmentId)
    | OfDecision(decision: DecisionId)
    | OfGrant(grant: GrantId)
    | OfAction(action: ActionId)
    | OfCriterion(criterion: CriterionId)

  datatype StoredOperation = StoredOperation(
    profile: Profile,
    sequence: nat,
    operation: Operation,
    accepted: Accepted,
    checks: Checks,
    usedGrant: Option<GrantUse>,
    grantSnapshot: Option<Grant>,
    creations: set<CreatedIdentity>,
    establishments: set<ContentKey>,
    retained: set<ContentKey>)

  datatype HistoryHead = HistoryHead(
    profile: Profile,
    identity: Identity,
    acceptedOperations: nat,
    lastOperation: Option<OperationId>)

  /** The declaration a record retains, refused when the record contradicts itself. */
  function RequestOf(r: StoredOperation): Checked<OperationRequest> {
    var authority := r.checks.context.authority;
    :- Need(r.accepted.operation == r.operation.id && r.accepted.actor == authority.actor
            && r.accepted.representedOwner == authority.representedOwner
            && authority.representedOwner == r.checks.identity.owner, Invalid);
    Ok(OperationRequest(r.profile, r.checks.identity.Key(), r.accepted.actor, r.accepted.representedOwner, r.operation))
  }

  // ----- the grant behind a command

  function AccessGrant(access: Access): Option<GrantUse> {
    match access
    case ByOwner => None
    case ByGrant(used) => Some(used)
  }

  /** The grant under which a command may bring fresh content. */
  function CreatingGrant(c: Command): Option<GrantUse> {
    match c
    case Initiate(_, access) => AccessGrant(access)
    case Propose(_, access) => AccessGrant(access)
    case Assess(_, access) => AccessGrant(access)
    case RecordFinding(_, access) => AccessGrant(access)
    case Adapt(_, access) => AccessGrant(access)
    case RecordProgress(_, access) => AccessGrant(access)
    case Reconcile(_, used, _, _) => Some(used)
    case _ => None
  }

  function UsedGrant(c: Command, s: State): Option<GrantUse> {
    match c
    case Admit(a) => Some(a.grant)
    case Dispatch(id) => if id in s.actions then Some(s.actions[id].request.grant) else None
    case _ => CreatingGrant(c)
  }

  function GrantSnapshot(used: Option<GrantUse>, s: State): Option<Grant> {
    if used.Some? && used.value.id in s.grants then Some(s.grants[used.value.id]) else None
  }

  // ----- fresh content

  /** Items and payload bytes of the fresh contents, within the source's 64-bit counters. */
  function Measure(payloads: seq<FreshContent>): Checked<ContentUsage> {
    if payloads == [] then Ok(ContentUsage(0, 0))
    else
      var usage :- Measure(payloads[..|payloads| - 1]);
      var size := |payloads[|payloads| - 1].bytes|;
      :- Need(usage.items + 1 <= U64_MAX && size <= U64_MAX && usage.payloadBytes + size <= U64_MAX, Invalid);
      Ok(ContentUsage(usage.items + 1, usage.payloadBytes + size))
  }

  function RecordedOrigin(s: State, op: Operation, used: GrantUse, g: Grant, a: Authority, payload: FreshContent): RecordedContent {
    RecordedContent(payload,
                    ContentOrigin(ContentReference(s.identity, op.id, payload.key), a.actor, a.representedOwner, used, g.spec.target))
  }

  function CreatedContents(s: State, op: Operation, used: GrantUse, g: Grant, a: Authority, payloads: seq<FreshContent>)
    : Checked<map<ContentKey, RecordedContent>>
  {
    if payloads == [] then Ok(map[])
    else
      var earlier :- CreatedContents(s, op, used, g, a, payloads[..|payloads| - 1]);
      var payload := payloads[|payloads| - 1];
      :- Need(payload.key.establishing == s.identity.Key(), Unavailable);
      :- Need(payload.key !in s.contentItems && payload.key !in earlier, Conflict);
      Ok(earlier[payload.key := RecordedOrigin(s, op, used, g, a, payload)])
  }

  /** What an operation may create, charged to its grant's limits. */
  function PrepareCreation(s: State, op: Operation, a: Authority): Checked<Option<ContentCreation>> {
    if op.freshContent == [] then Ok(None)
    else
      match CreatingGrant(op.command)
      case None => Err(Denied)
      case Some(used) =>
        var g :- GrantFor(s, used, a);
        :- Need(g.spec.creation.Some?, Denied);
        var usage :- Measure(op.freshContent);
        :- Need(usage.Within(g.spec.creation.value), Denied);
        var contents :- CreatedContents(s, op, used, g, a, op.freshContent);
        Ok(Some(ContentCreation(g, contents, usage)))
  }

  function FreshFor(payloads: seq<FreshContent>, key: ContentKey): (found: Option<FreshContent>)
    ensures found.Some? <==> key in FreshKeys(payloads)
    ensures found.Some? ==> found.value in payloads && found.value.key == key
  {
    if payloads == [] then None
    else if payloads[0].key == key then Some(payloads[0])
    else
      assert FreshKeys(payloads) == {payloads[0].key} + FreshKeys(payloads[1..]);
      FreshFor(payloads[1..], key)
  }

  function FreshKeys(payloads: seq<FreshContent>): set<ContentKey> {
    set p | p in payloads :: p.key
  }

  // ----- derived claims

  function NewCriteria(s: State, t: Terms): set<CriterionId> {
    set c | c in t.criteria && !(exists prior :: prior in CriteriaOf(s) && prior.id == c.id) :: c.id
  }

  /** The typed identities an operation creates. */
  function CreationClaims(s: State, op: Operation): set<CreatedIdentity> {
    {OfOperation(op.id)} +
    match op.command
    case Propose(p, _) => {OfProposal(p.id), OfAgreement(p.agreement)} + (set c | c in NewCriteria(s, p.terms) :: OfCriterion(c))
    case Assess(a, _) => {OfAssessment(a.id)}
    case Decide(d) => {OfDecision(d.id)}
    case SetGrant(id, _, _) => if id in s.grants then {} else {OfGrant(id)}
    case Admit(a) => {OfAction(a.id)}
    case _ => {}
  }

  function EstablishmentClaims(op: Operation): set<ContentKey> {
    FreshKeys(op.freshContent) + op.firstRetention
  }

  /** First local membership of content the operation did not bring. */
  function RetainedBindings(s: State, op: Operation, checks: Checks): set<ContentKey> {
    set k | k in checks.contentItems && k !in s.contentItems && k !in FreshKeys(op.freshContent)
  }

  // ----- retention

  function EstablishmentBy(r: StoredOperation, key: ContentKey): ContentEstablishment
    requires key in r.checks.intakes
  {
    ContentEstablishment(
      ContentReference(r.checks.identity, r.operation.id, key),
      r.checks.intakes[key],
      r.accepted.actor,
      r.accepted.representedOwner,
      r.usedGrant,
      if r.grantSnapshot.Some? then Some(r.grantSnapshot.value.spec.target) else None)
  }

  function Established(r: StoredOperation): map<ContentKey, ContentEstablishment>
    requires r.establishments <= r.checks.intakes.Keys
  {
    map key | key in r.establishments :: EstablishmentBy(r, key)
  }

  function CreatedBy(r: StoredOperation): map<ContentKey, RecordedContent> {
    if r.checks.creation.Some? then r.checks.creation.value.contentItems else map[]
  }

  /** The catalogue after an accepted record joins it. */
  function Retain(s: State, r: StoredOperation): State
    requires r.establishments <= r.checks.intakes.Keys
  {
    s.(established := s.established + Established(r),
       contentItems := s.contentItems + r.checks.contentItems,
       created := s.created + CreatedBy(r),
       history := s.history[r.operation.id := (r.operation, r.accepted)],
       lastOperation := Some(r.operation.id))
  }
}

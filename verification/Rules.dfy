/** The portable rules: what one command needs, and the state and effect it produces. */
module Rules {
  import opened Base
  import opened Model

  // ----- content and ground requirements

  function EvidenceContents(evidence: seq<Evidence>): set<ContentKey> {
    (set e | e in evidence :: e.content) + (set e | e in evidence :: e.limitations)
  }

  function TermReferences(t: Terms): set<ContentReference> {
    (set b | b in t.binding :: b.statement)
    + (set b, r | b in t.binding && r in b.context :: r)
    + t.context
    + (set c | c in t.criteria :: c.definition)
    + (set c, r | c in t.criteria && r in c.terms :: r)
    + (set u, r | u in t.unknowns && r in u.affected :: r)
  }

  function ContentsOf(references: set<ContentReference>): set<ContentKey> {
    set r | r in references :: r.content
  }

  function TermContents(t: Terms): set<ContentKey> {
    ContentsOf(TermReferences(t))
    + (set u | u in t.unknowns :: u.question)
    + (set u | u in t.unknowns :: u.boundedBy)
  }

  function AssessmentContents(a: Assessment): set<ContentKey> {
    {a.feasibility, a.capabilities, a.resources, a.commitments, a.coverage, a.limitations}
    + (set b | b in a.blockers)
  }

  function GroundsOf(deps: seq<Dependency>): set<GroundId> {
    set d | d in deps :: d.ground
  }

  /** Binding statements and criterion definitions stay apart from nonbinding context, by content identity. */
  function ValidateRoles(t: Terms): Check {
    var selected := set b | b in t.binding :: b.statement;
    if |selected| != |t.binding|
       || (exists b :: b in t.binding && !(b.context <= t.context))
       || (exists c :: c in t.criteria && (c.terms == {} || !(c.terms <= selected)))
    then Fail(Invalid)
    else
      var binding := ContentsOf(selected) + (set c | c in t.criteria :: c.definition.content);
      if exists r :: r in t.context && r.content in binding then Fail(Conflict) else Pass
  }

  // ----- ground dependencies

  /** A dependency list is current when no ground repeats and every ground is observed at its version. */
  function DependenciesValid(deps: seq<Dependency>, current: map<GroundId, GroundVersion>): Check {
    DependenciesValidAfter(deps, {}, current)
  }

  function DependenciesValidAfter(deps: seq<Dependency>, seen: set<GroundId>, current: map<GroundId, GroundVersion>): Check {
    if deps == [] then Pass
    else if deps[0].ground in seen then Fail(Invalid)
    else if !(deps[0].ground in current && current[deps[0].ground] == deps[0].version) then Fail(Stale)
    else DependenciesValidAfter(deps[1..], seen + {deps[0].ground}, current)
  }

  predicate Observed(deps: map<GroundId, GroundVersion>, current: map<GroundId, GroundVersion>) {
    forall g :: g in deps ==> g in current && current[g] == deps[g]
  }

  function ObservedCheck(deps: map<GroundId, GroundVersion>, current: map<GroundId, GroundVersion>): Check {
    Need(Observed(deps, current), Stale)
  }

  /** Later entries of a list replace earlier ones for the same ground. */
  function Collected(deps: seq<Dependency>): map<GroundId, GroundVersion> {
    if deps == [] then map[]
    else Collected(deps[..|deps| - 1])[deps[|deps| - 1].ground := deps[|deps| - 1].version]
  }

  predicate NoRepeatedGround(deps: seq<Dependency>) {
    forall i, j :: 0 <= i < j < |deps| ==> deps[i].ground != deps[j].ground
  }

  predicate NoContradiction(a: seq<Dependency>, b: seq<Dependency>) {
    forall x, y :: x in a && y in b && x.ground == y.ground ==> x.version == y.version
  }

  function Merged(a: map<GroundId, GroundVersion>, b: map<GroundId, GroundVersion>): Checked<map<GroundId, GroundVersion>> {
    if exists g :: g in a && g in b && a[g] != b[g] then Err(Stale) else Ok(a + b)
  }

  // ----- access

  function CheckOwner(s: State, a: Authority): Check {
    Need(a.actor == s.identity.ownerActor && a.representedOwner == s.identity.owner
         && a.ownerControl == Some(s.identity), Denied)
  }

  function CheckAgent(s: State, a: Authority): Check {
    Need(a.actor == s.identity.agent && a.representedOwner == s.identity.owner
         && a.agentRole == Some(s.identity), Denied)
  }

  function CheckParty(s: State, kind: DecisionKind, a: Authority): Check {
    match kind
    case Adopt => CheckOwner(s, a)
    case Undertake(_) => CheckAgent(s, a)
  }

  function GrantFor(s: State, used: GrantUse, a: Authority): Checked<Grant> {
    var g :- Found(s.grants, used.id, Denied);
    :- Need(!g.revoked && g.generation == used.generation && g.spec.recipient == a.actor
            && a.representedOwner == s.identity.owner, Denied);
    Ok(g)
  }

  predicate SelectedOrigin(s: State, key: ContentKey, g: Grant, selectors: set<OriginSelector>) {
    && key in s.created
    && var origin := s.created[key].origin;
    && origin.binding.identity == s.identity
    && exists selector :: selector in selectors &&
         match selector
         case CurrentGrant =>
           origin.grant.id == g.id && origin.grant.generation == g.generation && origin.target == g.spec.target
         case Historical(exact) => origin == exact
  }

  predicate CoversContentItems(s: State, g: Grant, v: Validation) {
    forall key :: key in v.contentItems ==>
      key in v.freshKeys || key in g.spec.contentItems || SelectedOrigin(s, key, g, g.spec.contentOrigins)
  }

  function HistoricalOrigins(spec: GrantSpec): set<ContentOrigin> {
    set selector | selector in spec.contentOrigins + spec.disclosureOrigins && selector.Historical? :: selector.origin
  }

  /** Every historical selector names an origin this pursuit accepted; foreign contents are unavailable. */
  function ValidateOriginSelectors(s: State, spec: GrantSpec): Check {
    if exists o :: o in HistoricalOrigins(spec) && o.binding.content.establishing != s.identity.Key()
    then Fail(Unavailable)
    else Need(forall o :: o in HistoricalOrigins(spec) ==>
                o.binding.identity == s.identity
                && o.binding.content in s.created && s.created[o.binding.content].origin == o, Denied)
  }

  function RecordAccess(s: State, access: Access, action: GrantAction, agreement: Option<AgreementId>, v: Validation): Check {
    match access
    case ByOwner => CheckOwner(s, v.authority)
    case ByGrant(used) =>
      match GrantFor(s, used, v.authority)
      case Err(e) => Fail(e)
      case Ok(g) =>
        if action !in g.spec.actions || !CoversContentItems(s, g, v) then Fail(Denied)
        else
          match (g.spec.target, agreement)
          case (DraftCreation(change), None) =>
            Need(action == CreateDraft && change == s.identity.change && !s.initiated, Denied)
          case (Draft(change), None) => Need(change == s.identity.change, Denied)
          case (Pursuit(target), Some(current)) => Need(target == current, Denied)
          case _ => Fail(Denied)
  }

  // ----- agreements and the grounds they rest on

  function CurrentAgreement(s: State, id: AgreementId): Checked<Agreement> {
    var allowed := Need(s.settlement.None?, Terminal);
    :- allowed;
    :- Need(s.current == Some(id), Stale);
    Found(s.agreements, id, Invalid)
  }

  function DecisionDependencies(s: State, d: Decision): Checked<map<GroundId, GroundVersion>> {
    var p :- Found(s.proposals, d.proposal, Invalid);
    var assessed :- AssessedDependencies(s, p, d);
    :- Need(NoRepeatedGround(d.dependencies), Invalid);
    Ok(Collected(p.dependencies) + assessed + Collected(d.dependencies))
  }

  /** What the undertaken assessment adds; the decision may not contradict it. */
  function AssessedDependencies(s: State, p: Proposal, d: Decision): Checked<map<GroundId, GroundVersion>> {
    match d.kind
    case Adopt => Ok(map[])
    case Undertake(id) =>
      var a :- Found(s.assessments, id, Invalid);
      :- Need(a.proposal == p.id, Conflict);
      :- Need(NoContradiction(d.dependencies, a.dependencies), Stale);
      Ok(Collected(a.dependencies))
  }

  function AgreementDependencies(s: State, id: AgreementId): Checked<map<GroundId, GroundVersion>> {
    var a :- Found(s.agreements, id, Invalid);
    var adoption :- Found(s.decisions, a.adoption, Invalid);
    var adopted :- DecisionDependencies(s, adoption.decision);
    var undertaking :- Found(s.decisions, a.undertaking, Invalid);
    var undertaken :- DecisionDependencies(s, undertaking.decision);
    Merged(adopted, undertaken)
  }

  function CurrentGrounds(s: State, id: AgreementId, v: Validation): Check {
    match CurrentAgreement(s, id)
    case Err(e) => Fail(e)
    case Ok(_) =>
      match AgreementDependencies(s, id)
      case Err(e) => Fail(e)
      case Ok(deps) => ObservedCheck(deps, v.grounds)
  }

  // ----- what a command requires to be observed

  datatype Needs = Needs(contents: set<ContentKey>, grounds: set<GroundId>) {
    function Plus(other: Needs): Needs {
      Needs(contents + other.contents, grounds + other.grounds)
    }
  }

  function ProposalNeeds(s: State, id: ProposalId): Checked<Needs> {
    var p :- Found(s.proposals, id, Invalid);
    Ok(Needs(TermContents(p.terms), GroundsOf(p.dependencies)))
  }

  function AssessmentNeeds(a: Assessment): Needs {
    Needs(AssessmentContents(a), GroundsOf(a.dependencies))
  }

  function DecisionNeeds(s: State, d: Decision): Checked<Needs> {
    var proposal :- ProposalNeeds(s, d.proposal);
    var own := proposal.Plus(Needs({}, GroundsOf(d.dependencies)));
    match d.kind
    case Adopt => Ok(own)
    case Undertake(id) =>
      var a :- Found(s.assessments, id, Invalid);
      Ok(own.Plus(AssessmentNeeds(a)))
  }

  /** A decision about the proposal that has not been retracted. */
  predicate LivePeer(decisions: map<DecisionId, EffectiveDecision>, id: DecisionId, proposal: ProposalId) {
    id in decisions && !decisions[id].retracted && decisions[id].decision.proposal == proposal
  }

  /** The needs of every unretracted decision about a proposal. */
  function PeerNeeds(s: State, ids: seq<DecisionId>, proposal: ProposalId): Checked<Needs> {
    if ids == [] then Ok(Needs({}, {}))
    else if !LivePeer(s.decisions, ids[0], proposal) then PeerNeeds(s, ids[1..], proposal)
    else
      var first :- DecisionNeeds(s, s.decisions[ids[0]].decision);
      var rest :- PeerNeeds(s, ids[1..], proposal);
      Ok(first.Plus(rest))
  }

  function AgreementNeeds(s: State, id: AgreementId): Checked<Needs> {
    var a :- Found(s.agreements, id, Invalid);
    var adoption :- Found(s.decisions, a.adoption, Invalid);
    var adopted :- DecisionNeeds(s, adoption.decision);
    var undertaking :- Found(s.decisions, a.undertaking, Invalid);
    var undertaken :- DecisionNeeds(s, undertaking.decision);
    Ok(Needs(a.blockers, {}).Plus(adopted).Plus(undertaken))
  }

  function SomeAgreementNeeds(s: State, id: Option<AgreementId>): Checked<Needs> {
    match id
    case None => Ok(Needs({}, {}))
    case Some(a) => AgreementNeeds(s, a)
  }

  function Requirements(s: State, c: Command): Checked<Needs> {
    match c
    case Initiate(wish, _) => Ok(Needs({wish}, {}))
    case Propose(p, _) => Ok(Needs(TermContents(p.terms), GroundsOf(p.dependencies)))
    case Assess(a, _) =>
      var proposal :- ProposalNeeds(s, a.proposal);
      Ok(proposal.Plus(AssessmentNeeds(a)))
    case Decide(d) =>
      var own :- DecisionNeeds(s, d);
      var peers :- PeerNeeds(s, Rising(s.decisions.Keys), d.proposal);
      Ok(own.Plus(peers))
    case Retract(_) => Ok(Needs({}, {}))
    case RevokeGrant(_, _) => Ok(Needs({}, {}))
    case Reaffirm(id, dependencies, renewal) =>
      var prior :- Found(s.decisions, id, Invalid);
      var own :- DecisionNeeds(s, prior.decision);
      var peers :- PeerNeeds(s, Rising(s.decisions.Keys), prior.decision.proposal);
      var renewed :- RenewalNeeds(s, renewal);
      Ok(own.Plus(peers).Plus(renewed).Plus(Needs({}, GroundsOf(dependencies))))
    case SetGrant(_, _, spec) =>
      (match ValidateOriginSelectors(s, spec)
       case Fail(e) => Err(e)
       case Pass =>
         Ok(Needs(spec.contentItems + spec.disclosure
                  + (set o | o in HistoricalOrigins(spec) :: o.binding.content), {})))
    case Admit(a) =>
      var agreement :- AgreementNeeds(s, a.agreement);
      Ok(agreement.Plus(Needs((set k | k in a.conditions), GroundsOf(a.dependencies))))
    case Dispatch(id) =>
      var a :- Found(s.actions, id, Invalid);
      var agreement :- AgreementNeeds(s, a.request.agreement);
      Ok(agreement.Plus(Needs((set k | k in a.request.conditions),
                              GroundsOf(a.request.dependencies) + a.admissionDependencies.Keys)))
    case RecordFinding(f, _) =>
      var agreement :- SomeAgreementNeeds(s, f.agreement);
      Ok(agreement.Plus(Needs({f.claim} + EvidenceContents(f.evidence), {})))
    case Adapt(a, _) =>
      var agreement :- AgreementNeeds(s, a.agreement);
      Ok(agreement.Plus(Needs({a.previousApproach, a.changedApproach} + EvidenceContents(a.grounds), {})))
    case RecordProgress(p, _) =>
      var agreement :- AgreementNeeds(s, p.agreement);
      Ok(agreement.Plus(Needs({p.understanding.assessment, p.outcome.assessment} + EvidenceContents(p.evidence), {})))
    case Fulfill(f) =>
      var agreement :- AgreementNeeds(s, f.agreement);
      Ok(agreement.Plus(Needs({f.acceptance}
                              + (set e, k | e in f.criteria && k in EvidenceContents(e.evidence) :: k)
                              + (set r | r in f.resolutions :: r.blocker)
                              + (set r, k | r in f.resolutions && k in EvidenceContents(r.evidence) :: k), {})))
    case Withdraw(reason) => Ok(Needs({reason}, {}))
    case Reconcile(_, _, evidence, _) => Ok(Needs(EvidenceContents(evidence), {}))
  }

  function RenewalNeeds(s: State, renewal: Option<AssessmentId>): Checked<Needs> {
    match renewal
    case None => Ok(Needs({}, {}))
    case Some(id) =>
      var a :- Found(s.assessments, id, Invalid);
      Ok(AssessmentNeeds(a))
  }

  // ----- activation

  /** Scans decisions in rising order; the last live match of each kind wins. */
  function MatchingDecisions(s: State, ids: seq<DecisionId>, proposal: ProposalId, v: Validation,
                             adopt: Option<DecisionId>, undertake: Option<DecisionId>)
    : Checked<(Option<DecisionId>, Option<DecisionId>)>
  {
    if ids == [] then Ok((adopt, undertake))
    else if !LivePeer(s.decisions, ids[0], proposal) then MatchingDecisions(s, ids[1..], proposal, v, adopt, undertake)
    else
      var d := s.decisions[ids[0]].decision;
      var deps :- DecisionDependencies(s, d);
      if !Observed(deps, v.grounds) then MatchingDecisions(s, ids[1..], proposal, v, adopt, undertake)
      else if d.kind.Adopt? then MatchingDecisions(s, ids[1..], proposal, v, Some(ids[0]), undertake)
      else MatchingDecisions(s, ids[1..], proposal, v, adopt, Some(ids[0]))
  }

  function ExtendBlockers(s: State, id: AgreementId): Checked<State> {
    var a :- Found(s.agreements, id, Invalid);
    var undertaking :- Found(s.decisions, a.undertaking, Invalid);
    Ok(s.(agreements := s.agreements[id := a.(blockers := a.blockers + undertaking.blockers)]))
  }

  function InheritedBlockers(s: State): Checked<set<ContentKey>> {
    match s.current
    case None => Ok({})
    case Some(current) =>
      var a :- Found(s.agreements, current, Invalid);
      Ok(a.blockers)
  }

  function BothMatched(decisions: map<DecisionId, EffectiveDecision>, adoption: DecisionId, undertaking: DecisionId)
    : map<DecisionId, EffectiveDecision>
    requires adoption in decisions && undertaking in decisions
  {
    var one := decisions[adoption := decisions[adoption].(matched := true)];
    one[undertaking := one[undertaking].(matched := true)]
  }

  function Conclude(s: State, p: Proposal, adoption: DecisionId, undertaking: DecisionId): Checked<State>
    requires adoption in s.decisions && undertaking in s.decisions
  {
    var inherited :- InheritedBlockers(s);
    Ok(s.(decisions := BothMatched(s.decisions, adoption, undertaking),
          agreements := s.agreements[p.agreement :=
                          Agreement(p.id, adoption, undertaking, s.decisions[undertaking].blockers + inherited)],
          current := Some(p.agreement)))
  }

  /** A proposal becomes the agreement once both parties stand behind it on observed grounds. */
  function Activate(s: State, proposal: ProposalId, v: Validation): Checked<(State, Option<AgreementId>)> {
    var p :- Found(s.proposals, proposal, Invalid);
    if s.current == Some(p.agreement) then
      var extended :- ExtendBlockers(s, p.agreement);
      Ok((extended, None))
    else if p.expectedAgreement != s.current || s.settlement.Some? then Err(Stale)
    else
      var found :- MatchingDecisions(s, Rising(s.decisions.Keys), proposal, v, None, None);
      match found
      case (Some(adoption), Some(undertaking)) =>
        var _ :- Found(s.decisions, adoption, Invalid);
        var _ :- Found(s.decisions, undertaking, Invalid);
        var concluded :- Conclude(s, p, adoption, undertaking);
        Ok((concluded, Some(p.agreement)))
      case _ => Ok((s, None))
  }

  // ----- one function per command

  type Stepped = Checked<(State, Effect)>

  function StepInitiate(s: State, access: Access, v: Validation): Stepped {
    var allowed := Need(!s.initiated, Conflict);
    :- allowed;
    :- RecordAccess(s, access, CreateDraft, None, v);
    Ok((s.(initiated := true), Initiated))
  }

  function CriteriaOf(s: State): set<Criterion> {
    set id, c | id in s.proposals && c in s.proposals[id].terms.criteria :: c
  }

  predicate DistinctCriteria(criteria: seq<Criterion>) {
    forall i, j :: 0 <= i < j < |criteria| ==> criteria[i].id != criteria[j].id
  }

  /** The proposal is about this pursuit now, and creates only identities that do not exist yet. */
  function ProposalAdmissible(s: State, p: Proposal): Check {
    if p.identity != s.identity || p.expectedAgreement != s.current then Fail(Stale)
    else if p.id in s.proposals || exists id :: id in s.proposals && s.proposals[id].agreement == p.agreement then Fail(Conflict)
    else
      match ValidateRoles(p.terms)
      case Fail(e) => Fail(e)
      case Pass => Need(DistinctCriteria(p.terms.criteria)
                        && forall c, prior :: c in p.terms.criteria && prior in CriteriaOf(s) && prior.id == c.id ==> prior == c,
                        Conflict)
  }

  function StepPropose(s: State, p: Proposal, access: Access, v: Validation): Stepped {
    var allowed := RecordAccess(s, access, MayPropose, None, v);
    :- allowed;
    :- ProposalAdmissible(s, p);
    :- DependenciesValid(p.dependencies, v.grounds);
    Ok((s.(proposals := s.proposals[p.id := p]), Proposed(p.id)))
  }

  function StepAssess(s: State, a: Assessment, access: Access, v: Validation): Stepped {
    var allowed := RecordAccess(s, access, MayAssess, None, v);
    :- allowed;
    :- Need(a.proposal in s.proposals, Invalid);
    :- Need(a.id !in s.assessments, Conflict);
    :- DependenciesValid(a.dependencies, v.grounds);
    Ok((s.(assessments := s.assessments[a.id := a]), Assessed(a.id)))
  }

  function KindBlockers(s: State, kind: DecisionKind): Checked<set<ContentKey>> {
    match kind
    case Adopt => Ok({})
    case Undertake(id) =>
      var a :- Found(s.assessments, id, Invalid);
      Ok(set b | b in a.blockers)
  }

  /** The party may decide about this proposal now, and has no live decision of the same kind on it. */
  function DecisionAdmissible(s: State, d: Decision, a: Authority): Check {
    match CheckParty(s, d.kind, a)
    case Fail(e) => Fail(e)
    case Pass =>
      if d.proposal !in s.proposals || s.proposals[d.proposal].terms.binding == [] then Fail(Invalid)
      else if s.proposals[d.proposal].expectedAgreement != s.current then Fail(Stale)
      else Need(d.id !in s.decisions
                && forall id :: id in s.decisions && LivePeer(s.decisions, id, d.proposal) ==>
                     s.decisions[id].decision.kind.Adopt? != d.kind.Adopt?, Conflict)
  }

  /** The decision entry a party may write now. */
  function NewDecision(s: State, d: Decision, v: Validation): Checked<EffectiveDecision> {
    var allowed := DecisionAdmissible(s, d, v.authority);
    :- allowed;
    :- DependenciesValid(d.dependencies, v.grounds);
    var deps :- DecisionDependencies(s, d);
    :- ObservedCheck(deps, v.grounds);
    var blockers :- KindBlockers(s, d.kind);
    Ok(EffectiveDecision(d, v.authority.actor, false, false, blockers))
  }

  function WithDecision(s: State, id: DecisionId, d: EffectiveDecision): State {
    s.(decisions := s.decisions[id := d])
  }

  function StepDecide(s: State, d: Decision, v: Validation): Stepped {
    var written :- NewDecision(s, d, v);
    var activated :- Activate(WithDecision(s, d.id, written), d.proposal, v);
    Ok((activated.0, Decided(d.id, activated.1)))
  }

  function StepRetract(s: State, id: DecisionId, v: Validation): Stepped {
    var d :- Found(s.decisions, id, Invalid);
    :- CheckParty(s, d.decision.kind, v.authority);
    :- Need(d.actor == v.authority.actor && !d.retracted && !d.matched, Conflict);
    Ok((s.(decisions := s.decisions[id := d.(retracted := true)]), Retracted(id)))
  }

  function Renewed(prior: Decision, dependencies: seq<Dependency>, renewal: Option<AssessmentId>): Checked<Decision> {
    match (prior.kind, renewal)
    case (Adopt, None) => Ok(prior.(dependencies := dependencies))
    case (Undertake(_), Some(id)) => Ok(prior.(dependencies := dependencies, kind := Undertake(id)))
    case _ => Err(Invalid)
  }

  /** The same actor may renew its unretracted decision while its proposal is, or may become, current. */
  function RenewalAdmissible(s: State, id: DecisionId, a: Authority): Checked<EffectiveDecision> {
    var prior :- Found(s.decisions, id, Invalid);
    :- CheckParty(s, prior.decision.kind, a);
    :- Need(prior.actor == a.actor && !prior.retracted, Denied);
    var p :- Found(s.proposals, prior.decision.proposal, Invalid);
    :- Need(s.current == Some(p.agreement) || p.expectedAgreement == s.current, Stale);
    Ok(prior)
  }

  /** The entry that replaces a reaffirmed decision; it keeps every earlier blocker. */
  function RenewedDecision(s: State, id: DecisionId, dependencies: seq<Dependency>, renewal: Option<AssessmentId>, v: Validation)
    : Checked<EffectiveDecision>
  {
    var prior :- RenewalAdmissible(s, id, v.authority);
    var renewed :- Renewed(prior.decision, dependencies, renewal);
    var previous :- DecisionDependencies(s, prior.decision);
    var next :- DecisionDependencies(s, renewed);
    :- Need(previous.Keys <= next.Keys, Invalid);
    :- ObservedCheck(next, v.grounds);
    var blockers :- KindBlockers(s, renewed.kind);
    Ok(prior.(decision := renewed, blockers := prior.blockers + blockers))
  }

  function StepReaffirm(s: State, id: DecisionId, dependencies: seq<Dependency>, renewal: Option<AssessmentId>, v: Validation): Stepped {
    var written :- RenewedDecision(s, id, dependencies, renewal, v);
    var activated :- Activate(WithDecision(s, id, written), written.decision.proposal, v);
    Ok((activated.0, Reaffirmed(id, activated.1)))
  }

  predicate TargetAllowed(s: State, spec: GrantSpec) {
    var nativeFree := spec.nativeActions == {} && spec.nativeScope == {};
    match spec.target
    case DraftCreation(change) => change == s.identity.change && !s.initiated && spec.actions == {CreateDraft} && nativeFree
    case Draft(change) => change == s.identity.change && spec.actions <= {MayPropose, MayAssess, MayFind} && nativeFree
    case Pursuit(a) => s.current == Some(a) && s.settlement.None?
    case Reconciliation(actions) => actions != {} && actions <= s.actions.Keys && spec.actions <= {MayReconcile} && nativeFree
  }

  function NextGeneration(generation: nat): Checked<nat> {
    if generation < U64_MAX then Ok(generation + 1) else Err(Invalid)
  }

  function GenerationFor(s: State, id: GrantId, expected: Option<nat>): Checked<nat> {
    if id !in s.grants then
      if expected.None? then Ok(1) else Err(Conflict)
    else if !s.grants[id].revoked && expected == Some(s.grants[id].generation) then
      NextGeneration(s.grants[id].generation)
    else Err(Conflict)
  }

  function StepSetGrant(s: State, id: GrantId, expected: Option<nat>, spec: GrantSpec, v: Validation): Stepped {
    var allowed := CheckOwner(s, v.authority);
    :- allowed;
    :- ValidateOriginSelectors(s, spec);
    :- Need(!(spec.actions == {} && spec.disclosure == {} && spec.disclosureOrigins == {}), Invalid);
    :- Need(!(spec.actions == {} && (spec.nativeActions != {} || spec.nativeScope != {})), Invalid);
    :- Need(TargetAllowed(s, spec), Denied);
    var generation :- GenerationFor(s, id, expected);
    Ok((s.(grants := s.grants[id := Grant(id, generation, spec, false)]), Granted(GrantUse(id, generation))))
  }

  function StepRevokeGrant(s: State, id: GrantId, expected: nat, v: Validation): Stepped {
    var allowed := CheckOwner(s, v.authority);
    :- allowed;
    var prior :- Found(s.grants, id, Conflict);
    :- Need(!prior.revoked && prior.generation == expected, Conflict);
    var generation :- NextGeneration(prior.generation);
    Ok((s.(grants := s.grants[id := prior.(generation := generation, revoked := true)]), Revoked(GrantUse(id, generation))))
  }

  function NativeGrant(s: State, a: ActionRequest, kind: GrantAction, v: Validation): Check {
    match GrantFor(s, a.grant, v.authority)
    case Err(e) => Fail(e)
    case Ok(g) =>
      if g.spec.target != Pursuit(a.agreement) || kind !in g.spec.actions || a.nativeAction !in g.spec.nativeActions
         || a.scope == {} || !(a.scope <= g.spec.nativeScope) || a.limits == {} || a.limits != g.spec.limits
      then Fail(Denied)
      else if a.conditions == [] then Fail(Invalid)
      else if v.native.None? || v.native.value.action != a.id || v.native.value.evidence == [] then Fail(Unavailable)
      else
        match CurrentGrounds(s, a.agreement, v)
        case Fail(e) => Fail(e)
        case Pass => DependenciesValid(a.dependencies, v.grounds)
  }

  function StepAdmit(s: State, a: ActionRequest, v: Validation): Stepped {
    var allowed := Need(a.id !in s.actions, Conflict);
    :- allowed;
    :- NativeGrant(s, a, MayAdmit, v);
    var deps :- AgreementDependencies(s, a.agreement);
    Ok((s.(actions := s.actions[a.id := Action(a, v.authority.actor, Admitted, deps, [], UnknownOutcome)]),
        ActionAdmitted(a.id)))
  }

  function StepDispatch(s: State, id: ActionId, v: Validation): Stepped {
    var a :- Found(s.actions, id, Invalid);
    :- Need(a.phase == Admitted && a.actor == v.authority.actor, Conflict);
    :- NativeGrant(s, a.request, MayDispatch, v);
    :- ObservedCheck(a.admissionDependencies, v.grounds);
    Ok((s.(actions := s.actions[id := a.(phase := Dispatched)]), ActionDispatched(id)))
  }

  function StepFinding(s: State, f: Finding, access: Access, v: Validation): Stepped {
    var allowed := (match f.agreement case None => Pass case Some(a) => CurrentGrounds(s, a, v));
    :- allowed;
    :- RecordAccess(s, access, MayFind, f.agreement, v);
    :- Need(f.evidence != [], Invalid);
    Ok((s, Recorded))
  }

  function StepAdapt(s: State, a: Adaptation, access: Access, v: Validation): Stepped {
    var allowed := CurrentGrounds(s, a.agreement, v);
    :- allowed;
    :- RecordAccess(s, access, MayAdapt, Some(a.agreement), v);
    :- Need(a.grounds != [], Invalid);
    match v.scope
    case None => Err(Unavailable)
    case Some(WithinDiscretion(_)) => Ok((s, Recorded))
    case Some(RequiresRevision) => Err(NeedsRevision)
    case Some(JudgmentUnavailable) => Err(Unavailable)
  }

  function CriterionIds(criteria: seq<Criterion>): set<CriterionId> {
    set c | c in criteria :: c.id
  }

  function StepProgress(s: State, p: Progress, access: Access, v: Validation): Stepped {
    var allowed := CurrentGrounds(s, p.agreement, v);
    :- allowed;
    :- RecordAccess(s, access, MayProgress, Some(p.agreement), v);
    :- Need(p.evidence != [], Invalid);
    var a :- Found(s.agreements, p.agreement, Invalid);
    var proposal :- Found(s.proposals, a.proposal, Invalid);
    var terms := set b | b in proposal.terms.binding :: b.statement;
    :- Need(p.terms != {} && p.terms <= terms && p.criteria <= CriterionIds(proposal.terms.criteria), Invalid);
    :- Need(!(p.basis == RevisedTargets && proposal.expectedAgreement.None?), Invalid);
    Ok((s, Recorded))
  }

  predicate Resolved(f: Fulfillment, blocker: ContentKey) {
    exists r :: r in f.resolutions && r.blocker == blocker && r.evidence != []
  }

  /** Every criterion is evidenced, each one once, and there is at least one. */
  predicate CriteriaMet(criteria: set<CriterionId>, f: Fulfillment) {
    var provided := set c | c in f.criteria :: c.criterion;
    && criteria != {} && criteria == provided && |provided| == |f.criteria|
    && forall c :: c in f.criteria ==> c.evidence != []
  }

  predicate NothingInFlight(actions: map<ActionId, Action>) {
    forall id :: id in actions ==> actions[id].phase != Dispatched
  }

  function StepFulfill(s: State, f: Fulfillment, v: Validation): Stepped {
    var allowed := CheckOwner(s, v.authority);
    :- allowed;
    :- CurrentGrounds(s, f.agreement, v);
    var a :- Found(s.agreements, f.agreement, Invalid);
    var p :- Found(s.proposals, a.proposal, Invalid);
    :- Need(CriteriaMet(CriterionIds(p.terms.criteria), f), Invalid);
    :- Need((forall b :: b in a.blockers ==> Resolved(f, b)) && NothingInFlight(s.actions), Conflict);
    Ok((s.(settlement := Some(Fulfilled(f.agreement))), Settled(Fulfilled(f.agreement))))
  }

  function StepWithdraw(s: State, v: Validation): Stepped {
    var allowed := CheckOwner(s, v.authority);
    :- allowed;
    Ok((s.(settlement := Some(Withdrawn)), Settled(Withdrawn)))
  }

  function StepReconcile(s: State, id: ActionId, used: GrantUse, evidence: seq<Evidence>, outcome: ActionOutcome, v: Validation): Stepped {
    var g :- GrantFor(s, used, v.authority);
    :- Need(MayReconcile in g.spec.actions && g.spec.target.Reconciliation? && id in g.spec.target.actions
            && CoversContentItems(s, g, v), Denied);
    :- Need(evidence != [], Invalid);
    var a :- Found(s.actions, id, Invalid);
    :- Need(a.phase != Admitted, Conflict);
    var phase := if outcome == UnknownOutcome then Dispatched else Reconciled;
    Ok((s.(actions := s.actions[id := a.(evidence := a.evidence + evidence, outcome := outcome, phase := phase)]),
        ActionReconciled(id)))
  }

  predicate AllowedWhenSettled(c: Command) {
    c.Reconcile? || c.RevokeGrant? || (c.SetGrant? && c.spec.target.Reconciliation?)
  }

  predicate AllowedBeforeStart(c: Command) {
    c.Initiate? || c.SetGrant? || c.RevokeGrant?
  }

  /** One command under one validation. A refused command leaves no state behind. */
  function Transition(s: State, c: Command, v: Validation): Stepped {
    var allowed := Need(v.authority.representedOwner == s.identity.owner, Denied);
    :- allowed;
    :- Need(s.settlement.None? || AllowedWhenSettled(c), Terminal);
    :- Need(s.initiated || AllowedBeforeStart(c), Invalid);
    Perform(s, c, v)
  }

  function Perform(s: State, c: Command, v: Validation): Stepped {
    match c
    case Initiate(_, access) => StepInitiate(s, access, v)
    case Propose(p, access) => StepPropose(s, p, access, v)
    case Assess(a, access) => StepAssess(s, a, access, v)
    case Decide(d) => StepDecide(s, d, v)
    case Retract(id) => StepRetract(s, id, v)
    case Reaffirm(id, dependencies, renewal) => StepReaffirm(s, id, dependencies, renewal, v)
    case SetGrant(id, expected, spec) => StepSetGrant(s, id, expected, spec, v)
    case RevokeGrant(id, expected) => StepRevokeGrant(s, id, expected, v)
    case Admit(a) => StepAdmit(s, a, v)
    case Dispatch(id) => StepDispatch(s, id, v)
    case RecordFinding(f, access) => StepFinding(s, f, access, v)
    case Adapt(a, access) => StepAdapt(s, a, access, v)
    case RecordProgress(p, access) => StepProgress(s, p, access, v)
    case Fulfill(f) => StepFulfill(s, f, v)
    case Withdraw(_) => StepWithdraw(s, v)
    case Reconcile(id, used, evidence, outcome) => StepReconcile(s, id, used, evidence, outcome, v)
  }
}

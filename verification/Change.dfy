/** Live acceptance of operation requests, and the ordered interpretation of retained records. */
module Change {
  import opened Base
  import opened Model
  import opened Rules
  import opened Records

  /** The application's accepted state: the kernel state and the records behind it. */
  datatype Ledger = Ledger(state: State, records: map<OperationId, StoredOperation>)

  // ----- what the trusted boundary answers during one call

  datatype IntakeRequest =
    | FreshIntake(payload: FreshContent)
    | RetentionIntake(key: ContentKey)
    | ReuseIntake(key: ContentKey)

  datatype ContentObservation = ContentObservation(bytes: Bytes, sourceClaim: SourceClaim)

  datatype Acceptance = AcceptedNow | RefusedWith(error: Error) | NotAcceptedWith(error: Error) | IndeterminateCommit

  /** One answer per question; each content key and each ground is asked for at most once in a call. */
  datatype Ports = Ports(
    context: Checked<Context>,
    content: IntakeRequest -> Checked<ContentObservation>,
    ground: GroundId -> Checked<GroundVersion>,
    discretion: Checked<ScopeJudgment>,
    native: Checked<NativeConditions>,
    authorize: Check,
    disclose: Check)

  datatype Reply =
    | Answered(accepted: Accepted)
    | Refused(error: Error)
    | NotAccepted(error: Error)
    | Indeterminate
    | Fenced

  // ----- visiting content keys in order

  function Narrowed(keys: set<ContentKey>, part: ContentKey -> nat): (narrowed: set<ContentKey>)
    requires keys != {}
    ensures narrowed != {} && narrowed <= keys
    ensures forall a, b :: a in narrowed && b in narrowed ==> part(a) == part(b)
  {
    var parts := set k | k in keys :: part(k);
    assert parts != {} by {
      var k :| k in keys;
      assert part(k) in parts;
    }
    var least := Least(parts);
    var narrowed := set k | k in keys && part(k) == least;
    assert narrowed != {} by {
      var k :| k in keys && part(k) == least;
      assert k in narrowed;
    }
    narrowed
  }

  /** The first key by owner, ledger, change and content, as a BTreeSet orders them. */
  function FirstKey(keys: set<ContentKey>): (first: ContentKey)
    requires keys != {}
    ensures first in keys
  {
    var byOwner := Narrowed(keys, (k: ContentKey) => k.establishing.owner);
    var byLedger := Narrowed(byOwner, (k: ContentKey) => k.establishing.ledger);
    var byChange := Narrowed(byLedger, (k: ContentKey) => k.establishing.change);
    var byId := Narrowed(byChange, (k: ContentKey) => k.id);
    assert forall a, b :: a in byId && b in byId ==> a == b;
    var first :| first in byId;
    first
  }

  function InOrder(keys: set<ContentKey>): seq<ContentKey> {
    if keys == {} then []
    else
      var first := FirstKey(keys);
      [first] + InOrder(keys - {first})
  }

  lemma {:induction false} InOrderVisitsAll(keys: set<ContentKey>)
    ensures forall k :: k in InOrder(keys) <==> k in keys
    decreases keys
  {
    if keys != {} {
      InOrderVisitsAll(keys - {FirstKey(keys)});
    }
  }

  // ----- opening a call

  /** The observed authority must represent the owner and be allowed to see the operation's outcome. */
  function OpenChecks(s: State, id: OperationId, ports: Ports): Checked<Checks> {
    var context :- ports.context;
    :- Need(context.authority.representedOwner == s.identity.owner, Denied);
    :- Need(ChangeScope(s.identity.change) in context.disclosure || OperationScope(id) in context.disclosure, Denied);
    Ok(Checks(s.identity, s.lastOperation, context, OperationScope(id), None, None, map[], map[], map[], None, None))
  }

  function ValidationOf(c: Checks): Validation {
    Validation(
      c.context.authority,
      c.contentItems.Keys,
      if c.creation.Some? then c.creation.value.contentItems.Keys else {},
      c.grounds,
      if c.adaptation.Some? then Some(c.adaptation.value.1) else None,
      if c.native.Some? then Some(c.native.value.1) else None)
  }

  // ----- content intake

  function ExpectedCase(op: Operation, key: ContentKey): IntakeCase {
    if key in FreshKeys(op.freshContent) then Fresh
    else if key in op.firstRetention then FirstRetention
    else KnownReuse
  }

  function PriorBinding(s: State, key: ContentKey): Option<ContentReference> {
    if key in s.established then Some(s.established[key].binding) else None
  }

  /** One intake against the accepted catalogue; the same rules serve live acceptance and reconstruction. */
  function CheckIntake(s: State, op: Option<Operation>, key: ContentKey, bytes: Bytes, snapshot: IntakeSnapshot): Check {
    var source := snapshot.sourceClaim;
    if key.establishing != s.identity.Key() then Fail(Unavailable)
    else
      match snapshot.intakeCase
      case Fresh =>
        var payload := if op.Some? then FreshFor(op.value.freshContent, key) else None;
        if payload.None? then Fail(Invalid)
        else if key in s.established then Fail(Conflict)
        else if source.bindingKnowledge != NoKnownBinding then Fail(Conflict)
        else if source.inputKind != NewContribution || bytes != payload.value.bytes then Fail(Conflict)
        else if snapshot.priorEstablishment.Some? then Fail(Invalid)
        else Need(source.attribution == AttributedTo(payload.value.attributedSource), Denied)
      case FirstRetention =>
        if op.None? || key !in op.value.firstRetention then Fail(Invalid)
        else if key in s.established then Fail(Conflict)
        else if source.bindingKnowledge != NoKnownBinding then Fail(Conflict)
        else Need(snapshot.priorEstablishment.None? && source.inputKind == PreExisting, Invalid)
      case KnownReuse =>
        if key !in s.established then Fail(Unavailable)
        else Need(snapshot.priorEstablishment == Some(s.established[key].binding)
                  && source.bindingKnowledge == Known(key)
                  && source.inputKind == PreExisting
                  && key in s.contentItems && s.contentItems[key] == bytes
                  && source.SameStableFacts(s.established[key].original.sourceClaim), Conflict)
  }

  /** How a key must be asked for. */
  function IntakeFor(s: State, op: Option<Operation>, key: ContentKey): Checked<IntakeRequest> {
    if op.Some? && key in FreshKeys(op.value.freshContent) then Ok(FreshIntake(FreshFor(op.value.freshContent, key).value))
    else if op.Some? && key in op.value.firstRetention then Ok(RetentionIntake(key))
    else if key in s.established then Ok(ReuseIntake(key))
    else Err(Invalid)
  }

  function CaseOf(request: IntakeRequest): IntakeCase {
    match request
    case FreshIntake(_) => Fresh
    case RetentionIntake(_) => FirstRetention
    case ReuseIntake(_) => KnownReuse
  }

  function Intake(s: State, op: Option<Operation>, key: ContentKey, ports: Ports): Checked<(Bytes, IntakeSnapshot)> {
    var allowed := Need(key.establishing == s.identity.Key(), Unavailable);
    :- allowed;
    var request :- IntakeFor(s, op, key);
    var observation :- ports.content(request);
    var snapshot := IntakeSnapshot(CaseOf(request), observation.sourceClaim, PriorBinding(s, key));
    :- CheckIntake(s, op, key, observation.bytes, snapshot);
    Ok((observation.bytes, snapshot))
  }

  /** Takes in each key once, in the given order. */
  function Gathered(s: State, op: Option<Operation>, keys: seq<ContentKey>, ports: Ports, c: Checks): Checked<Checks> {
    if keys == [] then Ok(c)
    else
      var one :- GatheredOne(s, op, keys[0], ports, c);
      Gathered(s, op, keys[1..], ports, one)
  }

  function GatheredOne(s: State, op: Option<Operation>, key: ContentKey, ports: Ports, c: Checks): Checked<Checks> {
    if key in c.contentItems then Ok(c)
    else
      var taken :- Intake(s, op, key, ports);
      Ok(c.(contentItems := c.contentItems[key := taken.0], intakes := c.intakes[key := taken.1]))
  }

  function ObservedGrounds(ids: seq<GroundId>, ports: Ports, c: Checks): Checked<Checks> {
    if ids == [] then Ok(c)
    else
      var version :- ports.ground(ids[0]);
      ObservedGrounds(ids[1..], ports, c.(grounds := c.grounds[ids[0] := version]))
  }

  /** The inputs a fresh payload says it was derived from. */
  function DerivedOrder(payloads: seq<FreshContent>): seq<ContentKey> {
    if payloads == [] then []
    else InOrder(ContentsOf(payloads[0].derivedFrom)) + DerivedOrder(payloads[1..])
  }

  function EvidenceOrder(items: seq<Evidence>): seq<ContentKey> {
    if items == [] then [] else [items[0].content, items[0].limitations] + EvidenceOrder(items[1..])
  }

  // ----- references to accepted operations

  function DerivedReferences(op: Operation): set<ContentReference> {
    set p, r | p in op.freshContent && r in p.derivedFrom :: r
  }

  predicate SameBytes(accepted: map<ContentKey, Bytes>, now: map<ContentKey, Bytes>, key: ContentKey) {
    key in accepted && key in now && accepted[key] == now[key]
  }

  function DerivationReference(l: Ledger, op: Operation, c: Checks, r: ContentReference): Check {
    if r.identity != l.state.identity || r.operation == op.id then Fail(Invalid)
    else if r.content.establishing != l.state.identity.Key() then Fail(Unavailable)
    else if r.operation !in l.records then Fail(Invalid)
    else Need(SameBytes(l.records[r.operation].checks.contentItems, c.contentItems, r.content), Conflict)
  }

  function ProposalReference(l: Ledger, op: Operation, c: Checks, r: ContentReference): Check {
    if r.identity != l.state.identity then Fail(Invalid)
    else if r.operation != op.id && r.operation !in l.records then Fail(Invalid)
    else
      var bindings := if r.operation == op.id then c.contentItems else l.records[r.operation].checks.contentItems;
      if r.content !in bindings then Fail(Invalid) else Need(SameBytes(bindings, c.contentItems, r.content), Conflict)
  }

  /** When several references fail, the first kind of failure in this order is reported. */
  function Worst(outcomes: set<Check>): Check {
    if Fail(Invalid) in outcomes then Fail(Invalid)
    else if Fail(Unavailable) in outcomes then Fail(Unavailable)
    else if Fail(Conflict) in outcomes then Fail(Conflict)
    else Pass
  }

  function DerivationReferences(l: Ledger, op: Operation, c: Checks): Check {
    Worst(set r | r in DerivedReferences(op) :: DerivationReference(l, op, c, r))
  }

  function ProposalReferences(l: Ledger, op: Operation, c: Checks): Check {
    if !op.command.Propose? then Pass
    else Worst(set r | r in TermReferences(op.command.proposal.terms) :: ProposalReference(l, op, c, r))
  }

  // ----- the rules over declared checks, shared by live acceptance and reconstruction

  function ActionOf(s: State, c: Command): Checked<Option<ActionRequest>> {
    match c
    case Admit(a) => Ok(Some(a))
    case Dispatch(id) =>
      var a :- Found(s.actions, id, Invalid);
      Ok(Some(a.request))
    case _ => Ok(None)
  }

  /** The contents that the judgment of an adaptation brings in. */
  function AdaptationContents(command: Command, adaptation: Option<(Adaptation, ScopeJudgment)>): Checked<set<ContentKey>> {
    if command.Adapt? then
      if adaptation.Some? && adaptation.value.0 == command.adaptation then
        if adaptation.value.1.WithinDiscretion? then Ok(EvidenceContents([adaptation.value.1.evidence])) else Ok({})
      else Err(Invalid)
    else if adaptation.None? then Ok({})
    else Err(Invalid)
  }

  /** The contents that the native conditions of an action bring in. */
  function NativeContents(request: Option<ActionRequest>, native: Option<(ActionRequest, NativeConditions)>): Checked<set<ContentKey>> {
    match (request, native)
    case (Some(a), Some(n)) =>
      if a == n.0 && n.1.action == a.id then Ok(EvidenceContents(n.1.evidence)) else Err(Invalid)
    case (None, None) => Ok({})
    case _ => Err(Invalid)
  }

  /** The exact contents an operation binds. */
  function BoundContents(s: State, op: Operation, c: Checks): Checked<set<ContentKey>> {
    var needs :- Requirements(s, op.command);
    var adapted :- AdaptationContents(op.command, c.adaptation);
    var request :- ActionOf(s, op.command);
    var native :- NativeContents(request, c.native);
    Ok(needs.contents + adapted + native + ContentsOf(DerivedReferences(op)))
  }

  predicate OpenedFor(l: Ledger, op: Operation, c: Checks) {
    && c.identity == l.state.identity
    && c.expectedOperation == l.state.lastOperation
    && c.context.authority.representedOwner == l.state.identity.owner
    && c.disclosure == OperationScope(op.id)
    && c.disclosureOrigin.None?
    && (c.disclosure in c.context.disclosure || ChangeScope(l.state.identity.change) in c.context.disclosure)
    && op.id !in l.records
  }

  /** The declared contents, intakes and grounds are exactly the operation's own. */
  predicate ExactlyBound(s: State, op: Operation, c: Checks, contents: set<ContentKey>, grounds: set<GroundId>) {
    && c.contentItems.Keys == contents
    && c.grounds.Keys == grounds
    && c.intakes.Keys == contents
    && op.firstRetention <= contents
    && op.firstRetention !! FreshKeys(op.freshContent)
    && FreshKeys(op.freshContent) <= contents
  }

  function CheckIntakes(s: State, op: Operation, c: Checks, keys: seq<ContentKey>): Check
    requires c.intakes.Keys == c.contentItems.Keys
    requires forall k :: k in keys ==> k in c.contentItems
  {
    if keys == [] then Pass
    else if c.intakes[keys[0]].intakeCase != ExpectedCase(op, keys[0]) then Fail(Invalid)
    else
      match CheckIntake(s, Some(op), keys[0], c.contentItems[keys[0]], c.intakes[keys[0]])
      case Fail(e) => Fail(e)
      case Pass => CheckIntakes(s, op, c, keys[1..])
  }

  function ValidateCurrent(l: Ledger, op: Operation, c: Checks): Check {
    if !OpenedFor(l, op, c) then Fail(Invalid)
    else
      match PrepareCreation(l.state, op, c.context.authority)
      case Err(e) => Fail(e)
      case Ok(creation) =>
        if c.creation != creation then Fail(Invalid)
        else
          match Requirements(l.state, op.command)
          case Err(e) => Fail(e)
          case Ok(needs) =>
            match BoundContents(l.state, op, c)
            case Err(e) => Fail(e)
            case Ok(contents) =>
              if !ExactlyBound(l.state, op, c, contents, needs.grounds) then Fail(Invalid)
              else
                InOrderVisitsAll(c.contentItems.Keys);
                match CheckIntakes(l.state, op, c, InOrder(c.contentItems.Keys))
                case Fail(e) => Fail(e)
                case Pass =>
                  match DerivationReferences(l, op, c)
                  case Fail(e) => Fail(e)
                  case Pass => ProposalReferences(l, op, c)
  }

  /** The rules over declared checks: the state and effect of an operation, without fetching anything. */
  function Candidate(l: Ledger, op: Operation, c: Checks): Checked<(State, Effect)> {
    var allowed := ValidateCurrent(l, op, c);
    :- allowed;
    Transition(l.state, op.command, ValidationOf(c))
  }

  // ----- live acceptance

  /** Everything the boundary must answer before the candidate is computed. */
  function Collect(l: Ledger, op: Operation, start: Checks, ports: Ports): Checked<Checks> {
    var s := l.state;
    :- Need(op.command.Propose? ==> forall r :: r in TermReferences(op.command.proposal.terms) ==> r.identity == s.identity, Invalid);
    var creation :- PrepareCreation(s, op, start.context.authority);
    var needs :- Requirements(s, op.command);
    var required :- Gathered(s, Some(op), InOrder(needs.contents) + DerivedOrder(op.freshContent), ports, start.(creation := creation));
    var grounded :- ObservedGrounds(Rising(needs.grounds), ports, required);
    var adapted :- CollectAdaptation(s, op, grounded, ports);
    var native :- CollectNative(s, op, adapted, ports);
    :- Need(FreshKeys(op.freshContent) <= native.contentItems.Keys, Invalid);
    Ok(native)
  }

  function CollectAdaptation(s: State, op: Operation, c: Checks, ports: Ports): Checked<Checks> {
    if !op.command.Adapt? then Ok(c)
    else
      var judgment :- ports.discretion;
      var judged :- Gathered(s, Some(op), if judgment.WithinDiscretion? then EvidenceOrder([judgment.evidence]) else [], ports, c);
      Ok(judged.(adaptation := Some((op.command.adaptation, judgment))))
  }

  function CollectNative(s: State, op: Operation, c: Checks, ports: Ports): Checked<Checks> {
    var request :- ActionOf(s, op.command);
    if request.None? then Ok(c)
    else
      var conditions :- ports.native;
      var conditioned :- Gathered(s, Some(op), EvidenceOrder(conditions.evidence), ports, c);
      Ok(conditioned.(native := Some((request.value, conditions))))
  }

  /** The record an accepted operation leaves, given the state its transition produced. */
  function RecordOf(l: Ledger, request: OperationRequest, c: Checks, next: State, effect: Effect): StoredOperation {
    var op := request.operation;
    var used := UsedGrant(op.command, next);
    StoredOperation(
      request.profile,
      |l.records| + 1,
      op,
      Accepted(op.id, c.context.authority.actor, c.context.authority.representedOwner, effect),
      c,
      used,
      GrantSnapshot(used, next),
      CreationClaims(l.state, op),
      EstablishmentClaims(op),
      RetainedBindings(l.state, op, c))
  }

  lemma EstablishmentsTakenIn(l: Ledger, op: Operation, c: Checks)
    requires Candidate(l, op, c).Ok?
    ensures EstablishmentClaims(op) <= c.intakes.Keys
  {
  }

  /** The candidate record and the ledger it would publish. */
  function Plan(l: Ledger, request: OperationRequest, start: Checks, ports: Ports): (r: Checked<(StoredOperation, Ledger)>)
  {
    var op := request.operation;
    var c :- Collect(l, op, start, ports);
    var stepped :- Candidate(l, op, c);
    :- ports.authorize;
    :- Need(|l.records| < U64_MAX, Invalid);
    var record := RecordOf(l, request, c, stepped.0, stepped.1);
    :- Need(RequestOf(record) == Ok(request), Invalid);
    EstablishmentsTakenIn(l, op, c);
    Ok((record, Ledger(Retain(stepped.0, record), l.records[op.id := record])))
  }

  /** Recovers the original result of an exact retry; nothing is executed again. */
  function Recall(l: Ledger, original: StoredOperation, request: OperationRequest, start: Checks, ports: Ports): Checked<Accepted> {
    var declared :- RequestOf(original);
    :- Need(declared == request, Conflict);
    var _ :- Gathered(l.state, None, InOrder(original.checks.contentItems.Keys), ports, start);
    :- ports.disclose;
    Ok(original.accepted)
  }

  datatype Executed = Executed(reply: Reply, ledger: Ledger, fenced: bool, committed: Option<StoredOperation>)

  /** One submission and what its guarded acceptance reported: the reply, the published ledger, whether the handle is fenced, and what was committed. */
  function Execution(l: Ledger, fenced: bool, request: OperationRequest, ports: Ports, acceptance: Acceptance): Executed {
    if fenced then Executed(Fenced, l, true, None)
    else if request.profile != CURRENT_PROFILE || request.target != l.state.identity.Key() then Executed(Refused(Conflict), l, false, None)
    else
      match OpenChecks(l.state, request.operation.id, ports)
      case Err(e) => Executed(Refused(e), l, false, None)
      case Ok(start) =>
        if request.actor != start.context.authority.actor || request.representedOwner != start.context.authority.representedOwner then
          Executed(Refused(Denied), l, false, None)
        else if request.operation.id in l.records then
          match Recall(l, l.records[request.operation.id], request, start, ports)
          case Err(e) => Executed(Refused(e), l, false, None)
          case Ok(accepted) => Executed(Answered(accepted), l, false, None)
        else
          match Plan(l, request, start, ports)
          case Err(e) => Executed(Refused(e), l, false, None)
          case Ok((record, next)) =>
            match acceptance
            case AcceptedNow => Executed(Answered(record.accepted), next, false, Some(record))
            case RefusedWith(e) => Executed(Refused(e), l, false, None)
            case NotAcceptedWith(e) => Executed(NotAccepted(e), l, false, None)
            case IndeterminateCommit => Executed(Indeterminate, l, true, None)
  }

  // ----- reconstruction

  function ReplayRecord(l: Ledger, head: HistoryHead, r: StoredOperation): Checked<Ledger> {
    var allowed := Need(|l.records| < U64_MAX, Invalid);
    :- allowed;
    :- Need(r.profile == head.profile
            && RequestOf(r).Ok? && RequestOf(r).value.target == head.identity.Key()
            && r.sequence == |l.records| + 1
            && r.sequence <= head.acceptedOperations
            && r.operation.id !in l.records
            && r.creations == CreationClaims(l.state, r.operation)
            && r.establishments == EstablishmentClaims(r.operation)
            && r.retained == RetainedBindings(l.state, r.operation, r.checks), Invalid);
    var stepped :- Candidate(l, r.operation, r.checks);
    var authority := r.checks.context.authority;
    var used := UsedGrant(r.operation.command, stepped.0);
    :- Need(r.accepted == Accepted(r.operation.id, authority.actor, authority.representedOwner, stepped.1)
            && r.usedGrant == used
            && r.grantSnapshot == GrantSnapshot(used, stepped.0), Invalid);
    EstablishmentsTakenIn(l, r.operation, r.checks);
    Ok(Ledger(Retain(stepped.0, r), l.records[r.operation.id := r]))
  }

  function ReplayPrefix(head: HistoryHead, records: seq<StoredOperation>): Checked<Ledger> {
    if records == [] then
      var s :- NewState(head.identity);
      Ok(Ledger(s, map[]))
    else
      var l :- ReplayPrefix(head, records[..|records| - 1]);
      ReplayRecord(l, head, records[|records| - 1])
  }

  /** Reconstructs a complete accepted prefix, or refuses the whole of it. */
  function Reconstruction(head: HistoryHead, records: seq<StoredOperation>): Checked<Ledger> {
    var allowed := Need(head.profile == CURRENT_PROFILE, Invalid);
    :- allowed;
    var l :- ReplayPrefix(head, records);
    :- Need(|l.records| == head.acceptedOperations && l.state.lastOperation == head.lastOperation, Invalid);
    Ok(l)
  }

  /** The head that describes a ledger. */
  function HeadOf(l: Ledger): HistoryHead {
    HistoryHead(CURRENT_PROFILE, l.state.identity, |l.records|, l.state.lastOperation)
  }
}

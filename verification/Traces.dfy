/** Safety over whole runs: succession, endorsed blockers, grants, dispatch and fulfillment. */
module Traces {
  import opened Base
  import opened Model
  import opened Rules
  import opened Pursuits
  import opened Records
  import Runs

  /** One command with everything that was observed when it was accepted. */
  datatype Move = Move(command: Command, validation: Validation)

  /** The catalogue beside the kernel may be updated freely between commands. */
  ghost predicate SameKernel(s: State, t: State) {
    t == s.(history := t.history, lastOperation := t.lastOperation, contentItems := t.contentItems,
            created := t.created, established := t.established)
  }

  ghost predicate Steps(s: State, m: Move, t: State) {
    && Transition(s, m.command, m.validation).Ok?
    && SameKernel(Transition(s, m.command, m.validation).value.0, t)
  }

  ghost predicate Starts(s: State) {
    NewState(s.identity).Ok? && SameKernel(NewState(s.identity).value, s)
  }

  ghost predicate Run(states: seq<State>, moves: seq<Move>) {
    && |states| == |moves| + 1
    && Starts(states[0])
    && forall i, j {:trigger states[i], states[j]} :: 0 <= i < |moves| && j == i + 1 ==> Steps(states[i], moves[i], states[j])
  }

  // ----- every run is kept

  ghost predicate Linked(s: State, sc: seq<AgreementId>, t: State, tc: seq<AgreementId>) {
    Forward(s, t) && tc == Succeeded(s, t, sc)
  }

  ghost predicate LinkedRun(states: seq<State>, chains: seq<seq<AgreementId>>) {
    && |states| == |chains|
    && forall i, j {:trigger states[i], states[j]} :: 0 <= i < j < |states| && j == i + 1 ==>
         Linked(states[i], chains[i], states[j], chains[j])
  }

  /** The invariant at every state, with its succession, and a forward step between neighbours. */
  ghost predicate KeptRun(states: seq<State>, chains: seq<seq<AgreementId>>) {
    && LinkedRun(states, chains)
    && forall i :: 0 <= i < |states| ==> Inv(states[i], chains[i])
  }

  lemma KernelOnly(s: State, t: State, u: State, chain: seq<AgreementId>)
    requires SameKernel(t, u) && Kept(s, t, chain)
    ensures Kept(s, u, chain)
  {
  }

  lemma StartsKept(s: State)
    requires Starts(s)
    ensures Inv(s, [])
  {
  }

  lemma StepKept(s: State, m: Move, t: State, chain: seq<AgreementId>)
    requires Inv(s, chain) && Steps(s, m, t)
    ensures Kept(s, t, chain)
  {
    Runs.TransitionKeeps(s, chain, m.command, m.validation);
    KernelOnly(s, Transition(s, m.command, m.validation).value.0, t, chain);
  }

  ghost predicate Preserves(s: State, t: State) {
    forall chain {:trigger Kept(s, t, chain)} :: Inv(s, chain) ==> Kept(s, t, chain)
  }

  ghost predicate PreservingRun(states: seq<State>) {
    && states != []
    && Inv(states[0], [])
    && forall i, j {:trigger states[i], states[j]} :: 0 <= i < j < |states| && j == i + 1 ==> Preserves(states[i], states[j])
  }

  lemma StepPreserves(s: State, m: Move, t: State)
    requires Steps(s, m, t)
    ensures Preserves(s, t)
  {
    forall chain | Inv(s, chain) ensures Kept(s, t, chain) {
      StepKept(s, m, t, chain);
    }
  }

  lemma RunPreserves(states: seq<State>, moves: seq<Move>)
    requires Run(states, moves)
    ensures PreservingRun(states)
  {
    StartsKept(states[0]);
    forall i, j | 0 <= i < j < |states| && j == i + 1 ensures Preserves(states[i], states[j]) {
      StepPreserves(states[i], moves[i], states[j]);
    }
  }

  lemma PreservingPrefix(states: seq<State>, n: nat)
    requires PreservingRun(states) && 0 < n == |states| - 1
    ensures PreservingRun(states[..n])
  {
    var shorter := states[..n];
    forall i, j | 0 <= i < j < n && j == i + 1 ensures Preserves(shorter[i], shorter[j]) {
      assert Preserves(states[i], states[j]);
    }
  }

  lemma PreservingLast(states: seq<State>, chain: seq<AgreementId>)
    requires PreservingRun(states) && |states| > 1 && Inv(states[|states| - 2], chain)
    ensures Kept(states[|states| - 2], states[|states| - 1], chain)
  {
    assert Preserves(states[|states| - 2], states[|states| - 1]);
  }

  lemma {:induction false} PreservingRunKept(states: seq<State>) returns (chains: seq<seq<AgreementId>>)
    requires PreservingRun(states)
    ensures KeptRun(states, chains)
    decreases |states|
  {
    hide Structured, BlockersEndorsed, Forward, Kept, Linked, Preserves;
    if |states| == 1 {
      chains := [[]];
    } else {
      var n := |states| - 1;
      PreservingPrefix(states, n);
      var shorter := PreservingRunKept(states[..n]);
      var last := states[..n][n - 1];
      PreservingLast(states, shorter[n - 1]);
      chains := KeptRunExtended(states[..n], shorter, states[n]);
      assert states[..n] + [states[n]] == states;
    }
  }

  lemma RunKept(states: seq<State>, moves: seq<Move>) returns (chains: seq<seq<AgreementId>>)
    requires Run(states, moves)
    ensures KeptRun(states, chains)
  {
    RunPreserves(states, moves);
    chains := PreservingRunKept(states);
  }

  lemma LinkedRunExtended(states: seq<State>, shorter: seq<seq<AgreementId>>, t: State, tc: seq<AgreementId>)
    requires LinkedRun(states, shorter) && states != []
    requires Linked(states[|states| - 1], shorter[|states| - 1], t, tc)
    ensures LinkedRun(states + [t], shorter + [tc])
  {
    var longer, chains := states + [t], shorter + [tc];
    forall i, j | 0 <= i < j < |longer| && j == i + 1 ensures Linked(longer[i], chains[i], longer[j], chains[j]) {
      assert longer[i] == states[i] && chains[i] == shorter[i];
      if j < |states| {
        assert longer[j] == states[j] && chains[j] == shorter[j];
        assert Linked(states[i], shorter[i], states[j], shorter[j]);
      }
    }
  }

  lemma KeptRunExtended(states: seq<State>, shorter: seq<seq<AgreementId>>, t: State) returns (chains: seq<seq<AgreementId>>)
    requires KeptRun(states, shorter) && states != []
    requires Kept(states[|states| - 1], t, shorter[|states| - 1])
    ensures KeptRun(states + [t], chains)
  {
    var tc := Succeeded(states[|states| - 1], t, shorter[|states| - 1]);
    LinkedRunExtended(states, shorter, t, tc);
    chains := shorter + [tc];
  }

  lemma LinkedForward(s: State, t: State, u: State, sc: seq<AgreementId>, tc: seq<AgreementId>, uc: seq<AgreementId>)
    requires Forward(s, t) && sc <= tc && Linked(t, tc, u, uc)
    ensures Forward(s, u) && sc <= uc
  {
    ForwardTransitive(s, t, u);
  }

  lemma {:induction false} KeptForward(states: seq<State>, chains: seq<seq<AgreementId>>, i: nat, j: nat)
    requires LinkedRun(states, chains) && i <= j < |states|
    ensures Forward(states[i], states[j])
    ensures chains[i] <= chains[j]
    decreases j
  {
    if i == j {
      ForwardReflexive(states[i]);
    } else {
      KeptForward(states, chains, i, j - 1);
      assert Linked(states[j - 1], chains[j - 1], states[j], chains[j]);
      LinkedForward(states[i], states[j - 1], states[j], chains[i], chains[j - 1], chains[j]);
    }
  }

  /** Nothing accepted is ever taken back, between any two moments of any run. */
  lemma RunsMoveForward(states: seq<State>, moves: seq<Move>, i: nat, j: nat)
    requires Run(states, moves) && i <= j < |states|
    ensures Forward(states[i], states[j])
  {
    var chains := RunKept(states, moves);
    KeptForward(states, chains, i, j);
  }

  // ----- agreement succession

  /** An agreement that has been superseded is never current again. */
  lemma SupersededStaysSuperseded(states: seq<State>, moves: seq<Move>, i: nat, j: nat, k: nat, a: AgreementId)
    requires Run(states, moves) && i < j <= k < |states|
    requires states[i].current == Some(a) && states[j].current != Some(a)
    ensures states[k].current.Some? && states[k].current != Some(a)
  {
    var chains := RunKept(states, moves);
    KeptForward(states, chains, i, j);
    KeptForward(states, chains, j, k);
    KeptSuperseded(states[i], states[j], states[k], chains[i], chains[j], chains[k], a);
  }

  lemma KeptSuperseded(s: State, t: State, u: State, sc: seq<AgreementId>, tc: seq<AgreementId>, uc: seq<AgreementId>, a: AgreementId)
    requires s.current == Before(sc, |sc|) && t.current == Before(tc, |tc|) && u.current == Before(uc, |uc|)
    requires Distinct(uc) && sc <= tc <= uc
    requires s.current == Some(a) && t.current != Some(a)
    ensures u.current.Some? && u.current != Some(a)
  {
    assert sc[|sc| - 1] == tc[|sc| - 1] == uc[|sc| - 1] == a;
  }

  /** A change of agreement follows the proposal that expected the previous one, and its identity is new. */
  lemma SuccessionIsExpected(states: seq<State>, moves: seq<Move>, i: nat)
    requires Run(states, moves) && i < |moves| && states[i + 1].current != states[i].current
    ensures states[i + 1].current.Some?
    ensures var b := states[i + 1].current.value;
            && b !in states[i].agreements
            && Expects(states[i + 1].proposals, states[i + 1].agreements, b, states[i].current)
  {
    var chains := RunKept(states, moves);
    var s, t := states[i], states[i + 1];
    assert Linked(s, chains[i], t, chains[i + 1]);
    assert Inv(s, chains[i]) && Inv(t, chains[i + 1]);
    SuccessorIsExpected(s, t, chains[i]);
  }

  lemma SuccessorIsExpected(s: State, t: State, chain: seq<AgreementId>)
    requires Succession(s.proposals, s.agreements, s.current, chain)
    requires Succession(t.proposals, t.agreements, t.current, Succeeded(s, t, chain))
    requires s.current != t.current
    ensures t.current.Some? && t.current.value !in s.agreements
    ensures Expects(t.proposals, t.agreements, t.current.value, s.current)
  {
    var b := Succeeded(s, t, chain)[|chain|];
    assert Succeeded(s, t, chain) == chain + [b];
    assert forall k :: 0 <= k < |chain| ==> (chain + [b])[k] == chain[k];
    assert b !in chain;
    assert Expects(t.proposals, t.agreements, (chain + [b])[|chain|], Before(chain + [b], |chain|));
    assert Before(chain + [b], |chain|) == Before(chain, |chain|);
  }

  /** At every moment the current agreement stands on two live, matched decisions of two different participants. */
  lemma CurrentAgreementIsBacked(states: seq<State>, moves: seq<Move>, i: nat)
    requires Run(states, moves) && i < |states| && states[i].current.Some?
    ensures StandsOnBoth(states[i], states[i].current.value)
  {
    var chains := RunKept(states, moves);
    assert Inv(states[i], chains[i]);
    CurrentStandsOnBoth(states[i], chains[i]);
  }

  /** The agreement rests on the owner's adoption and the agent's undertaking, and on no other live decision. */
  ghost predicate StandsOnBoth(s: State, a: AgreementId) {
    && Backed(s.proposals, s.decisions, s.agreements, a)
    && s.decisions[s.agreements[a].adoption].actor == s.identity.ownerActor
    && s.decisions[s.agreements[a].undertaking].actor == s.identity.agent
    && s.identity.ownerActor != s.identity.agent
    && (forall id :: LivePeer(s.decisions, id, s.agreements[a].proposal) ==>
          id == s.agreements[a].adoption || id == s.agreements[a].undertaking)
  }

  lemma CurrentStandsOnBoth(s: State, chain: seq<AgreementId>)
    requires Inv(s, chain) && s.current.Some?
    ensures StandsOnBoth(s, s.current.value)
  {
    hide ProposalsKept, Ordered, Distinct, GrantsKept, ActionsKept, SettlementKept, BlockersEndorsed;
    var a := s.current.value;
    assert a in chain;
    assert Backed(s.proposals, s.decisions, s.agreements, a);
    assert DecisionKept(s.identity, s.proposals, s.assessments, s.decisions[s.agreements[a].adoption]);
    assert DecisionKept(s.identity, s.proposals, s.assessments, s.decisions[s.agreements[a].undertaking]);
  }

  /** Neither decision behind any agreement can be retracted by anyone, at any later moment. */
  lemma MatchedCannotBeRetracted(states: seq<State>, moves: seq<Move>, i: nat, a: AgreementId, v: Validation)
    requires Run(states, moves) && i < |states| && a in states[i].agreements
    ensures Transition(states[i], Retract(states[i].agreements[a].adoption), v).Err?
    ensures Transition(states[i], Retract(states[i].agreements[a].undertaking), v).Err?
  {
    var chains := RunKept(states, moves);
    var s := states[i];
    assert Inv(s, chains[i]);
    assert Backed(s.proposals, s.decisions, s.agreements, a);
    RetractRefused(s, s.agreements[a].adoption, v);
    RetractRefused(s, s.agreements[a].undertaking, v);
  }

  lemma RetractRefused(s: State, id: DecisionId, v: Validation)
    requires id in s.decisions && s.decisions[id].matched
    ensures Transition(s, Retract(id), v).Err?
  {
    if StepRetract(s, id, v).Ok? {
      RetractWrites(s, id, v);
      assert false;
    }
  }

  // ----- endorsed blockers

  /** A blocker of the current agreement. */
  ghost predicate Endorsed(s: State, blocker: ContentKey) {
    s.current.Some? && s.current.value in s.agreements && blocker in s.agreements[s.current.value].blockers
  }

  /** An endorsed blocker stays with every later current agreement. */
  lemma EndorsedNeverDisappears(states: seq<State>, moves: seq<Move>, i: nat, j: nat, blocker: ContentKey)
    requires Run(states, moves) && i <= j < |states| && Endorsed(states[i], blocker)
    ensures Endorsed(states[j], blocker)
  {
    RunsMoveForward(states, moves, i, j);
    assert BlockersForward(states[i].agreements, states[i].current, states[j].agreements, states[j].current);
  }

  lemma FulfillChecks(s: State, f: Fulfillment, v: Validation)
    requires Transition(s, Fulfill(f), v).Ok?
    ensures forall b :: Endorsed(s, b) ==> Resolved(f, b)
    ensures forall id :: id in s.actions ==> s.actions[id].phase != Dispatched
  {
    assert StepFulfill(s, f, v).Ok?;
    FulfillWrites(s, f, v);
  }

  /** Fulfillment resolves, with evidence, every blocker endorsed at any earlier moment, and leaves nothing in flight. */
  lemma FulfillmentResolvesEverything(states: seq<State>, moves: seq<Move>, j: nat, i: nat, blocker: ContentKey)
    requires Run(states, moves) && i <= j < |moves| && moves[j].command.Fulfill?
    requires Endorsed(states[i], blocker)
    ensures Resolved(moves[j].command.fulfillment, blocker)
    ensures forall id :: id in states[j].actions ==> states[j].actions[id].phase != Dispatched
  {
    EndorsedNeverDisappears(states, moves, i, j, blocker);
    assert Steps(states[j], moves[j], states[j + 1]);
    FulfillChecks(states[j], moves[j].command.fulfillment, moves[j].validation);
  }

  // ----- grants

  /** The grant behind a use has been replaced or revoked. */
  ghost predicate Superseded(s: State, used: GrantUse) {
    used.id in s.grants && (s.grants[used.id].revoked || s.grants[used.id].generation > used.generation)
  }

  lemma NoAccess(s: State, access: Access, action: GrantAction, agreement: Option<AgreementId>, v: Validation)
    requires access.ByGrant? && Superseded(s, access.used)
    ensures RecordAccess(s, access, action, agreement, v).Fail?
  {
  }

  /** Every command that rests on a superseded use is refused, whatever it asks and whatever is observed. */
  lemma SupersededIsRefused(s: State, c: Command, v: Validation)
    requires UsedGrant(c, s).Some? && Superseded(s, UsedGrant(c, s).value)
    ensures Transition(s, c, v).Err?
  {
    hide RecordAccess, CurrentGrounds, ProposalAdmissible, CoversContentItems, CriterionIds;
    match c
    case Initiate(_, access) => NoAccess(s, access, CreateDraft, None, v);
    case Propose(_, access) => NoAccess(s, access, MayPropose, None, v);
    case Assess(_, access) => NoAccess(s, access, MayAssess, None, v);
    case RecordFinding(f, access) => NoAccess(s, access, MayFind, f.agreement, v);
    case Adapt(a, access) => NoAccess(s, access, MayAdapt, Some(a.agreement), v);
    case RecordProgress(p, access) => NoAccess(s, access, MayProgress, Some(p.agreement), v);
    case _ =>
  }

  /** Once replaced or revoked, a use is refused at every later moment: no command that presents it is accepted, whoever issues it. */
  lemma SupersededUseIsRefused(states: seq<State>, moves: seq<Move>, i: nat, j: nat, used: GrantUse, c: Command, v: Validation)
    requires Run(states, moves) && i <= j < |states| && Superseded(states[i], used)
    ensures Superseded(states[j], used) && GrantFor(states[j], used, v.authority).Err?
    ensures UsedGrant(c, states[j]) == Some(used) ==> Transition(states[j], c, v).Err?
  {
    hide Transition, UsedGrant;
    RunsMoveForward(states, moves, i, j);
    assert GrantsForward(states[i].grants, states[j].grants);
    if UsedGrant(c, states[j]) == Some(used) {
      SupersededIsRefused(states[j], c, v);
    }
  }

  // ----- dispatch

  lemma NativeGranted(s: State, a: ActionRequest, kind: GrantAction, v: Validation)
    requires NativeGrant(s, a, kind, v).Pass?
    ensures LiveGrant(s, a.grant) && s.grants[a.grant.id].spec.recipient == v.authority.actor
    ensures s.current == Some(a.agreement) && s.settlement.None?
  {
    assert GrantFor(s, a.grant, v.authority).Ok?;
    assert CurrentGrounds(s, a.agreement, v).Pass?;
    assert CurrentAgreement(s, a.agreement).Ok?;
  }

  ghost predicate LiveGrant(s: State, used: GrantUse) {
    used.id in s.grants && !s.grants[used.id].revoked && s.grants[used.id].generation == used.generation
  }

  ghost predicate SameGrant(s: State, t: State, id: GrantId) {
    id in s.grants && id in t.grants && s.grants[id] == t.grants[id]
  }

  lemma DispatchChecks(s: State, m: Move, t: State, id: ActionId)
    requires Steps(s, m, t) && m.command == Dispatch(id)
    ensures id in s.actions && s.actions[id].phase == Admitted && s.actions[id].actor == m.validation.authority.actor
    ensures LiveGrant(s, s.actions[id].request.grant) && s.current == Some(s.actions[id].request.agreement)
    ensures s.settlement.None?
    ensures Observed(s.actions[id].admissionDependencies, m.validation.grounds)
    ensures id in t.actions && t.actions[id].phase != Admitted
  {
    assert StepDispatch(s, id, m.validation).Ok?;
    DispatchWrites(s, id, m.validation);
    NativeGranted(s, s.actions[id].request, MayDispatch, m.validation);
  }

  lemma AdmitChecks(s: State, m: Move, t: State, a: ActionRequest)
    requires Steps(s, m, t) && m.command == Admit(a)
    ensures LiveGrant(s, a.grant) && s.current == Some(a.agreement)
    ensures a.id in t.actions && t.actions[a.id].request == a && t.actions[a.id].actor == m.validation.authority.actor
    ensures t.actions.Keys == s.actions.Keys + {a.id} && t.grants == s.grants && t.current == s.current
  {
    assert StepAdmit(s, a, m.validation).Ok?;
    AdmitWrites(s, a, m.validation);
    NativeGranted(s, a, MayAdmit, m.validation);
  }

  /** An action is dispatched at most once in any run. */
  lemma DispatchedAtMostOnce(states: seq<State>, moves: seq<Move>, i: nat, j: nat, id: ActionId)
    requires Run(states, moves) && i < j < |moves|
    requires moves[i].command == Dispatch(id)
    ensures moves[j].command != Dispatch(id)
  {
    assert Steps(states[i], moves[i], states[i + 1]);
    DispatchChecks(states[i], moves[i], states[i + 1], id);
    RunsMoveForward(states, moves, i + 1, j);
    assert ActionsForward(states[i + 1].actions, states[j].actions);
    if moves[j].command == Dispatch(id) {
      assert Steps(states[j], moves[j], states[j + 1]);
      DispatchChecks(states[j], moves[j], states[j + 1], id);
    }
  }

  lemma ConcludeLeavesActions(s: State, p: Proposal, adoption: DecisionId, undertaking: DecisionId)
    requires adoption in s.decisions && undertaking in s.decisions && Conclude(s, p, adoption, undertaking).Ok?
    ensures Conclude(s, p, adoption, undertaking).value.actions == s.actions
  {
  }

  lemma ActivateLeavesActions(s: State, proposal: ProposalId, v: Validation)
    requires Activate(s, proposal, v).Ok?
    ensures Activate(s, proposal, v).value.0.actions == s.actions
  {
    var p := s.proposals[proposal];
    if s.current != Some(p.agreement) {
      var found := MatchingDecisions(s, Rising(s.decisions.Keys), proposal, v, None, None).value;
      if found.0.Some? && found.1.Some? {
        ConcludeLeavesActions(s, p, found.0.value, found.1.value);
      }
    }
  }

  lemma DecideLeavesActions(s: State, d: Decision, v: Validation)
    requires StepDecide(s, d, v).Ok?
    ensures StepDecide(s, d, v).value.0.actions == s.actions
  {
    ActivateLeavesActions(WithDecision(s, d.id, NewDecision(s, d, v).value), d.proposal, v);
  }

  lemma ReaffirmLeavesActions(s: State, d: DecisionId, deps: seq<Dependency>, renewal: Option<AssessmentId>, v: Validation)
    requires StepReaffirm(s, d, deps, renewal, v).Ok?
    ensures StepReaffirm(s, d, deps, renewal, v).value.0.actions == s.actions
  {
    var written := RenewedDecision(s, d, deps, renewal, v).value;
    ActivateLeavesActions(WithDecision(s, d, written), written.decision.proposal, v);
  }

  lemma FulfillLeavesActions(s: State, f: Fulfillment, v: Validation)
    requires StepFulfill(s, f, v).Ok?
    ensures StepFulfill(s, f, v).value.0.actions == s.actions
  {
    FulfillWrites(s, f, v);
  }

  lemma OthersLeaveActions(s: State, c: Command, v: Validation)
    requires Perform(s, c, v).Ok? && !c.Admit? && !c.Dispatch? && !c.Reconcile?
    ensures Perform(s, c, v).value.0.actions == s.actions
  {
    match c
    case Decide(d) => DecideLeavesActions(s, d, v);
    case Reaffirm(d, deps, renewal) => ReaffirmLeavesActions(s, d, deps, renewal, v);
    case Propose(p, access) => ProposeWrites(s, p, access, v);
    case Assess(a, access) => AssessWrites(s, a, access, v);
    case Retract(d) => RetractWrites(s, d, v);
    case SetGrant(g, expected, spec) => Runs.SetGrantWrites(s, g, expected, spec, v);
    case RevokeGrant(g, expected) => Runs.RevokeGrantWrites(s, g, expected, v);
    case Fulfill(f) => FulfillLeavesActions(s, f, v);
    case Initiate(_, _) =>
    case Withdraw(_) =>
    case _ => Runs.RecordingWritesNothing(s, c, v);
  }

  lemma ActionsAfter(s: State, c: Command, v: Validation)
    requires Perform(s, c, v).Ok? && (c.Admit? || c.Dispatch? || c.Reconcile?)
    ensures Perform(s, c, v).value.0.actions.Keys == s.actions.Keys + (if c.Admit? then {c.request.id} else {})
  {
    match c
    case Admit(a) => AdmitWrites(s, a, v);
    case Dispatch(d) => DispatchWrites(s, d, v);
    case Reconcile(r, used, evidence, outcome) => Runs.ReconcileWrites(s, r, used, evidence, outcome, v);
  }

  /** Only an admission creates an action. */
  lemma OnlyAdmissionCreates(s: State, m: Move, t: State, id: ActionId)
    requires Steps(s, m, t) && id !in s.actions && id in t.actions
    ensures m.command.Admit? && m.command.request.id == id
  {
    if m.command.Admit? || m.command.Dispatch? || m.command.Reconcile? {
      ActionsAfter(s, m.command, m.validation);
    } else {
      OthersLeaveActions(s, m.command, m.validation);
    }
  }

  lemma {:induction false} FirstPresent(states: seq<State>, id: ActionId, j: nat) returns (i: nat)
    requires j < |states| && id !in states[0].actions && id in states[j].actions
    ensures i < j && id !in states[i].actions && id in states[i + 1].actions
    decreases j
  {
    if id in states[j - 1].actions {
      i := FirstPresent(states, id, j - 1);
    } else {
      i := j - 1;
    }
  }

  /**
   * Every dispatch follows the admission of the same request by the same actor; at every moment between the two,
   * the grant behind it is the very same one, unrevoked, and its agreement is current.
   */
  lemma DispatchFollowsAdmission(states: seq<State>, moves: seq<Move>, j: nat, id: ActionId) returns (i: nat)
    requires Run(states, moves) && j < |moves| && moves[j].command == Dispatch(id)
    ensures i < j && moves[i].command.Admit? && moves[i].command.request.id == id
    ensures id in states[j].actions && states[j].actions[id].request == moves[i].command.request
    ensures moves[i].validation.authority.actor == moves[j].validation.authority.actor
    ensures forall k :: i <= k <= j ==>
              && LiveGrant(states[k], moves[i].command.request.grant)
              && SameGrant(states[k], states[j], moves[i].command.request.grant.id)
              && states[k].current == Some(moves[i].command.request.agreement)
  {
    assert Steps(states[j], moves[j], states[j + 1]);
    DispatchChecks(states[j], moves[j], states[j + 1], id);
    i := FirstPresent(states, id, j);
    assert Steps(states[i], moves[i], states[i + 1]);
    OnlyAdmissionCreates(states[i], moves[i], states[i + 1], id);
    var a := moves[i].command.request;
    AdmitChecks(states[i], moves[i], states[i + 1], a);
    RunsMoveForward(states, moves, i + 1, j);
    assert ActionsForward(states[i + 1].actions, states[j].actions);
    forall k | i <= k <= j
      ensures LiveGrant(states[k], a.grant) && SameGrant(states[k], states[j], a.grant.id)
              && states[k].current == Some(a.agreement)
    {
      HeldBetween(states, moves, i, k, j, a);
    }
  }

  /** A grant use and an agreement that hold at both ends hold, unchanged, in between. */
  lemma HeldBetween(states: seq<State>, moves: seq<Move>, i: nat, k: nat, j: nat, a: ActionRequest)
    requires Run(states, moves) && i <= k <= j < |states|
    requires LiveGrant(states[i], a.grant) && LiveGrant(states[j], a.grant)
    requires states[i].current == Some(a.agreement) && states[j].current == Some(a.agreement)
    ensures LiveGrant(states[k], a.grant) && SameGrant(states[k], states[j], a.grant.id)
    ensures states[k].current == Some(a.agreement)
  {
    RunsMoveForward(states, moves, i, k);
    assert GrantsForward(states[i].grants, states[k].grants);
    RunsMoveForward(states, moves, k, j);
    assert GrantsForward(states[k].grants, states[j].grants);
    if i < k && states[k].current != Some(a.agreement) {
      SupersededStaysSuperseded(states, moves, i, k, j, a.agreement);
    }
  }
}

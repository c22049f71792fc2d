/** What every accepted command keeps: the kernel invariant and the facts that only move forward. */
module Pursuits {
  import opened Base
  import opened Model
  import opened Rules

  type Proposals = map<ProposalId, Proposal>
  type Assessments = map<AssessmentId, Assessment>
  type Decisions = map<DecisionId, EffectiveDecision>
  type Agreements = map<AgreementId, Agreement>
  type Grants = map<GrantId, Grant>
  type Actions = map<ActionId, Action>

  // ----- the invariant

  ghost predicate ProposalsKept(proposals: Proposals) {
    && (forall id :: id in proposals ==> proposals[id].id == id)
    && (forall i, j :: i in proposals && j in proposals && proposals[i].agreement == proposals[j].agreement ==> i == j)
  }

  ghost predicate DecisionKept(who: Identity, proposals: Proposals, assessments: Assessments, d: EffectiveDecision) {
    && d.decision.proposal in proposals
    && (d.matched ==> !d.retracted)
    && match d.decision.kind
       case Adopt => d.actor == who.ownerActor
       case Undertake(id) =>
         && d.actor == who.agent
         && id in assessments
         && assessments[id].proposal == d.decision.proposal
         && forall b :: b in assessments[id].blockers ==> b in d.blockers
  }

  ghost predicate DecisionsKept(who: Identity, proposals: Proposals, assessments: Assessments, decisions: Decisions) {
    forall id :: id in decisions ==> DecisionKept(who, proposals, assessments, decisions[id])
  }

  ghost predicate OneLivePerKind(decisions: Decisions) {
    forall i, j, p | LivePeer(decisions, i, p) && LivePeer(decisions, j, p) ::
      decisions[i].decision.kind.Adopt? == decisions[j].decision.kind.Adopt? ==> i == j
  }

  /** Both parties stand behind an agreement with decisions that can no longer be withdrawn. */
  ghost predicate Backed(proposals: Proposals, decisions: Decisions, agreements: Agreements, a: AgreementId) {
    && a in agreements
    && var g := agreements[a];
    && g.proposal in proposals && proposals[g.proposal].agreement == a
    && LivePeer(decisions, g.adoption, g.proposal) && decisions[g.adoption].matched
    && decisions[g.adoption].decision.kind.Adopt?
    && LivePeer(decisions, g.undertaking, g.proposal) && decisions[g.undertaking].matched
    && decisions[g.undertaking].decision.kind.Undertake?
  }

  ghost predicate AgreementsKept(proposals: Proposals, decisions: Decisions, agreements: Agreements) {
    forall a :: a in agreements ==> Backed(proposals, decisions, agreements, a)
  }

  ghost predicate Distinct(chain: seq<AgreementId>) {
    forall i, j :: 0 <= i < j < |chain| ==> chain[i] != chain[j]
  }

  ghost function Before(chain: seq<AgreementId>, i: nat): Option<AgreementId>
    requires i <= |chain|
  {
    if i == 0 then None else Some(chain[i - 1])
  }

  ghost predicate Expects(proposals: Proposals, agreements: Agreements, a: AgreementId, expected: Option<AgreementId>) {
    a in agreements && agreements[a].proposal in proposals
    && proposals[agreements[a].proposal].expectedAgreement == expected
  }

  /** The agreements in the order they became current; each one's proposal expected the one before it. */
  ghost predicate Succession(proposals: Proposals, agreements: Agreements, current: Option<AgreementId>, chain: seq<AgreementId>) {
    && Distinct(chain)
    && Covers(agreements, chain)
    && current == Before(chain, |chain|)
    && Ordered(proposals, agreements, chain)
  }

  ghost predicate Covers(agreements: Agreements, chain: seq<AgreementId>) {
    agreements.Keys == set a | a in chain
  }

  ghost predicate Ordered(proposals: Proposals, agreements: Agreements, chain: seq<AgreementId>) {
    forall i :: 0 <= i < |chain| ==> Expects(proposals, agreements, chain[i], Before(chain, i))
  }

  ghost predicate BlockersEndorsed(decisions: Decisions, agreements: Agreements, current: Option<AgreementId>) {
    current.Some? && current.value in agreements && agreements[current.value].undertaking in decisions ==>
      decisions[agreements[current.value].undertaking].blockers <= agreements[current.value].blockers
  }

  ghost predicate GrantsKept(grants: Grants) {
    forall id :: id in grants ==> grants[id].id == id && grants[id].generation >= 1
  }

  ghost predicate ActionsKept(actions: Actions) {
    forall id :: id in actions ==> actions[id].request.id == id
  }

  ghost predicate SettlementKept(settlement: Option<Settlement>, current: Option<AgreementId>) {
    settlement.Some? && settlement.value.Fulfilled? ==> current == Some(settlement.value.agreement)
  }

  /** Everything but the endorsement of the current agreement's blockers. */
  ghost predicate Structured(s: State, chain: seq<AgreementId>) {
    && s.identity.ownerActor != s.identity.agent
    && ProposalsKept(s.proposals)
    && DecisionsKept(s.identity, s.proposals, s.assessments, s.decisions)
    && OneLivePerKind(s.decisions)
    && AgreementsKept(s.proposals, s.decisions, s.agreements)
    && Succession(s.proposals, s.agreements, s.current, chain)
    && GrantsKept(s.grants)
    && ActionsKept(s.actions)
    && SettlementKept(s.settlement, s.current)
  }

  ghost predicate Inv(s: State, chain: seq<AgreementId>) {
    Structured(s, chain) && BlockersEndorsed(s.decisions, s.agreements, s.current)
  }

  // ----- facts that only move forward

  ghost predicate Extends<T>(s: map<Id, T>, t: map<Id, T>) {
    forall id :: id in s ==> id in t && t[id] == s[id]
  }

  ghost predicate DecisionForward(d: EffectiveDecision, e: EffectiveDecision) {
    && e.actor == d.actor
    && e.decision.proposal == d.decision.proposal
    && e.decision.kind.Adopt? == d.decision.kind.Adopt?
    && d.blockers <= e.blockers
    && (d.matched ==> e.matched)
    && (d.retracted ==> e == d)
  }

  ghost predicate DecisionsForward(s: Decisions, t: Decisions) {
    forall id :: id in s ==> id in t && DecisionForward(s[id], t[id])
  }

  ghost predicate AgreementsForward(s: Agreements, t: Agreements) {
    forall a :: a in s ==> a in t && s[a].blockers <= t[a].blockers && t[a] == s[a].(blockers := t[a].blockers)
  }

  /** Generations rise; within a generation nothing changes, and a revoked grant never changes again. */
  ghost predicate GrantsForward(s: Grants, t: Grants) {
    forall id :: id in s ==> id in t && (t[id] == s[id] || (t[id].generation > s[id].generation && !s[id].revoked))
  }

  /** An action's admission is immutable and it never becomes dispatchable again. */
  ghost predicate ActionForward(a: Action, b: Action) {
    && b.request == a.request && b.actor == a.actor && b.admissionDependencies == a.admissionDependencies
    && (a.phase != Admitted ==> b.phase != Admitted)
  }

  ghost predicate ActionsForward(s: Actions, t: Actions) {
    forall id :: id in s ==> id in t && ActionForward(s[id], t[id])
  }

  ghost predicate BlockersForward(agreements: Agreements, current: Option<AgreementId>, later: Agreements, next: Option<AgreementId>) {
    current.Some? && current.value in agreements ==>
      next.Some? && next.value in later && agreements[current.value].blockers <= later[next.value].blockers
  }

  ghost predicate SettledForward(s: State, t: State) {
    s.settlement.Some? ==>
      && t.settlement == s.settlement && t.current == s.current && t.proposals == s.proposals
      && t.assessments == s.assessments && t.decisions == s.decisions && t.agreements == s.agreements
  }

  ghost predicate Forward(s: State, t: State) {
    && t.identity == s.identity
    && (s.initiated ==> t.initiated)
    && Extends(s.proposals, t.proposals)
    && Extends(s.assessments, t.assessments)
    && DecisionsForward(s.decisions, t.decisions)
    && AgreementsForward(s.agreements, t.agreements)
    && GrantsForward(s.grants, t.grants)
    && ActionsForward(s.actions, t.actions)
    && BlockersForward(s.agreements, s.current, t.agreements, t.current)
    && SettledForward(s, t)
  }

  lemma DecisionsForwardTransitive(s: Decisions, t: Decisions, u: Decisions)
    requires DecisionsForward(s, t) && DecisionsForward(t, u)
    ensures DecisionsForward(s, u)
  {
  }

  lemma AgreementsForwardTransitive(s: Agreements, t: Agreements, u: Agreements)
    requires AgreementsForward(s, t) && AgreementsForward(t, u)
    ensures AgreementsForward(s, u)
  {
  }

  lemma GrantsForwardTransitive(s: Grants, t: Grants, u: Grants)
    requires GrantsForward(s, t) && GrantsForward(t, u)
    ensures GrantsForward(s, u)
  {
  }

  lemma ActionsForwardTransitive(s: Actions, t: Actions, u: Actions)
    requires ActionsForward(s, t) && ActionsForward(t, u)
    ensures ActionsForward(s, u)
  {
  }

  lemma ForwardTransitive(s: State, t: State, u: State)
    requires Forward(s, t) && Forward(t, u)
    ensures Forward(s, u)
  {
    hide AgreementsForward, GrantsForward, ActionsForward, DecisionsForward;
    DecisionsForwardTransitive(s.decisions, t.decisions, u.decisions);
    AgreementsForwardTransitive(s.agreements, t.agreements, u.agreements);
    GrantsForwardTransitive(s.grants, t.grants, u.grants);
    ActionsForwardTransitive(s.actions, t.actions, u.actions);
  }

  lemma ForwardReflexive(s: State)
    ensures Forward(s, s)
  {
  }

  /** The succession after a step: unchanged, or extended by the newly current agreement. */
  ghost function Succeeded(s: State, t: State, chain: seq<AgreementId>): seq<AgreementId> {
    if t.current == s.current || t.current.None? then chain else chain + [t.current.value]
  }

  /** One kept step. */
  ghost predicate Kept(s: State, t: State, chain: seq<AgreementId>) {
    && Inv(t, Succeeded(s, t, chain))
    && Forward(s, t)
  }

  lemma SameOrder(proposals: Proposals, agreements: Agreements, laterProposals: Proposals, laterAgreements: Agreements,
                  chain: seq<AgreementId>)
    requires Ordered(proposals, agreements, chain)
    requires Extends(proposals, laterProposals) && AgreementsForward(agreements, laterAgreements)
    ensures Ordered(laterProposals, laterAgreements, chain)
  {
    forall i | 0 <= i < |chain| ensures Expects(laterProposals, laterAgreements, chain[i], Before(chain, i)) {
      assert Expects(proposals, agreements, chain[i], Before(chain, i));
    }
  }

  /** A preparatory write followed by a kept step is a kept step. */
  lemma KeptAfter(s: State, m: State, t: State, chain: seq<AgreementId>)
    requires Forward(s, m) && m.current == s.current && Kept(m, t, chain)
    ensures Kept(s, t, chain)
  {
    ForwardTransitive(s, m, t);
  }

  // ----- steps outside deliberation

  lemma OnlyActions(s: State, t: State, chain: seq<AgreementId>)
    requires Inv(s, chain) && t == s.(actions := t.actions)
    requires ActionsKept(t.actions) && ActionsForward(s.actions, t.actions)
    ensures Kept(s, t, chain)
  {
  }

  lemma OnlyGrants(s: State, t: State, chain: seq<AgreementId>)
    requires Inv(s, chain) && t == s.(grants := t.grants)
    requires GrantsKept(t.grants) && GrantsForward(s.grants, t.grants)
    ensures Kept(s, t, chain)
  {
  }

  lemma OnlySettlement(s: State, t: State, chain: seq<AgreementId>)
    requires Inv(s, chain) && s.settlement.None? && t == s.(settlement := t.settlement)
    requires SettlementKept(t.settlement, s.current)
    ensures Kept(s, t, chain)
  {
  }

  lemma OnlyProposals(s: State, t: State, chain: seq<AgreementId>)
    requires Inv(s, chain) && s.settlement.None? && t == s.(proposals := t.proposals)
    requires ProposalsKept(t.proposals) && Extends(s.proposals, t.proposals)
    ensures Kept(s, t, chain)
  {
    assert AgreementsKept(t.proposals, s.decisions, s.agreements) by {
      forall a | a in s.agreements ensures Backed(t.proposals, s.decisions, s.agreements, a) {
        assert Backed(s.proposals, s.decisions, s.agreements, a);
      }
    }
    SameOrder(s.proposals, s.agreements, t.proposals, s.agreements, chain);
  }

  lemma OnlyAssessments(s: State, t: State, chain: seq<AgreementId>)
    requires Inv(s, chain) && s.settlement.None? && t == s.(assessments := t.assessments)
    requires Extends(s.assessments, t.assessments)
    ensures Kept(s, t, chain)
  {
  }

  // ----- writing one decision

  /** The entry may replace, or join, the decisions: it only moves forward and conflicts with no live peer. */
  ghost predicate Writable(decisions: Decisions, id: DecisionId, d: EffectiveDecision) {
    && (id in decisions ==> DecisionForward(decisions[id], d) && (decisions[id].matched ==> !d.retracted))
    && (!d.retracted ==>
          forall j | j != id && LivePeer(decisions, j, d.decision.proposal) ::
            decisions[j].decision.kind.Adopt? != d.decision.kind.Adopt?)
  }

  lemma WrittenOneLive(decisions: Decisions, id: DecisionId, d: EffectiveDecision)
    requires OneLivePerKind(decisions) && Writable(decisions, id, d)
    ensures OneLivePerKind(decisions[id := d])
  {
    var next := decisions[id := d];
    forall i, j, p | LivePeer(next, i, p) && LivePeer(next, j, p)
                     && next[i].decision.kind.Adopt? == next[j].decision.kind.Adopt?
      ensures i == j
    {
      assert i != id ==> LivePeer(decisions, i, p);
      assert j != id ==> LivePeer(decisions, j, p);
    }
  }

  lemma WrittenBacked(proposals: Proposals, decisions: Decisions, agreements: Agreements, id: DecisionId, d: EffectiveDecision)
    requires AgreementsKept(proposals, decisions, agreements) && Writable(decisions, id, d)
    ensures AgreementsKept(proposals, decisions[id := d], agreements)
  {
    forall a | a in agreements ensures Backed(proposals, decisions[id := d], agreements, a) {
      assert Backed(proposals, decisions, agreements, a);
    }
  }

  lemma WrittenKept(s: State, id: DecisionId, d: EffectiveDecision, chain: seq<AgreementId>)
    requires Structured(s, chain) && Writable(s.decisions, id, d)
    requires DecisionKept(s.identity, s.proposals, s.assessments, d)
    ensures Structured(WithDecision(s, id, d), chain)
    ensures DecisionsForward(s.decisions, WithDecision(s, id, d).decisions)
  {
    WrittenOneLive(s.decisions, id, d);
    WrittenBacked(s.proposals, s.decisions, s.agreements, id, d);
  }

  lemma WrittenForward(s: State, id: DecisionId, d: EffectiveDecision)
    requires s.settlement.None? && DecisionsForward(s.decisions, s.decisions[id := d])
    ensures Forward(s, WithDecision(s, id, d))
  {
  }

  // ----- activation

  /** What the scan for matching decisions may return. */
  ghost predicate Match(s: State, proposal: ProposalId, found: Option<DecisionId>, adopt: bool) {
    found.Some? ==> LivePeer(s.decisions, found.value, proposal) && s.decisions[found.value].decision.kind.Adopt? == adopt
  }

  lemma {:induction false} MatchesAreLive(s: State, ids: seq<DecisionId>, proposal: ProposalId, v: Validation,
                                          adopt: Option<DecisionId>, undertake: Option<DecisionId>)
    requires MatchingDecisions(s, ids, proposal, v, adopt, undertake).Ok?
    requires Match(s, proposal, adopt, true) && Match(s, proposal, undertake, false)
    ensures Match(s, proposal, MatchingDecisions(s, ids, proposal, v, adopt, undertake).value.0, true)
    ensures Match(s, proposal, MatchingDecisions(s, ids, proposal, v, adopt, undertake).value.1, false)
    decreases |ids|
  {
    if ids != [] {
      if !LivePeer(s.decisions, ids[0], proposal)
         || !Observed(DecisionDependencies(s, s.decisions[ids[0]].decision).value, v.grounds) {
        MatchesAreLive(s, ids[1..], proposal, v, adopt, undertake);
      } else if s.decisions[ids[0]].decision.kind.Adopt? {
        MatchesAreLive(s, ids[1..], proposal, v, Some(ids[0]), undertake);
      } else {
        MatchesAreLive(s, ids[1..], proposal, v, adopt, Some(ids[0]));
      }
    }
  }

  /** A proposal that expects the current agreement has never been agreed before. */
  lemma NeverAgreedBefore(s: State, p: ProposalId, chain: seq<AgreementId>)
    requires Structured(s, chain) && p in s.proposals
    requires s.proposals[p].expectedAgreement == s.current && s.current != Some(s.proposals[p].agreement)
    ensures s.proposals[p].agreement !in s.agreements
  {
    var a := s.proposals[p].agreement;
    forall i | 0 <= i < |chain| ensures chain[i] != a {
      assert Expects(s.proposals, s.agreements, chain[i], Before(chain, i));
      assert chain[i] in s.agreements && Backed(s.proposals, s.decisions, s.agreements, chain[i]);
    }
  }

  lemma OrderExtended(proposals: Proposals, agreements: Agreements, chain: seq<AgreementId>, a: AgreementId)
    requires Ordered(proposals, agreements, chain)
    requires Expects(proposals, agreements, a, Before(chain, |chain|))
    ensures Ordered(proposals, agreements, chain + [a])
  {
    var longer := chain + [a];
    forall i | 0 <= i < |longer| ensures Expects(proposals, agreements, longer[i], Before(longer, i)) {
      assert Before(longer, i) == Before(chain, i);
      if i < |chain| {
        assert Expects(proposals, agreements, chain[i], Before(chain, i));
      }
    }
  }

  lemma CoverExtended(agreements: Agreements, chain: seq<AgreementId>, a: AgreementId, g: Agreement)
    requires Covers(agreements, chain) && Distinct(chain) && a !in agreements
    ensures Covers(agreements[a := g], chain + [a]) && Distinct(chain + [a])
  {
    assert forall b :: b in chain + [a] <==> b in chain || b == a;
    forall i, j | 0 <= i < j < |chain + [a]| ensures (chain + [a])[i] != (chain + [a])[j] {
      assert chain[i] in agreements;
    }
  }

  lemma SuccessionExtended(proposals: Proposals, agreements: Agreements, current: Option<AgreementId>, chain: seq<AgreementId>,
                           a: AgreementId, g: Agreement)
    requires Succession(proposals, agreements, current, chain)
    requires a !in agreements && g.proposal in proposals && proposals[g.proposal].expectedAgreement == current
    ensures Succession(proposals, agreements[a := g], Some(a), chain + [a])
  {
    SameOrder(proposals, agreements, proposals, agreements[a := g], chain);
    OrderExtended(proposals, agreements[a := g], chain, a);
    CoverExtended(agreements, chain, a, g);
  }

  lemma OnlyAgreements(s: State, t: State, chain: seq<AgreementId>)
    requires Structured(s, chain) && s.settlement.None? && t == s.(agreements := t.agreements, current := t.current)
    requires AgreementsKept(s.proposals, s.decisions, t.agreements)
    requires Succession(s.proposals, t.agreements, t.current, Succeeded(s, t, chain))
    requires BlockersEndorsed(s.decisions, t.agreements, t.current)
    requires AgreementsForward(s.agreements, t.agreements)
    requires BlockersForward(s.agreements, s.current, t.agreements, t.current)
    ensures Kept(s, t, chain)
  {
  }

  /** Matching both decisions changes nothing else about them. */
  lemma MatchedDecisions(s: State, adoption: DecisionId, undertaking: DecisionId, chain: seq<AgreementId>)
    returns (m: State)
    requires Structured(s, chain) && s.settlement.None?
    requires adoption in s.decisions && undertaking in s.decisions
    requires !s.decisions[adoption].retracted && !s.decisions[undertaking].retracted
    ensures Structured(m, chain) && Forward(s, m)
    ensures m == s.(decisions := BothMatched(s.decisions, adoption, undertaking))
  {
    assert LivePeer(s.decisions, adoption, s.decisions[adoption].decision.proposal);
    assert LivePeer(s.decisions, undertaking, s.decisions[undertaking].decision.proposal);
    var d := s.decisions[adoption].(matched := true);
    WrittenKept(s, adoption, d, chain);
    WrittenForward(s, adoption, d);
    var half := WithDecision(s, adoption, d);
    var e := half.decisions[undertaking].(matched := true);
    assert LivePeer(half.decisions, undertaking, e.decision.proposal);
    WrittenKept(half, undertaking, e, chain);
    WrittenForward(half, undertaking, e);
    m := WithDecision(half, undertaking, e);
    ForwardTransitive(s, half, m);
  }

  lemma AgreementAdded(proposals: Proposals, decisions: Decisions, agreements: Agreements, a: AgreementId, g: Agreement)
    requires AgreementsKept(proposals, decisions, agreements)
    requires Backed(proposals, decisions, map[a := g], a)
    ensures AgreementsKept(proposals, decisions, agreements[a := g])
  {
    var next := agreements[a := g];
    forall b | b in next ensures Backed(proposals, decisions, next, b) {
      if b != a {
        assert Backed(proposals, decisions, agreements, b);
      }
    }
  }

  lemma AgreedKept(s: State, p: ProposalId, adoption: DecisionId, undertaking: DecisionId, blockers: set<ContentKey>, chain: seq<AgreementId>)
    requires Structured(s, chain) && s.settlement.None? && p in s.proposals
    requires s.proposals[p].expectedAgreement == s.current && s.current != Some(s.proposals[p].agreement)
    requires LivePeer(s.decisions, adoption, p) && s.decisions[adoption].matched && s.decisions[adoption].decision.kind.Adopt?
    requires LivePeer(s.decisions, undertaking, p) && s.decisions[undertaking].matched
    requires s.decisions[undertaking].decision.kind.Undertake?
    requires s.decisions[undertaking].blockers <= blockers
    requires s.current.Some? && s.current.value in s.agreements ==> s.agreements[s.current.value].blockers <= blockers
    ensures var a := s.proposals[p].agreement;
            var t := s.(agreements := s.agreements[a := Agreement(p, adoption, undertaking, blockers)], current := Some(a));
            Kept(s, t, chain)
  {
    hide ProposalsKept, DecisionsKept, OneLivePerKind, AgreementsKept, Succession, GrantsKept, ActionsKept, SettlementKept,
      Kept, LivePeer;
    var a := s.proposals[p].agreement;
    NeverAgreedBefore(s, p, chain);
    var g := Agreement(p, adoption, undertaking, blockers);
    SuccessionExtended(s.proposals, s.agreements, s.current, chain, a, g);
    AgreementAdded(s.proposals, s.decisions, s.agreements, a, g);
    OnlyAgreements(s, s.(agreements := s.agreements[a := g], current := Some(a)), chain);
  }

  lemma ConcludeWrites(s: State, m: State, p: Proposal, adoption: DecisionId, undertaking: DecisionId)
    requires adoption in s.decisions && undertaking in s.decisions && Conclude(s, p, adoption, undertaking).Ok?
    requires m == s.(decisions := BothMatched(s.decisions, adoption, undertaking))
    ensures InheritedBlockers(s).Ok?
    ensures Conclude(s, p, adoption, undertaking).value
         == m.(agreements := m.agreements[p.agreement :=
                 Agreement(p.id, adoption, undertaking, s.decisions[undertaking].blockers + InheritedBlockers(s).value)],
               current := Some(p.agreement))
    ensures s.current.Some? && s.current.value in s.agreements ==>
              s.agreements[s.current.value].blockers <= InheritedBlockers(s).value
  {
  }

  lemma ConcludeKeeps(s: State, p: ProposalId, adoption: DecisionId, undertaking: DecisionId, chain: seq<AgreementId>)
    requires Structured(s, chain) && s.settlement.None? && p in s.proposals
    requires s.proposals[p].expectedAgreement == s.current && s.current != Some(s.proposals[p].agreement)
    requires LivePeer(s.decisions, adoption, p) && s.decisions[adoption].decision.kind.Adopt?
    requires LivePeer(s.decisions, undertaking, p) && s.decisions[undertaking].decision.kind.Undertake?
    requires Conclude(s, s.proposals[p], adoption, undertaking).Ok?
    ensures Kept(s, Conclude(s, s.proposals[p], adoption, undertaking).value, chain)
  {
    var m := MatchedDecisions(s, adoption, undertaking, chain);
    ConcludeWrites(s, m, s.proposals[p], adoption, undertaking);
    AgreedKept(m, p, adoption, undertaking, s.decisions[undertaking].blockers + InheritedBlockers(s).value, chain);
    KeptAfter(s, m, Conclude(s, s.proposals[p], adoption, undertaking).value, chain);
  }

  lemma ExtendedForward(agreements: Agreements, a: AgreementId, g: Agreement, chain: seq<AgreementId>)
    requires a in agreements && g == agreements[a].(blockers := g.blockers) && agreements[a].blockers <= g.blockers
    requires Covers(agreements, chain)
    ensures AgreementsForward(agreements, agreements[a := g])
    ensures Covers(agreements[a := g], chain)
  {
    assert agreements[a := g].Keys == agreements.Keys;
  }

  lemma ExtendKeeps(s: State, a: AgreementId, chain: seq<AgreementId>, g: Agreement)
    requires Structured(s, chain) && s.settlement.None? && s.current == Some(a)
    requires a in s.agreements && s.agreements[a].undertaking in s.decisions
    requires g == s.agreements[a].(blockers := s.agreements[a].blockers + s.decisions[s.agreements[a].undertaking].blockers)
    ensures Kept(s, s.(agreements := s.agreements[a := g]), chain)
  {
    var agreements := s.agreements[a := g];
    assert Backed(s.proposals, s.decisions, s.agreements, a);
    AgreementAdded(s.proposals, s.decisions, s.agreements, a, g);
    ExtendedForward(s.agreements, a, g, chain);
    SameOrder(s.proposals, s.agreements, s.proposals, agreements, chain);
    assert Succession(s.proposals, agreements, s.current, chain);
    OnlyAgreements(s, s.(agreements := agreements), chain);
  }

  lemma ActivateKeeps(s: State, proposal: ProposalId, v: Validation, chain: seq<AgreementId>)
    requires Structured(s, chain) && s.settlement.None? && Activate(s, proposal, v).Ok?
    requires BlockersEndorsed(s.decisions, s.agreements, s.current)
             || (proposal in s.proposals && s.current == Some(s.proposals[proposal].agreement))
    ensures Kept(s, Activate(s, proposal, v).value.0, chain)
  {
    hide DecisionsKept, OneLivePerKind, AgreementsKept, Succession, GrantsKept, ActionsKept, SettlementKept, Forward,
      LivePeer, Conclude, MatchingDecisions, Rising;
    var p := s.proposals[proposal];
    if s.current == Some(p.agreement) {
      var t := ExtendBlockers(s, p.agreement).value;
      ExtendKeeps(s, p.agreement, chain, t.agreements[p.agreement]);
    } else {
      MatchesAreLive(s, Rising(s.decisions.Keys), proposal, v, None, None);
      var found := MatchingDecisions(s, Rising(s.decisions.Keys), proposal, v, None, None).value;
      if found.0.Some? && found.1.Some? {
        assert p.id == proposal;
        ConcludeKeeps(s, proposal, found.0.value, found.1.value, chain);
      } else {
        ForwardReflexive(s);
      }
    }
  }

  // ----- what each accepted step wrote

  lemma ProposeWrites(s: State, p: Proposal, access: Access, v: Validation)
    requires StepPropose(s, p, access, v).Ok?
    ensures StepPropose(s, p, access, v).value.0 == s.(proposals := s.proposals[p.id := p])
    ensures p.id !in s.proposals && p.expectedAgreement == s.current
    ensures forall id :: id in s.proposals ==> s.proposals[id].agreement != p.agreement
  {
    assert ProposalAdmissible(s, p).Pass?;
  }

  lemma AssessWrites(s: State, a: Assessment, access: Access, v: Validation)
    requires StepAssess(s, a, access, v).Ok?
    ensures StepAssess(s, a, access, v).value.0 == s.(assessments := s.assessments[a.id := a])
    ensures a.id !in s.assessments
  {
  }

  lemma RetractWrites(s: State, id: DecisionId, v: Validation)
    requires StepRetract(s, id, v).Ok?
    ensures id in s.decisions && !s.decisions[id].matched
    ensures StepRetract(s, id, v).value.0 == WithDecision(s, id, s.decisions[id].(retracted := true))
  {
  }

  lemma AdmitWrites(s: State, a: ActionRequest, v: Validation)
    requires StepAdmit(s, a, v).Ok?
    ensures a.id !in s.actions
    ensures var t := StepAdmit(s, a, v).value.0;
            && a.id in t.actions
            && t == s.(actions := s.actions[a.id := t.actions[a.id]])
            && t.actions[a.id].request == a && t.actions[a.id].actor == v.authority.actor
            && t.actions[a.id].phase == Admitted
  {
  }

  lemma DispatchWrites(s: State, id: ActionId, v: Validation)
    requires StepDispatch(s, id, v).Ok?
    ensures id in s.actions && s.actions[id].phase == Admitted && s.actions[id].actor == v.authority.actor
    ensures NativeGrant(s, s.actions[id].request, MayDispatch, v).Pass?
    ensures Observed(s.actions[id].admissionDependencies, v.grounds)
    ensures StepDispatch(s, id, v).value.0 == s.(actions := s.actions[id := s.actions[id].(phase := Dispatched)])
  {
  }

  lemma FulfillWrites(s: State, f: Fulfillment, v: Validation)
    requires StepFulfill(s, f, v).Ok?
    ensures s.current == Some(f.agreement) && f.agreement in s.agreements
    ensures StepFulfill(s, f, v).value.0 == s.(settlement := Some(Fulfilled(f.agreement)))
  {
    assert CurrentGrounds(s, f.agreement, v).Pass?;
    assert CurrentAgreement(s, f.agreement).Ok?;
  }
}

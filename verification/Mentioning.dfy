/**
 * Which references a stored record makes: one visit over its parts with shortcuts for its own memberships answers the same as
 * asking every reference that its public record shows.
 */
module Mentioning {
  import opened Base
  import opened Model
  import opened Rules
  import opened Records
  import opened Change
  import opened Reading

  // ----- the visit

  predicate MembershipMatches(m: ContentReference, q: QualifiedReference) {
    match q
    case ToMembership(r) => m == r
    case ToContent(k) => m.content == k
    case ToChange(k) => m.identity.Key() == k || m.content.establishing == k
    case ToOperation(o) => m.identity.Key() == o.change && m.operation == o.operation
    case ToGround(_, _, _) => false
  }

  predicate TargetMatches(identity: Identity, target: GrantTarget, q: QualifiedReference) {
    && q.ToChange?
    && (target.DraftCreation? || target.Draft?)
    && identity.owner == q.change.owner && identity.ledger == q.change.ledger && target.change == q.change.change
  }

  /** The membership of a key in this record, as the selectors that can name it see it. */
  predicate OwnMatches(r: StoredOperation, key: ContentKey, q: QualifiedReference) {
    match q
    case ToContent(k) => key == k
    case ToChange(k) => key.establishing == k || r.checks.identity.Key() == k
    case ToMembership(m) => m.identity == r.checks.identity && m.operation == r.operation.id && m.content == key
    case _ => false
  }

  predicate KnowledgeMatches(knowledge: BindingKnowledge, q: QualifiedReference) {
    && knowledge.Known?
    && match q
       case ToContent(k) => knowledge.key == k
       case ToChange(k) => knowledge.key.establishing == k
       case _ => false
  }

  predicate IntakeMatches(r: StoredOperation, key: ContentKey, q: QualifiedReference)
    requires key in r.checks.intakes
  {
    var intake := r.checks.intakes[key];
    || OwnMatches(r, key, q)
    || (intake.priorEstablishment.Some? && MembershipMatches(intake.priorEstablishment.value, q))
    || KnowledgeMatches(intake.sourceClaim.bindingKnowledge, q)
  }

  predicate AnyMatches(references: set<ContentReference>, q: QualifiedReference) {
    exists m :: m in references && MembershipMatches(m, q)
  }

  predicate TermsMatch(t: Terms, q: QualifiedReference) {
    || (exists b :: b in t.binding && (MembershipMatches(b.statement, q) || AnyMatches(b.context, q)))
    || AnyMatches(t.context, q)
    || (exists c :: c in t.criteria && (MembershipMatches(c.definition, q) || AnyMatches(c.terms, q)))
    || (exists u :: u in t.unknowns && AnyMatches(u.affected, q))
  }

  predicate OriginMatches(origin: ContentOrigin, q: QualifiedReference) {
    MembershipMatches(origin.binding, q) || TargetMatches(origin.binding.identity, origin.target, q)
  }

  predicate CommandMatches(r: StoredOperation, q: QualifiedReference) {
    match r.operation.command
    case Propose(p, _) => (q.ToChange? && p.identity.Key() == q.change) || TermsMatch(p.terms, q)
    case RecordProgress(p, _) => AnyMatches(p.terms, q)
    case SetGrant(_, _, spec) =>
      || TargetMatches(r.checks.identity, spec.target, q)
      || exists o :: o in HistoricalOrigins(spec) && OriginMatches(o, q)
    case _ => false
  }

  /** The visit, in the order of the parts. */
  predicate Mentioned(r: StoredOperation, q: QualifiedReference) {
    if q.ToGround? then
      q.observer == r.checks.identity.Key() && q.ground in r.checks.grounds && r.checks.grounds[q.ground] == q.version
    else if q.ToOperation? && q.operation == OperationReference(r.checks.identity.Key(), r.accepted.operation) then true
    else
      || (exists k :: k in r.checks.intakes && IntakeMatches(r, k, q))
      || (exists p :: p in r.operation.freshContent && AnyMatches(p.derivedFrom, q))
      || (r.checks.creation.Some? && exists k :: k in r.checks.creation.value.contentItems
                                                 && TargetMatches(r.checks.identity, r.checks.creation.value.contentItems[k].origin.target, q))
      || CommandMatches(r, q)
  }

  // ----- what a public record shows

  function OwnMemberships(r: StoredOperation): set<ContentReference> {
    set k | k in r.checks.intakes :: ContentReference(r.checks.identity, r.operation.id, k)
  }

  function PriorMemberships(r: StoredOperation): set<ContentReference> {
    set k | k in r.checks.intakes && r.checks.intakes[k].priorEstablishment.Some? :: r.checks.intakes[k].priorEstablishment.value
  }

  function CommandReferences(c: Command): set<ContentReference> {
    match c
    case Propose(p, _) => TermReferences(p.terms)
    case RecordProgress(p, _) => p.terms
    case SetGrant(_, _, spec) => set o | o in HistoricalOrigins(spec) :: o.binding
    case _ => {}
  }

  /** Every membership the public record names, its own included. */
  function ShownMemberships(r: StoredOperation): set<ContentReference> {
    OwnMemberships(r) + PriorMemberships(r) + DerivedReferences(r.operation) + CommandReferences(r.operation.command)
  }

  function KnownKeys(r: StoredOperation): set<ContentKey> {
    set k | k in r.checks.intakes && r.checks.intakes[k].sourceClaim.bindingKnowledge.Known? ::
      r.checks.intakes[k].sourceClaim.bindingKnowledge.key
  }

  /** The pursuit a draft grant is for. */
  function TargetChange(identity: Identity, target: GrantTarget): set<ChangeKey> {
    match target
    case DraftCreation(change) => {ChangeKey(identity.owner, identity.ledger, change)}
    case Draft(change) => {ChangeKey(identity.owner, identity.ledger, change)}
    case _ => {}
  }

  function CommandChanges(r: StoredOperation): set<ChangeKey> {
    match r.operation.command
    case Propose(p, _) => {p.identity.Key()}
    case SetGrant(_, _, spec) =>
      TargetChange(r.checks.identity, spec.target)
      + set o, k | o in HistoricalOrigins(spec) && k in TargetChange(o.binding.identity, o.target) :: k
    case _ => {}
  }

  function CreationChanges(r: StoredOperation): set<ChangeKey> {
    match r.checks.creation
    case None => {}
    case Some(creation) =>
      set k, c | k in creation.contentItems && c in TargetChange(r.checks.identity, creation.contentItems[k].origin.target) :: c
  }

  /** A selector names something the public record shows. */
  ghost predicate Shown(r: StoredOperation, q: QualifiedReference) {
    || AnyMatches(ShownMemberships(r), q)
    || match q
       case ToContent(k) => k in KnownKeys(r)
       case ToChange(c) => c in CommandChanges(r) + CreationChanges(r) || exists k :: k in KnownKeys(r) && k.establishing == c
       case ToOperation(o) => o == OperationReference(r.checks.identity.Key(), r.operation.id)
       case ToMembership(_) => false
       case ToGround(change, ground, version) =>
         change == r.checks.identity.Key() && ground in r.checks.grounds && r.checks.grounds[ground] == version
  }

  // ----- they agree

  lemma AnyOfEither(a: set<ContentReference>, b: set<ContentReference>, q: QualifiedReference)
    ensures AnyMatches(a + b, q) <==> AnyMatches(a, q) || AnyMatches(b, q)
  {
    hide MembershipMatches;
    if AnyMatches(a, q) || AnyMatches(b, q) {
      var m :| (m in a || m in b) && MembershipMatches(m, q);
      assert m in a + b;
    }
  }

  lemma TargetNamesChange(identity: Identity, target: GrantTarget, q: QualifiedReference)
    ensures TargetMatches(identity, target, q) <==> q.ToChange? && q.change in TargetChange(identity, target)
  {
  }

  lemma TermsNameReferences(t: Terms, q: QualifiedReference)
    ensures TermsMatch(t, q) <==> AnyMatches(TermReferences(t), q)
  {
    hide MembershipMatches;
    if TermsMatch(t, q) {
      TermsInReferences(t, q);
    }
    if AnyMatches(TermReferences(t), q) {
      var m :| m in TermReferences(t) && MembershipMatches(m, q);
      if b :| b in t.binding && (m == b.statement || m in b.context) {
        assert MembershipMatches(b.statement, q) || AnyMatches(b.context, q);
      } else if m in t.context {
        assert AnyMatches(t.context, q);
      } else if c :| c in t.criteria && (m == c.definition || m in c.terms) {
        assert MembershipMatches(c.definition, q) || AnyMatches(c.terms, q);
      } else {
        var u :| u in t.unknowns && m in u.affected;
        assert AnyMatches(u.affected, q);
      }
    }
  }

  lemma TermsInReferences(t: Terms, q: QualifiedReference)
    requires TermsMatch(t, q)
    ensures AnyMatches(TermReferences(t), q)
  {
    hide MembershipMatches;
    var all := TermReferences(t);
    if b :| b in t.binding && (MembershipMatches(b.statement, q) || AnyMatches(b.context, q)) {
      var m :| (m == b.statement || m in b.context) && MembershipMatches(m, q);
      assert m in all;
    } else if AnyMatches(t.context, q) {
      var m :| m in t.context && MembershipMatches(m, q);
      assert m in all;
    } else if c :| c in t.criteria && (MembershipMatches(c.definition, q) || AnyMatches(c.terms, q)) {
      var m :| (m == c.definition || m in c.terms) && MembershipMatches(m, q);
      assert m in all;
    } else {
      var u :| u in t.unknowns && AnyMatches(u.affected, q);
      var m :| m in u.affected && MembershipMatches(m, q);
      assert m in all;
    }
  }

  lemma CommandNames(r: StoredOperation, q: QualifiedReference)
    ensures CommandMatches(r, q) <==>
            AnyMatches(CommandReferences(r.operation.command), q) || (q.ToChange? && q.change in CommandChanges(r))
  {
    hide MembershipMatches, TargetMatches, TargetChange, TermsMatch, HistoricalOrigins;
    match r.operation.command
    case Propose(p, _) => TermsNameReferences(p.terms, q);
    case SetGrant(_, _, spec) =>
      TargetNamesChange(r.checks.identity, spec.target, q);
      OriginsName(spec, q);
    case _ =>
  }

  lemma OriginsName(spec: GrantSpec, q: QualifiedReference)
    ensures (exists o :: o in HistoricalOrigins(spec) && OriginMatches(o, q)) <==>
            || AnyMatches(set o | o in HistoricalOrigins(spec) :: o.binding, q)
            || (q.ToChange? && q.change in set o, k | o in HistoricalOrigins(spec) && k in TargetChange(o.binding.identity, o.target) :: k)
  {
    hide MembershipMatches, TargetMatches, TargetChange, HistoricalOrigins;
    var origins := HistoricalOrigins(spec);
    var bindings := set o | o in origins :: o.binding;
    forall o | o in origins ensures TargetMatches(o.binding.identity, o.target, q)
                                    <==> q.ToChange? && q.change in TargetChange(o.binding.identity, o.target)
    {
      TargetNamesChange(o.binding.identity, o.target, q);
    }
    if o :| o in origins && MembershipMatches(o.binding, q) {
      assert o.binding in bindings;
    }
  }

  lemma CreationNames(r: StoredOperation, q: QualifiedReference)
    ensures (r.checks.creation.Some? && exists k :: k in r.checks.creation.value.contentItems
                                                    && TargetMatches(r.checks.identity, r.checks.creation.value.contentItems[k].origin.target, q))
            <==> q.ToChange? && q.change in CreationChanges(r)
  {
    hide TargetMatches, TargetChange;
    if r.checks.creation.Some? {
      var items := r.checks.creation.value.contentItems;
      forall k | k in items ensures TargetMatches(r.checks.identity, items[k].origin.target, q)
                                    <==> q.ToChange? && q.change in TargetChange(r.checks.identity, items[k].origin.target)
      {
        TargetNamesChange(r.checks.identity, items[k].origin.target, q);
      }
    }
  }

  lemma DerivationsName(op: Operation, q: QualifiedReference)
    ensures (exists p :: p in op.freshContent && AnyMatches(p.derivedFrom, q)) <==> AnyMatches(DerivedReferences(op), q)
  {
    hide MembershipMatches;
    if p :| p in op.freshContent && AnyMatches(p.derivedFrom, q) {
      var m :| m in p.derivedFrom && MembershipMatches(m, q);
      assert m in DerivedReferences(op);
    }
    if AnyMatches(DerivedReferences(op), q) {
      var m :| m in DerivedReferences(op) && MembershipMatches(m, q);
      var p :| p in op.freshContent && m in p.derivedFrom;
      assert AnyMatches(p.derivedFrom, q);
    }
  }

  /** The three things an intake can name, gathered over all intakes. */
  ghost predicate IntakesName(r: StoredOperation, q: QualifiedReference) {
    || (exists k :: k in r.checks.intakes && OwnMatches(r, k, q))
    || AnyMatches(PriorMemberships(r), q)
    || (exists k :: k in KnownKeys(r) && KnowledgeMatches(Known(k), q))
  }

  lemma IntakesNameAll(r: StoredOperation, q: QualifiedReference)
    ensures (exists k :: k in r.checks.intakes && IntakeMatches(r, k, q)) <==> IntakesName(r, q)
  {
    hide MembershipMatches, OwnMatches, KnowledgeMatches;
    if k :| k in r.checks.intakes && IntakeMatches(r, k, q) {
      var intake := r.checks.intakes[k];
      if intake.priorEstablishment.Some? && MembershipMatches(intake.priorEstablishment.value, q) {
        assert intake.priorEstablishment.value in PriorMemberships(r);
      } else if !OwnMatches(r, k, q) {
        KnownMatches(intake.sourceClaim.bindingKnowledge, q);
        assert intake.sourceClaim.bindingKnowledge.key in KnownKeys(r);
      }
    }
    if k :| k in r.checks.intakes && OwnMatches(r, k, q) {
      assert IntakeMatches(r, k, q);
    }
    if AnyMatches(PriorMemberships(r), q) {
      var m :| m in PriorMemberships(r) && MembershipMatches(m, q);
      var k :| k in r.checks.intakes && r.checks.intakes[k].priorEstablishment == Some(m);
      assert IntakeMatches(r, k, q);
    }
    if known :| known in KnownKeys(r) && KnowledgeMatches(Known(known), q) {
      var k :| k in r.checks.intakes && r.checks.intakes[k].sourceClaim.bindingKnowledge == Known(known);
      assert IntakeMatches(r, k, q);
    }
  }

  lemma KnownMatches(knowledge: BindingKnowledge, q: QualifiedReference)
    requires KnowledgeMatches(knowledge, q)
    ensures knowledge.Known? && KnowledgeMatches(Known(knowledge.key), q)
  {
  }

  /** A record's own memberships need no visit of their own for operations: the record's operation stands for them. */
  lemma OwnNames(r: StoredOperation, q: QualifiedReference)
    requires !q.ToGround?
    ensures (exists k :: k in r.checks.intakes && OwnMatches(r, k, q)) ==> AnyMatches(OwnMemberships(r), q)
    ensures AnyMatches(OwnMemberships(r), q) ==>
              || (exists k :: k in r.checks.intakes && OwnMatches(r, k, q))
              || (q.ToOperation? && q.operation == OperationReference(r.checks.identity.Key(), r.operation.id))
  {
    if k :| k in r.checks.intakes && OwnMatches(r, k, q) {
      var m := ContentReference(r.checks.identity, r.operation.id, k);
      assert m in OwnMemberships(r) && MembershipMatches(m, q);
    }
    if AnyMatches(OwnMemberships(r), q) && !q.ToOperation? {
      var m :| m in OwnMemberships(r) && MembershipMatches(m, q);
      assert m.content in r.checks.intakes && OwnMatches(r, m.content, q);
    }
  }

  lemma MembershipsSplit(r: StoredOperation, q: QualifiedReference)
    ensures AnyMatches(ShownMemberships(r), q) <==>
            || AnyMatches(OwnMemberships(r), q) || AnyMatches(PriorMemberships(r), q)
            || AnyMatches(DerivedReferences(r.operation), q) || AnyMatches(CommandReferences(r.operation.command), q)
  {
    hide AnyMatches, OwnMemberships, PriorMemberships, DerivedReferences, CommandReferences;
    var own, prior, derived := OwnMemberships(r), PriorMemberships(r), DerivedReferences(r.operation);
    AnyOfEither(own, prior, q);
    AnyOfEither(own + prior, derived, q);
    AnyOfEither(own + prior + derived, CommandReferences(r.operation.command), q);
  }

  lemma KnowledgeNames(r: StoredOperation, q: QualifiedReference)
    ensures (exists k :: k in KnownKeys(r) && KnowledgeMatches(Known(k), q)) <==>
            || (q.ToContent? && q.content in KnownKeys(r))
            || (q.ToChange? && exists k :: k in KnownKeys(r) && k.establishing == q.change)
  {
    hide KnownKeys;
    if q.ToContent? && q.content in KnownKeys(r) {
      assert KnowledgeMatches(Known(q.content), q);
    }
    if q.ToChange? && exists k :: k in KnownKeys(r) && k.establishing == q.change {
      var k :| k in KnownKeys(r) && k.establishing == q.change;
      assert KnowledgeMatches(Known(k), q);
    }
  }

  lemma GroundsAreNotMemberships(references: set<ContentReference>, q: QualifiedReference)
    requires q.ToGround?
    ensures !AnyMatches(references, q)
  {
  }

  /** A record is selected by a reference if and only if its public record shows what the reference names. */
  lemma MentionedExactlyWhenShown(r: StoredOperation, q: QualifiedReference)
    requires r.accepted.operation == r.operation.id
    ensures Mentioned(r, q) <==> Shown(r, q)
  {
    hide AnyMatches, OwnMatches, IntakeMatches, KnowledgeMatches, CommandMatches, TargetMatches, OwnMemberships, PriorMemberships,
      DerivedReferences, CommandReferences, ShownMemberships, KnownKeys, CommandChanges, CreationChanges;
    if q.ToGround? {
      GroundsAreNotMemberships(ShownMemberships(r), q);
    } else {
      IntakesNameAll(r, q);
      DerivationsName(r.operation, q);
      CreationNames(r, q);
      CommandNames(r, q);
      OwnNames(r, q);
      MembershipsSplit(r, q);
      KnowledgeNames(r, q);
    }
  }
}

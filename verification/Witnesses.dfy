/** The durable witness published outside the database around every commit. */
module Witnesses {
  import opened Base
  import opened Model

  datatype StoreError = Custody | Corrupt | TooLarge | UnsupportedFrame | Refused | WasFenced | Uncertain

  type Verdict = Outcome<StoreError>

  const FRAME: nat := 16 * 1024 * 1024
  const DESCRIPTOR: nat := FRAME + 8192

  datatype Kind = Register | Original

  datatype Phase = Preparing | PreparingOpen | Live | Closing | Clean

  datatype Stage = Prepared | CommitPossible

  datatype Mutation = Provision | Append | Reserve | Bind | Include | MarkActive

  /** A committed position: a register counts reservations and inclusions, an original its operations. */
  datatype Cut = Cut(revision: nat, count: nat, included: nat, last: Option<OperationId>)

  type Object = (nat, nat)

  datatype Journals = Journals(wal: Option<Object>, shm: Option<Object>)

  datatype LedgerIdentity = LedgerIdentity(owner: OwnerId, ledger: LedgerId)

  /** Device and inode of the directory, the database and the lock. */
  datatype CustodyBinding = CustodyBinding(directory: Object, database: Object, lease: Object)

  datatype Subject = Subject(kind: Kind, ledger: LedgerIdentity, identity: Option<Identity>, issuer: CustodyBinding, binding: CustodyBinding)

  datatype Pending = Pending(stage: Stage, mutation: Mutation, after: Cut, request: Bytes)

  datatype Witness = Witness(
    subject: Subject,
    generation: nat,
    parent: nat,
    epoch: nat,
    phase: Phase,
    journals: Journals,
    cut: Cut,
    pending: Option<Pending>)

  predicate ValidCut(kind: Kind, c: Cut) {
    match kind
    case Register => c.last.None? && c.included <= c.count
    case Original => c.included == 0 && (c.count == 0 <==> c.last.None?)
  }

  predicate ValidSubject(s: Subject) {
    match (s.kind, s.identity)
    case (Register, None) => true
    case (Original, Some(id)) => id.owner == s.ledger.owner && id.ledger == s.ledger.ledger && NewState(id).Ok?
    case _ => false
  }

  predicate MutationFits(kind: Kind, m: Mutation) {
    match m
    case Provision => true
    case Append => kind == Original
    case MarkActive => kind == Original
    case _ => kind == Register
  }

  predicate ValidPending(w: Witness, p: Pending) {
    && ValidCut(w.subject.kind, p.after)
    && w.cut.revision < U64_MAX && p.after.revision == w.cut.revision + 1
    && w.phase != Closing && w.phase != Clean
    && MutationFits(w.subject.kind, p.mutation)
  }

  predicate Valid(w: Witness) {
    && w.generation != 0 && w.parent + 1 == w.generation <= U64_MAX
    && ValidSubject(w.subject)
    && ValidCut(w.subject.kind, w.cut)
    && (w.pending.Some? ==> ValidPending(w, w.pending.value))
    && (w.phase == Live || w.phase == Closing ==> w.journals.wal.Some? && w.journals.shm.Some?)
  }

  /** How the pending mutation and the cut may change in one publication. */
  predicate CutMayChange(w: Witness, next: Witness) {
    match (w.pending, next.pending)
    case (None, None) => next.cut == w.cut
    case (None, Some(p)) => p.stage == Prepared && next.cut == w.cut
    case (Some(p), Some(q)) =>
      && next.cut == w.cut
      && q == p.(stage := q.stage)
      && (p.stage == q.stage || (p.stage == Prepared && q.stage == CommitPossible))
    case (Some(p), None) => next.cut == if p.stage == Prepared then w.cut else p.after
  }

  predicate PhaseMayChange(a: Phase, b: Phase) {
    || a == b
    || (a == Preparing && (b == Live || b == PreparingOpen))
    || (a == PreparingOpen && b == Live)
    || (a == Live && (b == PreparingOpen || b == Closing))
    || (a == Clean && b == PreparingOpen)
    || (a == Closing && (b == Clean || b == PreparingOpen))
  }

  predicate MayFollow(w: Witness, next: Witness) {
    && CutMayChange(w, next)
    && PhaseMayChange(w.phase, next.phase)
    && (w.phase == Live && next.phase == Live ==> w.journals == next.journals && w.epoch == next.epoch)
  }

  function Numbered(w: Witness, next: Witness): Witness {
    next.(generation := w.generation + 1, parent := w.generation)
  }

  /** Descriptors are bounded; everything else in an envelope has a fixed size. */
  predicate Encodable(w: Witness) {
    w.pending.Some? ==> |w.pending.value.request| <= DESCRIPTOR
  }

  /** What one replacement of a held witness publishes, if the stored witness is still the held one. */
  function Replaced(stored: Witness, held: Witness, next: Witness): Result<Witness, StoreError> {
    if stored != held || next.subject != held.subject then Err(Custody)
    else if !MayFollow(held, next) then Err(Corrupt)
    else if held.generation >= U64_MAX || !Valid(Numbered(held, next)) then Err(Corrupt)
    else if !Encodable(next) then Err(TooLarge)
    else Ok(Numbered(held, next))
  }
}

/** The private descriptor codec: fixed-width big-endian fields, tagged options and length-prefixed bytes, read back exactly. */
module Descriptors {
  import opened Base
  import opened Model
  import opened Records
  import opened Witnesses

  const PAYLOAD: nat := FRAME + 16384

  // ----- big-endian numbers

  function Power256(k: nat): nat {
    if k == 0 then 1 else 256 * Power256(k - 1)
  }

  function BigEndian(n: nat, k: nat): (b: Bytes)
    ensures |b| == k
  {
    if k == 0 then [] else BigEndian(n / 256, k - 1) + [n % 256]
  }

  function NumberOf(b: Bytes): nat {
    if b == [] then 0 else NumberOf(b[..|b| - 1]) * 256 + b[|b| - 1]
  }

  lemma {:induction false} NumberReadBack(n: nat, k: nat)
    requires n < Power256(k)
    ensures NumberOf(BigEndian(n, k)) == n
  {
    if k > 0 {
      NumberReadBack(n / 256, k - 1);
      assert BigEndian(n, k)[..k - 1] == BigEndian(n / 256, k - 1);
    }
  }

  lemma {:induction false} NumberWrittenBack(b: Bytes)
    ensures NumberOf(b) < Power256(|b|) && BigEndian(NumberOf(b), |b|) == b
  {
    if b != [] {
      NumberWrittenBack(b[..|b| - 1]);
      var last: nat := b[|b| - 1];
      assert NumberOf(b) / 256 == NumberOf(b[..|b| - 1]) && NumberOf(b) % 256 == last;
    }
  }

  // ----- readers: a value and the bytes after it

  type Read<+T> = Result<(T, Bytes), StoreError>

  function ReadNumber(b: Bytes, k: nat): Read<nat> {
    if |b| < k then Err(Corrupt) else Ok((NumberOf(b[..k]), b[k..]))
  }

  /** A reader of `k` bytes accepts exactly what writing its value produces. */
  lemma NumberExact(b: Bytes, k: nat, n: nat, rest: Bytes)
    ensures ReadNumber(b, k) == Ok((n, rest)) <==> n < Power256(k) && b == BigEndian(n, k) + rest
  {
    hide BigEndian, NumberOf;
    if |b| >= k {
      NumberWrittenBack(b[..k]);
      assert b == b[..k] + b[k..];
    }
    if n < Power256(k) && b == BigEndian(n, k) + rest {
      NumberReadBack(n, k);
      assert b[..k] == BigEndian(n, k) && b[k..] == rest;
    }
  }

  function ReadByte(b: Bytes): (r: Read<nat>)
    ensures r.Ok? ==> b == [r.value.0] + r.value.1 && r.value.0 < 256
  {
    if b == [] then Err(Corrupt) else Ok((b[0] as nat, b[1..]))
  }

  predicate IdFits(id: Id) {
    0 < id < Power256(16)
  }

  predicate WordFits(n: nat) {
    n < Power256(8)
  }

  function WriteId(id: Id): Bytes {
    BigEndian(id, 16)
  }

  /** An identity of sixteen zero bytes is refused. */
  function ReadId(b: Bytes): Read<Id> {
    var read :- ReadNumber(b, 16);
    if read.0 == 0 then Err(Corrupt) else Ok(read)
  }

  lemma IdExact(b: Bytes, id: Id, rest: Bytes)
    ensures ReadId(b) == Ok((id, rest)) <==> IdFits(id) && b == WriteId(id) + rest
  {
    hide BigEndian, NumberOf, Power256;
    NumberExact(b, 16, id, rest);
  }

  function WriteObject(o: Object): Bytes {
    BigEndian(o.0, 8) + BigEndian(o.1, 8)
  }

  predicate ObjectFits(o: Object) {
    WordFits(o.0) && WordFits(o.1)
  }

  function ReadObject(b: Bytes): Read<Object> {
    var first :- ReadNumber(b, 8);
    var second :- ReadNumber(first.1, 8);
    Ok(((first.0, second.0), second.1))
  }

  lemma ObjectExact(b: Bytes, o: Object, rest: Bytes)
    ensures ReadObject(b) == Ok((o, rest)) <==> ObjectFits(o) && b == WriteObject(o) + rest
  {
    hide BigEndian, NumberOf, ReadNumber, Power256;
    var first := ReadNumber(b, 8);
    if first.Ok? {
      NumberExact(b, 8, first.value.0, first.value.1);
      NumberExact(first.value.1, 8, o.1, rest);
      assert BigEndian(o.0, 8) + (BigEndian(o.1, 8) + rest) == WriteObject(o) + rest;
    }
    if ObjectFits(o) && b == WriteObject(o) + rest {
      assert b == BigEndian(o.0, 8) + (BigEndian(o.1, 8) + rest);
      NumberExact(b, 8, o.0, BigEndian(o.1, 8) + rest);
      NumberExact(BigEndian(o.1, 8) + rest, 8, o.1, rest);
    }
  }

  function WriteBinding(c: CustodyBinding): Bytes {
    WriteObject(c.directory) + WriteObject(c.database) + WriteObject(c.lease)
  }

  predicate BindingFits(c: CustodyBinding) {
    ObjectFits(c.directory) && ObjectFits(c.database) && ObjectFits(c.lease)
  }

  function ReadBinding(b: Bytes): Read<CustodyBinding> {
    var directory :- ReadObject(b);
    var database :- ReadObject(directory.1);
    var lease :- ReadObject(database.1);
    Ok((CustodyBinding(directory.0, database.0, lease.0), lease.1))
  }

  lemma BindingExact(b: Bytes, c: CustodyBinding, rest: Bytes)
    ensures ReadBinding(b) == Ok((c, rest)) <==> BindingFits(c) && b == WriteBinding(c) + rest
  {
    hide ReadObject, WriteObject, ObjectFits;
    var d, e, f := WriteObject(c.directory), WriteObject(c.database), WriteObject(c.lease);
    assert WriteBinding(c) + rest == d + (e + (f + rest));
    if ReadBinding(b) == Ok((c, rest)) {
      var first := ReadObject(b).value;
      var second := ReadObject(first.1).value;
      ObjectExact(b, first.0, first.1);
      ObjectExact(first.1, second.0, second.1);
      ObjectExact(second.1, c.lease, rest);
    }
    if BindingFits(c) && b == WriteBinding(c) + rest {
      ObjectExact(b, c.directory, e + (f + rest));
      ObjectExact(e + (f + rest), c.database, f + rest);
      ObjectExact(f + rest, c.lease, rest);
    }
  }

  // ----- identities and subjects

  predicate IdentityFits(i: Identity) {
    IdFits(i.owner) && IdFits(i.ledger) && IdFits(i.change) && IdFits(i.ownerActor) && IdFits(i.agent)
  }

  function WriteIdentity(i: Identity): Bytes {
    WriteId(i.owner) + WriteId(i.ledger) + WriteId(i.change) + WriteId(i.ownerActor) + WriteId(i.agent)
  }

  function ReadIdentity(b: Bytes): Read<Identity> {
    var owner :- ReadId(b);
    var ledger :- ReadId(owner.1);
    var change :- ReadId(ledger.1);
    var actor :- ReadId(change.1);
    var agent :- ReadId(actor.1);
    Ok((Identity(owner.0, actor.0, ledger.0, change.0, agent.0), agent.1))
  }

  lemma IdentityExact(b: Bytes, i: Identity, rest: Bytes)
    ensures ReadIdentity(b) == Ok((i, rest)) <==> IdentityFits(i) && b == WriteIdentity(i) + rest
  {
    hide ReadId, WriteId, IdFits;
    var o, l, c, a, g := WriteId(i.owner), WriteId(i.ledger), WriteId(i.change), WriteId(i.ownerActor), WriteId(i.agent);
    assert WriteIdentity(i) + rest == o + (l + (c + (a + (g + rest))));
    if ReadIdentity(b) == Ok((i, rest)) {
      var owner := ReadId(b).value;
      var ledger := ReadId(owner.1).value;
      var change := ReadId(ledger.1).value;
      var actor := ReadId(change.1).value;
      IdExact(b, owner.0, owner.1);
      IdExact(owner.1, ledger.0, ledger.1);
      IdExact(ledger.1, change.0, change.1);
      IdExact(change.1, actor.0, actor.1);
      IdExact(actor.1, i.agent, rest);
    }
    if IdentityFits(i) && b == WriteIdentity(i) + rest {
      IdExact(b, i.owner, l + (c + (a + (g + rest))));
      IdExact(l + (c + (a + (g + rest))), i.ledger, c + (a + (g + rest)));
      IdExact(c + (a + (g + rest)), i.change, a + (g + rest));
      IdExact(a + (g + rest), i.ownerActor, g + rest);
      IdExact(g + rest, i.agent, rest);
    }
  }

  predicate PlaceFits(i: Option<Identity>) {
    i.Some? ==> IdentityFits(i.value)
  }

  function WritePlace(i: Option<Identity>): Bytes {
    match i
    case None => [0]
    case Some(identity) => [1] + WriteIdentity(identity)
  }

  function ReadPlace(b: Bytes): Read<Option<Identity>> {
    var tag :- ReadByte(b);
    if tag.0 == 0 then Ok((None, tag.1))
    else if tag.0 == 1 then
      var identity :- ReadIdentity(tag.1);
      Ok((Some(identity.0), identity.1))
    else Err(Corrupt)
  }

  lemma PlaceExact(b: Bytes, i: Option<Identity>, rest: Bytes)
    ensures ReadPlace(b) == Ok((i, rest)) <==> PlaceFits(i) && b == WritePlace(i) + rest
  {
    hide ReadIdentity, WriteIdentity, IdentityFits;
    if i.Some? {
      assert WritePlace(i) + rest == [1] + (WriteIdentity(i.value) + rest);
      if b != [] {
        IdentityExact(b[1..], i.value, rest);
      }
    }
  }

  function KindByte(k: Kind): Byte {
    if k == Register then 0 else 1
  }

  predicate SubjectFits(s: Subject) {
    IdFits(s.ledger.owner) && IdFits(s.ledger.ledger) && PlaceFits(s.identity) && BindingFits(s.issuer) && BindingFits(s.binding)
  }

  function WriteSubject(s: Subject): Bytes {
    [KindByte(s.kind)] + WriteId(s.ledger.owner) + WriteId(s.ledger.ledger) + WritePlace(s.identity) + WriteBinding(s.issuer) + WriteBinding(s.binding)
  }

  function ReadSubject(b: Bytes): Read<Subject> {
    var kind :- ReadByte(b);
    if kind.0 > 1 then Err(Corrupt)
    else
      var owner :- ReadId(kind.1);
      var ledger :- ReadId(owner.1);
      var place :- ReadPlace(ledger.1);
      var issuer :- ReadBinding(place.1);
      var binding :- ReadBinding(issuer.1);
      Ok((Subject(if kind.0 == 0 then Register else Original, LedgerIdentity(owner.0, ledger.0), place.0, issuer.0, binding.0), binding.1))
  }

  lemma SubjectExact(b: Bytes, s: Subject, rest: Bytes)
    ensures ReadSubject(b) == Ok((s, rest)) <==> SubjectFits(s) && b == WriteSubject(s) + rest
  {
    hide ReadId, WriteId, IdFits, ReadPlace, WritePlace, PlaceFits, ReadBinding, WriteBinding, BindingFits;
    var o, l, p, i, c := WriteId(s.ledger.owner), WriteId(s.ledger.ledger), WritePlace(s.identity), WriteBinding(s.issuer), WriteBinding(s.binding);
    assert WriteSubject(s) + rest == [KindByte(s.kind)] + (o + (l + (p + (i + (c + rest)))));
    if ReadSubject(b) == Ok((s, rest)) {
      var kind := ReadByte(b).value;
      var owner := ReadId(kind.1).value;
      var ledger := ReadId(owner.1).value;
      var place := ReadPlace(ledger.1).value;
      var issuer := ReadBinding(place.1).value;
      IdExact(kind.1, owner.0, owner.1);
      IdExact(owner.1, ledger.0, ledger.1);
      PlaceExact(ledger.1, place.0, place.1);
      BindingExact(place.1, issuer.0, issuer.1);
      BindingExact(issuer.1, s.binding, rest);
    }
    if SubjectFits(s) && b == WriteSubject(s) + rest {
      assert b[1..] == o + (l + (p + (i + (c + rest))));
      IdExact(b[1..], s.ledger.owner, l + (p + (i + (c + rest))));
      IdExact(l + (p + (i + (c + rest))), s.ledger.ledger, p + (i + (c + rest)));
      PlaceExact(p + (i + (c + rest)), s.identity, i + (c + rest));
      BindingExact(i + (c + rest), s.issuer, c + rest);
      BindingExact(c + rest, s.binding, rest);
    }
  }

  // ----- cuts and pending mutations

  function WriteLast(id: Option<OperationId>): Bytes {
    match id
    case None => [0]
    case Some(i) => [1] + WriteId(i)
  }

  predicate LastFits(id: Option<OperationId>) {
    id.Some? ==> IdFits(id.value)
  }

  function ReadLast(b: Bytes): Read<Option<OperationId>> {
    var tag :- ReadByte(b);
    if tag.0 == 0 then Ok((None, tag.1))
    else if tag.0 == 1 then
      var id :- ReadId(tag.1);
      Ok((Some(id.0), id.1))
    else Err(Corrupt)
  }

  lemma LastExact(b: Bytes, id: Option<OperationId>, rest: Bytes)
    ensures ReadLast(b) == Ok((id, rest)) <==> LastFits(id) && b == WriteLast(id) + rest
  {
    hide ReadId, WriteId, IdFits;
    if id.Some? {
      assert WriteLast(id) + rest == [1] + (WriteId(id.value) + rest);
      if b != [] {
        IdExact(b[1..], id.value, rest);
      }
    }
  }

  function WriteCut(c: Cut): Bytes {
    BigEndian(c.revision, 8) + BigEndian(c.count, 8) + BigEndian(c.included, 8) + WriteLast(c.last)
  }

  predicate CutFits(c: Cut) {
    WordFits(c.revision) && WordFits(c.count) && WordFits(c.included) && LastFits(c.last)
  }

  function ReadCut(b: Bytes): Read<Cut> {
    var revision :- ReadNumber(b, 8);
    var count :- ReadNumber(revision.1, 8);
    var included :- ReadNumber(count.1, 8);
    var last :- ReadLast(included.1);
    Ok((Cut(revision.0, count.0, included.0, last.0), last.1))
  }

  lemma CutExact(b: Bytes, c: Cut, rest: Bytes)
    ensures ReadCut(b) == Ok((c, rest)) <==> CutFits(c) && b == WriteCut(c) + rest
  {
    hide ReadNumber, BigEndian, NumberOf, Power256, ReadLast, WriteLast, LastFits;
    var r, n, i, l := BigEndian(c.revision, 8), BigEndian(c.count, 8), BigEndian(c.included, 8), WriteLast(c.last);
    assert WriteCut(c) + rest == r + (n + (i + (l + rest)));
    if ReadCut(b) == Ok((c, rest)) {
      var revision := ReadNumber(b, 8).value;
      var count := ReadNumber(revision.1, 8).value;
      var included := ReadNumber(count.1, 8).value;
      NumberExact(b, 8, revision.0, revision.1);
      NumberExact(revision.1, 8, count.0, count.1);
      NumberExact(count.1, 8, included.0, included.1);
      LastExact(included.1, c.last, rest);
    }
    if CutFits(c) && b == WriteCut(c) + rest {
      NumberExact(b, 8, c.revision, n + (i + (l + rest)));
      NumberExact(n + (i + (l + rest)), 8, c.count, i + (l + rest));
      NumberExact(i + (l + rest), 8, c.included, l + rest);
      LastExact(l + rest, c.last, rest);
    }
  }

  /** Bytes behind a four-byte length, refused over a maximum before they are read. */
  function WriteBytes(v: Bytes): Bytes {
    BigEndian(|v|, 4) + v
  }

  function ReadBytes(b: Bytes, max: nat): Read<Bytes> {
    var length :- ReadNumber(b, 4);
    if length.0 > max then Err(TooLarge)
    else if |length.1| < length.0 then Err(Corrupt)
    else Ok((length.1[..length.0], length.1[length.0..]))
  }

  lemma BytesExact(b: Bytes, max: nat, v: Bytes, rest: Bytes)
    requires max < Power256(4)
    ensures ReadBytes(b, max) == Ok((v, rest)) <==> |v| <= max && b == WriteBytes(v) + rest
  {
    hide ReadNumber, BigEndian, NumberOf, Power256;
    assert WriteBytes(v) + rest == BigEndian(|v|, 4) + (v + rest);
    if ReadBytes(b, max) == Ok((v, rest)) {
      var length := ReadNumber(b, 4).value;
      NumberExact(b, 4, length.0, length.1);
      assert length.1 == length.1[..length.0] + length.1[length.0..];
    }
    if |v| <= max && b == WriteBytes(v) + rest {
      NumberExact(b, 4, |v|, v + rest);
      assert (v + rest)[..|v|] == v && (v + rest)[|v|..] == rest;
    }
  }

  function StageByte(s: Stage): Byte {
    if s == Prepared then 0 else 1
  }

  function MutationByte(m: Mutation): Byte {
    match m
    case Provision => 0
    case Append => 1
    case Reserve => 2
    case Bind => 3
    case Include => 4
    case MarkActive => 5
  }

  function MutationOf(n: nat): Option<Mutation> {
    if n == 0 then Some(Provision)
    else if n == 1 then Some(Append)
    else if n == 2 then Some(Reserve)
    else if n == 3 then Some(Bind)
    else if n == 4 then Some(Include)
    else if n == 5 then Some(MarkActive)
    else None
  }

  predicate PendingFits(p: Pending) {
    CutFits(p.after) && |p.request| <= DESCRIPTOR
  }

  function WritePending(p: Pending): Bytes {
    [StageByte(p.stage), MutationByte(p.mutation)] + WriteCut(p.after) + WriteBytes(p.request)
  }

  function ReadPending(b: Bytes): Read<Pending> {
    var stage :- ReadByte(b);
    var mutation :- ReadByte(stage.1);
    if stage.0 > 1 || MutationOf(mutation.0).None? then Err(Corrupt)
    else
      var after :- ReadCut(mutation.1);
      var request :- ReadBytes(after.1, DESCRIPTOR);
      Ok((Pending(if stage.0 == 0 then Prepared else CommitPossible, MutationOf(mutation.0).value, after.0, request.0), request.1))
  }

  lemma PendingExact(b: Bytes, p: Pending, rest: Bytes)
    ensures ReadPending(b) == Ok((p, rest)) <==> PendingFits(p) && b == WritePending(p) + rest
  {
    hide ReadCut, WriteCut, CutFits, ReadBytes, WriteBytes, Power256;
    LengthsFit();
    var tags: Bytes := [StageByte(p.stage), MutationByte(p.mutation)];
    var c, v := WriteCut(p.after), WriteBytes(p.request);
    assert WritePending(p) + rest == tags + (c + (v + rest));
    if ReadPending(b) == Ok((p, rest)) {
      var after := ReadCut(b[2..]).value;
      assert b == [b[0], b[1]] + b[2..];
      CutExact(b[2..], after.0, after.1);
      BytesExact(after.1, DESCRIPTOR, p.request, rest);
    }
    if PendingFits(p) && b == WritePending(p) + rest {
      assert b[1..][1..] == c + (v + rest);
      CutExact(c + (v + rest), p.after, v + rest);
      BytesExact(v + rest, DESCRIPTOR, p.request, rest);
    }
  }

  lemma LengthsFit()
    ensures DESCRIPTOR < Power256(4)
  {
    assert Power256(2) == 65536;
    assert Power256(4) == 65536 * 65536;
  }

  // ----- the witness payload

  function WriteJournal(o: Option<Object>): Bytes {
    match o
    case None => [0]
    case Some(v) => [1] + WriteObject(v)
  }

  predicate JournalFits(o: Option<Object>) {
    o.Some? ==> ObjectFits(o.value)
  }

  function ReadJournal(b: Bytes): Read<Option<Object>> {
    var tag :- ReadByte(b);
    if tag.0 == 0 then Ok((None, tag.1))
    else if tag.0 == 1 then
      var o :- ReadObject(tag.1);
      Ok((Some(o.0), o.1))
    else Err(Corrupt)
  }

  lemma JournalExact(b: Bytes, o: Option<Object>, rest: Bytes)
    ensures ReadJournal(b) == Ok((o, rest)) <==> JournalFits(o) && b == WriteJournal(o) + rest
  {
    hide ReadObject, WriteObject, ObjectFits;
    if o.Some? {
      assert WriteJournal(o) + rest == [1] + (WriteObject(o.value) + rest);
      if b != [] {
        ObjectExact(b[1..], o.value, rest);
      }
    }
  }

  function WritePendingSlot(p: Option<Pending>): Bytes {
    match p
    case None => [0]
    case Some(v) => [1] + WritePending(v)
  }

  predicate PendingSlotFits(p: Option<Pending>) {
    p.Some? ==> PendingFits(p.value)
  }

  function ReadPendingSlot(b: Bytes): Read<Option<Pending>> {
    var tag :- ReadByte(b);
    if tag.0 == 0 then Ok((None, tag.1))
    else if tag.0 == 1 then
      var p :- ReadPending(tag.1);
      Ok((Some(p.0), p.1))
    else Err(Corrupt)
  }

  lemma PendingSlotExact(b: Bytes, p: Option<Pending>, rest: Bytes)
    ensures ReadPendingSlot(b) == Ok((p, rest)) <==> PendingSlotFits(p) && b == WritePendingSlot(p) + rest
  {
    hide ReadPending, WritePending, PendingFits;
    if p.Some? {
      assert WritePendingSlot(p) + rest == [1] + (WritePending(p.value) + rest);
      if b != [] {
        PendingExact(b[1..], p.value, rest);
      }
    }
  }

  function PhaseByte(p: Phase): Byte {
    match p
    case Preparing => 0
    case PreparingOpen => 1
    case Live => 2
    case Closing => 3
    case Clean => 4
  }

  function PhaseOf(n: nat): Option<Phase> {
    if n == 0 then Some(Phase.Preparing)
    else if n == 1 then Some(PreparingOpen)
    else if n == 2 then Some(Live)
    else if n == 3 then Some(Closing)
    else if n == 4 then Some(Clean)
    else None
  }

  /** The file a witness is stored in is part of its payload; its generation is in the header. */
  predicate PayloadFits(w: Witness, file: Object) {
    && SubjectFits(w.subject) && WordFits(w.parent) && WordFits(w.epoch) && ObjectFits(file)
    && JournalFits(w.journals.wal) && JournalFits(w.journals.shm) && CutFits(w.cut) && PendingSlotFits(w.pending)
  }

  function WriteMiddle(w: Witness, file: Object): Bytes {
    BigEndian(w.parent, 8) + BigEndian(w.epoch, 8) + [PhaseByte(w.phase)] + WriteObject(file)
  }

  function WriteEnd(w: Witness): Bytes {
    WriteJournal(w.journals.wal) + WriteJournal(w.journals.shm) + WriteCut(w.cut) + WritePendingSlot(w.pending)
  }

  function WritePayload(w: Witness, file: Object): Bytes {
    WriteSubject(w.subject) + WriteMiddle(w, file) + WriteEnd(w)
  }

  datatype Middle = Middle(parent: nat, epoch: nat, phase: Phase, file: Object)

  datatype End = End(journals: Journals, cut: Cut, pending: Option<Pending>)

  function ReadMiddle(b: Bytes): Read<Middle> {
    var parent :- ReadNumber(b, 8);
    var epoch :- ReadNumber(parent.1, 8);
    var phase :- ReadByte(epoch.1);
    if PhaseOf(phase.0).None? then Err(Corrupt)
    else
      var file :- ReadObject(phase.1);
      Ok((Middle(parent.0, epoch.0, PhaseOf(phase.0).value, file.0), file.1))
  }

  function ReadEnd(b: Bytes): Read<End> {
    var wal :- ReadJournal(b);
    var shm :- ReadJournal(wal.1);
    var cut :- ReadCut(shm.1);
    var pending :- ReadPendingSlot(cut.1);
    Ok((End(Journals(wal.0, shm.0), cut.0, pending.0), pending.1))
  }

  /** Nothing may follow a payload. */
  function ReadPayload(b: Bytes, generation: nat): Result<(Witness, Object), StoreError> {
    var subject :- ReadSubject(b);
    var middle :- ReadMiddle(subject.1);
    var end :- ReadEnd(middle.1);
    if end.1 != [] then Err(Corrupt)
    else
      var m, e := middle.0, end.0;
      Ok((Witness(subject.0, generation, m.parent, m.epoch, m.phase, e.journals, e.cut, e.pending), m.file))
  }

  lemma MiddleExact(b: Bytes, w: Witness, file: Object, rest: Bytes)
    ensures ReadMiddle(b) == Ok((Middle(w.parent, w.epoch, w.phase, file), rest))
       <==> WordFits(w.parent) && WordFits(w.epoch) && ObjectFits(file) && b == WriteMiddle(w, file) + rest
  {
    hide ReadNumber, BigEndian, NumberOf, Power256, ReadObject, WriteObject;
    var p, e, f := BigEndian(w.parent, 8), BigEndian(w.epoch, 8), WriteObject(file);
    assert WriteMiddle(w, file) + rest == p + (e + ([PhaseByte(w.phase)] + (f + rest)));
    if ReadMiddle(b) == Ok((Middle(w.parent, w.epoch, w.phase, file), rest)) {
      var parent := ReadNumber(b, 8).value;
      var epoch := ReadNumber(parent.1, 8).value;
      var phase := ReadByte(epoch.1).value;
      NumberExact(b, 8, parent.0, parent.1);
      NumberExact(parent.1, 8, epoch.0, epoch.1);
      ObjectExact(phase.1, file, rest);
    }
    if WordFits(w.parent) && WordFits(w.epoch) && ObjectFits(file) && b == WriteMiddle(w, file) + rest {
      NumberExact(b, 8, w.parent, e + ([PhaseByte(w.phase)] + (f + rest)));
      NumberExact(e + ([PhaseByte(w.phase)] + (f + rest)), 8, w.epoch, [PhaseByte(w.phase)] + (f + rest));
      ObjectExact(f + rest, file, rest);
    }
  }

  lemma EndExact(b: Bytes, w: Witness, rest: Bytes)
    ensures ReadEnd(b) == Ok((End(w.journals, w.cut, w.pending), rest))
       <==> && JournalFits(w.journals.wal) && JournalFits(w.journals.shm) && CutFits(w.cut) && PendingSlotFits(w.pending)
            && b == WriteEnd(w) + rest
  {
    hide ReadJournal, WriteJournal, JournalFits, ReadCut, WriteCut, CutFits, ReadPendingSlot, WritePendingSlot, PendingSlotFits;
    var j, k, c, p := WriteJournal(w.journals.wal), WriteJournal(w.journals.shm), WriteCut(w.cut), WritePendingSlot(w.pending);
    assert WriteEnd(w) + rest == j + (k + (c + (p + rest)));
    if ReadEnd(b) == Ok((End(w.journals, w.cut, w.pending), rest)) {
      var wal := ReadJournal(b).value;
      var shm := ReadJournal(wal.1).value;
      var cut := ReadCut(shm.1).value;
      JournalExact(b, wal.0, wal.1);
      JournalExact(wal.1, shm.0, shm.1);
      CutExact(shm.1, cut.0, cut.1);
      PendingSlotExact(cut.1, w.pending, rest);
    }
    if JournalFits(w.journals.wal) && JournalFits(w.journals.shm) && CutFits(w.cut) && PendingSlotFits(w.pending) && b == WriteEnd(w) + rest {
      JournalExact(b, w.journals.wal, k + (c + (p + rest)));
      JournalExact(k + (c + (p + rest)), w.journals.shm, c + (p + rest));
      CutExact(c + (p + rest), w.cut, p + rest);
      PendingSlotExact(p + rest, w.pending, rest);
    }
  }

  /** The codec is a bijection: a payload is read as a witness exactly when it is what writing that witness produces. */
  lemma PayloadExact(b: Bytes, w: Witness, file: Object)
    ensures ReadPayload(b, w.generation) == Ok((w, file)) <==> PayloadFits(w, file) && b == WritePayload(w, file)
  {
    hide ReadSubject, WriteSubject, SubjectFits, ReadMiddle, WriteMiddle, ReadEnd, WriteEnd, WordFits, ObjectFits, JournalFits, CutFits,
      PendingSlotFits;
    var s, m, e := WriteSubject(w.subject), WriteMiddle(w, file), WriteEnd(w);
    assert WritePayload(w, file) == s + (m + (e + []));
    if ReadPayload(b, w.generation) == Ok((w, file)) {
      var subject := ReadSubject(b).value;
      var middle := ReadMiddle(subject.1).value;
      SubjectExact(b, subject.0, subject.1);
      MiddleExact(subject.1, w, file, middle.1);
      EndExact(middle.1, w, []);
    }
    if PayloadFits(w, file) && b == WritePayload(w, file) {
      SubjectExact(b, w.subject, m + (e + []));
      MiddleExact(m + (e + []), w, file, e + []);
      EndExact(e + [], w, []);
    }
  }

  // ----- the witness file

  const WITNESS_MAGIC: Bytes := [67, 75, 76, 67]
  const FOOTER_MAGIC: Bytes := [67, 75, 76, 69]
  const LAYOUT: Bytes := [0, 0, 0, 1]
  const NO_BYTES: Bytes := [0, 0, 0, 0]
  const ZEROS: Bytes := [0, 0, 0, 0, 0, 0, 0, 0, 0, 0, 0, 0, 0, 0, 0, 0, 0, 0, 0, 0, 0, 0, 0, 0]

  /** What a header and a footer say about the payload between them. */
  datatype Header = Header(kind: Kind, generation: nat, size: nat)

  predicate HeaderFits(h: Header) {
    WordFits(h.generation) && h.size <= PAYLOAD
  }

  function KindNumber(kind: Kind): nat {
    if kind == Register then 0 else 1
  }

  function WriteHeader(h: Header, magic: Bytes): Bytes {
    magic + LAYOUT + BigEndian(h.size, 4) + BigEndian(KindNumber(h.kind), 4) + PROFILE + NO_BYTES + BigEndian(h.generation, 8) + ZEROS
  }

  function ReadHeader(b: Bytes, magic: Bytes): Read<Header> {
    var marked :- ReadFixed(b, magic);
    var laid :- ReadFixed(marked, LAYOUT);
    var size :- ReadNumber(laid, 4);
    var kind :- ReadNumber(size.1, 4);
    var profiled :- ReadFixed(kind.1, PROFILE);
    var spaced :- ReadFixed(profiled, NO_BYTES);
    var generation :- ReadNumber(spaced, 8);
    var rest :- ReadFixed(generation.1, ZEROS);
    :- Need(size.0 <= PAYLOAD, TooLarge);
    :- Need(kind.0 <= 1, UnsupportedFrame);
    Ok((Header(if kind.0 == 0 then Register else Original, generation.0, size.0), rest))
  }

  lemma SizesFit()
    ensures PAYLOAD < Power256(4) && 1 < Power256(4)
  {
    assert Power256(4) == 256 * (256 * (256 * (256 * Power256(0))));
  }

  lemma HeaderExact(b: Bytes, h: Header, magic: Bytes, rest: Bytes)
    ensures ReadHeader(b, magic) == Ok((h, rest)) <==> HeaderFits(h) && b == WriteHeader(h, magic) + rest
  {
    hide ReadNumber, BigEndian, NumberOf, Power256, ReadFixed;
    SizesFit();
    var n, k, g := BigEndian(h.size, 4), BigEndian(KindNumber(h.kind), 4), BigEndian(h.generation, 8);
    var afterKind := PROFILE + (NO_BYTES + (g + (ZEROS + rest)));
    assert WriteHeader(h, magic) + rest == magic + (LAYOUT + (n + (k + afterKind)));
    if ReadHeader(b, magic) == Ok((h, rest)) {
      var marked := ReadFixed(b, magic).value;
      var laid := ReadFixed(marked, LAYOUT).value;
      var size := ReadNumber(laid, 4).value;
      var kind := ReadNumber(size.1, 4).value;
      var profiled := ReadFixed(kind.1, PROFILE).value;
      var spaced := ReadFixed(profiled, NO_BYTES).value;
      var generation := ReadNumber(spaced, 8).value;
      FixedExact(b, magic, marked);
      FixedExact(marked, LAYOUT, laid);
      NumberExact(laid, 4, size.0, size.1);
      NumberExact(size.1, 4, kind.0, kind.1);
      FixedExact(kind.1, PROFILE, profiled);
      FixedExact(profiled, NO_BYTES, spaced);
      NumberExact(spaced, 8, generation.0, generation.1);
      FixedExact(generation.1, ZEROS, rest);
    }
    if HeaderFits(h) && b == WriteHeader(h, magic) + rest {
      FixedExact(b, magic, LAYOUT + (n + (k + afterKind)));
      FixedExact(LAYOUT + (n + (k + afterKind)), LAYOUT, n + (k + afterKind));
      NumberExact(n + (k + afterKind), 4, h.size, k + afterKind);
      NumberExact(k + afterKind, 4, KindNumber(h.kind), afterKind);
      FixedExact(afterKind, PROFILE, NO_BYTES + (g + (ZEROS + rest)));
      FixedExact(NO_BYTES + (g + (ZEROS + rest)), NO_BYTES, g + (ZEROS + rest));
      NumberExact(g + (ZEROS + rest), 8, h.generation, ZEROS + rest);
      FixedExact(ZEROS + rest, ZEROS, rest);
    }
  }

  function HeaderOf(w: Witness, file: Object): Header {
    Header(w.subject.kind, w.generation, |WritePayload(w, file)|)
  }

  /** The payload stands twice between a header and a footer that say the same about it. */
  function WriteFile(w: Witness, file: Object): Bytes {
    WriteHeader(HeaderOf(w, file), WITNESS_MAGIC) + WritePayload(w, file) + WritePayload(w, file) + WriteHeader(HeaderOf(w, file), FOOTER_MAGIC)
  }

  /** The header, two equal payloads and a footer that says the same: what lies between, and nothing else. */
  function ReadEnvelope(b: Bytes): Result<(Header, Bytes), StoreError> {
    var header :- ReadHeader(b, WITNESS_MAGIC);
    var n := header.0.size;
    :- Need(|b| == 128 + 2 * n && |header.1| >= 2 * n, Corrupt);
    :- Need(header.1[..n] == header.1[n..2 * n], Corrupt);
    var footer :- ReadHeader(header.1[2 * n..], FOOTER_MAGIC);
    :- Need(footer.0 == header.0 && footer.1 == [], Corrupt);
    Ok((header.0, header.1[..n]))
  }

  /** A witness is taken from a file of this object and custody only. */
  function ReadFile(b: Bytes, file: Object, binding: CustodyBinding): Result<Witness, StoreError> {
    var envelope :- ReadEnvelope(b);
    var payload :- ReadPayload(envelope.1, envelope.0.generation);
    :- Need(Valid(payload.0), Corrupt);
    :- Need(payload.1 == file && payload.0.subject.kind == envelope.0.kind && payload.0.subject.binding == binding, Custody);
    Ok(payload.0)
  }

  lemma HeaderSize(h: Header, magic: Bytes)
    ensures |WriteHeader(h, magic)| == |magic| + 60
  {
    hide BigEndian;
  }

  lemma EnvelopeExact(b: Bytes, h: Header, payload: Bytes)
    ensures ReadEnvelope(b) == Ok((h, payload))
       <==> HeaderFits(h) && |payload| == h.size && b == WriteHeader(h, WITNESS_MAGIC) + payload + payload + WriteHeader(h, FOOTER_MAGIC)
  {
    hide ReadHeader, WriteHeader, HeaderFits;
    var n := h.size;
    HeaderSize(h, WITNESS_MAGIC);
    HeaderSize(h, FOOTER_MAGIC);
    if ReadEnvelope(b) == Ok((h, payload)) {
      var rest := ReadHeader(b, WITNESS_MAGIC).value.1;
      HeaderExact(b, h, WITNESS_MAGIC, rest);
      HeaderExact(rest[2 * n..], h, FOOTER_MAGIC, []);
      assert rest == rest[..n] + rest[n..2 * n] + rest[2 * n..];
      assert WriteHeader(h, FOOTER_MAGIC) + [] == WriteHeader(h, FOOTER_MAGIC);
      assert b == WriteHeader(h, WITNESS_MAGIC) + payload + payload + WriteHeader(h, FOOTER_MAGIC);
    }
    if HeaderFits(h) && |payload| == h.size && b == WriteHeader(h, WITNESS_MAGIC) + payload + payload + WriteHeader(h, FOOTER_MAGIC) {
      var rest := payload + payload + WriteHeader(h, FOOTER_MAGIC);
      assert b == WriteHeader(h, WITNESS_MAGIC) + rest;
      HeaderExact(b, h, WITNESS_MAGIC, rest);
      assert rest[..n] == payload && rest[n..2 * n] == payload && rest[2 * n..] == WriteHeader(h, FOOTER_MAGIC) + [];
      HeaderExact(rest[2 * n..], h, FOOTER_MAGIC, []);
    }
  }

  /** A file is read as a witness exactly when publishing that valid witness into this object and custody writes it. */
  lemma FileExact(b: Bytes, w: Witness, file: Object, binding: CustodyBinding)
    ensures ReadFile(b, file, binding) == Ok(w)
       <==> Valid(w) && PayloadFits(w, file) && HeaderFits(HeaderOf(w, file)) && w.subject.binding == binding && b == WriteFile(w, file)
  {
    hide ReadEnvelope, ReadPayload, WritePayload, WriteHeader, Valid, PayloadFits, HeaderFits;
    if ReadFile(b, file, binding) == Ok(w) {
      var envelope := ReadEnvelope(b).value;
      EnvelopeExact(b, envelope.0, envelope.1);
      GenerationKept(envelope.1, envelope.0.generation);
      PayloadExact(envelope.1, w, file);
    }
    if Valid(w) && PayloadFits(w, file) && HeaderFits(HeaderOf(w, file)) && w.subject.binding == binding && b == WriteFile(w, file) {
      EnvelopeExact(b, HeaderOf(w, file), WritePayload(w, file));
      PayloadExact(WritePayload(w, file), w, file);
    }
  }

  lemma GenerationKept(b: Bytes, generation: nat)
    ensures ReadPayload(b, generation).Ok? ==> ReadPayload(b, generation).value.0.generation == generation
  {
    hide ReadSubject, ReadMiddle, ReadEnd;
  }

  // ----- creation intents and receipts

  const INTENT_MAGIC: Bytes := [67, 75, 67, 73]
  const RECEIPT_MAGIC: Bytes := [67, 75, 73, 82]
  const PROFILE: Bytes := [0, 0, 0, 3, 0, 0, 0, 3, 0, 0, 0, 3]
  const PATH_MAX: nat := 4096

  /** What an intent frame holds; the start request stays as the bytes it arrived in. */
  datatype IntentFrame = IntentFrame(location: Bytes, ledger: LedgerIdentity, register: CustodyBinding, identity: Identity, path: Bytes, start: Bytes)

  datatype ReceiptFrame = ReceiptFrame(binding: CustodyBinding, intent: IntentFrame)

  /** What the request codec makes of the bytes of a start. */
  type Decoder = Bytes -> Option<OperationRequest>

  const SLASH: nat := 47

  /** Native values that stand for any custody in the sizing check. */
  const PLACEHOLDER := CustodyBinding((1, 1), (1, 1), (1, 1))

  /** The bytes after an expected mark. */
  function ReadFixed(b: Bytes, expected: Bytes): Result<Bytes, StoreError> {
    if |b| < |expected| then Err(Corrupt)
    else if b[..|expected|] != expected then Err(UnsupportedFrame)
    else Ok(b[|expected|..])
  }

  lemma FixedExact(b: Bytes, expected: Bytes, rest: Bytes)
    ensures ReadFixed(b, expected) == Ok(rest) <==> b == expected + rest
  {
    if |b| >= |expected| {
      assert b == b[..|expected|] + b[|expected|..];
    }
  }

  predicate LedgerFits(l: LedgerIdentity) {
    IdFits(l.owner) && IdFits(l.ledger)
  }

  function WriteLedger(l: LedgerIdentity): Bytes {
    WriteId(l.owner) + WriteId(l.ledger)
  }

  function ReadLedger(b: Bytes): Read<LedgerIdentity> {
    var owner :- ReadId(b);
    var ledger :- ReadId(owner.1);
    Ok((LedgerIdentity(owner.0, ledger.0), ledger.1))
  }

  lemma LedgerExact(b: Bytes, l: LedgerIdentity, rest: Bytes)
    ensures ReadLedger(b) == Ok((l, rest)) <==> LedgerFits(l) && b == WriteLedger(l) + rest
  {
    hide ReadId, WriteId, IdFits;
    assert WriteLedger(l) + rest == WriteId(l.owner) + (WriteId(l.ledger) + rest);
    if ReadLedger(b) == Ok((l, rest)) {
      var owner := ReadId(b).value;
      IdExact(b, owner.0, owner.1);
      IdExact(owner.1, l.ledger, rest);
    }
    if LedgerFits(l) && b == WriteLedger(l) + rest {
      IdExact(b, l.owner, WriteId(l.ledger) + rest);
      IdExact(WriteId(l.ledger) + rest, l.ledger, rest);
    }
  }

  predicate Absolute(path: Bytes) {
    path != [] && path[0] == SLASH
  }

  predicate IntentWithin(i: IntentFrame) {
    && |i.location| <= PATH_MAX && LedgerFits(i.ledger) && BindingFits(i.register) && IdentityFits(i.identity)
    && |i.path| <= PATH_MAX && |i.start| <= FRAME
  }

  function WriteIntent(i: IntentFrame): Bytes {
    INTENT_MAGIC + PROFILE + WriteBytes(i.location) + WriteLedger(i.ledger) + WriteBinding(i.register) + WriteIdentity(i.identity)
    + WriteBytes(i.path) + WriteBytes(i.start)
  }

  function WriteReceipt(r: ReceiptFrame): Bytes {
    RECEIPT_MAGIC + PROFILE + WriteBinding(r.binding) + WriteBytes(WriteIntent(r.intent))
  }

  function WriteBind(binding: CustodyBinding, i: IntentFrame): Bytes {
    WriteBinding(binding) + WriteBytes(WriteIntent(i))
  }

  /** The sizing check of an intent, made once with placeholder bindings before anything is reserved. */
  predicate IntentSized(i: IntentFrame) {
    && |WriteIntent(i)| <= DESCRIPTOR
    && |WriteReceipt(ReceiptFrame(PLACEHOLDER, i))| <= DESCRIPTOR
    && |WriteBind(PLACEHOLDER, i)| <= DESCRIPTOR
  }

  /** An owner's start of this very pursuit, in the issuer's ledger, at absolute paths, with every envelope within its maximum. */
  predicate IntentChecked(i: IntentFrame, decode: Decoder) {
    && NewState(i.identity).Ok?
    && i.identity.owner == i.ledger.owner && i.identity.ledger == i.ledger.ledger
    && decode(i.start).Some?
    && var start := decode(i.start).value;
    && start.target == i.identity.Key()
    && start.actor == i.identity.ownerActor
    && start.representedOwner == i.identity.owner
    && start.operation.command.Initiate? && start.operation.command.access.ByOwner?
    && Absolute(i.path) && Absolute(i.location)
    && IntentSized(i)
  }

  /** The fields of an intent, one after another, and nothing else. */
  function ParseIntent(b: Bytes): Result<IntentFrame, StoreError> {
    var magic :- ReadFixed(b, INTENT_MAGIC);
    var profile :- ReadFixed(magic, PROFILE);
    var location :- ReadBytes(profile, PATH_MAX);
    var ledger :- ReadLedger(location.1);
    var register :- ReadBinding(ledger.1);
    var identity :- ReadIdentity(register.1);
    var path :- ReadBytes(identity.1, PATH_MAX);
    var start :- ReadBytes(path.1, FRAME);
    if start.1 != [] then Err(Corrupt)
    else Ok(IntentFrame(location.0, ledger.0, register.0, identity.0, path.0, start.0))
  }

  /** A whole intent frame: within the descriptor maximum, parsed to its end, and checked. */
  function ReadIntent(b: Bytes, decode: Decoder): Result<IntentFrame, StoreError> {
    var sized := Need(|b| <= DESCRIPTOR, TooLarge);
    :- sized;
    var parsed :- ParseIntent(b);
    :- Need(decode(parsed.start).Some?, Corrupt);
    :- Need(IntentChecked(parsed, decode), Refused);
    Ok(parsed)
  }

  lemma MaximaFit()
    ensures PATH_MAX < Power256(4) && FRAME < Power256(4) && DESCRIPTOR < Power256(4)
  {
    LengthsFit();
  }

  lemma ParsedExact(b: Bytes, i: IntentFrame)
    ensures ParseIntent(b) == Ok(i) <==> IntentWithin(i) && b == WriteIntent(i)
  {
    hide ReadFixed, ReadBytes, WriteBytes, ReadLedger, WriteLedger, LedgerFits, ReadBinding, WriteBinding, BindingFits, ReadIdentity, WriteIdentity,
      IdentityFits, Power256;
    MaximaFit();
    var l, d, r, n, p, s := WriteBytes(i.location), WriteLedger(i.ledger), WriteBinding(i.register), WriteIdentity(i.identity), WriteBytes(i.path),
      WriteBytes(i.start);
    var afterIdentity := p + (s + []);
    var afterLocation := d + (r + (n + afterIdentity));
    assert WriteIntent(i) == INTENT_MAGIC + (PROFILE + (l + afterLocation));
    if ParseIntent(b) == Ok(i) {
      var magic := ReadFixed(b, INTENT_MAGIC).value;
      var profile := ReadFixed(magic, PROFILE).value;
      var location := ReadBytes(profile, PATH_MAX).value;
      var ledger := ReadLedger(location.1).value;
      var register := ReadBinding(ledger.1).value;
      var identity := ReadIdentity(register.1).value;
      var path := ReadBytes(identity.1, PATH_MAX).value;
      FixedExact(b, INTENT_MAGIC, magic);
      FixedExact(magic, PROFILE, profile);
      BytesExact(profile, PATH_MAX, location.0, location.1);
      LedgerExact(location.1, ledger.0, ledger.1);
      BindingExact(ledger.1, register.0, register.1);
      IdentityExact(register.1, identity.0, identity.1);
      BytesExact(identity.1, PATH_MAX, path.0, path.1);
      BytesExact(path.1, FRAME, i.start, []);
    }
    if IntentWithin(i) && b == WriteIntent(i) {
      FixedExact(b, INTENT_MAGIC, PROFILE + (l + afterLocation));
      FixedExact(PROFILE + (l + afterLocation), PROFILE, l + afterLocation);
      BytesExact(l + afterLocation, PATH_MAX, i.location, afterLocation);
      LedgerExact(afterLocation, i.ledger, r + (n + afterIdentity));
      BindingExact(r + (n + afterIdentity), i.register, n + afterIdentity);
      IdentityExact(n + afterIdentity, i.identity, afterIdentity);
      BytesExact(afterIdentity, PATH_MAX, i.path, s + []);
      BytesExact(s + [], FRAME, i.start, []);
    }
  }

  /** A frame is read as an intent exactly when writing that intent gives it and the intent passes its whole check. */
  lemma IntentExact(b: Bytes, i: IntentFrame, decode: Decoder)
    ensures ReadIntent(b, decode) == Ok(i) <==> IntentWithin(i) && IntentChecked(i, decode) && b == WriteIntent(i)
  {
    hide ParseIntent, WriteIntent, IntentWithin;
    if ParseIntent(b).Ok? {
      ParsedExact(b, ParseIntent(b).value);
    }
    ParsedExact(b, i);
  }

  lemma CheckedDecodes(i: IntentFrame, decode: Decoder)
    requires IntentChecked(i, decode)
    ensures decode(i.start).Some? && |WriteIntent(i)| <= DESCRIPTOR
  {
    hide WriteIntent;
  }

  /** A receipt holds a whole intent frame, which is read and checked with it. */
  function ReadReceipt(b: Bytes, decode: Decoder): Result<ReceiptFrame, StoreError> {
    var sized := Need(|b| <= DESCRIPTOR, TooLarge);
    :- sized;
    var magic :- ReadFixed(b, RECEIPT_MAGIC);
    var profile :- ReadFixed(magic, PROFILE);
    var binding :- ReadBinding(profile);
    var raw :- ReadBytes(binding.1, DESCRIPTOR);
    var intent :- ReadIntent(raw.0, decode);
    if raw.1 != [] then Err(Corrupt) else Ok(ReceiptFrame(binding.0, intent))
  }

  /** A frame is read as a receipt exactly when writing that receipt gives it and its intent passes the check; no size needs to be asked for. */
  lemma ReceiptExact(b: Bytes, r: ReceiptFrame, decode: Decoder)
    ensures ReadReceipt(b, decode) == Ok(r)
       <==> BindingFits(r.binding) && IntentWithin(r.intent) && IntentChecked(r.intent, decode) && b == WriteReceipt(r)
  {
    hide ReadFixed, ReadBytes, WriteBytes, ReadBinding, WriteBinding, BindingFits, Power256, ReadIntent, WriteIntent, IntentWithin, IntentChecked;
    MaximaFit();
    var c, v := WriteBinding(r.binding), WriteBytes(WriteIntent(r.intent));
    assert WriteReceipt(r) == RECEIPT_MAGIC + (PROFILE + (c + (v + [])));
    if ReadReceipt(b, decode) == Ok(r) {
      var magic := ReadFixed(b, RECEIPT_MAGIC).value;
      var profile := ReadFixed(magic, PROFILE).value;
      var binding := ReadBinding(profile).value;
      var raw := ReadBytes(binding.1, DESCRIPTOR).value;
      FixedExact(b, RECEIPT_MAGIC, magic);
      FixedExact(magic, PROFILE, profile);
      BindingExact(profile, binding.0, binding.1);
      BytesExact(binding.1, DESCRIPTOR, raw.0, []);
      IntentExact(raw.0, r.intent, decode);
    }
    if BindingFits(r.binding) && IntentWithin(r.intent) && IntentChecked(r.intent, decode) && b == WriteReceipt(r) {
      CheckedDecodes(r.intent, decode);
      ReceiptWithin(r, decode);
      FixedExact(b, RECEIPT_MAGIC, PROFILE + (c + (v + [])));
      FixedExact(PROFILE + (c + (v + [])), PROFILE, c + (v + []));
      BindingExact(c + (v + []), r.binding, v + []);
      BytesExact(v + [], DESCRIPTOR, WriteIntent(r.intent), []);
      IntentExact(WriteIntent(r.intent), r.intent, decode);
    }
  }

  /** The placeholder stands for every binding: a checked intent's receipt is within the maximum. */
  lemma ReceiptWithin(r: ReceiptFrame, decode: Decoder)
    requires IntentChecked(r.intent, decode)
    ensures |WriteReceipt(r)| <= DESCRIPTOR
  {
    hide WriteIntent, WriteBinding, WriteBytes;
    BindingSize(r.binding);
    BindingSize(PLACEHOLDER);
  }

  // ----- sizes

  lemma SubjectSize(s: Subject)
    ensures |WriteSubject(s)| <= 210
  {
    hide BigEndian;
  }

  lemma EndSize(w: Witness)
    ensures |WriteEnd(w)| <= 123 + (if w.pending.Some? then |w.pending.value.request| else 0)
  {
    hide BigEndian;
  }

  /** Every witness whose request fits a descriptor fits a payload; nothing else about it matters. */
  lemma EncodableFits(w: Witness, file: Object)
    ensures |WritePayload(w, file)| <= 366 + (if w.pending.Some? then |w.pending.value.request| else 0)
    ensures Encodable(w) ==> |WritePayload(w, file)| <= PAYLOAD
  {
    hide BigEndian, WriteSubject, WriteEnd;
    SubjectSize(w.subject);
    EndSize(w);
  }

  /** An intent that passed the check fits its reservation, its binding, its inclusion and its activation, whatever the real binding is. */
  lemma SizedOnce(i: IntentFrame, binding: CustodyBinding, w: Witness, p: Pending, file: Object)
    requires IntentSized(i)
    requires p.request == WriteIntent(i) || p.request == WriteBind(binding, i) || p.request == WriteReceipt(ReceiptFrame(binding, i))
    ensures Encodable(w.(pending := Some(p))) && |WritePayload(w.(pending := Some(p)), file)| <= PAYLOAD
  {
    hide BigEndian, WriteIntent, WritePayload;
    BindingSize(PLACEHOLDER);
    BindingSize(binding);
    EncodableFits(w.(pending := Some(p)), file);
  }

  lemma BindingSize(c: CustodyBinding)
    ensures |WriteBinding(c)| == 48
  {
    hide BigEndian;
  }

  // ----- the bounded writer

  /** A buffer that refuses to grow past its limit. */
  class Writer {
    var bytes: Bytes
    const limit: nat

    constructor (limit: nat)
      ensures bytes == [] && this.limit == limit
    {
      bytes := [];
      this.limit := limit;
    }

    method Raw(v: Bytes) returns (r: Outcome<StoreError>)
      modifies this
      ensures r == if old(|bytes|) + |v| <= limit then Pass else Fail(TooLarge)
      ensures bytes == if r.Pass? then old(bytes) + v else old(bytes)
    {
      if |bytes| + |v| > limit {
        return Fail(TooLarge);
      }
      bytes := bytes + v;
      r := Pass;
    }

    /** A length in front, and its own maximum besides the buffer's. */
    method Prefixed(v: Bytes, max: nat) returns (r: Outcome<StoreError>)
      requires max < Power256(4)
      modifies this
      ensures r.Pass? <==> |v| <= max && old(|bytes|) + 4 + |v| <= limit
      ensures r.Pass? ==> bytes == old(bytes) + WriteBytes(v)
      ensures r.Fail? ==> r.error == TooLarge
    {
      if |v| > max {
        return Fail(TooLarge);
      }
      r := Raw(BigEndian(|v|, 4));
      if r.Fail? {
        return;
      }
      r := Raw(v);
      assert old(bytes) + BigEndian(|v|, 4) + v == old(bytes) + WriteBytes(v);
    }
  }

  /** The envelope of a witness, written part by part; it succeeds exactly for encodable witnesses. */
  method EncodePayload(w: Witness, file: Object) returns (r: Result<Bytes, StoreError>)
    ensures r == if Encodable(w) then Ok(WritePayload(w, file)) else Err(TooLarge)
  {
    hide BigEndian, WriteSubject, WriteMiddle, WriteCut, WriteJournal, Power256, WritePayload, WriteBytes;
    MaximaFit();
    SubjectSize(w.subject);
    MiddleSize(w, file);
    EndParts(w);
    PayloadParts(w, file);
    var out := new Writer(PAYLOAD);
    var front := FrontOf(w, file);
    var written := out.Raw(front);
    match w.pending {
      case None =>
        written := out.Raw([0]);
      case Some(p) =>
        written := out.Raw([1, StageByte(p.stage), MutationByte(p.mutation)]);
        written := out.Raw(WriteCut(p.after));
        var request := out.Prefixed(p.request, DESCRIPTOR);
        if request.Fail? {
          return Err(TooLarge);
        }
    }
    r := Ok(out.bytes);
  }

  /** Everything before the pending slot; its size is bounded by fixed widths. */
  function FrontOf(w: Witness, file: Object): (front: Bytes)
    ensures |front| <= 318
  {
    SubjectSize(w.subject);
    MiddleSize(w, file);
    EndParts(w);
    WriteSubject(w.subject) + WriteMiddle(w, file) + WriteJournal(w.journals.wal) + WriteJournal(w.journals.shm) + WriteCut(w.cut)
  }

  lemma PayloadParts(w: Witness, file: Object)
    ensures w.pending.None? ==> WritePayload(w, file) == [] + FrontOf(w, file) + [0]
    ensures w.pending.Some? ==>
              var p := w.pending.value;
              WritePayload(w, file) == [] + FrontOf(w, file) + [1, StageByte(p.stage), MutationByte(p.mutation)] + WriteCut(p.after) + WriteBytes(p.request)
  {
    hide WriteSubject, WriteMiddle, WriteCut, WriteJournal, WriteBytes;
    var s, m, j, k, c := WriteSubject(w.subject), WriteMiddle(w, file), WriteJournal(w.journals.wal), WriteJournal(w.journals.shm), WriteCut(w.cut);
    var slot := WritePendingSlot(w.pending);
    assert s + m + (j + k + c + slot) == [] + (s + m + j + k + c) + slot;
    if w.pending.Some? {
      var p := w.pending.value;
      var tags: Bytes := [StageByte(p.stage), MutationByte(p.mutation)];
      var all: Bytes := [1, StageByte(p.stage), MutationByte(p.mutation)];
      assert [1] + (tags + WriteCut(p.after) + WriteBytes(p.request)) == all + WriteCut(p.after) + WriteBytes(p.request);
    }
  }

  lemma MiddleSize(w: Witness, file: Object)
    ensures |WriteMiddle(w, file)| == 33
  {
    hide BigEndian;
  }

  lemma EndParts(w: Witness)
    ensures |WriteJournal(w.journals.wal)| <= 17 && |WriteJournal(w.journals.shm)| <= 17 && |WriteCut(w.cut)| <= 41
    ensures w.pending.Some? ==> |WriteCut(w.pending.value.after)| <= 41
  {
    hide BigEndian;
  }
}

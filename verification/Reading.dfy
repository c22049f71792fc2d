/** Bounded reads of a history in pages, the stateless bookmark between them, and the independent check of each page. */
module Reading {
  import opened Base
  import opened Model
  import opened Records
  import opened Change
  import Histories
  import Catalogue

  datatype Refusal = NotDisclosed | BadRequest | SourceChanged | SourceUnavailable | TooMuch | NotSupported

  type Readable<+T> = Result<T, Refusal>

  datatype ReadLimits = ReadLimits(scanned: nat, returned: nat, replyBytes: nat) {
    predicate Valid() {
      1 <= scanned <= 256 && 1 <= returned <= 64 && 64 <= replyBytes <= 2 * 1024 * 1024
    }
  }

  datatype ReadSource = ReadSource(identity: Identity, profile: Profile)

  datatype Position = Position(source: ReadSource, sequence: nat, operation: Option<OperationId>)

  datatype Anchor = Beginning | Current | AtOperation(operation: OperationId) | AtSequence(sequence: nat)

  datatype OperationKind =
    | StartKind | ProposeKind | AssessKind | DecideKind | RetractKind | ReaffirmKind | SetGrantKind | RevokeGrantKind
    | AdmitKind | DispatchKind | FindingKind | AdaptKind | ProgressKind | FulfillKind | WithdrawKind | ReconcileKind

  datatype OperationReference = OperationReference(change: ChangeKey, operation: OperationId)

  datatype ActorReference = ActorReference(change: ChangeKey, actor: ActorId)

  datatype QualifiedReference =
    | ToChange(change: ChangeKey)
    | ToOperation(operation: OperationReference)
    | ToContent(content: ContentKey)
    | ToMembership(membership: ContentReference)
    | ToGround(observer: ChangeKey, ground: GroundId, version: GroundVersion)

  datatype RecordMatch = RecordMatch(
    kinds: set<OperationKind>,
    operations: set<OperationReference>,
    actors: set<ActorReference>,
    references: set<QualifiedReference>)

  datatype Selection = AllRecords | MatchingRecords(matching: RecordMatch)

  datatype Range = Range(after: Position, through: Position)

  datatype Cursor = Cursor(range: Range, selection: Selection, reader: ActorId, permissionScope: ChangeKey, lastScanned: Position)

  datatype ReadRequest = ReadRequest(change: ChangeKey, range: Range, selection: Selection, cursor: Option<Cursor>, limits: ReadLimits)

  /** A public record, as far as paging and its check look at it. */
  datatype PublicRecord = PublicRecord(position: Position, accepted: Accepted, memberships: set<ContentReference>)

  datatype Progress = More(next: Cursor) | EndOfRange

  datatype Page = Page(records: seq<PublicRecord>, scanned: Range, observedHead: Position, progress: Progress)

  /** Which references a record makes; the pages below are proved for every such notion. */
  type Mentions = (StoredOperation, QualifiedReference) -> bool

  // ----- selection

  function KindOf(c: Command): OperationKind {
    match c
    case Initiate(_, _) => StartKind
    case Propose(_, _) => ProposeKind
    case Assess(_, _) => AssessKind
    case Decide(_) => DecideKind
    case Retract(_) => RetractKind
    case Reaffirm(_, _, _) => ReaffirmKind
    case SetGrant(_, _, _) => SetGrantKind
    case RevokeGrant(_, _) => RevokeGrantKind
    case Admit(_) => AdmitKind
    case Dispatch(_) => DispatchKind
    case RecordFinding(_, _) => FindingKind
    case Adapt(_, _) => AdaptKind
    case RecordProgress(_, _) => ProgressKind
    case Fulfill(_) => FulfillKind
    case Withdraw(_) => WithdrawKind
    case Reconcile(_, _, _, _) => ReconcileKind
  }

  /** Alternatives within a field that is not empty, conjunction across fields. */
  predicate Matches(m: RecordMatch, r: StoredOperation, mentions: Mentions) {
    var key := r.checks.identity.Key();
    && (m.kinds == {} || KindOf(r.operation.command) in m.kinds)
    && (m.operations == {} || OperationReference(key, r.operation.id) in m.operations)
    && (m.actors == {} || ActorReference(key, r.accepted.actor) in m.actors)
    && (m.references == {} || exists q :: q in m.references && mentions(r, q))
  }

  predicate Selects(s: Selection, r: StoredOperation, mentions: Mentions) {
    s.AllRecords? || Matches(s.matching, r, mentions)
  }

  function CheckMatch(m: RecordMatch): Outcome<Refusal> {
    if m.kinds == {} && m.operations == {} && m.actors == {} && m.references == {} then Fail(BadRequest)
    else if |m.kinds| > 64 || |m.operations| > 64 || |m.actors| > 64 || |m.references| > 64 then Fail(TooMuch)
    else Pass
  }

  // ----- positions

  function SequenceOf(records: seq<StoredOperation>, operation: OperationId): Option<nat> {
    if records == [] then None
    else if records[0].operation.id == operation then Some(records[0].sequence)
    else SequenceOf(records[1..], operation)
  }

  function AnchorSequence(records: seq<StoredOperation>, anchor: Anchor): Readable<nat> {
    match anchor
    case Beginning => Ok(0)
    case Current => Ok(|records|)
    case AtSequence(n) => Ok(n)
    case AtOperation(id) => (match SequenceOf(records, id) case None => Err(BadRequest) case Some(n) => Ok(n))
  }

  function Resolve(source: ReadSource, records: seq<StoredOperation>, anchor: Anchor): Readable<Position> {
    if source.profile != CURRENT_PROFILE then Err(NotSupported)
    else
      match AnchorSequence(records, anchor)
      case Err(e) => Err(e)
      case Ok(sequence) =>
        if sequence == 0 then Ok(Position(source, 0, None))
        else if sequence > |records| then Err(BadRequest)
        else Ok(Position(source, sequence, Some(records[sequence - 1].operation.id)))
  }

  function CheckPosition(source: ReadSource, records: seq<StoredOperation>, p: Position): Outcome<Refusal> {
    match Resolve(source, records, AtSequence(p.sequence))
    case Err(e) => Fail(e)
    case Ok(actual) => Need(p == actual, BadRequest)
  }

  // ----- one scan

  predicate CursorFits(request: ReadRequest, reader: ActorId, c: Cursor) {
    && c.range == request.range && c.selection == request.selection && c.reader == reader && c.permissionScope == request.change
    && request.range.after.sequence <= c.lastScanned.sequence <= request.range.through.sequence
  }

  /** Where a request starts scanning, or why it is refused before it starts. */
  function StartOf(source: ReadSource, records: seq<StoredOperation>, reader: ActorId, request: ReadRequest): (start: Readable<nat>)
    ensures start.Ok? ==> request.limits.Valid() && request.range.after.sequence <= start.value <= request.range.through.sequence <= |records|
  {
    if !request.limits.Valid() then Err(TooMuch)
    else if request.change != source.identity.Key() then Err(BadRequest)
    else
      match CheckPosition(source, records, request.range.after)
      case Fail(e) => Err(e)
      case Pass =>
        match CheckPosition(source, records, request.range.through)
        case Fail(e) => Err(e)
        case Pass =>
          if request.range.after.sequence > request.range.through.sequence then Err(BadRequest)
          else
            match (if request.selection.AllRecords? then Pass else CheckMatch(request.selection.matching))
            case Fail(e) => Err(e)
            case Pass =>
              match request.cursor
              case None => Ok(request.range.after.sequence)
              case Some(c) =>
                if !CursorFits(request, reader, c) then Err(BadRequest)
                else
                  match CheckPosition(source, records, c.lastScanned)
                  case Fail(e) => Err(e)
                  case Pass => Ok(c.lastScanned.sequence)
  }

  type Sizes = map<OperationId, nat>

  predicate Sized(records: seq<StoredOperation>, sizes: Sizes) {
    forall r :: r in records ==> r.operation.id in sizes && sizes[r.operation.id] <= 32 * 1024 * 1024
  }

  /** Bytes reserved for a reply: a fixed part, and four times each selected record's public size with its wrappers. */
  function Reserved(records: seq<StoredOperation>, sizes: Sizes, selected: seq<nat>): nat
    requires Sized(records, sizes) && forall k :: 0 <= k < |selected| ==> selected[k] < |records|
  {
    if selected == [] then 65536
    else
      var last := selected[|selected| - 1];
      assert records[last] in records;
      Reserved(records, sizes, selected[..|selected| - 1]) + sizes[records[last].operation.id] * 4 + 8192
  }

  method Fits(records: seq<StoredOperation>, sizes: Sizes, selected: seq<nat>, replyBytes: nat) returns (fits: bool)
    requires Sized(records, sizes) && forall k :: 0 <= k < |selected| ==> selected[k] < |records|
    ensures fits <==> Reserved(records, sizes, selected) <= replyBytes
  {
    var reserved: nat := 65536;
    var k := 0;
    while k < |selected|
      invariant 0 <= k <= |selected|
      invariant reserved == Reserved(records, sizes, selected[..k])
    {
      var index := selected[k];
      assert records[index] in records;
      assert selected[..k + 1][..k] == selected[..k];
      reserved := reserved + sizes[records[index].operation.id] * 4 + 8192;
      k := k + 1;
    }
    assert selected[..k] == selected;
    fits := reserved <= replyBytes;
  }

  /** The indices of the selected records of an interval, in order. */
  function Matching(records: seq<StoredOperation>, s: Selection, mentions: Mentions, from: nat, upto: nat): (selected: seq<nat>)
    requires from <= upto <= |records|
    ensures forall k :: 0 <= k < |selected| ==> from <= selected[k] < upto
    decreases upto
  {
    if from == upto then []
    else
      var earlier := Matching(records, s, mentions, from, upto - 1);
      if Selects(s, records[upto - 1], mentions) then earlier + [upto - 1] else earlier
  }

  /** The first selected record a scan can reach does not fit a reply by itself. */
  ghost predicate Blocked(records: seq<StoredOperation>, sizes: Sizes, request: ReadRequest, mentions: Mentions, start: nat)
    requires Sized(records, sizes) && start <= request.range.through.sequence <= |records|
  {
    exists m :: && start <= m < request.range.through.sequence && m - start < request.limits.scanned
                && Matching(records, request.selection, mentions, start, m) == [] && Selects(request.selection, records[m], mentions)
                && Reserved(records, sizes, [m]) > request.limits.replyBytes
  }

  /** Why a scan stopped where it did. */
  ghost predicate Stopped(records: seq<StoredOperation>, sizes: Sizes, request: ReadRequest, mentions: Mentions, start: nat, last: nat)
    requires Sized(records, sizes) && start <= last <= request.range.through.sequence <= |records|
  {
    || last == request.range.through.sequence
    || last - start == request.limits.scanned
    || |Matching(records, request.selection, mentions, start, last)| == request.limits.returned
    || (Selects(request.selection, records[last], mentions)
        && Reserved(records, sizes, Matching(records, request.selection, mentions, start, last) + [last]) > request.limits.replyBytes)
  }

  /** The outcome of a scan that is not refused. */
  ghost predicate Scanned(records: seq<StoredOperation>, sizes: Sizes, request: ReadRequest, mentions: Mentions, start: nat, last: nat)
    requires Sized(records, sizes) && start <= request.range.through.sequence <= |records|
  {
    && start <= last <= request.range.through.sequence
    && last - start <= request.limits.scanned
    && |Matching(records, request.selection, mentions, start, last)| <= request.limits.returned
    && Reserved(records, sizes, Matching(records, request.selection, mentions, start, last)) <= request.limits.replyBytes
    && (start < request.range.through.sequence ==> start < last)
    && Stopped(records, sizes, request, mentions, start, last)
  }

  lemma {:induction false} FirstMatchUnique(records: seq<StoredOperation>, s: Selection, mentions: Mentions, from: nat, m: nat, upto: nat)
    requires from <= m < upto <= |records| && Selects(s, records[m], mentions)
    ensures Matching(records, s, mentions, from, upto) != []
    decreases upto
  {
    if m + 1 < upto {
      FirstMatchUnique(records, s, mentions, from, m, upto - 1);
    }
  }

  /** The loop of a scan from a valid start. */
  method ScanFrom(records: seq<StoredOperation>, sizes: Sizes, request: ReadRequest, mentions: Mentions, start: nat)
    returns (r: Readable<(seq<nat>, nat)>)
    requires Sized(records, sizes) && request.limits.Valid() && start <= request.range.through.sequence <= |records|
    ensures r.Ok? <==> request.limits.replyBytes >= 65536 && !Blocked(records, sizes, request, mentions, start)
    ensures r.Err? ==> r.error == TooMuch
    ensures r.Ok? ==> Scanned(records, sizes, request, mentions, start, r.value.1)
    ensures r.Ok? ==> r.value.0 == Matching(records, request.selection, mentions, start, r.value.1)
  {
    hide Selects, Blocked, Reserved, Matching, Stopped;
    var through := request.range.through.sequence;
    var last := start;
    var selected: seq<nat> := [];
    NothingReserved(records, sizes);
    NothingMatches(records, request.selection, mentions, start);
    while last < through && last - start < request.limits.scanned
      invariant start <= last <= through && last - start <= request.limits.scanned
      invariant selected == Matching(records, request.selection, mentions, start, last)
      invariant |selected| <= request.limits.returned
      invariant last > start ==> Reserved(records, sizes, selected) <= request.limits.replyBytes && request.limits.replyBytes >= 65536
      invariant selected != [] ==> !Blocked(records, sizes, request, mentions, start)
    {
      if |selected| == request.limits.returned {
        StopsAt(records, sizes, request, mentions, start, last);
        break;
      }
      var matches := Selects(request.selection, records[last], mentions);
      var tried := if matches then selected + [last] else selected;
      assert selected == [] && matches ==> tried == [last];
      var fits := Fits(records, sizes, tried, request.limits.replyBytes);
      if !fits {
        if last == start || (selected == [] && matches) {
          if matches {
            BlocksAt(records, sizes, request, mentions, start, last);
          }
          return Err(TooMuch);
        }
        StopsAt(records, sizes, request, mentions, start, last);
        break;
      }
      MatchingFurther(records, request.selection, mentions, start, last);
      if matches && selected == [] {
        NotBlockedHere(records, sizes, request, mentions, start, last);
      }
      if selected == [] {
        ReservedMore(records, sizes, [], tried);
      }
      selected := tried;
      last := last + 1;
    }
    var fits := Fits(records, sizes, selected, request.limits.replyBytes);
    if !fits {
      return Err(TooMuch);
    }
    if selected == [] {
      NothingBlocks(records, sizes, request, mentions, start, last);
    }
    if last == through || last - start == request.limits.scanned {
      StopsAt(records, sizes, request, mentions, start, last);
    }
    r := Ok((selected, last));
  }

  lemma NothingMatches(records: seq<StoredOperation>, s: Selection, mentions: Mentions, from: nat)
    requires from <= |records|
    ensures Matching(records, s, mentions, from, from) == []
  {
  }

  lemma MatchingFurther(records: seq<StoredOperation>, s: Selection, mentions: Mentions, from: nat, last: nat)
    requires from <= last < |records|
    ensures Matching(records, s, mentions, from, last + 1)
         == Matching(records, s, mentions, from, last) + if Selects(s, records[last], mentions) then [last] else []
  {
    hide Selects;
  }

  lemma StopsAt(records: seq<StoredOperation>, sizes: Sizes, request: ReadRequest, mentions: Mentions, start: nat, last: nat)
    requires Sized(records, sizes) && start <= last <= request.range.through.sequence <= |records|
    requires last < request.range.through.sequence && last - start != request.limits.scanned
             && |Matching(records, request.selection, mentions, start, last)| != request.limits.returned ==>
               Selects(request.selection, records[last], mentions)
               && Reserved(records, sizes, Matching(records, request.selection, mentions, start, last) + [last]) > request.limits.replyBytes
    ensures Stopped(records, sizes, request, mentions, start, last)
  {
    hide Selects, Reserved, Matching;
  }

  lemma NothingReserved(records: seq<StoredOperation>, sizes: Sizes)
    requires Sized(records, sizes)
    ensures Reserved(records, sizes, []) == 65536
  {
  }

  lemma ReservedMore(records: seq<StoredOperation>, sizes: Sizes, selected: seq<nat>, tried: seq<nat>)
    requires Sized(records, sizes) && forall k :: 0 <= k < |tried| ==> tried[k] < |records|
    requires selected <= tried && |tried| <= |selected| + 1
    ensures Reserved(records, sizes, selected) <= Reserved(records, sizes, tried)
  {
    if |tried| == |selected| {
      assert tried == selected;
    } else {
      assert tried[..|tried| - 1] == selected;
    }
  }

  lemma BlocksAt(records: seq<StoredOperation>, sizes: Sizes, request: ReadRequest, mentions: Mentions, start: nat, m: nat)
    requires Sized(records, sizes) && start <= m < request.range.through.sequence <= |records| && m - start < request.limits.scanned
    requires Matching(records, request.selection, mentions, start, m) == [] && Selects(request.selection, records[m], mentions)
    requires Reserved(records, sizes, [m]) > request.limits.replyBytes
    ensures Blocked(records, sizes, request, mentions, start)
  {
    hide Selects, Reserved;
  }

  /** Scans record after record until a limit or the end of the range; refused exactly when nothing can be returned honestly. */
  method Scan(source: ReadSource, records: seq<StoredOperation>, sizes: Sizes, reader: ActorId, request: ReadRequest, mentions: Mentions)
    returns (r: Readable<(seq<nat>, nat, nat)>)
    requires Sized(records, sizes)
    ensures r.Ok? <==> && StartOf(source, records, reader, request).Ok? && request.limits.replyBytes >= 65536
                       && !Blocked(records, sizes, request, mentions, StartOf(source, records, reader, request).value)
    ensures r.Ok? ==> && r.value.1 == StartOf(source, records, reader, request).value
                      && Scanned(records, sizes, request, mentions, r.value.1, r.value.2)
                      && r.value.0 == Matching(records, request.selection, mentions, r.value.1, r.value.2)
  {
    hide StartOf, Scanned, Blocked, Matching;
    var begin := StartOf(source, records, reader, request);
    if begin.Err? {
      return Err(begin.error);
    }
    var scanned := ScanFrom(records, sizes, request, mentions, begin.value);
    r := if scanned.Err? then Err(scanned.error) else Ok((scanned.value.0, begin.value, scanned.value.1));
  }

  lemma NotBlockedHere(records: seq<StoredOperation>, sizes: Sizes, request: ReadRequest, mentions: Mentions, start: nat, last: nat)
    requires Sized(records, sizes) && start <= last < request.range.through.sequence <= |records|
    requires Matching(records, request.selection, mentions, start, last) == [] && Selects(request.selection, records[last], mentions)
    requires Reserved(records, sizes, [last]) <= request.limits.replyBytes
    ensures !Blocked(records, sizes, request, mentions, start)
  {
    hide Selects, Reserved;
    forall m | start <= m < request.range.through.sequence && m - start < request.limits.scanned
               && Matching(records, request.selection, mentions, start, m) == [] && Selects(request.selection, records[m], mentions)
      ensures m == last
    {
      if last < m {
        FirstMatchUnique(records, request.selection, mentions, start, last, m);
      } else if m < last {
        FirstMatchUnique(records, request.selection, mentions, start, m, last);
      }
    }
  }

  lemma NothingBlocks(records: seq<StoredOperation>, sizes: Sizes, request: ReadRequest, mentions: Mentions, start: nat, last: nat)
    requires Sized(records, sizes) && start <= last <= request.range.through.sequence <= |records|
    requires Matching(records, request.selection, mentions, start, last) == []
    requires last == request.range.through.sequence || last - start >= request.limits.scanned
    ensures !Blocked(records, sizes, request, mentions, start)
  {
    hide Selects, Reserved;
    forall m | start <= m < last && Selects(request.selection, records[m], mentions) ensures false {
      FirstMatchUnique(records, request.selection, mentions, start, m, last);
    }
  }

  // ----- one page

  function PublicOf(source: ReadSource, r: StoredOperation): PublicRecord {
    PublicRecord(Position(source, r.sequence, Some(r.operation.id)), r.accepted,
                 set k | k in r.checks.intakes :: ContentReference(source.identity, r.operation.id, k))
  }

  function PublicRecords(source: ReadSource, records: seq<StoredOperation>, selected: seq<nat>): (public: seq<PublicRecord>)
    requires forall k :: 0 <= k < |selected| ==> selected[k] < |records|
    ensures |public| == |selected|
    ensures forall k :: 0 <= k < |selected| ==> public[k] == PublicOf(source, records[selected[k]])
  {
    seq(|selected|, k requires 0 <= k < |selected| => PublicOf(source, records[selected[k]]))
  }

  function PositionAt(source: ReadSource, records: seq<StoredOperation>, n: nat): Position
    requires n <= |records|
  {
    Position(source, n, if n == 0 then None else Some(records[n - 1].operation.id))
  }

  /** The page of an interval that was scanned. */
  function PageOf(source: ReadSource, records: seq<StoredOperation>, reader: ActorId, request: ReadRequest, mentions: Mentions, start: nat, last: nat): Page
    requires start <= last <= request.range.through.sequence <= |records|
  {
    Page(PublicRecords(source, records, Matching(records, request.selection, mentions, start, last)),
         Range(PositionAt(source, records, start), PositionAt(source, records, last)),
         PositionAt(source, records, |records|),
         if last == request.range.through.sequence then EndOfRange
         else More(Cursor(request.range, request.selection, reader, source.identity.Key(), PositionAt(source, records, last))))
  }

  method ReadPage(source: ReadSource, records: seq<StoredOperation>, sizes: Sizes, reader: ActorId, request: ReadRequest, mentions: Mentions)
    returns (r: Readable<Page>)
    requires Sized(records, sizes)
    ensures r.Ok? <==> && StartOf(source, records, reader, request).Ok? && request.limits.replyBytes >= 65536
                       && !Blocked(records, sizes, request, mentions, StartOf(source, records, reader, request).value)
    ensures r.Ok? ==> Produced(source, records, sizes, reader, request, mentions, r.value)
  {
    hide StartOf, Selects, Scanned, Blocked;
    var scanned := Scan(source, records, sizes, reader, request, mentions);
    if scanned.Err? {
      return Err(scanned.error);
    }
    var start, last := scanned.value.1, scanned.value.2;
    ScannedBounds(records, sizes, request, mentions, start, last);
    StartIsSupported(source, records, reader, request);
    var after := Resolve(source, records, AtSequence(start));
    var through := Resolve(source, records, AtSequence(last));
    var head := Resolve(source, records, Current);
    var progress := if last == request.range.through.sequence then EndOfRange
                    else More(Cursor(request.range, request.selection, reader, source.identity.Key(), through.value));
    r := Ok(Page(PublicRecords(source, records, scanned.value.0), Range(after.value, through.value), head.value, progress));
  }

  lemma ScannedBounds(records: seq<StoredOperation>, sizes: Sizes, request: ReadRequest, mentions: Mentions, start: nat, last: nat)
    requires Sized(records, sizes) && start <= request.range.through.sequence <= |records|
    requires Scanned(records, sizes, request, mentions, start, last)
    ensures start <= last <= request.range.through.sequence
  {
  }

  lemma StartIsSupported(source: ReadSource, records: seq<StoredOperation>, reader: ActorId, request: ReadRequest)
    requires StartOf(source, records, reader, request).Ok?
    ensures source.profile == CURRENT_PROFILE && request.change == source.identity.Key()
    ensures request.range.after == PositionAt(source, records, request.range.after.sequence)
    ensures request.range.through == PositionAt(source, records, request.range.through.sequence)
    ensures request.cursor.Some? ==>
              var c := request.cursor.value;
              CursorFits(request, reader, c) && c.lastScanned == PositionAt(source, records, c.lastScanned.sequence)
    ensures StartOf(source, records, reader, request).value ==
            if request.cursor.Some? then request.cursor.value.lastScanned.sequence else request.range.after.sequence
  {
  }

  /** A page that a read of these records produced. */
  ghost predicate Produced(source: ReadSource, records: seq<StoredOperation>, sizes: Sizes, reader: ActorId, request: ReadRequest,
                           mentions: Mentions, page: Page)
    requires Sized(records, sizes)
  {
    && StartOf(source, records, reader, request).Ok?
    && var start := StartOf(source, records, reader, request).value;
    && exists last :: && start <= last <= request.range.through.sequence
                      && Scanned(records, sizes, request, mentions, start, last)
                      && page == PageOf(source, records, reader, request, mentions, start, last)
  }

  // ----- the adapter's independent check of a page

  predicate PositionFits(p: Position, identity: Identity) {
    p.source == ReadSource(identity, CURRENT_PROFILE) && (p.sequence == 0 <==> p.operation.None?)
  }

  predicate SameWhenEqual(a: Position, b: Position) {
    a.sequence != b.sequence || a == b
  }

  predicate CursorContinues(c: Cursor, request: ReadRequest, through: Position, identity: Identity) {
    && c.range == request.range && c.selection == request.selection && c.lastScanned == through
    && c.permissionScope == request.change && c.reader == identity.ownerActor
  }

  predicate RecordFits(r: PublicRecord, previous: nat, page: Page, identity: Identity) {
    && r.position.sequence > previous
    && r.position.sequence <= page.scanned.through.sequence
    && PositionFits(r.position, identity)
    && r.position.operation == Some(r.accepted.operation)
    && SameWhenEqual(r.position, page.scanned.through)
    && SameWhenEqual(r.position, page.observedHead)
    && (forall m :: m in r.memberships ==> m.identity == identity && m.operation == r.accepted.operation)
  }

  /** The sequence that record `i` of a page must lie after. */
  function Previous(page: Page, i: nat): nat
    requires i <= |page.records|
  {
    if i == 0 then page.scanned.after.sequence else page.records[i - 1].position.sequence
  }

  /** Each record is checked against the one before it. */
  predicate RecordsFit(page: Page, identity: Identity) {
    forall i :: 0 <= i < |page.records| ==> RecordFits(page.records[i], Previous(page, i), page, identity)
  }

  /** Walks the records with the last sequence seen. */
  method CheckRecords(page: Page, identity: Identity) returns (ok: bool)
    ensures ok == RecordsFit(page, identity)
  {
    hide RecordFits;
    var previous := page.scanned.after.sequence;
    var i := 0;
    while i < |page.records|
      invariant 0 <= i <= |page.records|
      invariant previous == Previous(page, i)
      invariant forall j :: 0 <= j < i ==> RecordFits(page.records[j], Previous(page, j), page, identity)
    {
      if !RecordFits(page.records[i], previous, page, identity) {
        return false;
      }
      previous := page.records[i].position.sequence;
      i := i + 1;
    }
    ok := true;
  }

  predicate ProgressFits(request: ReadRequest, page: Page, start: Position, identity: Identity) {
    match page.progress
    case EndOfRange => page.scanned.through == request.range.through
    case More(next) =>
      && page.scanned.through.sequence > start.sequence
      && page.scanned.through.sequence < request.range.through.sequence
      && CursorContinues(next, request, page.scanned.through, identity)
  }

  /** Every clause the adapter checks of a page it did not compute. */
  predicate PageAccepted(request: ReadRequest, page: Page, identity: Identity) {
    var start := if request.cursor.Some? then request.cursor.value.lastScanned else request.range.after;
    && request.change == identity.Key()
    && PositionFits(request.range.after, identity)
    && PositionFits(request.range.through, identity)
    && page.scanned.after == start
    && PositionFits(start, identity)
    && PositionFits(page.scanned.through, identity)
    && (request.cursor.Some? ==> CursorContinues(request.cursor.value, request, start, identity))
    && PositionFits(page.observedHead, identity)
    && request.range.after.sequence <= start.sequence
    && page.scanned.through.sequence <= request.range.through.sequence
    && page.observedHead.sequence >= request.range.through.sequence
    && start.sequence <= page.scanned.through.sequence <= start.sequence + request.limits.scanned
    && |page.records| <= request.limits.returned
    && RecordsFit(page, identity)
    && (request.selection.AllRecords? ==> page.scanned.through.sequence - start.sequence == |page.records|)
    && SameWhenEqual(request.range.after, request.range.through)
    && SameWhenEqual(page.scanned.after, page.scanned.through)
    && SameWhenEqual(page.observedHead, request.range.through)
    && (page.scanned.through.sequence == request.range.through.sequence ==> page.scanned.through == request.range.through)
    && ProgressFits(request, page, start, identity)
  }

  /** What reconstruction established about the records of a history. */
  ghost predicate Numbered(records: seq<StoredOperation>) {
    forall i :: 0 <= i < |records| ==> records[i].sequence == i + 1 && records[i].accepted.operation == records[i].operation.id
  }

  lemma ReconstructedIsNumbered(head: HistoryHead, records: seq<StoredOperation>)
    requires ReplayPrefix(head, records).Ok?
    ensures Numbered(records)
  {
    forall i | 0 <= i < |records| ensures records[i].sequence == i + 1 && records[i].accepted.operation == records[i].operation.id {
      hide ReplayPrefix, ReplayRecord;
      Catalogue.RecordAt(head, records, i);
      Histories.PrefixShape(head, records[..i]);
      RecordIsNumbered(ReplayPrefix(head, records[..i]).value, head, records[i]);
    }
  }

  lemma RecordIsNumbered(l: Ledger, head: HistoryHead, r: StoredOperation)
    requires ReplayRecord(l, head, r).Ok?
    ensures r.sequence == |l.records| + 1 && r.accepted.operation == r.operation.id
  {
    hide Candidate, CreationClaims, EstablishmentClaims, RetainedBindings, UsedGrant, GrantSnapshot, RequestOf, Retain;
  }

  /** The independent check of a resolved position. */
  predicate PositionAccepted(change: ChangeKey, anchor: Anchor, p: Position, identity: Identity) {
    && change == identity.Key()
    && PositionFits(p, identity)
    && match anchor
       case Beginning => p.sequence == 0
       case Current => true
       case AtSequence(n) => p.sequence == n
       case AtOperation(id) => p.operation == Some(id)
  }

  lemma {:induction false} SequenceFinds(records: seq<StoredOperation>, id: OperationId)
    ensures SequenceOf(records, id).None? ==> forall k :: 0 <= k < |records| ==> records[k].operation.id != id
    ensures SequenceOf(records, id).Some? ==>
              exists k :: 0 <= k < |records| && records[k].operation.id == id && records[k].sequence == SequenceOf(records, id).value
    decreases |records|
  {
    if records != [] && records[0].operation.id != id {
      SequenceFinds(records[1..], id);
      if SequenceOf(records[1..], id).Some? {
        var k :| 0 <= k < |records| - 1 && records[1..][k].operation.id == id
                 && records[1..][k].sequence == SequenceOf(records[1..], id).value;
        assert records[k + 1].operation.id == id && records[k + 1].sequence == SequenceOf(records, id).value;
      }
    }
  }

  /** An anchor resolves exactly when it names a place of the history, to a position that stays valid and passes the independent check. */
  lemma ResolvedExactly(source: ReadSource, head: HistoryHead, records: seq<StoredOperation>, anchor: Anchor)
    requires ReplayPrefix(head, records).Ok?
    ensures Resolve(source, records, anchor).Ok? <==>
            && source.profile == CURRENT_PROFILE
            && match anchor
               case AtSequence(n) => n <= |records|
               case AtOperation(id) => exists k :: 0 <= k < |records| && records[k].operation.id == id
               case _ => true
    ensures Resolve(source, records, anchor).Ok? ==>
              && CheckPosition(source, records, Resolve(source, records, anchor).value).Pass?
              && PositionAccepted(source.identity.Key(), anchor, Resolve(source, records, anchor).value, source.identity)
  {
    hide ReplayPrefix;
    ReconstructedIsNumbered(head, records);
    if anchor.AtOperation? {
      SequenceFinds(records, anchor.operation);
    }
  }

  lemma {:induction false} MatchingRises(records: seq<StoredOperation>, s: Selection, mentions: Mentions, from: nat, upto: nat)
    requires from <= upto <= |records|
    ensures var m := Matching(records, s, mentions, from, upto);
            && StrictlyRising(m)
            && (s.AllRecords? ==> |m| == upto - from)
    decreases upto
  {
    hide Matches;
    if from < upto {
      MatchingRises(records, s, mentions, from, upto - 1);
    }
  }

  lemma PublicRecordsFit(source: ReadSource, records: seq<StoredOperation>, selected: seq<nat>, page: Page, start: nat, last: nat)
    requires Numbered(records) && source.profile == CURRENT_PROFILE && start <= last <= |records|
    requires StrictlyRising(selected) && forall k :: 0 <= k < |selected| ==> start <= selected[k] < last
    requires page.records == PublicRecords(source, records, selected)
    requires page.scanned == Range(PositionAt(source, records, start), PositionAt(source, records, last))
    requires page.observedHead == PositionAt(source, records, |records|)
    ensures RecordsFit(page, source.identity)
  {
    forall i | 0 <= i < |page.records|
      ensures RecordFits(page.records[i], Previous(page, i), page, source.identity)
    {
      assert page.records[i] == PublicOf(source, records[selected[i]]);
      if i > 0 {
        assert page.records[i - 1] == PublicOf(source, records[selected[i - 1]]);
      }
    }
  }

  /** The check is complete for its producer: it accepts every page produced for the owner over a reconstructed history. */
  lemma ProducedIsAccepted(source: ReadSource, head: HistoryHead, records: seq<StoredOperation>, sizes: Sizes, request: ReadRequest,
                           mentions: Mentions, page: Page)
    requires ReplayPrefix(head, records).Ok? && Sized(records, sizes)
    requires Produced(source, records, sizes, source.identity.ownerActor, request, mentions, page)
    ensures PageAccepted(request, page, source.identity)
  {
    hide StartOf, Matching, Stopped, Reserved, ReplayPrefix, PublicRecords, RecordsFit;
    var reader := source.identity.ownerActor;
    StartIsSupported(source, records, reader, request);
    ReconstructedIsNumbered(head, records);
    var start := StartOf(source, records, reader, request).value;
    var last :| && start <= last <= request.range.through.sequence
                && Scanned(records, sizes, request, mentions, start, last)
                && page == PageOf(source, records, reader, request, mentions, start, last);
    MatchingRises(records, request.selection, mentions, start, last);
    PublicRecordsFit(source, records, Matching(records, request.selection, mentions, start, last), page, start, last);
  }

  // ----- following the bookmark

  /** One call: the records there were then, with their sizes, and what was asked. */
  datatype Call = Call(records: seq<StoredOperation>, sizes: Sizes, request: ReadRequest)

  ghost predicate SameQuestion(a: ReadRequest, b: ReadRequest) {
    a.change == b.change && a.range == b.range && a.selection == b.selection
  }

  /** Calls that follow each page's bookmark while records are only appended; the limits may differ in every call. */
  ghost predicate Followed(source: ReadSource, reader: ActorId, mentions: Mentions, calls: seq<Call>, pages: seq<Page>) {
    && |calls| == |pages| > 0
    && calls[0].request.cursor.None?
    && (forall i :: 0 <= i < |calls| ==>
          Sized(calls[i].records, calls[i].sizes)
          && Produced(source, calls[i].records, calls[i].sizes, reader, calls[i].request, mentions, pages[i]))
    && (forall i, j {:trigger calls[i], calls[j]} :: 0 <= i < |calls| - 1 && j == i + 1 ==>
          && calls[i].records <= calls[j].records
          && SameQuestion(calls[i].request, calls[j].request)
          && pages[i].progress.More? && calls[j].request.cursor == Some(pages[i].progress.next))
  }

  function AllReturned(pages: seq<Page>): seq<PublicRecord> {
    if pages == [] then [] else AllReturned(pages[..|pages| - 1]) + pages[|pages| - 1].records
  }

  lemma {:induction false} MatchingSplits(records: seq<StoredOperation>, s: Selection, mentions: Mentions, from: nat, mid: nat, upto: nat)
    requires from <= mid <= upto <= |records|
    ensures Matching(records, s, mentions, from, upto)
         == Matching(records, s, mentions, from, mid) + Matching(records, s, mentions, mid, upto)
    decreases upto
  {
    hide Selects;
    if mid < upto {
      MatchingSplits(records, s, mentions, from, mid, upto - 1);
    }
  }

  lemma {:induction false} MatchingInPrefix(records: seq<StoredOperation>, more: seq<StoredOperation>, s: Selection, mentions: Mentions, from: nat, upto: nat)
    requires records <= more && from <= upto <= |records|
    ensures Matching(records, s, mentions, from, upto) == Matching(more, s, mentions, from, upto)
    decreases upto
  {
    hide Selects;
    if from < upto {
      MatchingInPrefix(records, more, s, mentions, from, upto - 1);
    }
  }

  lemma PublicJoins(source: ReadSource, records: seq<StoredOperation>, a: seq<nat>, b: seq<nat>)
    requires forall k :: 0 <= k < |a| ==> a[k] < |records|
    requires forall k :: 0 <= k < |b| ==> b[k] < |records|
    ensures PublicRecords(source, records, a + b) == PublicRecords(source, records, a) + PublicRecords(source, records, b)
  {
  }

  lemma PublicInPrefix(source: ReadSource, records: seq<StoredOperation>, more: seq<StoredOperation>, selected: seq<nat>)
    requires records <= more && forall k :: 0 <= k < |selected| ==> selected[k] < |records|
    ensures PublicRecords(source, records, selected) == PublicRecords(source, more, selected)
  {
  }

  /** What one page adds: its interval continues where the request started, and it returns exactly that interval's matches. */
  lemma PageInterval(source: ReadSource, call: Call, reader: ActorId, mentions: Mentions, page: Page)
    requires Sized(call.records, call.sizes)
    requires Produced(source, call.records, call.sizes, reader, call.request, mentions, page)
    ensures var after, through := page.scanned.after.sequence, page.scanned.through.sequence;
            && after == (if call.request.cursor.Some? then call.request.cursor.value.lastScanned.sequence else call.request.range.after.sequence)
            && call.request.range.after.sequence <= after <= through <= call.request.range.through.sequence <= |call.records|
            && page.records == PublicRecords(source, call.records, Matching(call.records, call.request.selection, mentions, after, through))
            && (page.progress.More? ==> after < through < call.request.range.through.sequence
                                        && page.progress.next.lastScanned.sequence == through)
            && (page.progress.EndOfRange? ==> through == call.request.range.through.sequence)
  {
    hide StartOf, Matching, Stopped, Reserved;
    StartIsSupported(source, call.records, reader, call.request);
  }

  /** Up to any page, what was returned is every match of the interval scanned so far, once and in order. */
  lemma {:induction false} FollowedSoFar(source: ReadSource, reader: ActorId, mentions: Mentions, calls: seq<Call>, pages: seq<Page>, n: nat)
    requires Followed(source, reader, mentions, calls, pages) && 0 < n <= |calls|
    ensures var first, last := calls[0].request, calls[n - 1];
            var through := pages[n - 1].scanned.through.sequence;
            && first.range.after.sequence <= through <= |last.records|
            && SameQuestion(first, last.request)
            && pages[n - 1].scanned.after.sequence == (if n == 1 then first.range.after.sequence else pages[n - 2].scanned.through.sequence)
            && AllReturned(pages[..n])
               == PublicRecords(source, last.records, Matching(last.records, first.selection, mentions, first.range.after.sequence, through))
  {
    hide Produced, Matching, PublicRecords;
    var call := calls[n - 1];
    assert Produced(source, call.records, call.sizes, reader, call.request, mentions, pages[n - 1]);
    PageInterval(source, call, reader, mentions, pages[n - 1]);
    assert pages[..n][..n - 1] == pages[..n - 1];
    if n == 1 {
      assert AllReturned(pages[..1]) == AllReturned([]) + pages[0].records;
    } else {
      FollowedSoFar(source, reader, mentions, calls, pages, n - 1);
      var before := calls[n - 2];
      PageInterval(source, before, reader, mentions, pages[n - 2]);
      assert before.records <= call.records;
      Joined(source, mentions, before.records, call.records, calls[0].request.selection, calls[0].request.range.after.sequence,
             pages[n - 2].scanned.through.sequence, pages[n - 1].scanned.through.sequence);
    }
  }

  lemma Joined(source: ReadSource, mentions: Mentions, records: seq<StoredOperation>, more: seq<StoredOperation>, s: Selection,
               from: nat, mid: nat, upto: nat)
    requires records <= more && from <= mid <= upto <= |more| && mid <= |records|
    ensures PublicRecords(source, records, Matching(records, s, mentions, from, mid)) + PublicRecords(source, more, Matching(more, s, mentions, mid, upto))
         == PublicRecords(source, more, Matching(more, s, mentions, from, upto))
  {
    hide Matching, PublicRecords;
    MatchingInPrefix(records, more, s, mentions, from, mid);
    PublicInPrefix(source, records, more, Matching(records, s, mentions, from, mid));
    MatchingSplits(more, s, mentions, from, mid, upto);
    PublicJoins(source, more, Matching(more, s, mentions, from, mid), Matching(more, s, mentions, mid, upto));
  }

  /** Following the bookmark to the end returns every match of the whole range, exactly once and in order, whatever was appended meanwhile. */
  lemma PagesCompose(source: ReadSource, reader: ActorId, mentions: Mentions, calls: seq<Call>, pages: seq<Page>)
    requires Followed(source, reader, mentions, calls, pages)
    requires pages[|pages| - 1].progress.EndOfRange?
    ensures var request := calls[0].request;
            && request.range.after.sequence <= request.range.through.sequence <= |calls[0].records|
            && AllReturned(pages)
               == PublicRecords(source, calls[0].records,
                                Matching(calls[0].records, request.selection, mentions, request.range.after.sequence, request.range.through.sequence))
  {
    hide Produced, Matching, PublicRecords, AllReturned;
    var n := |calls|;
    var request, final := calls[0].request, calls[n - 1];
    FollowedSoFar(source, reader, mentions, calls, pages, n);
    assert Produced(source, final.records, final.sizes, reader, final.request, mentions, pages[n - 1]);
    PageInterval(source, final, reader, mentions, pages[n - 1]);
    assert Produced(source, calls[0].records, calls[0].sizes, reader, request, mentions, pages[0]);
    PageInterval(source, calls[0], reader, mentions, pages[0]);
    assert pages[..n] == pages;
    RecordsOnlyAppended(source, reader, mentions, calls, pages, n - 1);
    MatchingInPrefix(calls[0].records, final.records, request.selection, mentions, request.range.after.sequence, request.range.through.sequence);
    PublicInPrefix(source, calls[0].records, final.records,
                   Matching(calls[0].records, request.selection, mentions, request.range.after.sequence, request.range.through.sequence));
  }

  lemma {:induction false} RecordsOnlyAppended(source: ReadSource, reader: ActorId, mentions: Mentions, calls: seq<Call>, pages: seq<Page>, i: nat)
    requires Followed(source, reader, mentions, calls, pages) && i < |calls|
    ensures calls[0].records <= calls[i].records
  {
    hide Produced;
    if i > 0 {
      RecordsOnlyAppended(source, reader, mentions, calls, pages, i - 1);
      assert calls[i - 1].records <= calls[i].records;
    }
  }

  /** What is left to scan strictly falls on every page that is not the last. */
  lemma BookmarkAdvances(source: ReadSource, reader: ActorId, mentions: Mentions, calls: seq<Call>, pages: seq<Page>, i: nat)
    requires Followed(source, reader, mentions, calls, pages) && i + 1 < |calls|
    ensures var through := calls[0].request.range.through.sequence;
            pages[i].scanned.through.sequence <= pages[i + 1].scanned.after.sequence
            && (pages[i + 1].progress.More? ==> pages[i].scanned.through.sequence < pages[i + 1].scanned.through.sequence < through)
  {
    hide Produced, Matching, PublicRecords, AllReturned;
    FollowedSoFar(source, reader, mentions, calls, pages, i + 1);
    FollowedSoFar(source, reader, mentions, calls, pages, i + 2);
    var call := calls[i + 1];
    assert Produced(source, call.records, call.sizes, reader, call.request, mentions, pages[i + 1]);
    PageInterval(source, call, reader, mentions, pages[i + 1]);
  }
}

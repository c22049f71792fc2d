/** Creation across two stores: reserve, allocate, bind, provision, start, include and activate, with a crash after any of them. */
module Registers {
  import opened Base
  import opened Model
  import opened Rules
  import opened Records
  import opened Change
  import C = Commits
  import W = Witnesses

  type Path = seq<char>
  type Binding = nat

  /** A request as typed, and the exact bytes it arrived in. */
  datatype PreparedRequest = PreparedRequest(typed: OperationRequest, raw: Bytes)

  datatype CreationIntent = CreationIntent(issuer: Binding, identity: Identity, path: Path, start: PreparedRequest) {
    /** A retry may carry other bytes of the same typed start. */
    predicate Same(other: CreationIntent) {
      issuer == other.issuer && identity == other.identity && path == other.path && start.typed == other.start.typed
    }

    predicate Checked() {
      && NewState(identity).Ok?
      && start.typed.target == identity.Key()
      && start.typed.actor == identity.ownerActor
      && start.typed.representedOwner == identity.owner
      && start.typed.operation.command.Initiate? && start.typed.operation.command.access.ByOwner?
    }
  }

  datatype Receipt = Receipt(intent: CreationIntent, binding: Binding)

  datatype EntryState = Reserved | Bound | Included

  datatype Entry = Entry(intent: CreationIntent, state: EntryState, binding: Option<Binding>, receipt: Option<Receipt>)

  /** A separate store: allocated for an intent, later provisioned, holding its ledger with the requests in order and perhaps an activation. */
  datatype OriginalStore = OriginalStore(
    intent: CreationIntent,
    binding: Binding,
    provisioned: bool,
    ledger: Ledger,
    requests: seq<PreparedRequest>,
    activation: Option<Receipt>)

  /** A store just allocated: nothing accepted yet. */
  function Allocated(intent: CreationIntent, binding: Binding): OriginalStore
    requires NewState(intent.identity).Ok?
  {
    OriginalStore(intent, binding, false, Ledger(NewState(intent.identity).value, map[]), [], None)
  }

  function Answer(o: OriginalStore, request: PreparedRequest, ports: Ports): Reply {
    Execution(o.ledger, false, request.typed, ports, AcceptedNow).reply
  }

  /** What a submission may do to an original: nothing, or one more request of an operation that was not there. */
  predicate Submits(o: OriginalStore, request: PreparedRequest, next: OriginalStore) {
    var id := request.typed.operation.id;
    next == o || (&& id !in o.ledger.records && next.ledger.records.Keys == o.ledger.records.Keys + {id}
                  && next == o.(ledger := next.ledger, requests := o.requests + [request]))
  }

  /** One submission whose acceptance lands: a new record joins with its request; a refusal or an exact retry changes nothing. */
  function Submitted(o: OriginalStore, request: PreparedRequest, ports: Ports): OriginalStore {
    var e := Execution(o.ledger, false, request.typed, ports, AcceptedNow);
    if e.committed.Some? then o.(ledger := e.ledger, requests := o.requests + [request]) else o
  }

  /** The guard of a start: an owner's initiation, and no second record unless this operation is already there. */
  predicate StartAdmitted(o: OriginalStore, request: PreparedRequest) {
    && request.typed.operation.command.Initiate? && request.typed.operation.command.access.ByOwner?
    && (|o.ledger.records| > 1 ==> request.typed.operation.id in o.ledger.records)
  }

  /** As many records as requests, and each request's operation among them. */
  ghost predicate HoldsRequests(o: OriginalStore) {
    && |o.ledger.records| == |o.requests|
    && forall k :: 0 <= k < |o.requests| ==> o.requests[k].typed.operation.id in o.ledger.records
  }

  lemma SubmissionJoins(l: Ledger, request: OperationRequest, ports: Ports)
    ensures var e := Execution(l, false, request, ports, AcceptedNow);
            && (e.committed.Some? ==> request.operation.id !in l.records
                                      && e.ledger.records == l.records[request.operation.id := e.committed.value])
            && (e.committed.None? && e.reply.Answered? ==> request.operation.id in l.records
                                                           && e.reply.accepted == l.records[request.operation.id].accepted)
            && (e.committed.Some? ==> e.reply.Answered?)
  {
    hide Collect, Candidate, OpenChecks, RecordOf, RequestOf, Retain, Gathered;
  }

  /** The application accepts within those bounds, and what it answers is there. */
  lemma SubmittedSubmits(o: OriginalStore, request: PreparedRequest, ports: Ports)
    ensures Submits(o, request, Submitted(o, request, ports))
    ensures Answer(o, request, ports).Answered? ==> request.typed.operation.id in Submitted(o, request, ports).ledger.records
  {
    SubmissionJoins(o.ledger, request.typed, ports);
    hide Execution;
    var e := Execution(o.ledger, false, request.typed, ports, AcceptedNow);
    if e.committed.Some? {
      assert e.ledger.records.Keys == o.ledger.records.Keys + {request.typed.operation.id};
    }
  }

  lemma SubmitsHolds(o: OriginalStore, request: PreparedRequest, next: OriginalStore)
    requires HoldsRequests(o) && Submits(o, request, next)
    ensures HoldsRequests(next)
    ensures request.typed.operation.id in o.ledger.records ==> next == o
    ensures request.typed.operation.id in next.ledger.records ==> next.requests != []
  {
    if next != o {
      assert |next.ledger.records| == |o.ledger.records| + 1;
    }
  }

  /** Durable state of the register and of every original; which reservation the running call made; what was ever allocated. */
  datatype World = World(
    register: Binding,
    entries: map<ChangeId, Entry>,
    originals: map<Path, OriginalStore>,
    reserving: Option<ChangeId>,
    allocations: seq<ChangeId>)

  // ----- the durable steps of one creation

  predicate CanReserve(w: World, intent: CreationIntent) {
    intent.Checked() && intent.issuer == w.register && intent.identity.change !in w.entries
  }

  function Reserving(w: World, intent: CreationIntent): World {
    var id := intent.identity.change;
    w.(entries := w.entries[id := Entry(intent, Reserved, None, None)], reserving := Some(id))
  }

  /** Only the reservation made in this very call proves that allocation was never attempted. */
  predicate CanAllocate(w: World, id: ChangeId) {
    && id in w.entries && w.entries[id].state == Reserved && w.reserving == Some(id) && w.entries[id].intent.path !in w.originals
    && NewState(w.entries[id].intent.identity).Ok?
  }

  function Allocating(w: World, id: ChangeId, binding: Binding): World
    requires CanAllocate(w, id)
  {
    var intent := w.entries[id].intent;
    w.(originals := w.originals[intent.path := Allocated(intent, binding)], reserving := None,
       allocations := w.allocations + [id])
  }

  /** An unbound entry resumes only with an allocation of its own, still unprovisioned. */
  predicate CanBind(w: World, id: ChangeId) {
    && id in w.entries && w.entries[id].state == Reserved
    && w.entries[id].intent.path in w.originals
    && var o := w.originals[w.entries[id].intent.path];
    o.intent == w.entries[id].intent && !o.provisioned
  }

  function WithBinding(w: World, id: ChangeId): World
    requires CanBind(w, id)
  {
    var e := w.entries[id];
    w.(entries := w.entries[id := e.(state := Bound, binding := Some(w.originals[e.intent.path].binding))])
  }

  /** The original that a bound entry opens: the store at its path, with its identity and binding. */
  predicate Opens(w: World, id: ChangeId) {
    && id in w.entries && w.entries[id].state != Reserved
    && w.entries[id].intent.path in w.originals
    && var o := w.originals[w.entries[id].intent.path];
    && o.intent.identity == w.entries[id].intent.identity && o.intent.issuer == w.register
    && w.entries[id].binding == Some(o.binding)
  }

  function OpenedBy(w: World, id: ChangeId): OriginalStore
    requires Opens(w, id)
  {
    w.originals[w.entries[id].intent.path]
  }

  function WithOriginal(w: World, id: ChangeId, o: OriginalStore): World
    requires Opens(w, id)
  {
    w.(originals := w.originals[w.entries[id].intent.path := o])
  }

  predicate CanProvision(w: World, id: ChangeId) {
    Opens(w, id) && !OpenedBy(w, id).provisioned
  }

  /** Every call submits the start of the retained intent again; the guard looks at the records, not at how far the entry has come. */
  predicate CanStart(w: World, id: ChangeId) {
    Opens(w, id) && OpenedBy(w, id).provisioned && StartAdmitted(OpenedBy(w, id), w.entries[id].intent.start)
  }

  predicate CanInclude(w: World, id: ChangeId) {
    Opens(w, id) && w.entries[id].state == Bound && |OpenedBy(w, id).requests| == 1
    && OpenedBy(w, id).requests[0].typed == w.entries[id].intent.start.typed
  }

  function Including(w: World, id: ChangeId): World
    requires CanInclude(w, id)
  {
    var e := w.entries[id];
    w.(entries := w.entries[id := e.(state := Included, receipt := Some(Receipt(e.intent, e.binding.value)))])
  }

  /** A receipt fits an original when its intent's start is the first request, byte for byte. */
  predicate ReceiptFits(r: Receipt, o: OriginalStore) {
    && r.intent.identity == o.intent.identity && r.intent.issuer == o.intent.issuer && r.binding == o.binding
    && o.requests != [] && o.requests[0] == r.intent.start
  }

  predicate CanActivate(w: World, id: ChangeId) {
    && Opens(w, id) && w.entries[id].state == Included && w.entries[id].receipt.Some?
    && ReceiptFits(w.entries[id].receipt.value, OpenedBy(w, id)) && OpenedBy(w, id).activation.None?
  }

  datatype Event =
    | Reserve(intent: CreationIntent)
    | Allocate(id: ChangeId, binding: Binding)
    | Bind(bound: ChangeId)
    | Provision(provisioned: ChangeId)
    | Start(started: ChangeId, starting: OriginalStore)
    | Include(included: ChangeId)
    | Activate(activated: ChangeId)
    | Append(path: Path, request: PreparedRequest, appended: OriginalStore)
    | Return
    | Lose(lost: Path)

  /** Each event is one durable step; a crash or an error ends the call wherever it is, and storage may be lost. */
  predicate Step(a: World, e: Event, b: World) {
    match e
    case Reserve(intent) => CanReserve(a, intent) && b == Reserving(a, intent)
    case Allocate(id, binding) => CanAllocate(a, id) && b == Allocating(a, id, binding)
    case Bind(id) => CanBind(a, id) && b == WithBinding(a, id)
    case Provision(id) => CanProvision(a, id) && b == WithOriginal(a, id, OpenedBy(a, id).(provisioned := true))
    case Start(id, o) => CanStart(a, id) && Submits(OpenedBy(a, id), a.entries[id].intent.start, o) && b == WithOriginal(a, id, o)
    case Include(id) => CanInclude(a, id) && b == Including(a, id)
    case Activate(id) => CanActivate(a, id) && b == WithOriginal(a, id, OpenedBy(a, id).(activation := a.entries[id].receipt))
    case Append(path, request, o) =>
      && path in a.originals && a.originals[path].activation.Some? && Submits(a.originals[path], request, o)
      && b == a.(originals := a.originals[path := o])
    case Return => b == a.(reserving := None)
    case Lose(path) => path in a.originals && b == a.(originals := a.originals - {path})
  }

  // ----- what every step keeps

  ghost predicate EntryKept(register: Binding, id: ChangeId, e: Entry) {
    && e.intent.identity.change == id && e.intent.Checked() && e.intent.issuer == register
    && match e.state
       case Reserved => e.binding.None? && e.receipt.None?
       case Bound => e.binding.Some? && e.receipt.None?
       case Included => e.binding.Some? && e.receipt == Some(Receipt(e.intent, e.binding.value))
  }

  /** An original belongs to the one entry that allocated it, and has come exactly as far as that entry says. */
  ghost predicate OriginalKept(entries: map<ChangeId, Entry>, allocations: seq<ChangeId>, path: Path, o: OriginalStore) {
    var id := o.intent.identity.change;
    && id in entries && id in allocations
    && var e := entries[id];
    && e.intent == o.intent && o.intent.path == path && HoldsRequests(o)
    && (e.state != Reserved ==> e.binding == Some(o.binding))
    && (o.provisioned ==> e.state != Reserved)
    && (o.requests != [] ==> o.provisioned && o.requests[0] == e.intent.start)
    && (e.state == Included ==> o.requests != [])
    && (o.activation.Some? ==> e.state == Included && o.activation == e.receipt)
    && (|o.requests| > 1 ==> o.activation.Some?)
  }

  ghost predicate EntriesKept(register: Binding, entries: map<ChangeId, Entry>) {
    forall id :: id in entries ==> EntryKept(register, id, entries[id])
  }

  ghost predicate OriginalsKept(entries: map<ChangeId, Entry>, allocations: seq<ChangeId>, originals: map<Path, OriginalStore>) {
    forall path :: path in originals ==> OriginalKept(entries, allocations, path, originals[path])
  }

  ghost predicate NoRepeats(ids: seq<ChangeId>) {
    forall i, j :: 0 <= i < j < |ids| ==> ids[i] != ids[j]
  }

  ghost predicate Sound(w: World) {
    && EntriesKept(w.register, w.entries)
    && OriginalsKept(w.entries, w.allocations, w.originals)
    && NoRepeats(w.allocations)
    && (forall id :: id in w.allocations ==> id in w.entries)
    && (w.reserving.Some? ==> w.reserving.value in w.entries && w.reserving.value !in w.allocations)
  }

  /** An entry's intent never changes, its binding and receipt are fixed once set, and its state only advances. */
  ghost predicate EntryForward(a: Entry, b: Entry) {
    && b.intent == a.intent
    && (a.binding.Some? ==> b.binding == a.binding)
    && (a.receipt.Some? ==> b.receipt == a.receipt)
    && (a.state == Bound ==> b.state != Reserved)
    && (a.state == Included ==> b.state == Included)
  }

  ghost predicate Forward(a: World, b: World) {
    && b.register == a.register
    && a.allocations <= b.allocations
    && forall id :: id in a.entries ==> id in b.entries && EntryForward(a.entries[id], b.entries[id])
  }

  lemma OriginalsOfEntry(entries: map<ChangeId, Entry>, later: map<ChangeId, Entry>, allocations: seq<ChangeId>, originals: map<Path, OriginalStore>,
                         id: ChangeId)
    requires OriginalsKept(entries, allocations, originals)
    requires forall k :: k in entries && k != id ==> k in later && later[k] == entries[k]
    requires forall path :: path in originals && originals[path].intent.identity.change == id ==> OriginalKept(later, allocations, path, originals[path])
    ensures OriginalsKept(later, allocations, originals)
  {
    forall path | path in originals ensures OriginalKept(later, allocations, path, originals[path]) {
      assert OriginalKept(entries, allocations, path, originals[path]);
    }
  }

  lemma OneOriginalChanged(w: World, id: ChangeId, o: OriginalStore)
    requires Sound(w) && Opens(w, id) && OriginalKept(w.entries, w.allocations, w.entries[id].intent.path, o)
    ensures Sound(WithOriginal(w, id, o)) && Forward(w, WithOriginal(w, id, o))
  {
  }

  /** A start submitted again finds its own operation: the fixed intent and the first request leave it nothing to append. */
  lemma StartedIsKnown(w: World, id: ChangeId)
    requires Sound(w) && Opens(w, id)
    ensures StartAdmitted(OpenedBy(w, id), w.entries[id].intent.start)
    ensures OpenedBy(w, id).requests != [] ==> w.entries[id].intent.start.typed.operation.id in OpenedBy(w, id).ledger.records
    ensures HoldsRequests(OpenedBy(w, id))
  {
    hide Sound;
    OriginalAt(w, id);
    IntentChecked(w, id);
  }

  lemma IntentChecked(w: World, id: ChangeId)
    requires Sound(w) && id in w.entries
    ensures w.entries[id].intent.Checked()
  {
    assert EntryKept(w.register, id, w.entries[id]);
  }

  lemma StartKeeps(w: World, id: ChangeId, o: OriginalStore)
    requires Sound(w) && CanStart(w, id) && Submits(OpenedBy(w, id), w.entries[id].intent.start, o)
    ensures Sound(WithOriginal(w, id, o)) && Forward(w, WithOriginal(w, id, o))
    ensures OpenedBy(w, id).requests != [] ==> WithOriginal(w, id, o) == w
  {
    hide Sound;
    OriginalAt(w, id);
    StartedIsKnown(w, id);
    SubmitsHolds(OpenedBy(w, id), w.entries[id].intent.start, o);
    hide HoldsRequests;
    assert OpenedBy(w, id).requests != [] ==> w.originals[w.entries[id].intent.path := OpenedBy(w, id)] == w.originals;
    OneOriginalChanged(w, id, o);
  }

  lemma StepKeeps(a: World, e: Event, b: World)
    requires Sound(a) && Step(a, e, b)
    ensures Sound(b) && Forward(a, b)
  {
    hide Submits, HoldsRequests, Sound, Forward, Opens, StartAdmitted, ReceiptFits;
    match e
    case Reserve(intent) => ReserveKeeps(a, intent);
    case Allocate(id, binding) => AllocateKeeps(a, id, binding);
    case Bind(id) => BindKeeps(a, id);
    case Provision(id) => ProvisionKeeps(a, id);
    case Start(id, o) => StartKeeps(a, id, o);
    case Include(id) => IncludeKeeps(a, id);
    case Activate(id) => ActivateKeeps(a, id);
    case Append(path, request, o) => AppendKeeps(a, path, request, o);
    case Return => ReturnKeeps(a);
    case Lose(path) => LoseKeeps(a, path);
  }

  lemma ProvisionKeeps(w: World, id: ChangeId)
    requires Sound(w) && CanProvision(w, id)
    ensures var b := WithOriginal(w, id, OpenedBy(w, id).(provisioned := true)); Sound(b) && Forward(w, b)
  {
    hide Sound;
    OriginalAt(w, id);
    OneOriginalChanged(w, id, OpenedBy(w, id).(provisioned := true));
  }

  lemma ActivateKeeps(w: World, id: ChangeId)
    requires Sound(w) && CanActivate(w, id)
    ensures var b := WithOriginal(w, id, OpenedBy(w, id).(activation := w.entries[id].receipt)); Sound(b) && Forward(w, b)
  {
    hide Sound;
    OriginalAt(w, id);
    OneOriginalChanged(w, id, OpenedBy(w, id).(activation := w.entries[id].receipt));
  }

  lemma ReturnKeeps(w: World)
    requires Sound(w)
    ensures Sound(w.(reserving := None)) && Forward(w, w.(reserving := None))
  {
    hide HoldsRequests, OriginalKept;
  }

  lemma LoseKeeps(w: World, path: Path)
    requires Sound(w)
    ensures Sound(w.(originals := w.originals - {path})) && Forward(w, w.(originals := w.originals - {path}))
  {
    hide HoldsRequests, OriginalKept;
  }

  lemma OriginalAt(w: World, id: ChangeId)
    requires Sound(w) && Opens(w, id)
    ensures OriginalKept(w.entries, w.allocations, w.entries[id].intent.path, OpenedBy(w, id))
    ensures OpenedBy(w, id).intent == w.entries[id].intent && w.entries[id].intent.identity.change == id
  {
    assert EntryKept(w.register, id, w.entries[id]);
  }

  lemma ReserveKeeps(a: World, intent: CreationIntent)
    requires Sound(a) && CanReserve(a, intent)
    ensures Sound(Reserving(a, intent)) && Forward(a, Reserving(a, intent))
  {
    var b := Reserving(a, intent);
    OriginalsOfEntry(a.entries, b.entries, a.allocations, a.originals, intent.identity.change);
  }

  lemma AllocateKeeps(a: World, id: ChangeId, binding: Binding)
    requires Sound(a) && CanAllocate(a, id)
    ensures Sound(Allocating(a, id, binding)) && Forward(a, Allocating(a, id, binding))
  {
    var b := Allocating(a, id, binding);
    assert HoldsRequests(Allocated(a.entries[id].intent, binding));
    hide HoldsRequests;
    assert EntryKept(a.register, id, a.entries[id]);
    forall path | path in b.originals ensures OriginalKept(b.entries, b.allocations, path, b.originals[path]) {
      assert path in a.originals ==> OriginalKept(a.entries, a.allocations, path, a.originals[path]);
    }
  }

  lemma BindKeeps(a: World, id: ChangeId)
    requires Sound(a) && CanBind(a, id)
    ensures Sound(WithBinding(a, id)) && Forward(a, WithBinding(a, id))
  {
    hide HoldsRequests;
    var b := WithBinding(a, id);
    assert EntryKept(a.register, id, a.entries[id]);
    forall path | path in a.originals && a.originals[path].intent.identity.change == id
      ensures OriginalKept(b.entries, b.allocations, path, a.originals[path])
    {
      assert OriginalKept(a.entries, a.allocations, path, a.originals[path]);
    }
    OriginalsOfEntry(a.entries, b.entries, a.allocations, a.originals, id);
  }

  lemma IncludeKeeps(a: World, id: ChangeId)
    requires Sound(a) && CanInclude(a, id)
    ensures Sound(Including(a, id)) && Forward(a, Including(a, id))
  {
    hide HoldsRequests;
    var b := Including(a, id);
    assert EntryKept(a.register, id, a.entries[id]);
    forall path | path in a.originals && a.originals[path].intent.identity.change == id
      ensures OriginalKept(b.entries, b.allocations, path, a.originals[path])
    {
      assert OriginalKept(a.entries, a.allocations, path, a.originals[path]);
    }
    OriginalsOfEntry(a.entries, b.entries, a.allocations, a.originals, id);
  }

  lemma AppendKeeps(a: World, path: Path, request: PreparedRequest, o: OriginalStore)
    requires Sound(a) && path in a.originals && a.originals[path].activation.Some? && Submits(a.originals[path], request, o)
    ensures var b := a.(originals := a.originals[path := o]); Sound(b) && Forward(a, b)
  {
    assert OriginalKept(a.entries, a.allocations, path, a.originals[path]);
    SubmitsHolds(a.originals[path], request, o);
    hide HoldsRequests;
  }

  // ----- whole runs

  ghost predicate Starts(w: World) {
    w.entries == map[] && w.originals == map[] && w.reserving.None? && w.allocations == []
  }

  ghost predicate Run(worlds: seq<World>, events: seq<Event>) {
    && |worlds| == |events| + 1
    && Starts(worlds[0])
    && forall i, j {:trigger worlds[i], worlds[j]} :: 0 <= i < |events| && j == i + 1 ==> Step(worlds[i], events[i], worlds[j])
  }

  lemma {:induction false} RunsAreSound(worlds: seq<World>, events: seq<Event>, i: nat)
    requires Run(worlds, events) && i < |worlds|
    ensures Sound(worlds[i])
  {
    hide Step, Sound;
    if i > 0 {
      RunsAreSound(worlds, events, i - 1);
      StepKeeps(worlds[i - 1], events[i - 1], worlds[i]);
    } else {
      StartsSound(worlds[0]);
    }
  }

  lemma StartsSound(w: World)
    requires Starts(w)
    ensures Sound(w)
  {
  }

  /** Over all crashes and retries an entry only advances, with a fixed intent, binding and receipt. */
  lemma {:induction false} EntriesOnlyAdvance(worlds: seq<World>, events: seq<Event>, i: nat, j: nat)
    requires Run(worlds, events) && i <= j < |worlds|
    ensures Forward(worlds[i], worlds[j])
    decreases j - i
  {
    hide Step, Sound;
    if i < j {
      EntriesOnlyAdvance(worlds, events, i, j - 1);
      RunsAreSound(worlds, events, j - 1);
      StepKeeps(worlds[j - 1], events[j - 1], worlds[j]);
    }
  }

  /** An identity is allocated at most once in a run. */
  lemma AllocatedAtMostOnce(worlds: seq<World>, events: seq<Event>, i: nat, j: nat)
    requires Run(worlds, events) && i < j < |events|
    requires events[i].Allocate? && events[j].Allocate?
    ensures events[i].id != events[j].id
  {
    hide Sound;
    RunsAreSound(worlds, events, j);
    EntriesOnlyAdvance(worlds, events, i + 1, j);
    assert Step(worlds[i], events[i], worlds[i + 1]) && Step(worlds[j], events[j], worlds[j + 1]);
    var n := |worlds[i].allocations|;
    assert worlds[i + 1].allocations[n] == events[i].id;
    assert worlds[j].allocations[n] == events[i].id;
    OnlyTheReservedOne(worlds[j]);
  }

  lemma OnlyTheReservedOne(w: World)
    requires Sound(w)
    ensures w.reserving.Some? ==> w.reserving.value !in w.allocations
  {
  }

  /** Included: the original bound to the entry starts with the intent's own start; active: by this entry's receipt; and nothing follows the start before that. */
  lemma IncludedIsStarted(worlds: seq<World>, events: seq<Event>, i: nat, id: ChangeId)
    requires Run(worlds, events) && i < |worlds| && Opens(worlds[i], id)
    ensures var e, o := worlds[i].entries[id], OpenedBy(worlds[i], id);
            && (e.state == Included ==> o.requests != [] && o.requests[0] == e.intent.start)
            && (o.activation.Some? ==> e.state == Included && o.activation == e.receipt == Some(Receipt(e.intent, o.binding)))
            && (|o.requests| > 1 ==> o.activation.Some?)
  {
    RunsAreSound(worlds, events, i);
    OriginalAt(worlds[i], id);
    assert EntryKept(worlds[i].register, id, worlds[i].entries[id]);
  }

  /** However often a call submits the start again, at whatever stage and with whatever answers: once it is there nothing more is appended by it. */
  lemma RetriedStartAppendsNothing(worlds: seq<World>, events: seq<Event>, i: nat)
    requires Run(worlds, events) && i < |events| && events[i].Start?
    requires Opens(worlds[i], events[i].started) && OpenedBy(worlds[i], events[i].started).requests != []
    ensures worlds[i + 1] == worlds[i]
  {
    hide Sound, Submits, StartAdmitted;
    RunsAreSound(worlds, events, i);
    assert Step(worlds[i], events[i], worlds[i + 1]);
    StartKeeps(worlds[i], events[i].started, events[i].starting);
  }

  // ----- one call

  /** A guarded mutation of either store ends in one of the three landings: its row is there or not, whole, and it is reported done only if there. */
  lemma MutationsLand(a: C.World, row: C.Row, after: W.Cut, reply: C.MutateReply, b: C.World) returns (landing: Landing)
    requires C.Sound(a) && C.MutateStep(a, row, after, reply, b)
    ensures landing == Lands <==> reply.Accepted?
    ensures b.database.Readable()
    ensures b.database.Contents() == if landing == Misses then a.database.Contents() else C.Snapshot(after, a.database.Contents().rows + [row])
  {
    hide C.MutateStep;
    C.MutationLands(a, row, after, reply, b);
    landing := if reply.Accepted? then Lands else if b.database == a.database then Misses else LandsUnseen;
  }

  datatype ReconcileFaults = ReconcileFaults(reserve: Landing, allocate: Landing, bind: Landing, provision: Landing, start: Landing,
                                             inclusion: Landing, activate: Landing)

  const NO_FAULTS := ReconcileFaults(Lands, Lands, Lands, Lands, Lands, Lands, Lands)

  datatype ReconcileError = NotIssuer | BadIntent | OtherIntent | BlockedOrphan | Interrupted | Inconsistent | NotStarted | NotShown

  datatype CreationProgress =
    | Failed(error: ReconcileError)
    | PendingInclusion(accepted: Accepted)
    | PendingActivation(accepted: Accepted)
    | Ready(receipt: Receipt, accepted: Accepted)

  lemma RunExtended(worlds: seq<World>, events: seq<Event>, e: Event, w: World)
    requires Run(worlds, events) && Step(worlds[|worlds| - 1], e, w)
    ensures Run(worlds + [w], events + [e])
  {
    hide Step;
    var more, all := worlds + [w], events + [e];
    forall i, j | 0 <= i < |all| && j == i + 1 ensures Step(more[i], all[i], more[j]) {
      assert i < |events| ==> Step(worlds[i], events[i], worlds[j]);
    }
  }

  class Registry {
    const register: Binding
    var entries: map<ChangeId, Entry>
    var originals: map<Path, OriginalStore>
    ghost var reserving: Option<ChangeId>
    ghost var allocations: seq<ChangeId>
    ghost var worlds: seq<World>
    ghost var events: seq<Event>

    ghost function View(): World
      reads this
    {
      World(register, entries, originals, reserving, allocations)
    }

    /** The recorded history is a run that ends here. */
    ghost predicate Valid()
      reads this
    {
      Run(worlds, events) && worlds[|worlds| - 1] == View()
    }

    constructor (register: Binding)
      ensures Valid() && entries == map[] && originals == map[]
    {
      this.register := register;
      entries, originals := map[], map[];
      reserving, allocations := None, [];
      worlds, events := [World(register, map[], map[], None, [])], [];
    }

    /** Makes one durable step, unless it misses. */
    method Take(ghost e: Event, entries: map<ChangeId, Entry>, originals: map<Path, OriginalStore>, ghost reserving: Option<ChangeId>,
                ghost allocations: seq<ChangeId>, landing: Landing)
      returns (seen: bool)
      requires Valid() && Step(View(), e, World(register, entries, originals, reserving, allocations))
      modifies this
      ensures Valid() && old(worlds) <= worlds && seen == (landing == Lands)
      ensures landing != Misses ==> View() == World(register, entries, originals, reserving, allocations)
      ensures landing == Misses ==> View() == old(View())
    {
      if landing != Misses {
        RunExtended(worlds, events, e, World(register, entries, originals, reserving, allocations));
        this.entries, this.originals := entries, originals;
        this.reserving, this.allocations := reserving, allocations;
        worlds, events := worlds + [View()], events + [e];
      }
      seen := landing == Lands;
    }

    method ReserveNew(incoming: CreationIntent, landing: Landing) returns (seen: bool)
      requires Valid() && CanReserve(View(), incoming)
      modifies this
      ensures Valid() && old(worlds) <= worlds && seen == (landing == Lands)
      ensures seen ==> View() == Reserving(old(View()), incoming)
    {
      var id := incoming.identity.change;
      seen := Take(Reserve(incoming), entries[id := Entry(incoming, Reserved, None, None)], originals, Some(id), allocations, landing);
    }

    method AllocateNew(id: ChangeId, binding: Binding, landing: Landing) returns (seen: bool)
      requires Valid() && CanAllocate(View(), id)
      modifies this
      ensures Valid() && old(worlds) <= worlds && seen == (landing == Lands)
      ensures seen ==> View() == Allocating(old(View()), id, binding)
    {
      var intent := entries[id].intent;
      seen := Take(Allocate(id, binding), entries, originals[intent.path := Allocated(intent, binding)], None,
                   allocations + [id], landing);
    }

    method BindEntry(id: ChangeId, landing: Landing) returns (seen: bool)
      requires Valid() && CanBind(View(), id)
      modifies this
      ensures Valid() && old(worlds) <= worlds && seen == (landing == Lands)
      ensures seen ==> View() == WithBinding(old(View()), id)
    {
      var e := entries[id];
      seen := Take(Bind(id), entries[id := e.(state := Bound, binding := Some(originals[e.intent.path].binding))], originals, reserving,
                   allocations, landing);
    }

    method ChangeOriginal(ghost e: Event, id: ChangeId, o: OriginalStore, landing: Landing) returns (seen: bool)
      requires Valid() && Opens(View(), id) && Step(View(), e, WithOriginal(View(), id, o))
      modifies this
      ensures Valid() && old(worlds) <= worlds && seen == (landing == Lands)
      ensures seen ==> View() == WithOriginal(old(View()), id, o)
      ensures View() == old(View()) || View() == WithOriginal(old(View()), id, o)
      ensures entries == old(entries)
    {
      seen := Take(e, entries, originals[entries[id].intent.path := o], reserving, allocations, landing);
    }

    method IncludeEntry(id: ChangeId, landing: Landing) returns (seen: bool)
      requires Valid() && CanInclude(View(), id)
      modifies this
      ensures Valid() && old(worlds) <= worlds && seen == (landing == Lands)
      ensures seen ==> View() == Including(old(View()), id)
      ensures View() == old(View()) || View() == Including(old(View()), id)
    {
      var e := entries[id];
      seen := Take(Include(id), entries[id := e.(state := Included, receipt := Some(Receipt(e.intent, e.binding.value)))], originals,
                   reserving, allocations, landing);
    }

    /** Finds or makes the store of an unbound entry and binds it. */
    method AllocateAndBind(id: ChangeId, reservedNow: bool, binding: Binding, faults: ReconcileFaults) returns (error: Option<ReconcileError>)
      requires Valid() && id in entries && entries[id].state == Reserved
      requires reservedNow ==> reserving == Some(id)
      modifies this
      ensures Valid() && old(worlds) <= worlds
      ensures error.None? ==> Opens(View(), id)
      ensures error.None? && reservedNow && old(entries[id].intent.path !in originals) && NewState(old(entries)[id].intent.identity).Ok? ==>
                OpenedBy(View(), id) == Allocated(old(entries)[id].intent, binding) && entries[id].intent == old(entries)[id].intent
      ensures faults == NO_FAULTS && reservedNow && old(entries[id].intent.path !in originals) ==> error.None?
    {
      hide Run, Sound;
      LastIsSound(worlds, events);
      IntentChecked(View(), id);
      var intent := entries[id].intent;
      if intent.path !in originals {
        if !reservedNow {
          return Some(BlockedOrphan);
        }
        var made := AllocateNew(id, binding, faults.allocate);
        if !made {
          return Some(Interrupted);
        }
      } else if originals[intent.path].intent != intent || originals[intent.path].provisioned {
        return Some(BlockedOrphan);
      }
      LastIsSound(worlds, events);
      BoundOpens(View(), id);
      var bound := BindEntry(id, faults.bind);
      error := if bound then None else Some(Interrupted);
    }

    /** Makes the bound store ready to be submitted to. */
    method ProvisionBound(id: ChangeId, landing: Landing) returns (error: Option<ReconcileError>)
      requires Valid() && Opens(View(), id)
      modifies this
      ensures Valid() && old(worlds) <= worlds && entries == old(entries)
      ensures error.None? ==> Opens(View(), id) && OpenedBy(View(), id) == old(OpenedBy(View(), id)).(provisioned := true)
      ensures landing == Lands ==> error.None?
    {
      hide Run, Sound;
      var path := entries[id].intent.path;
      if !originals[path].provisioned {
        var provisioned := ChangeOriginal(Provision(id), id, originals[path].(provisioned := true), landing);
        if !provisioned {
          return Some(Interrupted);
        }
      }
      error := None;
    }

    /** Submits the retained start, on every call; only the first one that lands appends. */
    method StartOriginal(id: ChangeId, ports: Ports, landing: Landing) returns (error: Option<ReconcileError>)
      requires Valid() && Opens(View(), id) && OpenedBy(View(), id).provisioned
      modifies this
      ensures Valid() && old(worlds) <= worlds && entries == old(entries)
      ensures old(OpenedBy(View(), id)).requests != [] ==> View() == old(View())
      ensures error.None? ==> Opens(View(), id) && OpenedBy(View(), id).requests != []
      ensures error.None? ==> OpenedBy(View(), id) == Submitted(old(OpenedBy(View(), id)), entries[id].intent.start, ports)
      ensures landing == Lands ==> (error.None? <==> Answer(old(OpenedBy(View(), id)), entries[id].intent.start, ports).Answered?)
    {
      hide Run, Sound, Execution, HoldsRequests, StartAdmitted, Submits;
      var path := entries[id].intent.path;
      var o, request := originals[path], entries[id].intent.start;
      LastIsSound(worlds, events);
      StartedIsKnown(View(), id);
      SubmissionJoins(o.ledger, request.typed, ports);
      SubmittedSubmits(o, request, ports);
      SubmitsHolds(o, request, Submitted(o, request, ports));
      var e := Execution(o.ledger, false, request.typed, ports, AcceptedNow);
      if e.committed.None? {
        return if e.reply.Answered? then None else Some(NotStarted);
      }
      var seen := ChangeOriginal(Start(id, Submitted(o, request, ports)), id, o.(ledger := e.ledger, requests := o.requests + [request]), landing);
      error := if seen then None else Some(Interrupted);
    }

    /** What the start was answered, shown again by an exact retry that cannot append. */
    method ResolveStart(id: ChangeId, ports: Ports) returns (r: Option<Accepted>)
      requires Valid() && Opens(View(), id) && OpenedBy(View(), id).requests != []
      ensures r.Some? <==> Answer(OpenedBy(View(), id), entries[id].intent.start, ports).Answered?
      ensures r.Some? ==> ShownFor(View(), id, r.value)
    {
      hide Run, Sound, Execution, HoldsRequests;
      var o, request := originals[entries[id].intent.path], entries[id].intent.start;
      LastIsSound(worlds, events);
      StartIsRecorded(View(), id);
      SubmissionJoins(o.ledger, request.typed, ports);
      var e := Execution(o.ledger, false, request.typed, ports, AcceptedNow);
      r := if e.reply.Answered? then Some(e.reply.accepted) else None;
    }

    /** Records the inclusion, then activates the original by the same receipt. */
    method IncludeAndActivate(id: ChangeId, ports: Ports, faults: ReconcileFaults) returns (r: CreationProgress)
      requires Valid() && Opens(View(), id) && OpenedBy(View(), id).requests != []
      modifies this
      ensures Valid() && old(worlds) <= worlds
      ensures r.Ready? ==> Activated(View(), id, r.receipt)
      ensures !r.Failed? ==> ShownFor(View(), id, r.accepted)
      ensures faults == NO_FAULTS && Answer(old(OpenedBy(View(), id)), old(entries)[id].intent.start, ports).Answered? ==> r.Ready?
    {
      hide Run, Sound, Execution, HoldsRequests;
      var path := entries[id].intent.path;
      LastIsSound(worlds, events);
      BoundMayBeIncluded(View(), id);
      if entries[id].state == Bound {
        var included := IncludeEntry(id, faults.inclusion);
        if !included {
          var answered := ResolveStart(id, ports);
          return if answered.Some? then PendingInclusion(answered.value) else Failed(NotShown);
        }
      }
      LastIsSound(worlds, events);
      IncludedMayBeActive(View(), id);
      var active := true;
      if originals[path].activation.None? {
        active := ChangeOriginal(Activate(id), id, originals[path].(activation := entries[id].receipt), faults.activate);
      }
      var shown := ResolveStart(id, ports);
      r := match shown
        case None => Failed(NotShown)
        case Some(accepted) => if active then Ready(entries[id].receipt.value, accepted) else PendingActivation(accepted);
    }

    /** Creates, or resumes creating, exactly the original of an intent; every durable state it passes through is a step of a run. */
    method Reconcile(incoming: CreationIntent, binding: Binding, ports: Ports, faults: ReconcileFaults) returns (r: CreationProgress)
      requires Valid()
      modifies this
      ensures Valid() && old(worlds) <= worlds
      ensures r.Ready? ==> Activated(View(), incoming.identity.change, r.receipt) && r.receipt.intent.Same(incoming)
      ensures !r.Failed? ==> ShownFor(View(), incoming.identity.change, r.accepted)
      ensures faults == NO_FAULTS && CanReserve(old(View()), incoming) && incoming.path !in old(originals) && StartsWell(incoming, binding, ports)
              ==> r.Ready?
    {
      hide Run, Sound, StartsWell, Activated, ShownFor;
      if !incoming.Checked() {
        return Failed(BadIntent);
      }
      if incoming.issuer != register {
        return Failed(NotIssuer);
      }
      var id := incoming.identity.change;
      var reservedNow := id !in entries;
      if reservedNow {
        var seen := ReserveNew(incoming, faults.reserve);
        if !seen {
          return Failed(Interrupted);
        }
      } else if !entries[id].intent.Same(incoming) {
        return Failed(OtherIntent);
      }
      r := Resume(id, reservedNow, binding, ports, faults);
    }

    /** From a reservation, whatever stage it has reached, to an active original. */
    method Resume(id: ChangeId, reservedNow: bool, binding: Binding, ports: Ports, faults: ReconcileFaults) returns (r: CreationProgress)
      requires Valid() && id in entries && (reservedNow ==> reserving == Some(id) && entries[id].state == Reserved)
      modifies this
      ensures Valid() && old(worlds) <= worlds
      ensures r.Ready? ==> Activated(View(), id, r.receipt) && r.receipt.intent == old(entries)[id].intent
      ensures !r.Failed? ==> ShownFor(View(), id, r.accepted)
      ensures faults == NO_FAULTS && reservedNow && old(entries[id].intent.path !in originals) && old(entries)[id].intent.Checked()
              && StartsWell(old(entries)[id].intent, binding, ports)
              ==> r.Ready?
    {
      hide Run, Sound, Execution, HoldsRequests, Submitted, Allocated, ShownFor;
      ghost var before := worlds;
      RunNotEmpty(worlds, events);
      var stopped := OpenBound(id, reservedNow, binding, faults);
      if stopped.Some? {
        return Failed(stopped.value);
      }
      ghost var bound := OpenedBy(View(), id);
      stopped := StartOriginal(id, ports, faults.start);
      if stopped.Some? {
        return Failed(stopped.value);
      }
      r := IncludeAndActivate(id, ports, faults);
      IntentKept(before, worlds, events, id);
    }

    /** The bound store of an entry, found or made, and ready to be submitted to. */
    method OpenBound(id: ChangeId, reservedNow: bool, binding: Binding, faults: ReconcileFaults) returns (error: Option<ReconcileError>)
      requires Valid() && id in entries && (reservedNow ==> reserving == Some(id) && entries[id].state == Reserved)
      modifies this
      ensures Valid() && old(worlds) <= worlds
      ensures error.None? ==> Opens(View(), id) && OpenedBy(View(), id).provisioned
      ensures error.None? && reservedNow && old(entries[id].intent.path !in originals) && NewState(old(entries)[id].intent.identity).Ok? ==>
                OpenedBy(View(), id) == Allocated(old(entries)[id].intent, binding).(provisioned := true) && entries[id].intent == old(entries)[id].intent
      ensures faults == NO_FAULTS && reservedNow && old(entries[id].intent.path !in originals) ==> error.None?
    {
      hide Run, Sound;
      error := None;
      if entries[id].state == Reserved {
        error := AllocateAndBind(id, reservedNow, binding, faults);
      } else if !OpensNow(id) {
        error := Some(Inconsistent);
      }
      if error.None? {
        error := ProvisionBound(id, faults.provision);
      }
    }

    /** Whether the store at a bound entry's path is the one it was bound to. */
    predicate OpensNow(id: ChangeId)
      reads this
    {
      && id in entries && entries[id].state != Reserved && entries[id].intent.path in originals
      && var o := originals[entries[id].intent.path];
      && o.intent.identity == entries[id].intent.identity && o.intent.issuer == register && entries[id].binding == Some(o.binding)
      && (|o.requests| > 1 ==> o.activation.Some?)
    }
  }

  /** A fresh original accepts the start, and shows it again. */
  predicate StartsWell(intent: CreationIntent, binding: Binding, ports: Ports)
    requires NewState(intent.identity).Ok?
  {
    var o := Allocated(intent, binding).(provisioned := true);
    Answer(o, intent.start, ports).Answered? && Answer(Submitted(o, intent.start, ports), intent.start, ports).Answered?
  }

  lemma LastIsSound(worlds: seq<World>, events: seq<Event>)
    requires Run(worlds, events)
    ensures Sound(worlds[|worlds| - 1])
  {
    RunsAreSound(worlds, events, |worlds| - 1);
  }

  lemma RunNotEmpty(worlds: seq<World>, events: seq<Event>)
    requires Run(worlds, events)
    ensures worlds != []
  {
  }

  /** The original of an included entry is active by the entry's own receipt. */
  ghost predicate Activated(w: World, id: ChangeId, receipt: Receipt) {
    && Opens(w, id) && w.entries[id].state == Included
    && w.entries[id].receipt == Some(receipt) && OpenedBy(w, id).activation == Some(receipt)
    && receipt == Receipt(w.entries[id].intent, OpenedBy(w, id).binding)
  }

  /** The accepted result is the one recorded for the start of the entry's intent. */
  ghost predicate ShownFor(w: World, id: ChangeId, accepted: Accepted) {
    && Opens(w, id)
    && var start := w.entries[id].intent.start.typed.operation.id;
    start in OpenedBy(w, id).ledger.records && accepted == OpenedBy(w, id).ledger.records[start].accepted
  }

  lemma StartIsRecorded(w: World, id: ChangeId)
    requires Sound(w) && Opens(w, id) && OpenedBy(w, id).requests != []
    ensures w.entries[id].intent.start.typed.operation.id in OpenedBy(w, id).ledger.records
  {
    OriginalAt(w, id);
  }

  lemma BoundOpens(w: World, id: ChangeId)
    requires Sound(w) && CanBind(w, id)
    ensures Opens(WithBinding(w, id), id)
  {
    assert EntryKept(w.register, id, w.entries[id]);
  }

  lemma BoundMayBeIncluded(w: World, id: ChangeId)
    requires Sound(w) && Opens(w, id) && OpenedBy(w, id).requests != []
    ensures w.entries[id].state == Bound ==> CanInclude(w, id) && Opens(Including(w, id), id)
  {
    OriginalAt(w, id);
  }

  lemma IncludedMayBeActive(w: World, id: ChangeId)
    requires Sound(w) && Opens(w, id) && w.entries[id].state == Included
    ensures w.entries[id].receipt == Some(Receipt(w.entries[id].intent, OpenedBy(w, id).binding))
    ensures OpenedBy(w, id).activation.None? ==> CanActivate(w, id)
    ensures OpenedBy(w, id).activation.Some? ==> OpenedBy(w, id).activation == w.entries[id].receipt
  {
    OriginalAt(w, id);
    assert EntryKept(w.register, id, w.entries[id]);
  }

  lemma IntentKept(before: seq<World>, worlds: seq<World>, events: seq<Event>, id: ChangeId)
    requires Run(worlds, events) && before != [] && before <= worlds && id in before[|before| - 1].entries
    ensures id in worlds[|worlds| - 1].entries
    ensures worlds[|worlds| - 1].entries[id].intent == before[|before| - 1].entries[id].intent
  {
    hide Step;
    EntriesOnlyAdvance(worlds, events, |before| - 1, |worlds| - 1);
  }
}

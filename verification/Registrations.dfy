/**
 * The register and an original over the commit protocol: what a creation step changes is exactly what one committed row says,
 * so each is read back from the rows of its own database after any crash.
 */
module Registrations {
  import opened Base
  import opened Model
  import opened Records
  import R = Registers
  import C = Commits
  import W = Witnesses

  // ----- a state kept as the writes of a database

  /** A state, the writes behind it, and the store whose rows they are. */
  datatype Logged<S, X> = Logged(state: S, writes: seq<X>, store: C.World)

  ghost function Folded<S, X>(start: S, apply: (S, X) -> S, writes: seq<X>): S {
    if writes == [] then start else apply(Folded(start, apply, writes[..|writes| - 1]), writes[|writes| - 1])
  }

  function RowsOf<X>(encode: X -> C.Row, writes: seq<X>): seq<C.Row> {
    seq(|writes|, i requires 0 <= i < |writes| => encode(writes[i]))
  }

  /** The database holds exactly the rows of the writes, and the state is what they add up to. */
  ghost predicate Mirrors<S, X>(start: S, apply: (S, X) -> S, encode: X -> C.Row, l: Logged<S, X>) {
    && C.Sound(l.store) && l.store.database.Readable()
    && l.store.database.Contents().rows == RowsOf(encode, l.writes)
    && l.state == Folded(start, apply, l.writes)
  }

  /** One mutation: its write is there afterwards or it is not, whatever the caller was told. */
  ghost predicate Writes<S, X>(apply: (S, X) -> S, encode: X -> C.Row, a: Logged<S, X>, x: X, b: Logged<S, X>) {
    && (exists after, reply :: C.MutateStep(a.store, encode(x), after, reply, b.store))
    && encode(x).mutation != W.Provision
    && if b.store.database == a.store.database then b.writes == a.writes && b.state == a.state
       else b.writes == a.writes + [x] && b.state == apply(a.state, x)
  }

  /** Anything else that may happen to a store: openings, checkpoints, closings, crashes, lost logs. */
  ghost predicate Survives<S, X>(a: Logged<S, X>, b: Logged<S, X>) {
    && b.state == a.state && b.writes == a.writes
    && exists e: C.Event :: !e.Mutating? && C.Step(a.store, e, b.store)
  }

  lemma WrittenMirrors<S, X>(start: S, apply: (S, X) -> S, encode: X -> C.Row, a: Logged<S, X>, x: X, b: Logged<S, X>)
    requires Mirrors(start, apply, encode, a) && Writes(apply, encode, a, x, b)
    ensures Mirrors(start, apply, encode, b)
  {
    hide C.MutateStep, C.Sound;
    var after, reply :| C.MutateStep(a.store, encode(x), after, reply, b.store);
    C.MutationLands(a.store, encode(x), after, reply, b.store);
    var e := C.Mutating(encode(x), after, reply);
    assert C.Step(a.store, e, b.store);
    C.StepKeepsSound(a.store, e, b.store);
    if b.store.database != a.store.database {
      assert b.writes[..|a.writes|] == a.writes;
      assert RowsOf(encode, b.writes) == RowsOf(encode, a.writes) + [encode(x)];
    }
  }

  lemma SurvivorMirrors<S, X>(start: S, apply: (S, X) -> S, encode: X -> C.Row, a: Logged<S, X>, b: Logged<S, X>)
    requires Mirrors(start, apply, encode, a) && Survives(a, b)
    ensures Mirrors(start, apply, encode, b) && b.state == a.state
  {
    hide C.Sound, C.Step;
    var e: C.Event :| !e.Mutating? && C.Step(a.store, e, b.store);
    C.StepKeepsSound(a.store, e, b.store);
    SoundReads(b.store);
  }

  lemma SoundReads(w: C.World)
    requires C.Sound(w)
    ensures w.database.Readable()
  {
  }

  /** What a reader of the rows can tell. */
  ghost predicate Inverse<X(!new)>(encode: X -> C.Row, decode: C.Row -> Option<X>) {
    forall x :: decode(encode(x)) == Some(x)
  }

  ghost function ReadBack<X>(decode: C.Row -> Option<X>, rows: seq<C.Row>): seq<X> {
    if rows == [] then []
    else
      var before, last := ReadBack(decode, rows[..|rows| - 1]), decode(rows[|rows| - 1]);
      if last.Some? then before + [last.value] else before
  }

  lemma {:induction false} RowsReadBack<X(!new)>(encode: X -> C.Row, decode: C.Row -> Option<X>, writes: seq<X>)
    requires Inverse(encode, decode)
    ensures ReadBack(decode, RowsOf(encode, writes)) == writes
  {
    if writes != [] {
      var rows := RowsOf(encode, writes);
      assert rows[..|rows| - 1] == RowsOf(encode, writes[..|writes| - 1]);
      RowsReadBack(encode, decode, writes[..|writes| - 1]);
      assert writes == writes[..|writes| - 1] + [writes[|writes| - 1]];
    }
  }

  // ----- the register

  type Entries = map<ChangeId, R.Entry>

  /** What one mutation of the register writes. */
  datatype Write = Reserving(intent: R.CreationIntent) | Binding(bound: ChangeId, binding: R.Binding) | Including(included: ChangeId)

  function Applied(entries: Entries, x: Write): Entries {
    match x
    case Reserving(intent) => entries[intent.identity.change := R.Entry(intent, R.Reserved, None, None)]
    case Binding(id, binding) => if id in entries then entries[id := entries[id].(state := R.Bound, binding := Some(binding))] else entries
    case Including(id) =>
      if id in entries && entries[id].binding.Some?
      then entries[id := entries[id].(state := R.Included, receipt := Some(R.Receipt(entries[id].intent, entries[id].binding.value)))]
      else entries
  }

  /** The mutation of the register that a creation step is, if it is one. */
  function WriteOf(w: R.World, e: R.Event): Option<Write> {
    match e
    case Reserve(intent) => Some(Reserving(intent))
    case Bind(id) => if R.CanBind(w, id) then Some(Binding(id, w.originals[w.entries[id].intent.path].binding)) else None
    case Include(id) => Some(Including(id))
    case _ => None
  }

  /** A creation step changes the register as its one write says, and not at all without one. */
  lemma StepsAreWrites(a: R.World, e: R.Event, b: R.World)
    requires R.Step(a, e, b)
    ensures b.entries == if WriteOf(a, e).Some? then Applied(a.entries, WriteOf(a, e).value) else a.entries
  {
    hide R.Submits, R.StartAdmitted, R.ReceiptFits;
  }

  /** A creation in memory and the register's store under it. */
  datatype Joined = Joined(world: R.World, register: Logged<Entries, Write>)

  datatype Event = Creating(event: R.Event) | Elsewhere

  /** A creation step commits its write, or its write is lost and it did not happen; anything else leaves the entries alone. */
  ghost predicate Step(encode: Write -> C.Row, a: Joined, e: Event, b: Joined) {
    match e
    case Creating(event) =>
      (match WriteOf(a.world, event)
       case Some(x) =>
         && Writes(Applied, encode, a.register, x, b.register)
         && (if b.register.writes == a.register.writes then b.world == a.world else R.Step(a.world, event, b.world))
       case None => R.Step(a.world, event, b.world) && b.register == a.register)
    case Elsewhere => Survives(a.register, b.register) && (b.world == a.world || b.world == a.world.(reserving := None))
  }

  ghost predicate Agrees(encode: Write -> C.Row, j: Joined) {
    Mirrors(map[], Applied, encode, j.register) && j.world.entries == j.register.state && R.Sound(j.world)
  }

  lemma StepAgrees(encode: Write -> C.Row, a: Joined, e: Event, b: Joined)
    requires Agrees(encode, a) && Step(encode, a, e, b)
    ensures Agrees(encode, b)
    ensures b.world == a.world || exists event :: R.Step(a.world, event, b.world)
  {
    hide Mirrors, Survives, R.Sound, R.Step, Applied, C.MutateStep, WriteOf;
    match e
    case Creating(event) =>
      if WriteOf(a.world, event).Some? {
        var x := WriteOf(a.world, event).value;
        WrittenMirrors(map[], Applied, encode, a.register, x, b.register);
        assert |a.register.writes + [x]| > |a.register.writes|;
      }
      if R.Step(a.world, event, b.world) {
        StepsAreWrites(a.world, event, b.world);
        R.StepKeeps(a.world, event, b.world);
      }
    case Elsewhere =>
      SurvivorMirrors(map[], Applied, encode, a.register, b.register);
      if b.world != a.world {
        Forgets(a.world);
      }
  }

  lemma Forgets(w: R.World)
    requires R.Sound(w)
    ensures R.Step(w, R.Return, w.(reserving := None)) && R.Sound(w.(reserving := None))
  {
    R.ReturnKeeps(w);
  }

  ghost predicate Run(encode: Write -> C.Row, joins: seq<Joined>, events: seq<Event>) {
    && |joins| == |events| + 1
    && Agrees(encode, joins[0]) && R.Starts(joins[0].world)
    && forall i, j {:trigger joins[i], joins[j]} :: 0 <= i < |events| && j == i + 1 ==> Step(encode, joins[i], events[i], joins[j])
  }

  lemma {:induction false} RunsAgree(encode: Write -> C.Row, joins: seq<Joined>, events: seq<Event>, i: nat)
    requires Run(encode, joins, events) && i < |joins|
    ensures Agrees(encode, joins[i])
  {
    hide Agrees, Step;
    if i > 0 {
      RunsAgree(encode, joins, events, i - 1);
      StepAgrees(encode, joins[i - 1], events[i - 1], joins[i]);
    }
  }

  /** Over all crashes, lost mutations and reopenings the entries are what the rows of the register's database add up to. */
  lemma EntriesAreReadBack(encode: Write -> C.Row, decode: C.Row -> Option<Write>, joins: seq<Joined>, events: seq<Event>, i: nat)
    requires Run(encode, joins, events) && i < |joins| && Inverse(encode, decode)
    ensures joins[i].register.store.database.Readable()
    ensures joins[i].world.entries == Folded(map[], Applied, ReadBack(decode, joins[i].register.store.database.Contents().rows))
  {
    hide Run, Applied, Folded;
    RunsAgree(encode, joins, events, i);
    RowsReadBack(encode, decode, joins[i].register.writes);
  }

  // ----- an original

  /** What one mutation of an original writes. */
  datatype OriginalWrite = Requesting(request: R.PreparedRequest) | Activating(receipt: R.Receipt)

  datatype Trail = Trail(requests: seq<R.PreparedRequest>, activation: Option<R.Receipt>)

  function Recorded(s: Trail, x: OriginalWrite): Trail {
    match x
    case Requesting(request) => s.(requests := s.requests + [request])
    case Activating(receipt) => s.(activation := Some(receipt))
  }

  function TrailAt(w: R.World, path: R.Path): Trail {
    if path in w.originals then Trail(w.originals[path].requests, w.originals[path].activation) else Trail([], None)
  }

  /** The original's mutation that a creation step or a submission is, if it changes anything. */
  function OriginalWriteOf(a: R.World, e: R.Event, path: R.Path): Option<OriginalWrite> {
    match e
    case Start(id, o) =>
      if R.Opens(a, id) && a.entries[id].intent.path == path && o != R.OpenedBy(a, id) then Some(Requesting(a.entries[id].intent.start)) else None
    case Append(p, request, o) => if p == path && p in a.originals && o != a.originals[p] then Some(Requesting(request)) else None
    case Activate(id) =>
      if R.Opens(a, id) && a.entries[id].intent.path == path && a.entries[id].receipt.Some? then Some(Activating(a.entries[id].receipt.value)) else None
    case _ => None
  }

  /** Each step changes an original that stays in storage as one write says, and not at all without one. */
  lemma OriginalStepsAreWrites(a: R.World, e: R.Event, b: R.World, path: R.Path)
    requires R.Step(a, e, b) && path in a.originals && path in b.originals
    ensures TrailAt(b, path)
         == if OriginalWriteOf(a, e, path).Some? then Recorded(TrailAt(a, path), OriginalWriteOf(a, e, path).value) else TrailAt(a, path)
  {
    hide R.StartAdmitted, R.ReceiptFits;
  }
}

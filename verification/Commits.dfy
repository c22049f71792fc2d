/** The two-phase commit protocol over a durable witness and a durable database, with crashes at every cut. */
module Commits {
  import opened Base
  import opened Model
  import opened Witnesses

  /** One committed write: which mutation it was and its exact request. */
  datatype Row = Row(mutation: Mutation, request: Bytes)

  /** A readable database: its head and the writes it holds, in order. */
  datatype Snapshot = Snapshot(head: Cut, rows: seq<Row>)

  datatype Wal = Wal(inode: Object, latest: Option<Snapshot>)

  /** The main file, unreadable by itself after a partial checkpoint, and the log over it. */
  datatype Database = Database(main: Option<Snapshot>, wal: Option<Wal>, shm: Option<Object>) {
    predicate Readable() {
      main.Some? || (wal.Some? && wal.value.latest.Some?)
    }

    /** What the database says when it is read with its log. */
    function Contents(): Snapshot
      requires Readable()
    {
      if wal.Some? && wal.value.latest.Some? then wal.value.latest.value else main.value
    }

    predicate Complete() {
      Readable() && main == Some(Contents())
    }

    function Objects(): Journals {
      Journals(if wal.Some? then Some(wal.value.inode) else None, shm)
    }

    /** A commit appends to the log. */
    function Committed(s: Snapshot): Database
      requires wal.Some?
    {
      this.(wal := Some(wal.value.(latest := Some(s))))
    }

    /** Opening a connection creates the log and its index where they are missing. */
    function Connected(walObject: Object, shmObject: Object): Database {
      this.(wal := if wal.Some? then wal else Some(Wal(walObject, None)), shm := if shm.Some? then shm else Some(shmObject))
    }

    /** A checkpoint copies the log into the main file, completely or in part. */
    function Checkpointed(whole: bool): Database
      requires Readable()
    {
      if whole then this.(main := Some(Contents()))
      else if wal.Some? && wal.value.latest.Some? then this.(main := None)
      else this
    }
  }

  /** The process that holds the writer lease. */
  datatype Memory = Memory(held: Witness, connected: bool, fenced: bool)

  datatype World = World(control: Witness, database: Database, handle: Option<Memory>)

  // ----- the witnesses of one mutation

  function WithPrepared(w: Witness, row: Row, after: Cut): Witness {
    Numbered(w, w.(pending := Some(Pending(Prepared, row.mutation, after, row.request))))
  }

  function MadePossible(w: Witness): Witness
    requires w.pending.Some?
  {
    Numbered(w, w.(pending := Some(w.pending.value.(stage := CommitPossible))))
  }

  function Finished(w: Witness): Witness
    requires w.pending.Some?
  {
    Numbered(w, w.(cut := w.pending.value.after, pending := None))
  }

  // ----- the witnesses of one opening

  /** The cut a witness settles on when the database says `head`; no witness when it cannot. */
  function SettledCut(w: Witness, head: Cut): Result<Witness, StoreError> {
    match w.pending
    case None => if head == w.cut then Ok(w) else Err(Corrupt)
    case Some(p) =>
      match p.stage
      case Prepared => if head == w.cut then Ok(Numbered(w, w.(pending := None))) else Err(Corrupt)
      case CommitPossible =>
        if head == w.cut then Err(Uncertain)
        else if head == p.after then Ok(Finished(w))
        else Err(Corrupt)
  }

  /** Whether the main file alone is inspected, which a missing log allows in three phases. */
  predicate MainAlone(w: Witness, d: Database) {
    || (w.phase == Clean && d.wal.None?)
    || (w.phase == PreparingOpen && w.journals.wal.None?)
    || (w.phase == Closing && d.wal.None?)
  }

  /** The journals on disk are the ones the witness knows, as far as its phase allows a difference. */
  predicate JournalsKnown(w: Witness, d: Database, main: bool) {
    if main then
      && (w.phase == Clean || w.phase == Closing || w.phase == PreparingOpen)
      && (w.journals.wal.Some? && d.wal.Some? ==> d.Objects().wal == w.journals.wal)
      && !(w.phase == PreparingOpen && w.journals.wal.Some?)
    else
      match w.phase
      case Preparing => true
      case Clean => d.wal.Some? ==> d.Objects().wal == w.journals.wal
      case _ => w.journals.wal.Some? && d.Objects().wal == w.journals.wal
  }

  /** Reading a protected copy of the files, without the source database being opened. */
  function Inspected(w: Witness, d: Database, main: bool): Result<Snapshot, StoreError> {
    if !JournalsKnown(w, d, main) then Err(Custody)
    else if main || d.wal.None? then (if d.main.Some? then Ok(d.main.value) else Err(Corrupt))
    else if d.Readable() then Ok(d.Contents())
    else Err(Corrupt)
  }

  function Tidied(w: Witness, main: bool): Witness {
    if w.phase == Closing && main then Numbered(w, w.(phase := Clean)) else w
  }

  function Reopening(w: Witness, journals: Journals): Witness {
    Numbered(w, w.(phase := PreparingOpen, journals := journals))
  }

  function MadeLive(w: Witness, journals: Journals): Witness {
    Numbered(w, w.(phase := Live, epoch := w.epoch + 1, journals := journals))
  }

  // ----- what holds between the two stores

  /** The database is at the witness cut, unless a commit was possible; then it may be at the pending cut. */
  ghost predicate HeadAgrees(w: Witness, head: Cut) {
    if w.pending.Some? && w.pending.value.stage == CommitPossible
    then head == w.cut || head == w.pending.value.after
    else head == w.cut
  }

  ghost predicate MainAgrees(w: Witness, d: Database) {
    && (w.phase == Clean ==> d.Complete())
    && (w.phase == PreparingOpen && w.journals.wal.None? ==> d.Complete())
  }

  /** Two durable stores between any two publications. */
  ghost predicate SoundDisk(w: Witness, d: Database) {
    && Valid(w)
    && w.phase != Phase.Preparing
    && d.Readable()
    && HeadAgrees(w, d.Contents().head)
    && MainAgrees(w, d)
    && (w.pending.Some? ==> w.phase == Live && w.pending.value.mutation != Provision)
    && d.Contents().head.revision == |d.Contents().rows| + 1
  }

  ghost predicate LiveHandle(world: World) {
    && world.handle == Some(Memory(world.control, true, false))
    && world.control.phase == Live && world.control.pending.None?
    && world.database.wal.Some?
    && world.database.Objects().wal == world.control.journals.wal
  }

  /** An unfenced connected handle holds the stored witness. */
  ghost predicate Sound(world: World) {
    && SoundDisk(world.control, world.database)
    && (world.handle.Some? && !world.handle.value.fenced ==> LiveHandle(world))
  }

  // ----- steps: every durable state a call can leave behind

  datatype MutateReply = Accepted | Indeterminate | Refused(error: StoreError)

  function Written(d: Database, row: Row, after: Cut): Database
    requires d.Readable() && d.wal.Some?
  {
    d.Committed(Snapshot(after, d.Contents().rows + [row]))
  }

  /** The durable states of one mutation once it is prepared. */
  ghost predicate PreparedCut(prepared: Witness, d: Database, row: Row, after: Cut, w2: Witness, d2: Database)
    requires d.Readable() && d.wal.Some? && prepared.pending.Some?
  {
    var possible := MadePossible(prepared);
    || (w2 == prepared && d2 == d)
    || (Valid(possible) && w2 == possible && (d2 == d || d2 == Written(d, row, after)))
    || (Valid(Finished(possible)) && w2 == Finished(possible) && d2 == Written(d, row, after))
  }

  /** The durable states of one mutation, from untouched to finished. */
  ghost predicate MutationCut(w: Witness, d: Database, row: Row, after: Cut, w2: Witness, d2: Database)
    requires d.Readable() && d.wal.Some?
  {
    var prepared := WithPrepared(w, row, after);
    (w2 == w && d2 == d) || (Valid(prepared) && PreparedCut(prepared, d, row, after, w2, d2))
  }

  /** Accepted means finished; an uncertain mutation may have stopped anywhere and fences its handle; a refused one did nothing. */
  ghost predicate MutateStep(a: World, row: Row, after: Cut, reply: MutateReply, b: World) {
    && a.handle.Some? && b.handle.Some?
    && match reply
       case Accepted =>
         && LiveHandle(a) && a.database.Readable()
         && Valid(WithPrepared(a.control, row, after))
         && b.control == Finished(MadePossible(WithPrepared(a.control, row, after))) && Valid(b.control)
         && b.database == Written(a.database, row, after)
         && b.handle == Some(Memory(b.control, true, false))
       case Indeterminate =>
         && LiveHandle(a) && a.database.Readable()
         && MutationCut(a.control, a.database, row, after, b.control, b.database)
         && b.handle.value.fenced
       case Refused(_) =>
         && b.control == a.control && b.database == a.database
         && (b.handle.value.fenced || b.handle == a.handle)
  }

  /** A mutation lands whole or not at all; an accepted one lands. */
  lemma MutationLands(a: World, row: Row, after: Cut, reply: MutateReply, b: World)
    requires Sound(a) && MutateStep(a, row, after, reply, b)
    ensures a.database.Readable() && b.database.Readable()
    ensures b.database == a.database || b.database.Contents() == Snapshot(after, a.database.Contents().rows + [row])
    ensures reply.Accepted? ==> b.database != a.database
    ensures reply.Refused? ==> b.database == a.database
  {
    hide Valid;
  }

  /** The durable states from a settled witness to a live one. */
  ghost predicate ReopeningCut(w: Witness, d: Database, walObject: Object, shmObject: Object, w2: Witness, d2: Database) {
    var reopening := Reopening(w, d.Objects());
    var live := MadeLive(reopening, d.Connected(walObject, shmObject).Objects());
    || (w2 == w && d2 == d)
    || (Valid(reopening) && w2 == reopening && (d2 == d || d2 == d.Connected(walObject, shmObject)))
    || (Valid(reopening) && Valid(live) && w2 == live && d2 == d.Connected(walObject, shmObject))
  }

  /** The durable states of one opening, from untouched to live. */
  ghost predicate OpeningCut(w: Witness, d: Database, walObject: Object, shmObject: Object, w2: Witness, d2: Database) {
    var main := MainAlone(w, d);
    || (w2 == w && d2 == d)
    || (&& Inspected(w, d, main).Ok?
        && var settled := SettledCut(w, Inspected(w, d, main).value.head);
        && settled.Ok? && Valid(settled.value)
        && ((w2 == settled.value && d2 == d)
            || (Valid(Tidied(settled.value, main)) && ReopeningCut(Tidied(settled.value, main), d, walObject, shmObject, w2, d2))))
  }

  ghost predicate Opened(w: Witness, d: Database, walObject: Object, shmObject: Object, b: World) {
    var main := MainAlone(w, d);
    && Inspected(w, d, main).Ok?
    && SettledCut(w, Inspected(w, d, main).value.head).Ok?
    && var tidied := Tidied(SettledCut(w, Inspected(w, d, main).value.head).value, main);
    && b.control == MadeLive(Reopening(tidied, d.Objects()), d.Connected(walObject, shmObject).Objects())
    && b.database == d.Connected(walObject, shmObject)
    && b.handle == Some(Memory(b.control, true, false))
  }

  ghost predicate OpenStep(a: World, ok: bool, b: World) {
    && a.handle.None?
    && exists walObject, shmObject ::
         && OpeningCut(a.control, a.database, walObject, shmObject, b.control, b.database)
         && if ok then Opened(a.control, a.database, walObject, shmObject, b) else b.handle.None?
  }

  /** The durable states of one closing. */
  ghost predicate ClosingCut(w: Witness, d: Database, w2: Witness, d2: Database)
    requires d.Readable()
  {
    var closing := Numbered(w, w.(phase := Closing));
    var clean := Numbered(closing, closing.(phase := Clean));
    || (w2 == w && d2 == d)
    || (Valid(closing) && w2 == closing && (d2 == d || d2 == d.Checkpointed(false) || d2 == d.Checkpointed(true)))
    || (Valid(closing) && Valid(clean) && w2 == clean && d2 == d.Checkpointed(true))
  }

  ghost predicate CloseStep(a: World, ok: bool, b: World) {
    && a.handle.Some? && b.handle.None?
    && a.database.Readable()
    && (if LiveHandle(a) then ClosingCut(a.control, a.database, b.control, b.database)
        else b.control == a.control && b.database == a.database)
    && (ok ==> b.control.phase == Clean)
  }

  ghost predicate CheckpointStep(a: World, b: World) {
    && a.handle.Some? && b.handle.Some?
    && a.database.Readable()
    && b.control == a.control
    && (b.database == a.database
        || (LiveHandle(a) && (b.database == a.database.Checkpointed(false) || b.database == a.database.Checkpointed(true))))
    && (b.handle == a.handle || b.handle.value.fenced)
  }

  datatype Event =
    | Mutating(row: Row, after: Cut, reply: MutateReply)
    | Opening(succeeded: bool)
    | Shutting(finished: bool)
    | Checkpointing
    | Crashing
    | LogRemoved

  /** A crash forgets the handle; a completely checkpointed log may be gone at the next start. */
  ghost predicate Step(a: World, e: Event, b: World) {
    match e
    case Mutating(row, after, reply) => row.mutation != Provision && MutateStep(a, row, after, reply, b)
    case Opening(ok) => OpenStep(a, ok, b)
    case Shutting(ok) => CloseStep(a, ok, b)
    case Checkpointing => CheckpointStep(a, b)
    case Crashing => b == a.(handle := None)
    case LogRemoved => a.handle.None? && a.database.Complete() && b == a.(database := a.database.(wal := None, shm := None))
  }

  // ----- every step keeps the two stores in agreement

  lemma MutationCutSound(w: Witness, d: Database, row: Row, after: Cut, w2: Witness, d2: Database)
    requires SoundDisk(w, d) && w.phase == Live && w.pending.None? && d.wal.Some? && row.mutation != Provision
    requires MutationCut(w, d, row, after, w2, d2)
    ensures SoundDisk(w2, d2)
    ensures d2.Contents() == d.Contents() || d2.Contents() == Snapshot(after, d.Contents().rows + [row])
    ensures d2.wal.Some? && d2.Objects() == d.Objects()
  {
  }

  lemma InspectedContents(w: Witness, d: Database)
    requires SoundDisk(w, d)
    ensures Inspected(w, d, MainAlone(w, d)).Ok? ==> Inspected(w, d, MainAlone(w, d)).value == d.Contents()
  {
  }

  lemma OpeningCutSound(w: Witness, d: Database, walObject: Object, shmObject: Object, w2: Witness, d2: Database)
    requires SoundDisk(w, d)
    requires OpeningCut(w, d, walObject, shmObject, w2, d2)
    ensures SoundDisk(w2, d2) && d2.Contents() == d.Contents()
  {
    InspectedContents(w, d);
  }

  lemma ClosingCutSound(w: Witness, d: Database, w2: Witness, d2: Database)
    requires SoundDisk(w, d) && w.phase == Live && w.pending.None?
    requires ClosingCut(w, d, w2, d2)
    ensures SoundDisk(w2, d2) && d2.Contents() == d.Contents()
  {
  }

  /** How the committed rows may change in one step. */
  ghost predicate RowsAfter(a: World, e: Event, b: World)
    requires a.database.Readable() && b.database.Readable()
  {
    var before, after := a.database.Contents(), b.database.Contents();
    match e
    case Mutating(row, cut, reply) =>
      && (reply.Accepted? ==> after == Snapshot(cut, before.rows + [row]))
      && (reply.Indeterminate? ==> after == before || after == Snapshot(cut, before.rows + [row]))
      && (reply.Refused? ==> after == before)
    case _ => after == before
  }

  /** Every step keeps both stores sound; only a mutation changes what is committed, and only by its own row. */
  lemma StepKeepsSound(a: World, e: Event, b: World)
    requires Sound(a) && Step(a, e, b)
    ensures Sound(b)
    ensures RowsAfter(a, e, b)
  {
    hide MutationCut, OpeningCut, ClosingCut;
    match e
    case Mutating(row, after, reply) =>
      if reply.Accepted? {
        FinishedIsACut(a.control, a.database, row, after);
        MutationCutSound(a.control, a.database, row, after, b.control, b.database);
      } else if reply.Indeterminate? {
        MutationCutSound(a.control, a.database, row, after, b.control, b.database);
      }
    case Opening(ok) =>
      var walObject, shmObject :| OpeningCut(a.control, a.database, walObject, shmObject, b.control, b.database)
                                  && if ok then Opened(a.control, a.database, walObject, shmObject, b) else b.handle.None?;
      OpeningCutSound(a.control, a.database, walObject, shmObject, b.control, b.database);
      if ok {
        OpenedIsLive(a, walObject, shmObject, b);
      }
    case Shutting(ok) =>
      if LiveHandle(a) {
        ClosingCutSound(a.control, a.database, b.control, b.database);
      }
    case _ =>
  }

  lemma FinishedIsACut(w: Witness, d: Database, row: Row, after: Cut)
    requires d.Readable() && d.wal.Some?
    requires Valid(WithPrepared(w, row, after)) && Valid(Finished(MadePossible(WithPrepared(w, row, after))))
    ensures MutationCut(w, d, row, after, Finished(MadePossible(WithPrepared(w, row, after))), Written(d, row, after))
  {
  }

  lemma OpenedIsLive(a: World, walObject: Object, shmObject: Object, b: World)
    requires SoundDisk(a.control, a.database)
    requires Opened(a.control, a.database, walObject, shmObject, b)
    ensures LiveHandle(b)
  {
    InspectedContents(a.control, a.database);
  }

  // ----- whole runs

  ghost predicate Starts(a: World) {
    Sound(a) && a.control.pending.None? && a.database.Contents().rows == []
  }

  ghost predicate Run(worlds: seq<World>, events: seq<Event>) {
    && |worlds| == |events| + 1
    && Starts(worlds[0])
    && forall i, j {:trigger worlds[i], worlds[j]} :: 0 <= i < |events| && j == i + 1 ==> Step(worlds[i], events[i], worlds[j])
  }

  /** Over every interleaving of mutations, crashes, openings and closings the two stores agree. */
  lemma {:induction false} RunsAreSound(worlds: seq<World>, events: seq<Event>, i: nat)
    requires Run(worlds, events) && i < |worlds|
    ensures Sound(worlds[i])
  {
    hide Step, Sound;
    if i > 0 {
      RunsAreSound(worlds, events, i - 1);
      StepKeepsSound(worlds[i - 1], events[i - 1], worlds[i]);
    }
  }

  ghost function RowsOf(a: World): seq<Row>
    requires Sound(a)
  {
    a.database.Contents().rows
  }

  /** Committed writes are never lost, reordered or replaced. */
  lemma {:induction false} HistoryOnlyGrows(worlds: seq<World>, events: seq<Event>, i: nat, j: nat)
    requires Run(worlds, events) && i <= j < |worlds|
    ensures Sound(worlds[i]) && Sound(worlds[j])
    ensures RowsOf(worlds[i]) <= RowsOf(worlds[j])
    decreases j - i
  {
    hide Step;
    RunsAreSound(worlds, events, i);
    RunsAreSound(worlds, events, j);
    if i < j {
      HistoryOnlyGrows(worlds, events, i, j - 1);
      StepKeepsSound(worlds[j - 1], events[j - 1], worlds[j]);
    }
  }

  /** A write reported accepted is in every later history, at the position it was accepted at. */
  lemma AcceptedIsKept(worlds: seq<World>, events: seq<Event>, i: nat, j: nat)
    requires Run(worlds, events) && i < |events| && i < j < |worlds|
    requires events[i].Mutating? && events[i].reply.Accepted?
    ensures Sound(worlds[i]) && Sound(worlds[j])
    ensures RowsOf(worlds[i]) + [events[i].row] <= RowsOf(worlds[j])
  {
    hide Step;
    RunsAreSound(worlds, events, i);
    StepKeepsSound(worlds[i], events[i], worlds[i + 1]);
    HistoryOnlyGrows(worlds, events, i + 1, j);
  }

  ghost predicate Submits(events: seq<Event>, row: Row, i: nat, j: nat)
    requires i <= j <= |events|
  {
    exists k :: i <= k < j && events[k].Mutating? && events[k].row == row && !events[k].reply.Refused?
  }

  /** A row appears only through a submission of that row, so an absence seen now lasts until it is submitted again. */
  lemma {:induction false} AbsentUntilSubmitted(worlds: seq<World>, events: seq<Event>, i: nat, j: nat, row: Row)
    requires Run(worlds, events) && i <= j < |worlds|
    requires Sound(worlds[i]) && row !in RowsOf(worlds[i])
    requires !Submits(events, row, i, j)
    ensures Sound(worlds[j]) && row !in RowsOf(worlds[j])
    decreases j - i
  {
    hide Step;
    RunsAreSound(worlds, events, j);
    if i < j {
      AbsentUntilSubmitted(worlds, events, i, j - 1, row);
      StepKeepsSound(worlds[j - 1], events[j - 1], worlds[j]);
    }
  }

  /** The commit was possible and did not happen. */
  ghost predicate Stuck(a: World) {
    && a.database.Readable()
    && a.control.pending.Some? && a.control.pending.value.stage == CommitPossible
    && a.database.Contents().head == a.control.cut
    && (a.handle.Some? ==> a.handle.value.fenced)
  }

  lemma StuckStep(a: World, e: Event, b: World)
    requires Sound(a) && Stuck(a) && Step(a, e, b)
    ensures Stuck(b) && b.control == a.control && b.database.Contents() == a.database.Contents()
    ensures !(e == Opening(true)) && !(e.Mutating? && e.reply.Accepted?)
  {
    hide MutationCut, ClosingCut;
    InspectedContents(a.control, a.database);
  }

  /** A commit that may still be unknown is never downgraded: until the database shows it, nothing opens and nothing changes. */
  lemma {:induction false} UnknownCommitIsNeverDowngraded(worlds: seq<World>, events: seq<Event>, i: nat, j: nat)
    requires Run(worlds, events) && i <= j < |worlds| && Stuck(worlds[i])
    ensures Stuck(worlds[j]) && worlds[j].control == worlds[i].control
    ensures worlds[j].database.Contents() == worlds[i].database.Contents()
    ensures forall k :: i <= k < j ==> events[k] != Opening(true)
    decreases j - i
  {
    hide Step, Stuck;
    if i < j {
      UnknownCommitIsNeverDowngraded(worlds, events, i, j - 1);
      RunsAreSound(worlds, events, j - 1);
      StuckStep(worlds[j - 1], events[j - 1], worlds[j]);
    }
  }

  /** Opening adopts exactly what the database holds: the cut before the pending write, or the pending one. */
  lemma OpeningAdopts(a: World, b: World)
    requires Sound(a) && OpenStep(a, true, b)
    ensures b.database.Contents() == a.database.Contents()
    ensures b.control.cut == a.database.Contents().head && b.control.pending.None?
    ensures b.control.cut == a.control.cut || (a.control.pending.Some? && b.control.cut == a.control.pending.value.after)
    ensures LiveHandle(b)
  {
    hide OpeningCut;
    var walObject, shmObject :| OpeningCut(a.control, a.database, walObject, shmObject, b.control, b.database)
                                && Opened(a.control, a.database, walObject, shmObject, b);
    OpenedIsLive(a, walObject, shmObject, b);
    OpeningCutSound(a.control, a.database, walObject, shmObject, b.control, b.database);
    InspectedContents(a.control, a.database);
  }
}

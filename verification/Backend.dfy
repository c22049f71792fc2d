/** The writer over one store: each method replaces the durable witness step by step around its commit. */
module Backends {
  import opened Base
  import opened Model
  import opened Witnesses
  import opened Commits

  const I64_MAX: nat := 0x7FFF_FFFF_FFFF_FFFF

  datatype MutateFaults = MutateFaults(custody: bool, prepare: Landing, begin: bool, write: bool, possible: Landing, commit: Landing,
                                       check: bool, finish: Landing)

  const NO_MUTATE_FAULTS := MutateFaults(true, Lands, true, true, Lands, Lands, true, Lands)

  datatype OpenFaults = OpenFaults(inspect: bool, role: bool, pendingAgrees: bool, settle: Landing, tidy: Landing, reopen: Landing,
                                   connect: Landing, live: Landing)

  const NO_OPEN_FAULTS := OpenFaults(true, true, true, Lands, Lands, Lands, Lands, Lands)

  datatype CloseFaults = CloseFaults(custody: bool, authorized: bool, closing: Landing, checkpoint: Landing, busy: bool, inspect: bool,
                                     clean: Landing)

  const NO_CLOSE_FAULTS := CloseFaults(true, true, Lands, Lands, false, true, Lands)

  /** The two durable stores. */
  class Disk {
    var control: Witness
    var database: Database

    constructor (control: Witness, database: Database)
      ensures this.control == control && this.database == database
    {
      this.control := control;
      this.database := database;
    }

    ghost function View(handle: Option<Memory>): World
      reads this
    {
      World(control, database, handle)
    }
  }

  /** A generation is left for every publication of the longest call. */
  predicate RoomFor(w: Witness) {
    w.generation + 5 <= U64_MAX && w.epoch < U64_MAX
  }

  /** The write itself would be refused before anything durable happens. */
  predicate Acceptable(w: Witness, row: Row, after: Cut) {
    Valid(WithPrepared(w, row, after)) && |row.request| <= DESCRIPTOR
    && after.revision <= I64_MAX && after.count <= I64_MAX && after.included <= I64_MAX
  }

  /** A settled witness at the database head, in a phase that may reopen, with room for two publications. */
  predicate CanRelive(w: Witness, d: Database)
    requires d.Readable()
  {
    && Valid(w) && w.pending.None? && w.phase != Phase.Preparing && d.Contents().head == w.cut
    && w.generation + 2 <= U64_MAX && w.epoch < U64_MAX
  }

  class Backend {
    const disk: Disk
    var held: Witness
    var connected: bool
    var fenced: bool

    constructor (disk: Disk)
      ensures this.disk == disk && held == disk.control && !connected && !fenced
    {
      this.disk := disk;
      held := disk.control;
      connected := false;
      fenced := false;
    }

    ghost function View(): World
      reads this, disk
    {
      disk.View(Some(Memory(held, connected, fenced)))
    }

    /** Publishes the next witness over the held one. */
    method Replace(next: Witness, landing: Landing) returns (r: Verdict)
      modifies this`held, disk`control
      ensures var published := Replaced(old(disk.control), old(held), next);
              && (r.Pass? <==> published.Ok? && landing == Lands)
              && (r.Pass? ==> held == published.value)
              && (r.Fail? ==> held == old(held))
              && disk.control == if published.Ok? && landing != Misses then published.value else old(disk.control)
    {
      var published := Replaced(disk.control, held, next);
      if published.Err? {
        return Fail(published.error);
      }
      match landing {
        case Misses => return Fail(Custody);
        case LandsUnseen =>
          disk.control := published.value;
          return Fail(Corrupt);
        case Lands =>
          disk.control := published.value;
          held := published.value;
          return Pass;
      }
    }

    /** Refuses, and fences for good, unless both stores are exactly as this handle left them. */
    method CheckLive(custody: bool) returns (r: Verdict)
      requires disk.database.Readable()
      modifies this`fenced
      ensures fenced <==> old(fenced) || r.Fail?
      ensures r.Pass? <==> !old(fenced) && connected && held.phase == Live && held.pending.None? && custody && disk.control == held
                           && disk.database.Contents().head == held.cut
    {
      if fenced {
        return Fail(WasFenced);
      }
      if held.phase != Live || held.pending.Some? || !connected {
        r := Fail(WasFenced);
      } else if !custody || disk.control != held {
        r := Fail(Custody);
      } else if disk.database.Contents().head != held.cut {
        r := Fail(Corrupt);
      } else {
        r := Pass;
      }
      fenced := r.Fail?;
    }

    /** Prepared, then commit possible, then the commit, then the final cut; it stops at the first failure. */
    method Attempt(row: Row, after: Cut, faults: MutateFaults) returns (done: bool)
      requires Sound(View()) && LiveHandle(View()) && row.mutation != Provision
      modifies this`held, disk
      ensures MutationCut(old(disk.control), old(disk.database), row, after, disk.control, disk.database)
      ensures done ==> Valid(WithPrepared(old(disk.control), row, after))
      ensures done ==> disk.control == Finished(MadePossible(WithPrepared(old(disk.control), row, after))) && Valid(disk.control)
      ensures done ==> disk.database == Written(old(disk.database), row, after) && held == disk.control
      ensures faults == NO_MUTATE_FAULTS && Acceptable(old(held), row, after) && RoomFor(old(held)) ==> done
    {
      var prepared := held.(pending := Some(Pending(Prepared, row.mutation, after, row.request)));
      if !Encodable(prepared) {
        return false;
      }
      var step := Replace(prepared, faults.prepare);
      if step.Fail? || !faults.begin || disk.database.Contents().head != held.cut || !faults.write {
        return false;
      }
      done := Conclude(row, after, faults);
    }

    /** Commit possible, the commit, and the final cut, from a published prepared witness. */
    method Conclude(row: Row, after: Cut, faults: MutateFaults) returns (done: bool)
      requires held == disk.control && Valid(held) && disk.database.Readable() && disk.database.wal.Some?
      requires held.pending.Some? && held.pending.value == Pending(Prepared, row.mutation, after, row.request)
      modifies this`held, disk
      ensures PreparedCut(old(disk.control), old(disk.database), row, after, disk.control, disk.database)
      ensures done ==> disk.control == Finished(MadePossible(old(disk.control))) && Valid(disk.control) && held == disk.control
      ensures done ==> disk.database == Written(old(disk.database), row, after)
      ensures faults == NO_MUTATE_FAULTS && |row.request| <= DESCRIPTOR && old(held.generation) + 2 <= U64_MAX ==> done
    {
      var step := Replace(held.(pending := Some(held.pending.value.(stage := CommitPossible))), faults.possible);
      if step.Fail? || faults.commit == Misses {
        return false;
      }
      disk.database := disk.database.Committed(Snapshot(after, disk.database.Contents().rows + [row]));
      if faults.commit == LandsUnseen || !faults.check || disk.database.Contents().head != after {
        return false;
      }
      step := Replace(held.(cut := after, pending := None), faults.finish);
      done := step.Pass?;
    }

    /** One guarded mutation. Anything but a clean finish after it began is uncertain and fences the handle. */
    method Mutate(row: Row, after: Cut, faults: MutateFaults) returns (reply: MutateReply)
      requires Sound(View()) && row.mutation != Provision
      modifies this`held, this`fenced, disk
      ensures Sound(View())
      ensures MutateStep(old(View()), row, after, reply, View())
      ensures faults == NO_MUTATE_FAULTS && LiveHandle(old(View())) && Acceptable(old(held), row, after) && RoomFor(old(held)) ==>
                reply == MutateReply.Accepted
    {
      ghost var before := View();
      var live := CheckLive(faults.custody);
      if live.Fail? {
        return MutateReply.Refused(live.error);
      }
      if after.revision > I64_MAX || after.count > I64_MAX || after.included > I64_MAX {
        return MutateReply.Refused(TooLarge);
      }
      var done := Attempt(row, after, faults);
      MutationCutSound(before.control, before.database, row, after, disk.control, disk.database);
      if !done {
        fenced := true;
        return MutateReply.Indeterminate;
      }
      reply := MutateReply.Accepted;
    }

    method Checkpoint(faults: CloseFaults) returns (r: Verdict)
      requires Sound(View())
      modifies this`fenced, disk`database
      ensures Sound(View())
      ensures CheckpointStep(old(View()), View())
    {
      var live := CheckLive(faults.custody);
      if live.Fail? {
        return live;
      }
      if !faults.authorized {
        return Fail(Custody);
      }
      if faults.checkpoint != Misses {
        disk.database := disk.database.Checkpointed(!faults.busy);
      }
      if faults.checkpoint != Lands {
        fenced := true;
        return Fail(Uncertain);
      }
      r := Pass;
    }

    /** Closing, complete checkpoint, proof from the main file alone, Clean. The handle is gone whatever happens. */
    method Close(faults: CloseFaults) returns (ok: bool)
      requires Sound(View())
      modifies this, disk
      ensures Sound(disk.View(None))
      ensures CloseStep(old(View()), ok, disk.View(None))
      ensures faults == NO_CLOSE_FAULTS && old(held.generation) + 2 <= U64_MAX ==> (ok <==> LiveHandle(old(View())))
    {
      ghost var before := View();
      var live := CheckLive(faults.custody);
      if live.Fail? || !faults.authorized {
        return false;
      }
      ok := Shut(faults);
      ClosingCutSound(before.control, before.database, disk.control, disk.database);
    }

    method Shut(faults: CloseFaults) returns (ok: bool)
      requires Sound(View()) && LiveHandle(View())
      modifies this, disk
      ensures ClosingCut(old(disk.control), old(disk.database), disk.control, disk.database)
      ensures ok ==> disk.control.phase == Clean
      ensures faults == NO_CLOSE_FAULTS && old(held.generation) + 2 <= U64_MAX ==> ok
    {
      var step := Replace(held.(phase := Closing), faults.closing);
      if step.Fail? || faults.checkpoint == Misses {
        return false;
      }
      disk.database := disk.database.Checkpointed(!faults.busy);
      if faults.checkpoint == LandsUnseen || faults.busy {
        return false;
      }
      connected := false;
      if !faults.inspect || Inspected(held, disk.database, true) == Err(Custody) || disk.database.main.None?
         || disk.database.main.value.head != held.cut {
        return false;
      }
      step := Replace(held.(phase := Clean), faults.clean);
      ok := step.Pass?;
    }

    /** Resolves a pending cut by what the database holds. */
    method ResolveCut(head: Cut, landing: Landing) returns (r: Verdict)
      requires held == disk.control && Valid(held)
      modifies this`held, disk`control
      ensures r.Pass? ==> SettledCut(old(held), head).Ok? && held == disk.control == SettledCut(old(held), head).value
      ensures disk.control == old(held) || (SettledCut(old(held), head).Ok? && disk.control == SettledCut(old(held), head).value && Valid(disk.control))
      ensures held == old(held) || held == disk.control
      ensures landing == Lands && RoomFor(old(held)) ==> (r.Pass? <==> SettledCut(old(held), head).Ok?)
    {
      var settled := SettledCut(held, head);
      if settled.Err? {
        return Fail(settled.error);
      }
      match held.pending {
        case None => r := Pass;
        case Some(p) =>
          r := Replace(held.(cut := if p.stage == Prepared then held.cut else p.after, pending := None), landing);
      }
    }

    /** Publishes the opening, connects, and publishes the live witness. */
    method Relive(faults: OpenFaults, walObject: Object, shmObject: Object) returns (ok: bool)
      requires held == disk.control && disk.database.Readable() && !connected && !fenced
      modifies this, disk
      ensures ReopeningCut(old(disk.control), old(disk.database), walObject, shmObject, disk.control, disk.database)
      ensures ok ==> disk.database == old(disk.database).Connected(walObject, shmObject)
      ensures ok ==> disk.control == MadeLive(Reopening(old(disk.control), old(disk.database).Objects()), disk.database.Objects())
      ensures ok ==> held == disk.control && connected && !fenced
      ensures faults == NO_OPEN_FAULTS && old(CanRelive(held, disk.database)) ==> ok
    {
      var step := Replace(held.(phase := PreparingOpen, journals := disk.database.Objects()), faults.reopen);
      if step.Fail? || faults.connect == Misses {
        return false;
      }
      disk.database := disk.database.Connected(walObject, shmObject);
      if faults.connect == LandsUnseen || disk.database.Contents().head != held.cut || held.epoch >= U64_MAX {
        return false;
      }
      connected := true;
      step := Replace(held.(phase := Live, epoch := held.epoch + 1, journals := disk.database.Objects()), faults.live);
      ok := step.Pass?;
    }

    /** The steps of opening, on the stored witness this handle just read. */
    method Recover(faults: OpenFaults, walObject: Object, shmObject: Object) returns (ok: bool)
      requires SoundDisk(disk.control, disk.database) && held == disk.control && !connected && !fenced
      modifies this, disk
      ensures OpeningCut(old(disk.control), old(disk.database), walObject, shmObject, disk.control, disk.database)
      ensures ok ==> Opened(old(disk.control), old(disk.database), walObject, shmObject, View())
      ensures faults == NO_OPEN_FAULTS && RoomFor(old(disk.control)) ==>
                (ok <==> && Inspected(old(disk.control), old(disk.database), MainAlone(old(disk.control), old(disk.database))).Ok?
                         && SettledCut(old(disk.control), old(disk.database).Contents().head) != Err(Uncertain))
    {
      var main := MainAlone(held, disk.database);
      InspectedContents(held, disk.database);
      var inspection := Inspected(held, disk.database, main);
      if !faults.inspect || inspection.Err? || !faults.role || (held.pending.Some? && !faults.pendingAgrees) {
        return false;
      }
      var step := ResolveCut(inspection.value.head, faults.settle);
      if step.Fail? {
        return false;
      }
      if held.phase == Closing && main {
        step := Replace(held.(phase := Clean), faults.tidy);
        if step.Fail? {
          return false;
        }
      }
      ok := Relive(faults, walObject, shmObject);
    }
  }

  /** Opens the store for writing, or leaves it between two of the same publications. */
  method Open(disk: Disk, expected: Subject, faults: OpenFaults, walObject: Object, shmObject: Object) returns (r: Option<Backend>)
    requires Sound(disk.View(None))
    modifies disk
    ensures r.Some? ==> fresh(r.value) && r.value.disk == disk && LiveHandle(r.value.View())
    ensures OpenStep(old(disk.View(None)), r.Some?, if r.Some? then r.value.View() else disk.View(None))
    ensures Sound(if r.Some? then r.value.View() else disk.View(None))
    ensures faults == NO_OPEN_FAULTS && RoomFor(old(disk.control)) && expected == old(disk.control.subject) ==>
              (r.Some? <==> && Inspected(old(disk.control), old(disk.database), MainAlone(old(disk.control), old(disk.database))).Ok?
                            && SettledCut(old(disk.control), old(disk.database).Contents().head) != Err(Uncertain))
  {
    ghost var before := disk.View(None);
    var backend := new Backend(disk);
    if backend.held.subject != expected {
      assert OpeningCut(before.control, before.database, walObject, shmObject, disk.control, disk.database);
      return None;
    }
    var ok := backend.Recover(faults, walObject, shmObject);
    OpeningCutSound(before.control, before.database, walObject, shmObject, disk.control, disk.database);
    if ok {
      OpenedIsLive(before, walObject, shmObject, backend.View());
      r := Some(backend);
    } else {
      r := None;
    }
  }
}

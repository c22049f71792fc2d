# Pursuit ledger: verification model

A Dafny model of the ledger: the rule kernel that interprets commands over proposals, decisions, agreements, grants and
actions; the application around it that accepts operations against an untrusted set of answers and reopens from retained
records; the crash-aware commit protocol under it; the admission of database images; the bounded readers; and the codecs.
`dafny verify dfyconfig.toml` checks everything.

## How the model is laid out

**Kernel.** `Base`, `Model` and `Rules` hold the data types and the rules, one function for each command. `Kernels` is the
kernel in place: a class whose fields are written in the order of the rules, proved equal to the rules on success.
A decision is written before its activation is tried, so a refusal could leave it behind; `Kernels.RefusalLeavesNothing`
shows that this never happens at a state a run can reach. `Grounds` proves that only the grounds a command declares can
influence it. `Pursuits`, `Runs` and `Traces` prove the invariant of every step and the safety of whole runs.

**Application.** `Records` and `Change` model live acceptance and reconstruction; the boundary's answers are arbitrary values
given once per call. `Replay` and `Histories` prove that reconstruction accepts exactly the histories that some live session
committed. `Creations`, `Catalogue`, `Identities` and `Controls` prove what is bound, established, created and stored as
control rows, and `Constraints` that the keys, references and checks the schema declares hold of the whole database and refuse
none of a new record's rows. `LiveChange` is the live handle as a class with the loops of the source. `Revalidations` is the
final guard.

**Commit protocol.** `Witnesses`, `Commits` and `Backend` model the witness published around every commit, the database, and
a crash between any two durable steps. `Durable` is a session over an abstract store of records, and `Sessions` proves that
the session, the guarded acceptance and the two-phase protocol together behave like it. `Registers` is the creation protocol
over the register and the originals, where every call submits the start again, and `Registrations` puts its steps over the
two-phase protocol.

**Images.** `Images` replays a write-ahead log over a main file (sections 4.1, 4.2 and 4.5 of the SQLite Database File
Format). `Shapes` and `Payloads` say what the bytes of a record, a cell, an overflow chain and a page mean (sections 1.5 to 1.8
and 2.1). `Places` lists every way in which the bytes of an image name a page: the schema root, the root of an entry, a
right-most child, a cell's child, a link of a cell's overflow chain, a trunk of the free list, a page a trunk lists. A book says
which place owns which page; a book in which every place owns what it names is the only one. `Schemas` checks the schema
entries, `Walkers` walks trees and the free list with the ownership and byte maps of the source and keeps the book beside them,
and `Admissions` states what is known of an admitted image.

**Readers and codecs.** `Reading` holds scans, pages, bookmarks and the independent check of a page, `Mentioning` the
references that select a record. `Wire` is the schema-driven scanner and its allocation cost, `Bodies` what a schema demands of
a body and of every nested one, which is exactly what the scanner accepts, `Works` the reservations that pay for it, `Projections` the JSON projection
that counts its own text (escaping as in section 7 of RFC 8259), and `Descriptors` the private descriptor codec.

## Where a promise holds only under a condition

- Control rows store a grant generation in a signed 64-bit column, while the kernel counts to the unsigned maximum. The rows
  of an accepted history can be written if and only if every generation it writes is at most the signed maximum
  (`Controls.ControlsAgree`).
- A page is refused, instead of being returned empty, exactly when its limits cannot carry the next record; the condition is
  `Reading.Blocked` in the contract of `Reading.Scan`.
- A commit that was possible and did not happen is never downgraded, so such a store stays closed for ever
  (`Commits.UnknownCommitIsNeverDowngraded`); opening adopts the pending cut only when the database shows it.

## Model

| member | source | states |
|---|---|---|
| Grounds.OnlyRequiredGroundsMatter | src/kernel/change/rules.rs:271-389 | two observations that agree on the grounds a command requires in a state give the same effect, error and next state, for every command |
| Runs.TransitionKeeps | src/kernel/change/rules.rs:535-968 | every accepted command keeps the kernel invariant (backed agreements, linear succession, endorsed blockers, one live decision of a kind) and only moves forward |
| Traces.RunsMoveForward | src/kernel/change/rules.rs:535-968 | between any two moments of any run nothing accepted is taken back: proposals and assessments unchanged, decisions, agreements, grants and actions only advanced |
| Traces.SupersededStaysSuperseded | src/kernel/change/rules.rs:419-474 | an agreement that stopped being current is never current again |
| Traces.SuccessionIsExpected | src/kernel/change/rules.rs:419-474 | a newly current agreement is new, and its proposal expected exactly the previous current one |
| Traces.CurrentAgreementIsBacked | src/kernel/change/rules.rs:138-161 | the current agreement always rests on one adoption by the owner actor and one undertaking by the agent, both matched, with no other live decision on its proposal |
| Traces.MatchedCannotBeRetracted | src/kernel/change/rules.rs:662-673 | neither decision behind any agreement can be retracted, by anyone, at any later state |
| Traces.EndorsedNeverDisappears | src/kernel/change/rules.rs:439-447 | a blocker of the current agreement belongs to the current agreement at every later state, through reaffirmation and revision |
| Traces.FulfillmentResolvesEverything | src/kernel/change/rules.rs:897-933 | a fulfillment resolves with evidence every blocker endorsed at any earlier moment, with no action dispatched |
| Traces.SupersededUseIsRefused | src/kernel/change/rules.rs:162-172 | once a grant is replaced or revoked, no command that rests on the old use is accepted at any later state, whoever issues it and whatever is observed |
| Traces.DispatchedAtMostOnce | src/kernel/change/rules.rs:833-842 | an action is dispatched at most once in a run |
| Traces.DispatchFollowsAdmission | src/kernel/change/rules.rs:475-494 | a dispatch follows the admission of the same request by the same actor, under the same unreplaced grant and a current agreement at every moment between |
| Traces.OnlyAdmissionCreates | src/kernel/change/rules.rs:814-832 | an action comes into being only by its own admission |
| Kernels.Kernel.Transition | src/kernel/change/rules.rs:535-563 | in place, a command gives the result of the rules, the state of the rules on success, and on refusal at most the decision it had already written |
| Kernels.Kernel.Activate | src/kernel/change/rules.rs:419-474 | activation in place with its loop over decisions equals the rule, and a refused activation changes nothing |
| Kernels.RefusalLeavesNothing | src/kernel/change/rules.rs:618-727 | at every state of every run a refused command leaves the kernel exactly as it was |
| Creations.MeasureIsExact | src/kernel/change/content.rs:29-42 | usage is the number and total size of the payloads, refused exactly when a 64-bit counter cannot hold it |
| Creations.ContentsAreExact | src/kernel/change/content.rs:132-160 | contents are bound exactly when every payload is local, new and distinct, one entry for each |
| Creations.CreationIsExact | src/kernel/change/content.rs:90-166 | fresh content is admitted if and only if a live grant of the actor allows its items and bytes and it can be bound; its usage, grant and bindings are exact |
| Creations.Prepare | src/kernel/change/content.rs:90-166 | the loops over the payloads compute the creation of the rules |
| Replay.CollectionRepeats | src/application/change.rs:588-680 | asking for everything again with the recorded answers collects exactly the recorded checks |
| Replay.RecordIsLive | src/application/change.rs:515-580 | a record that reconstruction accepts is what live acceptance would commit for its own declaration and answers |
| Replay.LiveIsReplayed | src/application/change.rs:266-401 | a record that live acceptance commits is accepted by reconstruction with the same next ledger |
| Histories.LiveIsReconstructed | src/application/change.rs:266-401 | after any submissions with any answers, reconstruction of the committed log gives exactly the live ledger |
| Histories.ReconstructedExactlyWhenLive | src/application/change.rs:515-580 | reconstruction accepts a head and a list of records if and only if some live session committed that list, and gives that session's ledger |
| Histories.EveryPrefixReconstructs | src/application/change.rs:515-580 | every prefix of an accepted history is accepted under its own head |
| Histories.IndeterminateReopens | src/application/change.rs:387-401 | after an uncertain append the log with the record, reopened, is the ledger that acceptance would have published |
| Catalogue.RecordIsDetermined | src/application/change.rs:537-572 | two records accepted on one ledger with the same operation and checks are equal: every derived field is determined |
| Catalogue.RecordKeepsCatalogue | src/application/change.rs:681-713 | a record rebinds nothing, establishes exactly keys that nothing established before, and retains exactly its declared first retentions |
| Catalogue.CatalogueOnlyGrows | src/application/change.rs:681-713 | bytes, establishments, origins and results of a prefix are unchanged in every continuation |
| Catalogue.ContentIsEstablishedOnce | src/application/change.rs:124-185 | a content key is established by one record of a history |
| Identities.HistoryIsRun | src/application/change.rs:515-580 | an accepted history drives the kernel through a run, so the properties of runs hold of histories |
| Identities.IdentitiesAreCreatedOnce | src/application/records.rs:87-119 | each typed identity is created by one record of a history |
| Identities.GenerationsRise | src/kernel/change/rules.rs:782-813 | generations of one grant strictly rise along a history, with nothing after a revocation |
| LiveChange.GatherAll | src/application/change.rs:82-123 | intake key by key, each asked for at most once, stopping at the first refusal |
| LiveChange.CollectAll | src/application/change.rs:298-353 | the collection loop equals the collection that replay repeats |
| LiveChange.Handle.Execute | src/application/change.rs:266-401 | the handle is replaced only by guarded acceptance, fenced by an uncertain one, and always equals the reconstruction of its log |
| LiveChange.Reconstruct | src/application/change.rs:515-580 | reopening record by record gives the reconstructed ledger, or the error of the first refused record |
| Revalidations.Revalidate | src/adapters/sqlite/ports.rs:34-88 | the final guard passes if and only if the boundary still answers everything the record holds, permits it, discloses it, and has the same context when asked once more at the end |
| Revalidations.CollectedIsUnchanged | src/adapters/sqlite/ports.rs:34-88 | checks collected from a boundary pass the final guard of the same boundary exactly when it permits, discloses and keeps its context to the end |
| Durable.AlwaysConsistent | src/adapters/sqlite/original.rs:187-216 | over any calls, uncertain commits and reopenings the ledger is the reconstruction of the stored records, except for one uncertain record while fenced |
| Durable.AnsweredIsReopened | src/application/change.rs:387-401 | an answered new submission is in the store and the ledger of every later reopening |
| Durable.StoredOnlyGrows | src/adapters/sqlite/ports.rs:154-203 | stored records are never lost or replaced |
| Sessions.StorePorts.Accept | src/adapters/sqlite/ports.rs:154-203 | acceptance refuses before anything durable, or runs exactly one mutation; accepted means finished, everything else is indeterminate; without faults a record that continues the held cut is accepted |
| Sessions.StepRefines | src/adapters/sqlite/ports.rs:154-203 | every step of session, acceptance and protocol together is a step of a session over a store of records and keeps database, witness and log in agreement |
| Sessions.PlannedContinues | src/adapters/sqlite/ports.rs:161-167 | what a live ledger plans always continues the cut that the writer holds, so acceptance never refuses it for its place |
| Sessions.AnsweredSurvives | src/adapters/sqlite/original.rs:187-216 | an operation answered as accepted is in the database, the log and the ledger of every later reopening, over crashes at every durable step |
| Sessions.UnknownWasNeverAppended | src/adapters/sqlite/original.rs:234-311 | an operation that an unfenced session does not know was never appended |
| Controls.ControlsAgree | src/adapters/sqlite/records.rs:154-276 | the controls of an accepted history exist if and only if every generation fits its column, and then agree with the kernel's catalogue, identities and grants |
| Controls.DeclaredKeysHold | src/adapters/sqlite/schema.rs:26-33 | no primary or unique key of the control tables is violated by the controls of an accepted history |
| Constraints.ConstraintsAlwaysHold | src/adapters/sqlite/schema.rs:21-36 | every key, reference and check declared for the frame and control tables holds of the whole database of an accepted history: record numbers and predecessors, references to records, contents and grounds, generations and sizes |
| Constraints.InsertionsSucceed | src/adapters/sqlite/records.rs:525-614 | a database that refuses any row breaking a key, a reference or a check refuses none of a new record's rows when they are put frames first and then table after table, and ends as the database of the longer history |
| Controls.PutAll | src/adapters/sqlite/records.rs:54-59 | rows are added when none is there yet, and refused otherwise |
| Controls.MergeBytes | src/adapters/sqlite/records.rs:184-229 | contents merge exactly when no key has two values |
| Commits.StepKeepsSound | src/adapters/sqlite/backend.rs:331-416 | every step, crash included, keeps the database head at the witness cut, or at the cut or the pending cut while a commit is possible; only a mutation changes what is committed |
| Commits.RunsAreSound | src/adapters/sqlite/backend.rs:212-330 | the same over every interleaving of mutations, crashes, openings, checkpoints and closings |
| Commits.HistoryOnlyGrows | src/adapters/sqlite/backend.rs:358-416 | committed writes are never lost, reordered or replaced |
| Commits.AcceptedIsKept | src/adapters/sqlite/backend.rs:358-416 | a write reported accepted is in every later history at its position |
| Commits.AbsentUntilSubmitted | src/adapters/sqlite/original.rs:234-311 | a write seen absent stays absent until it is submitted again |
| Commits.UnknownCommitIsNeverDowngraded | src/adapters/sqlite/backend.rs:280-330 | while a possible commit is not in the database nothing opens and neither store changes |
| Commits.OpeningAdopts | src/adapters/sqlite/backend.rs:280-330 | opening adopts exactly the committed cut: the one before the pending write or the pending one |
| Backends.Backend.Replace | src/adapters/sqlite/control.rs:362-413 | a witness is replaced only over the stored one, only by a permitted and valid next one |
| Backends.Backend.CheckLive | src/adapters/sqlite/backend.rs:331-357 | the handle is live exactly when witness, phase, custody and head are as it left them; anything else fences it for good |
| Backends.Backend.Mutate | src/adapters/sqlite/backend.rs:358-416 | each fault leaves one of the durable states of the protocol; accepted means finished; without faults it is accepted |
| Backends.Backend.Close | src/adapters/sqlite/backend.rs:441-493 | closing leaves one of the closing states and keeps what is committed; without faults it succeeds exactly when the handle is live |
| Backends.Backend.Checkpoint | src/adapters/sqlite/backend.rs:417-440 | a checkpoint moves the log into the main file and changes nothing else |
| Backends.Backend.ResolveCut | src/adapters/sqlite/backend.rs:280-330 | a pending cut is resolved by the database head alone, in the two permitted ways |
| Backends.Open | src/adapters/sqlite/backend.rs:212-279 | opening ends live at the committed cut or between two of the same publications; without faults it succeeds exactly when the inspection and the settled cut allow |
| Images.Varint | src/adapters/sqlite/native_read_shape.rs:32-46 | a varint is read exactly when it ends in the bytes, with its value and length |
| Images.ComputeChecksum | src/adapters/sqlite/native_read_shape.rs:47-65 | the cumulative checksum of the log format |
| Images.ScanFrames | src/adapters/sqlite/native_read_shape.rs:118-163 | the frames of the longest valid prefix, accepted exactly when each is in range, and the last commit among them |
| Images.BuildImage | src/adapters/sqlite/native_read_shape.rs:89-192 | an image is built if and only if header, log and pages are acceptable, and every page is the logical one |
| Images.OverlaidIsLast | src/adapters/sqlite/native_read_shape.rs:89-192 | overwriting in order leaves the last frame of a page at or before the commit, or the main file's page |
| Images.ImageIsReaderCut | src/adapters/sqlite/native_read_shape.rs:89-192 | the image is the cut of the reader algorithm: longest prefix valid by salt and checksum, its last commit and page count, the last frame of each page |
| Shapes.RecordHeader | src/adapters/sqlite/native_read_shape.rs:258-296 | a header is accepted exactly when it holds the expected serial types and their values take the whole payload |
| Shapes.RecordTiles | src/adapters/sqlite/native_read_shape.rs:258-296 | the values of an accepted record lie one after another from the end of its header to its end |
| Walkers.CheckRecord | src/adapters/sqlite/native_read_shape.rs:533-551 | a record is kept exactly when its values fit the columns of its tree, or are a schema entry, and its tree has room for a row |
| Walkers.Walker.VisitRecord | src/adapters/sqlite/native_read_shape.rs:520-555 | a visited record has its whole payload, every page of its overflow chain is claimed by its own link, its values fit its tree, it ends where the cell ends, and a schema entry is kept as read |
| Places.OwnershipIsUnique | src/adapters/sqlite/native_read_shape.rs:342-376 | the bytes of an image determine the complete book: every owner, tree, role, parent and the free list |
| Places.NoPageIsNamedTwice | src/adapters/sqlite/native_read_shape.rs:368-376 | where every place owns what it names, no two places of trees, chains or the free list name one page |
| Places.TrunksAreUnique | src/adapters/sqlite/native_read_shape.rs:575-600 | the free list has one sequence of trunks |
| Schemas.CheckSchema | src/adapters/sqlite/native_read_shape.rs:736-785 | the schema is accepted exactly when its entries are the defined tables with all their automatic indices, each as defined and on a root of its own |
| Walkers.Walker.Mark | src/adapters/sqlite/native_read_shape.rs:368-376 | a page is claimed exactly when it exists and nothing claimed it; it is then owned by the place that names it, with that place's role and parent, and the unclaimed pages strictly shrink |
| Walkers.Walker.TakeSpan | src/adapters/sqlite/native_read_shape.rs:377-388 | bytes are taken exactly when they are in the usable area and free; taken ranges stay disjoint |
| Walkers.Walker.PayloadPrefix | src/adapters/sqlite/native_read_shape.rs:389-448 | a payload is its local part and a chain of exactly as many overflow pages as the rest needs, each named by the one before, ending in none, and every one of them claimed |
| Walkers.Walker.VisitCell | src/adapters/sqlite/native_read_shape.rs:505-556 | a cell takes exactly the bytes from its pointer to the end of its record, its record fits, and every place in it is settled: its child waits, its chain is owned, its entry is kept |
| Walkers.Walker.ReadPage | src/adapters/sqlite/native_read_shape.rs:473-567 | a page has the kind of its tree, header, cells and free blocks are disjoint ranges of its usable area, all its records fit and are counted, and every place on it is settled |
| Walkers.Walker.Walk | src/adapters/sqlite/native_read_shape.rs:449-574 | a walk owns its root and leaves nothing waiting: every place of the pages added owns its page, the entries returned are those of the schema cells, and the rows counted are the records on the pages added |
| Walkers.Walker.FreeList | src/adapters/sqlite/native_read_shape.rs:575-619 | the free list claims exactly the trunks that the header starts and the pages they list, as many as the header says; no page is left over, and the pointer map names every role and parent |
| Admissions.Admit | src/adapters/sqlite/native_read_shape.rs:733-814 | an admitted source is an acceptable image with a complete account: one owner for every page, every b-tree page laid out and fitting its tree, exactly the defined schema, row limits kept, free count and pointer map agreeing |
| Admissions.EveryPageHasOneOwner | src/adapters/sqlite/native_read_shape.rs:342-376 | in an admitted image a page is either a pointer map page named by no place, or named by exactly one place: schema root, entry root, child, overflow link, trunk or listed page, which gives its role and parent |
| Admissions.ReachedFromFirstPage | src/adapters/sqlite/native_read_shape.rs:449-574 | every b-tree and overflow page of an admitted image is reached from the first page, place by place |
| Admissions.OneAccount | src/adapters/sqlite/native_read_shape.rs:733-814 | an admitted image has one account: the same owners, trees, free list, roles, parents and schema entries |
| Admissions.SomeImageIsRefused | src/adapters/sqlite/native_read_shape.rs:575-600 | a valid image whose free list starts with the first page is not admitted under any definitions |
| Reading.Scan | src/application/read.rs:419-484 | a scan succeeds exactly when a start exists and the next record fits, and returns exactly the matches of the interval it scanned |
| Reading.PageInterval | src/adapters/sqlite/read.rs:79-128 | a page continues where its request started, stays in range, and returns exactly its interval's matches |
| Reading.FollowedSoFar | src/application/read.rs:377-484 | after any number of pages what was returned is every match so far, once and in order |
| Reading.PagesCompose | src/application/read.rs:377-484 | following the bookmark to the end returns every match of the range once and in order, with limits varying and records appended between calls |
| Reading.BookmarkAdvances | src/application/read.rs:377-484 | what is left to scan strictly falls on every page that is not the last |
| Reading.CheckRecords | src/adapters/read_adapter/response.rs:71-85 | the walk over a page's records is its ordering, interval and identity condition |
| Reading.ProducedIsAccepted | src/adapters/read_adapter/response.rs:51-127 | every page produced for the owner over a reconstructed history passes every clause of the independent check |
| Reading.ResolvedExactly | src/application/read.rs:377-418 | an anchor resolves exactly when it names a place of the history, to a position that validates later and passes the independent check |
| Mentioning.MentionedExactlyWhenShown | src/application/read.rs:486-653 | the visit over a record with its shortcuts answers exactly whether the public record shows what a reference names |
| Mentioning.TermsNameReferences | src/kernel/change/rules.rs:24-40 | visiting the terms of a proposal part by part is matching its set of references |
| Wire.VarintFits | src/adapters/codec/wire.rs:32-46 | every accepted varint fits 64 bits |
| Wire.CensusBound | src/adapters/codec/wire.rs:233-277 | at least two bytes for each message and each field, one for each packed value and payload byte |
| Wire.ReservationCovers | src/adapters/read_adapter/work.rs:72-91 | the reservation for n bytes covers the cost of every body of n bytes under every schema |
| Wire.ScannedIsCounted | src/adapters/codec/wire.rs:109-207 | every body the scan accepts has a cost |
| Bodies.ScanIsExact | src/adapters/codec/wire.rs:109-207 | a body is accepted if and only if, in it and in every nested body, each item is of a known field with an admitted value, each field occurs within its limit, no unrepeated field or alternative occurs twice, everything required occurs, and sizes and depth are kept |
| Wire.ScanMessage | src/adapters/codec/wire.rs:109-207 | the scan with its in-place counts equals the specification scan |
| Wire.AllocationCost | src/adapters/codec/wire.rs:233-277 | the running totals are the cost of the census, without overflow within a frame |
| Wire.TakeVarint | src/adapters/codec/wire.rs:32-46 | the cursor is left just after the varint |
| Works.Work.Reserve | src/adapters/read_adapter/work.rs:37-54 | both budgets are debited exactly, or the reservation is refused because one does not cover it |
| Works.Work.Reply | src/adapters/read_adapter/work.rs:72-91 | an admitted reply has paid sixteen times the cost of any body of its length under any schema |
| Works.Work.Output | src/adapters/read_adapter/work.rs:93-102 | an admitted output has paid for the allocation of any value it may build and twice its text |
| Works.TotalsDecide | src/adapters/read_adapter/work.rs:37-54 | a sequence of reservations passes exactly when its totals fit both budgets, and then exactly the totals are gone |
| Registers.StepKeeps | src/adapters/sqlite/register.rs:658-906 | every durable step of creation keeps register, allocations and originals in agreement and only advances entries |
| Registers.EntriesOnlyAdvance | src/adapters/sqlite/register.rs:658-906 | over all crashes and retries an entry moves from reserved to bound to included with a fixed intent, binding and receipt |
| Registers.AllocatedAtMostOnce | src/adapters/sqlite/register.rs:658-906 | an identity is allocated at most once in a run |
| Registers.IncludedIsStarted | src/adapters/sqlite/original.rs:158-186 | an included entry's original starts with the intent's start, is active only by the entry's receipt, and has no second record before that |
| Registers.RetriedStartAppendsNothing | src/adapters/sqlite/original.rs:167-216 | the start is submitted on every call, and once it is recorded submitting it again changes nothing, at whatever stage and with whatever answers |
| Registers.SubmittedSubmits | src/adapters/sqlite/original.rs:187-216 | a submission to an original changes nothing, or appends one request of an operation that was not there; what it answers is recorded |
| Registers.MutationsLand | src/adapters/sqlite/backend.rs:358-416 | a guarded mutation of either store ends in one of the three landings: its row is there whole or not at all, and it is reported done only if it is there |
| Registrations.StepAgrees | src/adapters/sqlite/register.rs:658-906 | a creation step over the commit protocol either commits its one row and happens, or changes nothing, over lost mutations, crashes and reopenings of the register's store |
| Registrations.EntriesAreReadBack | src/adapters/sqlite/register.rs:312-393 | at every moment of every such run the entries are what the rows of the register's database add up to when they are read back |
| Registrations.OriginalStepsAreWrites | src/adapters/sqlite/original.rs:187-216 | each step changes the requests and the activation of an original as its one write says, and not at all without one |
| Registers.Registry.Reconcile | src/adapters/sqlite/register.rs:658-906 | creation passes only through steps of a run; ready means activated with the caller's intent, every result shown is the one recorded for the start, and without faults a new intent whose start is accepted becomes ready |
| Descriptors.NumberExact | src/adapters/sqlite/control.rs:645-649 | a fixed-width number is read exactly when it was written |
| Descriptors.PayloadExact | src/adapters/sqlite/control.rs:189-238 | a payload is read as a witness if and only if it is what writing that witness produces |
| Descriptors.FileExact | src/adapters/sqlite/control.rs:143-240 | a file is read as a witness if and only if it is what publishing that valid witness into this object and custody writes: header, payload twice, footer |
| Descriptors.IntentExact | src/adapters/sqlite/register.rs:123-187 | a frame is read as an intent if and only if writing that intent gives it and the intent passes its whole check: identity, issuer, owner's start, absolute paths and the sizes of every envelope |
| Descriptors.ReceiptExact | src/adapters/sqlite/register.rs:201-222 | a frame is read as a receipt if and only if writing that receipt gives it and the intent nested in it passes its whole check |
| Descriptors.EncodableFits | src/adapters/sqlite/control.rs:303-346 | a witness whose request fits a descriptor fits its envelope |
| Descriptors.SizedOnce | src/adapters/sqlite/register.rs:123-158 | an intent that passed the check fits its reservation, binding, inclusion and activation, whatever the real binding |
| Descriptors.Writer.Prefixed | src/adapters/sqlite/control.rs:548-558 | a length-prefixed part is appended exactly when it fits its own maximum and the buffer's |
| Projections.TextLength | src/adapters/read_adapter/projection.rs:32-126 | the bytes debited for a value are the length of its compact JSON text |
| Projections.Projection.Project | src/adapters/read_adapter/projection.rs:32-126 | a value is built exactly when the counters cover its cost and its names are distinct, and exactly the cost is debited |
| Projections.ProjectEnvelope | src/adapters/read_adapter/projection.rs:10-22 | an envelope is built exactly when its text fits the ceiling and nodes and allocation allow |
| Projections.CountQuoted | src/adapters/read_adapter/projection.rs:56-69 | the counting sink gives the length of the escaped text, or nothing when it passes the maximum |
| Projections.Digits | src/adapters/read_adapter/projection.rs:138-145 | the loop counts decimal digits |

## Left out

- Admissions.Admit: says what holds of an admitted source and that admission ends on any bytes; which images are refused is
  stated by `Admissions.SharedPageIsRefused` and by the exact conditions of its parts (`Images.BuildImage`,
  `Schemas.CheckSchema`, `Walkers.CheckRecord`, `Mark`, `TakeSpan`, `CheckMap`). The limits on depth, cells and all rows
  together are not part of the account, and the text of the definitions is a parameter.
- Walkers.Walker.PayloadPrefix: says nothing about which limit is reported when a payload is too large.
- Kernels.Kernel.Transition: commands other than deciding and reaffirming have all their checks before their one write, so that
  write stores the state of the rule in one step.
- Durable.AlwaysConsistent: a boundary answers each question once during a call, so two different answers to one question in
  one call are not modelled there; `Revalidations.Revalidate` takes a second set of answers.
- Backends.Backend.Mutate: publication of a witness is one atomic durable step that lands, misses, or lands unseen; pending
  descriptor contents and role checks are arbitrary verdicts.
- Registers.Registry.Reconcile: each mutation of the register and of an original is one step that lands or not, which
  `Registrations` derives from the two-phase protocol; provisioning is one step, and unrelated directories are not modelled.
- Descriptors.IntentExact: the codec of the start request is an arbitrary decoder.
- Constraints.InsertionsSucceed: frames are there or not; their bytes and lengths are the encoder's, and so is the limit on contents.
- Reading.ProducedIsAccepted: covers pages; the check of a returned content is a single comparison that is not modelled.
- Reading.Scan: holds for every notion of which references a record makes (`Mentioning.Mentioned` is the real one); sizes of
  public records are bounded by the frame.
- Wire.ScanMessage: the schema is an arbitrary table; the generated message types and their field tables are not modelled.
- Controls.ControlsAgree: rows are typed values; their encoding as cells and the columns for request and effect frames are not modelled.
- Identities and versions are natural numbers; that they are sixteen nonzero bytes is modelled only in the scanner and the descriptors.
- Sorted lists of unique dependencies are maps; the order of a list is not modelled where the source sorts it.
- When several origin selectors, derivations or references fail for different reasons, one fixed order of reasons is reported.
- Read and record queries of the application, disclosure callbacks, and the read budget of the native reader.
- File custody, locks, inode checks, randomness, sync and rename; a publication is atomic with a crash point around it.
- The database engine itself; a transaction is an atomic change of head and rows.
- The first provisioning of a store before any commit.
- Text of schema entries is not checked to be UTF-8.
- Native cost estimates at the end of admission, and the profile pre-scan of an envelope.
- The layout of public values as JSON fields; only their size accounting is modelled.

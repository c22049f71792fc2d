/** Admission of an image: which images are admitted, and what is known about every page of one that is. */
module Admissions {
  import opened Base
  import opened Images
  import opened Shapes
  import opened Schemas
  import opened Payloads
  import opened Places
  import opened Walkers

  /** The tree behind an entry. */
  function TreeOf(e: SchemaEntry): Shaped<Tree> {
    var columns :- ColumnsFor(e);
    Ok(if e.index then IndexTree(columns) else TableTree(e.name, columns))
  }

  ghost function TreePages(b: Book, tree: Tree): set<nat> {
    set p | p in b.kinds && b.kinds[p] == tree
  }

  /** The first `n` tables have no more rows than they may. */
  ghost predicate RowsWithin(image: Image, b: Book, entries: seq<SchemaEntry>, n: nat)
    requires image.Valid()
  {
    forall k :: 0 <= k < |entries| && k < n ==> RowsWithinAt(image, b, entries[k])
  }

  ghost predicate RowsWithinAt(image: Image, b: Book, e: SchemaEntry)
    requires image.Valid()
  {
    !e.index && TreeOf(e).Ok? ==> |RecordsOf(image, TreePages(b, TreeOf(e).value))| <= RowCap(e.name)
  }

  /** Entries are exactly those of the schema tree. */
  ghost predicate AllEntries(image: Image, b: Book, entries: seq<SchemaEntry>, sources: seq<Place>)
    requires image.Valid() && |image.pages| >= 1
  {
    && EntriesFrom(image, b, entries, sources)
    && forall pl: Place {:trigger Stands(image, b, pl)} :: pl.EntryRoot? && Stands(image, b, pl) ==> pl in sources
  }

  /** What the walks found of an image: a complete book, each b-tree page fitting its tree, pointer map, free count and schema agreeing. */
  datatype Account = Account(book: Book, roles: seq<nat>, parents: seq<nat>, layouts: map<nat, seq<Span>>,
                             entries: seq<SchemaEntry>, sources: seq<Place>)

  ghost predicate Accounted(image: Image, ddl: map<Bytes, Bytes>, a: Account) {
    && image.Valid() && |image.pages| >= 1
    && Complete(image, ColumnsFor, a.book, a.roles, a.parents)
    && LaidOut(image, a.book.kinds, a.layouts, {})
    && MapAgrees(image, a.roles, a.parents)
    && Be32(image.pages[0], 36) == Ok(|FreePages(a.book)|)
    && AllEntries(image, a.book, a.entries, a.sources)
    && SchemaAccepted(ddl, a.entries)
    && RowsWithin(image, a.book, a.entries, |a.entries|)
  }

  ghost predicate Admitted(image: Image, ddl: map<Bytes, Bytes>) {
    exists a :: Accounted(image, ddl, a)
  }

  // ----- what is known about an admitted image

  /** A page that is no pointer map is named by exactly one place, which gives it its role and parent; a pointer map by none. */
  lemma EveryPageHasOneOwner(image: Image, ddl: map<Bytes, Bytes>, a: Account, p: nat) returns (owner: Option<Place>)
    requires Accounted(image, ddl, a) && OnImage(image, p)
    ensures owner.None? <==> IsMap(image, p)
    ensures forall pl: Place {:trigger Stands(image, a.book, pl)} ::
              Stands(image, a.book, pl) && Names(image, a.book, pl) == p ==> owner == Some(pl)
    ensures owner.Some? ==> Stands(image, a.book, owner.value) && Names(image, a.book, owner.value) == p
                            && a.roles[p] == RoleOf(owner.value) && a.parents[p] == ParentOf(image, a.book, owner.value)
    ensures owner.None? ==> a.roles[p] == POINTER_MAP
    ensures p in a.book.kinds <==> owner.Some? && OfTree(owner.value)
    ensures p in a.book.kinds ==> p in a.layouts && PageFits(image, p, a.book.kinds[p], a.layouts[p])
  {
    hide Stands, Names, IsMap, ParentOf, RoleOf, TreeFor, PageFits, MapAgrees, AllEntries, SchemaAccepted, RowsWithin, Ordered, TrunksEnd;
    assert MarkedAt(image, a.book, a.roles, a.parents, p);
    owner := if p in a.book.owner then Some(a.book.owner[p]) else None;
    if p in a.book.owner {
      assert JustifiedAt(image, a.book, p, a.book.owner[p]);
    }
    forall pl {:trigger Stands(image, a.book, pl)} | Stands(image, a.book, pl) && Names(image, a.book, pl) == p ensures owner == Some(pl) {
      assert Owns(image, a.book, pl);
    }
  }

  /** Each page stands on the one before it in a line of owners. */
  ghost predicate OwnerLine(b: Book, line: seq<nat>) {
    && line != []
    && (forall i :: 0 <= i < |line| ==> line[i] in b.owner)
    && (forall i, j :: 0 <= i < |line| - 1 && j == i + 1 ==> Holder(b.owner[line[j]]) == Some(line[i]))
  }

  lemma {:induction false} LineInOrder(b: Book, k: nat) returns (line: seq<nat>)
    requires Ordered(b) && k < |b.order|
    ensures OwnerLine(b, line) && line[|line| - 1] == b.order[k] && Holder(b.owner[line[0]]).None?
    decreases k
  {
    hide Holder;
    var p := b.order[k];
    assert p in b.order;
    line := [p];
    if Holder(b.owner[p]).Some? {
      var j :| 0 <= j < k && b.order[j] == Holder(b.owner[p]).value;
      var before := LineInOrder(b, j);
      line := before + [p];
    }
  }

  /** Every page of a b-tree or of a chain is reached from the first page, place by place. */
  lemma ReachedFromFirstPage(image: Image, ddl: map<Bytes, Bytes>, a: Account, p: nat) returns (line: seq<nat>)
    requires Accounted(image, ddl, a) && OnImage(image, p) && !IsMap(image, p) && a.roles[p] != FREE
    ensures OwnerLine(a.book, line) && line[0] == 1 && line[|line| - 1] == p
  {
    hide OwnerLine, IsMap, ChainIn, KindIn, CellsIn, LeafCount, MapAgrees, AllEntries, SchemaAccepted, RowsWithin, TrunksEnd, AllOwn, LaidOut, KindsFollow, Justified;
    assert MarkedAt(image, a.book, a.roles, a.parents, p);
    assert p in a.book.owner && p in a.book.order;
    var k :| 0 <= k < |a.book.order| && a.book.order[k] == p;
    line := LineInOrder(a.book, k);
    FirstOfLine(image, a.book, line, p);
  }

  lemma HolderIsTree(image: Image, b: Book, p: nat)
    requires image.Valid() && |image.pages| >= 1 && Justified(image, b) && KindsFollow(image, ColumnsFor, b)
    requires p in b.owner && Holder(b.owner[p]).Some?
    ensures var q := Holder(b.owner[p]).value; q in b.owner && OfTree(b.owner[q])
  {
    hide ChainIn, KindIn, CellsIn, LeafCount, IsMap, TreeFor, Names;
    assert JustifiedAt(image, b, p, b.owner[p]);
  }

  lemma OnlySchemaRoot(image: Image, b: Book, p: nat)
    requires image.Valid() && |image.pages| >= 1 && Justified(image, b) && p in b.owner
    requires Holder(b.owner[p]).None? && (RoleOf(b.owner[p]) != FREE || OfTree(b.owner[p]))
    ensures p == 1
  {
    hide ChainIn, KindIn, CellsIn, LeafCount, IsMap;
    assert JustifiedAt(image, b, p, b.owner[p]);
  }

  lemma FirstOfLine(image: Image, b: Book, line: seq<nat>, p: nat)
    requires image.Valid() && |image.pages| >= 1 && Justified(image, b) && KindsFollow(image, ColumnsFor, b)
    requires OwnerLine(b, line) && Holder(b.owner[line[0]]).None?
    requires line[|line| - 1] == p && RoleOf(b.owner[p]) != FREE
    ensures line[0] == 1
  {
    hide Justified, KindsFollow, Holder, RoleOf;
    if |line| > 1 {
      assert Holder(b.owner[line[1]]) == Some(line[0]);
      HolderIsTree(image, b, line[1]);
    }
    OnlySchemaRoot(image, b, line[0]);
  }

  /** An image has one account of its pages: owners, trees, free list, roles, parents, and the same entries. */
  lemma OneAccount(image: Image, ddl: map<Bytes, Bytes>, a: Account, b: Account)
    requires Accounted(image, ddl, a) && Accounted(image, ddl, b)
    ensures a.book.owner == b.book.owner && a.book.kinds == b.book.kinds && a.book.trunks == b.book.trunks
    ensures a.roles[1..] == b.roles[1..]
    ensures forall p :: p in a.book.owner && OnImage(image, p) ==> a.parents[p] == b.parents[p]
    ensures forall e :: e in a.entries <==> e in b.entries
  {
    hide LaidOut, MapAgrees, SchemaAccepted, RowsWithin, AllEntries, Complete, FreePages;
    OwnershipIsUnique(image, ColumnsFor, a.book, a.roles, a.parents, b.book, b.roles, b.parents);
    EntriesWithin(image, a, b);
    EntriesWithin(image, b, a);
  }

  lemma EntriesWithin(image: Image, a: Account, b: Account)
    requires image.Valid() && |image.pages| >= 1 && a.book.kinds == b.book.kinds && a.book.trunks == b.book.trunks
    requires AllEntries(image, a.book, a.entries, a.sources) && AllEntries(image, b.book, b.entries, b.sources)
    ensures forall e :: e in a.entries ==> e in b.entries
  {
    hide Stands, EntryIn;
    forall e | e in a.entries ensures e in b.entries {
      var k :| 0 <= k < |a.entries| && a.entries[k] == e;
      var pl := a.sources[k];
      assert EntryFromPlace(image, a.book, e, pl);
      SameStands(image, a.book, b.book, pl);
      var j :| 0 <= j < |b.sources| && b.sources[j] == pl;
      assert EntryFromPlace(image, b.book, b.entries[j], pl);
    }
  }

  /** No image in which two places name one page is admitted, whatever tree or list they belong to. */
  lemma SharedPageIsRefused(image: Image, ddl: map<Bytes, Bytes>, a: Account, x: Place, y: Place)
    requires image.Valid() && |image.pages| >= 1 && x != y
    requires Stands(image, a.book, x) && Stands(image, a.book, y) && Names(image, a.book, x) == Names(image, a.book, y)
    ensures !Accounted(image, ddl, a)
  {
    hide Stands, Names, Complete, LaidOut, MapAgrees, SchemaAccepted, RowsWithin, AllEntries, FreePages;
    if Accounted(image, ddl, a) {
      NoPageIsNamedTwice(image, ColumnsFor, a.book, a.roles, a.parents, x, y);
    }
  }

  /** A free list that starts with the first page gives that page to the free list and to the schema tree: never admitted. */
  lemma FirstPageIsNotFree(image: Image, ddl: map<Bytes, Bytes>)
    requires image.Valid() && |image.pages| >= 1 && FirstTrunk(image) == 1
    ensures !Admitted(image, ddl)
  {
    hide Accounted, FirstTrunk;
    forall a ensures !Accounted(image, ddl, a) {
      if Accounted(image, ddl, a) {
        StartsWithTrunk(image, ddl, a);
        SharedPageIsRefused(image, ddl, a, SchemaRoot, Trunk(0));
      }
    }
  }

  lemma StartsWithTrunk(image: Image, ddl: map<Bytes, Bytes>, a: Account)
    requires Accounted(image, ddl, a) && FirstTrunk(image) == 1
    ensures Stands(image, a.book, Trunk(0)) && Names(image, a.book, Trunk(0)) == 1
    ensures Stands(image, a.book, SchemaRoot) && Names(image, a.book, SchemaRoot) == 1
  {
    hide BookKept, AllOwn, LaidOut, MapAgrees, SchemaAccepted, RowsWithin, AllEntries, FreePages;
  }

  /** Not every valid image is admitted. */
  lemma SomeImageIsRefused(ddl: map<Bytes, Bytes>) returns (image: Image)
    ensures image.Valid() && |image.pages| == 1 && !Admitted(image, ddl)
  {
    hide Admitted;
    var page: Bytes := seq(512, i => if i == 35 then 1 else 0);
    image := Image([page], 512, 512);
    FirstPageIsNotFree(image, ddl);
  }

  // ----- the smallest admitted image

  /** One page: an empty leaf of the schema tree, no free list, no pointer map. */
  function EmptyPage(): (b: Bytes)
    ensures |b| == 512
  {
    seq(512, i => if i == 100 then LEAF_TABLE else 0)
  }

  function EmptyImage(): Image {
    Image([EmptyPage()], 512, 512)
  }

  ghost function EmptyAccount(): Account {
    Account(Book(map[1 := SchemaRoot], map[1 := SchemaTree], [], [1]), [0, ROOT], [0, 0], map[1 := [Span(0, 108)]], [], [])
  }

  lemma EmptyPageReads()
    ensures EmptyImage().Valid() && KindIn(EmptyImage(), 1) == LEAF_TABLE && CellsIn(EmptyImage(), 1) == 0
    ensures FirstTrunk(EmptyImage()) == 0 && Be32(EmptyPage(), 36) == Ok(0) && Be16(EmptyPage(), 101) == Ok(0)
    ensures EmptyPage()[107] == 0
  {
  }

  lemma EmptyPlaces(pl: Place)
    requires EmptyImage().Valid() && Stands(EmptyImage(), EmptyAccount().book, pl)
    ensures pl == SchemaRoot
  {
    EmptyPageReads();
    hide KindIn, CellsIn, ChainIn, LeafCount, EmptyPage;
  }

  lemma EmptyPageFits()
    requires EmptyImage().Valid()
    ensures PageFits(EmptyImage(), 1, SchemaTree, [Span(0, 108)])
  {
    EmptyPageReads();
    hide EmptyPage, Be16;
  }

  lemma EmptyComplete()
    requires EmptyImage().Valid()
    ensures Complete(EmptyImage(), ColumnsFor, EmptyAccount().book, EmptyAccount().roles, EmptyAccount().parents)
  {
    EmptyPageReads();
    var image, a := EmptyImage(), EmptyAccount();
    forall pl {:trigger Stands(image, a.book, pl)} | Stands(image, a.book, pl) ensures Owns(image, a.book, pl) {
      EmptyPlaces(pl);
    }
    hide EmptyPage, KindIn, CellsIn, ChainIn, LeafCount, FirstTrunk;
  }

  lemma EmptyEntries()
    requires EmptyImage().Valid()
    ensures AllEntries(EmptyImage(), EmptyAccount().book, [], []) && SchemaAccepted(map[], [])
  {
    hide Stands, EmptyPage;
    var image, b := EmptyImage(), EmptyAccount().book;
    forall pl: Place {:trigger Stands(image, b, pl)} ensures Stands(image, b, pl) ==> pl == SchemaRoot {
      if Stands(image, b, pl) {
        EmptyPlaces(pl);
      }
    }
    assert TableNames([]) == {};
  }

  lemma EmptyRest()
    requires EmptyImage().Valid() && PageFits(EmptyImage(), 1, SchemaTree, [Span(0, 108)])
    ensures var image, a := EmptyImage(), EmptyAccount();
            LaidOut(image, a.book.kinds, a.layouts, {}) && MapAgrees(image, a.roles, a.parents) && FreePages(a.book) == {}
  {
    hide PageFits, EmptyPage;
  }

  /** Some image is admitted: a single empty page, where no tables are defined. */
  lemma EmptyImageIsAdmitted()
    ensures Admitted(EmptyImage(), map[])
  {
    EmptyPageReads();
    EmptyPageFits();
    EmptyComplete();
    EmptyEntries();
    EmptyRest();
    hide Complete, EmptyPage, LaidOut, MapAgrees, FreePages, AllEntries, SchemaAccepted;
    assert Accounted(EmptyImage(), map[], EmptyAccount());
  }

  // ----- tree after tree

  /** Every b-tree page is of the schema tree or of the tree of one of the first `n` entries. */
  ghost predicate TreesFrom(kinds: map<nat, Tree>, entries: seq<SchemaEntry>, n: nat) {
    forall p :: p in kinds ==> kinds[p].SchemaTree? || exists j :: 0 <= j < |entries| && j < n && TreeOf(entries[j]) == Ok(kinds[p])
  }

  ghost predicate RootsOwned(image: Image, b: Book, sources: seq<Place>, n: nat)
    requires image.Valid() && |image.pages| >= 1
  {
    forall k :: 0 <= k < |sources| && k < n ==> OwnedNow(image, b, sources[k])
  }

  /** The trees of the first `n` entries have been walked. */
  ghost predicate Walked(image: Image, b: Book, layouts: map<nat, seq<Span>>, entries: seq<SchemaEntry>, sources: seq<Place>, n: nat)
    requires image.Valid() && |image.pages| >= 1
  {
    && LaidOut(image, b.kinds, layouts, {})
    && Settled(image, b, [], sources, Nothing)
    && EntriesFrom(image, b, entries, sources)
    && RootsOwned(image, b, sources, n)
    && TreesFrom(b.kinds, entries, n)
    && RowsWithin(image, b, entries, n)
    && b.trunks == []
  }

  lemma NoneWalked(image: Image, b: Book, layouts: map<nat, seq<Span>>, entries: seq<SchemaEntry>, sources: seq<Place>)
    requires image.Valid() && |image.pages| >= 1 && LaidOut(image, b.kinds, layouts, {}) && Settled(image, b, [], sources, Nothing)
    requires EntriesFrom(image, b, entries, sources) && PagesAdded(map[], b.kinds, SchemaTree) && b.trunks == []
    ensures Walked(image, b, layouts, entries, sources, 0)
  {
    hide LaidOut, Settled, EntriesFrom, TreeOf;
  }

  /** The root of an entry is where its tree is walked from. */
  lemma EntryTask(image: Image, b: Book, entries: seq<SchemaEntry>, sources: seq<Place>, k: nat, tree: Tree)
    requires image.Valid() && |image.pages| >= 1 && EntriesFrom(image, b, entries, sources) && Settled(image, b, [], sources, Nothing)
    requires k < |entries| && TreeOf(entries[k]) == Ok(tree)
    ensures k < |sources| && TaskFits(image, b, tree, Task(entries[k].root, 0, 1), sources[k]) && !tree.SchemaTree?
    ensures Settled(image, b, [sources[k]], sources, Nothing)
  {
    hide Settled, EntryIn, ColumnsFor;
    assert EntryFromPlace(image, b, entries[k], sources[k]);
    NothingWidened(b);
    SettledStill(image, b, b, [], [sources[k]], sources, sources, Nothing);
  }

  lemma OtherTables(ddl: map<Bytes, Bytes>, entries: seq<SchemaEntry>, j: nat, k: nat)
    requires EntriesAccepted(ddl, entries) && j < k < |entries|
    ensures !entries[k].index && TreeOf(entries[k]).Ok? ==> TreeOf(entries[j]) != TreeOf(entries[k])
    ensures !entries[j].index && TreeOf(entries[j]).Ok? ==> TreeOf(entries[j]) != TreeOf(entries[k])
  {
    hide ColumnsFor, EntryAccepted, IndexNumber;
    assert EntriesApart(entries[j], entries[k]);
  }

  lemma PagesOfEntry(ddl: map<Bytes, Bytes>, a: Book, b: Book, entries: seq<SchemaEntry>, k: nat, tree: Tree)
    requires EntriesAccepted(ddl, entries) && k < |entries| && TreeOf(entries[k]) == Ok(tree) && !entries[k].index
    requires TreesFrom(a.kinds, entries, k) && PagesAdded(a.kinds, b.kinds, tree)
    ensures TreePages(b, tree) == b.kinds.Keys - a.kinds.Keys
  {
    hide TreeOf, EntriesAccepted;
    assert !tree.SchemaTree? by { NeverSchema(entries[k]); }
    forall p | p in a.kinds ensures a.kinds[p] != tree {
      if a.kinds[p] == tree {
        var j :| 0 <= j < |entries| && j < k && TreeOf(entries[j]) == Ok(a.kinds[p]);
        OtherTables(ddl, entries, j, k);
      }
    }
  }

  lemma NeverSchema(e: SchemaEntry)
    ensures TreeOf(e).Ok? ==> !TreeOf(e).value.SchemaTree?
  {
    hide ColumnsFor;
  }

  lemma RowsStillWithin(ddl: map<Bytes, Bytes>, image: Image, a: Book, b: Book, entries: seq<SchemaEntry>, k: nat, tree: Tree)
    requires image.Valid() && EntriesAccepted(ddl, entries) && k < |entries| && TreeOf(entries[k]) == Ok(tree)
    requires RowsWithin(image, a, entries, k) && TreesFrom(a.kinds, entries, k) && PagesAdded(a.kinds, b.kinds, tree)
    requires !entries[k].index ==> |RecordsOf(image, b.kinds.Keys - a.kinds.Keys)| <= RowCap(entries[k].name)
    ensures RowsWithin(image, b, entries, k + 1)
  {
    hide TreeOf, EntriesAccepted, RowCap, RecordsOf;
    forall j | 0 <= j < |entries| && j < k + 1 ensures RowsWithinAt(image, b, entries[j]) {
      if j < k {
        assert RowsWithinAt(image, a, entries[j]);
        OtherTables(ddl, entries, j, k);
        if !entries[j].index && TreeOf(entries[j]).Ok? {
          assert TreePages(b, TreeOf(entries[j]).value) == TreePages(a, TreeOf(entries[j]).value);
        }
      } else if !entries[k].index {
        PagesOfEntry(ddl, a, b, entries, k, tree);
      }
    }
  }

  lemma RootsStillOwned(image: Image, a: Book, b: Book, sources: seq<Place>, n: nat)
    requires image.Valid() && |image.pages| >= 1 && RootsOwned(image, a, sources, n) && BookGrown(a, b)
    ensures RootsOwned(image, b, sources, n)
  {
    hide OwnedNow, BookGrown;
    forall k | 0 <= k < |sources| && k < n ensures OwnedNow(image, b, sources[k]) {
      OwnedStillNow(image, a, b, sources[k]);
    }
  }

  lemma WalkedFurther(ddl: map<Bytes, Bytes>, image: Image, a: Book, b: Book, layouts: map<nat, seq<Span>>, later: map<nat, seq<Span>>,
                      entries: seq<SchemaEntry>, sources: seq<Place>, k: nat, tree: Tree)
    requires image.Valid() && |image.pages| >= 1 && EntriesAccepted(ddl, entries) && k < |entries| && TreeOf(entries[k]) == Ok(tree)
    requires Walked(image, a, layouts, entries, sources, k) && BookGrown(a, b) && b.trunks == a.trunks && PagesAdded(a.kinds, b.kinds, tree)
    requires LaidOut(image, b.kinds, later, {}) && Settled(image, b, [], sources, Nothing) && k < |sources| && OwnedNow(image, b, sources[k])
    requires !entries[k].index ==> |RecordsOf(image, b.kinds.Keys - a.kinds.Keys)| <= RowCap(entries[k].name)
    ensures Walked(image, b, later, entries, sources, k + 1)
  {
    hide LaidOut, Settled, EntriesFrom, TreeOf, EntriesAccepted, RowsWithin, RecordsOf, RowCap, OwnedNow, BookGrown, PagesAdded, TreesFrom;
    EntriesStillFrom(image, a, b, entries, sources);
    RootsStillOwned(image, a, b, sources, k);
    RowsStillWithin(ddl, image, a, b, entries, k, tree);
    TreesStillFrom(a.kinds, b.kinds, entries, k, tree);
  }

  lemma TreesStillFrom(a: map<nat, Tree>, b: map<nat, Tree>, entries: seq<SchemaEntry>, k: nat, tree: Tree)
    requires TreesFrom(a, entries, k) && PagesAdded(a, b, tree) && k < |entries| && TreeOf(entries[k]) == Ok(tree)
    ensures TreesFrom(b, entries, k + 1)
  {
    hide TreeOf;
  }

  lemma FreshTask(image: Image, b: Book)
    requires image.Valid() && |image.pages| >= 1
    ensures TaskFits(image, b, SchemaTree, Task(1, 0, 1), SchemaRoot)
  {
  }

  /** The free list leaves nothing open. */
  lemma AllAccounted(image: Image, ddl: map<Bytes, Bytes>, a: Book, b: Book, roles: seq<nat>, parents: seq<nat>, layouts: map<nat, seq<Span>>,
                     entries: seq<SchemaEntry>, sources: seq<Place>)
    requires image.Valid() && |image.pages| >= 1 && Walked(image, a, layouts, entries, sources, |entries|) && SchemaAccepted(ddl, entries)
    requires BookGrown(a, b) && b.kinds == a.kinds && BookKept(image, ColumnsFor, b, roles, parents)
    requires Settled(image, b, [], sources, Nothing) && TrunksEnd(image, b.trunks) && AllClaimed(roles) && MapAgrees(image, roles, parents)
    requires Be32(image.pages[0], 36) == Ok(|FreePages(b)|)
    ensures Accounted(image, ddl, Account(b, roles, parents, layouts, entries, sources))
  {
    hide LaidOut, MapAgrees, SchemaAccepted, FreePages, TrunksEnd, Stands, Justified, KindsFollow, Ordered, IsMap, EntryIn, RowsWithin, Owns;
    EntriesStillFrom(image, a, b, entries, sources);
    RootsStillOwned(image, a, b, sources, |entries|);
    AllPlacesOwn(image, b, sources, |entries|);
    forall p | 1 <= p <= |image.pages| ensures p in b.owner || IsMap(image, p) {
      assert MarkedAt(image, b, roles, parents, p);
    }
    SameRows(image, a, b, entries);
  }

  lemma AllPlacesOwn(image: Image, b: Book, sources: seq<Place>, n: nat)
    requires image.Valid() && |image.pages| >= 1 && Settled(image, b, [], sources, Nothing) && RootsOwned(image, b, sources, n) && n >= |sources|
    ensures AllOwn(image, b)
    ensures forall pl: Place {:trigger Stands(image, b, pl)} :: pl.EntryRoot? && Stands(image, b, pl) ==> pl in sources
  {
    hide Stands, Names;
    forall pl: Place {:trigger Stands(image, b, pl)} | Stands(image, b, pl) ensures Owns(image, b, pl) && (pl.EntryRoot? ==> pl in sources) {
      assert Met(image, b, pl, [], sources);
      if pl.EntryRoot? {
        var k :| 0 <= k < |sources| && sources[k] == pl;
        assert OwnedNow(image, b, sources[k]);
      }
    }
  }

  lemma SameRows(image: Image, a: Book, b: Book, entries: seq<SchemaEntry>)
    requires image.Valid() && RowsWithin(image, a, entries, |entries|) && b.kinds == a.kinds
    ensures RowsWithin(image, b, entries, |entries|)
  {
    hide TreeOf, RecordsOf, RowCap;
    forall k | 0 <= k < |entries| ensures RowsWithinAt(image, b, entries[k]) {
      assert RowsWithinAt(image, a, entries[k]);
      if TreeOf(entries[k]).Ok? {
        assert TreePages(b, TreeOf(entries[k]).value) == TreePages(a, TreeOf(entries[k]).value);
      }
    }
  }

  // ----- admission

  /** Walks the tree of one entry, with the limit on the rows of a table. */
  method WalkEntry(walker: Walker, ghost ddl: map<Bytes, Bytes>, ghost entries: seq<SchemaEntry>, e: SchemaEntry, ghost i: nat) returns (r: Verdict)
    requires walker.Valid() && walker.stack == [] && walker.waiting == [] && EntriesAccepted(ddl, entries)
    requires i < |entries| && entries[i] == e
    requires Walked(walker.image, walker.book, walker.layouts, entries, walker.sources, i)
    modifies walker, walker.roles, walker.parents, walker.used
    ensures walker.Valid() && (r.Pass? ==> walker.stack == [] && walker.waiting == [] && walker.sources == old(walker.sources))
    ensures r.Pass? ==> Walked(walker.image, walker.book, walker.layouts, entries, walker.sources, i + 1)
  {
    hide Walked, EntriesAccepted, TreeOf, TaskFits, EntriesFrom, Settled, LaidOut, OwnedNow, PagesAdded, BookGrown, RecordsOf, RowCap, BookKept, Tracked, Disjoint;
    var tree := TreeOf(e);
    if tree.Err? {
      return Fail(tree.error);
    }
    ghost var before, layouts := walker.book, walker.layouts;
    var rows := walker.rows;
    WalkedSoFar(walker.image, before, layouts, entries, walker.sources, i);
    EntryTask(walker.image, before, entries, walker.sources, i, tree.value);
    var walked := walker.Walk(e.root, tree.value, walker.sources[i]);
    if walked.Err? {
      return Fail(walked.error);
    }
    if !e.index && walker.rows - rows > RowCap(e.name) {
      return Fail(OverLimit);
    }
    WalkedFurther(ddl, walker.image, before, walker.book, layouts, walker.layouts, entries, walker.sources, i, tree.value);
    r := Pass;
  }

  /** Walks the tree of every entry. */
  method WalkEntries(walker: Walker, ghost ddl: map<Bytes, Bytes>, entries: seq<SchemaEntry>) returns (r: Verdict)
    requires walker.Valid() && walker.stack == [] && walker.waiting == [] && EntriesAccepted(ddl, entries)
    requires Walked(walker.image, walker.book, walker.layouts, entries, walker.sources, 0)
    modifies walker, walker.roles, walker.parents, walker.used
    ensures walker.Valid()
    ensures r.Pass? ==> Walked(walker.image, walker.book, walker.layouts, entries, walker.sources, |entries|)
  {
    hide Walked, EntriesAccepted, BookKept, Tracked, Disjoint;
    var i := 0;
    while i < |entries|
      invariant 0 <= i <= |entries|
      invariant walker.Valid() && walker.stack == [] && walker.waiting == []
      invariant Walked(walker.image, walker.book, walker.layouts, entries, walker.sources, i)
    {
      r := WalkEntry(walker, ddl, entries, entries[i], i);
      if r.Fail? {
        return;
      }
      i := i + 1;
    }
    r := Pass;
  }

  lemma WalkedSoFar(image: Image, b: Book, layouts: map<nat, seq<Span>>, entries: seq<SchemaEntry>, sources: seq<Place>, n: nat)
    requires image.Valid() && |image.pages| >= 1 && Walked(image, b, layouts, entries, sources, n)
    ensures LaidOut(image, b.kinds, layouts, {}) && Settled(image, b, [], sources, Nothing) && EntriesFrom(image, b, entries, sources)
    ensures b.trunks == []
  {
  }

  /** Walks the schema tree, checks its entries, then walks the tree of every entry and the free list. */
  method AdmitImage(image: Image, ddl: map<Bytes, Bytes>) returns (r: Verdict)
    requires image.Valid() && |image.pages| >= 1
    ensures r.Pass? ==> Admitted(image, ddl)
  {
    hide Walked, SchemaAccepted, TaskFits, Settled, LaidOut, PagesAdded, BookGrown, RecordsOf, BookKept, Tracked, Disjoint,
         Accounted, AllClaimed, MapAgrees, TrunksEnd, FreePages, EntriesFrom, OwnedNow;
    var walker := new Walker(image);
    FreshTask(image, walker.book);
    var entries := walker.Walk(1, SchemaTree, SchemaRoot);
    if entries.Err? {
      return Fail(entries.error);
    }
    r := CheckSchema(ddl, entries.value);
    if r.Fail? {
      return;
    }
    NoneWalked(image, walker.book, walker.layouts, entries.value, walker.sources);
    AcceptedEntries(ddl, entries.value);
    r := WalkEntries(walker, ddl, entries.value);
    if r.Fail? {
      return;
    }
    WalkedSoFar(image, walker.book, walker.layouts, entries.value, walker.sources, |entries.value|);
    ghost var before, layouts := walker.book, walker.layouts;
    r := walker.FreeList();
    if r.Pass? {
      AllAccounted(image, ddl, before, walker.book, walker.roles[..], walker.parents[..], layouts, entries.value, walker.sources);
    }
  }

  lemma AcceptedEntries(ddl: map<Bytes, Bytes>, entries: seq<SchemaEntry>)
    requires SchemaAccepted(ddl, entries)
    ensures EntriesAccepted(ddl, entries)
  {
  }

  /** The parts of a main file and log are admitted only as an acceptable image with one owner for every page. */
  method Admit(main: Bytes, wal: Option<Bytes>, ddl: map<Bytes, Bytes>) returns (r: Images.Shaped<Image>)
    ensures r.Ok? ==> Acceptable(main, wal) && Composed(main, wal, r.value) && Admitted(r.value, ddl)
  {
    hide Acceptable, Composed, Admitted;
    var image := BuildImage(main, wal);
    if image.Err? {
      return image;
    }
    ComposedNotEmpty(main, wal, image.value);
    var verdict := AdmitImage(image.value, ddl);
    r := if verdict.Fail? then Err(verdict.error) else image;
  }

  lemma ComposedNotEmpty(main: Bytes, wal: Option<Bytes>, image: Image)
    requires Acceptable(main, wal) && Composed(main, wal, image)
    ensures |image.pages| >= 1
  {
    hide LogAcceptable, LogicalPage, FirstPageAgrees, LogicalSize;
  }
}

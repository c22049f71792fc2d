/** The walk over b-trees, overflow chains and the free list of an image, with its ownership and byte maps. */
module Walkers {
  import opened Base
  import opened Images
  import opened Shapes
  import opened Schemas
  import opened Payloads
  import opened Places

  datatype Task = Task(page: nat, parent: nat, depth: nat)

  // ----- what a walk leaves claimed

  ghost predicate Grown(before: seq<nat>, after: seq<nat>) {
    |before| == |after| && forall p :: 0 <= p < |before| && before[p] != 0 ==> after[p] == before[p]
  }

  ghost function Unclaimed(roles: seq<nat>): set<nat> {
    set p | 0 <= p < |roles| && roles[p] == 0
  }

  lemma ClaimShrinks(roles: seq<nat>, p: nat, role: nat)
    requires p < |roles| && roles[p] == 0 && role != 0
    ensures Unclaimed(roles[p := role]) < Unclaimed(roles) && Grown(roles, roles[p := role])
  {
    assert p in Unclaimed(roles);
  }

  lemma NothingGrown(roles: seq<nat>)
    ensures Grown(roles, roles)
  {
  }

  lemma GrownShrinks(before: seq<nat>, after: seq<nat>)
    requires Grown(before, after)
    ensures Unclaimed(after) <= Unclaimed(before)
  {
  }

  // ----- what a walk still owes

  /** Claims of pages that are no b-tree pages only. */
  ghost predicate Widened(a: Book, b: Book) {
    BookGrown(a, b) && a.kinds == b.kinds && a.trunks == b.trunks
  }

  /** The order in which the places of one page are met: the right-most child, then cell after cell. */
  function Turn(pl: Place): nat {
    match pl
    case CellChild(_, i) => i + 1
    case Link(_, i, _) => i + 1
    case EntryRoot(_, i) => i + 1
    case _ => 0
  }

  /** Places that need not have been met yet: later ones of the page or trunk being read. */
  datatype Excuse = Nothing | Cells(page: nat, turn: nat) | Slots(number: nat, slot: nat)

  predicate Excused(pl: Place, e: Excuse) {
    match e
    case Nothing => false
    case Cells(q, t) => Holder(pl) == Some(q) && Turn(pl) >= t
    case Slots(n, i) => pl.Listed? && pl.number == n && pl.slot >= i
  }

  /** Every place that is not excused owns what it names or waits on the stack; roots of entries are kept for later. */
  ghost predicate Settled(image: Image, b: Book, waiting: seq<Place>, sources: seq<Place>, e: Excuse)
    requires image.Valid() && |image.pages| >= 1
  {
    forall pl {:trigger Stands(image, b, pl)} :: Stands(image, b, pl) && !Excused(pl, e) ==> Met(image, b, pl, waiting, sources)
  }

  ghost predicate Met(image: Image, b: Book, pl: Place, waiting: seq<Place>, sources: seq<Place>)
    requires image.Valid() && |image.pages| >= 1 && Stands(image, b, pl)
  {
    if pl.EntryRoot? then pl in sources else Owns(image, b, pl) || pl in waiting
  }

  /** A task stands for a place that leads into the tree being walked. */
  ghost predicate TaskFits(image: Image, b: Book, tree: Tree, task: Task, pl: Place)
    requires image.Valid() && |image.pages| >= 1
  {
    && OfTree(pl) && Stands(image, b, pl)
    && Names(image, b, pl) == task.page && ParentOf(image, b, pl) == task.parent
    && TreeFor(image, ColumnsFor, b.kinds, pl) == Some(tree)
  }

  ghost predicate TasksFit(image: Image, b: Book, tree: Tree, stack: seq<Task>, waiting: seq<Place>)
    requires image.Valid() && |image.pages| >= 1
  {
    |waiting| == |stack| && forall i :: 0 <= i < |stack| ==> TaskFits(image, b, tree, stack[i], waiting[i])
  }

  /** Entries are those of the cells they were read from. */
  ghost predicate EntriesFrom(image: Image, b: Book, entries: seq<SchemaEntry>, sources: seq<Place>)
    requires image.Valid() && |image.pages| >= 1
  {
    |entries| == |sources| && forall k :: 0 <= k < |entries| ==> EntryFromPlace(image, b, entries[k], sources[k])
  }

  ghost predicate EntryFromPlace(image: Image, b: Book, e: SchemaEntry, pl: Place)
    requires image.Valid() && |image.pages| >= 1
  {
    pl.EntryRoot? && Stands(image, b, pl) && EntryIn(image, pl.page, pl.cell) == Ok(e)
  }

  lemma TasksStillFit(image: Image, a: Book, b: Book, tree: Tree, stack: seq<Task>, waiting: seq<Place>)
    requires image.Valid() && |image.pages| >= 1 && TasksFit(image, a, tree, stack, waiting) && BookGrown(a, b)
    ensures TasksFit(image, b, tree, stack, waiting)
  {
    hide Stands, Names, ParentOf, TreeFor;
    forall i | 0 <= i < |stack| ensures TaskFits(image, b, tree, stack[i], waiting[i]) {
      assert TaskFits(image, a, tree, stack[i], waiting[i]);
      StandsStill(image, a, b, waiting[i]);
      TreeForStill(image, ColumnsFor, a.kinds, b.kinds, waiting[i]);
    }
  }

  lemma EntriesStillFrom(image: Image, a: Book, b: Book, entries: seq<SchemaEntry>, sources: seq<Place>)
    requires image.Valid() && |image.pages| >= 1 && EntriesFrom(image, a, entries, sources) && BookGrown(a, b)
    ensures EntriesFrom(image, b, entries, sources)
  {
    hide Stands, EntryIn;
    forall k | 0 <= k < |entries| ensures EntryFromPlace(image, b, entries[k], sources[k]) {
      assert EntryFromPlace(image, a, entries[k], sources[k]);
      StandsStill(image, a, b, sources[k]);
    }
  }

  lemma SettledStill(image: Image, a: Book, b: Book, waiting: seq<Place>, waiting2: seq<Place>, sources: seq<Place>, sources2: seq<Place>, e: Excuse)
    requires image.Valid() && |image.pages| >= 1 && Settled(image, a, waiting, sources, e) && Widened(a, b)
    requires waiting <= waiting2 && sources <= sources2
    ensures Settled(image, b, waiting2, sources2, e)
  {
    hide Excused;
    forall pl {:trigger Stands(image, b, pl)} | Stands(image, b, pl) && !Excused(pl, e)
      ensures Met(image, b, pl, waiting2, sources2)
    {
      SameStands(image, a, b, pl);
    }
  }

  lemma SameStands(image: Image, a: Book, b: Book, pl: Place)
    requires image.Valid() && |image.pages| >= 1 && a.kinds == b.kinds && a.trunks == b.trunks
    ensures Stands(image, a, pl) <==> Stands(image, b, pl)
    ensures Stands(image, a, pl) ==> Names(image, b, pl) == Names(image, a, pl)
  {
    hide ChainIn, EntryIn, CellAt, KindIn, CellsIn, LeafCount, Be32;
  }

  /** All places of a cell are met. */
  lemma CellSettled(image: Image, b: Book, page: nat, i: nat, waiting: seq<Place>, sources: seq<Place>)
    requires image.Valid() && |image.pages| >= 1 && Settled(image, b, waiting, sources, Cells(page, i + 1))
    requires Stands(image, b, CellChild(page, i)) ==> CellChild(page, i) in waiting
    requires forall k :: Stands(image, b, Link(page, i, k)) ==> Owns(image, b, Link(page, i, k))
    requires Stands(image, b, EntryRoot(page, i)) ==> EntryRoot(page, i) in sources
    ensures Settled(image, b, waiting, sources, Cells(page, i + 2))
  {
    hide Stands, Owns;
    forall pl {:trigger Stands(image, b, pl)} | Stands(image, b, pl) && !Excused(pl, Cells(page, i + 2))
      ensures Met(image, b, pl, waiting, sources)
    {
      if Excused(pl, Cells(page, i + 1)) {
        assert Turn(pl) == i + 1;
        assert pl == CellChild(page, i) || pl == EntryRoot(page, i) || (pl.Link? && pl == Link(page, i, pl.step));
      }
    }
  }

  /** Once every cell is met nothing of the page is owed. */
  lemma PageSettled(image: Image, b: Book, page: nat, waiting: seq<Place>, sources: seq<Place>)
    requires image.Valid() && |image.pages| >= 1 && OnImage(image, page)
    requires Settled(image, b, waiting, sources, Cells(page, CellsIn(image, page) + 1))
    ensures Settled(image, b, waiting, sources, Nothing)
  {
    hide Owns, ChainIn, KindIn, CellsIn;
    forall pl {:trigger Stands(image, b, pl)} | Stands(image, b, pl) ensures Met(image, b, pl, waiting, sources) {
      assert !Excused(pl, Cells(page, CellsIn(image, page) + 1));
    }
  }

  /** A page just claimed for a waiting place owes only its own places. */
  lemma PageOpened(image: Image, a: Book, page: nat, pl: Place, tree: Tree, waiting: seq<Place>, sources: seq<Place>)
    requires image.Valid() && |image.pages| >= 1 && Settled(image, a, waiting + [pl], sources, Nothing)
    requires page !in a.owner && page !in a.kinds && Stands(image, a, pl) && Names(image, a, pl) == page && OfTree(pl)
    ensures Settled(image, ClaimedTree(a, page, pl, tree), waiting, sources, Cells(page, 0))
  {
    var b := ClaimedTree(a, page, pl, tree);
    forall x {:trigger Stands(image, b, x)} | Stands(image, b, x) && !Excused(x, Cells(page, 0))
      ensures Met(image, b, x, waiting, sources)
    {
      StoodBefore(image, a, b, x, page);
      StandsStill(image, a, b, x);
      StandsStill(image, a, b, pl);
    }
  }

  lemma StoodBefore(image: Image, a: Book, b: Book, x: Place, page: nat)
    requires image.Valid() && |image.pages| >= 1 && Stands(image, b, x) && Holder(x) != Some(page)
    requires a.trunks == b.trunks && forall q :: q in b.kinds && q != page ==> q in a.kinds && a.kinds[q] == b.kinds[q]
    ensures Stands(image, a, x)
  {
    hide ChainIn, KindIn, CellsIn, LeafCount;
  }

  lemma NoRightMost(image: Image, b: Book, page: nat, waiting: seq<Place>, sources: seq<Place>)
    requires image.Valid() && |image.pages| >= 1 && Settled(image, b, waiting, sources, Cells(page, 0))
    requires Stands(image, b, RightMost(page)) ==> RightMost(page) in waiting
    ensures Settled(image, b, waiting, sources, Cells(page, 1))
  {
    hide Stands, Owns;
    forall pl {:trigger Stands(image, b, pl)} | Stands(image, b, pl) && !Excused(pl, Cells(page, 1))
      ensures Met(image, b, pl, waiting, sources)
    {
      if Excused(pl, Cells(page, 0)) {
        assert pl == RightMost(page);
      }
    }
  }

  // ----- what a b-tree page must be

  const INTERIOR_KINDS: set<nat> := {INTERIOR_INDEX, INTERIOR_TABLE}
  const LEAF_KINDS: set<nat> := {LEAF_INDEX, LEAF_TABLE}

  /** Index trees have index pages, the others table pages. */
  predicate KindFits(kind: nat, tree: Tree) {
    kind in INTERIOR_KINDS + LEAF_KINDS && (Tabular(kind) <==> !tree.IndexTree?)
  }

  function Expected(tree: Tree): nat {
    if tree.SchemaTree? then 5 else |tree.columns|
  }

  /** The values of a record are a schema entry, or fit the columns of the tree. */
  predicate ValuesFit(prefix: Bytes, length: nat, tree: Tree) {
    var values := RecordValues(prefix, length, Expected(tree));
    && values.Some?
    && if tree.SchemaTree? then EntryOf(prefix, values.value).Ok? else ColumnsFit(values.value, tree.columns)
  }

  predicate SizeAllowed(length: nat, tabular: bool, schema: bool) {
    length <= FRAME + 8192 + 512 && (tabular || length <= 512) && (schema ==> length <= 16384)
  }

  /** The record is all there, through exactly its overflow chain, and fits the tree. */
  ghost predicate RecordFits(image: Image, b: Bytes, at: nat, length: nat, tabular: bool, tree: Tree)
    requires image.Valid()
  {
    var local := LocalLength(image.usable, length, tabular);
    var prefix := PrefixOf(image, b, at, length, tabular, tree.SchemaTree?);
    && SizeAllowed(length, tabular, tree.SchemaTree?)
    && PayloadRead(image, b, at, length, tabular, tree.SchemaTree?, ChainOf(image, b, at, length, tabular),
                   (prefix, local + if length > local then 4 else 0))
    && ValuesFit(prefix, length, tree)
  }

  ghost predicate CellFits(image: Image, q: nat, i: nat, tree: Tree)
    requires image.Valid() && OnImage(image, q)
  {
    Recording(KindIn(image, q)) ==>
      && RecordIn(image, q, i).Some?
      && RecordFits(image, PageAt(image, q), RecordIn(image, q, i).value.1, RecordIn(image, q, i).value.0, Tabular(KindIn(image, q)), tree)
  }

  ghost predicate HeaderFits(image: Image, q: nat, tree: Tree)
    requires image.Valid() && OnImage(image, q)
  {
    var b := PageAt(image, q);
    KindFits(KindOf(b, q), tree) && HeaderEnd(b, q) <= image.usable && b[HeadAt(q) + 7] <= 60
  }

  /** A page of a tree: of the tree's kind, its parts apart from each other, each record fitting. */
  ghost predicate PageFits(image: Image, q: nat, tree: Tree, spans: seq<Span>)
    requires image.Valid()
  {
    && OnImage(image, q)
    && HeaderFits(image, q, tree)
    && Laid(image, q, spans)
    && CellsFit(image, q, tree, CellsIn(image, q))
  }

  /** The b-tree pages, except one being read, each with its layout. */
  ghost predicate LaidOut(image: Image, kinds: map<nat, Tree>, layouts: map<nat, seq<Span>>, except: set<nat>)
    requires image.Valid()
  {
    && layouts.Keys == kinds.Keys - except
    && forall p :: p in layouts ==> p in kinds && PageFits(image, p, kinds[p], layouts[p])
  }

  /** Reads the payload size of a record and, in a table, its row number. */
  method ReadRecordStart(b: Bytes, start: nat, tabular: bool) returns (r: Images.Shaped<(nat, nat)>)
    ensures r.Ok? <==> RecordStart(b, start, tabular).Some?
    ensures r.Ok? ==> RecordStart(b, start, tabular) == Some(r.value)
    ensures r.Err? ==> r.error == Corrupt
  {
    hide VarintLength, VarintValue;
    r := Varint(b, start);
    if r.Ok? && tabular {
      var rowid := Varint(b, r.value.1);
      r := if rowid.Ok? then Ok((r.value.0, rowid.value.1)) else Err(Corrupt);
    }
  }

  /** The columns of a record: a schema entry to keep, or values that fit the columns of the tree. */
  method CheckRecord(prefix: Bytes, length: nat, tree: Tree, rowsSoFar: nat, entries: seq<SchemaEntry>)
    returns (r: Images.Shaped<seq<SchemaEntry>>)
    ensures r.Ok? <==> ValuesFit(prefix, length, tree) && rowsSoFar < (if tree.SchemaTree? then MAX_SCHEMA else MAX_ROWS)
    ensures r.Ok? ==> if tree.SchemaTree? then EntryFrom(prefix, length).Ok? && r.value == entries + [EntryFrom(prefix, length).value]
                      else r.value == entries
  {
    hide RecordValues, EntryOf, ColumnsFit;
    var values := RecordHeader(prefix, length, Expected(tree));
    if values.Err? {
      return Err(values.error);
    }
    r := Ok(entries);
    if tree.SchemaTree? {
      if rowsSoFar >= MAX_SCHEMA {
        return Err(OverLimit);
      }
      var entry := EntryOf(prefix, values.value);
      if entry.Err? {
        return Err(entry.error);
      }
      r := Ok(entries + [entry.value]);
    } else if !ColumnsFit(values.value, tree.columns) {
      return Err(Corrupt);
    }
    if rowsSoFar + 1 > MAX_ROWS {
      return Err(OverLimit);
    }
  }

  class Walker {
    const image: Image
    const roles: array<nat>
    const parents: array<nat>
    const used: array<bool>
    var stack: seq<Task>
    var cells: nat
    var payload: nat
    var rows: nat
    var maxDepth: nat
    var maxFanout: nat
    var maxKey: nat
    ghost var book: Book
    ghost var waiting: seq<Place>
    ghost var sources: seq<Place>
    ghost var spans: seq<Span>
    ghost var layouts: map<nat, seq<Span>>

    ghost predicate Shaped()
      reads this
    {
      && image.Valid() && |image.pages| >= 1
      && roles.Length == parents.Length == |image.pages| + 1
      && used.Length == image.page
      && roles != parents
    }

    /** The book says what the role and parent arrays say, and the byte map says which bytes of the current page are taken. */
    ghost predicate Valid()
      reads this, roles, parents, used
    {
      && Shaped()
      && BookKept(image, ColumnsFor, book, roles[..], parents[..])
      && Tracked(used[..], spans) && Disjoint(spans, image.usable)
    }

    /** Reading a page of a tree. */
    ghost predicate Reading(page: nat, tree: Tree)
      reads this, roles, parents, used
    {
      && Valid() && OnImage(image, page)
      && page in book.kinds && book.kinds[page] == tree
      && TasksFit(image, book, tree, stack, waiting)
    }

    /** Nothing claimed but the pointer map. */
    constructor (image: Image)
      requires image.Valid() && |image.pages| >= 1
      ensures this.image == image && fresh(roles) && fresh(parents) && fresh(used)
      ensures Valid() && book == Book(map[], map[], [], []) && stack == [] && waiting == [] && sources == [] && layouts == map[]
      ensures Settled(image, book, [SchemaRoot], [], Nothing) && LaidOut(image, book.kinds, layouts, {})
      ensures cells == payload == rows == 0
    {
      this.image := image;
      var n := |image.pages| + 1;
      roles := new nat[n](_ => 0);
      parents := new nat[n](_ => 0);
      used := new bool[image.page](_ => false);
      stack := [];
      cells, payload, rows, maxDepth, maxFanout, maxKey := 0, 0, 0, 0, 0, 64;
      book, waiting, sources, spans, layouts := Book(map[], map[], [], []), [], [], [], map[];
      new;
      if Be32(image.pages[0], 52) != Ok(0) {
        MarkMaps();
      }
      NothingTracked(used[..], image.usable);
      NothingBooked(image, roles[..], parents[..]);
    }

    /** Marks the pointer-map pages at their interval. */
    method MarkMaps()
      requires Shaped() && Be32(PageAt(image, 1), 52) != Ok(0) && forall p :: 0 <= p < roles.Length ==> roles[p] == 0
      modifies roles
      ensures forall p :: 1 <= p < roles.Length ==> roles[p] == if IsMap(image, p) then POINTER_MAP else 0
    {
      hide MapPage;
      var interval := image.usable / 5 + 1;
      var p := 2;
      ghost var k := 0;
      MapsStart(image.usable);
      while p < roles.Length
        invariant 2 <= p && p == 2 + k * interval && k >= 0
        invariant forall q :: 1 <= q < roles.Length ==> roles[q] == if q < p && IsMap(image, q) then POINTER_MAP else 0
      {
        MapsStep(image.usable, k);
        roles[p] := POINTER_MAP;
        p := p + interval;
        k := k + 1;
      }
    }

    /** Claims a page that nothing has claimed, for the place that names it. */
    method Mark(page: nat, role: nat, parent: nat, ghost pl: Place, ghost tree: Tree) returns (r: Verdict)
      requires Shaped() && BookKept(image, ColumnsFor, book, roles[..], parents[..])
      requires Stands(image, book, pl) && Names(image, book, pl) == page && RoleOf(pl) == role && ParentOf(image, book, pl) == parent
      requires OfTree(pl) ==> TreeFor(image, ColumnsFor, book.kinds, pl) == Some(tree)
      modifies roles, parents, this`book
      ensures r.Pass? <==> 1 <= page < roles.Length && old(roles[page]) == 0
      ensures r.Fail? ==> r.error == Corrupt && roles[..] == old(roles[..]) && parents[..] == old(parents[..]) && book == old(book)
      ensures r.Pass? ==> roles[..] == old(roles[..])[page := role] && parents[..] == old(parents[..])[page := parent]
      ensures r.Pass? ==> page !in old(book.owner) && page !in old(book.kinds) && OnImage(image, page)
      ensures r.Pass? ==> book == if OfTree(pl) then ClaimedTree(old(book), page, pl, tree) else Claimed(old(book), page, pl)
      ensures r.Pass? ==> Unclaimed(roles[..]) < old(Unclaimed(roles[..]))
      ensures BookKept(image, ColumnsFor, book, roles[..], parents[..])
      ensures BookGrown(old(book), book) && Grown(old(roles[..]), roles[..])
    {
      hide BookKept, Unclaimed, Grown, Stands, Names, ParentOf, TreeFor, BookGrown, Claimed, ClaimedTree;
      NothingGrown(roles[..]);
      NothingBookGrown(book);
      if page == 0 || page >= roles.Length || roles[page] != 0 {
        return Fail(Corrupt);
      }
      UnownedIsClaimable(image, book, roles[..], parents[..], page, pl);
      ClaimShrinks(roles[..], page, role);
      if OfTree(pl) {
        TreeClaimKept(image, ColumnsFor, book, roles[..], parents[..], page, pl, tree);
        book := ClaimedTree(book, page, pl, tree);
      } else {
        ClaimKept(image, ColumnsFor, book, roles[..], parents[..], page, pl);
        book := Claimed(book, page, pl);
      }
      roles[page] := role;
      parents[page] := parent;
      r := Pass;
    }

    /** Takes a range of bytes of the current page that nothing has taken. */
    method TakeSpan(start: nat, length: nat) returns (r: Verdict)
      requires Shaped() && Tracked(used[..], spans) && Disjoint(spans, image.usable)
      modifies used, this`spans
      ensures r.Pass? <==> start + length <= image.usable && forall x :: start <= x < start + length ==> !old(used[x])
      ensures r.Pass? ==> spans == old(spans) + [Span(start, length)]
      ensures r.Fail? ==> r.error == Corrupt && used[..] == old(used[..]) && spans == old(spans)
      ensures Tracked(used[..], spans) && Disjoint(spans, image.usable)
    {
      var end := start + length;
      if end > image.usable {
        return Fail(Corrupt);
      }
      var x := start;
      while x < end
        invariant start <= x <= end
        invariant forall y :: start <= y < x ==> !used[y]
      {
        if used[x] {
          return Fail(Corrupt);
        }
        x := x + 1;
      }
      ghost var before := used[..];
      x := start;
      while x < end
        modifies used
        invariant start <= x <= end
        invariant forall y :: 0 <= y < used.Length ==> used[y] == (before[y] || start <= y < x)
      {
        used[x] := true;
        x := x + 1;
      }
      SpanAdded(before, used[..], spans, Span(start, length), image.usable);
      spans := spans + [Span(start, length)];
      r := Pass;
    }

    /** Claims overflow pages until the rest of a payload is there, collecting as much of it as is wanted. */
    method ClaimChain(page: nat, ghost cell: nat, first: nat, rest: nat, wanted: nat, local: Bytes)
      returns (r: Images.Shaped<Bytes>, ghost chain: seq<nat>)
      requires Shaped() && BookKept(image, ColumnsFor, book, roles[..], parents[..])
      requires OnImage(image, page) && page in book.kinds && rest > 0
      requires ChainIn(image, page, cell) == ChainFrom(image, first, rest) && Linkable(image, book, page, cell)
      modifies roles, parents, this`book
      ensures BookKept(image, ColumnsFor, book, roles[..], parents[..])
      ensures Widened(old(book), book) && Grown(old(roles[..]), roles[..])
      ensures r.Ok? ==> chain == ChainFrom(image, first, rest) && WholeChain(image, first, chain, rest)
      ensures r.Ok? ==> LinksOwned(image, book, page, cell, |chain|)
      ensures r.Ok? ==> r.value == Wanted(local + Overflow(image, chain, rest), wanted)
    {
      hide BookKept, Overflow, Wanted, ChainRead, Be32, Collected, Grown, Widened, LinksOwned, ChainIn, ChainFrom, Stands, Names, ParentOf, Linkable;
      chain := [];
      var prefix := if |local| < wanted then local else local[..wanted];
      var left: nat, previous: nat, next: nat := rest, page, first;
      NothingCollected(image, first, rest, local, wanted);
      NothingLinked(image, book, page, cell, first, rest);
      NothingGrown(roles[..]);
      NothingWidened(book);
      while left != 0
        invariant BookKept(image, ColumnsFor, book, roles[..], parents[..])
        invariant Widened(old(book), book) && Grown(old(roles[..]), roles[..])
        invariant Linkable(image, book, page, cell) && page in book.kinds
        invariant Collected(image, first, chain, rest, left, local, wanted, prefix)
        invariant ChainIn(image, page, cell) == chain + ChainFrom(image, next, left)
        invariant LinksOwned(image, book, page, cell, |chain|)
        invariant OnImage(image, previous) && (if chain == [] then previous == page && next == first
                                               else previous == chain[|chain| - 1] && Be32(image.pages[previous - 1], 0) == Ok(next))
        invariant left == 0 ==> chain != [] && next == 0
        decreases left
      {
        ghost var before, rolesBefore := book, roles[..];
        var atFirst := previous == page;
        PreviousIsPage(image, book, roles[..], parents[..], page, cell, chain, ChainFrom(image, next, left), previous);
        NextLink(image, book, page, cell, chain, next, left, previous);
        var marked := Mark(next, if atFirst then FIRST_OVERFLOW else LATER_OVERFLOW, previous, Link(page, cell, |chain|), SchemaTree);
        if marked.Fail? {
          return Err(Corrupt), chain;
        }
        var overflow := image.Get(next).value;
        var take := if left < image.usable - 4 then left else image.usable - 4;
        CollectedFurther(image, first, chain, rest, left, local, wanted, prefix, next);
        LinkedFurther(image, before, page, cell, chain, next, left);
        WidenedFurther(old(book), before, next, Link(page, cell, |chain|));
        GrownFurther(old(roles[..]), rolesBefore, roles[..]);
        if |prefix| < wanted {
          prefix := prefix + overflow[4..4 + (if take < wanted - |prefix| then take else wanted - |prefix|)];
        }
        left := left - take;
        chain := chain + [next];
        previous := next;
        next := Be32(overflow, 0).value;
        if left == 0 && next != 0 {
          return Err(Corrupt), chain;
        }
      }
      CollectedAll(image, first, chain, rest, local, wanted, prefix);
      ChainEnds(image, next, chain);
      r := Ok(prefix);
    }

    /** Claims the overflow chain of a payload and returns the payload's beginning and its size in the cell. */
    method PayloadPrefix(page: nat, ghost cell: nat, b: Bytes, start: nat, length: nat, tabular: bool, schema: bool)
      returns (r: Images.Shaped<(Bytes, nat)>)
      requires Valid() && Linkable(image, book, page, cell) && b == PageAt(image, page) && tabular == Tabular(KindIn(image, page))
      requires RecordIn(image, page, cell) == Some((length, start))
      modifies roles, parents, this`book, this`payload
      ensures Valid() && Widened(old(book), book) && Grown(old(roles[..]), roles[..])
      ensures r.Ok? ==> SizeAllowed(length, tabular, schema) && payload == old(payload) + length
      ensures r.Ok? ==> PayloadRead(image, b, start, length, tabular, schema, ChainOf(image, b, start, length, tabular), r.value)
      ensures r.Ok? ==> LinksOwned(image, book, page, cell, |ChainIn(image, page, cell)|)
    {
      hide BookKept, Tracked, Disjoint, Overflow, LocalLength, PayloadRead, Wanted, Grown, Widened, LinksOwned, ChainFrom, WholeChain, KindIn, CellsIn, RecordIn;
      NothingGrown(roles[..]);
      NothingWidened(book);
      if length > FRAME + 8192 + 512 || (!tabular && length > 512) || (schema && length > 16384) {
        return Err(OverLimit);
      }
      var local := LocalLength(image.usable, length, tabular);
      var wanted := if schema || length < 128 then length else 128;
      if start + local > |b| {
        return Err(Corrupt);
      }
      var part := b[start..start + local];
      if length == local {
        LocalRead(image, b, start, length, tabular, schema);
        NoLinks(image, book, page, cell);
        payload := payload + length;
        return Ok((if |part| < wanted then part else part[..wanted], local));
      }
      var pointer := Be32(b, start + local);
      if pointer.Err? {
        return Err(Corrupt);
      }
      var claimed, chain := ClaimChain(page, cell, pointer.value, length - local, wanted, part);
      if claimed.Err? {
        return Err(claimed.error);
      }
      ChainedRead(image, b, start, length, tabular, schema, chain, claimed.value);
      payload := payload + length;
      r := Ok((claimed.value, local + 4));
    }

    /** Pushes a child of a b-tree page, unless there is no room for another task. */
    method PushChild(task: Task, b: Bytes, at: nat, tree: Tree, ghost pl: Place) returns (r: Verdict)
      requires Reading(task.page, tree) && b == PageAt(image, task.page)
      requires Stands(image, book, pl) && OfTree(pl) && ParentOf(image, book, pl) == task.page && Names(image, book, pl) == NumberOr0(Be32(b, at))
      requires pl.RightMost? || pl.CellChild?
      modifies this`stack, this`waiting
      ensures Reading(task.page, tree)
      ensures r.Pass? ==> Be32(b, at).Ok? && stack == old(stack) + [Task(Be32(b, at).value, task.page, task.depth + 1)]
      ensures if r.Pass? then waiting == old(waiting) + [pl] else waiting == old(waiting)
    {
      hide BookKept, Tracked, Disjoint, Stands, Names, Be32;
      if |stack| == roles.Length {
        return Fail(OverLimit);
      }
      var child := Be32(b, at);
      if child.Err? {
        return Fail(Corrupt);
      }
      var next := Task(child.value, task.page, task.depth + 1);
      assert TaskFits(image, book, tree, next, pl);
      stack := stack + [next];
      waiting := waiting + [pl];
      r := Pass;
    }

    /** The record in a cell: its chain is claimed, its header tiles it, its values fit the tree. */
    method VisitRecord(task: Task, ghost i: nat, b: Bytes, start: nat, tabular: bool, tree: Tree, rowsSoFar: nat, entries: seq<SchemaEntry>)
      returns (r: Images.Shaped<(nat, seq<SchemaEntry>)>)
      requires Valid() && Linkable(image, book, task.page, i) && b == PageAt(image, task.page) && tabular == Tabular(KindIn(image, task.page))
      requires start == CellAt(image, task.page, i) + if Leaf(KindIn(image, task.page)) then 0 else 4
      modifies roles, parents, this`book, this`payload, this`maxKey
      ensures Valid() && Widened(old(book), book) && Grown(old(roles[..]), roles[..])
      ensures r.Ok? ==> RecordEnd(b, start, tabular, image.usable) == Some(r.value.0) && CellFits(image, task.page, i, tree)
      ensures r.Ok? ==> LinksOwned(image, book, task.page, i, |ChainIn(image, task.page, i)|)
      ensures r.Ok? ==> if tree.SchemaTree? then EntryIn(image, task.page, i).Ok? && r.value.1 == entries + [EntryIn(image, task.page, i).value]
                        else r.value.1 == entries
    {
      hide BookKept, Tracked, Disjoint, Grown, Widened, RecordStart, LocalLength, PayloadRead, PrefixOf, ChainOf, ChainIn, LinksOwned, ValuesFit, EntryFrom, KindIn, CellsIn, CellAt;
      NothingGrown(roles[..]);
      NothingWidened(book);
      var begun := ReadRecordStart(b, start, tabular);
      if begun.Err? {
        return Err(begun.error);
      }
      var length, at := begun.value.0, begun.value.1;
      if !tabular && length > maxKey {
        maxKey := length;
      }
      var read := PayloadPrefix(task.page, i, b, at, length, tabular, tree.SchemaTree?);
      if read.Err? {
        return Err(read.error);
      }
      PayloadIs(image, b, at, length, tabular, tree.SchemaTree?, read.value);
      var checked := CheckRecord(read.value.0, length, tree, rowsSoFar, entries);
      if checked.Err? {
        return Err(checked.error);
      }
      r := Ok((at + read.value.1, checked.value));
    }

    /** What a cell holds: its child waits, its record is read, an entry is kept. */
    method VisitContent(task: Task, b: Bytes, i: nat, start: nat, tree: Tree, rowsSoFar: nat, entries: seq<SchemaEntry>)
      returns (r: Images.Shaped<(nat, nat, seq<SchemaEntry>)>)
      requires Reading(task.page, tree) && b == PageAt(image, task.page) && KindFits(KindIn(image, task.page), tree)
      requires i < CellsIn(image, task.page) && start == CellAt(image, task.page, i)
      requires Settled(image, book, waiting, sources, Cells(task.page, i + 1)) && EntriesHeld(image, book, tree, entries, sources)
      modifies roles, parents, this`book, this`payload, this`maxKey, this`stack, this`waiting, this`sources
      ensures Reading(task.page, tree) && Widened(old(book), book) && Grown(old(roles[..]), roles[..])
      ensures r.Ok? ==> Settled(image, book, waiting, sources, Cells(task.page, i + 2)) && CellFits(image, task.page, i, tree)
      ensures r.Ok? ==> CellEnd(b, start, KindIn(image, task.page), image.usable) == Some(r.value.0)
      ensures r.Ok? ==> r.value.1 == rowsSoFar + if Recording(KindIn(image, task.page)) then 1 else 0
      ensures r.Ok? ==> EntriesHeld(image, book, tree, r.value.2, sources) && (!tree.SchemaTree? ==> sources == old(sources))
    {
      hide BookKept, Tracked, Disjoint, TasksFit, Grown, Widened, VarintLength, VarintValue, RecordEnd, RecordIn, RecordFits, ChainIn, LinksOwned, Settled, EntriesFrom, EntryIn, BookGrown, CellsIn, CellAt, Be32;
      NothingGrown(roles[..]);
      NothingWidened(book);
      var kind := KindOf(b, task.page);
      var at: nat := start;
      if !Leaf(kind) {
        var pushed := PushChild(task, b, at, tree, CellChild(task.page, i));
        if pushed.Fail? {
          return Err(pushed.error);
        }
        at := at + 4;
      }
      if Tabular(kind) && !Leaf(kind) {
        var rowid := Varint(b, at);
        if rowid.Err? {
          return Err(Corrupt);
        }
        CellMet(image, old(book), book, task.page, i, tree, old(waiting), waiting, old(sources), sources);
        return Ok((rowid.value.1, rowsSoFar, entries));
      }
      ghost var before := book;
      var record := VisitRecord(task, i, b, at, Tabular(kind), tree, rowsSoFar, entries);
      WidenedGrown(before, book);
      TasksStillFit(image, before, book, tree, stack, waiting);
      if record.Err? {
        return Err(record.error);
      }
      if tree.SchemaTree? {
        EntriesFurther(image, before, book, entries, sources, task.page, i);
        sources := sources + [EntryRoot(task.page, i)];
      }
      CellMet(image, old(book), book, task.page, i, tree, old(waiting), waiting, old(sources), sources);
      r := Ok((record.value.0, rowsSoFar + 1, record.value.1));
    }

    /** One cell: what it holds, and the bytes it takes. */
    method VisitCell(task: Task, b: Bytes, i: nat, tree: Tree, rowsSoFar: nat, entries: seq<SchemaEntry>)
      returns (r: Images.Shaped<(nat, seq<SchemaEntry>)>)
      requires Reading(task.page, tree) && b == PageAt(image, task.page) && KindFits(KindIn(image, task.page), tree)
      requires i < CellsIn(image, task.page) && HeaderEnd(b, task.page) <= image.usable
      requires Settled(image, book, waiting, sources, Cells(task.page, i + 1)) && EntriesHeld(image, book, tree, entries, sources)
      modifies roles, parents, used, this`book, this`payload, this`maxKey, this`stack, this`waiting, this`sources, this`spans
      ensures Reading(task.page, tree) && Widened(old(book), book) && Grown(old(roles[..]), roles[..])
      ensures r.Ok? ==> Settled(image, book, waiting, sources, Cells(task.page, i + 2)) && CellFits(image, task.page, i, tree)
      ensures r.Ok? ==> |spans| == |old(spans)| + 1 && old(spans) <= spans
                        && CellLaid(b, task.page, i, spans[|spans| - 1], image.usable)
      ensures r.Ok? ==> r.value.0 == rowsSoFar + if Recording(KindIn(image, task.page)) then 1 else 0
      ensures r.Ok? ==> EntriesHeld(image, book, tree, r.value.1, sources) && (!tree.SchemaTree? ==> sources == old(sources))
    {
      hide BookKept, Tracked, Disjoint, TasksFit, Grown, Widened, CellFits, Settled, EntriesHeld, KindFits, CellEnd, Be16;
      NothingGrown(roles[..]);
      NothingWidened(book);
      var offset := Be16(b, PointersAt(b, task.page) + i * 2);
      if offset.Err? || offset.value < HeaderEnd(b, task.page) || offset.value >= image.usable {
        return Err(Corrupt);
      }
      var held := VisitContent(task, b, i, offset.value, tree, rowsSoFar, entries);
      if held.Err? {
        return Err(held.error);
      }
      CellNotEmpty(b, offset.value, KindOf(b, task.page), image.usable);
      var taken := TakeSpan(offset.value, held.value.0 - offset.value);
      if taken.Fail? {
        return Err(taken.error);
      }
      r := Ok((held.value.1, held.value.2));
    }

    /** The free blocks of a page, in strictly rising order. */
    method VisitFreeBlocks(b: Bytes, first: nat) returns (r: Verdict, ghost blocks: seq<Span>)
      requires Valid() && first < 0x1_0000
      modifies used, this`spans
      ensures Valid()
      ensures r.Pass? ==> spans == old(spans) + blocks && FreeChainEnds(b, first, blocks)
    {
      hide BookKept, Tracked, Disjoint;
      blocks := [];
      var free := first;
      while free != 0
        invariant Valid()
        invariant spans == old(spans) + blocks && FreeChain(b, first, blocks)
        invariant Ok(free) == (if blocks == [] then Ok(first) else Be16(b, blocks[|blocks| - 1].start))
        invariant free < 0x1_0000
        decreases if free == 0 then 0 else 0x1_0000 - free
      {
        var next := Be16(b, free);
        var size := Be16(b, free + 2);
        if next.Err? || size.Err? || size.value < 4 || (next.value != 0 && next.value < free + size.value) {
          return Fail(Corrupt), blocks;
        }
        var taken := TakeSpan(free, size.value);
        if taken.Fail? {
          return taken, blocks;
        }
        FreeChainFurther(b, first, blocks, Span(free, size.value));
        blocks := blocks + [Span(free, size.value)];
        free := next.value;
      }
      r := Pass;
    }

    /** Forgets the byte map of the page before. */
    method ClearUsed()
      requires Valid()
      modifies used, this`spans
      ensures Valid() && spans == []
    {
      hide BookKept;
      forall x | 0 <= x < used.Length {
        used[x] := false;
      }
      spans := [];
      NothingTracked(used[..], image.usable);
      assert roles[..] == old(roles[..]) && parents[..] == old(parents[..]);
    }

    /** All cells of a page, in the order of its pointers. */
    method VisitCells(task: Task, b: Bytes, tree: Tree, rowsSoFar: nat, entriesSoFar: seq<SchemaEntry>)
      returns (r: Images.Shaped<(nat, seq<SchemaEntry>)>)
      requires Reading(task.page, tree) && b == PageAt(image, task.page) && KindFits(KindIn(image, task.page), tree)
      requires HeaderEnd(b, task.page) <= image.usable && spans == [Span(0, HeaderEnd(b, task.page))]
      requires Settled(image, book, waiting, sources, Cells(task.page, 1)) && EntriesHeld(image, book, tree, entriesSoFar, sources)
      modifies roles, parents, used, this`book, this`payload, this`maxKey, this`stack, this`waiting, this`sources, this`spans
      ensures Reading(task.page, tree) && Widened(old(book), book) && Grown(old(roles[..]), roles[..])
      ensures r.Ok? ==> Settled(image, book, waiting, sources, Nothing) && CellsFit(image, task.page, tree, CellsIn(image, task.page))
      ensures r.Ok? ==> CellsLaid(b, task.page, CellCount(b, task.page), spans, image.usable)
      ensures r.Ok? ==> r.value.0 == rowsSoFar + RecordCount(image, task.page)
      ensures r.Ok? ==> EntriesHeld(image, book, tree, r.value.1, sources) && (!tree.SchemaTree? ==> sources == old(sources))
    {
      hide BookKept, Tracked, Disjoint, TasksFit, Grown, Widened, CellFits, Settled, EntriesHeld, KindFits, CellLaid;
      NothingGrown(roles[..]);
      NothingWidened(book);
      var counted, entries := rowsSoFar, entriesSoFar;
      var i := 0;
      while i < CellCount(b, task.page)
        invariant 0 <= i <= CellCount(b, task.page)
        invariant Reading(task.page, tree) && Widened(old(book), book) && Grown(old(roles[..]), roles[..])
        invariant Settled(image, book, waiting, sources, Cells(task.page, i + 1)) && CellsFit(image, task.page, tree, i)
        invariant CellsLaid(b, task.page, i, spans, image.usable)
        invariant counted == rowsSoFar + if Recording(KindIn(image, task.page)) then i else 0
        invariant EntriesHeld(image, book, tree, entries, sources) && (!tree.SchemaTree? ==> sources == old(sources))
      {
        ghost var before, rolesBefore := book, roles[..];
        var visited := VisitCell(task, b, i, tree, counted, entries);
        WidenedOn(old(book), before, book);
        GrownFurther(old(roles[..]), rolesBefore, roles[..]);
        if visited.Err? {
          return visited;
        }
        counted, entries := visited.value.0, visited.value.1;
        i := i + 1;
      }
      PageSettled(image, book, task.page, waiting, sources);
      r := Ok((counted, entries));
    }

    /** The header of a page: of the tree's kind, its bytes taken, its right-most child waiting. */
    method OpenPage(task: Task, tree: Tree) returns (r: Verdict)
      requires Reading(task.page, tree) && Settled(image, book, waiting, sources, Cells(task.page, 0))
      modifies this`stack, this`cells, this`maxFanout, this`waiting, this`spans, used
      ensures Reading(task.page, tree)
      ensures r.Pass? ==> Settled(image, book, waiting, sources, Cells(task.page, 1)) && HeaderFits(image, task.page, tree)
      ensures r.Pass? ==> spans == [Span(0, HeaderEnd(PageAt(image, task.page), task.page))]
    {
      hide BookKept, Tracked, Disjoint, TasksFit, Settled, Be32, Be16;
      var b := image.Get(task.page).value;
      var kind := KindOf(b, task.page);
      if !(kind == INTERIOR_INDEX || kind == INTERIOR_TABLE || kind == LEAF_INDEX || kind == LEAF_TABLE)
         || Tabular(kind) == tree.IndexTree? {
        return Fail(Corrupt);
      }
      var count := CellCount(b, task.page);
      if count > maxFanout {
        maxFanout := count;
      }
      if HeaderEnd(b, task.page) > image.usable || b[HeadAt(task.page) + 7] > 60 {
        return Fail(Corrupt);
      }
      ClearUsed();
      var taken := TakeSpan(0, HeaderEnd(b, task.page));
      if taken.Fail? {
        return taken;
      }
      cells := cells + count;
      if cells > MAX_CELLS {
        return Fail(OverLimit);
      }
      if !Leaf(kind) {
        var pushed := PushChild(task, b, HeadAt(task.page) + 8, tree, RightMost(task.page));
        if pushed.Fail? {
          return pushed;
        }
      }
      RightMostMet(image, book, task.page, old(waiting), waiting, sources);
      r := Pass;
    }

    /** Reads a claimed b-tree page: its children wait, its records fit the tree, its parts lie apart. */
    method ReadPage(task: Task, tree: Tree, rowsSoFar: nat, entries: seq<SchemaEntry>) returns (r: Images.Shaped<(nat, seq<SchemaEntry>)>)
      requires Reading(task.page, tree)
      requires Settled(image, book, waiting, sources, Cells(task.page, 0)) && EntriesHeld(image, book, tree, entries, sources)
      modifies this`stack, this`cells, this`payload, this`maxFanout, this`maxKey, this`book, this`waiting, this`sources, this`spans, roles, parents, used
      ensures Reading(task.page, tree) && Widened(old(book), book) && Grown(old(roles[..]), roles[..])
      ensures r.Ok? ==> PageFits(image, task.page, tree, spans) && Settled(image, book, waiting, sources, Nothing)
      ensures r.Ok? ==> r.value.0 == rowsSoFar + RecordCount(image, task.page)
      ensures r.Ok? ==> EntriesHeld(image, book, tree, r.value.1, sources) && (!tree.SchemaTree? ==> sources == old(sources))
    {
      hide BookKept, Tracked, Disjoint, TasksFit, Grown, Widened, Settled, EntriesHeld, FreeChainEnds, CellsLaid, CellsFit, KindFits, Laid, Be32, Be16;
      NothingGrown(roles[..]);
      NothingWidened(book);
      var page := OpenPage(task, tree);
      if page.Fail? {
        return Err(page.error);
      }
      var b := image.Get(task.page).value;
      r := VisitCells(task, b, tree, rowsSoFar, entries);
      if r.Err? {
        return;
      }
      ghost var headAndCells := spans;
      var freed, blocks := VisitFreeBlocks(b, Be16(b, HeadAt(task.page) + 1).value);
      if freed.Fail? {
        return Err(freed.error);
      }
      PageLaid(image, task.page, headAndCells, blocks, spans);
    }

    /** Between two pages of a tree: all is settled but what waits on the stack. */
    ghost predicate Standing(tree: Tree, entries: seq<SchemaEntry>)
      reads this, roles, parents, used
    {
      && Valid()
      && LaidOut(image, book.kinds, layouts, {})
      && TasksFit(image, book, tree, stack, waiting)
      && Settled(image, book, waiting, sources, Nothing)
      && EntriesHeld(image, book, tree, entries, sources)
    }

    /** Claims a b-tree page for the place that waits for it. */
    method ClaimPage(task: Task, ghost pl: Place, tree: Tree, ghost entries: seq<SchemaEntry>) returns (r: Verdict)
      requires Valid() && TasksFit(image, book, tree, stack, waiting) && TaskFits(image, book, tree, task, pl)
      requires Settled(image, book, waiting + [pl], sources, Nothing) && EntriesHeld(image, book, tree, entries, sources)
      modifies this`book, roles, parents
      ensures Valid() && BookGrown(old(book), book) && book.trunks == old(book.trunks)
      ensures Grown(old(roles[..]), roles[..])
      ensures r.Pass? ==> Reading(task.page, tree) && Settled(image, book, waiting, sources, Cells(task.page, 0))
      ensures r.Pass? ==> EntriesHeld(image, book, tree, entries, sources) && Unclaimed(roles[..]) < old(Unclaimed(roles[..]))
      ensures r.Pass? ==> task.page !in old(book.kinds) && book.kinds == old(book.kinds)[task.page := tree]
      ensures r.Pass? ==> Stands(image, book, pl) && Owns(image, book, pl)
    {
      hide BookKept, Tracked, Disjoint, TasksFit, Grown, BookGrown, Settled, EntriesHeld, Unclaimed, Stands, Names, ParentOf, TreeFor, Owns;
      ghost var before := book;
      RoleOfTask(image, book, pl);
      r := Mark(task.page, if task.parent == 0 then ROOT else NON_ROOT, task.parent, pl, tree);
      if r.Fail? {
        return;
      }
      TasksStillFit(image, before, book, tree, stack, waiting);
      PageOpened(image, before, task.page, pl, tree, waiting, sources);
      EntriesStillHeld(image, before, book, tree, entries, sources);
      OwnsClaimed(image, before, task.page, pl, tree);
    }

    /** The next page of a tree, from the stack: claimed for the place that waits for it, then read. */
    method VisitNext(tree: Tree, rowsSoFar: nat, entries: seq<SchemaEntry>) returns (r: Images.Shaped<(nat, seq<SchemaEntry>)>, ghost page: nat)
      requires Standing(tree, entries) && stack != []
      modifies this, roles, parents, used
      ensures Valid() && BookGrown(old(book), book) && rows == old(rows) && book.trunks == old(book.trunks)
      ensures r.Ok? ==> Standing(tree, r.value.1) && (!tree.SchemaTree? ==> sources == old(sources))
      ensures r.Ok? ==> Unclaimed(roles[..]) < old(Unclaimed(roles[..]))
      ensures r.Ok? ==> OnImage(image, page) && page !in old(book.kinds) && book.kinds == old(book.kinds)[page := tree]
      ensures r.Ok? ==> r.value.0 == rowsSoFar + RecordCount(image, page)
      ensures |old(waiting)| == |old(stack)| && (r.Ok? ==> OwnedNow(image, book, old(waiting)[|old(waiting)| - 1]))
    {
      hide BookKept, Tracked, Disjoint, TasksFit, Grown, BookGrown, Settled, EntriesHeld, LaidOut, PageFits, Unclaimed, Stands, Owns, TaskFits, RecordCount;
      NothingBookGrown(book);
      var task := stack[|stack| - 1];
      page := task.page;
      PopTask(image, book, tree, stack, waiting);
      ghost var before, pl := book, waiting[|waiting| - 1];
      stack := stack[..|stack| - 1];
      waiting := waiting[..|waiting| - 1];
      if task.depth > MAX_DEPTH {
        return Err(OverLimit), page;
      }
      if task.depth > maxDepth {
        maxDepth := task.depth;
      }
      var marked := ClaimPage(task, pl, tree, entries);
      if marked.Fail? {
        return Err(marked.error), page;
      }
      ghost var claimed, rolesClaimed := book, roles[..];
      r := ReadPage(task, tree, rowsSoFar, entries);
      WidenedGrown(claimed, book);
      BookGrowsOn(before, claimed, book);
      GrownShrinks(rolesClaimed, roles[..]);
      if r.Ok? {
        OwnsStill(image, claimed, book, pl);
        LaidOutFurther(image, before.kinds, layouts, page, tree, spans);
        layouts := layouts[page := spans];
      }
    }

    /** A whole tree from its root, which the place names; the unclaimed pages grow fewer with every page visited. */
    method Walk(root: nat, tree: Tree, ghost pl: Place) returns (r: Images.Shaped<seq<SchemaEntry>>)
      requires Valid() && LaidOut(image, book.kinds, layouts, {}) && stack == [] && waiting == []
      requires TaskFits(image, book, tree, Task(root, 0, 1), pl) && Settled(image, book, [pl], sources, Nothing)
      requires tree.SchemaTree? ==> sources == []
      modifies this, roles, parents, used
      ensures Valid() && BookGrown(old(book), book) && book.trunks == old(book.trunks)
      ensures r.Ok? ==> Standing(tree, r.value) && stack == [] && waiting == [] && (!tree.SchemaTree? ==> sources == old(sources))
      ensures r.Ok? ==> OwnedNow(image, book, pl) && PagesAdded(old(book.kinds), book.kinds, tree)
      ensures r.Ok? ==> rows == old(rows) + |RecordsOf(image, book.kinds.Keys - old(book.kinds.Keys))|
    {
      hide TaskFits, BookKept, Tracked, Disjoint, BookGrown, Settled, EntriesHeld, LaidOut, Unclaimed, Stands, Names, ParentOf, TreeFor, RecordCount, RecordsOf, PagesAdded, OwnedNow;
      stack := [Task(root, 0, 1)];
      waiting := [pl];
      var counted: nat := 0;
      var entries: seq<SchemaEntry> := [];
      var started := false;
      NothingBookGrown(book);
      NothingAdded(image, book.kinds, tree);
      NothingHeld(image, book, tree);
      while stack != []
        invariant Standing(tree, entries) && (!tree.SchemaTree? ==> sources == old(sources))
        invariant BookGrown(old(book), book) && book.trunks == old(book.trunks) && rows == old(rows)
        invariant PagesAdded(old(book.kinds), book.kinds, tree)
        invariant counted == |RecordsOf(image, book.kinds.Keys - old(book.kinds.Keys))|
        invariant if started then OwnedNow(image, book, pl) else waiting == [pl]
        decreases Unclaimed(roles[..]), |stack|
      {
        hide Standing, Valid;
        ghost var before := book;
        var visited, page := VisitNext(tree, counted, entries);
        BookGrowsOn(old(book), before, book);
        if visited.Err? {
          return Err(visited.error);
        }
        OwnedStillNow(image, before, book, pl);
        OneMorePage(image, old(book.kinds), before.kinds, page, tree);
        counted, entries, started := visited.value.0, visited.value.1, true;
      }
      rows := rows + counted;
      if rows > MAX_CELLS {
        return Err(OverLimit);
      }
      r := Ok(entries);
    }

    /** One page of the free list, with every page it lists. */
    method VisitTrunk(trunk: nat) returns (r: Images.Shaped<nat>)
      requires Valid() && Settled(image, book, [], sources, Nothing)
      requires TrunksFollow(image, book.trunks) && trunk == Following(image, book.trunks)
      modifies roles, parents, this`book
      ensures Valid() && BookGrown(old(book), book) && book.kinds == old(book.kinds)
      ensures r.Ok? ==> Unclaimed(roles[..]) < old(Unclaimed(roles[..])) && OnImage(image, trunk)
      ensures r.Ok? ==> book.trunks == old(book.trunks) + [trunk] && TrunksFollow(image, book.trunks)
      ensures r.Ok? ==> Settled(image, book, [], sources, Nothing)
      ensures r.Ok? ==> |FreePages(book)| == |FreePages(old(book))| + r.value
    {
      hide BookKept, Tracked, Disjoint, BookGrown, Settled, Unclaimed, FreePages, TrunksFollow, Following;
      ghost var n0: nat := |book.trunks|;
      ghost var before := book;
      book := book.(trunks := book.trunks + [trunk]);
      TrunkAdded(image, before, roles[..], parents[..], sources, trunk);
      ghost var added := book;
      var marked := Mark(trunk, FREE, 0, Trunk(n0), SchemaTree);
      BookGrowsOn(before, added, book);
      if marked.Fail? {
        return Err(marked.error);
      }
      TrunkMet(image, before, added, book, sources, trunk);
      var page := image.Get(trunk).value;
      var n := Be32(page, 4).value;
      if n > (image.usable - 8) / 4 {
        return Err(Corrupt);
      }
      var i := 0;
      while i < n
        invariant 0 <= i <= n
        invariant Valid() && BookGrown(before, book) && book.kinds == before.kinds && book.trunks == added.trunks
        invariant Unclaimed(roles[..]) < old(Unclaimed(roles[..]))
        invariant Settled(image, book, [], sources, Slots(n0, i))
        invariant |FreePages(book)| == |FreePages(before)| + 1 + i
      {
        ghost var last := book;
        var leaf := Mark(Be32(page, 8 + 4 * i).value, FREE, 0, Listed(n0, i), SchemaTree);
        BookGrowsOn(before, last, book);
        if leaf.Fail? {
          return Err(leaf.error);
        }
        SlotMet(image, last, book, sources, n0, i, Be32(page, 8 + 4 * i).value);
        i := i + 1;
      }
      SlotsSettled(image, book, sources, n0);
      r := Ok(1 + n);
    }

    /** The free list claims every page that no tree claimed, and the pointer map agrees about all of them. */
    method FreeList() returns (r: Verdict)
      requires Valid() && Settled(image, book, [], sources, Nothing) && book.trunks == []
      modifies roles, parents, this`book
      ensures Valid() && BookGrown(old(book), book) && book.kinds == old(book.kinds)
      ensures r.Pass? ==> Settled(image, book, [], sources, Nothing) && TrunksEnd(image, book.trunks)
      ensures r.Pass? ==> AllClaimed(roles[..]) && MapAgrees(image, roles[..], parents[..])
      ensures r.Pass? ==> Be32(image.pages[0], 36) == Ok(|FreePages(book)|)
    {
      hide BookKept, Tracked, Disjoint, Settled, AllClaimed, MapAgrees, BookGrown, FreePages, TrunksFollow, Unclaimed;
      NothingBookGrown(book);
      NothingFree(image, book, roles[..], parents[..]);
      var header := image.pages[0];
      var expected := Be32(header, 36).value;
      if expected >= roles.Length {
        return Fail(Corrupt);
      }
      var next := Be32(header, 32).value;
      var count := 0;
      while next != 0
        invariant Valid() && BookGrown(old(book), book) && book.kinds == old(book.kinds)
        invariant Settled(image, book, [], sources, Nothing) && TrunksFollow(image, book.trunks) && next == Following(image, book.trunks)
        invariant |FreePages(book)| == count
        decreases Unclaimed(roles[..])
      {
        ghost var before := book;
        var visited := VisitTrunk(next);
        BookGrowsOn(old(book), before, book);
        if visited.Err? {
          return Fail(visited.error);
        }
        count := count + visited.value;
        if count > expected {
          return Fail(Corrupt);
        }
        FollowingLast(image, before.trunks, next);
        next := Be32(image.Get(next).value, 0).value;
      }
      TrunksAreOver(image, book.trunks);
      if count != expected {
        return Fail(Corrupt);
      }
      r := CheckMap();
    }

    /** Nothing is left unclaimed, and every pointer-map entry names the role and parent that the walk found. */
    method CheckMap() returns (r: Verdict)
      requires Shaped()
      ensures r.Pass? <==> AllClaimed(roles[..]) && MapAgrees(image, roles[..], parents[..])
    {
      var p := 1;
      while p < roles.Length
        invariant 1 <= p <= roles.Length
        invariant forall q :: 1 <= q < p ==> roles[q] != 0
      {
        if roles[p] == 0 {
          assert roles[..][p] == 0;
          return Fail(Corrupt);
        }
        p := p + 1;
      }
      p := 2;
      while p < roles.Length
        invariant 2 <= p
        invariant forall q :: 2 <= q < p && q < roles.Length ==> EntryAgrees(image, roles[..], parents[..], q)
      {
        if !EntryAgrees(image, roles[..], parents[..], p) {
          return Fail(Corrupt);
        }
        p := p + 1;
      }
      r := Pass;
    }
  }

  lemma PayloadIs(image: Image, b: Bytes, at: nat, length: nat, tabular: bool, schema: bool, read: (Bytes, nat))
    requires image.Valid() && PayloadRead(image, b, at, length, tabular, schema, ChainOf(image, b, at, length, tabular), read)
    ensures var local := LocalLength(image.usable, length, tabular);
            read == (PrefixOf(image, b, at, length, tabular, schema), local + if length > local then 4 else 0)
  {
    hide LocalLength, ChainOf, Overflow, Wanted, WholeChain, Be32;
  }

  // ----- cells

  /** In the schema tree the entries kept are those of their cells; elsewhere none are. */
  ghost predicate EntriesHeld(image: Image, b: Book, tree: Tree, entries: seq<SchemaEntry>, sources: seq<Place>)
    requires image.Valid() && |image.pages| >= 1
  {
    if tree.SchemaTree? then EntriesFrom(image, b, entries, sources) else entries == []
  }

  lemma WidenedGrown(a: Book, b: Book)
    requires Widened(a, b)
    ensures BookGrown(a, b) && b.kinds == a.kinds
  {
  }

  lemma CellNotEmpty(b: Bytes, start: nat, kind: nat, usable: nat)
    requires usable >= 480
    ensures CellEnd(b, start, kind, usable).Some? ==> CellEnd(b, start, kind, usable).value > start
  {
    hide VarintLength, VarintValue, RecordStart, LocalLength;
  }

  lemma EntriesFurther(image: Image, a: Book, b: Book, entries: seq<SchemaEntry>, sources: seq<Place>, page: nat, i: nat)
    requires image.Valid() && |image.pages| >= 1 && EntriesFrom(image, a, entries, sources) && BookGrown(a, b)
    requires Stands(image, b, EntryRoot(page, i)) && EntryIn(image, page, i).Ok?
    ensures EntriesFrom(image, b, entries + [EntryIn(image, page, i).value], sources + [EntryRoot(page, i)])
  {
    EntriesStillFrom(image, a, b, entries, sources);
    hide Stands, EntryIn;
    var more, places := entries + [EntryIn(image, page, i).value], sources + [EntryRoot(page, i)];
    forall k | 0 <= k < |more| ensures EntryFromPlace(image, b, more[k], places[k]) {
      assert k < |entries| ==> EntryFromPlace(image, b, entries[k], sources[k]);
    }
  }

  lemma CellMet(image: Image, a: Book, b: Book, page: nat, i: nat, tree: Tree, waiting: seq<Place>, waiting2: seq<Place>,
                sources: seq<Place>, sources2: seq<Place>)
    requires image.Valid() && |image.pages| >= 1 && OnImage(image, page) && page in b.kinds && b.kinds[page] == tree
    requires Settled(image, a, waiting, sources, Cells(page, i + 1)) && Widened(a, b) && waiting <= waiting2 && sources <= sources2
    requires !Leaf(KindIn(image, page)) ==> CellChild(page, i) in waiting2
    requires Recording(KindIn(image, page)) ==> LinksOwned(image, b, page, i, |ChainIn(image, page, i)|)
    requires Leaf(KindIn(image, page)) && tree.SchemaTree? ==> EntryRoot(page, i) in sources2
    ensures Settled(image, b, waiting2, sources2, Cells(page, i + 2))
  {
    hide KindIn, CellsIn, ChainIn, Settled;
    SettledStill(image, a, b, waiting, waiting2, sources, sources2, Cells(page, i + 1));
    forall k | Stands(image, b, Link(page, i, k)) ensures Owns(image, b, Link(page, i, k)) {
      assert LinkOwned(b, ChainIn(image, page, i), page, i, k);
    }
    CellSettled(image, b, page, i, waiting2, sources2);
  }

  // ----- whole pages

  ghost predicate CellsFit(image: Image, q: nat, tree: Tree, n: nat)
    requires image.Valid() && OnImage(image, q)
  {
    forall i :: 0 <= i < n ==> CellFits(image, q, i, tree)
  }

  ghost function RecordCount(image: Image, q: nat): nat
    requires image.Valid() && OnImage(image, q)
  {
    if Recording(KindIn(image, q)) then CellsIn(image, q) else 0
  }

  lemma WidenedOn(a: Book, b: Book, c: Book)
    requires Widened(a, b) && Widened(b, c)
    ensures Widened(a, c)
  {
  }

  /** The first span is the header, the next ones are the cells. */
  ghost predicate CellsLaid(b: Bytes, p: nat, cells: nat, spans: seq<Span>, usable: nat)
    requires |b| >= 512 && usable >= 480
  {
    && |spans| == cells + 1
    && spans[0] == Span(0, HeaderEnd(b, p))
    && forall i :: 1 <= i <= cells ==> CellLaid(b, p, i - 1, spans[i], usable)
  }

  lemma PageLaid(image: Image, p: nat, headAndCells: seq<Span>, blocks: seq<Span>, spans: seq<Span>)
    requires image.Valid() && 1 <= p <= |image.pages|
    requires CellsLaid(image.pages[p - 1], p, CellCount(image.pages[p - 1], p), headAndCells, image.usable)
    requires FreeChainEnds(image.pages[p - 1], Be16(image.pages[p - 1], HeadAt(p) + 1).value, blocks)
    requires spans == headAndCells + blocks && Disjoint(spans, image.usable)
    ensures Laid(image, p, spans)
  {
    hide FreeChainEnds, Disjoint;
    assert spans[|headAndCells|..] == blocks;
  }

  lemma RightMostMet(image: Image, b: Book, page: nat, waiting: seq<Place>, waiting2: seq<Place>, sources: seq<Place>)
    requires image.Valid() && |image.pages| >= 1 && OnImage(image, page) && Settled(image, b, waiting, sources, Cells(page, 0))
    requires waiting <= waiting2 && (!Leaf(KindIn(image, page)) ==> RightMost(page) in waiting2)
    ensures Settled(image, b, waiting2, sources, Cells(page, 1))
  {
    hide Settled, KindIn;
    NothingWidened(b);
    SettledStill(image, b, b, waiting, waiting2, sources, sources, Cells(page, 0));
    NoRightMost(image, b, page, waiting2, sources);
  }

  // ----- whole trees

  lemma RoleOfTask(image: Image, b: Book, pl: Place)
    requires image.Valid() && |image.pages| >= 1 && Stands(image, b, pl) && OfTree(pl)
    ensures RoleOf(pl) == if ParentOf(image, b, pl) == 0 then ROOT else NON_ROOT
  {
    hide ChainIn, KindIn, CellsIn, LeafCount;
  }

  lemma EntriesStillHeld(image: Image, a: Book, b: Book, tree: Tree, entries: seq<SchemaEntry>, sources: seq<Place>)
    requires image.Valid() && |image.pages| >= 1 && EntriesHeld(image, a, tree, entries, sources) && BookGrown(a, b)
    ensures EntriesHeld(image, b, tree, entries, sources)
  {
    hide EntriesFrom, BookGrown;
    if tree.SchemaTree? {
      EntriesStillFrom(image, a, b, entries, sources);
    }
  }

  lemma OwnsClaimed(image: Image, a: Book, page: nat, pl: Place, tree: Tree)
    requires image.Valid() && |image.pages| >= 1 && Stands(image, a, pl) && Names(image, a, pl) == page && page !in a.kinds
    ensures var b := ClaimedTree(a, page, pl, tree); Stands(image, b, pl) && Owns(image, b, pl)
  {
    hide Stands, Names;
    StandsStill(image, a, ClaimedTree(a, page, pl, tree), pl);
  }

  lemma OwnsStill(image: Image, a: Book, b: Book, pl: Place)
    requires image.Valid() && |image.pages| >= 1 && Stands(image, a, pl) && Owns(image, a, pl) && BookGrown(a, b)
    ensures Stands(image, b, pl) && Owns(image, b, pl)
  {
    hide Stands, Names;
    StandsStill(image, a, b, pl);
  }

  ghost predicate OwnedNow(image: Image, b: Book, pl: Place)
    requires image.Valid() && |image.pages| >= 1
  {
    Stands(image, b, pl) && Owns(image, b, pl)
  }

  lemma OwnedStillNow(image: Image, a: Book, b: Book, pl: Place)
    requires image.Valid() && |image.pages| >= 1 && BookGrown(a, b)
    ensures OwnedNow(image, a, pl) ==> OwnedNow(image, b, pl)
  {
    hide Stands, Owns, BookGrown;
    if OwnedNow(image, a, pl) {
      OwnsStill(image, a, b, pl);
    }
  }

  lemma LaidOutFurther(image: Image, kinds: map<nat, Tree>, layouts: map<nat, seq<Span>>, page: nat, tree: Tree, spans: seq<Span>)
    requires image.Valid() && LaidOut(image, kinds, layouts, {}) && page !in kinds && PageFits(image, page, tree, spans)
    ensures LaidOut(image, kinds[page := tree], layouts[page := spans], {})
  {
    hide PageFits;
    var more := layouts[page := spans];
    assert more.Keys == layouts.Keys + {page} && kinds[page := tree].Keys == kinds.Keys + {page};
  }

  /** Every b-tree page added belongs to the tree. */
  ghost predicate PagesAdded(a: map<nat, Tree>, b: map<nat, Tree>, tree: Tree) {
    Submap(a, b) && forall p :: p in b ==> p in a || b[p] == tree
  }

  /** The records on some b-tree pages. */
  ghost function RecordsOf(image: Image, pages: set<nat>): set<(nat, nat)>
    requires image.Valid()
  {
    set p, i | p in pages && OnImage(image, p) && 0 <= i < RecordCount(image, p) :: (p, i)
  }

  lemma NothingAdded(image: Image, kinds: map<nat, Tree>, tree: Tree)
    requires image.Valid()
    ensures PagesAdded(kinds, kinds, tree) && |RecordsOf(image, kinds.Keys - kinds.Keys)| == 0
  {
    hide RecordCount;
    assert kinds.Keys - kinds.Keys == {};
    assert RecordsOf(image, {}) == {};
  }

  lemma NothingHeld(image: Image, b: Book, tree: Tree)
    requires image.Valid() && |image.pages| >= 1
    ensures EntriesHeld(image, b, tree, [], []) && (!tree.SchemaTree? ==> forall sources :: EntriesHeld(image, b, tree, [], sources))
  {
  }

  ghost function RecordSlots(p: nat, n: nat): set<(nat, nat)> {
    set i | 0 <= i < n :: (p, i)
  }

  lemma {:induction false} SlotCount(p: nat, n: nat)
    ensures |RecordSlots(p, n)| == n
  {
    if n > 0 {
      SlotCount(p, n - 1);
      assert RecordSlots(p, n) == RecordSlots(p, n - 1) + {(p, n - 1)};
    }
  }

  lemma OneMorePage(image: Image, start: map<nat, Tree>, kinds: map<nat, Tree>, page: nat, tree: Tree)
    requires image.Valid() && PagesAdded(start, kinds, tree) && page !in kinds && OnImage(image, page)
    ensures PagesAdded(start, kinds[page := tree], tree)
    ensures |RecordsOf(image, kinds[page := tree].Keys - start.Keys)| == |RecordsOf(image, kinds.Keys - start.Keys)| + RecordCount(image, page)
  {
    hide RecordCount, RecordsOf;
    assert kinds[page := tree].Keys - start.Keys == (kinds.Keys - start.Keys) + {page};
    RecordsWith(image, kinds.Keys - start.Keys, page);
  }

  lemma RecordsWith(image: Image, pages: set<nat>, page: nat)
    requires image.Valid() && page !in pages && OnImage(image, page)
    ensures |RecordsOf(image, pages + {page})| == |RecordsOf(image, pages)| + RecordCount(image, page)
  {
    hide RecordCount;
    var added := RecordSlots(page, RecordCount(image, page));
    assert RecordsOf(image, pages + {page}) == RecordsOf(image, pages) + added;
    assert RecordsOf(image, pages) !! added;
    SlotCount(page, RecordCount(image, page));
  }

  lemma PopTask(image: Image, b: Book, tree: Tree, stack: seq<Task>, waiting: seq<Place>)
    requires image.Valid() && |image.pages| >= 1 && TasksFit(image, b, tree, stack, waiting) && stack != []
    ensures |waiting| == |stack| && TaskFits(image, b, tree, stack[|stack| - 1], waiting[|stack| - 1])
    ensures TasksFit(image, b, tree, stack[..|stack| - 1], waiting[..|stack| - 1])
    ensures waiting == waiting[..|stack| - 1] + [waiting[|stack| - 1]]
  {
    hide TaskFits;
  }

  // ----- the free list

  /** The pages that places of the free list own. */
  ghost function FreePages(b: Book): set<nat> {
    set p | p in b.owner && RoleOf(b.owner[p]) == FREE
  }

  /** What the header or the last trunk says comes next. */
  ghost function Following(image: Image, trunks: seq<nat>): nat
    requires image.Valid() && |image.pages| >= 1 && TrunksFollow(image, trunks)
  {
    if trunks == [] then FirstTrunk(image) else TrunkAfter(image, trunks[|trunks| - 1])
  }

  lemma NothingFree(image: Image, b: Book, roles: seq<nat>, parents: seq<nat>)
    requires image.Valid() && |image.pages| >= 1 && BookKept(image, ColumnsFor, b, roles, parents) && b.trunks == []
    ensures FreePages(b) == {} && TrunksFollow(image, []) && Following(image, []) == NumberOr0(Be32(image.pages[0], 32))
  {
    hide KindsFollow, Ordered, Marked, Names, IsMap, ChainIn, KindIn, CellsIn;
    forall p | p in b.owner ensures RoleOf(b.owner[p]) != FREE {
      assert JustifiedAt(image, b, p, b.owner[p]);
    }
  }

  lemma FreeFurther(b: Book, page: nat, pl: Place)
    requires page !in b.owner && RoleOf(pl) == FREE
    ensures |FreePages(Claimed(b, page, pl))| == |FreePages(b)| + 1
  {
    assert FreePages(Claimed(b, page, pl)) == FreePages(b) + {page};
  }

  /** A further trunk is one more place, and so are its slots. */
  lemma TrunkAdded(image: Image, a: Book, roles: seq<nat>, parents: seq<nat>, sources: seq<Place>, trunk: nat)
    requires image.Valid() && |image.pages| >= 1 && BookKept(image, ColumnsFor, a, roles, parents) && Settled(image, a, [], sources, Nothing)
    ensures var b := a.(trunks := a.trunks + [trunk]);
            && BookKept(image, ColumnsFor, b, roles, parents) && BookGrown(a, b)
            && Settled(image, b, [Trunk(|a.trunks|)], sources, Slots(|a.trunks|, 0))
  {
    hide Stands, Names, IsMap, ParentOf, TreeFor;
    var b := a.(trunks := a.trunks + [trunk]);
    forall p | p in b.owner ensures JustifiedAt(image, b, p, b.owner[p]) {
      assert JustifiedAt(image, a, p, a.owner[p]);
      StandsStill(image, a, b, b.owner[p]);
    }
    forall p | 1 <= p <= |image.pages| ensures MarkedAt(image, b, roles, parents, p) {
      assert MarkedAt(image, a, roles, parents, p);
      if p in a.owner {
        assert JustifiedAt(image, a, p, a.owner[p]);
        StandsStill(image, a, b, b.owner[p]);
      }
    }
    OrderIgnoresKinds(a, b);
    forall pl {:trigger Stands(image, b, pl)} | Stands(image, b, pl) && !Excused(pl, Slots(|a.trunks|, 0))
      ensures Met(image, b, pl, [Trunk(|a.trunks|)], sources)
    {
      if pl != Trunk(|a.trunks|) {
        StoodWithoutTrunk(image, a, b, trunk, pl);
        assert Met(image, a, pl, [], sources);
      }
    }
  }

  lemma StoodWithoutTrunk(image: Image, a: Book, b: Book, trunk: nat, pl: Place)
    requires image.Valid() && |image.pages| >= 1 && b == a.(trunks := a.trunks + [trunk]) && Stands(image, b, pl)
    requires !Excused(pl, Slots(|a.trunks|, 0)) && pl != Trunk(|a.trunks|)
    ensures Stands(image, a, pl) && Names(image, a, pl) == Names(image, b, pl)
  {
    hide ChainIn, EntryIn, CellAt, KindIn, CellsIn, LeafCount, Be32;
  }

  lemma TrunkMet(image: Image, a: Book, b: Book, c: Book, sources: seq<Place>, trunk: nat)
    requires image.Valid() && |image.pages| >= 1 && b == a.(trunks := a.trunks + [trunk]) && TrunksFollow(image, a.trunks)
    requires trunk == Following(image, a.trunks) && OnImage(image, trunk) && trunk !in b.owner
    requires Settled(image, b, [Trunk(|a.trunks|)], sources, Slots(|a.trunks|, 0)) && c == Claimed(b, trunk, Trunk(|a.trunks|))
    ensures Settled(image, c, [], sources, Slots(|a.trunks|, 0)) && TrunksFollow(image, c.trunks)
    ensures |FreePages(c)| == |FreePages(a)| + 1
  {
    hide Settled, FreePages, Excused;
    FreeFurther(b, trunk, Trunk(|a.trunks|));
    assert FreePages(b) == FreePages(a) by { SameFreePages(a, b); }
    SettledStill(image, b, c, [Trunk(|a.trunks|)], [Trunk(|a.trunks|)], sources, sources, Slots(|a.trunks|, 0));
    WaitingOwns(image, c, Trunk(|a.trunks|), sources, Slots(|a.trunks|, 0));
  }

  lemma SameFreePages(a: Book, b: Book)
    requires a.owner == b.owner
    ensures FreePages(a) == FreePages(b)
  {
  }

  lemma WaitingOwns(image: Image, b: Book, pl: Place, sources: seq<Place>, e: Excuse)
    requires image.Valid() && |image.pages| >= 1 && Settled(image, b, [pl], sources, e) && Stands(image, b, pl) && Owns(image, b, pl)
    ensures Settled(image, b, [], sources, e)
  {
    hide Stands, Names, Excused;
    forall x {:trigger Stands(image, b, x)} | Stands(image, b, x) && !Excused(x, e) ensures Met(image, b, x, [], sources) {
      assert Met(image, b, x, [pl], sources);
    }
  }

  lemma SlotMet(image: Image, a: Book, b: Book, sources: seq<Place>, n: nat, i: nat, page: nat)
    requires image.Valid() && |image.pages| >= 1 && Settled(image, a, [], sources, Slots(n, i)) && page !in a.owner
    requires Stands(image, a, Listed(n, i)) && Names(image, a, Listed(n, i)) == page && b == Claimed(a, page, Listed(n, i))
    ensures Settled(image, b, [], sources, Slots(n, i + 1)) && |FreePages(b)| == |FreePages(a)| + 1
  {
    hide Names, FreePages, LeafCount, ChainIn, KindIn, CellsIn;
    FreeFurther(a, page, Listed(n, i));
    SettledStill(image, a, b, [], [], sources, sources, Slots(n, i));
    SameStands(image, a, b, Listed(n, i));
    hide Stands;
    forall x {:trigger Stands(image, b, x)} | Stands(image, b, x) && !Excused(x, Slots(n, i + 1)) ensures Met(image, b, x, [], sources) {
      assert Excused(x, Slots(n, i)) ==> x == Listed(n, i);
    }
  }

  lemma SlotsSettled(image: Image, b: Book, sources: seq<Place>, n: nat)
    requires image.Valid() && |image.pages| >= 1 && n < |b.trunks| && OnImage(image, b.trunks[n])
    requires Settled(image, b, [], sources, Slots(n, LeafCount(image, b.trunks[n])))
    ensures Settled(image, b, [], sources, Nothing)
  {
    hide LeafCount, ChainIn, KindIn, CellsIn, Owns;
    forall x {:trigger Stands(image, b, x)} | Stands(image, b, x) ensures Met(image, b, x, [], sources) {
      assert !Excused(x, Slots(n, LeafCount(image, b.trunks[n])));
    }
  }

  lemma FollowingLast(image: Image, trunks: seq<nat>, next: nat)
    requires image.Valid() && |image.pages| >= 1 && OnImage(image, next) && TrunksFollow(image, trunks + [next])
    ensures Following(image, trunks + [next]) == NumberOr0(Be32(image.pages[next - 1], 0))
  {
  }

  lemma TrunksAreOver(image: Image, trunks: seq<nat>)
    requires image.Valid() && |image.pages| >= 1 && TrunksFollow(image, trunks) && Following(image, trunks) == 0
    ensures TrunksEnd(image, trunks)
  {
  }

  // ----- what the pointer map says

  predicate AllClaimed(roles: seq<nat>) {
    forall p :: 1 <= p < |roles| ==> roles[p] != 0
  }

  lemma EntryFits(usable: nat, p: nat)
    requires p >= 2 && usable >= 5 && MapPage(usable, p) < p
    ensures (p - MapPage(usable, p) - 1) * 5 + 5 <= usable
  {
    DivisionBelow(p - 2, usable / 5 + 1);
    assert p - MapPage(usable, p) - 1 <= usable / 5 - 1;
    DivisionBelow(usable, 5);
  }

  /** Where a pointer-map page covers page `p`, its entry is that page's role and parent. */
  predicate EntryAgrees(image: Image, roles: seq<nat>, parents: seq<nat>, p: nat)
    requires image.Valid() && |roles| == |parents| == |image.pages| + 1 && 2 <= p < |roles|
  {
    var m := MapPage(image.usable, p);
    roles[p] == POINTER_MAP || roles[m] != POINTER_MAP
    || (EntryFits(image.usable, p);
        var at := (p - m - 1) * 5;
        var bytes := image.pages[m - 1];
        bytes[at] == roles[p] && Be32(bytes, at + 1) == Ok(parents[p]))
  }

  predicate MapAgrees(image: Image, roles: seq<nat>, parents: seq<nat>)
    requires image.Valid() && |roles| == |parents| == |image.pages| + 1
  {
    forall p :: 2 <= p < |roles| ==> EntryAgrees(image, roles, parents, p)
  }

  // ----- pointer-map pages

  lemma QuotientIs(n: nat, d: nat, k: nat)
    requires d > 0 && k * d <= n < k * d + d
    ensures n / d == k
  {
    DivisionBelow(n, d);
    MoreTimes(n / d + 1, k, d);
    MoreTimes(k + 1, n / d, d);
  }

  lemma MoreTimes(a: nat, b: nat, d: nat)
    ensures a <= b ==> a * d <= b * d
  {
  }

  lemma MapsStart(usable: nat)
    ensures 2 + 0 * (usable / 5 + 1) == 2
  {
  }

  /** Page `2 + k * interval` is a pointer map, and none is between it and the next. */
  lemma MapsStep(usable: nat, k: nat)
    ensures var interval := usable / 5 + 1;
            && 2 + k * interval >= 2
            && 2 + (k + 1) * interval == 2 + k * interval + interval
            && forall q {:trigger MapPage(usable, q)} :: 2 + k * interval <= q < 2 + k * interval + interval ==> MapPage(usable, q) == 2 + k * interval
  {
    var interval := usable / 5 + 1;
    forall q {:trigger MapPage(usable, q)} | 2 + k * interval <= q < 2 + k * interval + interval
      ensures MapPage(usable, q) == 2 + k * interval
    {
      QuotientIs(q - 2, interval, k);
    }
  }

  // ----- claims

  lemma NothingTracked(used: seq<bool>, usable: nat)
    requires forall x :: 0 <= x < |used| ==> !used[x]
    ensures Tracked(used, []) && Disjoint([], usable)
  {
  }

  lemma NothingBooked(image: Image, roles: seq<nat>, parents: seq<nat>)
    requires image.Valid() && |image.pages| >= 1 && |roles| == |parents| == |image.pages| + 1
    requires forall p :: 1 <= p < |roles| ==> roles[p] == if IsMap(image, p) then POINTER_MAP else 0
    ensures var b := Book(map[], map[], [], []);
            BookKept(image, ColumnsFor, b, roles, parents) && Settled(image, b, [SchemaRoot], [], Nothing)
  {
    hide IsMap, KindIn, CellsIn, ChainIn, LeafCount;
  }

  lemma NothingBookGrown(b: Book)
    ensures BookGrown(b, b)
  {
  }

  lemma NothingWidened(b: Book)
    ensures Widened(b, b)
  {
  }

  lemma UnownedIsClaimable(image: Image, b: Book, roles: seq<nat>, parents: seq<nat>, page: nat, pl: Place)
    requires image.Valid() && |image.pages| >= 1 && BookKept(image, ColumnsFor, b, roles, parents)
    requires Stands(image, b, pl) && Names(image, b, pl) == page
    requires 1 <= page < |roles| && roles[page] == 0
    ensures Claimable(image, b, page, pl) && page !in b.kinds && OnImage(image, page)
  {
    hide Names, IsMap, ParentOf, TreeFor, Ordered, ChainIn, KindIn, CellsIn, LeafCount;
    assert MarkedAt(image, b, roles, parents, page);
  }

  // ----- the links of one chain

  ghost predicate Linkable(image: Image, b: Book, page: nat, cell: nat)
    requires image.Valid()
  {
    OnImage(image, page) && page in b.kinds && Recording(KindIn(image, page)) && cell < CellsIn(image, page)
  }

  ghost predicate LinksOwned(image: Image, b: Book, page: nat, cell: nat, n: nat)
    requires image.Valid() && OnImage(image, page)
  {
    n <= |ChainIn(image, page, cell)| && forall k :: 0 <= k < n ==> LinkOwned(b, ChainIn(image, page, cell), page, cell, k)
  }

  ghost predicate LinkOwned(b: Book, chain: seq<nat>, page: nat, cell: nat, k: nat)
    requires k < |chain|
  {
    chain[k] in b.owner && b.owner[chain[k]] == Link(page, cell, k)
  }

  lemma NothingLinked(image: Image, b: Book, page: nat, cell: nat, first: nat, rest: nat)
    requires image.Valid() && OnImage(image, page) && ChainIn(image, page, cell) == ChainFrom(image, first, rest)
    ensures ChainIn(image, page, cell) == [] + ChainFrom(image, first, rest) && LinksOwned(image, b, page, cell, 0)
  {
    hide ChainIn, ChainFrom;
  }

  lemma PreviousIsPage(image: Image, b: Book, roles: seq<nat>, parents: seq<nat>, page: nat, cell: nat, chain: seq<nat>, rest: seq<nat>, previous: nat)
    requires image.Valid() && |image.pages| >= 1 && OnImage(image, page) && BookKept(image, ColumnsFor, b, roles, parents)
    requires page in b.kinds && LinksOwned(image, b, page, cell, |chain|) && ChainIn(image, page, cell) == chain + rest
    requires if chain == [] then previous == page else previous == chain[|chain| - 1]
    ensures previous == page <==> chain == []
  {
    hide ChainIn, TreeFor, Justified, Ordered, Marked;
    if chain != [] {
      assert LinkOwned(b, ChainIn(image, page, cell), page, cell, |chain| - 1);
    }
  }

  lemma NextLink(image: Image, b: Book, page: nat, cell: nat, chain: seq<nat>, next: nat, left: nat, previous: nat)
    requires image.Valid() && |image.pages| >= 1 && Linkable(image, b, page, cell) && left > 0
    requires ChainIn(image, page, cell) == chain + ChainFrom(image, next, left)
    requires if chain == [] then previous == page else previous == chain[|chain| - 1]
    ensures var pl := Link(page, cell, |chain|);
            && Stands(image, b, pl) && Names(image, b, pl) == next && ParentOf(image, b, pl) == previous
            && RoleOf(pl) == if chain == [] then FIRST_OVERFLOW else LATER_OVERFLOW
  {
    hide ChainIn, KindIn, CellsIn;
    assert ChainFrom(image, next, left)[0] == next;
  }

  lemma LinkedFurther(image: Image, b: Book, page: nat, cell: nat, chain: seq<nat>, next: nat, left: nat)
    requires image.Valid() && Linkable(image, b, page, cell) && left > 0 && OnImage(image, next) && next !in b.owner
    requires ChainIn(image, page, cell) == chain + ChainFrom(image, next, left) && LinksOwned(image, b, page, cell, |chain|)
    ensures var c := Claimed(b, next, Link(page, cell, |chain|));
            && Linkable(image, c, page, cell) && LinksOwned(image, c, page, cell, |chain + [next]|)
            && ChainIn(image, page, cell)
               == chain + [next] + ChainFrom(image, Be32(image.pages[next - 1], 0).value, left - if left < image.usable - 4 then left else image.usable - 4)
  {
    hide ChainIn, KindIn, CellsIn, Be32;
    var c := Claimed(b, next, Link(page, cell, |chain|));
    var whole := ChainIn(image, page, cell);
    ChainStep(image, next, left);
    hide ChainFrom;
    forall k | 0 <= k < |chain| + 1 ensures LinkOwned(c, whole, page, cell, k) {
      assert k < |chain| ==> LinkOwned(b, whole, page, cell, k);
      assert k == |chain| ==> whole[k] == next;
    }
  }

  lemma ChainStep(image: Image, next: nat, left: nat)
    requires image.Valid() && left > 0 && OnImage(image, next)
    ensures ChainFrom(image, next, left)
         == [next] + ChainFrom(image, Be32(image.pages[next - 1], 0).value, left - if left < image.usable - 4 then left else image.usable - 4)
  {
    hide Be32;
  }

  lemma WidenedFurther(a: Book, b: Book, page: nat, pl: Place)
    requires Widened(a, b) && page !in b.owner
    ensures Widened(a, Claimed(b, page, pl))
  {
  }

  lemma GrownFurther(a: seq<nat>, b: seq<nat>, c: seq<nat>)
    requires Grown(a, b) && Grown(b, c)
    ensures Grown(a, c)
  {
  }

  lemma NoLinks(image: Image, b: Book, page: nat, cell: nat)
    requires image.Valid() && OnImage(image, page) && ChainIn(image, page, cell) == []
    ensures LinksOwned(image, b, page, cell, |ChainIn(image, page, cell)|)
  {
  }

  lemma ChainEnds(image: Image, next: nat, chain: seq<nat>)
    requires image.Valid()
    ensures chain + ChainFrom(image, next, 0) == chain
  {
  }
}

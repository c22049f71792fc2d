/**
 * The places of an image that name a page, and the book of which place owns which page. What a place is and what it names is a
 * function of the bytes; a kept book in which every place owns what it names is the only one.
 */
module Places {
  import opened Base
  import opened Images
  import opened Shapes
  import opened Payloads

  /** What the fixed definitions say about the columns behind a schema entry. */
  type Definitions = SchemaEntry -> Shaped<seq<Column>>

  datatype Tree = SchemaTree | TableTree(name: Bytes, columns: seq<Column>) | IndexTree(columns: seq<Column>)

  // ----- what the bytes of a page say

  predicate OnImage(image: Image, p: nat) {
    1 <= p <= |image.pages|
  }

  ghost function PageAt(image: Image, p: nat): (b: Bytes)
    requires image.Valid() && OnImage(image, p)
    ensures |b| == image.page >= 512
  {
    image.pages[p - 1]
  }

  ghost function KindIn(image: Image, q: nat): nat
    requires image.Valid() && OnImage(image, q)
  {
    KindOf(PageAt(image, q), q)
  }

  ghost function CellsIn(image: Image, q: nat): nat
    requires image.Valid() && OnImage(image, q)
  {
    CellCount(PageAt(image, q), q)
  }

  /** All cells but those of interior table pages hold a record. */
  predicate Recording(kind: nat) {
    Leaf(kind) || !Tabular(kind)
  }

  function NumberOr0(n: Shaped<nat>): nat {
    if n.Ok? then n.value else 0
  }

  ghost function CellAt(image: Image, q: nat, i: nat): nat
    requires image.Valid() && OnImage(image, q)
  {
    NumberOr0(Be16(PageAt(image, q), PointersAt(PageAt(image, q), q) + i * 2))
  }

  /** The size of the record in a cell and where its payload starts. */
  ghost function RecordIn(image: Image, q: nat, i: nat): (r: Option<(nat, nat)>)
    requires image.Valid() && OnImage(image, q)
  {
    var kind := KindIn(image, q);
    RecordStart(PageAt(image, q), CellAt(image, q, i) + (if Leaf(kind) then 0 else 4), Tabular(kind))
  }

  /** The overflow pages that must follow for `left` bytes, each named by the one before. */
  ghost function ChainFrom(image: Image, next: nat, left: nat): seq<nat>
    requires image.Valid()
    decreases left
  {
    if left == 0 then []
    else if !OnImage(image, next) then [next]
    else [next] + ChainFrom(image, NumberOr0(Be32(PageAt(image, next), 0)), if left < image.usable - 4 then 0 else left - (image.usable - 4))
  }

  /** The chain of a record whose payload of `length` bytes starts at `at`. */
  ghost function ChainOf(image: Image, b: Bytes, at: nat, length: nat, tabular: bool): seq<nat>
    requires image.Valid()
  {
    var local := LocalLength(image.usable, length, tabular);
    if length == local || Be32(b, at + local).Err? then [] else ChainFrom(image, Be32(b, at + local).value, length - local)
  }

  ghost function ChainIn(image: Image, q: nat, i: nat): seq<nat>
    requires image.Valid() && OnImage(image, q)
  {
    var record := RecordIn(image, q, i);
    if record.None? then [] else ChainOf(image, PageAt(image, q), record.value.1, record.value.0, Tabular(KindIn(image, q)))
  }

  /** The beginning of a payload, from its page and its chain. */
  ghost function PrefixOf(image: Image, b: Bytes, at: nat, length: nat, tabular: bool, schema: bool): Bytes
    requires image.Valid()
  {
    var local := LocalLength(image.usable, length, tabular);
    var chain := ChainOf(image, b, at, length, tabular);
    if at + local > |b| || !InImage(image, chain) then []
    else Wanted(b[at..at + local] + Overflow(image, chain, length - local), if schema || length < 128 then length else 128)
  }

  ghost function PrefixIn(image: Image, q: nat, i: nat, schema: bool): Bytes
    requires image.Valid() && OnImage(image, q)
  {
    var record := RecordIn(image, q, i);
    if record.None? then []
    else PrefixOf(image, PageAt(image, q), record.value.1, record.value.0, Tabular(KindIn(image, q)), schema)
  }

  function EntryFrom(prefix: Bytes, length: nat): Shaped<SchemaEntry> {
    var values := RecordValues(prefix, length, 5);
    if values.None? then Err(Corrupt) else EntryOf(prefix, values.value)
  }

  /** The schema entry in a cell. */
  ghost function EntryIn(image: Image, q: nat, i: nat): Shaped<SchemaEntry>
    requires image.Valid() && OnImage(image, q)
  {
    var record := RecordIn(image, q, i);
    if record.None? then Err(Corrupt) else EntryFrom(PrefixIn(image, q, i, true), record.value.0)
  }

  ghost function LeafCount(image: Image, trunk: nat): nat
    requires image.Valid() && OnImage(image, trunk)
  {
    NumberOr0(Be32(PageAt(image, trunk), 4))
  }

  ghost function FirstTrunk(image: Image): nat
    requires image.Valid() && |image.pages| >= 1
  {
    NumberOr0(Be32(PageAt(image, 1), 32))
  }

  ghost function TrunkAfter(image: Image, trunk: nat): nat
    requires image.Valid() && OnImage(image, trunk)
  {
    NumberOr0(Be32(PageAt(image, trunk), 0))
  }

  /** The pointer-map page that holds the entry of page `p`. */
  function MapPage(usable: nat, p: nat): (m: nat)
    requires p >= 2
    ensures 2 <= m <= p
  {
    var interval := usable / 5 + 1;
    DivisionBelow(p - 2, interval);
    (p - 2) / interval * interval + 2
  }

  lemma DivisionBelow(n: nat, d: nat)
    requires d > 0
    ensures 0 <= n / d * d <= n < n / d * d + d
  {
  }

  /** Pointer-map pages stand at fixed intervals when the header says that there are any. */
  ghost predicate IsMap(image: Image, p: nat)
    requires image.Valid() && |image.pages| >= 1
  {
    Be32(PageAt(image, 1), 52) != Ok(0) && p >= 2 && MapPage(image.usable, p) == p
  }

  // ----- places

  /** Every way in which the bytes of an image name a page. */
  datatype Place =
    | SchemaRoot
    | EntryRoot(page: nat, cell: nat)
    | RightMost(page: nat)
    | CellChild(page: nat, cell: nat)
    | Link(page: nat, cell: nat, step: nat)
    | Trunk(number: nat)
    | Listed(number: nat, slot: nat)

  predicate OfTree(pl: Place) {
    pl.SchemaRoot? || pl.EntryRoot? || pl.RightMost? || pl.CellChild?
  }

  /** The b-tree page a place stands on. */
  function Holder(pl: Place): Option<nat> {
    match pl
    case EntryRoot(q, _) => Some(q)
    case RightMost(q) => Some(q)
    case CellChild(q, _) => Some(q)
    case Link(q, _, _) => Some(q)
    case _ => None
  }

  /** The pages owned, by the place that owns each; the b-tree pages with their trees; the trunks; and an order of owning. */
  datatype Book = Book(owner: map<nat, Place>, kinds: map<nat, Tree>, trunks: seq<nat>, order: seq<nat>)

  /** The place is there, given the b-tree pages and trunks of a book. */
  ghost predicate Stands(image: Image, b: Book, pl: Place)
    requires image.Valid() && |image.pages| >= 1
  {
    match pl
    case SchemaRoot => true
    case EntryRoot(q, i) => q in b.kinds && OnImage(image, q) && b.kinds[q].SchemaTree? && Leaf(KindIn(image, q)) && i < CellsIn(image, q)
    case RightMost(q) => q in b.kinds && OnImage(image, q) && !Leaf(KindIn(image, q))
    case CellChild(q, i) => q in b.kinds && OnImage(image, q) && !Leaf(KindIn(image, q)) && i < CellsIn(image, q)
    case Link(q, i, k) =>
      q in b.kinds && OnImage(image, q) && Recording(KindIn(image, q)) && i < CellsIn(image, q) && k < |ChainIn(image, q, i)|
    case Trunk(n) => n < |b.trunks|
    case Listed(n, i) => n < |b.trunks| && OnImage(image, b.trunks[n]) && i < LeafCount(image, b.trunks[n])
  }

  /** The page number at a place. */
  ghost function Names(image: Image, b: Book, pl: Place): nat
    requires image.Valid() && |image.pages| >= 1 && Stands(image, b, pl)
  {
    match pl
    case SchemaRoot => 1
    case EntryRoot(q, i) => (match EntryIn(image, q, i) case Ok(e) => e.root case Err(_) => 0)
    case RightMost(q) => NumberOr0(Be32(PageAt(image, q), HeadAt(q) + 8))
    case CellChild(q, i) => NumberOr0(Be32(PageAt(image, q), CellAt(image, q, i)))
    case Link(q, i, k) => ChainIn(image, q, i)[k]
    case Trunk(n) => b.trunks[n]
    case Listed(n, i) => NumberOr0(Be32(PageAt(image, b.trunks[n]), 8 + 4 * i))
  }

  function RoleOf(pl: Place): nat {
    match pl
    case SchemaRoot => ROOT
    case EntryRoot(_, _) => ROOT
    case RightMost(_) => NON_ROOT
    case CellChild(_, _) => NON_ROOT
    case Link(_, _, k) => if k == 0 then FIRST_OVERFLOW else LATER_OVERFLOW
    case Trunk(_) => FREE
    case Listed(_, _) => FREE
  }

  ghost function ParentOf(image: Image, b: Book, pl: Place): nat
    requires image.Valid() && |image.pages| >= 1 && Stands(image, b, pl)
  {
    match pl
    case RightMost(q) => q
    case CellChild(q, _) => q
    case Link(q, i, k) => if k == 0 then q else ChainIn(image, q, i)[k - 1]
    case _ => 0
  }

  /** The tree a place leads into. */
  ghost function TreeFor(image: Image, definitions: Definitions, kinds: map<nat, Tree>, pl: Place): Option<Tree>
    requires image.Valid()
  {
    match pl
    case SchemaRoot => Some(SchemaTree)
    case EntryRoot(q, i) =>
      if !OnImage(image, q) || EntryIn(image, q, i).Err? then None
      else
        var e := EntryIn(image, q, i).value;
        (match definitions(e) case Err(_) => None case Ok(columns) => Some(if e.index then IndexTree(columns) else TableTree(e.name, columns)))
    case RightMost(q) => if q in kinds then Some(kinds[q]) else None
    case CellChild(q, _) => if q in kinds then Some(kinds[q]) else None
    case _ => None
  }

  // ----- books that are kept

  /** Each owned page is on the image, is no pointer map, and is named by its owner. */
  ghost predicate Justified(image: Image, b: Book)
    requires image.Valid() && |image.pages| >= 1
  {
    forall p :: p in b.owner ==> JustifiedAt(image, b, p, b.owner[p])
  }

  ghost predicate JustifiedAt(image: Image, b: Book, p: nat, pl: Place)
    requires image.Valid() && |image.pages| >= 1
  {
    OnImage(image, p) && !IsMap(image, p) && Stands(image, b, pl) && Names(image, b, pl) == p
  }

  /** The b-tree pages are those that places of trees own, each in the tree its owner leads into. */
  ghost predicate KindsFollow(image: Image, definitions: Definitions, b: Book)
    requires image.Valid()
  {
    && (forall p :: p in b.kinds <==> p in b.owner && OfTree(b.owner[p]))
    && (forall p :: p in b.kinds ==> TreeFor(image, definitions, b.kinds, b.owner[p]) == Some(b.kinds[p]))
  }

  /** Each owned page is listed once, after the page its owner stands on. */
  ghost predicate Ordered(b: Book) {
    && (forall i, j :: 0 <= i < j < |b.order| ==> b.order[i] != b.order[j])
    && (forall p :: p in b.order <==> p in b.owner)
    && (forall k :: 0 <= k < |b.order| && b.order[k] in b.owner && Holder(b.owner[b.order[k]]).Some? ==>
          Holder(b.owner[b.order[k]]).value in b.order[..k])
  }

  /** The roles and parents found are those the owners give; what has no owner is pointer map, or unclaimed. */
  ghost predicate Marked(image: Image, b: Book, roles: seq<nat>, parents: seq<nat>)
    requires image.Valid() && |image.pages| >= 1
  {
    && |roles| == |parents| == |image.pages| + 1
    && forall p :: 1 <= p <= |image.pages| ==> MarkedAt(image, b, roles, parents, p)
  }

  ghost predicate MarkedAt(image: Image, b: Book, roles: seq<nat>, parents: seq<nat>, p: nat)
    requires image.Valid() && |image.pages| >= 1 && p < |roles| == |parents|
  {
    if p in b.owner then
      Stands(image, b, b.owner[p]) && roles[p] == RoleOf(b.owner[p]) && parents[p] == ParentOf(image, b, b.owner[p])
    else roles[p] == if IsMap(image, p) then POINTER_MAP else 0
  }

  ghost predicate BookKept(image: Image, definitions: Definitions, b: Book, roles: seq<nat>, parents: seq<nat>)
    requires image.Valid() && |image.pages| >= 1
  {
    Justified(image, b) && KindsFollow(image, definitions, b) && Ordered(b) && Marked(image, b, roles, parents)
  }

  // ----- books only grow

  ghost predicate Submap<K, V>(a: map<K, V>, b: map<K, V>) {
    forall k :: k in a ==> k in b && b[k] == a[k]
  }

  ghost predicate BookGrown(a: Book, b: Book) {
    Submap(a.owner, b.owner) && Submap(a.kinds, b.kinds) && a.trunks <= b.trunks
  }

  lemma BookGrowsOn(a: Book, b: Book, c: Book)
    requires BookGrown(a, b) && BookGrown(b, c)
    ensures BookGrown(a, c)
  {
  }

  lemma StandsStill(image: Image, a: Book, b: Book, pl: Place)
    requires image.Valid() && |image.pages| >= 1 && Submap(a.kinds, b.kinds) && a.trunks <= b.trunks && Stands(image, a, pl)
    ensures Stands(image, b, pl) && Names(image, b, pl) == Names(image, a, pl) && ParentOf(image, b, pl) == ParentOf(image, a, pl)
  {
    hide ChainIn, EntryIn, CellAt, KindIn, CellsIn, LeafCount, Be32;
  }

  /** The book after a place has claimed the page it names. */
  ghost function Claimed(b: Book, page: nat, pl: Place): Book {
    b.(owner := b.owner[page := pl], order := b.order + [page])
  }

  ghost function ClaimedTree(b: Book, page: nat, pl: Place, tree: Tree): Book {
    Claimed(b, page, pl).(kinds := b.kinds[page := tree])
  }

  ghost predicate Claimable(image: Image, b: Book, page: nat, pl: Place)
    requires image.Valid() && |image.pages| >= 1
  {
    && page !in b.owner
    && JustifiedAt(image, b, page, pl)
    && (Holder(pl).Some? ==> Holder(pl).value in b.owner)
  }

  lemma OrderedFurther(b: Book, page: nat, pl: Place)
    requires Ordered(b) && page !in b.owner && (Holder(pl).Some? ==> Holder(pl).value in b.owner)
    ensures Ordered(Claimed(b, page, pl))
  {
    hide Holder;
    var c := Claimed(b, page, pl);
    assert page !in b.order;
    assert forall k :: 0 <= k < |b.order| ==> c.order[k] == b.order[k] && b.order[k] in b.order;
    assert forall p :: p in c.order <==> p in b.order || p == page;
    forall k | 0 <= k < |c.order| && Holder(c.owner[c.order[k]]).Some? ensures Holder(c.owner[c.order[k]]).value in c.order[..k] {
      HolderBefore(b, c, page, pl, k);
    }
  }

  lemma HolderBefore(b: Book, c: Book, page: nat, pl: Place, k: nat)
    requires Ordered(b) && page !in b.owner && (Holder(pl).Some? ==> Holder(pl).value in b.owner) && c == Claimed(b, page, pl)
    requires k < |c.order| && c.order[k] in c.owner && Holder(c.owner[c.order[k]]).Some?
    ensures Holder(c.owner[c.order[k]]).value in c.order[..k]
  {
    hide Holder;
    if k < |b.order| {
      assert c.order[..k] == b.order[..k] && c.order[k] == b.order[k];
      assert b.order[k] in b.order;
    } else {
      assert c.order[..k] == b.order;
    }
  }

  lemma JustifiedFurther(image: Image, b: Book, page: nat, pl: Place, kinds: map<nat, Tree>)
    requires image.Valid() && |image.pages| >= 1 && Justified(image, b) && Claimable(image, b, page, pl) && Submap(b.kinds, kinds)
    ensures Justified(image, Claimed(b, page, pl).(kinds := kinds))
  {
    hide Stands, Names, IsMap;
    var c := Claimed(b, page, pl).(kinds := kinds);
    forall p | p in c.owner ensures JustifiedAt(image, c, p, c.owner[p]) {
      assert p != page ==> JustifiedAt(image, b, p, b.owner[p]);
      StandsStill(image, b, c, c.owner[p]);
    }
  }

  lemma MarkedFurther(image: Image, b: Book, roles: seq<nat>, parents: seq<nat>, page: nat, pl: Place, kinds: map<nat, Tree>)
    requires image.Valid() && |image.pages| >= 1
    requires Justified(image, b) && Marked(image, b, roles, parents) && Claimable(image, b, page, pl) && Submap(b.kinds, kinds)
    ensures Marked(image, Claimed(b, page, pl).(kinds := kinds), roles[page := RoleOf(pl)], parents[page := ParentOf(image, b, pl)])
  {
    hide Stands, Names, IsMap, ParentOf, RoleOf;
    var c := Claimed(b, page, pl).(kinds := kinds);
    var roles2, parents2 := roles[page := RoleOf(pl)], parents[page := ParentOf(image, b, pl)];
    forall p | 1 <= p <= |image.pages| ensures MarkedAt(image, c, roles2, parents2, p) {
      assert MarkedAt(image, b, roles, parents, p);
      if p in c.owner {
        assert p != page ==> JustifiedAt(image, b, p, b.owner[p]);
        StandsStill(image, b, c, c.owner[p]);
      }
    }
  }

  lemma TreeForStill(image: Image, definitions: Definitions, a: map<nat, Tree>, b: map<nat, Tree>, pl: Place)
    requires image.Valid() && Submap(a, b) && TreeFor(image, definitions, a, pl).Some?
    ensures TreeFor(image, definitions, b, pl) == TreeFor(image, definitions, a, pl)
  {
    hide EntryIn;
  }

  /** Claiming a page that is no b-tree page keeps the book. */
  lemma ClaimKept(image: Image, definitions: Definitions, b: Book, roles: seq<nat>, parents: seq<nat>, page: nat, pl: Place)
    requires image.Valid() && |image.pages| >= 1 && BookKept(image, definitions, b, roles, parents)
    requires Claimable(image, b, page, pl) && !OfTree(pl)
    ensures BookKept(image, definitions, Claimed(b, page, pl), roles[page := RoleOf(pl)], parents[page := ParentOf(image, b, pl)])
    ensures BookGrown(b, Claimed(b, page, pl))
  {
    hide Stands, Names, IsMap, ParentOf, RoleOf, TreeFor, Justified, Marked, Ordered;
    var c := Claimed(b, page, pl);
    assert c == c.(kinds := b.kinds);
    JustifiedFurther(image, b, page, pl, b.kinds);
    MarkedFurther(image, b, roles, parents, page, pl, b.kinds);
    OrderedFurther(b, page, pl);
  }

  lemma KindsFollowFurther(image: Image, definitions: Definitions, b: Book, page: nat, pl: Place, tree: Tree)
    requires image.Valid() && KindsFollow(image, definitions, b) && page !in b.owner && OfTree(pl)
    requires TreeFor(image, definitions, b.kinds, pl) == Some(tree)
    ensures KindsFollow(image, definitions, ClaimedTree(b, page, pl, tree))
  {
    hide TreeFor;
    var c := ClaimedTree(b, page, pl, tree);
    assert page !in b.kinds;
    forall p | p in c.kinds ensures TreeFor(image, definitions, c.kinds, c.owner[p]) == Some(c.kinds[p]) {
      TreeForStill(image, definitions, b.kinds, c.kinds, c.owner[p]);
    }
  }

  /** Claiming a b-tree page keeps the book. */
  lemma TreeClaimKept(image: Image, definitions: Definitions, b: Book, roles: seq<nat>, parents: seq<nat>, page: nat, pl: Place, tree: Tree)
    requires image.Valid() && |image.pages| >= 1 && BookKept(image, definitions, b, roles, parents)
    requires Claimable(image, b, page, pl) && OfTree(pl) && TreeFor(image, definitions, b.kinds, pl) == Some(tree)
    ensures BookKept(image, definitions, ClaimedTree(b, page, pl, tree), roles[page := RoleOf(pl)], parents[page := ParentOf(image, b, pl)])
    ensures BookGrown(b, ClaimedTree(b, page, pl, tree))
  {
    hide Stands, Names, IsMap, ParentOf, RoleOf, TreeFor, Justified, Marked, Ordered, KindsFollow;
    KindsFollowFurther(image, definitions, b, page, pl, tree);
    assert page !in b.kinds by { KindsAreOwned(image, definitions, b); }
    JustifiedFurther(image, b, page, pl, b.kinds[page := tree]);
    MarkedFurther(image, b, roles, parents, page, pl, b.kinds[page := tree]);
    OrderedFurther(b, page, pl);
    OrderIgnoresKinds(Claimed(b, page, pl), ClaimedTree(b, page, pl, tree));
  }

  lemma KindsAreOwned(image: Image, definitions: Definitions, b: Book)
    requires image.Valid() && KindsFollow(image, definitions, b)
    ensures forall p :: p in b.kinds <==> p in b.owner && OfTree(b.owner[p])
  {
  }

  lemma OrderIgnoresKinds(a: Book, b: Book)
    requires Ordered(a) && b.owner == a.owner && b.order == a.order
    ensures Ordered(b)
  {
  }

  // ----- every place owns what it names

  ghost predicate Owns(image: Image, b: Book, pl: Place)
    requires image.Valid() && |image.pages| >= 1 && Stands(image, b, pl)
  {
    var p := Names(image, b, pl);
    p in b.owner && b.owner[p] == pl
  }

  ghost predicate AllOwn(image: Image, b: Book)
    requires image.Valid() && |image.pages| >= 1
  {
    forall pl {:trigger Stands(image, b, pl)} :: Stands(image, b, pl) ==> Owns(image, b, pl)
  }

  /** The trunks are the chain that the header starts, to its end. */
  ghost predicate TrunksFollow(image: Image, trunks: seq<nat>)
    requires image.Valid() && |image.pages| >= 1
  {
    && InImage(image, trunks)
    && (trunks != [] ==> trunks[0] == FirstTrunk(image))
    && (forall i, j :: 0 <= i < |trunks| - 1 && j == i + 1 ==> TrunkAfter(image, trunks[i]) == trunks[j])
  }

  ghost predicate TrunksEnd(image: Image, trunks: seq<nat>)
    requires image.Valid() && |image.pages| >= 1
  {
    && TrunksFollow(image, trunks)
    && (if trunks == [] then FirstTrunk(image) else TrunkAfter(image, trunks[|trunks| - 1])) == 0
  }

  /** A kept book with every page owned and every place owning: nothing about it is left open. */
  ghost predicate Complete(image: Image, definitions: Definitions, b: Book, roles: seq<nat>, parents: seq<nat>)
    requires image.Valid() && |image.pages| >= 1
  {
    && BookKept(image, definitions, b, roles, parents)
    && AllOwn(image, b)
    && TrunksEnd(image, b.trunks)
    && forall p :: 1 <= p <= |image.pages| ==> p in b.owner || IsMap(image, p)
  }

  // ----- there is only one such book

  lemma {:induction false} SameTrunkAt(image: Image, s: seq<nat>, t: seq<nat>, k: nat)
    requires image.Valid() && |image.pages| >= 1 && TrunksFollow(image, s) && TrunksFollow(image, t) && k < |s| && k < |t|
    ensures s[k] == t[k]
  {
    if k > 0 {
      SameTrunkAt(image, s, t, k - 1);
      assert TrunkAfter(image, s[k - 1]) == s[k] && TrunkAfter(image, t[k - 1]) == t[k];
    }
  }

  lemma NextTrunk(image: Image, s: seq<nat>, t: seq<nat>)
    requires image.Valid() && |image.pages| >= 1 && TrunksFollow(image, s) && TrunksFollow(image, t)
    ensures |t| > |s| ==> t[|s|] == if s == [] then FirstTrunk(image) else TrunkAfter(image, s[|s| - 1])
  {
    if |t| > |s| > 0 {
      SameTrunkAt(image, s, t, |s| - 1);
      assert TrunkAfter(image, t[|s| - 1]) == t[|s|];
    }
  }

  lemma NotLonger(image: Image, s: seq<nat>, t: seq<nat>)
    requires image.Valid() && |image.pages| >= 1 && TrunksEnd(image, s) && TrunksFollow(image, t)
    ensures |t| <= |s|
  {
    hide TrunkAfter, FirstTrunk;
    NextTrunk(image, s, t);
  }

  /** The free list has one sequence of trunks. */
  lemma TrunksAreUnique(image: Image, s: seq<nat>, t: seq<nat>)
    requires image.Valid() && |image.pages| >= 1 && TrunksEnd(image, s) && TrunksEnd(image, t)
    ensures s == t
  {
    hide TrunkAfter;
    NotLonger(image, s, t);
    NotLonger(image, t, s);
    forall k | 0 <= k < |s| ensures s[k] == t[k] {
      SameTrunkAt(image, s, t, k);
    }
  }

  /** One page in two books: the same owner and the same tree. */
  ghost predicate SameAt(a: Book, b: Book, p: nat) {
    p in a.owner && p in b.owner && b.owner[p] == a.owner[p] && (p in a.kinds ==> p in b.kinds && b.kinds[p] == a.kinds[p])
  }

  lemma StandsInBoth(image: Image, definitions: Definitions, a: Book, b: Book, pl: Place)
    requires image.Valid() && |image.pages| >= 1 && KindsFollow(image, definitions, a) && a.trunks == b.trunks && Stands(image, a, pl)
    requires Holder(pl).Some? ==> SameAt(a, b, Holder(pl).value)
    ensures Stands(image, b, pl) && Names(image, b, pl) == Names(image, a, pl)
  {
    hide ChainIn, EntryIn, CellAt, KindIn, CellsIn, LeafCount, Be32, TreeFor;
  }

  lemma SamePage(image: Image, definitions: Definitions, a: Book, b: Book, p: nat)
    requires image.Valid() && |image.pages| >= 1
    requires Justified(image, a) && KindsFollow(image, definitions, a) && KindsFollow(image, definitions, b)
    requires AllOwn(image, b) && a.trunks == b.trunks && p in a.owner
    requires Holder(a.owner[p]).Some? ==> SameAt(a, b, Holder(a.owner[p]).value)
    ensures SameAt(a, b, p)
  {
    hide Stands, Names, IsMap, EntryIn;
    var pl := a.owner[p];
    assert JustifiedAt(image, a, p, pl);
    StandsInBoth(image, definitions, a, b, pl);
    assert Owns(image, b, pl);
    if p in a.kinds {
      assert TreeFor(image, definitions, a.kinds, pl) == Some(a.kinds[p]);
      assert TreeFor(image, definitions, b.kinds, pl) == Some(b.kinds[p]);
    }
  }

  lemma {:induction false} SameInOrder(image: Image, definitions: Definitions, a: Book, b: Book, k: nat)
    requires image.Valid() && |image.pages| >= 1
    requires Justified(image, a) && KindsFollow(image, definitions, a) && KindsFollow(image, definitions, b)
    requires Ordered(a) && AllOwn(image, b) && a.trunks == b.trunks && k < |a.order|
    ensures SameAt(a, b, a.order[k])
    decreases k
  {
    hide Justified, KindsFollow, AllOwn;
    var p := a.order[k];
    assert p in a.order;
    if Holder(a.owner[p]).Some? {
      var j :| 0 <= j < k && a.order[j] == Holder(a.owner[p]).value;
      SameInOrder(image, definitions, a, b, j);
    }
    SamePage(image, definitions, a, b, p);
  }

  lemma BookWithin(image: Image, definitions: Definitions, a: Book, b: Book)
    requires image.Valid() && |image.pages| >= 1
    requires Justified(image, a) && KindsFollow(image, definitions, a) && KindsFollow(image, definitions, b)
    requires Ordered(a) && AllOwn(image, b) && a.trunks == b.trunks
    ensures Submap(a.owner, b.owner) && Submap(a.kinds, b.kinds)
  {
    hide Justified, AllOwn;
    forall p | p in a.owner ensures SameAt(a, b, p) {
      assert p in a.order;
      var k :| 0 <= k < |a.order| && a.order[k] == p;
      SameInOrder(image, definitions, a, b, k);
    }
  }

  lemma MutualSubmaps<K, V>(a: map<K, V>, b: map<K, V>)
    requires Submap(a, b) && Submap(b, a)
    ensures a == b
  {
    assert a.Keys == b.Keys;
  }

  lemma SameMarks(image: Image, a: Book, b: Book, roles: seq<nat>, parents: seq<nat>, roles2: seq<nat>, parents2: seq<nat>)
    requires image.Valid() && |image.pages| >= 1 && a.owner == b.owner && a.kinds == b.kinds && a.trunks == b.trunks
    requires Marked(image, a, roles, parents) && Marked(image, b, roles2, parents2)
    ensures roles[1..] == roles2[1..]
    ensures forall p :: p in a.owner && OnImage(image, p) ==> parents[p] == parents2[p]
  {
    hide Stands, ParentOf, IsMap;
    forall p | 1 <= p <= |image.pages| ensures roles[p] == roles2[p] && (p in a.owner ==> parents[p] == parents2[p]) {
      assert MarkedAt(image, a, roles, parents, p) && MarkedAt(image, b, roles2, parents2, p);
      if p in a.owner {
        StandsStill(image, a, b, a.owner[p]);
      }
    }
  }

  /** The bytes of an image determine its complete book: every role, every parent, every owner and every tree. */
  lemma OwnershipIsUnique(image: Image, definitions: Definitions, a: Book, roles: seq<nat>, parents: seq<nat>,
                          b: Book, roles2: seq<nat>, parents2: seq<nat>)
    requires image.Valid() && |image.pages| >= 1
    requires Complete(image, definitions, a, roles, parents) && Complete(image, definitions, b, roles2, parents2)
    ensures a.owner == b.owner && a.kinds == b.kinds && a.trunks == b.trunks
    ensures roles[1..] == roles2[1..]
    ensures forall p :: p in a.owner && OnImage(image, p) ==> parents[p] == parents2[p]
  {
    hide Justified, KindsFollow, AllOwn, Ordered, Marked, TrunksEnd, Submap;
    TrunksAreUnique(image, a.trunks, b.trunks);
    BookWithin(image, definitions, a, b);
    BookWithin(image, definitions, b, a);
    MutualSubmaps(a.owner, b.owner);
    MutualSubmaps(a.kinds, b.kinds);
    SameMarks(image, a, b, roles, parents, roles2, parents2);
  }

  /** No page is named by two places. */
  lemma NoPageIsNamedTwice(image: Image, definitions: Definitions, b: Book, roles: seq<nat>, parents: seq<nat>, x: Place, y: Place)
    requires image.Valid() && |image.pages| >= 1 && Complete(image, definitions, b, roles, parents)
    requires Stands(image, b, x) && Stands(image, b, y) && Names(image, b, x) == Names(image, b, y)
    ensures x == y
  {
    hide Names, BookKept, TrunksEnd;
    assert Owns(image, b, x) && Owns(image, b, y);
  }
}

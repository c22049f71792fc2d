/** What the bytes of a b-tree page say: its cells, their records, and the chains of overflow pages that carry the rest of them. */
module Payloads {
  import opened Base
  import opened Images
  import opened Shapes

  // ----- one b-tree page

  const INTERIOR_INDEX: nat := 2
  const INTERIOR_TABLE: nat := 5
  const LEAF_INDEX: nat := 10
  const LEAF_TABLE: nat := 13

  /** The first page keeps the file header before its b-tree header. */
  function HeadAt(p: nat): nat {
    if p == 1 then 100 else 0
  }

  predicate Leaf(kind: nat) {
    kind == LEAF_INDEX || kind == LEAF_TABLE
  }

  predicate Tabular(kind: nat) {
    kind == INTERIOR_TABLE || kind == LEAF_TABLE
  }

  function KindOf(b: Bytes, p: nat): nat
    requires |b| >= 512
  {
    b[HeadAt(p)]
  }

  function CellCount(b: Bytes, p: nat): nat
    requires |b| >= 512
  {
    Be16(b, HeadAt(p) + 3).value
  }

  function PointersAt(b: Bytes, p: nat): nat
    requires |b| >= 512
  {
    HeadAt(p) + if Leaf(KindOf(b, p)) then 8 else 12
  }

  function HeaderEnd(b: Bytes, p: nat): nat
    requires |b| >= 512
  {
    PointersAt(b, p) + CellCount(b, p) * 2
  }

  // ----- cells

  /** How much of a payload stays in its cell. */
  function LocalLength(usable: nat, length: nat, tabular: bool): (local: nat)
    requires usable >= 480
    ensures local <= length
  {
    var most := if tabular then usable - 35 else (usable - 12) * 64 / 255 - 23;
    var least := (usable - 12) * 32 / 255 - 23;
    if length <= most then length
    else
      var some := least + (length - least) % (usable - 4);
      if some > most then least else some
  }

  /** The payload size of a record and the position of its payload, after the row number of a table leaf. */
  function RecordStart(b: Bytes, start: nat, tabular: bool): (r: Option<(nat, nat)>)
    ensures r.Some? ==> start < r.value.1 <= |b|
  {
    var length := VarintAt(b, start);
    if length.None? then None
    else if !tabular then length
    else
      var rowid := VarintAt(b, length.value.1);
      if rowid.None? then None else Some((length.value.0, rowid.value.1))
  }

  /** Where a record ends in its page: after its local payload and, when there is more, the overflow page number. */
  function RecordEnd(b: Bytes, start: nat, tabular: bool, usable: nat): (end: Option<nat>)
    requires usable >= 480
    ensures end.Some? ==> start < end.value
  {
    var record := RecordStart(b, start, tabular);
    if record.None? then None
    else
      var local := LocalLength(usable, record.value.0, tabular);
      Some(record.value.1 + local + if record.value.0 > local then 4 else 0)
  }

  /** Where a cell ends: an interior cell starts with its child, and an interior table cell has no record. */
  function CellEnd(b: Bytes, start: nat, kind: nat, usable: nat): Option<nat>
    requires usable >= 480
  {
    var at := start + if Leaf(kind) then 0 else 4;
    if Tabular(kind) && !Leaf(kind) then
      var rowid := VarintAt(b, at);
      if rowid.None? then None else Some(rowid.value.1)
    else RecordEnd(b, at, Tabular(kind), usable)
  }

  /** Cell `i` starts where its pointer says and is exactly as long as its content. */
  ghost predicate CellLaid(b: Bytes, p: nat, i: nat, s: Span, usable: nat)
    requires |b| >= 512 && usable >= 480
  {
    && Be16(b, PointersAt(b, p) + i * 2) == Ok(s.start)
    && CellEnd(b, s.start, KindOf(b, p), usable) == Some(s.start + s.length)
  }

  /** Block `k` of a chain of free blocks starts where the block before it, or the page header, says. */
  ghost predicate FreeBlock(b: Bytes, first: nat, blocks: seq<Span>, k: nat)
    requires k < |blocks|
  {
    && blocks[k].start != 0
    && Ok(blocks[k].start) == (if k == 0 then Ok(first) else Be16(b, blocks[k - 1].start))
    && Be16(b, blocks[k].start + 2) == Ok(blocks[k].length)
    && blocks[k].length >= 4
  }

  ghost predicate FreeChain(b: Bytes, first: nat, blocks: seq<Span>) {
    forall k :: 0 <= k < |blocks| ==> FreeBlock(b, first, blocks, k)
  }

  lemma FreeChainFurther(b: Bytes, first: nat, blocks: seq<Span>, s: Span)
    requires FreeChain(b, first, blocks) && FreeBlock(b, first, blocks + [s], |blocks|)
    ensures FreeChain(b, first, blocks + [s])
  {
    var more := blocks + [s];
    forall k | 0 <= k < |more| ensures FreeBlock(b, first, more, k) {
      assert k < |blocks| ==> FreeBlock(b, first, blocks, k);
    }
  }

  ghost predicate FreeChainEnds(b: Bytes, first: nat, blocks: seq<Span>) {
    FreeChain(b, first, blocks) && if blocks == [] then first == 0 else Be16(b, blocks[|blocks| - 1].start) == Ok(0)
  }

  /** Header with pointers, every cell, and every free block of a page, none overlapping another, all in the usable area. */
  ghost predicate Laid(image: Image, p: nat, spans: seq<Span>)
    requires image.Valid()
  {
    && 1 <= p <= |image.pages|
    && var b := image.pages[p - 1];
    && var cells := CellCount(b, p);
    && |spans| >= cells + 1
    && spans[0] == Span(0, HeaderEnd(b, p))
    && (forall i :: 1 <= i <= cells ==> CellLaid(b, p, i - 1, spans[i], image.usable))
    && FreeChainEnds(b, Be16(b, HeadAt(p) + 1).value, spans[cells + 1..])
    && Disjoint(spans, image.usable)
  }

  // ----- payloads

  predicate InImage(image: Image, chain: seq<nat>) {
    forall i :: 0 <= i < |chain| ==> 1 <= chain[i] <= |image.pages|
  }

  /** What an overflow page carries while `left` bytes are still to come. */
  function Carried(image: Image, p: nat, left: nat): (part: Bytes)
    requires image.Valid() && 1 <= p <= |image.pages|
    ensures |part| == if left < image.usable - 4 then left else image.usable - 4
  {
    var take := if left < image.usable - 4 then left else image.usable - 4;
    image.pages[p - 1][4..4 + take]
  }

  /** The bytes that a chain of overflow pages carries of a payload. */
  function Overflow(image: Image, chain: seq<nat>, total: nat): (content: Bytes)
    requires image.Valid() && InImage(image, chain)
    ensures |content| <= total
  {
    if chain == [] then []
    else
      var before := Overflow(image, chain[..|chain| - 1], total);
      before + Carried(image, chain[|chain| - 1], total - |before|)
  }

  /** Each overflow page names the next one. */
  ghost predicate Chained(image: Image, first: nat, chain: seq<nat>) {
    && InImage(image, chain)
    && (chain != [] ==> chain[0] == first)
    && (forall i, j :: 0 <= i < |chain| - 1 && j == i + 1 ==> Be32(image.pages[chain[i] - 1], 0) == Ok(chain[j]))
  }

  function Wanted(content: Bytes, wanted: nat): Bytes {
    if |content| < wanted then content else content[..wanted]
  }

  /** The chain carries all but the last `left` bytes, and every page but the last is full. */
  ghost predicate ChainRead(image: Image, first: nat, chain: seq<nat>, total: nat, left: nat)
    requires image.Valid()
  {
    && Chained(image, first, chain)
    && left == total - |Overflow(image, chain, total)|
    && (left > 0 ==> total - left == |chain| * (image.usable - 4))
    && total - left <= |chain| * (image.usable - 4)
    && (chain != [] ==> (|chain| - 1) * (image.usable - 4) < total)
  }

  /** A chain that carries everything and whose last page names no further one. */
  ghost predicate WholeChain(image: Image, first: nat, chain: seq<nat>, total: nat)
    requires image.Valid()
    ensures WholeChain(image, first, chain, total) ==> chain != [] && InImage(image, chain)
  {
    && chain != []
    && ChainRead(image, first, chain, total, 0)
    && Be32(image.pages[chain[|chain| - 1] - 1], 0) == Ok(0)
  }

  /** What has been collected of a payload while `left` bytes of it are still to come. */
  ghost predicate Collected(image: Image, first: nat, chain: seq<nat>, rest: nat, left: nat, local: Bytes, wanted: nat, prefix: Bytes)
    requires image.Valid()
  {
    && ChainRead(image, first, chain, rest, left)
    && prefix == Wanted(local + Overflow(image, chain, rest), wanted)
  }

  lemma NothingCollected(image: Image, first: nat, rest: nat, local: Bytes, wanted: nat)
    requires image.Valid()
    ensures Collected(image, first, [], rest, rest, local, wanted, if |local| < wanted then local else local[..wanted])
  {
    assert local + Overflow(image, [], rest) == local;
  }

  lemma CollectedFurther(image: Image, first: nat, chain: seq<nat>, rest: nat, left: nat, local: Bytes, wanted: nat, prefix: Bytes, next: nat)
    requires image.Valid() && Collected(image, first, chain, rest, left, local, wanted, prefix) && 0 < left
    requires 1 <= next <= |image.pages|
    requires if chain == [] then next == first
             else 1 <= chain[|chain| - 1] <= |image.pages| && Be32(image.pages[chain[|chain| - 1] - 1], 0) == Ok(next)
    ensures var take := if left < image.usable - 4 then left else image.usable - 4;
            Collected(image, first, chain + [next], rest, left - take, local, wanted,
                      if |prefix| < wanted then prefix + image.pages[next - 1][4..4 + if take < wanted - |prefix| then take else wanted - |prefix|]
                      else prefix)
  {
    hide Overflow, Wanted, Be32, Chained;
    ChainedPages(image, first, chain);
    ChainReadAdvances(image, first, chain, rest, left, next);
    ContentAdvances(image, chain, rest, next, local, wanted);
  }

  lemma CollectedAll(image: Image, first: nat, chain: seq<nat>, rest: nat, local: Bytes, wanted: nat, prefix: Bytes)
    requires image.Valid() && Collected(image, first, chain, rest, 0, local, wanted, prefix)
    ensures ChainRead(image, first, chain, rest, 0) && Chained(image, first, chain)
    ensures prefix == Wanted(local + Overflow(image, chain, rest), wanted)
  {
  }

  lemma LocalRead(image: Image, b: Bytes, start: nat, length: nat, tabular: bool, schema: bool)
    requires image.Valid() && LocalLength(image.usable, length, tabular) == length && start + length <= |b|
    ensures var part := b[start..start + length];
            var wanted := if schema || length < 128 then length else 128;
            PayloadRead(image, b, start, length, tabular, schema, [], (if |part| < wanted then part else part[..wanted], length))
  {
    hide LocalLength;
    var part := b[start..start + length];
    assert part + Overflow(image, [], 0) == part;
  }

  lemma PayloadEnds(image: Image, b: Bytes, start: nat, length: nat, tabular: bool, schema: bool, chain: seq<nat>, read: (Bytes, nat))
    requires image.Valid() && PayloadRead(image, b, start, length, tabular, schema, chain, read)
    ensures var local := LocalLength(image.usable, length, tabular); read.1 == local + if length > local then 4 else 0
  {
    hide LocalLength, ChainRead, Overflow, Be32, Wanted;
  }

  lemma ChainedRead(image: Image, b: Bytes, start: nat, length: nat, tabular: bool, schema: bool, chain: seq<nat>, prefix: Bytes)
    requires image.Valid()
    requires var local := LocalLength(image.usable, length, tabular);
             && start + local + 4 <= |b| && local < length
             && WholeChain(image, Be32(b, start + local).value, chain, length - local)
             && prefix == Wanted(b[start..start + local] + Overflow(image, chain, length - local), if schema || length < 128 then length else 128)
    ensures PayloadRead(image, b, start, length, tabular, schema, chain, (prefix, LocalLength(image.usable, length, tabular) + 4))
  {
    hide LocalLength, Overflow, Be32, Wanted, WholeChain;
  }

  lemma WantedGrows(content: Bytes, more: Bytes, wanted: nat)
    ensures var prefix := Wanted(content, wanted);
            Wanted(content + more, wanted) ==
            if |prefix| < wanted then prefix + more[..if |more| < wanted - |prefix| then |more| else wanted - |prefix|] else prefix
  {
    var prefix := Wanted(content, wanted);
    if |prefix| < wanted {
      if |content + more| < wanted {
        assert more[..|more|] == more;
      }
    } else {
      assert (content + more)[..wanted] == content[..wanted];
    }
  }

  lemma ChainedFurther(image: Image, first: nat, chain: seq<nat>, next: nat)
    requires Chained(image, first, chain) && 1 <= next <= |image.pages|
    requires if chain == [] then next == first else Be32(image.pages[chain[|chain| - 1] - 1], 0) == Ok(next)
    ensures Chained(image, first, chain + [next])
  {
  }

  lemma OverflowGrows(image: Image, chain: seq<nat>, next: nat, total: nat)
    requires image.Valid() && InImage(image, chain) && 1 <= next <= |image.pages|
    ensures InImage(image, chain + [next])
    ensures var before := Overflow(image, chain, total);
            Overflow(image, chain + [next], total) == before + Carried(image, next, total - |before|)
  {
    InImageFurther(image, chain, next);
    hide InImage, Carried, Overflow;
    var longer := chain + [next];
    assert longer[..|longer| - 1] == chain && longer[|longer| - 1] == next;
    LastCarries(image, longer, chain, next, total);
  }

  lemma LastCarries(image: Image, longer: seq<nat>, chain: seq<nat>, next: nat, total: nat)
    requires image.Valid() && InImage(image, longer) && InImage(image, chain) && 1 <= next <= |image.pages|
    requires longer != [] && longer[..|longer| - 1] == chain && longer[|longer| - 1] == next
    ensures var before := Overflow(image, chain, total);
            Overflow(image, longer, total) == before + Carried(image, next, total - |before|)
  {
    hide InImage, Carried;
  }

  lemma InImageFurther(image: Image, chain: seq<nat>, next: nat)
    requires InImage(image, chain) && 1 <= next <= |image.pages|
    ensures InImage(image, chain + [next])
  {
  }

  lemma FullPages(n: nat, size: nat)
    ensures (n + 1) * size == n * size + size
  {
  }

  lemma ChainReadAdvances(image: Image, first: nat, chain: seq<nat>, total: nat, left: nat, next: nat)
    requires image.Valid() && ChainRead(image, first, chain, total, left) && 0 < left
    requires 1 <= next <= |image.pages|
    requires if chain == [] then next == first else Be32(image.pages[chain[|chain| - 1] - 1], 0) == Ok(next)
    ensures ChainRead(image, first, chain + [next], total, left - if left < image.usable - 4 then left else image.usable - 4)
    ensures left == total - |Overflow(image, chain, total)|
    ensures |Overflow(image, chain + [next], total)| == |Overflow(image, chain, total)| + if left < image.usable - 4 then left else image.usable - 4
  {
    hide Overflow, Be32, Chained;
    ChainedPages(image, first, chain);
    ChainedFurther(image, first, chain, next);
    OverflowGrows(image, chain, next, total);
    FullPages(|chain|, image.usable - 4);
    assert |chain + [next]| == |chain| + 1;
    ChainedPages(image, first, chain + [next]);
  }

  lemma ContentAdvances(image: Image, chain: seq<nat>, total: nat, next: nat, local: Bytes, wanted: nat)
    requires image.Valid() && InImage(image, chain) && 1 <= next <= |image.pages|
    ensures InImage(image, chain + [next])
    ensures var left := total - |Overflow(image, chain, total)|;
            var take := if left < image.usable - 4 then left else image.usable - 4;
            var prefix := Wanted(local + Overflow(image, chain, total), wanted);
            Wanted(local + Overflow(image, chain + [next], total), wanted) ==
            if |prefix| < wanted then prefix + image.pages[next - 1][4..4 + if take < wanted - |prefix| then take else wanted - |prefix|]
            else prefix
  {
    hide Wanted, Overflow, InImage;
    var before := Overflow(image, chain, total);
    var left := total - |before|;
    OverflowGrows(image, chain, next, total);
    Regrouped(local, before, Carried(image, next, left));
    WantedCarried(image, next, left, local + before, wanted);
  }

  lemma WantedCarried(image: Image, next: nat, left: nat, content: Bytes, wanted: nat)
    requires image.Valid() && 1 <= next <= |image.pages|
    ensures var prefix := Wanted(content, wanted);
            var take := if left < image.usable - 4 then left else image.usable - 4;
            Wanted(content + Carried(image, next, left), wanted) ==
            if |prefix| < wanted then prefix + image.pages[next - 1][4..4 + if take < wanted - |prefix| then take else wanted - |prefix|]
            else prefix
  {
    hide Wanted;
    WantedPart(content, image.pages[next - 1], |Carried(image, next, left)|, wanted);
  }

  lemma Regrouped(a: Bytes, b: Bytes, c: Bytes)
    ensures a + (b + c) == (a + b) + c
  {
  }

  lemma WantedPart(content: Bytes, page: Bytes, take: nat, wanted: nat)
    requires 4 + take <= |page|
    ensures var prefix := Wanted(content, wanted);
            Wanted(content + page[4..4 + take], wanted) ==
            if |prefix| < wanted then prefix + page[4..4 + if take < wanted - |prefix| then take else wanted - |prefix|]
            else prefix
  {
    hide Wanted;
    WantedGrows(content, page[4..4 + take], wanted);
    var room := wanted - |Wanted(content, wanted)|;
    assert 0 <= room < take ==> page[4..4 + take][..room] == page[4..4 + room];
    assert page[4..4 + take][..take] == page[4..4 + take];
  }

  lemma ChainedPages(image: Image, first: nat, chain: seq<nat>)
    requires Chained(image, first, chain)
    ensures forall i :: 0 <= i < |chain| ==> 1 <= chain[i] <= |image.pages|
  {
  }

  /** The whole payload is present: its local part and a chain of exactly as many overflow pages as the rest needs. */
  ghost predicate PayloadRead(image: Image, b: Bytes, start: nat, length: nat, tabular: bool, schema: bool, chain: seq<nat>, read: (Bytes, nat))
    requires image.Valid()
  {
    var local := LocalLength(image.usable, length, tabular);
    && start + local <= |b|
    && InImage(image, chain)
    && read.0 == Wanted(b[start..start + local] + Overflow(image, chain, length - local), if schema || length < 128 then length else 128)
    && read.1 == local + (if length > local then 4 else 0)
    && (chain == [] <==> length == local)
    && (chain != [] ==> Be32(b, start + local).Ok? && WholeChain(image, Be32(b, start + local).value, chain, length - local))
  }
}

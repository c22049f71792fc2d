/** The physical read copy: byte readers, the log checksum, and the page image of main file and log. */
module Images {
  import opened Base

  datatype ShapeError = Corrupt | OverLimit | Unsupported

  type Shaped<+T> = Result<T, ShapeError>

  const SOURCE_MAX: nat := 64 * 1024 * 1024
  const U32: nat := 0x1_0000_0000

  // ----- big-endian fields

  function Be16(b: Bytes, at: nat): (r: Shaped<nat>)
    ensures r.Ok? <==> at + 2 <= |b|
    ensures r.Ok? ==> r.value < 0x1_0000
    ensures r.Err? ==> r.error == Corrupt
  {
    if at + 2 <= |b| then Ok((b[at] as nat) * 256 + b[at + 1]) else Err(Corrupt)
  }

  function Be32(b: Bytes, at: nat): (r: Shaped<nat>)
    ensures r.Ok? <==> at + 4 <= |b|
    ensures r.Ok? ==> r.value < U32
    ensures r.Err? ==> r.error == Corrupt
  {
    if at + 4 <= |b| then Ok((((b[at] as nat) * 256 + b[at + 1]) * 256 + b[at + 2]) * 256 + b[at + 3]) else Err(Corrupt)
  }

  // ----- variable-length integers

  /** The bytes of a varint: continuation bytes, at most eight of them, then a last byte. */
  function VarintLength(b: Bytes, at: nat, count: nat): (r: Option<nat>)
    requires count <= 8
    ensures r.Some? ==> 1 <= r.value <= 9 - count && at + r.value <= |b|
    decreases 9 - count
  {
    if at >= |b| then None
    else if count == 8 || b[at] < 128 then Some(1)
    else
      var rest := VarintLength(b, at + 1, count + 1);
      if rest.None? then None else Some(rest.value + 1)
  }

  /** Seven bits from each byte, eight from a ninth. */
  function VarintValue(bytes: Bytes): nat
    requires 1 <= |bytes| <= 9
  {
    if |bytes| == 1 then bytes[0] % 128
    else VarintValue(bytes[..|bytes| - 1]) * (if |bytes| == 9 then 256 else 128)
         + (if |bytes| == 9 then bytes[8] else bytes[|bytes| - 1] % 128)
  }

  function Pow128(n: nat): nat {
    if n == 0 then 1 else 128 * Pow128(n - 1)
  }

  lemma {:induction false} ShortVarintBound(bytes: Bytes)
    requires 1 <= |bytes| <= 8
    ensures VarintValue(bytes) < Pow128(|bytes|)
  {
    if |bytes| > 1 {
      ShortVarintBound(bytes[..|bytes| - 1]);
    }
  }

  lemma VarintFits(bytes: Bytes)
    requires 1 <= |bytes| <= 9
    ensures VarintValue(bytes) <= U64_MAX
  {
    assert Pow128(8) == 0x100_0000_0000_0000 by {
      assert Pow128(4) == 0x1000_0000;
    }
    if |bytes| == 9 {
      ShortVarintBound(bytes[..8]);
    } else {
      ShortVarintBound(bytes);
      Pow128Rises(|bytes|, 8);
    }
  }

  lemma {:induction false} Pow128Rises(n: nat, m: nat)
    requires n <= m
    ensures Pow128(n) <= Pow128(m)
  {
    if n < m {
      Pow128Rises(n, m - 1);
    }
  }

  lemma OneMoreByte(b: Bytes, start: nat, at: nat)
    requires start <= at < |b| && at - start <= 8
    ensures at == start ==> VarintValue(b[start..at + 1]) == b[at] % 128
    ensures start < at < start + 8 ==> VarintValue(b[start..at + 1]) == VarintValue(b[start..at]) * 128 + b[at] % 128
    ensures at == start + 8 ==> VarintValue(b[start..at + 1]) == VarintValue(b[start..at]) * 256 + b[at]
  {
    if start < at {
      assert b[start..at + 1][..at - start] == b[start..at];
    }
  }

  /** The varint at a position, and the position after it. */
  function VarintAt(b: Bytes, at: nat): (r: Option<(nat, nat)>)
    ensures r.Some? ==> at < r.value.1 <= |b|
  {
    var n := VarintLength(b, at, 0);
    if n.None? then None else Some((VarintValue(b[at..at + n.value]), at + n.value))
  }

  /** The bytes from `start` up to `at` are continuation bytes worth `value`, and the varint ends at or after `at`. */
  ghost predicate ReadSoFar(b: Bytes, start: nat, at: nat, value: nat) {
    && start <= at <= start + 8
    && (at == start ==> value == 0)
    && (start < at ==> at <= |b| && value == VarintValue(b[start..at]))
    && VarintLength(b, start, 0) == Longer(VarintLength(b, at, at - start), at - start)
  }

  function Longer(length: Option<nat>, n: nat): Option<nat> {
    if length.None? then None else Some(length.value + n)
  }

  lemma CutShort(b: Bytes, start: nat, at: nat, value: nat)
    requires ReadSoFar(b, start, at, value) && at >= |b|
    ensures VarintLength(b, start, 0).None?
  {
  }

  lemma LastByte(b: Bytes, start: nat, at: nat, value: nat)
    requires ReadSoFar(b, start, at, value) && at < |b| && (at == start + 8 || b[at] < 128)
    ensures VarintLength(b, start, 0) == Some(at + 1 - start)
    ensures VarintValue(b[start..at + 1]) == if at == start + 8 then value * 256 + b[at] else value * 128 + b[at] % 128
  {
    hide VarintValue;
    OneMoreByte(b, start, at);
  }

  lemma OneMoreRead(b: Bytes, start: nat, at: nat, value: nat)
    requires ReadSoFar(b, start, at, value) && at < |b| && at < start + 8 && b[at] >= 128
    ensures ReadSoFar(b, start, at + 1, value * 128 + b[at] % 128)
  {
    hide VarintValue;
    OneMoreByte(b, start, at);
  }

  /** Reads one varint and the position after it. */
  method Varint(b: Bytes, start: nat) returns (r: Shaped<(nat, nat)>)
    ensures r.Ok? <==> VarintLength(b, start, 0).Some?
    ensures r.Err? ==> r.error == Corrupt
    ensures r.Ok? ==> var n := VarintLength(b, start, 0).value; r.value == (VarintValue(b[start..start + n]), start + n)
  {
    hide VarintValue;
    var value: nat := 0;
    var at := start;
    var i := 0;
    while true
      invariant 0 <= i <= 8 && at == start + i
      invariant ReadSoFar(b, start, at, value)
      decreases 8 - i
    {
      hide VarintLength, ReadSoFar;
      if at >= |b| {
        CutShort(b, start, at, value);
        return Err(Corrupt);
      }
      var byte: nat := b[at];
      if i == 8 {
        LastByte(b, start, at, value);
        return Ok((value * 256 + byte, at + 1));
      }
      if byte < 128 {
        LastByte(b, start, at, value);
        return Ok((value * 128 + byte % 128, at + 1));
      }
      OneMoreRead(b, start, at, value);
      value := value * 128 + byte % 128;
      at := at + 1;
      i := i + 1;
    }
  }

  // ----- the cumulative log checksum

  type Sum = (nat, nat)

  function Word(b: Bytes, at: nat, little: bool): (w: nat)
    requires at + 4 <= |b|
    ensures w < U32
  {
    if little then (((b[at + 3] as nat) * 256 + b[at + 2]) * 256 + b[at + 1]) * 256 + b[at]
    else Be32(b, at).value
  }

  /** One step over eight bytes, in 32-bit wrapping arithmetic. */
  function Mixed(b: Bytes, at: nat, little: bool, sum: Sum): (next: Sum)
    requires at + 8 <= |b|
    ensures next.0 < U32 && next.1 < U32
  {
    var first := (sum.0 + Word(b, at, little) + sum.1) % U32;
    (first, (sum.1 + Word(b, at + 4, little) + first) % U32)
  }

  /** The checksum over the first whole eight-byte groups of some bytes, continuing from an earlier value. */
  function GroupSum(b: Bytes, groups: nat, little: bool, sum: Sum): Sum
    requires groups * 8 <= |b|
  {
    if groups == 0 then sum else Mixed(b, groups * 8 - 8, little, GroupSum(b, groups - 1, little, sum))
  }

  function Checksum(b: Bytes, little: bool, sum: Sum): Sum {
    GroupSum(b, |b| / 8, little, sum)
  }

  method ComputeChecksum(b: Bytes, little: bool, start: Sum) returns (sum: Sum)
    ensures sum == Checksum(b, little, start)
  {
    sum := start;
    var groups := 0;
    while groups < |b| / 8
      invariant groups <= |b| / 8
      invariant sum == GroupSum(b, groups, little, start)
    {
      sum := Mixed(b, groups * 8, little, sum);
      groups := groups + 1;
    }
  }

  lemma SameWord(a: Bytes, i: nat, b: Bytes, j: nat, little: bool)
    requires i + 4 <= |a| && j + 4 <= |b| && a[i..i + 4] == b[j..j + 4]
    ensures Word(a, i, little) == Word(b, j, little)
  {
    var x, y := a[i..i + 4], b[j..j + 4];
    assert x[0] == a[i] && x[1] == a[i + 1] && x[2] == a[i + 2] && x[3] == a[i + 3];
    assert y[0] == b[j] && y[1] == b[j + 1] && y[2] == b[j + 2] && y[3] == b[j + 3];
  }

  lemma SameMixed(a: Bytes, i: nat, b: Bytes, j: nat, little: bool, sum: Sum)
    requires i + 8 <= |a| && j + 8 <= |b| && a[i..i + 8] == b[j..j + 8]
    ensures Mixed(a, i, little, sum) == Mixed(b, j, little, sum)
  {
    hide Word;
    assert a[i..i + 8][..4] == a[i..i + 4] && a[i..i + 8][4..] == a[i + 4..i + 8];
    assert b[j..j + 8][..4] == b[j..j + 4] && b[j..j + 8][4..] == b[j + 4..j + 8];
    SameWord(a, i, b, j, little);
    SameWord(a, i + 4, b, j + 4, little);
  }

  lemma {:induction false} LeadingGroups(a: Bytes, b: Bytes, groups: nat, little: bool, sum: Sum)
    requires groups * 8 <= |a|
    ensures GroupSum(a + b, groups, little, sum) == GroupSum(a, groups, little, sum)
  {
    hide Mixed;
    if groups > 0 {
      var at := groups * 8 - 8;
      LeadingGroups(a, b, groups - 1, little, sum);
      assert (a + b)[at..at + 8] == a[at..at + 8];
      SameMixed(a + b, at, a, at, little, GroupSum(a, groups - 1, little, sum));
    }
  }

  lemma {:induction false} LaterGroups(a: Bytes, b: Bytes, first: nat, groups: nat, little: bool, sum: Sum)
    requires |a| == first * 8 && groups * 8 <= |b|
    ensures GroupSum(a + b, first + groups, little, sum) == GroupSum(b, groups, little, GroupSum(a, first, little, sum))
  {
    hide Mixed;
    if groups == 0 {
      LeadingGroups(a, b, first, little, sum);
    } else {
      var at := groups * 8 - 8;
      LaterGroups(a, b, first, groups - 1, little, sum);
      assert (a + b)[|a| + at..|a| + at + 8] == b[at..at + 8];
      SameMixed(a + b, |a| + at, b, at, little, GroupSum(b, groups - 1, little, GroupSum(a, first, little, sum)));
    }
  }

  /** Summing two stretches one after the other is summing them joined. */
  lemma ChecksumContinues(a: Bytes, b: Bytes, little: bool, sum: Sum)
    requires |a| % 8 == 0
    ensures Checksum(a + b, little, sum) == Checksum(b, little, Checksum(a, little, sum))
  {
    LaterGroups(a, b, |a| / 8, |b| / 8, little, sum);
  }

  // ----- the main file header

  const SIGNATURE: Bytes := [83, 81, 76, 105, 116, 101, 32, 102, 111, 114, 109, 97, 116, 32, 51, 0]

  predicate PowerOfTwo(n: nat) {
    n == 512 || n == 1024 || n == 2048 || n == 4096 || n == 8192 || n == 16384 || n == 32768 || n == 65536
  }

  /** Page size and usable size of a supported log-mode database. */
  function Header(b: Bytes): (r: Shaped<(nat, nat)>)
    ensures r.Ok? ==> 512 <= r.value.0 <= 65536 && PowerOfTwo(r.value.0) && 480 <= r.value.1 <= r.value.0 && |b| >= 100
  {
    if |b| < 100 || b[..16] != SIGNATURE then Err(Corrupt)
    else
      var field := Be16(b, 16).value;
      var page := if field == 1 then 65536 else field;
      var reserved: nat := b[20];
      if !PowerOfTwo(page) || page < 480 + reserved || b[18..20] != [2, 2] || b[21..24] != [64, 32, 32] || Be32(b, 56).value > 1
      then Err(Unsupported)
      else Ok((page, page - reserved))
  }

  // ----- the frames of a log

  const LITTLE_MAGIC: nat := 0x377f0682
  const BIG_MAGIC: nat := 0x377f0683

  predicate LogHeaderSupported(wal: Bytes, page: nat)
    requires |wal| >= 32
  {
    && (Be32(wal, 0).value == LITTLE_MAGIC || Be32(wal, 0).value == BIG_MAGIC)
    && Be32(wal, 4).value == 3007000
    && Be32(wal, 8).value == page
  }

  predicate Little(wal: Bytes)
    requires |wal| >= 32
  {
    Be32(wal, 0).value == LITTLE_MAGIC
  }

  function StoredSum(b: Bytes, at: nat): Sum
    requires at + 8 <= |b|
  {
    (Be32(b, at).value, Be32(b, at + 4).value)
  }

  function HeaderSum(wal: Bytes): Sum
    requires |wal| >= 32
  {
    Checksum(wal[..24], Little(wal), (0, 0))
  }

  function FrameCount(wal: Bytes, page: nat): nat
    requires |wal| >= 32
  {
    (|wal| - 32) / (page + 24)
  }

  function FrameStart(page: nat, i: nat): nat {
    32 + i * (page + 24)
  }

  lemma FramesFit(wal: Bytes, page: nat, i: nat)
    requires |wal| >= 32 && i < FrameCount(wal, page)
    ensures FrameStart(page, i) + page + 24 <= |wal|
  {
    var size := page + 24;
    assert (i + 1) * size <= FrameCount(wal, page) * size;
  }

  function Frame(wal: Bytes, page: nat, i: nat): (f: Bytes)
    requires |wal| >= 32 && i < FrameCount(wal, page)
    ensures |f| == page + 24
  {
    FramesFit(wal, page, i);
    wal[FrameStart(page, i)..FrameStart(page, i) + page + 24]
  }

  function FramePage(f: Bytes): nat
    requires |f| >= 24
  {
    Be32(f, 0).value
  }

  /** Zero, or the size of the database after the commit that this frame ends. */
  function CommitSize(f: Bytes): nat
    requires |f| >= 24
  {
    Be32(f, 4).value
  }

  function FrameSum(f: Bytes, little: bool, sum: Sum): Sum
    requires |f| >= 24
  {
    Checksum(f[24..], little, Checksum(f[..8], little, sum))
  }

  /** The checksum that frame number `i` should continue from. */
  function SumBefore(wal: Bytes, page: nat, i: nat): Sum
    requires |wal| >= 32 && i <= FrameCount(wal, page)
  {
    if i == 0 then HeaderSum(wal) else FrameSum(Frame(wal, page, i - 1), Little(wal), SumBefore(wal, page, i - 1))
  }

  predicate SaltsMatch(wal: Bytes, page: nat, i: nat)
    requires |wal| >= 32 && i < FrameCount(wal, page)
  {
    Frame(wal, page, i)[8..16] == wal[16..24]
  }

  predicate FrameValid(wal: Bytes, page: nat, i: nat)
    requires |wal| >= 32 && i < FrameCount(wal, page)
  {
    SaltsMatch(wal, page, i) && SumBefore(wal, page, i + 1) == StoredSum(Frame(wal, page, i), 16)
  }

  ghost predicate ValidThrough(wal: Bytes, page: nat, k: nat)
    requires |wal| >= 32
  {
    k <= FrameCount(wal, page) && forall i :: 0 <= i < k ==> FrameValid(wal, page, i)
  }

  /** The longest prefix of frames whose salts and checksums are valid. */
  ghost predicate LongestValid(wal: Bytes, page: nat, k: nat)
    requires |wal| >= 32
  {
    ValidThrough(wal, page, k) && (k < FrameCount(wal, page) ==> !FrameValid(wal, page, k))
  }

  lemma LongestIsUnique(wal: Bytes, page: nat, a: nat, b: nat)
    requires |wal| >= 32 && LongestValid(wal, page, a) && LongestValid(wal, page, b)
    ensures a == b
  {
  }

  /** The frames that count: up to and including the last commit of a valid prefix. */
  ghost predicate LastCommit(wal: Bytes, page: nat, k: nat, c: nat)
    requires |wal| >= 32 && k <= FrameCount(wal, page)
  {
    && c <= k
    && (c > 0 ==> CommitSize(Frame(wal, page, c - 1)) != 0)
    && forall i :: c <= i < k ==> CommitSize(Frame(wal, page, i)) == 0
  }

  /** What page `p` is after overlaying the first `c` frames: the last frame for it, or the main file's page. */
  function Overlaid(main: Bytes, wal: Bytes, page: nat, c: nat, p: nat): Option<Bytes>
    requires page > 0 && |wal| >= 32 && c <= FrameCount(wal, page)
  {
    if c == 0 then MainPage(main, page, p)
    else if FramePage(Frame(wal, page, c - 1)) == p then Some(Frame(wal, page, c - 1)[24..])
    else Overlaid(main, wal, page, c - 1, p)
  }

  function MainPage(main: Bytes, page: nat, p: nat): Option<Bytes>
    requires page > 0
  {
    if p >= 1 && p * page <= |main| then
      assert (p - 1) * page == p * page - page;
      Some(main[(p - 1) * page..p * page])
    else None
  }

  /** The last of the first `c` frames that is for page `p`, if any. */
  ghost predicate LastFrameFor(wal: Bytes, page: nat, c: nat, p: nat, i: nat)
    requires |wal| >= 32 && c <= FrameCount(wal, page)
  {
    i < c && FramePage(Frame(wal, page, i)) == p && forall j :: i < j < c ==> FramePage(Frame(wal, page, j)) != p
  }

  /** The overlay is the reader algorithm's choice: the last valid frame for a page at or before the last commit. */
  lemma {:induction false} OverlaidIsLast(main: Bytes, wal: Bytes, page: nat, c: nat, p: nat)
    requires page > 0 && |wal| >= 32 && c <= FrameCount(wal, page)
    ensures forall i: nat :: LastFrameFor(wal, page, c, p, i) ==> Overlaid(main, wal, page, c, p) == Some(Frame(wal, page, i)[24..])
    ensures (forall i :: 0 <= i < c ==> FramePage(Frame(wal, page, i)) != p) ==> Overlaid(main, wal, page, c, p) == MainPage(main, page, p)
  {
    hide Frame, FramePage, MainPage, FrameCount;
    if c > 0 {
      OverlaidIsLast(main, wal, page, c - 1, p);
      forall i: nat | LastFrameFor(wal, page, c, p, i) ensures Overlaid(main, wal, page, c, p) == Some(Frame(wal, page, i)[24..]) {
        if i < c - 1 {
          assert LastFrameFor(wal, page, c - 1, p, i);
        }
      }
    }
  }

  // ----- the image of a main file and its log

  /** Pages are numbered from one. */
  datatype Image = Image(pages: seq<Bytes>, page: nat, usable: nat) {
    ghost predicate Valid() {
      && 480 <= usable <= page <= 65536 && 512 <= page
      && |pages| < U32
      && forall i :: 0 <= i < |pages| ==> |pages[i]| == page
    }

    function Get(n: nat): (r: Shaped<Bytes>)
      ensures r.Ok? <==> 1 <= n <= |pages|
      ensures r.Ok? ==> r.value == pages[n - 1]
    {
      if 1 <= n <= |pages| then Ok(pages[n - 1]) else Err(Corrupt)
    }
  }

  function ValidFrames(wal: Bytes, page: nat, from: nat): nat
    requires |wal| >= 32 && from <= FrameCount(wal, page)
    decreases FrameCount(wal, page) - from
  {
    if from < FrameCount(wal, page) && FrameValid(wal, page, from) then ValidFrames(wal, page, from + 1) else from
  }

  lemma {:induction false} ValidFramesAreLongest(wal: Bytes, page: nat, from: nat)
    requires |wal| >= 32 && ValidThrough(wal, page, from)
    ensures LongestValid(wal, page, ValidFrames(wal, page, from))
    decreases FrameCount(wal, page) - from
  {
    hide FrameValid, FrameCount;
    if from < FrameCount(wal, page) && FrameValid(wal, page, from) {
      ValidFramesAreLongest(wal, page, from + 1);
    }
  }

  function CommittedFrames(wal: Bytes, page: nat, k: nat): nat
    requires |wal| >= 32 && k <= FrameCount(wal, page)
  {
    if k == 0 then 0
    else if CommitSize(Frame(wal, page, k - 1)) != 0 then k
    else CommittedFrames(wal, page, k - 1)
  }

  lemma {:induction false} CommittedFramesAreLast(wal: Bytes, page: nat, k: nat)
    requires |wal| >= 32 && k <= FrameCount(wal, page)
    ensures LastCommit(wal, page, k, CommittedFrames(wal, page, k))
  {
    hide CommitSize, Frame, FrameCount;
    if k > 0 {
      CommittedFramesAreLast(wal, page, k - 1);
    }
  }

  predicate HasLog(wal: Option<Bytes>) {
    wal.Some? && wal.value != []
  }

  /** How many frames of the log take effect. */
  function Effective(wal: Option<Bytes>, page: nat): (c: nat)
    ensures c > 0 ==> HasLog(wal) && |wal.value| >= 32 && c <= FrameCount(wal.value, page)
  {
    if !HasLog(wal) || |wal.value| < 32 then 0
    else
      ValidFramesAreLongest(wal.value, page, 0);
      var k := ValidFrames(wal.value, page, 0);
      CommittedFramesAreLast(wal.value, page, k);
      CommittedFrames(wal.value, page, k)
  }

  /** Page `p` of the database as its next reader sees it. */
  function LogicalPage(main: Bytes, wal: Option<Bytes>, page: nat, p: nat): Option<Bytes>
    requires page > 0
  {
    var c := Effective(wal, page);
    if c == 0 then MainPage(main, page, p) else Overlaid(main, wal.value, page, c, p)
  }

  /** The size of the database in pages: what the last commit says, or the main file's. */
  function LogicalSize(main: Bytes, wal: Option<Bytes>, page: nat): nat
    requires page > 0
  {
    var c := Effective(wal, page);
    if c == 0 then |main| / page else CommitSize(Frame(wal.value, page, c - 1))
  }

  predicate InRange(f: Bytes, maximum: nat)
    requires |f| >= 24
  {
    1 <= FramePage(f) <= maximum && CommitSize(f) <= maximum
  }

  /** A frame for page one keeps the page size and does not declare too large a database. */
  predicate SameShape(f: Bytes, page: nat, usable: nat, maximum: nat)
    requires |f| >= 24
  {
    FramePage(f) == 1 ==> Header(f[24..]) == Ok((page, usable)) && Be32(f[24..], 28).value <= maximum
  }

  ghost predicate FramesAcceptable(wal: Bytes, page: nat, usable: nat, maximum: nat)
    requires |wal| >= 32
  {
    && (forall i :: 0 <= i < FrameCount(wal, page) && ValidThrough(wal, page, i) && SaltsMatch(wal, page, i) ==>
          InRange(Frame(wal, page, i), maximum))
    && (forall i :: 0 <= i < FrameCount(wal, page) && ValidThrough(wal, page, i + 1) ==> SameShape(Frame(wal, page, i), page, usable, maximum))
  }

  ghost predicate LogAcceptable(wal: Bytes, page: nat, usable: nat, maximum: nat) {
    && |wal| >= 32
    && LogHeaderSupported(wal, page)
    && HeaderSum(wal) == StoredSum(wal, 24)
    && FramesAcceptable(wal, page, usable, maximum)
  }

  /** The frames of the longest valid prefix, checked on the way, and the last commit among them. */
  method ScanFrames(wal: Bytes, page: nat, usable: nat, maximum: nat) returns (r: Shaped<nat>)
    requires |wal| >= 32 && page > 0
    ensures r.Ok? <==> FramesAcceptable(wal, page, usable, maximum)
    ensures r.Ok? && wal != [] ==> r.value == Effective(Some(wal), page)
  {
    hide Frame, FrameCount, FrameSum, FramePage, CommitSize, HeaderSum, StoredSum, Header, InRange;
    var little := Little(wal);
    var sum := HeaderSum(wal);
    var frames := FrameCount(wal, page);
    var committed := 0;
    var i := 0;
    while i < frames
      invariant 0 <= i <= frames && ValidThrough(wal, page, i)
      invariant sum == SumBefore(wal, page, i)
      invariant committed == CommittedFrames(wal, page, i)
      invariant forall j :: 0 <= j < i ==> InRange(Frame(wal, page, j), maximum) && SameShape(Frame(wal, page, j), page, usable, maximum)
    {
      var f := Frame(wal, page, i);
      if f[8..16] != wal[16..24] {
        break;
      }
      if !InRange(f, maximum) {
        return Err(OverLimit);
      }
      var head := ComputeChecksum(f[..8], little, sum);
      var next := ComputeChecksum(f[24..], little, head);
      assert next == SumBefore(wal, page, i + 1) by {
        SumStep(wal, page, i, head, next);
      }
      if next != StoredSum(f, 16) {
        break;
      }
      assert ValidThrough(wal, page, i + 1);
      sum := next;
      if !SameShape(f, page, usable, maximum) {
        var first := Header(f[24..]);
        return if first.Err? then Err(first.error) else Err(OverLimit);
      }
      if CommitSize(f) != 0 {
        committed := i + 1;
      }
      i := i + 1;
    }
    assert LongestValid(wal, page, i);
    ValidFramesAreLongest(wal, page, 0);
    LongestIsUnique(wal, page, i, ValidFrames(wal, page, 0));
    r := Ok(committed);
  }

  lemma SumStep(wal: Bytes, page: nat, i: nat, head: Sum, next: Sum)
    requires |wal| >= 32 && i < FrameCount(wal, page)
    requires head == Checksum(Frame(wal, page, i)[..8], Little(wal), SumBefore(wal, page, i))
    requires next == Checksum(Frame(wal, page, i)[24..], Little(wal), head)
    ensures next == SumBefore(wal, page, i + 1)
  {
    hide Frame, FrameCount, HeaderSum;
  }

  /** What makes a main file and its log acceptable as one image. */
  ghost predicate Acceptable(main: Bytes, wal: Option<Bytes>) {
    && |main| + (if wal.Some? then |wal.value| else 0) <= SOURCE_MAX
    && Header(main).Ok?
    && var page, usable := Header(main).value.0, Header(main).value.1;
    && var maximum := SOURCE_MAX / page;
    && |main| % page == 0
    && Be32(main, 28).value <= maximum
    && (HasLog(wal) ==> LogAcceptable(wal.value, page, usable, maximum))
    && var logical := LogicalSize(main, wal, page);
    && 1 <= logical <= maximum
    && (forall p :: 1 <= p <= logical ==> LogicalPage(main, wal, page, p).Some?)
    && |LogicalPage(main, wal, page, 1).value| >= 100
    && FirstPageAgrees(LogicalPage(main, wal, page, 1).value, logical)
  }

  /** Text is UTF-8, and an in-header size that is current names the logical size. */
  predicate FirstPageAgrees(first: Bytes, logical: nat)
    requires |first| >= 100
  {
    && Be32(first, 56).value == 1
    && (Be32(first, 28).value != 0 && first[24..28] == first[92..96] ==> Be32(first, 28).value == logical)
  }

  /** Every page of the image is the page the reader algorithm selects. */
  ghost predicate Composed(main: Bytes, wal: Option<Bytes>, image: Image) {
    && Header(main) == Ok((image.page, image.usable))
    && |image.pages| == LogicalSize(main, wal, image.page)
    && forall p :: 1 <= p <= |image.pages| ==> LogicalPage(main, wal, image.page, p) == Some(image.pages[p - 1])
  }

  lemma PageSizes(main: Bytes, wal: Bytes, page: nat, c: nat, p: nat)
    requires page > 0 && |wal| >= 32 && c <= FrameCount(wal, page)
    ensures Overlaid(main, wal, page, c, p).Some? ==> |Overlaid(main, wal, page, c, p).value| == page
  {
    hide Frame, FrameCount;
    if c > 0 {
      PageSizes(main, wal, page, c - 1, p);
    }
  }

  lemma LogicalPageSize(main: Bytes, wal: Option<Bytes>, page: nat, p: nat)
    requires page > 0
    ensures LogicalPage(main, wal, page, p).Some? ==> |LogicalPage(main, wal, page, p).value| == page
  {
    var c := Effective(wal, page);
    if c > 0 {
      PageSizes(main, wal.value, page, c, p);
    }
  }

  /** Splits the main file into its pages. */
  method SplitMain(main: Bytes, page: nat, pages: array<Option<Bytes>>)
    requires page > 0 && |main| % page == 0 && |main| / page < pages.Length
    requires forall p :: 0 <= p < pages.Length ==> pages[p].None?
    modifies pages
    ensures forall p :: 1 <= p < pages.Length ==> pages[p] == MainPage(main, page, p)
  {
    var count := |main| / page;
    var p := 1;
    while p <= count
      invariant 1 <= p <= count + 1
      invariant forall q :: 1 <= q < p ==> pages[q] == MainPage(main, page, q)
      invariant forall q :: p <= q < pages.Length ==> pages[q].None?
    {
      WholePage(|main|, page, p);
      pages[p] := MainPage(main, page, p);
      p := p + 1;
    }
    forall q | count < q < pages.Length ensures MainPage(main, page, q).None? {
      WholePage(|main|, page, q);
    }
  }

  lemma WholePage(length: nat, page: nat, p: nat)
    requires page > 0 && length % page == 0
    ensures p * page <= length <==> p <= length / page
  {
    assert length == length / page * page;
    if p <= length / page {
      assert p * page <= length / page * page;
    } else {
      assert p * page >= (length / page + 1) * page;
    }
  }

  /** Overwrites pages with the effective frames, in order. */
  method OverlayFrames(main: Bytes, wal: Bytes, page: nat, c: nat, pages: array<Option<Bytes>>)
    requires page > 0 && |wal| >= 32 && c <= FrameCount(wal, page)
    requires forall i :: 0 <= i < c ==> 1 <= FramePage(Frame(wal, page, i)) < pages.Length
    requires forall p :: 1 <= p < pages.Length ==> pages[p] == MainPage(main, page, p)
    modifies pages
    ensures forall p :: 1 <= p < pages.Length ==> pages[p] == Overlaid(main, wal, page, c, p)
  {
    hide Frame, FrameCount, FramePage, MainPage;
    var i := 0;
    while i < c
      invariant 0 <= i <= c
      invariant forall p :: 1 <= p < pages.Length ==> pages[p] == Overlaid(main, wal, page, i, p)
    {
      var f := Frame(wal, page, i);
      pages[FramePage(f)] := Some(f[24..]);
      i := i + 1;
    }
  }

  lemma EffectiveFramesInRange(wal: Bytes, page: nat, usable: nat, maximum: nat)
    requires |wal| >= 32 && FramesAcceptable(wal, page, usable, maximum)
    ensures forall i :: 0 <= i < Effective(Some(wal), page) ==> InRange(Frame(wal, page, i), maximum)
  {
    hide Frame, FrameCount, InRange, SameShape;
    var k := ValidFrames(wal, page, 0);
    ValidFramesAreLongest(wal, page, 0);
    CommittedFramesAreLast(wal, page, k);
    forall i | 0 <= i < Effective(Some(wal), page) ensures InRange(Frame(wal, page, i), maximum) {
      assert FrameValid(wal, page, i) && ValidThrough(wal, page, i);
    }
  }

  /** Admits exactly the acceptable images, and composes each from the last committed frames over the main file. */
  method BuildImage(main: Bytes, wal: Option<Bytes>) returns (r: Shaped<Image>)
    ensures r.Ok? <==> Acceptable(main, wal)
    ensures r.Ok? ==> r.value.Valid() && Composed(main, wal, r.value)
  {
    hide Frame, FrameCount, FramesAcceptable, LogicalSize, LogHeaderSupported, HeaderSum, StoredSum, ValidFrames, CommittedFrames, Effective;
    if |main| + (if wal.Some? then |wal.value| else 0) > SOURCE_MAX {
      return Err(OverLimit);
    }
    var header := Header(main);
    if header.Err? {
      return Err(header.error);
    }
    var page, usable := header.value.0, header.value.1;
    if |main| % page != 0 {
      return Err(Corrupt);
    }
    var maximum := SOURCE_MAX / page;
    if Be32(main, 28).value > maximum {
      return Err(OverLimit);
    }
    var pages := new Option<Bytes>[maximum + 1](_ => None);
    MainPagesFit(|main|, page);
    assert maximum <= SOURCE_MAX;
    SplitMain(main, page, pages);
    if HasLog(wal) {
      if |wal.value| < 32 {
        return Err(Corrupt);
      }
      if !LogHeaderSupported(wal.value, page) {
        return Err(Unsupported);
      }
      if HeaderSum(wal.value) != StoredSum(wal.value, 24) {
        return Err(Corrupt);
      }
      var committed := ScanFrames(wal.value, page, usable, maximum);
      if committed.Err? {
        return Err(committed.error);
      }
      EffectiveFramesInRange(wal.value, page, usable, maximum);
      OverlayFrames(main, wal.value, page, Effective(wal, page), pages);
    }
    r := Compose(main, wal, page, usable, maximum, pages);
  }

  lemma MainPagesFit(length: nat, page: nat)
    requires page > 0 && length <= SOURCE_MAX
    ensures length / page <= SOURCE_MAX / page
  {
    var a, b := length / page, SOURCE_MAX / page;
    assert a * page <= length && SOURCE_MAX < (b + 1) * page;
    MoreGroups(b + 1, a, page);
  }

  lemma MoreGroups(a: nat, b: nat, size: nat)
    ensures a <= b ==> a * size <= b * size
  {
  }

  /** The first pages of the image. */
  ghost predicate Gathered(main: Bytes, wal: Option<Bytes>, page: nat, current: seq<Bytes>)
    requires page > 0
  {
    forall i {:trigger current[i]} :: 0 <= i < |current| ==>
      LogicalPage(main, wal, page, i + 1) == Some(current[i]) && |current[i]| == page
  }

  lemma NoneGathered(main: Bytes, wal: Option<Bytes>, page: nat)
    requires page > 0
    ensures Gathered(main, wal, page, [])
  {
  }

  lemma GatheredOneMore(main: Bytes, wal: Option<Bytes>, page: nat, current: seq<Bytes>, next: Bytes)
    requires page > 0 && Gathered(main, wal, page, current)
    requires LogicalPage(main, wal, page, |current| + 1) == Some(next) && |next| == page
    ensures Gathered(main, wal, page, current + [next])
  {
    hide LogicalPage;
  }

  lemma GatheredPages(main: Bytes, wal: Option<Bytes>, page: nat, current: seq<Bytes>)
    requires page > 0 && Gathered(main, wal, page, current)
    ensures forall p {:trigger LogicalPage(main, wal, page, p)} :: 1 <= p <= |current| ==>
              LogicalPage(main, wal, page, p) == Some(current[p - 1])
    ensures forall i :: 0 <= i < |current| ==> |current[i]| == page
  {
    hide LogicalPage;
    forall p {:trigger LogicalPage(main, wal, page, p)} | 1 <= p <= |current|
      ensures LogicalPage(main, wal, page, p) == Some(current[p - 1])
    {
      var i := p - 1;
      assert |current[i]| == page;
    }
  }

  /** Truncates to the logical size and checks the current first page. */
  method Compose(main: Bytes, wal: Option<Bytes>, page: nat, usable: nat, maximum: nat, pages: array<Option<Bytes>>) returns (r: Shaped<Image>)
    requires Header(main) == Ok((page, usable)) && maximum == SOURCE_MAX / page <= SOURCE_MAX && pages.Length == maximum + 1
    requires forall p :: 1 <= p < pages.Length ==> pages[p] == LogicalPage(main, wal, page, p)
    ensures r.Ok? <==> && 1 <= LogicalSize(main, wal, page) <= maximum
                       && (forall p :: 1 <= p <= LogicalSize(main, wal, page) ==> LogicalPage(main, wal, page, p).Some?)
                       && |LogicalPage(main, wal, page, 1).value| >= 100
                       && FirstPageAgrees(LogicalPage(main, wal, page, 1).value, LogicalSize(main, wal, page))
    ensures r.Ok? ==> r.value.Valid() && Composed(main, wal, r.value)
  {
    hide Effective, LogicalPage, FirstPageAgrees, Gathered;
    var logical := LogicalSize(main, wal, page);
    if logical == 0 || logical > maximum {
      return Err(OverLimit);
    }
    var current: seq<Bytes> := [];
    NoneGathered(main, wal, page);
    var p := 1;
    while p <= logical
      invariant 1 <= p <= logical + 1 && |current| == p - 1
      invariant Gathered(main, wal, page, current)
    {
      if pages[p].None? {
        return Err(Corrupt);
      }
      LogicalPageSize(main, wal, page, p);
      GatheredOneMore(main, wal, page, current, pages[p].value);
      current := current + [pages[p].value];
      p := p + 1;
    }
    GatheredPages(main, wal, page, current);
    var first := current[0];
    if Be32(first, 56).value != 1 {
      NotAgreed(first, logical);
      return Err(Unsupported);
    }
    if !FirstPageAgrees(first, logical) {
      return Err(Corrupt);
    }
    r := Ok(Image(current, page, usable));
  }

  lemma NotAgreed(first: Bytes, logical: nat)
    requires |first| >= 100 && Be32(first, 56).value != 1
    ensures !FirstPageAgrees(first, logical)
  {
  }

  lemma NoFrames(main: Bytes, wal: Bytes, page: nat, p: nat)
    requires page > 0 && |wal| >= 32
    ensures Overlaid(main, wal, page, 0, p) == MainPage(main, page, p)
  {
  }

  /** The image is the cut of the reader algorithm: longest valid prefix, its last commit, the last frame for each page. */
  lemma ImageIsReaderCut(main: Bytes, wal: Bytes, image: Image, p: nat) returns (k: nat, c: nat)
    requires Acceptable(main, Some(wal)) && Composed(main, Some(wal), image) && wal != [] && 1 <= p <= |image.pages|
    ensures LongestValid(wal, image.page, k) && LastCommit(wal, image.page, k, c)
    ensures |image.pages| == if c > 0 then CommitSize(Frame(wal, image.page, c - 1)) else |main| / image.page
    ensures forall i: nat :: LastFrameFor(wal, image.page, c, p, i) ==> image.pages[p - 1] == Frame(wal, image.page, i)[24..]
    ensures (forall i :: 0 <= i < c ==> FramePage(Frame(wal, image.page, i)) != p) ==> MainPage(main, image.page, p) == Some(image.pages[p - 1])
  {
    hide Frame, FrameCount, FramesAcceptable, HeaderSum, StoredSum, LogHeaderSupported, ValidFrames, CommittedFrames, FrameValid, LastCommit,
      LastFrameFor, MainPage, Overlaid, FramePage, CommitSize, Header, FirstPageAgrees;
    k := ValidFrames(wal, image.page, 0);
    ValidFramesAreLongest(wal, image.page, 0);
    CommittedFramesAreLast(wal, image.page, k);
    c := CommittedFrames(wal, image.page, k);
    assert c == Effective(Some(wal), image.page);
    assert LogicalPage(main, Some(wal), image.page, p) == Some(image.pages[p - 1]);
    OverlaidIsLast(main, wal, image.page, c, p);
    if c == 0 {
      NoFrames(main, wal, image.page, p);
    }
  }
}

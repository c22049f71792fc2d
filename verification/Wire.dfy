/** The schema-driven preflight of encoded messages and the allocation cost that is reserved for them. */
module Wire {
  import opened Base

  datatype CodecError = Malformed | UnknownField | Duplicate | WrongWire | TooBig | BadVersion | BadEnum | BadId | Missing

  type Coded<+T> = Result<T, CodecError>

  const MAX_DEPTH: nat := 32
  const MAX_CONTENT: nat := 1024 * 1024
  const MAX_FRAME: nat := 16 * 1024 * 1024
  const MAX_FRESH: nat := 8 * 1024 * 1024
  const MAX_FIELDS: nat := 32
  const MAX_TAG: nat := 0x1fff_ffff

  type SchemaId = nat

  datatype Shape =
    | IdShape
    | ContentShape
    | UintShape
    | BoolShape
    | VersionShape(expected: nat)
    | EnumShape(known: set<nat>)
    | MessageShape(child: SchemaId)

  datatype Rule = Rule(tag: nat, shape: Shape, required: bool, repeated: bool, limit: nat, isFresh: bool)

  datatype Schema = Schema(fields: seq<Rule>, oneof: bool)

  /** Schemas refer to each other by number; everything below holds for every table of schemas. */
  type Table = SchemaId -> Schema

  // ----- varints and chunks

  /** The value and length of a varint of at most ten bytes, the tenth at most one. */
  function ReadVarint(b: Bytes, shift: nat): (r: Coded<(nat, nat)>)
    requires shift <= 9
    ensures r.Ok? ==> 1 <= r.value.1 <= |b|
    decreases 9 - shift
  {
    if b == [] then Err(Malformed)
    else if shift == 9 && b[0] > 1 then Err(Malformed)
    else if b[0] < 128 then Ok((b[0] as nat, 1))
    else
      var rest :- ReadVarint(b[1..], shift + 1);
      Ok((b[0] % 128 + 128 * rest.0, rest.1 + 1))
  }

  function Pow128(n: nat): nat {
    if n == 0 then 1 else 128 * Pow128(n - 1)
  }

  lemma {:induction false} VarintBound(b: Bytes, shift: nat)
    requires shift <= 9 && ReadVarint(b, shift).Ok?
    ensures ReadVarint(b, shift).value.0 < 2 * Pow128(9 - shift)
    decreases 9 - shift
  {
    if shift < 9 && b[0] >= 128 {
      VarintBound(b[1..], shift + 1);
    }
    if shift < 9 && b[0] < 128 {
      assert Pow128(9 - shift) == 128 * Pow128(8 - shift) && Pow128(8 - shift) >= 1 by {
        PowPositive(8 - shift);
      }
    }
  }

  lemma {:induction false} PowPositive(n: nat)
    ensures Pow128(n) >= 1
  {
    if n > 0 {
      PowPositive(n - 1);
    }
  }

  /** Every accepted varint fits 64 bits. */
  lemma VarintFits(b: Bytes)
    requires ReadVarint(b, 0).Ok?
    ensures ReadVarint(b, 0).value.0 <= U64_MAX
  {
    VarintBound(b, 0);
    assert Pow128(9) == 0x8000_0000_0000_0000 by {
      assert Pow128(4) == 0x1000_0000;
      assert Pow128(8) == 0x100_0000_0000_0000;
    }
  }

  /** A length-delimited part, and how much input it takes with its length. */
  function ReadChunk(b: Bytes): (r: Coded<(Bytes, nat)>)
    ensures r.Ok? ==> 1 <= r.value.1 <= |b| && |r.value.0| + 1 <= r.value.1
  {
    var length :- ReadVarint(b, 0);
    if length.1 + length.0 > |b| then Err(Malformed)
    else Ok((b[length.1..length.1 + length.0], length.1 + length.0))
  }

  // ----- one field

  /** A field's rule, wire type and the input after its key. */
  datatype Field = Field(index: nat, rule: Rule, wire: nat, rest: Bytes)

  function FindRule(fields: seq<Rule>, tag: nat): (r: Option<nat>)
    ensures r.Some? ==> r.value < |fields| && fields[r.value].tag == tag
    ensures r.Some? ==> forall i :: 0 <= i < r.value ==> fields[i].tag != tag
    ensures r.None? ==> forall i :: 0 <= i < |fields| ==> fields[i].tag != tag
  {
    if fields == [] then None
    else if fields[0].tag == tag then Some(0)
    else
      match FindRule(fields[1..], tag)
      case None => None
      case Some(i) => Some(i + 1)
  }

  function ReadField(schema: Schema, input: Bytes): (r: Coded<Field>)
    ensures r.Ok? ==> r.value.index < |schema.fields| && r.value.rule == schema.fields[r.value.index] && |r.value.rest| < |input|
  {
    var key :- ReadVarint(input, 0);
    match FindRule(schema.fields, key.0 / 8)
    case None => Err(UnknownField)
    case Some(i) => Ok(Field(i, schema.fields[i], key.0 % 8, input[key.1..]))
  }

  // ----- what an allocation pays for

  datatype Counts = Counts(messages: nat, fields: nat, packed: nat, payload: nat) {
    function Plus(other: Counts): Counts {
      Counts(messages + other.messages, fields + other.fields, packed + other.packed, payload + other.payload)
    }

    /** Object slots for the root and every nested message, leaf slots for every field and packed value. */
    function Slots(): nat {
      (messages + 1) * 4096 + (fields + packed) * 256
    }
  }

  function PackedCount(b: Bytes): Coded<nat> {
    if b == [] then Ok(0)
    else
      var first :- ReadVarint(b, 0);
      var rest :- PackedCount(b[first.1..]);
      Ok(rest + 1)
  }

  /** The messages, fields, packed values and payload bytes of a body. */
  function Census(table: Table, schema: Schema, depth: nat, input: Bytes): Coded<Counts>
    decreases |input|, 2
  {
    if depth > MAX_DEPTH then Err(TooBig) else CensusFields(table, schema, depth, input)
  }

  function CensusFields(table: Table, schema: Schema, depth: nat, input: Bytes): Coded<Counts>
    decreases |input|, 1
  {
    if input == [] then Ok(Counts(0, 0, 0, 0))
    else
      var one :- CensusField(table, schema, depth, input);
      var rest :- CensusFields(table, schema, depth, input[one.1..]);
      Ok(one.0.Plus(rest))
  }

  /** One field's share, and how much input it takes. */
  function CensusField(table: Table, schema: Schema, depth: nat, input: Bytes): (r: Coded<(Counts, nat)>)
    ensures r.Ok? ==> 2 <= r.value.1 <= |input|
    decreases |input|, 0
  {
    var field :- ReadField(schema, input);
    var start := |input| - |field.rest|;
    if field.rule.shape.MessageShape? && field.wire == 2 then
      var part :- ReadChunk(field.rest);
      var child :- Census(table, table(field.rule.shape.child), depth + 1, part.0);
      Ok((Counts(child.messages + 1, child.fields + 1, child.packed, child.payload), start + part.1))
    else if (field.rule.shape.IdShape? || field.rule.shape.ContentShape?) && field.wire == 2 then
      var part :- ReadChunk(field.rest);
      Ok((Counts(0, 1, 0, |part.0|), start + part.1))
    else if field.wire == 0 then
      var value :- ReadVarint(field.rest, 0);
      Ok((Counts(0, 1, 0, 0), start + value.1))
    else if field.wire == 2 && field.rule.repeated then
      var part :- ReadChunk(field.rest);
      var packed :- PackedCount(part.0);
      Ok((Counts(0, 1, packed, 0), start + part.1))
    else Err(WrongWire)
  }

  lemma {:induction false} PackedBound(b: Bytes)
    requires PackedCount(b).Ok?
    ensures PackedCount(b).value <= |b|
    decreases |b|
  {
    if b != [] {
      PackedBound(b[ReadVarint(b, 0).value.1..]);
    }
  }

  predicate Bounded(c: Counts, n: nat) {
    2 * c.messages <= n && 2 * c.fields <= n && c.packed <= n && c.payload <= n
  }

  lemma {:induction false} CensusFieldBound(table: Table, schema: Schema, depth: nat, input: Bytes)
    requires CensusField(table, schema, depth, input).Ok?
    ensures var counted := CensusField(table, schema, depth, input).value; Bounded(counted.0, counted.1)
    decreases |input|, 0
  {
    hide ReadVarint, FindRule;
    var field := ReadField(schema, input).value;
    if field.wire == 2 {
      var part := ReadChunk(field.rest).value;
      if field.rule.shape.MessageShape? {
        CensusBound(table, table(field.rule.shape.child), depth + 1, part.0);
      } else if !field.rule.shape.IdShape? && !field.rule.shape.ContentShape? {
        PackedBound(part.0);
      }
    }
  }

  /** Two bytes at least for each message and each field, one for each packed value and payload byte. */
  lemma {:induction false} CensusBound(table: Table, schema: Schema, depth: nat, input: Bytes)
    requires Census(table, schema, depth, input).Ok?
    ensures Bounded(Census(table, schema, depth, input).value, |input|)
    decreases |input|, 2
  {
    CensusFieldsBound(table, schema, depth, input);
  }

  lemma {:induction false} CensusFieldsBound(table: Table, schema: Schema, depth: nat, input: Bytes)
    requires CensusFields(table, schema, depth, input).Ok?
    ensures Bounded(CensusFields(table, schema, depth, input).value, |input|)
    decreases |input|, 1
  {
    if input != [] {
      CensusFieldBound(table, schema, depth, input);
      var one := CensusField(table, schema, depth, input).value;
      CensusFieldsBound(table, schema, depth, input[one.1..]);
    }
  }

  /** What a reply of `n` bytes reserves before it is decoded, before the factor sixteen. */
  function Reservation(n: nat): nat {
    (n / 2 + 1) * 4096 + (n / 2 + n) * 256 + n
  }

  /** The reservation covers the cost of every body of `n` bytes, under every schema. */
  lemma ReservationCovers(table: Table, schema: Schema, depth: nat, input: Bytes)
    requires Census(table, schema, depth, input).Ok?
    ensures var c := Census(table, schema, depth, input).value; c.Slots() + c.payload <= Reservation(|input|)
  {
    hide Census;
    CensusBound(table, schema, depth, input);
  }

  // ----- the strict scan

  function ScalarCheck(shape: Shape, value: nat): Outcome<CodecError> {
    match shape
    case UintShape => Pass
    case BoolShape => Need(value <= 1, BadEnum)
    case VersionShape(expected) => Need(value == expected, BadVersion)
    case EnumShape(known) => Need(value in known, BadEnum)
    case _ => Fail(WrongWire)
  }

  predicate Scalar(shape: Shape) {
    shape.UintShape? || shape.BoolShape? || shape.VersionShape? || shape.EnumShape?
  }

  predicate Packable(shape: Shape) {
    shape.EnumShape? || shape.UintShape? || shape.BoolShape?
  }

  /** Per field: how often it occurred and how many fresh bytes it carried; and whether an alternative was seen. */
  datatype Seen = Seen(counts: seq<nat>, freshBytes: seq<nat>, alternative: bool, content: nat)

  function Unseen(schema: Schema): Seen {
    Seen(seq(|schema.fields|, _ => 0), seq(|schema.fields|, _ => 0), false, 0)
  }

  function ScanPacked(b: Bytes, shape: Shape, limit: nat, count: nat): (r: Coded<nat>)
    decreases |b|
  {
    if b == [] then Ok(count)
    else if count + 1 > limit then Err(TooBig)
    else
      var value :- ReadVarint(b, 0);
      match ScalarCheck(shape, value.0)
      case Fail(e) => Err(e)
      case Pass => ScanPacked(b[value.1..], shape, limit, count + 1)
  }

  /** Duplicates and alternatives, before a field's value is looked at. */
  function Admit(schema: Schema, field: Field, seen: Seen): (r: Coded<Seen>)
    requires |seen.counts| == |schema.fields| && field.index < |schema.fields|
    ensures r.Ok? ==> r.value.counts == seen.counts && r.value.freshBytes == seen.freshBytes
  {
    if !field.rule.repeated && seen.counts[field.index] != 0 then Err(Duplicate)
    else if schema.oneof && seen.alternative then Err(Duplicate)
    else Ok(seen.(alternative := seen.alternative || schema.oneof))
  }

  /** One value that is not packed: its content bytes and how much input it takes. */
  function ScanValue(table: Table, field: Field, depth: nat): (r: Coded<(nat, nat)>)
    ensures r.Ok? ==> 1 <= r.value.1 <= |field.rest|
    decreases |field.rest|, 3
  {
    if field.rule.shape.IdShape? && field.wire == 2 then
      var part :- ReadChunk(field.rest);
      if |part.0| != 16 || (forall i :: 0 <= i < |part.0| ==> part.0[i] == 0) then Err(BadId) else Ok((0, part.1))
    else if field.rule.shape.ContentShape? && field.wire == 2 then
      var part :- ReadChunk(field.rest);
      if |part.0| > MAX_CONTENT then Err(TooBig) else Ok((|part.0|, part.1))
    else if field.rule.shape.MessageShape? && field.wire == 2 then
      var part :- ReadChunk(field.rest);
      var content :- ScanBody(table, table(field.rule.shape.child), depth + 1, part.0);
      Ok((content, part.1))
    else if field.wire == 0 && Scalar(field.rule.shape) then
      var value :- ReadVarint(field.rest, 0);
      match ScalarCheck(field.rule.shape, value.0)
      case Fail(e) => Err(e)
      case Pass => Ok((0, value.1))
    else Err(WrongWire)
  }

  function Charged(seen: Seen, field: Field, bytes: nat): (r: Coded<Seen>)
    requires field.index < |seen.counts| == |seen.freshBytes|
    ensures r.Ok? ==> |r.value.counts| == |r.value.freshBytes| == |seen.counts|
  {
    if seen.content + bytes > U64_MAX then Err(TooBig)
    else if !field.rule.isFresh then Ok(seen.(content := seen.content + bytes))
    else if seen.freshBytes[field.index] + bytes > MAX_FRESH then Err(TooBig)
    else Ok(seen.(content := seen.content + bytes, freshBytes := seen.freshBytes[field.index := seen.freshBytes[field.index] + bytes]))
  }

  /** One field of a body: what has been seen after it, and how much input it takes. */
  function ScanField(table: Table, schema: Schema, depth: nat, input: Bytes, seen: Seen): (r: Coded<(Seen, nat)>)
    requires |seen.counts| == |seen.freshBytes| == |schema.fields|
    ensures r.Ok? ==> 2 <= r.value.1 <= |input| && |r.value.0.counts| == |r.value.0.freshBytes| == |schema.fields|
    decreases |input|, 0
  {
    var key :- ReadVarint(input, 0);
    var tag := key.0 / 8;
    if tag == 0 || tag > MAX_TAG then Err(Malformed)
    else
      var field :- ReadField(schema, input);
      var start := |input| - |field.rest|;
      var admitted :- Admit(schema, field, seen);
      var taken :- ScanAdmitted(table, field, depth, admitted);
      Ok((taken.0, start + taken.1))
  }

  /** The value or packed values of an admitted field, counted and charged. */
  function ScanAdmitted(table: Table, field: Field, depth: nat, seen: Seen): (r: Coded<(Seen, nat)>)
    requires field.index < |seen.counts| == |seen.freshBytes|
    ensures r.Ok? ==> 1 <= r.value.1 <= |field.rest| && |r.value.0.counts| == |r.value.0.freshBytes| == |seen.counts|
    decreases |field.rest|, 4
  {
    var i := field.index;
    if field.rule.repeated && field.wire == 2 && Packable(field.rule.shape) then
      var part :- ReadChunk(field.rest);
      var count :- ScanPacked(part.0, field.rule.shape, field.rule.limit, seen.counts[i]);
      Ok((seen.(counts := seen.counts[i := count]), part.1))
    else if seen.counts[i] + 1 > field.rule.limit then Err(TooBig)
    else
      var value :- ScanValue(table, field, depth);
      var charged :- Charged(seen.(counts := seen.counts[i := seen.counts[i] + 1]), field, value.0);
      Ok((charged, value.1))
  }

  function ScanFields(table: Table, schema: Schema, depth: nat, input: Bytes, seen: Seen): (r: Coded<Seen>)
    requires |seen.counts| == |seen.freshBytes| == |schema.fields|
    ensures r.Ok? ==> |r.value.counts| == |schema.fields|
    decreases |input|, 1
  {
    if input == [] then Ok(seen)
    else
      var one :- ScanField(table, schema, depth, input, seen);
      ScanFields(table, schema, depth, input[one.1..], one.0)
  }

  /** A whole body: every bound kept, every required field present; the content bytes it carries. */
  function ScanBody(table: Table, schema: Schema, depth: nat, input: Bytes): Coded<nat>
    decreases |input|, 2
  {
    if depth > MAX_DEPTH then Err(TooBig)
    else if |schema.fields| > MAX_FIELDS then Err(Malformed)
    else
      var seen :- ScanFields(table, schema, depth, input, Unseen(schema));
      if schema.oneof && !seen.alternative then Err(Missing)
      else if exists i :: 0 <= i < |schema.fields| && schema.fields[i].required && seen.counts[i] == 0 then Err(Missing)
      else Ok(seen.content)
  }

  // ----- whatever the scan accepts, the cost accepts

  lemma {:induction false} PackedIsCounted(b: Bytes, shape: Shape, limit: nat, count: nat)
    requires ScanPacked(b, shape, limit, count).Ok?
    ensures PackedCount(b).Ok? && ScanPacked(b, shape, limit, count).value == count + PackedCount(b).value
    decreases |b|
  {
    hide ReadVarint, ScalarCheck;
    if b != [] {
      PackedIsCounted(b[ReadVarint(b, 0).value.1..], shape, limit, count + 1);
    }
  }

  lemma {:induction false} ScannedFieldIsCounted(table: Table, schema: Schema, depth: nat, input: Bytes, seen: Seen)
    requires |seen.counts| == |seen.freshBytes| == |schema.fields|
    requires ScanField(table, schema, depth, input, seen).Ok?
    ensures CensusField(table, schema, depth, input).Ok?
    ensures CensusField(table, schema, depth, input).value.1 == ScanField(table, schema, depth, input, seen).value.1
    decreases |input|, 0
  {
    hide ReadVarint, Charged, Admit, FindRule, ReadChunk, ScanPacked, PackedCount, ScanBody, Census, ScalarCheck, ReadField;
    var field := ReadField(schema, input).value;
    var admitted := Admit(schema, field, seen).value;
    assert ScanAdmitted(table, field, depth, admitted).Ok?;
    if field.rule.repeated && field.wire == 2 && Packable(field.rule.shape) {
      PackedIsCounted(ReadChunk(field.rest).value.0, field.rule.shape, field.rule.limit, admitted.counts[field.index]);
    } else {
      assert ScanValue(table, field, depth).Ok?;
      if field.rule.shape.MessageShape? && field.wire == 2 {
        ScannedIsCounted(table, table(field.rule.shape.child), depth + 1, ReadChunk(field.rest).value.0);
      }
    }
  }

  lemma {:induction false} ScannedFieldsAreCounted(table: Table, schema: Schema, depth: nat, input: Bytes, seen: Seen)
    requires |seen.counts| == |seen.freshBytes| == |schema.fields|
    requires ScanFields(table, schema, depth, input, seen).Ok?
    ensures CensusFields(table, schema, depth, input).Ok?
    decreases |input|, 1
  {
    hide ScanField, CensusField;
    if input != [] {
      var one := ScanField(table, schema, depth, input, seen).value;
      ScannedFieldIsCounted(table, schema, depth, input, seen);
      ScannedFieldsAreCounted(table, schema, depth, input[one.1..], one.0);
    }
  }

  /** Any body the scan accepts has a cost. */
  lemma {:induction false} ScannedIsCounted(table: Table, schema: Schema, depth: nat, input: Bytes)
    requires ScanBody(table, schema, depth, input).Ok?
    ensures Census(table, schema, depth, input).Ok?
    decreases |input|, 2
  {
    hide ScanFields, CensusFields;
    ScannedFieldsAreCounted(table, schema, depth, input, Unseen(schema));
  }

  // ----- the loops over a body

  /** The value read so far and the scale of the next seven bits, after `shift` bytes. */
  ghost predicate VarintSo(b: Bytes, shift: nat, result: nat, scale: nat)
    requires shift <= 9 && shift <= |b|
  {
    match ReadVarint(b[shift..], shift)
    case Err(e) => ReadVarint(b, 0) == Err(e)
    case Ok((value, length)) => ReadVarint(b, 0) == Ok((result + Scaled(scale, value), shift + length))
  }

  lemma VarintFurther(b: Bytes, shift: nat, result: nat, scale: nat)
    requires shift < 9 && shift < |b| && b[shift] >= 128 && VarintSo(b, shift, result, scale)
    ensures VarintSo(b, shift + 1, result + Scaled(scale, b[shift] % 128), Scaled(128, scale))
  {
    hide Scaled;
    assert b[shift..][1..] == b[shift + 1..];
    var rest := ReadVarint(b[shift + 1..], shift + 1);
    if rest.Ok? {
      Distributes(scale, b[shift] % 128, rest.value.0);
    }
  }

  lemma VarintEnds(b: Bytes, shift: nat, result: nat, scale: nat)
    requires shift <= 9 && shift <= |b| && VarintSo(b, shift, result, scale)
    ensures shift == |b| ==> ReadVarint(b, 0) == Err(Malformed)
    ensures shift < |b| && shift == 9 && b[shift] > 1 ==> ReadVarint(b, 0) == Err(Malformed)
    ensures shift < |b| && b[shift] < 128 && !(shift == 9 && b[shift] > 1) ==>
              ReadVarint(b, 0) == Ok((result + Scaled(scale, b[shift]), shift + 1))
  {
    hide Scaled, ReadVarint;
    LastByte(b[shift..], shift);
  }

  lemma LastByte(b: Bytes, shift: nat)
    requires shift <= 9
    ensures b == [] ==> ReadVarint(b, shift) == Err(Malformed)
    ensures b != [] && shift == 9 && b[0] > 1 ==> ReadVarint(b, shift) == Err(Malformed)
    ensures b != [] && b[0] < 128 && !(shift == 9 && b[0] > 1) ==> ReadVarint(b, shift) == Ok((b[0] as nat, 1))
  {
  }

  function Scaled(scale: nat, value: nat): nat {
    scale * value
  }

  lemma Distributes(scale: nat, low: nat, value: nat)
    ensures Scaled(scale, low + 128 * value) == Scaled(scale, low) + Scaled(Scaled(128, scale), value)
  {
  }

  /** Reads one varint byte by byte and returns what is left. */
  method TakeVarint(b: Bytes) returns (r: Coded<(nat, Bytes)>)
    ensures var read := ReadVarint(b, 0);
            if read.Ok? then r == Ok((read.value.0, b[read.value.1..])) else r == Err(read.error)
  {
    hide ReadVarint, VarintSo;
    var result: nat := 0;
    var scale: nat := 1;
    var shift: nat := 0;
    VarintStarts(b);
    while true
      invariant 0 <= shift <= 9 && shift <= |b| && VarintSo(b, shift, result, scale)
      decreases 9 - shift
    {
      VarintEnds(b, shift, result, scale);
      if shift == |b| {
        return Err(Malformed);
      }
      var byte: nat := b[shift];
      if shift == 9 && byte > 1 {
        return Err(Malformed);
      }
      if byte < 128 {
        return Ok((result + Scaled(scale, byte), b[shift + 1..]));
      }
      VarintFurther(b, shift, result, scale);
      result := result + Scaled(scale, byte % 128);
      scale := Scaled(128, scale);
      shift := shift + 1;
    }
  }

  lemma VarintStarts(b: Bytes)
    ensures VarintSo(b, 0, 0, 1)
  {
    assert b[0..] == b;
  }

  /** Counts packed values one at a time. */
  method CountPacked(b: Bytes, start: nat) returns (r: Coded<nat>)
    ensures match PackedCount(b)
            case Err(e) => r == Err(e)
            case Ok(n) => r == Ok(start + n)
  {
    hide ReadVarint;
    var input := b;
    var count := start;
    while input != []
      invariant match PackedCount(b)
                case Err(e) => PackedCount(input) == Err(e)
                case Ok(n) => PackedCount(input).Ok? && start + n == count + PackedCount(input).value
      decreases |input|
    {
      var value := TakeVarint(input);
      if value.Err? {
        return Err(value.error);
      }
      input := value.value.1;
      count := count + 1;
    }
    r := Ok(count);
  }

  /** What has been counted of a body when `input` is left of it. */
  ghost predicate CountedSo(table: Table, schema: Schema, depth: nat, body: Bytes, counted: Counts, input: Bytes) {
    && |input| <= |body|
    && Bounded(counted, |body| - |input|)
    && match CensusFields(table, schema, depth, input)
       case Err(e) => CensusFields(table, schema, depth, body) == Err(e)
       case Ok(rest) => CensusFields(table, schema, depth, body) == Ok(counted.Plus(rest))
  }

  lemma CountedFurther(table: Table, schema: Schema, depth: nat, body: Bytes, counted: Counts, input: Bytes)
    requires CountedSo(table, schema, depth, body, counted, input) && input != []
    ensures CensusField(table, schema, depth, input).Err? ==>
              CensusFields(table, schema, depth, body) == Err(CensusField(table, schema, depth, input).error)
    ensures CensusField(table, schema, depth, input).Ok? ==>
              var one := CensusField(table, schema, depth, input).value;
              CountedSo(table, schema, depth, body, counted.Plus(one.0), input[one.1..])
  {
    hide CensusField;
    if CensusField(table, schema, depth, input).Ok? {
      CensusFieldBound(table, schema, depth, input);
    }
  }

  /** The checked 64-bit additions of the cost cannot fail within a frame. */
  lemma NoOverflow(c: Counts, n: nat)
    requires Bounded(c, n) && n <= MAX_FRAME
    ensures c.Slots() <= U64_MAX && c.payload <= U64_MAX
  {
  }

  /** The cost as the source adds it up, field by field. */
  method AllocationCost(table: Table, schema: Schema, depth: nat, body: Bytes) returns (r: Coded<(nat, nat)>)
    requires |body| <= MAX_FRAME
    ensures match Census(table, schema, depth, body)
            case Err(e) => r == Err(e)
            case Ok(c) => r == Ok((c.Slots(), c.payload)) && c.Slots() <= U64_MAX
    decreases |body|
  {
    hide CensusField, CensusFields, Bounded;
    if depth > MAX_DEPTH {
      return Err(TooBig);
    }
    var bytes: nat, payload: nat := 4096, 0;
    ghost var counted := Counts(0, 0, 0, 0);
    var input := body;
    NothingCounted(table, schema, depth, body);
    while input != []
      invariant bytes == counted.Slots() && payload == counted.payload
      invariant CountedSo(table, schema, depth, body, counted, input)
      decreases |input|
    {
      var one := FieldCost(table, schema, depth, input);
      CountedFurther(table, schema, depth, body, counted, input);
      if one.Err? {
        return Err(one.error);
      }
      counted := counted.Plus(CensusField(table, schema, depth, input).value.0);
      bytes, payload, input := bytes + one.value.0, payload + one.value.1, input[one.value.2..];
    }
    NothingLeft(table, schema, depth, body, counted);
    NoOverflow(counted, |body|);
    r := Ok((bytes, payload));
  }

  lemma NothingCounted(table: Table, schema: Schema, depth: nat, body: Bytes)
    ensures CountedSo(table, schema, depth, body, Counts(0, 0, 0, 0), body)
  {
    hide CensusFields;
  }

  lemma NothingLeft(table: Table, schema: Schema, depth: nat, body: Bytes, counted: Counts)
    requires CountedSo(table, schema, depth, body, counted, [])
    ensures CensusFields(table, schema, depth, body) == Ok(counted) && Bounded(counted, |body|)
  {
    assert CensusFields(table, schema, depth, []) == Ok(Counts(0, 0, 0, 0));
  }

  /** One field's slots, payload and length. */
  method FieldCost(table: Table, schema: Schema, depth: nat, input: Bytes) returns (r: Coded<(nat, nat, nat)>)
    requires |input| <= MAX_FRAME && input != []
    ensures var counted := CensusField(table, schema, depth, input);
            if counted.Ok? then r == Ok((counted.value.0.Slots() - 4096, counted.value.0.payload, counted.value.1))
            else r == Err(counted.error)
    decreases |input|, 0
  {
    hide ReadVarint, FindRule, ReadChunk, PackedCount, Census, CensusFields;
    var field := ReadField(schema, input);
    if field.Err? {
      return Err(field.error);
    }
    var f := field.value;
    var start := |input| - |f.rest|;
    if f.rule.shape.MessageShape? && f.wire == 2 {
      var part := ReadChunk(f.rest);
      if part.Err? {
        return Err(part.error);
      }
      var child := AllocationCost(table, table(f.rule.shape.child), depth + 1, part.value.0);
      if child.Err? {
        return Err(child.error);
      }
      return Ok((256 + child.value.0, child.value.1, start + part.value.1));
    }
    if (f.rule.shape.IdShape? || f.rule.shape.ContentShape?) && f.wire == 2 {
      var part := ReadChunk(f.rest);
      if part.Err? {
        return Err(part.error);
      }
      return Ok((256, |part.value.0|, start + part.value.1));
    }
    if f.wire == 0 {
      var value := TakeVarint(f.rest);
      if value.Err? {
        return Err(value.error);
      }
      return Ok((256, 0, |input| - |value.value.1|));
    }
    if f.wire == 2 && f.rule.repeated {
      var part := ReadChunk(f.rest);
      if part.Err? {
        return Err(part.error);
      }
      var packed := CountPacked(part.value.0, 0);
      if packed.Err? {
        return Err(packed.error);
      }
      return Ok((256 + packed.value * 256, 0, start + part.value.1));
    }
    r := Err(WrongWire);
  }

  /** Scans packed values one at a time against a field's limit. */
  method TakePacked(b: Bytes, shape: Shape, limit: nat, start: nat) returns (r: Coded<nat>)
    ensures r == ScanPacked(b, shape, limit, start)
  {
    hide ReadVarint, ScalarCheck;
    var input := b;
    var count: nat := start;
    while input != []
      invariant ScanPacked(b, shape, limit, start) == ScanPacked(input, shape, limit, count)
      decreases |input|
    {
      if count + 1 > limit {
        return Err(TooBig);
      }
      var value := TakeVarint(input);
      if value.Err? {
        return Err(value.error);
      }
      var fits := ScalarCheck(shape, value.value.0);
      if fits.Fail? {
        return Err(fits.error);
      }
      input := value.value.1;
      count := count + 1;
    }
    r := Ok(count);
  }

  /** One value that is not packed, recursively for messages. */
  method TakeValue(table: Table, field: Field, depth: nat) returns (r: Coded<(nat, nat)>)
    ensures r == ScanValue(table, field, depth)
    decreases |field.rest|, 3
  {
    hide ReadVarint, ReadChunk, ScanBody, ScalarCheck;
    if field.rule.shape.MessageShape? && field.wire == 2 {
      var part := ReadChunk(field.rest);
      if part.Err? {
        return Err(part.error);
      }
      var content := ScanMessage(table, table(field.rule.shape.child), depth + 1, part.value.0);
      return if content.Err? then Err(content.error) else Ok((content.value, part.value.1));
    }
    if (field.rule.shape.IdShape? || field.rule.shape.ContentShape?) && field.wire == 2 {
      var part := ReadChunk(field.rest);
      if part.Err? {
        return Err(part.error);
      }
      if field.rule.shape.ContentShape? {
        return if |part.value.0| > MAX_CONTENT then Err(TooBig) else Ok((|part.value.0|, part.value.1));
      }
      var zero := forall i :: 0 <= i < |part.value.0| ==> part.value.0[i] == 0;
      return if |part.value.0| != 16 || zero then Err(BadId) else Ok((0, part.value.1));
    }
    if field.wire != 0 || !Scalar(field.rule.shape) {
      return Err(WrongWire);
    }
    var value := ReadVarint(field.rest, 0);
    if value.Err? {
      return Err(value.error);
    }
    var fits := ScalarCheck(field.rule.shape, value.value.0);
    r := if fits.Fail? then Err(fits.error) else Ok((0, value.value.1));
  }

  /** The scan of a body with its fixed count arrays. */
  method ScanMessage(table: Table, schema: Schema, depth: nat, body: Bytes) returns (r: Coded<nat>)
    ensures r == ScanBody(table, schema, depth, body)
    decreases |body|, 5
  {
    hide ScanField, ReadVarint, ReadField;
    if depth > MAX_DEPTH {
      return Err(TooBig);
    }
    if |schema.fields| > MAX_FIELDS {
      return Err(Malformed);
    }
    var n := |schema.fields|;
    var counts := new nat[n](_ => 0);
    var freshBytes := new nat[n](_ => 0);
    var alternative, content := false, 0;
    var input := body;
    assert counts[..] == seq(n, _ => 0) && freshBytes[..] == seq(n, _ => 0);
    while input != []
      invariant |input| <= |body|
      invariant ScanFields(table, schema, depth, body, Unseen(schema))
             == ScanFields(table, schema, depth, input, Seen(counts[..], freshBytes[..], alternative, content))
      decreases |input|
    {
      ghost var seen := Seen(counts[..], freshBytes[..], alternative, content);
      var step, rest, now, bytes := TakeField(table, schema, depth, input, counts, freshBytes, alternative, content);
      if step.Err? {
        return Err(step.error);
      }
      input, alternative, content := rest, now, bytes;
    }
    if schema.oneof && !alternative {
      return Err(Missing);
    }
    var i := 0;
    while i < n
      invariant 0 <= i <= n
      invariant forall j :: 0 <= j < i ==> !(schema.fields[j].required && counts[j] == 0)
    {
      if schema.fields[i].required && counts[i] == 0 {
        assert counts[..][i] == 0;
        return Err(Missing);
      }
      i := i + 1;
    }
    r := Ok(content);
  }

  /** One field: its key, its rule, and its admission. */
  method TakeField(table: Table, schema: Schema, depth: nat, input: Bytes, counts: array<nat>, freshBytes: array<nat>,
                   alternative: bool, content: nat)
    returns (r: Coded<()>, rest: Bytes, now: bool, total: nat)
    requires counts.Length == freshBytes.Length == |schema.fields| && counts != freshBytes && input != []
    modifies counts, freshBytes
    ensures var step := ScanField(table, schema, depth, input, Seen(old(counts[..]), old(freshBytes[..]), alternative, content));
            && (step.Err? <==> r.Err?)
            && (step.Err? ==> r.error == step.error)
            && (step.Ok? ==> rest == input[step.value.1..] && step.value.0 == Seen(counts[..], freshBytes[..], now, total))
    decreases |input|, 4
  {
    hide ReadVarint, ReadChunk, FindRule, ScanAdmitted, ReadField;
    rest, now, total := input, alternative, content;
    var key := ReadVarint(input, 0);
    if key.Err? {
      return Err(key.error), rest, now, total;
    }
    var tag := key.value.0 / 8;
    if tag == 0 || tag > MAX_TAG {
      return Err(Malformed), rest, now, total;
    }
    var found := ReadField(schema, input);
    if found.Err? {
      return Err(found.error), rest, now, total;
    }
    var field := found.value;
    if (!field.rule.repeated && counts[field.index] != 0) || (schema.oneof && alternative) {
      return Err(Duplicate), rest, now, total;
    }
    now := alternative || schema.oneof;
    var taken, sum := CountField(table, field, depth, counts, freshBytes, now, content);
    if taken.Err? {
      return Err(taken.error), rest, now, total;
    }
    return Ok(()), input[|input| - |field.rest| + taken.value..], now, sum;
  }

  /** The value of an admitted field, counted and charged in place. */
  method CountField(table: Table, field: Field, depth: nat, counts: array<nat>, freshBytes: array<nat>, alternative: bool, content: nat)
    returns (r: Coded<nat>, total: nat)
    requires field.index < counts.Length == freshBytes.Length && counts != freshBytes
    modifies counts, freshBytes
    ensures var step := ScanAdmitted(table, field, depth, Seen(old(counts[..]), old(freshBytes[..]), alternative, content));
            && (step.Err? <==> r.Err?)
            && (step.Err? ==> r.error == step.error)
            && (step.Ok? ==> r.value == step.value.1 && step.value.0 == Seen(counts[..], freshBytes[..], alternative, total))
    decreases |field.rest|, 4
  {
    hide ReadVarint, ReadChunk, FindRule, ScanValue, ScanPacked;
    total := content;
    var i := field.index;
    if field.rule.repeated && field.wire == 2 && Packable(field.rule.shape) {
      var part := ReadChunk(field.rest);
      if part.Err? {
        return Err(part.error), total;
      }
      var count := TakePacked(part.value.0, field.rule.shape, field.rule.limit, counts[i]);
      if count.Err? {
        return Err(count.error), total;
      }
      counts[i] := count.value;
      return Ok(part.value.1), total;
    }
    if counts[i] + 1 > field.rule.limit {
      return Err(TooBig), total;
    }
    counts[i] := counts[i] + 1;
    var value := TakeValue(table, field, depth);
    if value.Err? {
      return Err(value.error), total;
    }
    if content + value.value.0 > U64_MAX || (field.rule.isFresh && freshBytes[i] + value.value.0 > MAX_FRESH) {
      return Err(TooBig), total;
    }
    total := content + value.value.0;
    if field.rule.isFresh {
      freshBytes[i] := freshBytes[i] + value.value.0;
    }
    return Ok(value.value.1), total;
  }
}

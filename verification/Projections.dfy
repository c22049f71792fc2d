/** Bounded construction of JSON values: the bytes debited are the length of the compact text, so a value is built exactly when it fits. */
module Projections {
  import opened Base

  const OUTPUT_BYTES: nat := 128 * 1024
  const OUTPUT_NODES: nat := 8192
  const OUTPUT_ALLOCATION: nat := 16 * 1024 * 1024

  datatype AdapterError = OverLimit | ReplyMismatch

  /** A JSON value; strings are the bytes of their UTF-8 text. */
  datatype Json =
    | JsonNull
    | JsonNumber(number: nat)
    | JsonString(text: Bytes)
    | JsonArray(items: seq<Json>)
    | JsonObject(keys: seq<Bytes>, values: seq<Json>)

  // ----- compact text

  /** Decimal digits without leading zeros. */
  function Decimal(n: nat): (d: Bytes)
    ensures |d| >= 1 && forall i :: 0 <= i < |d| ==> 48 <= d[i] <= 57
  {
    if n < 10 then [48 + n] else Decimal(n / 10) + [48 + n % 10]
  }

  const HEX_DIGITS: Bytes := [48, 49, 50, 51, 52, 53, 54, 55, 56, 57, 97, 98, 99, 100, 101, 102]

  function HexText(b: Bytes): (h: Bytes)
    ensures |h| == 2 * |b| && forall i :: 0 <= i < |h| ==> h[i] in HEX_DIGITS
  {
    if b == [] then [] else HexText(b[..|b| - 1]) + [HEX_DIGITS[b[|b| - 1] / 16], HEX_DIGITS[b[|b| - 1] % 16]]
  }

  /** Quotation mark, reverse solidus and control characters are escaped; everything else stands for itself. */
  function Escaped(c: Byte): (e: Bytes)
    ensures |e| >= 1
  {
    if c == 34 then [92, 34]
    else if c == 92 then [92, 92]
    else if c == 8 then [92, 98]
    else if c == 9 then [92, 116]
    else if c == 10 then [92, 110]
    else if c == 12 then [92, 102]
    else if c == 13 then [92, 114]
    else if c < 32 then [92, 117, 48, 48, HEX_DIGITS[c / 16], HEX_DIGITS[c % 16]]
    else [c]
  }

  function EscapedText(text: Bytes): Bytes {
    if text == [] then [] else EscapedText(text[..|text| - 1]) + Escaped(text[|text| - 1])
  }

  function Quoted(text: Bytes): Bytes {
    [34] + EscapedText(text) + [34]
  }

  predicate Plain(text: Bytes) {
    forall i :: 0 <= i < |text| ==> text[i] >= 32 && text[i] != 34 && text[i] != 92
  }

  lemma {:induction false} PlainStandsForItself(text: Bytes)
    requires Plain(text)
    ensures EscapedText(text) == text
  {
    hide Escaped;
    if text != [] {
      PlainStandsForItself(text[..|text| - 1]);
      PlainByte(text[|text| - 1]);
      assert text == text[..|text| - 1] + [text[|text| - 1]];
    }
  }

  lemma PlainByte(c: Byte)
    requires c >= 32 && c != 34 && c != 92
    ensures Escaped(c) == [c]
  {
  }

  predicate WellFormed(j: Json) {
    match j
    case JsonArray(items) => forall i :: 0 <= i < |items| ==> WellFormed(items[i])
    case JsonObject(keys, values) => |keys| == |values| && forall i :: 0 <= i < |values| ==> WellFormed(values[i])
    case _ => true
  }

  /** The compact JSON text of a value. */
  function Rendered(j: Json): Bytes
    requires WellFormed(j)
    decreases j
  {
    match j
    case JsonNull => [110, 117, 108, 108]
    case JsonNumber(n) => Decimal(n)
    case JsonString(text) => Quoted(text)
    case JsonArray(items) => [91] + RenderedItems(j, |items|) + [93]
    case JsonObject(keys, values) => [123] + RenderedFields(j, |keys|) + [125]
  }

  /** The first `n` items, separated by commas. */
  function RenderedItems(j: Json, n: nat): Bytes
    requires WellFormed(j) && j.JsonArray? && n <= |j.items|
    decreases j, n
  {
    if n == 0 then []
    else if n == 1 then Rendered(j.items[0])
    else RenderedItems(j, n - 1) + [44] + Rendered(j.items[n - 1])
  }

  function RenderedField(j: Json, i: nat): Bytes
    requires WellFormed(j) && j.JsonObject? && i < |j.keys|
    decreases j, 0
  {
    Quoted(j.keys[i]) + [58] + Rendered(j.values[i])
  }

  function RenderedFields(j: Json, n: nat): Bytes
    requires WellFormed(j) && j.JsonObject? && n <= |j.keys|
    decreases j, n
  {
    if n == 0 then []
    else if n == 1 then RenderedField(j, 0)
    else RenderedFields(j, n - 1) + [44] + RenderedField(j, n - 1)
  }

  // ----- what is projected

  /** A value to project, in the terms its source is given in. */
  datatype Plan =
    | NullPlan
    | SmallPlan(small: nat)
    | DecimalPlan(decimal: nat)
    | TextPlan(text: Bytes)
    | HexPlan(bytes: Bytes)
    | ArrayPlan(items: seq<Plan>)
    | ObjectPlan(keys: seq<Bytes>, values: seq<Plan>)

  predicate Named(p: Plan) {
    match p
    case ArrayPlan(items) => forall i :: 0 <= i < |items| ==> Named(items[i])
    case ObjectPlan(keys, values) =>
      && |keys| == |values|
      && (forall i :: 0 <= i < |keys| ==> Plain(keys[i]))
      && (forall i :: 0 <= i < |values| ==> Named(values[i]))
    case _ => true
  }

  predicate NoRepeats(keys: seq<Bytes>) {
    forall i, j :: 0 <= i < j < |keys| ==> keys[i] != keys[j]
  }

  /** No object anywhere in the value names a field twice. */
  predicate Unrepeated(p: Plan) {
    match p
    case ArrayPlan(items) => forall i :: 0 <= i < |items| ==> Unrepeated(items[i])
    case ObjectPlan(keys, values) => NoRepeats(keys) && forall i :: 0 <= i < |values| ==> Unrepeated(values[i])
    case _ => true
  }

  function ValueOf(p: Plan): (j: Json)
    requires Named(p)
    ensures WellFormed(j)
  {
    match p
    case NullPlan => JsonNull
    case SmallPlan(n) => JsonNumber(n)
    case DecimalPlan(n) => JsonString(Decimal(n))
    case TextPlan(text) => JsonString(text)
    case HexPlan(bytes) => JsonString(HexText(bytes))
    case ArrayPlan(items) => JsonArray(seq(|items|, i requires 0 <= i < |items| => ValueOf(items[i])))
    case ObjectPlan(keys, values) => JsonObject(keys, seq(|values|, i requires 0 <= i < |values| => ValueOf(values[i])))
  }

  /** What a value costs: output bytes, nodes, and allocation. */
  datatype Cost = Cost(bytes: nat, nodes: nat, allocation: nat) {
    function Plus(other: Cost): Cost {
      Cost(bytes + other.bytes, nodes + other.nodes, allocation + other.allocation)
    }

    predicate Within(other: Cost) {
      bytes <= other.bytes && nodes <= other.nodes && allocation <= other.allocation
    }

    function Less(other: Cost): Cost
      requires other.Within(this)
    {
      Cost(bytes - other.bytes, nodes - other.nodes, allocation - other.allocation)
    }
  }

  function KeyBytes(keys: seq<Bytes>): nat {
    if keys == [] then 0 else KeyBytes(keys[..|keys| - 1]) + |keys[|keys| - 1]| + 3
  }

  function Separators(n: nat): nat {
    if n == 0 then 0 else n - 1
  }

  /** What projecting a plan debits, part by part. */
  function CostOf(p: Plan): (c: Cost)
    requires Named(p)
    ensures c.nodes >= 1
    decreases p
  {
    match p
    case NullPlan => Cost(4, 1, 64)
    case SmallPlan(n) => Cost(|Decimal(n)|, 1, 64)
    case DecimalPlan(n) => Cost(|Decimal(n)| + 2, 1, |Decimal(n)| + 64)
    case TextPlan(text) => Cost(|Quoted(text)|, 1, |text| + 64)
    case HexPlan(bytes) => Cost(2 * |bytes| + 2, 1, 2 * |bytes| + 64)
    case ArrayPlan(items) => Cost(2 + Separators(|items|), 1, 64 + |items| * 64).Plus(CostOfItems(p, |items|))
    case ObjectPlan(keys, values) =>
      CostOfValues(p, |values|).Plus(Cost(2 + Separators(|keys|) + KeyBytes(keys), 1, 64 + |keys| * 2048 + KeyBytes(keys)))
  }

  function CostOfItems(p: Plan, n: nat): (c: Cost)
    requires Named(p) && p.ArrayPlan? && n <= |p.items|
    ensures c.nodes >= n
    decreases p, n
  {
    if n == 0 then Cost(0, 0, 0) else CostOfItems(p, n - 1).Plus(CostOf(p.items[n - 1]))
  }

  function CostOfValues(p: Plan, n: nat): Cost
    requires Named(p) && p.ObjectPlan? && n <= |p.values|
    decreases p, n
  {
    if n == 0 then Cost(0, 0, 0) else CostOfValues(p, n - 1).Plus(CostOf(p.values[n - 1]))
  }

  // ----- the bytes debited are the length of the text

  lemma DigitsArePlain(n: nat)
    ensures Plain(Decimal(n))
  {
  }

  lemma HexIsPlain(b: Bytes)
    ensures Plain(HexText(b))
  {
    forall i | 0 <= i < |HexText(b)| ensures HexText(b)[i] >= 48 && HexText(b)[i] <= 102 && HexText(b)[i] != 92 {
      assert HexText(b)[i] in HEX_DIGITS;
    }
  }

  lemma {:induction false} ItemsTextLength(p: Plan, n: nat)
    requires Named(p) && p.ArrayPlan? && n <= |p.items|
    ensures |RenderedItems(ValueOf(p), n)| == Separators(n) + CostOfItems(p, n).bytes
    decreases p, n
  {
    hide CostOf, Rendered;
    if n > 0 {
      TextLength(p.items[n - 1]);
      ItemsTextLength(p, n - 1);
    }
  }

  lemma {:induction false} FieldsTextLength(p: Plan, n: nat)
    requires Named(p) && p.ObjectPlan? && n <= |p.values|
    ensures |RenderedFields(ValueOf(p), n)| == Separators(n) + KeyBytes(p.keys[..n]) + CostOfValues(p, n).bytes
    decreases p, n + 1
  {
    hide CostOf, Rendered, RenderedField;
    if n > 0 {
      FieldTextLength(p, n - 1);
      FieldsTextLength(p, n - 1);
      assert p.keys[..n][..n - 1] == p.keys[..n - 1];
    }
  }

  lemma {:induction false} FieldTextLength(p: Plan, i: nat)
    requires Named(p) && p.ObjectPlan? && i < |p.values|
    ensures |RenderedField(ValueOf(p), i)| == |p.keys[i]| + 3 + CostOf(p.values[i]).bytes
    decreases p, 0
  {
    hide EscapedText, Escaped, CostOf, Rendered;
    TextLength(p.values[i]);
    PlainStandsForItself(p.keys[i]);
  }

  /** The bytes a plan debits are exactly the length of its compact text. */
  lemma {:induction false} TextLength(p: Plan)
    requires Named(p)
    ensures |Rendered(ValueOf(p))| == CostOf(p).bytes
    decreases p
  {
    hide EscapedText, Escaped, Decimal, HexText;
    match p
    case DecimalPlan(n) =>
      DigitsArePlain(n);
      PlainStandsForItself(Decimal(n));
    case HexPlan(bytes) =>
      HexIsPlain(bytes);
      PlainStandsForItself(HexText(bytes));
    case ArrayPlan(items) => ItemsTextLength(p, |items|);
    case ObjectPlan(keys, values) =>
      FieldsTextLength(p, |values|);
      assert keys[..|keys|] == keys;
    case _ =>
  }

  // ----- room for one more part

  lemma ArrayCost(p: Plan)
    requires Named(p) && p.ArrayPlan?
    ensures CostOf(p) == Cost(2 + Separators(|p.items|), 1, 64 + |p.items| * 64).Plus(CostOfItems(p, |p.items|))
  {
  }

  lemma ObjectCost(p: Plan)
    requires Named(p) && p.ObjectPlan?
    ensures |p.keys| == |p.values|
    ensures CostOf(p) == CostOfValues(p, |p.values|).Plus(
                           Cost(2 + Separators(|p.keys|) + KeyBytes(p.keys), 1, 64 + |p.keys| * 2048 + KeyBytes(p.keys)))
  {
  }

  lemma NextItemCost(p: Plan, i: nat)
    requires Named(p) && p.ArrayPlan? && i < |p.items|
    ensures CostOfItems(p, i + 1) == CostOfItems(p, i).Plus(CostOf(p.items[i]))
    ensures CostOfItems(p, i + 1).Within(CostOfItems(p, |p.items|))
  {
    ItemsCostRises(p, i + 1, |p.items|);
  }

  lemma NextValueCost(p: Plan, i: nat)
    requires Named(p) && p.ObjectPlan? && i < |p.values|
    ensures CostOfValues(p, i + 1) == CostOfValues(p, i).Plus(CostOf(p.values[i]))
    ensures CostOfValues(p, i + 1).Within(CostOfValues(p, |p.values|))
  {
    ValuesCostRises(p, i + 1, |p.values|);
  }

  lemma NoItems(p: Plan)
    requires Named(p)
    ensures p.ArrayPlan? ==> CostOfItems(p, 0) == Cost(0, 0, 0)
    ensures p.ObjectPlan? ==> CostOfValues(p, 0) == Cost(0, 0, 0)
  {
  }

  lemma NamedItems(p: Plan)
    requires Named(p)
    ensures p.ArrayPlan? ==> forall i :: 0 <= i < |p.items| ==> Named(p.items[i])
    ensures p.ObjectPlan? ==> forall i :: 0 <= i < |p.values| ==> Named(p.values[i])
  {
  }

  lemma UnrepeatedParts(p: Plan)
    ensures p.ArrayPlan? ==> (Unrepeated(p) <==> forall i :: 0 <= i < |p.items| ==> Unrepeated(p.items[i]))
    ensures p.ObjectPlan? ==> (Unrepeated(p) <==> NoRepeats(p.keys) && forall i :: 0 <= i < |p.values| ==> Unrepeated(p.values[i]))
  {
  }

  lemma ArrayValue(p: Plan, items: seq<Json>)
    requires Named(p) && p.ArrayPlan? && |items| == |p.items|
    requires forall i :: 0 <= i < |items| ==> items[i] == ValueOf(p.items[i])
    ensures ValueOf(p) == JsonArray(items)
  {
  }

  lemma ObjectValue(p: Plan, values: seq<Json>)
    requires Named(p) && p.ObjectPlan? && |values| == |p.values|
    requires forall i :: 0 <= i < |values| ==> values[i] == ValueOf(p.values[i])
    ensures ValueOf(p) == JsonObject(p.keys, values)
  {
  }

  // ----- the bounded builder

  method Digits(n: nat) returns (count: nat)
    ensures count == |Decimal(n)|
  {
    count := 1;
    var value := n;
    while value >= 10
      invariant count - 1 + |Decimal(value)| == |Decimal(n)| && count >= 1
    {
      value := value / 10;
      count := count + 1;
    }
  }

  /** Inserts the names one by one, and stops at one that is already there. */
  method FindRepeat(keys: seq<Bytes>) returns (repeated: bool)
    ensures repeated <==> !NoRepeats(keys)
  {
    var names: set<Bytes> := {};
    var i := 0;
    while i < |keys|
      invariant 0 <= i <= |keys|
      invariant forall k :: k in names <==> k in keys[..i]
      invariant NoRepeats(keys[..i])
    {
      if keys[i] in names {
        var j :| 0 <= j < i && keys[..i][j] == keys[i];
        assert keys[j] == keys[i];
        return true;
      }
      names := names + {keys[i]};
      assert keys[..i + 1] == keys[..i] + [keys[i]];
      i := i + 1;
    }
    assert keys[..i] == keys;
    repeated := false;
  }

  /** The counters of one output; every value debits them before it is built. */
  class Projection {
    var left: Cost

    constructor (maximum: nat)
      ensures left == Cost(if maximum < OUTPUT_BYTES then maximum else OUTPUT_BYTES, OUTPUT_NODES, OUTPUT_ALLOCATION)
    {
      left := Cost(if maximum < OUTPUT_BYTES then maximum else OUTPUT_BYTES, OUTPUT_NODES, OUTPUT_ALLOCATION);
    }

    method Charge(bytes: nat, allocation: nat) returns (ok: bool)
      modifies this
      ensures ok <==> Cost(bytes, 1, allocation).Within(old(left))
      ensures ok ==> left == old(left).Less(Cost(bytes, 1, allocation))
      ensures left.nodes <= old(left).nodes
    {
      if left.bytes < bytes {
        return false;
      }
      left := left.(bytes := left.bytes - bytes);
      if left.nodes < 1 {
        return false;
      }
      left := left.(nodes := left.nodes - 1);
      if left.allocation < allocation {
        return false;
      }
      left := left.(allocation := left.allocation - allocation);
      ok := true;
    }

    /** Projects a plan; it succeeds exactly when the counters cover its cost and no name repeats, and debits exactly the cost. */
    method Project(p: Plan) returns (r: Result<Json, AdapterError>)
      requires Named(p) && left.nodes <= OUTPUT_NODES
      modifies this
      ensures r.Ok? <==> CostOf(p).Within(old(left)) && Unrepeated(p)
      ensures r.Ok? ==> r.value == ValueOf(p) && left == old(left).Less(CostOf(p))
      ensures r.Err? && CostOf(p).Within(old(left)) ==> r.error == ReplyMismatch
      ensures left.nodes <= old(left).nodes
      decreases p
    {
      hide Quoted, Decimal, HexText;
      match p {
        case ArrayPlan(items) => r := ProjectArray(p);
        case ObjectPlan(keys, values) => r := ProjectObject(p);
        case NullPlan =>
          var ok := Charge(4, 64);
          r := if ok then Ok(JsonNull) else Err(OverLimit);
        case SmallPlan(n) =>
          var length := Digits(n);
          var ok := Charge(length, 64);
          r := if ok then Ok(JsonNumber(n)) else Err(OverLimit);
        case DecimalPlan(n) =>
          var length := Digits(n);
          var ok := Charge(length + 2, length + 64);
          r := if ok then Ok(JsonString(Decimal(n))) else Err(OverLimit);
        case TextPlan(text) =>
          var counted := CountQuoted(text, left.bytes);
          if counted.None? {
            return Err(OverLimit);
          }
          var ok := Charge(counted.value, |text| + 64);
          r := if ok then Ok(JsonString(text)) else Err(OverLimit);
        case HexPlan(bytes) =>
          var ok := Charge(2 * |bytes| + 2, 2 * |bytes| + 64);
          r := if ok then Ok(JsonString(HexText(bytes))) else Err(OverLimit);
      }
    }

    /** The array itself is charged before its items. */
    method ProjectArray(p: Plan) returns (r: Result<Json, AdapterError>)
      requires Named(p) && p.ArrayPlan? && left.nodes <= OUTPUT_NODES
      modifies this
      ensures r.Ok? <==> CostOf(p).Within(old(left)) && Unrepeated(p)
      ensures r.Ok? ==> r.value == ValueOf(p) && left == old(left).Less(CostOf(p))
      ensures r.Err? && CostOf(p).Within(old(left)) ==> r.error == ReplyMismatch
      ensures left.nodes <= old(left).nodes
      decreases p, 0
    {
      hide CostOf, CostOfItems, ValueOf, Named, Unrepeated;
      NamedItems(p);
      UnrepeatedParts(p);
      ArrayCost(p);
      var n := |p.items|;
      if n > OUTPUT_NODES {
        return Err(OverLimit);
      }
      var ok := Charge(2 + Separators(n), 64 + n * 64);
      if !ok {
        return Err(OverLimit);
      }
      ghost var charged := left;
      var items: seq<Json> := [];
      NoItems(p);
      var i := 0;
      while i < n
        invariant 0 <= i <= n && |items| == i
        invariant CostOfItems(p, i).Within(charged) && left == charged.Less(CostOfItems(p, i))
        invariant forall k :: 0 <= k < i ==> items[k] == ValueOf(p.items[k]) && Unrepeated(p.items[k])
      {
        NextItemCost(p, i);
        var item := Project(p.items[i]);
        if item.Err? {
          return Err(item.error);
        }
        items := items + [item.value];
        i := i + 1;
      }
      ArrayValue(p, items);
      r := Ok(JsonArray(items));
    }

    /** The fields were projected before the object is charged. */
    method ProjectObject(p: Plan) returns (r: Result<Json, AdapterError>)
      requires Named(p) && p.ObjectPlan? && left.nodes <= OUTPUT_NODES
      modifies this
      ensures r.Ok? <==> CostOf(p).Within(old(left)) && Unrepeated(p)
      ensures r.Ok? ==> r.value == ValueOf(p) && left == old(left).Less(CostOf(p))
      ensures r.Err? && CostOf(p).Within(old(left)) ==> r.error == ReplyMismatch
      ensures left.nodes <= old(left).nodes
      decreases p, 0
    {
      hide CostOf, CostOfValues, ValueOf, Named, Unrepeated, NoRepeats;
      NamedItems(p);
      UnrepeatedParts(p);
      ObjectCost(p);
      var n := |p.values|;
      ghost var before := left;
      var values: seq<Json> := [];
      NoItems(p);
      var i := 0;
      while i < n
        invariant 0 <= i <= n && |values| == i
        invariant CostOfValues(p, i).Within(before) && left == before.Less(CostOfValues(p, i))
        invariant forall k :: 0 <= k < i ==> values[k] == ValueOf(p.values[k]) && Unrepeated(p.values[k])
      {
        NextValueCost(p, i);
        var value := Project(p.values[i]);
        if value.Err? {
          return Err(value.error);
        }
        values := values + [value.value];
        i := i + 1;
      }
      ObjectValue(p, values);
      var keyBytes := KeyBytes(p.keys);
      var ok := Charge(2 + Separators(n) + keyBytes, 64 + n * 2048 + keyBytes);
      if !ok {
        return Err(OverLimit);
      }
      var repeated := FindRepeat(p.keys);
      r := if repeated then Err(ReplyMismatch) else Ok(JsonObject(p.keys, values));
    }
  }

  lemma {:induction false} ItemsCostRises(p: Plan, i: nat, n: nat)
    requires Named(p) && p.ArrayPlan? && i <= n <= |p.items|
    ensures CostOfItems(p, i).Within(CostOfItems(p, n))
    decreases n
  {
    if i < n {
      ItemsCostRises(p, i, n - 1);
    }
  }

  lemma {:induction false} ValuesCostRises(p: Plan, i: nat, n: nat)
    requires Named(p) && p.ObjectPlan? && i <= n <= |p.values|
    ensures CostOfValues(p, i).Within(CostOfValues(p, n))
    decreases n
  {
    if i < n {
      ValuesCostRises(p, i, n - 1);
    }
  }

  /** Counts the quoted text without building it, and gives up at the first byte over the maximum. */
  method CountQuoted(text: Bytes, maximum: nat) returns (counted: Option<nat>)
    ensures counted == if |Quoted(text)| <= maximum then Some(|Quoted(text)|) else None
  {
    hide EscapedText, Escaped;
    var count: nat := 1;
    var i := 0;
    NothingEscaped(text);
    while i < |text|
      invariant 0 <= i <= |text|
      invariant count == 1 + |EscapedText(text[..i])|
      invariant i > 0 ==> count <= maximum
    {
      EscapedStep(text, i);
      count := count + |Escaped(text[i])|;
      i := i + 1;
      EscapedRises(text, i);
      if count > maximum {
        return None;
      }
    }
    assert text[..i] == text;
    counted := if count + 1 <= maximum then Some(count + 1) else None;
  }

  lemma NothingEscaped(text: Bytes)
    ensures EscapedText(text[..0]) == []
  {
  }

  lemma EscapedStep(text: Bytes, i: nat)
    requires i < |text|
    ensures EscapedText(text[..i + 1]) == EscapedText(text[..i]) + Escaped(text[i])
  {
    assert text[..i + 1][..i] == text[..i];
  }

  lemma {:induction false} EscapedRises(text: Bytes, i: nat)
    requires i <= |text|
    ensures |EscapedText(text[..i])| <= |EscapedText(text)|
    decreases |text|
  {
    if i == |text| {
      assert text[..i] == text;
    } else {
      var shorter := text[..|text| - 1];
      EscapedRises(shorter, i);
      assert shorter[..i] == text[..i];
    }
  }

  /** A complete envelope is built exactly when its text fits the ceiling and there is node and allocation room. */
  method ProjectEnvelope(p: Plan, maximum: nat) returns (r: Result<Json, AdapterError>)
    requires Named(p)
    ensures r.Ok? <==> && Unrepeated(p)
                       && |Rendered(ValueOf(p))| <= maximum && |Rendered(ValueOf(p))| <= OUTPUT_BYTES
                       && CostOf(p).nodes <= OUTPUT_NODES && CostOf(p).allocation <= OUTPUT_ALLOCATION
    ensures r.Ok? ==> r.value == ValueOf(p)
  {
    hide CostOf, ValueOf, Rendered, Named, Unrepeated;
    TextLength(p);
    var projection := new Projection(maximum);
    r := projection.Project(p);
  }
}

/** Encoded bodies read on their own, item by item, and what a schema demands of them at every depth; the strict scan accepts exactly those. */
module Bodies {
  import opened Base
  import opened Wire

  // ----- the items of a body, whatever schema it is read with

  /** A tag with a number or a part; other wire types are not read. */
  datatype Item = Item(tag: nat, wire: nat, number: nat, part: Bytes)

  function FirstItem(input: Bytes): (r: Option<(Item, nat)>)
    ensures r.Some? ==> 2 <= r.value.1 <= |input| && |r.value.0.part| < |input|
  {
    var key := ReadVarint(input, 0);
    if key.Err? then None
    else
      var tag, rest := key.value.0 / 8, input[key.value.1..];
      if key.value.0 % 8 == 0 then
        var number := ReadVarint(rest, 0);
        if number.Err? then None else Some((Item(tag, 0, number.value.0, []), key.value.1 + number.value.1))
      else if key.value.0 % 8 == 2 then
        var part := ReadChunk(rest);
        if part.Err? then None else Some((Item(tag, 2, 0, part.value.0), key.value.1 + part.value.1))
      else None
  }

  function ItemsOf(input: Bytes): (r: Option<seq<Item>>)
    ensures r.Some? ==> forall k :: 0 <= k < |r.value| ==> |r.value[k].part| < |input|
    decreases |input|
  {
    if input == [] then Some([])
    else
      var first := FirstItem(input);
      if first.None? then None
      else
        var rest := ItemsOf(input[first.value.1..]);
        if rest.None? then None else Some([first.value.0] + rest.value)
  }

  // ----- what an item brings

  /** The field of an item, how many values it holds of it, and the content bytes in them. */
  datatype Share = Share(index: nat, values: nat, content: nat)

  /** Many scalar values of a repeated field in one part. */
  predicate InPack(rule: Rule, item: Item) {
    rule.repeated && item.wire == 2 && Packable(rule.shape)
  }

  function ShareOf(table: Table, schema: Schema, item: Item): Share
    decreases |item.part|, 1
  {
    match FindRule(schema.fields, item.tag)
    case None => Share(0, 0, 0)
    case Some(i) =>
      var rule := schema.fields[i];
      if InPack(rule, item) then Share(i, if PackedCount(item.part).Ok? then PackedCount(item.part).value else 0, 0)
      else if rule.shape.ContentShape? then Share(i, 1, |item.part|)
      else if rule.shape.MessageShape? then Share(i, 1, ContentIn(Shares(table, table(rule.shape.child), item.part)))
      else Share(i, 1, 0)
  }

  function Shares(table: Table, schema: Schema, input: Bytes): seq<Share>
    decreases |input|, 0
  {
    if ItemsOf(input).None? then []
    else
      var items := ItemsOf(input).value;
      seq(|items|, k requires 0 <= k < |items| => ShareOf(table, schema, items[k]))
  }

  function ContentIn(shares: seq<Share>): nat {
    if shares == [] then 0 else ContentIn(shares[..|shares| - 1]) + shares[|shares| - 1].content
  }

  /** How many values of field `i` there are. */
  function ValuesOf(shares: seq<Share>, i: nat): nat {
    if shares == [] then 0
    else ValuesOf(shares[..|shares| - 1], i) + if shares[|shares| - 1].index == i then shares[|shares| - 1].values else 0
  }

  function ContentOf(shares: seq<Share>, i: nat): nat {
    if shares == [] then 0
    else ContentOf(shares[..|shares| - 1], i) + if shares[|shares| - 1].index == i then shares[|shares| - 1].content else 0
  }

  // ----- what a schema demands

  predicate PackFits(b: Bytes, shape: Shape)
    decreases |b|
  {
    b == [] || (ReadVarint(b, 0).Ok? && ScalarCheck(shape, ReadVarint(b, 0).value.0).Pass? && PackFits(b[ReadVarint(b, 0).value.1..], shape))
  }

  /** An item of a known field, of the field's wire type, with a value the field admits, nested bodies included. */
  ghost predicate ItemProper(table: Table, schema: Schema, depth: nat, item: Item)
    decreases |item.part|, 2
  {
    && 0 < item.tag <= MAX_TAG
    && match FindRule(schema.fields, item.tag)
       case None => false
       case Some(i) =>
         var rule := schema.fields[i];
         if InPack(rule, item) then PackFits(item.part, rule.shape)
         else
           match rule.shape
           case IdShape => item.wire == 2 && |item.part| == 16 && exists k :: 0 <= k < 16 && item.part[k] != 0
           case ContentShape => item.wire == 2 && |item.part| <= MAX_CONTENT
           case MessageShape(child) => item.wire == 2 && BodyProper(table, table(child), depth + 1, item.part)
           case _ => item.wire == 0 && ScalarCheck(rule.shape, item.number).Pass?
  }

  ghost predicate FieldWithin(rule: Rule, shares: seq<Share>, i: nat) {
    && ValuesOf(shares, i) <= rule.limit
    && (!rule.repeated ==> ValuesOf(shares, i) <= 1)
    && (rule.isFresh ==> ContentOf(shares, i) <= MAX_FRESH)
  }

  /** No limit is passed, no unrepeated field stands twice, no second alternative. */
  ghost predicate Within(schema: Schema, shares: seq<Share>) {
    && (forall i :: 0 <= i < |schema.fields| ==> FieldWithin(schema.fields[i], shares, i))
    && (schema.oneof ==> |shares| <= 1)
    && ContentIn(shares) <= U64_MAX
  }

  ghost predicate RequiredPresent(schema: Schema, shares: seq<Share>) {
    forall i :: 0 <= i < |schema.fields| && schema.fields[i].required ==> ValuesOf(shares, i) > 0
  }

  ghost predicate ItemsProper(table: Table, schema: Schema, depth: nat, input: Bytes)
    decreases |input|, 0
  {
    ItemsOf(input).Some? && forall k :: 0 <= k < |ItemsOf(input).value| ==> ItemProper(table, schema, depth, ItemsOf(input).value[k])
  }

  /** Every item proper, every limit kept, everything required there: in this body and, through its items, in every nested one. */
  ghost predicate BodyProper(table: Table, schema: Schema, depth: nat, input: Bytes)
    decreases |input|, 1
  {
    && depth <= MAX_DEPTH && |schema.fields| <= MAX_FIELDS
    && ItemsProper(table, schema, depth, input)
    && Within(schema, Shares(table, schema, input))
    && (schema.oneof ==> Shares(table, schema, input) != [])
    && RequiredPresent(schema, Shares(table, schema, input))
  }

  // ----- the scanner's counters are those sums

  ghost function SeenAfter(schema: Schema, shares: seq<Share>): (s: Seen)
    ensures |s.counts| == |s.freshBytes| == |schema.fields| && s.content == ContentIn(shares) && (schema.oneof ==> (s.alternative <==> shares != []))
    ensures forall i :: 0 <= i < |schema.fields| ==> s.counts[i] == ValuesOf(shares, i)
    ensures forall i :: 0 <= i < |schema.fields| && schema.fields[i].isFresh ==> s.freshBytes[i] == ContentOf(shares, i)
  {
    Seen(seq(|schema.fields|, i requires 0 <= i < |schema.fields| => ValuesOf(shares, i)),
         seq(|schema.fields|, i requires 0 <= i < |schema.fields| => if schema.fields[i].isFresh then ContentOf(shares, i) else 0),
         schema.oneof && shares != [], ContentIn(shares))
  }

  lemma NothingSeen(schema: Schema)
    ensures SeenAfter(schema, []) == Unseen(schema) && Within(schema, [])
  {
  }

  lemma OneMoreShare(shares: seq<Share>, share: Share)
    ensures ContentIn(shares + [share]) == ContentIn(shares) + share.content
    ensures forall i :: ValuesOf(shares + [share], i) == ValuesOf(shares, i) + if share.index == i then share.values else 0
    ensures forall i :: ContentOf(shares + [share], i) == ContentOf(shares, i) + if share.index == i then share.content else 0
  {
    assert (shares + [share])[..|shares|] == shares;
  }

  lemma {:induction false} WithinPrefix(schema: Schema, shares: seq<Share>, more: seq<Share>)
    requires Within(schema, shares + more)
    ensures Within(schema, shares)
    decreases |more|
  {
    if more == [] {
      assert shares + more == shares;
    } else {
      var before, last := shares + more[..|more| - 1], more[|more| - 1];
      assert shares + more == before + [last];
      OneMoreShare(before, last);
      forall i | 0 <= i < |schema.fields| ensures FieldWithin(schema.fields[i], before, i) {
        assert FieldWithin(schema.fields[i], shares + more, i);
      }
      WithinPrefix(schema, shares, more[..|more| - 1]);
    }
  }

  /** With one more share, only its own field and the totals matter. */
  lemma WithinFurther(schema: Schema, shares: seq<Share>, share: Share)
    requires Within(schema, shares) && share.index < |schema.fields|
    ensures var rule := schema.fields[share.index];
            Within(schema, shares + [share]) <==>
              && ValuesOf(shares, share.index) + share.values <= rule.limit
              && (!rule.repeated ==> ValuesOf(shares, share.index) + share.values <= 1)
              && (rule.isFresh ==> ContentOf(shares, share.index) + share.content <= MAX_FRESH)
              && (schema.oneof ==> shares == [])
              && ContentIn(shares) + share.content <= U64_MAX
  {
    OneMoreShare(shares, share);
    var more := shares + [share];
    assert Within(schema, more) ==> FieldWithin(schema.fields[share.index], more, share.index);
    if FieldWithin(schema.fields[share.index], more, share.index) {
      forall i | 0 <= i < |schema.fields| ensures FieldWithin(schema.fields[i], more, i) {
        assert FieldWithin(schema.fields[i], shares, i);
      }
    }
  }

  lemma SeenFurther(schema: Schema, shares: seq<Share>, share: Share)
    requires share.index < |schema.fields|
    ensures var seen, i := SeenAfter(schema, shares), share.index;
            SeenAfter(schema, shares + [share]) ==
              Seen(seen.counts[i := seen.counts[i] + share.values],
                   if schema.fields[i].isFresh then seen.freshBytes[i := seen.freshBytes[i] + share.content] else seen.freshBytes,
                   schema.oneof, seen.content + share.content)
  {
    OneMoreShare(shares, share);
  }

  // ----- packed values

  lemma {:induction false} PackIsExact(b: Bytes, shape: Shape, limit: nat, count: nat)
    requires count <= limit
    ensures ScanPacked(b, shape, limit, count).Ok? <==> PackFits(b, shape) && PackedCount(b).Ok? && count + PackedCount(b).value <= limit
    ensures ScanPacked(b, shape, limit, count).Ok? ==> ScanPacked(b, shape, limit, count).value == count + PackedCount(b).value
    ensures PackFits(b, shape) ==> PackedCount(b).Ok?
    decreases |b|
  {
    hide ReadVarint, ScalarCheck;
    if b != [] && ReadVarint(b, 0).Ok? {
      var rest := b[ReadVarint(b, 0).value.1..];
      if count + 1 <= limit {
        PackIsExact(rest, shape, limit, count + 1);
      } else {
        PackIsExact(rest, shape, limit, limit);
      }
    }
  }

  // ----- one value, one field, one body

  /** The item that a field is read from. */
  lemma FieldIsItem(schema: Schema, input: Bytes)
    ensures FirstItem(input).Some? && ReadField(schema, input).Ok? ==>
              var item, field := FirstItem(input).value.0, ReadField(schema, input).value;
              && FindRule(schema.fields, item.tag) == Some(field.index) && field.wire == item.wire && ReadVarint(input, 0).Ok?
              && item.tag == ReadVarint(input, 0).value.0 / 8
              && (item.wire == 0 ==> ReadVarint(field.rest, 0) == Ok((item.number, FirstItem(input).value.1 - (|input| - |field.rest|))))
              && (item.wire == 2 ==> ReadChunk(field.rest) == Ok((item.part, FirstItem(input).value.1 - (|input| - |field.rest|))))
              && (item.wire == 0 || item.wire == 2)
    ensures FirstItem(input).Some? ==> (ReadField(schema, input).Ok? <==> FindRule(schema.fields, FirstItem(input).value.0.tag).Some?)
    ensures FirstItem(input).None? && ReadField(schema, input).Ok? ==>
              var field := ReadField(schema, input).value;
              && (field.wire == 0 ==> ReadVarint(field.rest, 0).Err?)
              && (field.wire == 2 ==> ReadChunk(field.rest).Err?)
  {
    hide FindRule, ReadVarint, ReadChunk;
  }

  /** The field was read from the item, and `n` bytes follow its key. */
  ghost predicate ReadFrom(schema: Schema, field: Field, item: Item, n: nat) {
    && field.index < |schema.fields| && field.rule == schema.fields[field.index]
    && FindRule(schema.fields, item.tag) == Some(field.index)
    && field.wire == item.wire
    && (item.wire == 0 || item.wire == 2)
    && (item.wire == 0 ==> ReadVarint(field.rest, 0) == Ok((item.number, n)))
    && (item.wire == 2 ==> ReadChunk(field.rest) == Ok((item.part, n)))
  }

  lemma {:induction false} ValueIsExact(table: Table, schema: Schema, depth: nat, field: Field, item: Item, n: nat)
    requires ReadFrom(schema, field, item, n) && !InPack(field.rule, item) && 0 < item.tag <= MAX_TAG
    ensures ScanValue(table, field, depth).Ok? <==> ItemProper(table, schema, depth, item)
    ensures ScanValue(table, field, depth).Ok? ==> ScanValue(table, field, depth).value == (ShareOf(table, schema, item).content, n)
    ensures ShareOf(table, schema, item).index == field.index && ShareOf(table, schema, item).values == 1
    decreases |item.part|, 4
  {
    hide ReadVarint, ReadChunk, FindRule, BodyProper, ScanBody, Shares;
    if field.rule.shape.MessageShape? && item.wire == 2 {
      ScanIsExact(table, table(field.rule.shape.child), depth + 1, item.part);
    }
  }

  /** A body is accepted exactly when it is proper at every depth, and then its content bytes are counted. */
  lemma {:induction false} ScanIsExact(table: Table, schema: Schema, depth: nat, input: Bytes)
    ensures ScanBody(table, schema, depth, input).Ok? <==> BodyProper(table, schema, depth, input)
    ensures ScanBody(table, schema, depth, input).Ok? ==> ScanBody(table, schema, depth, input).value == ContentIn(Shares(table, schema, input))
    decreases |input|, 3
  {
    hide ScanFields, ItemsProper, Within, Shares;
    NothingSeen(schema);
    FieldsAreExact(table, schema, depth, input, []);
    assert [] + Shares(table, schema, input) == Shares(table, schema, input);
    RequiredCounted(schema, Shares(table, schema, input));
  }

  lemma RequiredCounted(schema: Schema, shares: seq<Share>)
    ensures RequiredPresent(schema, shares) <==>
              !exists i :: 0 <= i < |schema.fields| && schema.fields[i].required && SeenAfter(schema, shares).counts[i] == 0
  {
    var counts := SeenAfter(schema, shares).counts;
    assert forall i :: 0 <= i < |schema.fields| ==> counts[i] == ValuesOf(shares, i);
  }

  /** From any proper beginning the rest is accepted exactly when its items are proper and stay within the limits. */
  lemma {:induction false} FieldsAreExact(table: Table, schema: Schema, depth: nat, input: Bytes, before: seq<Share>)
    requires Within(schema, before)
    ensures var scanned := ScanFields(table, schema, depth, input, SeenAfter(schema, before));
            && (scanned.Ok? <==> ItemsProper(table, schema, depth, input) && Within(schema, before + Shares(table, schema, input)))
            && (scanned.Ok? ==> scanned.value == SeenAfter(schema, before + Shares(table, schema, input)))
    decreases |input|, 2
  {
    hide Within, SeenAfter, ItemProper, ShareOf, ScanField, FirstItem;
    if input == [] {
      assert before + Shares(table, schema, input) == before;
    } else {
      FirstAndRest(table, schema, depth, input);
      FieldIsExact(table, schema, depth, input, before);
      OneFieldScanned(table, schema, depth, input, SeenAfter(schema, before));
      hide ItemsProper, Shares, ScanFields;
      if FirstItem(input).Some? {
        var share := ShareOf(table, schema, FirstItem(input).value.0);
        var rest := input[FirstItem(input).value.1..];
        assert before + ([share] + Shares(table, schema, rest)) == before + [share] + Shares(table, schema, rest);
        if Within(schema, before + [share]) {
          FieldsAreExact(table, schema, depth, rest, before + [share]);
        } else if Within(schema, before + [share] + Shares(table, schema, rest)) {
          WithinPrefix(schema, before + [share], Shares(table, schema, rest));
        }
      }
    }
  }

  lemma OneFieldScanned(table: Table, schema: Schema, depth: nat, input: Bytes, seen: Seen)
    requires |seen.counts| == |seen.freshBytes| == |schema.fields| && input != []
    ensures var one := ScanField(table, schema, depth, input, seen);
            ScanFields(table, schema, depth, input, seen)
            == if one.Err? then Err(one.error) else ScanFields(table, schema, depth, input[one.value.1..], one.value.0)
  {
    hide ScanField;
  }

  lemma FirstAndRest(table: Table, schema: Schema, depth: nat, input: Bytes)
    requires input != []
    ensures FirstItem(input).None? ==> !ItemsProper(table, schema, depth, input)
    ensures FirstItem(input).Some? ==>
              var rest := input[FirstItem(input).value.1..];
              && (ItemsProper(table, schema, depth, input)
                  <==> ItemProper(table, schema, depth, FirstItem(input).value.0) && ItemsProper(table, schema, depth, rest))
              && (ItemsProper(table, schema, depth, input)
                  ==> Shares(table, schema, input) == [ShareOf(table, schema, FirstItem(input).value.0)] + Shares(table, schema, rest))
  {
    hide FirstItem, ItemProper, ShareOf;
    if FirstItem(input).Some? && ItemsOf(input[FirstItem(input).value.1..]).Some? {
      var items, rest := ItemsOf(input).value, ItemsOf(input[FirstItem(input).value.1..]).value;
      assert items == [FirstItem(input).value.0] + rest;
      assert forall k :: 0 <= k < |rest| ==> items[k + 1] == rest[k];
      if ItemProper(table, schema, depth, items[0]) && ItemsProper(table, schema, depth, input[FirstItem(input).value.1..]) {
        forall k | 0 <= k < |items| ensures ItemProper(table, schema, depth, items[k]) {
          assert k > 0 ==> items[k] == rest[k - 1];
        }
      }
    }
  }

  lemma {:induction false} FieldIsExact(table: Table, schema: Schema, depth: nat, input: Bytes, before: seq<Share>)
    requires Within(schema, before) && input != []
    ensures var scanned := ScanField(table, schema, depth, input, SeenAfter(schema, before));
            && (scanned.Ok? ==> FirstItem(input).Some?)
            && (FirstItem(input).Some? ==>
                  var item := FirstItem(input).value.0;
                  var share := ShareOf(table, schema, item);
                  && (scanned.Ok? <==> ItemProper(table, schema, depth, item) && Within(schema, before + [share]))
                  && (scanned.Ok? ==> scanned.value == (SeenAfter(schema, before + [share]), FirstItem(input).value.1)))
    decreases |input|, 1
  {
    hide ReadVarint, ReadChunk, FindRule, Within, SeenAfter, FirstItem, ScanAdmitted, ShareOf;
    FieldIsItem(schema, input);
    var seen := SeenAfter(schema, before);
    if FirstItem(input).None? && ReadField(schema, input).Ok? {
      NoItemIsRefused(table, schema, ReadField(schema, input).value, depth, seen);
    }
    if FirstItem(input).Some? && ReadField(schema, input).Ok? && 0 < FirstItem(input).value.0.tag <= MAX_TAG {
      var item, field := FirstItem(input).value.0, ReadField(schema, input).value;
      AdmittedIsExact(table, schema, depth, field, item, FirstItem(input).value.1 - (|input| - |field.rest|), before);
    }
  }

  lemma NoItemIsRefused(table: Table, schema: Schema, field: Field, depth: nat, seen: Seen)
    requires field.index < |schema.fields| == |seen.counts| == |seen.freshBytes|
    requires (field.wire == 0 ==> ReadVarint(field.rest, 0).Err?) && (field.wire == 2 ==> ReadChunk(field.rest).Err?)
    ensures Admit(schema, field, seen).Ok? ==> ScanAdmitted(table, field, depth, Admit(schema, field, seen).value).Err?
  {
    hide ReadVarint, ReadChunk, ScanBody, ScanPacked;
  }

  lemma PackItem(table: Table, schema: Schema, depth: nat, field: Field, item: Item, n: nat)
    requires ReadFrom(schema, field, item, n) && InPack(field.rule, item) && 0 < item.tag <= MAX_TAG
    ensures ItemProper(table, schema, depth, item) <==> PackFits(item.part, field.rule.shape)
    ensures ShareOf(table, schema, item) == Share(field.index, if PackedCount(item.part).Ok? then PackedCount(item.part).value else 0, 0)
  {
    hide ReadVarint, ReadChunk, FindRule, PackFits, PackedCount;
  }

  /** The counters with one more share, in the steps the scanner takes. */
  lemma CountersMatch(schema: Schema, field: Field, before: seq<Share>, share: Share)
    requires Within(schema, before) && field.index < |schema.fields| && field.rule == schema.fields[field.index] && share.index == field.index
    ensures var seen, i := SeenAfter(schema, before), field.index;
            var counted := seen.(alternative := seen.alternative || schema.oneof, counts := seen.counts[i := seen.counts[i] + share.values]);
            && (Within(schema, before + [share]) <==>
                  && seen.counts[i] + share.values <= field.rule.limit
                  && (!field.rule.repeated ==> seen.counts[i] + share.values <= 1)
                  && !(schema.oneof && seen.alternative)
                  && Charged(counted, field, share.content).Ok?)
            && (Within(schema, before + [share]) ==> Charged(counted, field, share.content).value == SeenAfter(schema, before + [share]))
  {
    var i, seen := field.index, SeenAfter(schema, before);
    assert FieldWithin(schema.fields[i], before, i);
    WithinFurther(schema, before, share);
    SeenFurther(schema, before, share);
    hide Within, ValuesOf, ContentOf, ContentIn, FieldWithin;
  }

  lemma PackIsAdmitted(table: Table, schema: Schema, depth: nat, field: Field, item: Item, n: nat, before: seq<Share>)
    requires Within(schema, before) && ReadFrom(schema, field, item, n) && InPack(field.rule, item) && 0 < item.tag <= MAX_TAG
    ensures Admitted(table, schema, depth, field, item, n, before)
  {
    hide ReadVarint, ReadChunk, FindRule, ScanPacked, ScanValue, PackFits, PackedCount, ShareOf, ItemProper, SeenAfter, ValuesOf, ContentOf, ContentIn, Within;
    var share, i, seen := ShareOf(table, schema, item), field.index, SeenAfter(schema, before);
    PackItem(table, schema, depth, field, item, n);
    CountersMatch(schema, field, before, share);
    FieldIsWithin(schema, before, i);
    PackIsExact(item.part, field.rule.shape, field.rule.limit, seen.counts[i]);
    assert seen.freshBytes[i := seen.freshBytes[i] + 0] == seen.freshBytes;
  }

  lemma FieldIsWithin(schema: Schema, before: seq<Share>, i: nat)
    requires Within(schema, before) && i < |schema.fields|
    ensures ValuesOf(before, i) <= schema.fields[i].limit && ContentIn(before) <= U64_MAX
    ensures schema.fields[i].isFresh ==> ContentOf(before, i) <= MAX_FRESH
  {
    assert FieldWithin(schema.fields[i], before, i);
  }

  lemma {:induction false} ValueIsAdmitted(table: Table, schema: Schema, depth: nat, field: Field, item: Item, n: nat, before: seq<Share>)
    requires Within(schema, before) && ReadFrom(schema, field, item, n) && !InPack(field.rule, item) && 0 < item.tag <= MAX_TAG
    ensures Admitted(table, schema, depth, field, item, n, before)
    decreases |item.part|, 5
  {
    hide ReadVarint, ReadChunk, FindRule, ScanPacked, ScanValue, ShareOf, ItemProper, SeenAfter, ValuesOf, ContentOf, ContentIn, Within, Charged;
    ValueIsExact(table, schema, depth, field, item, n);
    CountersMatch(schema, field, before, ShareOf(table, schema, item));
  }

  /** The field is taken exactly when its item is proper and stays within the limits, and is counted as its share. */
  ghost predicate Admitted(table: Table, schema: Schema, depth: nat, field: Field, item: Item, n: nat, before: seq<Share>)
    requires field.index < |schema.fields|
  {
    var seen, share := SeenAfter(schema, before), ShareOf(table, schema, item);
    var taken := Admit(schema, field, seen).Ok? && ScanAdmitted(table, field, depth, Admit(schema, field, seen).value).Ok?;
    && (taken <==> ItemProper(table, schema, depth, item) && Within(schema, before + [share]))
    && (taken ==> ScanAdmitted(table, field, depth, Admit(schema, field, seen).value).value == (SeenAfter(schema, before + [share]), n))
  }

  lemma {:induction false} AdmittedIsExact(table: Table, schema: Schema, depth: nat, field: Field, item: Item, n: nat, before: seq<Share>)
    requires Within(schema, before) && ReadFrom(schema, field, item, n) && 0 < item.tag <= MAX_TAG
    ensures Admitted(table, schema, depth, field, item, n, before)
    decreases |item.part|, 6
  {
    hide Admitted;
    if InPack(field.rule, item) {
      PackIsAdmitted(table, schema, depth, field, item, n, before);
    } else {
      ValueIsAdmitted(table, schema, depth, field, item, n, before);
    }
  }
}

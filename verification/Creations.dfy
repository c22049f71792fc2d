/** Fresh content: measured, bound to its operation, and admitted exactly when the grant's limits and the catalogue allow it. */
module Creations {
  import opened Base
  import opened Model
  import opened Rules
  import opened Records

  function TotalBytes(payloads: seq<FreshContent>): nat {
    if payloads == [] then 0 else TotalBytes(payloads[..|payloads| - 1]) + |payloads[|payloads| - 1].bytes|
  }

  /** Items and bytes are counted as they are, or refused when a 64-bit counter cannot hold them. */
  lemma {:induction false} MeasureIsExact(payloads: seq<FreshContent>)
    ensures Measure(payloads).Ok? <==> |payloads| <= U64_MAX && TotalBytes(payloads) <= U64_MAX
    ensures Measure(payloads).Ok? ==> Measure(payloads).value == ContentUsage(|payloads|, TotalBytes(payloads))
    ensures Measure(payloads).Err? ==> Measure(payloads).error == Invalid
  {
    if payloads != [] {
      MeasureIsExact(payloads[..|payloads| - 1]);
    }
  }

  lemma MeasureOneMore(payloads: seq<FreshContent>, i: nat)
    requires i < |payloads|
    ensures var size := |payloads[i].bytes|;
            Measure(payloads[..i + 1]) ==
            match Measure(payloads[..i])
            case Err(e) => Err(e)
            case Ok(usage) =>
              if usage.items + 1 <= U64_MAX && size <= U64_MAX && usage.payloadBytes + size <= U64_MAX
              then Ok(ContentUsage(usage.items + 1, usage.payloadBytes + size)) else Err(Invalid)
  {
    assert payloads[..i + 1][..i] == payloads[..i];
  }

  lemma {:induction false} MeasureRefused(payloads: seq<FreshContent>, i: nat)
    requires i <= |payloads| && Measure(payloads[..i]).Err?
    ensures Measure(payloads) == Err(Invalid)
    decreases |payloads| - i
  {
    MeasureIsExact(payloads[..i]);
    if i == |payloads| {
      assert payloads[..i] == payloads;
    } else {
      MeasureOneMore(payloads, i);
      MeasureRefused(payloads, i + 1);
    }
  }

  method MeasureAll(payloads: seq<FreshContent>) returns (r: Checked<ContentUsage>)
    ensures r == Measure(payloads)
  {
    var usage := ContentUsage(0, 0);
    var i := 0;
    while i < |payloads|
      invariant 0 <= i <= |payloads| && Measure(payloads[..i]) == Ok(usage)
    {
      hide Measure;
      MeasureOneMore(payloads, i);
      var size := |payloads[i].bytes|;
      if usage.items + 1 > U64_MAX || size > U64_MAX || usage.payloadBytes + size > U64_MAX {
        MeasureRefused(payloads, i + 1);
        return Err(Invalid);
      }
      usage := ContentUsage(usage.items + 1, usage.payloadBytes + size);
      i := i + 1;
    }
    assert payloads[..i] == payloads;
    r := Ok(usage);
  }

  // ----- binding

  /** Every payload is local and new, and no two share a key. */
  predicate Bindable(s: State, payloads: seq<FreshContent>) {
    && (forall i :: 0 <= i < |payloads| ==>
          payloads[i].key.establishing == s.identity.Key() && payloads[i].key !in s.contentItems)
    && forall i, j :: 0 <= i < j < |payloads| ==> payloads[i].key != payloads[j].key
  }

  /** One entry for each payload, under its own key. */
  ghost predicate Bound(s: State, op: Operation, used: GrantUse, g: Grant, a: Authority, payloads: seq<FreshContent>,
                        created: map<ContentKey, RecordedContent>)
  {
    && created.Keys == FreshKeys(payloads)
    && |created| == |payloads|
    && forall i :: 0 <= i < |payloads| ==> BoundAs(s, op, used, g, a, payloads[i], created)
  }

  predicate BoundAs(s: State, op: Operation, used: GrantUse, g: Grant, a: Authority, payload: FreshContent,
                    created: map<ContentKey, RecordedContent>)
  {
    payload.key in created && created[payload.key] == RecordedOrigin(s, op, used, g, a, payload)
  }

  lemma BoundBeside(s: State, op: Operation, used: GrantUse, g: Grant, a: Authority, payload: FreshContent,
                    created: map<ContentKey, RecordedContent>, key: ContentKey, content: RecordedContent)
    requires BoundAs(s, op, used, g, a, payload, created) && key !in created
    ensures BoundAs(s, op, used, g, a, payload, created[key := content])
  {
  }

  lemma BindableFurther(s: State, payloads: seq<FreshContent>)
    requires payloads != []
    ensures var earlier, last := payloads[..|payloads| - 1], payloads[|payloads| - 1];
            Bindable(s, payloads) <==> && Bindable(s, earlier) && last.key.establishing == s.identity.Key()
                                       && last.key !in s.contentItems && last.key !in FreshKeys(earlier)
  {
    var earlier, last := payloads[..|payloads| - 1], payloads[|payloads| - 1];
    if Bindable(s, earlier) && last.key !in FreshKeys(earlier) {
      forall i | 0 <= i < |earlier| ensures payloads[i].key != last.key {
        assert earlier[i] in earlier;
      }
    }
  }

  lemma BoundFurther(s: State, op: Operation, used: GrantUse, g: Grant, a: Authority, payloads: seq<FreshContent>,
                     created: map<ContentKey, RecordedContent>)
    requires payloads != [] && Bound(s, op, used, g, a, payloads[..|payloads| - 1], created)
    requires payloads[|payloads| - 1].key !in created
    ensures var last := payloads[|payloads| - 1];
            Bound(s, op, used, g, a, payloads, created[last.key := RecordedOrigin(s, op, used, g, a, last)])
  {
    hide RecordedOrigin, BoundAs, FreshKeys;
    var last := payloads[|payloads| - 1];
    var content := RecordedOrigin(s, op, used, g, a, last);
    FreshKeysFurther(payloads);
    OneMoreKey(created, last.key, content);
    AllBound(s, op, used, g, a, payloads[..|payloads| - 1], last, created, content);
    assert payloads == payloads[..|payloads| - 1] + [last];
  }

  lemma FreshKeysFurther(payloads: seq<FreshContent>)
    requires payloads != []
    ensures FreshKeys(payloads) == FreshKeys(payloads[..|payloads| - 1]) + {payloads[|payloads| - 1].key}
  {
    assert payloads == payloads[..|payloads| - 1] + [payloads[|payloads| - 1]];
  }

  lemma AllBound(s: State, op: Operation, used: GrantUse, g: Grant, a: Authority, earlier: seq<FreshContent>, last: FreshContent,
                 created: map<ContentKey, RecordedContent>, content: RecordedContent)
    requires last.key !in created && content == RecordedOrigin(s, op, used, g, a, last)
    requires forall i :: 0 <= i < |earlier| ==> BoundAs(s, op, used, g, a, earlier[i], created)
    ensures var payloads := earlier + [last];
            forall i :: 0 <= i < |payloads| ==> BoundAs(s, op, used, g, a, payloads[i], created[last.key := content])
  {
    hide RecordedOrigin, BoundAs;
    var payloads := earlier + [last];
    BoundFirst(s, op, used, g, a, last, created, content);
    forall i | 0 <= i < |payloads| ensures BoundAs(s, op, used, g, a, payloads[i], created[last.key := content]) {
      if i < |earlier| {
        assert payloads[i] == earlier[i];
        BoundBeside(s, op, used, g, a, earlier[i], created, last.key, content);
      }
    }
  }

  lemma OneMoreKey(created: map<ContentKey, RecordedContent>, key: ContentKey, content: RecordedContent)
    requires key !in created
    ensures created[key := content].Keys == created.Keys + {key} && |created[key := content]| == |created| + 1
  {
    assert created[key := content].Keys == created.Keys + {key};
  }

  lemma BoundFirst(s: State, op: Operation, used: GrantUse, g: Grant, a: Authority, payload: FreshContent,
                   created: map<ContentKey, RecordedContent>, content: RecordedContent)
    requires content == RecordedOrigin(s, op, used, g, a, payload)
    ensures BoundAs(s, op, used, g, a, payload, created[payload.key := content])
  {
  }

  /** Contents are created exactly from payloads that are local, new and distinct, one for one. */
  lemma {:induction false} ContentsAreExact(s: State, op: Operation, used: GrantUse, g: Grant, a: Authority, payloads: seq<FreshContent>)
    ensures CreatedContents(s, op, used, g, a, payloads).Ok? <==> Bindable(s, payloads)
    ensures CreatedContents(s, op, used, g, a, payloads).Ok? ==>
              Bound(s, op, used, g, a, payloads, CreatedContents(s, op, used, g, a, payloads).value)
  {
    hide Bindable, Bound, RecordedOrigin;
    if payloads == [] {
      NothingBound(s, op, used, g, a);
    } else {
      var earlier := payloads[..|payloads| - 1];
      ContentsAreExact(s, op, used, g, a, earlier);
      BindableFurther(s, payloads);
      var created := CreatedContents(s, op, used, g, a, earlier);
      if created.Ok? {
        BoundKeys(s, op, used, g, a, earlier, created.value);
        if payloads[|payloads| - 1].key !in created.value {
          BoundFurther(s, op, used, g, a, payloads, created.value);
        }
      }
    }
  }

  lemma NothingBound(s: State, op: Operation, used: GrantUse, g: Grant, a: Authority)
    ensures Bindable(s, []) && Bound(s, op, used, g, a, [], map[])
  {
  }

  lemma BoundKeys(s: State, op: Operation, used: GrantUse, g: Grant, a: Authority, payloads: seq<FreshContent>,
                  created: map<ContentKey, RecordedContent>)
    requires Bound(s, op, used, g, a, payloads, created)
    ensures created.Keys == FreshKeys(payloads)
  {
  }

  /** The grant an operation may create under, with limits its payloads stay within. */
  ghost predicate Permitted(s: State, op: Operation, a: Authority) {
    && CreatingGrant(op.command).Some?
    && var g := GrantFor(s, CreatingGrant(op.command).value, a);
    && g.Ok? && g.value.spec.creation.Some?
    && |op.freshContent| <= U64_MAX && TotalBytes(op.freshContent) <= U64_MAX
    && ContentUsage(|op.freshContent|, TotalBytes(op.freshContent)).Within(g.value.spec.creation.value)
  }

  /**
   * Fresh content is admitted if and only if a live grant of the acting recipient allows that many items and bytes and
   * every payload is local, new and distinct; then exactly the payloads are bound, to this operation and this grant.
   */
  lemma CreationIsExact(s: State, op: Operation, a: Authority)
    requires op.freshContent != []
    ensures PrepareCreation(s, op, a).Ok? <==> Permitted(s, op, a) && Bindable(s, op.freshContent)
    ensures PrepareCreation(s, op, a).Ok? ==>
              && PrepareCreation(s, op, a).value.Some?
              && var c := PrepareCreation(s, op, a).value.value;
                 && c.usage == ContentUsage(|op.freshContent|, TotalBytes(op.freshContent))
                 && Bound(s, op, CreatingGrant(op.command).value, c.grant, a, op.freshContent, c.contentItems)
                 && GrantFor(s, CreatingGrant(op.command).value, a) == Ok(c.grant)
  {
    hide GrantFor, Measure, CreatedContents, CreatingGrant, Bound, Bindable;
    MeasureIsExact(op.freshContent);
    var used := CreatingGrant(op.command);
    if used.Some? && GrantFor(s, used.value, a).Ok? {
      ContentsAreExact(s, op, used.value, GrantFor(s, used.value, a).value, a, op.freshContent);
    }
  }

  /** Binds payload by payload, and stops at the first that is foreign, held or repeated. */
  method BindAll(s: State, op: Operation, used: GrantUse, g: Grant, a: Authority, payloads: seq<FreshContent>)
    returns (r: Checked<map<ContentKey, RecordedContent>>)
    ensures r == CreatedContents(s, op, used, g, a, payloads)
  {
    hide RecordedOrigin;
    var created: map<ContentKey, RecordedContent> := map[];
    var i := 0;
    while i < |payloads|
      invariant 0 <= i <= |payloads| && CreatedContents(s, op, used, g, a, payloads[..i]) == Ok(created)
    {
      hide CreatedContents;
      var payload := payloads[i];
      CreatedOneMore(s, op, used, g, a, payloads, i);
      if payload.key.establishing != s.identity.Key() {
        BindingRefused(s, op, used, g, a, payloads, i + 1);
        return Err(Unavailable);
      }
      if payload.key in s.contentItems || payload.key in created {
        BindingRefused(s, op, used, g, a, payloads, i + 1);
        return Err(Conflict);
      }
      created := created[payload.key := RecordedOrigin(s, op, used, g, a, payload)];
      i := i + 1;
    }
    assert payloads[..i] == payloads;
    r := Ok(created);
  }

  lemma CreatedOneMore(s: State, op: Operation, used: GrantUse, g: Grant, a: Authority, payloads: seq<FreshContent>, i: nat)
    requires i < |payloads| && CreatedContents(s, op, used, g, a, payloads[..i]).Ok?
    ensures var created, payload := CreatedContents(s, op, used, g, a, payloads[..i]).value, payloads[i];
            CreatedContents(s, op, used, g, a, payloads[..i + 1]) ==
            if payload.key.establishing != s.identity.Key() then Err(Unavailable)
            else if payload.key in s.contentItems || payload.key in created then Err(Conflict)
            else Ok(created[payload.key := RecordedOrigin(s, op, used, g, a, payload)])
  {
    hide RecordedOrigin;
    assert payloads[..i + 1][..i] == payloads[..i];
  }

  lemma {:induction false} BindingRefused(s: State, op: Operation, used: GrantUse, g: Grant, a: Authority, payloads: seq<FreshContent>, i: nat)
    requires i <= |payloads| && CreatedContents(s, op, used, g, a, payloads[..i]).Err?
    ensures CreatedContents(s, op, used, g, a, payloads) == Err(CreatedContents(s, op, used, g, a, payloads[..i]).error)
    decreases |payloads| - i
  {
    hide RecordedOrigin;
    if i == |payloads| {
      assert payloads[..i] == payloads;
    } else {
      assert payloads[..i + 1][..i] == payloads[..i];
      BindingRefused(s, op, used, g, a, payloads, i + 1);
    }
  }

  method Prepare(s: State, op: Operation, a: Authority) returns (r: Checked<Option<ContentCreation>>)
    ensures r == PrepareCreation(s, op, a)
  {
    hide GrantFor, Measure, CreatedContents, CreatingGrant;
    if op.freshContent == [] {
      return Ok(None);
    }
    var used := CreatingGrant(op.command);
    if used.None? {
      return Err(Denied);
    }
    var g := GrantFor(s, used.value, a);
    if g.Err? {
      return Err(g.error);
    }
    if g.value.spec.creation.None? {
      return Err(Denied);
    }
    var usage := MeasureAll(op.freshContent);
    if usage.Err? {
      return Err(usage.error);
    }
    if !usage.value.Within(g.value.spec.creation.value) {
      return Err(Denied);
    }
    var contents := BindAll(s, op, used.value, g.value, a, op.freshContent);
    r := if contents.Ok? then Ok(Some(ContentCreation(g.value, contents.value, usage.value))) else Err(contents.error);
  }
}

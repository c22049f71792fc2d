/** The final guard asks everything again: an append goes ahead exactly when the boundary still answers what the record says. */
module Revalidations {
  import opened Base
  import opened Model
  import opened Rules
  import opened Records
  import opened Change

  /** How a bound key is asked for again, from the record alone. */
  function AskedAgain(op: Option<Operation>, key: ContentKey, snapshot: IntakeSnapshot): Checked<IntakeRequest> {
    match snapshot.intakeCase
    case Fresh =>
      var payload := if op.Some? then FreshFor(op.value.freshContent, key) else None;
      if payload.Some? then Ok(FreshIntake(payload.value)) else Err(Invalid)
    case FirstRetention =>
      if op.Some? && key in op.value.firstRetention then Ok(RetentionIntake(key)) else Err(Invalid)
    case KnownReuse => Ok(ReuseIntake(key))
  }

  function ContentAgain(op: Option<Operation>, c: Checks, ports: Ports, key: ContentKey): Check
    requires key in c.contentItems
  {
    if key !in c.intakes then Fail(Invalid)
    else
      match AskedAgain(op, key, c.intakes[key])
      case Err(e) => Fail(e)
      case Ok(request) =>
        match ports.content(request)
        case Err(e) => Fail(e)
        case Ok(seen) => Need(seen.bytes == c.contentItems[key] && seen.sourceClaim == c.intakes[key].sourceClaim, Conflict)
  }

  ghost predicate SameContents(op: Option<Operation>, c: Checks, ports: Ports) {
    forall k :: k in c.contentItems ==> ContentAgain(op, c, ports, k).Pass?
  }

  ghost predicate SameGrounds(c: Checks, ports: Ports) {
    forall g :: g in c.grounds ==> ports.ground(g) == Ok(c.grounds[g])
  }

  /** The boundary still answers what the checks hold, allows the operation and its disclosure, and has the same context after it all. */
  ghost predicate Unchanged(op: Option<Operation>, c: Checks, ports: Ports, afterwards: Checked<Context>) {
    && ports.context == Ok(c.context)
    && SameContents(op, c, ports)
    && SameGrounds(c, ports)
    && (c.adaptation.Some? ==> ports.discretion == Ok(c.adaptation.value.1))
    && (c.native.Some? ==> ports.native == Ok(c.native.value.1))
    && (op.Some? ==> ports.authorize.Pass?)
    && ports.disclose.Pass?
    && afterwards == Ok(c.context)
  }

  method AskContents(op: Option<Operation>, c: Checks, ports: Ports) returns (r: Check)
    ensures r.Pass? <==> SameContents(op, c, ports)
  {
    hide InOrder, ContentAgain;
    var keys := InOrder(c.contentItems.Keys);
    InOrderVisitsAll(c.contentItems.Keys);
    var i := 0;
    while i < |keys|
      invariant 0 <= i <= |keys|
      invariant forall j :: 0 <= j < i ==> ContentAgain(op, c, ports, keys[j]).Pass?
    {
      r := ContentAgain(op, c, ports, keys[i]);
      if r.Fail? {
        return;
      }
      i := i + 1;
    }
    r := Pass;
    forall k | k in c.contentItems ensures ContentAgain(op, c, ports, k).Pass? {
      assert k in keys;
    }
  }

  method AskGrounds(c: Checks, ports: Ports) returns (r: Check)
    ensures r.Pass? <==> SameGrounds(c, ports)
  {
    hide Rising;
    var ids := Rising(c.grounds.Keys);
    RisingVisitsAll(c.grounds.Keys);
    var i := 0;
    while i < |ids|
      invariant 0 <= i <= |ids|
      invariant forall j :: 0 <= j < i ==> ports.ground(ids[j]) == Ok(c.grounds[ids[j]])
    {
      var version := ports.ground(ids[i]);
      if version.Err? {
        return Fail(version.error);
      }
      if version.value != c.grounds[ids[i]] {
        return Fail(Stale);
      }
      i := i + 1;
    }
    r := Pass;
    forall g | g in c.grounds ensures ports.ground(g) == Ok(c.grounds[g]) {
      assert g in ids;
    }
  }

  /** Context, contents, grounds, judgment, conditions, permission, disclosure, and the context once more, answered for itself. */
  method Revalidate(op: Option<Operation>, c: Checks, ports: Ports, afterwards: Checked<Context>) returns (r: Check)
    ensures r.Pass? <==> Unchanged(op, c, ports, afterwards)
  {
    hide SameContents, SameGrounds;
    if ports.context != Ok(c.context) {
      return Fail(if ports.context.Err? then ports.context.error else Stale);
    }
    r := AskContents(op, c, ports);
    if r.Fail? {
      return;
    }
    r := AskGrounds(c, ports);
    if r.Fail? {
      return;
    }
    if c.adaptation.Some? && ports.discretion != Ok(c.adaptation.value.1) {
      return Fail(if ports.discretion.Err? then ports.discretion.error else Stale);
    }
    if c.native.Some? && ports.native != Ok(c.native.value.1) {
      return Fail(if ports.native.Err? then ports.native.error else Stale);
    }
    if op.Some? && ports.authorize.Fail? {
      return ports.authorize;
    }
    if ports.disclose.Fail? {
      return ports.disclose;
    }
    if afterwards != Ok(c.context) {
      return Fail(if afterwards.Err? then afterwards.error else Stale);
    }
    r := Pass;
  }

  // ----- what was collected from a boundary is what it answers again

  lemma OneContentAgain(s: State, op: Operation, key: ContentKey, ports: Ports, c: Checks)
    requires GatheredOne(s, Some(op), key, ports, c).Ok? && SameContents(Some(op), c, ports)
    ensures SameContents(Some(op), GatheredOne(s, Some(op), key, ports, c).value, ports)
  {
    hide CheckIntake, PriorBinding, SameContents;
    var next := GatheredOne(s, Some(op), key, ports, c).value;
    if key !in c.contentItems {
      TakenAgain(s, op, key, ports, next);
      OthersAgain(Some(op), c, next, ports, key);
    }
  }

  lemma TakenAgain(s: State, op: Operation, key: ContentKey, ports: Ports, next: Checks)
    requires Intake(s, Some(op), key, ports).Ok? && key in next.contentItems && key in next.intakes
    requires (next.contentItems[key], next.intakes[key]) == Intake(s, Some(op), key, ports).value
    ensures ContentAgain(Some(op), next, ports, key).Pass?
  {
    hide CheckIntake, PriorBinding;
  }

  lemma OthersAgain(op: Option<Operation>, c: Checks, next: Checks, ports: Ports, key: ContentKey)
    requires SameContents(op, c, ports) && key in next.contentItems && ContentAgain(op, next, ports, key).Pass?
    requires next.contentItems == c.contentItems[key := next.contentItems[key]]
    requires key in next.intakes && next.intakes == c.intakes[key := next.intakes[key]]
    ensures SameContents(op, next, ports)
  {
    forall k | k in next.contentItems ensures ContentAgain(op, next, ports, k).Pass? {
      assert k != key ==> ContentAgain(op, c, ports, k).Pass?;
    }
  }

  lemma {:induction false} GatheredAgain(s: State, op: Operation, keys: seq<ContentKey>, ports: Ports, c: Checks)
    requires Gathered(s, Some(op), keys, ports, c).Ok? && SameContents(Some(op), c, ports)
    ensures var d := Gathered(s, Some(op), keys, ports, c).value;
            SameContents(Some(op), d, ports) && d == c.(contentItems := d.contentItems, intakes := d.intakes)
    decreases |keys|
  {
    hide SameContents, Intake;
    if keys != [] {
      OneContentAgain(s, op, keys[0], ports, c);
      GatheredAgain(s, op, keys[1..], ports, GatheredOne(s, Some(op), keys[0], ports, c).value);
    }
  }

  lemma {:induction false} ObservedAgain(ids: seq<GroundId>, ports: Ports, c: Checks)
    requires ObservedGrounds(ids, ports, c).Ok? && SameGrounds(c, ports)
    ensures var d := ObservedGrounds(ids, ports, c).value; SameGrounds(d, ports) && d == c.(grounds := d.grounds)
    decreases |ids|
  {
    if ids != [] {
      ObservedAgain(ids[1..], ports, c.(grounds := c.grounds[ids[0] := ports.ground(ids[0]).value]));
    }
  }

  lemma SameContentsOf(op: Option<Operation>, c: Checks, d: Checks, ports: Ports)
    requires SameContents(op, c, ports) && d.contentItems == c.contentItems && d.intakes == c.intakes
    ensures SameContents(op, d, ports)
  {
    forall k | k in d.contentItems ensures ContentAgain(op, d, ports, k).Pass? {
      assert ContentAgain(op, c, ports, k).Pass?;
    }
  }

  /** What the judgment and the conditions add is what the boundary answers about them. */
  ghost predicate Asked(op: Operation, c: Checks, ports: Ports) {
    && SameContents(Some(op), c, ports)
    && SameGrounds(c, ports)
    && (c.adaptation.Some? ==> ports.discretion == Ok(c.adaptation.value.1))
    && (c.native.Some? ==> ports.native == Ok(c.native.value.1))
  }

  lemma AdaptationAsked(s: State, op: Operation, c: Checks, ports: Ports)
    requires CollectAdaptation(s, op, c, ports).Ok? && Asked(op, c, ports)
    ensures Asked(op, CollectAdaptation(s, op, c, ports).value, ports)
    ensures CollectAdaptation(s, op, c, ports).value.context == c.context
  {
    hide SameContents, Gathered;
    if op.command.Adapt? {
      var judgment := ports.discretion.value;
      var keys := if judgment.WithinDiscretion? then EvidenceOrder([judgment.evidence]) else [];
      GatheredAgain(s, op, keys, ports, c);
      SameContentsOf(Some(op), Gathered(s, Some(op), keys, ports, c).value, CollectAdaptation(s, op, c, ports).value, ports);
    }
  }

  lemma NativeAsked(s: State, op: Operation, c: Checks, ports: Ports)
    requires CollectNative(s, op, c, ports).Ok? && Asked(op, c, ports)
    ensures Asked(op, CollectNative(s, op, c, ports).value, ports)
    ensures CollectNative(s, op, c, ports).value.context == c.context
  {
    hide SameContents, Gathered, ActionOf;
    if ActionOf(s, op.command).value.Some? {
      var keys := EvidenceOrder(ports.native.value.evidence);
      GatheredAgain(s, op, keys, ports, c);
      SameContentsOf(Some(op), Gathered(s, Some(op), keys, ports, c).value, CollectNative(s, op, c, ports).value, ports);
    }
  }

  /** Checks collected for an operation pass the final guard of the same boundary exactly when it permits, discloses and keeps its context to the end. */
  lemma CollectedIsUnchanged(l: Ledger, op: Operation, ports: Ports, afterwards: Checked<Context>)
    requires OpenChecks(l.state, op.id, ports).Ok? && Collect(l, op, OpenChecks(l.state, op.id, ports).value, ports).Ok?
    ensures Unchanged(Some(op), Collect(l, op, OpenChecks(l.state, op.id, ports).value, ports).value, ports, afterwards)
       <==> ports.authorize.Pass? && ports.disclose.Pass? && afterwards == ports.context
  {
    hide SameContents, SameGrounds, Gathered, ObservedGrounds, CollectAdaptation, CollectNative, Requirements, PrepareCreation, Rising, InOrder,
      DerivedOrder, TermReferences;
    var start := OpenChecks(l.state, op.id, ports).value;
    var created := start.(creation := PrepareCreation(l.state, op, start.context.authority).value);
    NothingAsked(op, created, ports);
    var needs := Requirements(l.state, op.command).value;
    var keys := InOrder(needs.contents) + DerivedOrder(op.freshContent);
    GatheredAgain(l.state, op, keys, ports, created);
    var required := Gathered(l.state, Some(op), keys, ports, created).value;
    SameGroundsOf(created, required, ports);
    ObservedAgain(Rising(needs.grounds), ports, required);
    var grounded := ObservedGrounds(Rising(needs.grounds), ports, required).value;
    SameContentsOf(Some(op), required, grounded, ports);
    AdaptationAsked(l.state, op, grounded, ports);
    NativeAsked(l.state, op, CollectAdaptation(l.state, op, grounded, ports).value, ports);
  }

  lemma NothingAsked(op: Operation, c: Checks, ports: Ports)
    requires c.contentItems == map[] && c.grounds == map[]
    ensures SameContents(Some(op), c, ports) && SameGrounds(c, ports)
  {
  }

  lemma SameGroundsOf(c: Checks, d: Checks, ports: Ports)
    requires SameGrounds(c, ports) && d.grounds == c.grounds
    ensures SameGrounds(d, ports)
  {
  }
}

/** Cumulative reservations: everything the adapter decodes or builds is paid for before it is touched. */
module Works {
  import opened Base
  import opened Projections
  import Wire

  const MIB: nat := 1024 * 1024
  const REQUEST_BYTES: nat := 32 * 1024
  const REPLY_FRAME_BYTES: nat := 32 * 1024

  /** What a caller still allows. */
  datatype Limits = Limits(sourceBytes: nat, ioBytes: nat, allocationBytes: nat, workUnits: nat) {
    predicate Valid() {
      && 0 < sourceBytes <= 64 * MIB
      && 0 < ioBytes <= 1024 * MIB
      && 0 < allocationBytes <= 2048 * MIB
      && 0 < workUnits <= 2048 * MIB
    }
  }

  /** The adapter's own budget beside the caller's. */
  datatype Budget = Budget(allocation: nat, units: nat, remaining: Limits) {
    predicate Covers(bytes: nat, work: nat) {
      bytes <= allocation && bytes <= remaining.allocationBytes && work <= units && work <= remaining.workUnits
    }

    function Less(bytes: nat, work: nat): Budget
      requires Covers(bytes, work)
    {
      Budget(allocation - bytes, units - work,
             remaining.(allocationBytes := remaining.allocationBytes - bytes, workUnits := remaining.workUnits - work))
    }

    predicate Within(other: Budget) {
      && allocation <= other.allocation && units <= other.units
      && remaining.sourceBytes == other.remaining.sourceBytes && remaining.ioBytes == other.remaining.ioBytes
      && remaining.allocationBytes <= other.remaining.allocationBytes && remaining.workUnits <= other.remaining.workUnits
    }
  }

  class Work {
    var allocation: nat
    var units: nat
    var remaining: Limits

    ghost function View(): Budget
      reads this
    {
      Budget(allocation, units, remaining)
    }

    constructor (remaining: Limits)
      ensures View() == Budget(1536 * MIB, 64 * MIB, remaining)
    {
      allocation, units, this.remaining := 1536 * MIB, 64 * MIB, remaining;
    }

    /** Debits both budgets, or refuses; a refused reservation may have debited part of it and gives nothing back. */
    method Reserve(bytes: nat, work: nat) returns (r: Outcome<AdapterError>)
      modifies this
      ensures r.Pass? <==> old(View()).Covers(bytes, work)
      ensures r.Pass? ==> View() == old(View()).Less(bytes, work)
      ensures r.Fail? ==> r.error == OverLimit && View().Within(old(View()))
    {
      if bytes > allocation {
        return Fail(OverLimit);
      }
      allocation := allocation - bytes;
      if work > units {
        return Fail(OverLimit);
      }
      units := units - work;
      if bytes > remaining.allocationBytes {
        return Fail(OverLimit);
      }
      remaining := remaining.(allocationBytes := remaining.allocationBytes - bytes);
      if work > remaining.workUnits {
        return Fail(OverLimit);
      }
      remaining := remaining.(workUnits := remaining.workUnits - work);
      r := Pass;
    }

    method Request(bytes: nat) returns (r: Outcome<AdapterError>)
      modifies this
      ensures r.Pass? <==> bytes <= REQUEST_BYTES && old(View()).Covers(MIB + bytes * 32768, bytes * 512)
      ensures r.Pass? ==> View() == old(View()).Less(MIB + bytes * 32768, bytes * 512)
      ensures View().Within(old(View()))
    {
      if bytes > REQUEST_BYTES {
        return Fail(OverLimit);
      }
      r := Reserve(MIB + bytes * 32768, bytes * 512);
    }

    /** What is reserved for a reply pays sixteen times the cost of any body of that length, under any schema. */
    method Reply(bytes: nat) returns (r: Outcome<AdapterError>)
      modifies this
      ensures r.Pass? <==> bytes <= REPLY_FRAME_BYTES && old(View()).Covers(Wire.Reservation(bytes) * 16, bytes * 512)
      ensures View().Within(old(View()))
      ensures r.Pass? ==> forall table, schema, depth, body | |body| == bytes && Wire.Census(table, schema, depth, body).Ok? ::
                            16 * CensusCost(table, schema, depth, body) <= old(allocation) - allocation
    {
      hide Wire.Census;
      if bytes > REPLY_FRAME_BYTES {
        return Fail(OverLimit);
      }
      r := Reserve(Wire.Reservation(bytes) * 16, bytes * 512);
      if r.Pass? {
        forall table, schema, depth, body | |body| == bytes && Wire.Census(table, schema, depth, body).Ok?
          ensures CensusCost(table, schema, depth, body) <= Wire.Reservation(bytes)
        {
          Wire.ReservationCovers(table, schema, depth, body);
        }
      }
    }

    /** What is reserved for output pays for any value the projection may build, and twice for its text. */
    method Output() returns (r: Outcome<AdapterError>)
      modifies this
      ensures r.Pass? <==> old(View()).Covers(OUTPUT_ALLOCATION + OUTPUT_BYTES * 2, 8 * MIB)
      ensures View().Within(old(View()))
      ensures r.Pass? ==> forall p | Projectable(p) ::
                            CostOf(p).allocation + 2 * |Rendered(ValueOf(p))| <= old(allocation) - allocation
    {
      hide CostOf, Rendered, ValueOf;
      r := Reserve(OUTPUT_ALLOCATION + OUTPUT_BYTES * 2, 8 * MIB);
      if r.Pass? {
        forall p | Projectable(p) ensures CostOf(p).allocation + 2 * |Rendered(ValueOf(p))| <= OUTPUT_ALLOCATION + OUTPUT_BYTES * 2 {
          TextLength(p);
        }
      }
    }
  }

  method TryNew(remaining: Limits) returns (r: Result<Work, AdapterError>)
    ensures r.Ok? <==> remaining.Valid()
    ensures r.Ok? ==> fresh(r.value) && r.value.View() == Budget(1536 * MIB, 64 * MIB, remaining)
    ensures r.Err? ==> r.error == OverLimit
  {
    if !remaining.Valid() {
      return Err(OverLimit);
    }
    var work := new Work(remaining);
    r := Ok(work);
  }

  function CensusCost(table: Wire.Table, schema: Wire.Schema, depth: nat, body: Bytes): nat
    requires Wire.Census(table, schema, depth, body).Ok?
  {
    var c := Wire.Census(table, schema, depth, body).value;
    c.Slots() + c.payload
  }

  /** The plans a full output ceiling admits. */
  ghost predicate Projectable(p: Plan) {
    Named(p) && CostOf(p).Within(Cost(OUTPUT_BYTES, OUTPUT_NODES, OUTPUT_ALLOCATION))
  }

  // ----- any sequence of reservations

  function Total(reservations: seq<(nat, nat)>): (nat, nat) {
    if reservations == [] then (0, 0)
    else
      var before := Total(reservations[..|reservations| - 1]);
      var last := reservations[|reservations| - 1];
      (before.0 + last.0, before.1 + last.1)
  }

  /** The budget after reservations that all passed. */
  function AfterAll(b: Budget, reservations: seq<(nat, nat)>): Option<Budget> {
    if reservations == [] then Some(b)
    else
      var before := AfterAll(b, reservations[..|reservations| - 1]);
      var last := reservations[|reservations| - 1];
      if before.Some? && before.value.Covers(last.0, last.1) then Some(before.value.Less(last.0, last.1)) else None
  }

  /** Reservations all pass exactly when their totals fit both budgets, and then exactly the totals are gone from both. */
  lemma {:induction false} TotalsDecide(b: Budget, reservations: seq<(nat, nat)>)
    ensures var t := Total(reservations); AfterAll(b, reservations) == if b.Covers(t.0, t.1) then Some(b.Less(t.0, t.1)) else None
  {
    if reservations != [] {
      TotalsDecide(b, reservations[..|reservations| - 1]);
    }
  }
}

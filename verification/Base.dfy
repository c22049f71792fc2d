/** Result types, bounded integers and ordered iteration shared by every other module. */
module Base {

  const U64_MAX: nat := 0xFFFF_FFFF_FFFF_FFFF

  type Byte = x: nat | x < 256
  type Bytes = seq<Byte>

  datatype Option<+T> = None | Some(value: T)

  /** A computed value or the error that stopped the computation. */
  datatype Result<+T, +E> = Ok(value: T) | Err(error: E) {
    predicate IsFailure() {
      Err?
    }

    function PropagateFailure<U>(): Result<U, E>
      requires Err?
    {
      Err(error)
    }

    function Extract(): T
      requires Ok?
    {
      value
    }
  }

  /** The result of a check that produces no value. */
  datatype Outcome<+E> = Pass | Fail(error: E) {
    predicate IsFailure() {
      Fail?
    }

    function PropagateFailure<U>(): Result<U, E>
      requires Fail?
    {
      Err(error)
    }
  }

  function Need<E>(condition: bool, error: E): Outcome<E> {
    if condition then Pass else Fail(error)
  }

  function Found<K, T, E>(m: map<K, T>, key: K, error: E): Result<T, E> {
    if key in m then Ok(m[key]) else Err(error)
  }

  function Elements<T>(items: seq<T>): set<T> {
    set x | x in items
  }

  // ----- ordered iteration over identifiers

  predicate StrictlyRising(ids: seq<nat>) {
    forall i, j :: 0 <= i < j < |ids| ==> ids[i] < ids[j]
  }

  ghost predicate IsLeast(m: nat, ids: set<nat>) {
    m in ids && forall y :: y in ids ==> m <= y
  }

  lemma LeastExists(ids: set<nat>)
    requires ids != {}
    ensures exists m :: IsLeast(m, ids)
  {
    var x :| x in ids;
    var rest := ids - {x};
    if rest == {} {
      assert ids == {x};
      assert IsLeast(x, ids);
    } else {
      LeastExists(rest);
      var m :| IsLeast(m, rest);
      var least := if x <= m then x else m;
      assert forall y :: y in ids ==> y == x || y in rest;
      assert IsLeast(least, ids);
    }
  }

  function Least(ids: set<nat>): (m: nat)
    requires ids != {}
    ensures IsLeast(m, ids)
  {
    LeastExists(ids);
    assert exists m :: m in ids && forall y :: y in ids ==> m <= y by {
      var m :| IsLeast(m, ids);
    }
    var m :| m in ids && forall y :: y in ids ==> m <= y;
    m
  }

  /** The members of a set of identifiers in rising order, as a BTreeMap visits its keys. */
  function Rising(ids: set<nat>): (r: seq<nat>)
    decreases ids
  {
    if ids == {} then []
    else
      var m := Least(ids);
      [m] + Rising(ids - {m})
  }

  lemma {:induction false} RisingVisitsAll(ids: set<nat>)
    ensures forall x :: x in Rising(ids) <==> x in ids
    ensures StrictlyRising(Rising(ids))
    decreases ids
  {
    if ids != {} {
      var m := Least(ids);
      var tail := Rising(ids - {m});
      RisingVisitsAll(ids - {m});
      assert Rising(ids) == [m] + tail;
      forall i, j | 0 <= i < j < |Rising(ids)| ensures Rising(ids)[i] < Rising(ids)[j] {
        assert tail[j - 1] in tail;
      }
    }
  }

  /** A durable step lands, misses, or lands while the caller sees an error or the process stops. */
  datatype Landing = Lands | Misses | LandsUnseen
}

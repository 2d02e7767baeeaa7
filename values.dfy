/** Data-point values as the device cache holds them, with the parts of
    Python's value semantics that the cache logic relies on: `==` between a
    bool and an int (True == 1), dictionary equality, truthiness and
    `dict.get`. */
module Values {

  datatype Option<+T> = None | Some(value: T) {
    /** `value if present else default`. */
    function GetOr(default: T): T {
      if Some? then value else default
    }
  }

  datatype Result<+T, +E> = Success(value: T) | Failure(error: E)

  /** A DP value: the scalars a device reports (floats are not modelled). */
  datatype DpValue = NoneV | BoolV(b: bool) | IntV(i: int) | StrV(s: string)

  /** A status map keyed by DP-id string, e.g. a device's `_status`. */
  type Status = map<string, DpValue>

  /** The marker status `{"0": "restore"}` (`RESTORE_STATES`). */
  const RestoreStates: Status := map["0" := StrV("restore")]

  /** Python's `a == b` on two DP values: a bool equals the int 0 or 1. */
  predicate PyEq(a: DpValue, b: DpValue) {
    match (a, b)
    case (BoolV(x), IntV(n)) => n == (if x then 1 else 0)
    case (IntV(n), BoolV(x)) => n == (if x then 1 else 0)
    case _ => a == b
  }

  /** Python's `bool(v)`. */
  predicate Truthy(v: DpValue) {
    match v
    case NoneV => false
    case BoolV(b) => b
    case IntV(n) => n != 0
    case StrV(s) => s != ""
  }

  /** Python's truthiness of an optional string (None and "" are false). */
  predicate Present(s: Option<string>) {
    s.Some? && s.value != ""
  }

  /** Python's `a == b` on two status dictionaries. */
  predicate SameStatus(a: Status, b: Status) {
    a.Keys == b.Keys && forall k :: k in a ==> PyEq(a[k], b[k])
  }

  /** `a.update(b)` on dictionaries: every key of either, `b`'s value
      winning where both have one. */
  function Merge(a: Status, b: Status): Status {
    a + b
  }

  /** After `a.update(b)` the keys are those of either; a key of `b` has
      `b`'s value, any other key keeps `a`'s. */
  lemma MergeUpdates(a: Status, b: Status)
    ensures Merge(a, b).Keys == a.Keys + b.Keys
    ensures forall k :: k in b ==> Merge(a, b)[k] == b[k]
    ensures forall k :: k in a && k !in b ==> Merge(a, b)[k] == a[k]
  {
  }

  /** `m.get(k)`: the value under `k`, or None. */
  function Get(m: map<string, DpValue>, k: string): (v: DpValue)
    ensures k in m ==> v == m[k]
    ensures k !in m ==> v == NoneV
  {
    if k in m then m[k] else NoneV
  }

  /** Python equality is an equivalence, and on values of one kind it is
      plain equality; so comparing caches with SameStatus is sound. */
  lemma PyEqEquivalence(a: DpValue, b: DpValue, c: DpValue)
    ensures PyEq(a, a)
    ensures PyEq(a, b) ==> PyEq(b, a)
    ensures PyEq(a, b) && PyEq(b, c) ==> PyEq(a, c)
    ensures PyEq(a, b) && a.StrV? ==> a == b
    ensures PyEq(a, b) && a.NoneV? ==> a == b
  {
  }

  /** A dictionary is Python-equal to itself. */
  lemma SameStatusReflexive(a: Status)
    ensures SameStatus(a, a)
  {
  }
}

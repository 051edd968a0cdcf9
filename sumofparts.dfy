/**
 * `sum_of_parts`: move six body parts of every pose by fixed offsets, so
 * the pose's parts no longer sit where the body put them.
 */
module SumOfParts {
  import opened Wrappers
  import opened MotionData

  /** A translation vector `[x, y, z]`. */
  type Vec3 = (real, real, real)

  /** The parts moved, in the order `anonymize` moves them, with their offsets. */
  const Moves: seq<(string, Vec3)> := [
    ("right_leg", (0.0, 500.0, 1000.0)),
    ("left_leg", (0.0, -500.0, 0.0)),
    ("torso", (0.0, -500.0, -500.0)),
    ("head", (0.0, 500.0, -1000.0)),
    ("left_arm", (0.0, -500.0, 500.0)),
    ("right_arm", (0.0, 500.0, -500.0))
  ]

  /** What offset component o of v adds to column j when it lands on position c. */
  function Term(c: int, n: nat, j: int, x: real): real {
    if InRange(c, n) && Wrap(c, n) == j then x else 0.0
  }

  /** What moving marker m by v adds to column j of a pose of length n. */
  function MarkerShift(m: int, v: Vec3, n: nat, j: int): real {
    Term(3 * m, n, j, v.0) + Term(3 * m + 1, n, j, v.1) + Term(3 * m + 2, n, j, v.2)
  }

  /** What moving the first k markers of ms by v adds to column j. */
  function Shift(ms: seq<int>, k: nat, v: Vec3, n: nat, j: int): real
    requires k <= |ms|
  {
    if k == 0 then 0.0 else Shift(ms, k - 1, v, n, j) + MarkerShift(ms[k - 1], v, n, j)
  }

  /** Every coordinate of marker m is a valid position in a pose of length n. */
  predicate MarkerFits(m: int, n: nat) {
    InRange(3 * m, n) && InRange(3 * m + 1, n) && InRange(3 * m + 2, n)
  }

  /** Moving marker m by v adds each component of v to its own coordinate of m. */
  lemma MarkerMoved(m: int, v: Vec3, n: nat)
    requires MarkerFits(m, n)
    ensures MarkerShift(m, v, n, Wrap(3 * m, n)) == v.0
    ensures MarkerShift(m, v, n, Wrap(3 * m + 1, n)) == v.1
    ensures MarkerShift(m, v, n, Wrap(3 * m + 2, n)) == v.2
  {
  }

  /** The markers of ms, from the k-th on, reach only columns other than j. */
  predicate Misses(ms: seq<int>, v: Vec3, n: nat, j: int) {
    forall q :: 0 <= q < |ms| ==> (
      !(InRange(3 * ms[q], n) && Wrap(3 * ms[q], n) == j) &&
      !(InRange(3 * ms[q] + 1, n) && Wrap(3 * ms[q] + 1, n) == j) &&
      !(InRange(3 * ms[q] + 2, n) && Wrap(3 * ms[q] + 2, n) == j))
  }

  /** Markers that never reach column j leave it where it was. */
  lemma {:induction false} ShiftMisses(ms: seq<int>, k: nat, v: Vec3, n: nat, j: int)
    requires k <= |ms| && Misses(ms, v, n, j)
    ensures Shift(ms, k, v, n, j) == 0.0
  {
    if k > 0 {
      ShiftMisses(ms, k - 1, v, n, j);
    }
  }

  /** The loop body of `translate_points`: the three coordinates of marker m in row i get v added. */
  method MoveMarker(data: array2<real>, i: int, m: int, v: Vec3)
    requires 0 <= i < data.Length0 && MarkerFits(m, data.Length1)
    modifies data
    ensures forall r, j :: 0 <= r < data.Length0 && 0 <= j < data.Length1 ==>
      data[r, j] == old(data[r, j]) + (if r == i then MarkerShift(m, v, data.Length1, j) else 0.0)
  {
    var n := data.Length1;
    var a, b, c := Wrap(3 * m, n), Wrap(3 * m + 1, n), Wrap(3 * m + 2, n);
    data[i, a] := data[i, a] + v.0;
    data[i, b] := data[i, b] + v.1;
    data[i, c] := data[i, c] + v.2;
  }

  /**
   * `translate_points(pose, ms, v)` on the pose in row i: every coordinate
   * of every marker in ms gets v added, one marker after another. A
   * position outside the pose raises IndexError.
   */
  method Translate(data: array2<real>, i: int, ms: seq<int>, v: Vec3) returns (err: Option<Error>)
    requires 0 <= i < data.Length0
    modifies data
    ensures err.Some? <==> exists q :: 0 <= q < |ms| && !MarkerFits(ms[q], data.Length1)
    ensures err.Some? ==> err == Some(IndexError)
    ensures err.None? ==> forall r, j :: 0 <= r < data.Length0 && 0 <= j < data.Length1 ==>
      data[r, j] == old(data[r, j]) + (if r == i then Shift(ms, |ms|, v, data.Length1, j) else 0.0)
  {
    var n := data.Length1;
    var k := 0;
    assert forall j :: Shift(ms, 0, v, n, j) == 0.0;
    while k < |ms|
      invariant 0 <= k <= |ms|
      invariant forall q :: 0 <= q < k ==> MarkerFits(ms[q], n)
      invariant forall r, j :: 0 <= r < data.Length0 && 0 <= j < n ==>
        data[r, j] == old(data[r, j]) + (if r == i then Shift(ms, k, v, n, j) else 0.0)
    {
      var m := ms[k];
      if !MarkerFits(m, n) {
        return Some(IndexError);
      }
      MoveMarker(data, i, m, v);
      k := k + 1;
    }
    return None;
  }

  /** The first failure moving the first p parts of a pose of length n meets, if any. */
  function Failure(parts: PartMap, n: nat, p: nat): (e: Option<Error>)
    requires p <= |Moves|
    ensures e.Some? ==> e.value == IndexError || exists q :: 0 <= q < p && e.value == KeyError(Moves[q].0)
  {
    if p == 0 then None
    else if Failure(parts, n, p - 1).Some? then Failure(parts, n, p - 1)
    else match Lookup(parts, Moves[p - 1].0)
      case Err(e) => Some(e)
      case Ok(ms) => if exists q :: 0 <= q < |ms| && !MarkerFits(ms[q], n) then Some(IndexError) else None
  }

  /** No failure in the first p parts means none in fewer. */
  lemma {:induction false} FailureEarlier(parts: PartMap, n: nat, p: nat, q: nat)
    requires q <= p <= |Moves| && Failure(parts, n, p).None?
    ensures Failure(parts, n, q).None?
    decreases p - q
  {
    if q < p {
      FailureEarlier(parts, n, p - 1, q);
    }
  }

  /** Once moving the first p parts fails, moving more parts fails the same way. */
  lemma {:induction false} FailureLater(parts: PartMap, n: nat, p: nat, q: nat)
    requires p <= q <= |Moves| && Failure(parts, n, p).Some?
    ensures Failure(parts, n, q) == Failure(parts, n, p)
    decreases q - p
  {
    if p < q {
      FailureLater(parts, n, p, q - 1);
    }
  }

  /** What moving the first p parts adds to column j. */
  function TotalShift(parts: PartMap, n: nat, p: nat, j: int): real
    requires p <= |Moves| && Failure(parts, n, p).None?
  {
    if p == 0 then 0.0
    else
      var ms := Lookup(parts, Moves[p - 1].0).value;
      TotalShift(parts, n, p - 1, j) + Shift(ms, |ms|, Moves[p - 1].1, n, j)
  }

  /** A column no marker of the six parts reaches keeps its value. */
  lemma {:induction false} Untouched(parts: PartMap, n: nat, p: nat, j: int)
    requires p <= |Moves| && Failure(parts, n, p).None?
    requires forall q :: 0 <= q < p ==> Lookup(parts, Moves[q].0).Ok? && Misses(Lookup(parts, Moves[q].0).value, Moves[q].1, n, j)
    ensures TotalShift(parts, n, p, j) == 0.0
  {
    if p > 0 {
      var ms := Lookup(parts, Moves[p - 1].0).value;
      Untouched(parts, n, p - 1, j);
      ShiftMisses(ms, |ms|, Moves[p - 1].1, n, j);
    }
  }

  /** The six translations of `anonymize`'s loop body on the pose in row i. */
  method MovePose(data: array2<real>, i: int, parts: PartMap) returns (err: Option<Error>)
    requires 0 <= i < data.Length0
    modifies data
    ensures err == Failure(parts, data.Length1, |Moves|)
    ensures err.None? ==> forall r, j :: 0 <= r < data.Length0 && 0 <= j < data.Length1 ==>
      data[r, j] == old(data[r, j]) + (if r == i then TotalShift(parts, data.Length1, |Moves|, j) else 0.0)
  {
    var n := data.Length1;
    var p := 0;
    assert forall j :: TotalShift(parts, n, 0, j) == 0.0;
    while p < |Moves|
      invariant 0 <= p <= |Moves| && Failure(parts, n, p).None?
      invariant forall r, j :: 0 <= r < data.Length0 && 0 <= j < n ==>
        data[r, j] == old(data[r, j]) + (if r == i then TotalShift(parts, n, p, j) else 0.0)
    {
      var ms := Lookup(parts, Moves[p].0);
      if ms.Err? {
        FailureLater(parts, n, p + 1, |Moves|);
        return Some(ms.error);
      }
      err := Translate(data, i, ms.value, Moves[p].1);
      if err.Some? {
        FailureLater(parts, n, p + 1, |Moves|);
        return err;
      }
      p := p + 1;
    }
    return None;
  }

  /**
   * `anonymize`: every pose in turn gets the six translations, in place.
   * Whatever fails fails on the first pose; with no pose nothing fails.
   */
  method Anonymize(data: array2<real>, parts: PartMap) returns (err: Option<Error>)
    modifies data
    ensures data.Length0 == 0 ==> err.None?
    ensures data.Length0 > 0 ==> err == Failure(parts, data.Length1, |Moves|)
    ensures err.None? ==> forall r, j :: 0 <= r < data.Length0 && 0 <= j < data.Length1 ==>
      Failure(parts, data.Length1, |Moves|).None? && data[r, j] == old(data[r, j]) + TotalShift(parts, data.Length1, |Moves|, j)
  {
    var n := data.Length1;
    var i := 0;
    while i < data.Length0
      invariant 0 <= i <= data.Length0
      invariant i > 0 ==> Failure(parts, n, |Moves|).None?
      invariant forall r, j :: 0 <= r < data.Length0 && 0 <= j < n ==>
        data[r, j] == old(data[r, j]) + (if r < i then TotalShift(parts, n, |Moves|, j) else 0.0)
    {
      err := MovePose(data, i, parts);
      if err.Some? {
        return err;
      }
      i := i + 1;
    }
    return None;
  }
}

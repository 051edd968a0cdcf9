/**
 * Motion-capture recordings as the motion anonymizations see them: one
 * row per pose, three coordinates per marker, marker m in columns 3m,
 * 3m + 1 and 3m + 2. Coordinates are floats in the system; here they are
 * exact reals.
 */
module MotionData {
  import opened Wrappers

  /** One pose, as a row of coordinates. */
  type Frame = seq<real>

  /**
   * `body_parts_to_marker` from the dataset's original metadata: part
   * names with their marker numbers, in the dictionary's order.
   */
  type PartMap = seq<(string, seq<int>)>

  /** `body_parts_to_marker[name]`: the markers of the first entry so named. */
  function Lookup(parts: PartMap, name: string): (r: Result<seq<int>>)
    ensures r.Ok? <==> exists k :: 0 <= k < |parts| && parts[k].0 == name
    ensures r.Ok? ==> exists k :: 0 <= k < |parts| && parts[k] == (name, r.value)
    ensures r.Err? ==> r.error == KeyError(name)
  {
    if |parts| == 0 then Err(KeyError(name))
    else if parts[0].0 == name then Ok(parts[0].1)
    else
      var r := Lookup(parts[1..], name);
      assert forall k :: 1 <= k < |parts| ==> parts[k] == parts[1..][k - 1];
      r
  }

  /** No part is named twice, as in any dictionary. */
  predicate UniqueNames(parts: PartMap) {
    forall a, b :: 0 <= a < b < |parts| ==> parts[a].0 != parts[b].0
  }

  /** With unique names, looking a part's name up finds that part. */
  lemma LookupUnique(parts: PartMap, k: int)
    requires UniqueNames(parts) && 0 <= k < |parts|
    ensures Lookup(parts, parts[k].0) == Ok(parts[k].1)
  {
    var r := Lookup(parts, parts[k].0);
    var q :| 0 <= q < |parts| && parts[q] == (parts[k].0, r.value);
    assert q == k;
  }

  /** Position c is a valid index into a row of length n (negative ones count from the end). */
  predicate InRange(c: int, n: nat) {
    -(n as int) <= c < n
  }

  /** The column Python's `row[c]` reaches. */
  function Wrap(c: int, n: nat): (j: int)
    requires InRange(c, n)
    ensures 0 <= j < n && (j == c || j == c + n)
  {
    if c < 0 then c + n else c
  }

  /** The pose in row i. */
  function Row(data: array2<real>, i: int): (f: Frame)
    requires 0 <= i < data.Length0
    reads data
    ensures |f| == data.Length1 && forall j :: 0 <= j < |f| ==> f[j] == data[i, j]
  {
    seq(data.Length1, j requires 0 <= j < data.Length1 reads data => data[i, j])
  }

  /** Every pose, in order. */
  function Rows(data: array2<real>): (rs: seq<Frame>)
    reads data
    ensures |rs| == data.Length0 && forall i :: 0 <= i < |rs| ==> rs[i] == Row(data, i)
  {
    seq(data.Length0, i requires 0 <= i < data.Length0 reads data => Row(data, i))
  }

  // ----- pose arithmetic, as numpy does it row-wise -----

  /** All rows have w columns, as in a two-dimensional array. */
  predicate Rect(rows: seq<Frame>, w: nat) {
    forall i :: 0 <= i < |rows| ==> |rows[i]| == w
  }

  function Add(a: Frame, b: Frame): (c: Frame)
    requires |a| == |b|
    ensures |c| == |a| && forall j :: 0 <= j < |c| ==> c[j] == a[j] + b[j]
  {
    seq(|a|, j requires 0 <= j < |a| => a[j] + b[j])
  }

  function Sub(a: Frame, b: Frame): (c: Frame)
    requires |a| == |b|
    ensures |c| == |a| && forall j :: 0 <= j < |c| ==> c[j] == a[j] - b[j]
  {
    seq(|a|, j requires 0 <= j < |a| => a[j] - b[j])
  }

  function Scale(a: Frame, x: real): (c: Frame)
    ensures |c| == |a| && forall j :: 0 <= j < |c| ==> c[j] == a[j] * x
  {
    seq(|a|, j requires 0 <= j < |a| => a[j] * x)
  }

  /** `np.zeros((n, w)).tolist()`. */
  function Zeros(n: nat, w: nat): (rs: seq<Frame>)
    ensures |rs| == n && Rect(rs, w)
    ensures forall i, j :: 0 <= i < n && 0 <= j < w ==> rs[i][j] == 0.0
  {
    seq(n, i requires 0 <= i < n => seq(w, j requires 0 <= j < w => 0.0))
  }

  /** Adding back what was subtracted gives the pose again. */
  lemma AddSub(a: Frame, b: Frame)
    requires |a| == |b|
    ensures Add(b, Sub(a, b)) == a && Add(Sub(a, b), b) == a
  {
  }

  /** `np.array(rows)`: a fresh array with the rows' entries. */
  method ToArray(rows: seq<Frame>, w: nat) returns (a: array2<real>)
    requires Rect(rows, w)
    ensures fresh(a) && a.Length0 == |rows| && a.Length1 == w && Rows(a) == rows
  {
    a := new real[|rows|, w]((i, j) requires 0 <= i < |rows| && 0 <= j < w => rows[i][j]);
    forall i | 0 <= i < |rows|
      ensures Row(a, i) == rows[i]
    {
    }
  }
}

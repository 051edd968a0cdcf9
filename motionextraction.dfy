/**
 * `motion_extraction`: replace each pose by how far the body moved over
 * the next `difference` poses, padding the end with zero poses.
 */
module MotionExtraction {
  import opened Wrappers
  import opened Values
  import opened Lifecycle
  import opened MotionData

  /** `validate_config`: a missing `difference` becomes 1. */
  function Validate(config: Config): (r: Result<Config>)
    ensures r.Ok? && "difference" in r.value
    ensures r.value["difference"] == (if "difference" in config then config["difference"] else Int(1))
    ensures forall k :: k != "difference" ==> (k in r.value <==> k in config)
    ensures forall k :: k in config ==> r.value[k] == config[k]
  {
    Ok(SetDefault(config, "difference", Int(1)))
  }

  const MotionExtractionHooks: Hooks := Hooks(Validate, c => None)

  /** Pose i + d minus pose i, for every i that has a pose d further on. */
  function Differences(rows: seq<Frame>, d: nat, w: nat): (ds: seq<Frame>)
    requires d <= |rows| && Rect(rows, w)
    ensures |ds| == |rows| - d && Rect(ds, w)
  {
    seq(|rows| - d, i requires 0 <= i < |rows| - d => Sub(rows[i + d], rows[i]))
  }

  /**
   * The inverse of `Differences`: from the first d poses and the
   * differences, each later pose is the pose d before it plus its
   * difference.
   */
  function Restore(head: seq<Frame>, ds: seq<Frame>, w: nat): (rows: seq<Frame>)
    requires |head| > 0 && Rect(head, w) && Rect(ds, w)
    ensures |rows| == |head| + |ds| && Rect(rows, w)
  {
    if |ds| == 0 then head
    else
      var rows := Restore(head, ds[..|ds| - 1], w);
      rows + [Add(rows[|ds| - 1], ds[|ds| - 1])]
  }

  /** With a positive difference, the first d poses and the differences give back every pose. */
  lemma {:induction false} RestoreDifferences(rows: seq<Frame>, d: nat, w: nat)
    requires 1 <= d <= |rows| && Rect(rows, w)
    ensures Restore(rows[..d], Differences(rows, d, w), w) == rows
    decreases |rows|
  {
    var ds := Differences(rows, d, w);
    if |rows| > d {
      var n := |rows|;
      var front := rows[..n - 1];
      assert Differences(front, d, w) == ds[..|ds| - 1];
      assert front[..d] == rows[..d];
      RestoreDifferences(front, d, w);
      AddSub(rows[n - 1], rows[n - 1 - d]);
      assert front + [rows[n - 1]] == rows;
    } else {
      assert rows[..d] == rows;
    }
  }

  /** The differences up to i + 1 are those up to i and then difference i. */
  lemma DifferencesGrow(rows: seq<Frame>, d: nat, w: nat, i: nat)
    requires d <= |rows| && Rect(rows, w) && i < |rows| - d
    ensures Differences(rows, d, w)[..i + 1] == Differences(rows, d, w)[..i] + [Sub(rows[i + d], rows[i])]
  {
    var ds := Differences(rows, d, w);
    assert ds[..i + 1] == ds[..i] + [ds[i]];
  }

  /**
   * The loop of `anonymize`: `data[i + d] - data[i]` for i up to
   * `len(data) - d`. A negative difference runs off the recording and
   * raises IndexError.
   */
  method DifferenceLoop(data: array2<real>, d: int) returns (r: Result<seq<Frame>>)
    ensures r.Err? <==> d < 0
    ensures r.Err? ==> r.error == IndexError
    ensures r.Ok? && d <= data.Length0 ==> r.value == Differences(Rows(data), d, data.Length1)
    ensures r.Ok? && d > data.Length0 ==> r.value == []
  {
    var h, w := data.Length0, data.Length1;
    var rows := Rows(data);
    var poses: seq<Frame> := [];
    var i := 0;
    while i < h - d
      invariant 0 <= i && (d < 0 ==> i <= h) && (0 <= d <= h ==> i <= h - d)
      invariant 0 <= d <= h ==> poses == Differences(rows, d, w)[..i]
      invariant d > h ==> i == 0 && poses == []
    {
      if !(InRange(i + d, h) && InRange(i, h)) {
        return Err(IndexError);
      }
      var next := Sub(rows[Wrap(i + d, h)], rows[Wrap(i, h)]);
      if 0 <= d {
        DifferencesGrow(rows, d, w, i);
      }
      poses := poses + [next];
      i := i + 1;
    }
    return Ok(poses);
  }

  /**
   * `anonymize`: the differences, then zero poses up to the input's
   * length. A negative difference raises IndexError in the loop; a
   * difference that leaves no pose raises it at `new_poses[0]`. The input
   * is only read.
   */
  method Anonymize(data: array2<real>, d: int) returns (r: Result<array2<real>>)
    ensures r.Err? <==> d < 0 || d >= data.Length0
    ensures r.Err? ==> r.error == IndexError
    ensures r.Ok? ==> fresh(r.value) && r.value.Length0 == data.Length0 && r.value.Length1 == data.Length1
    ensures r.Ok? ==> (0 <= d <= data.Length0 &&
      Rows(r.value) == Differences(Rows(data), d, data.Length1) + Zeros(d, data.Length1))
  {
    var h, w := data.Length0, data.Length1;
    var poses :- DifferenceLoop(data, d);
    if |poses| == 0 {
      return Err(IndexError);
    }
    var a := ToArray(poses + Zeros(h - |poses|, |poses[0]|), w);
    return Ok(a);
  }
}

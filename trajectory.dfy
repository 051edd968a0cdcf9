/**
 * `trajectory_feature_extraction`: replace each pose by the average of
 * the poses around it (or by how far it lies from that average), padding
 * the end with zero poses.
 */
module Trajectory {
  import opened Wrappers
  import opened Values
  import opened Lifecycle
  import opened MotionData

  /** `validate_config`: `type` defaults to "all", `window_size` to 1, `invert` to False. */
  function Validate(config: Config): (r: Result<Config>)
    ensures r.Ok? && "type" in r.value && "window_size" in r.value && "invert" in r.value
    ensures r.value["type"] == (if "type" in config then config["type"] else Str("all"))
    ensures r.value["window_size"] == (if "window_size" in config then config["window_size"] else Int(1))
    ensures r.value["invert"] == (if "invert" in config then config["invert"] else Bool(false))
    ensures forall k :: k !in {"type", "window_size", "invert"} ==> (k in r.value <==> k in config)
    ensures forall k :: k in config ==> r.value[k] == config[k]
  {
    Ok(SetDefault(SetDefault(SetDefault(config, "type", Str("all")), "window_size", Int(1)), "invert", Bool(false)))
  }

  const TrajectoryHooks: Hooks := Hooks(Validate, c => None)

  /** The kinds of average the loop knows. */
  predicate Known(kind: string) {
    kind == "all" || kind == "edges"
  }

  /**
   * The kinds and window sizes whose averages are real poses: "all" needs
   * a window of at least one pose on each side (a smaller one averages an
   * empty slice), "edges" any window that is not negative.
   */
  predicate Defined(kind: string, ws: int) {
    (kind == "all" && ws >= 1) || (kind == "edges" && ws >= 0)
  }

  /** The row-wise sum of the poses. */
  function SumRows(rows: seq<Frame>, w: nat): (s: Frame)
    requires Rect(rows, w)
    ensures |s| == w
  {
    if |rows| == 0 then Zeros(1, w)[0]
    else Add(SumRows(rows[..|rows| - 1], w), rows[|rows| - 1])
  }

  /** `np.mean(rows, axis=0)`. */
  function Mean(rows: seq<Frame>, w: nat): (m: Frame)
    requires |rows| > 0 && Rect(rows, w)
    ensures |m| == w
  {
    Scale(SumRows(rows, w), 1.0 / (|rows| as real))
  }

  /**
   * The average around pose i: "all" is the mean of the 2·ws poses from
   * i - ws up to, but not including, i + ws; "edges" the midpoint of poses
   * i - ws and i + ws.
   */
  function Average(rows: seq<Frame>, ws: nat, kind: string, i: int, w: nat): (a: Frame)
    requires Defined(kind, ws) && Rect(rows, w) && ws <= i < |rows| - ws
    ensures |a| == w
  {
    if kind == "all" then Mean(rows[i - ws..i + ws], w)
    else Scale(Add(rows[i - ws], rows[i + ws]), 1.0 / 2.0)
  }

  /** The feature of pose i: its distance from the average when inverted, else the average. */
  function Feature(rows: seq<Frame>, ws: nat, kind: string, invert: bool, i: int, w: nat): (f: Frame)
    requires Defined(kind, ws) && Rect(rows, w) && ws <= i < |rows| - ws
    ensures |f| == w
  {
    var a := Average(rows, ws, kind, i, w);
    if invert then Sub(rows[i], a) else a
  }

  /** Feature j is that of pose j + ws, for every pose with ws poses on both sides. */
  function Features(rows: seq<Frame>, ws: nat, kind: string, invert: bool, w: nat): (fs: seq<Frame>)
    requires Defined(kind, ws) && Rect(rows, w) && 2 * ws <= |rows|
    ensures |fs| == |rows| - 2 * ws && Rect(fs, w)
  {
    var fs := seq(|rows| - 2 * ws, j requires 0 <= j < |rows| - 2 * ws => Feature(rows, ws, kind, invert, j + ws, w));
    forall k | 0 <= k < |fs|
      ensures |fs[k]| == w
    {
      assert fs[k] == Feature(rows, ws, kind, invert, k + ws, w);
    }
    fs
  }

  /** The two modes split each pose: the inverted feature plus the plain one is the pose. */
  lemma InvertSplits(rows: seq<Frame>, ws: nat, kind: string, i: int, w: nat)
    requires Defined(kind, ws) && Rect(rows, w) && ws <= i < |rows| - ws
    ensures Add(Feature(rows, ws, kind, true, i, w), Feature(rows, ws, kind, false, i, w)) == rows[i]
  {
    AddSub(rows[i], Average(rows, ws, kind, i, w));
  }

  /**
   * A window of size 0 under "edges" averages each pose with itself: the
   * features are the poses, or zero poses when inverted.
   */
  lemma {:induction false} EdgesWithoutWindow(rows: seq<Frame>, w: nat)
    requires Rect(rows, w)
    ensures Features(rows, 0, "edges", false, w) == rows
    ensures Features(rows, 0, "edges", true, w) == Zeros(|rows|, w)
  {
    var plain, inverted := Features(rows, 0, "edges", false, w), Features(rows, 0, "edges", true, w);
    forall k | 0 <= k < |rows|
      ensures plain[k] == rows[k] && inverted[k] == Zeros(|rows|, w)[k]
    {
      var a := Average(rows, 0, "edges", k, w);
      forall j | 0 <= j < w
        ensures a[j] == rows[k][j]
      {
        assert a[j] == (rows[k][j] + rows[k][j]) * (1.0 / 2.0);
      }
      assert a == rows[k];
      assert plain[k] == a;
      assert inverted[k] == Sub(rows[k], a);
    }
  }

  /** The poses lie on a straight line through `base` with step `v`. */
  predicate Line(rows: seq<Frame>, base: Frame, v: Frame) {
    forall k, j :: 0 <= k < |rows| && 0 <= j < |base| ==>
      j < |v| && j < |rows[k]| && rows[k][j] == base[j] + (k as real) * v[j]
  }

  /** On uniform straight motion the midpoint of the edges is the pose itself, so the inverted feature is zero. */
  lemma EdgesOnLine(rows: seq<Frame>, ws: nat, i: int, w: nat, base: Frame, v: Frame)
    requires Rect(rows, w) && ws >= 1 && ws <= i < |rows| - ws
    requires |base| == w && Line(rows, base, v)
    ensures Average(rows, ws, "edges", i, w) == rows[i]
    ensures forall j :: 0 <= j < w ==> Feature(rows, ws, "edges", true, i, w)[j] == 0.0
  {
    var a := Average(rows, ws, "edges", i, w);
    forall j | 0 <= j < w
      ensures a[j] == rows[i][j]
    {
      var lo, hi := i - ws, i + ws;
      assert rows[lo][j] == base[j] + (lo as real) * v[j];
      assert rows[hi][j] == base[j] + (hi as real) * v[j];
      assert (lo as real) * v[j] + (hi as real) * v[j] == 2.0 * (i as real) * v[j];
    }
  }

  /** Summing n copies of a pose scales it by n. */
  lemma {:induction false} SumConstant(rows: seq<Frame>, f: Frame)
    requires forall k :: 0 <= k < |rows| ==> rows[k] == f
    ensures SumRows(rows, |f|) == Scale(f, |rows| as real)
    decreases |rows|
  {
    if |rows| > 0 {
      var n := |rows|;
      SumConstant(rows[..n - 1], f);
      var s := SumRows(rows, |f|);
      assert s == Add(Scale(f, (n - 1) as real), f);
      forall j | 0 <= j < |f|
        ensures s[j] == Scale(f, n as real)[j]
      {
        assert s[j] == f[j] * ((n - 1) as real) + f[j];
      }
    }
  }

  /** A body standing still keeps its pose under "all". */
  lemma AllOnConstant(rows: seq<Frame>, ws: nat, i: int, f: Frame)
    requires ws >= 1 && ws <= i < |rows| - ws
    requires forall k :: 0 <= k < |rows| ==> rows[k] == f
    ensures Rect(rows, |f|) && Average(rows, ws, "all", i, |f|) == f
  {
    var window := rows[i - ws..i + ws];
    SumConstant(window, f);
    var n := |window| as real;
    assert n > 0.0;
    forall j | 0 <= j < |f|
      ensures Scale(Scale(f, n), 1.0 / n)[j] == f[j]
    {
      assert f[j] * n * (1.0 / n) == f[j];
    }
  }

  /**
   * The loop of `anonymize`, for centres ws up to `len(data) - ws`. A type
   * other than "all" or "edges" leaves `average` unbound at the first
   * centre. Under "edges" the two poses are read with Python's indexing,
   * negative positions counting from the end: a negative window reaches
   * `data[len(data)]` before the loop ends and raises IndexError.
   */
  method FeatureLoop(data: array2<real>, ws: int, kind: string, invert: bool) returns (r: Result<seq<Frame>>)
    requires ws >= 1 || kind != "all"
    ensures r.Err? <==> (data.Length0 > 2 * ws && !Known(kind)) || (Known(kind) && ws < 0)
    ensures r.Err? ==> r.error == (if Known(kind) then IndexError else UnboundLocalError("average"))
    ensures r.Ok? && 2 * ws <= data.Length0 && Known(kind) ==> Defined(kind, ws) && r.value == Features(Rows(data), ws, kind, invert, data.Length1)
    ensures r.Ok? && (2 * ws > data.Length0 || !Known(kind)) ==> r.value == []
  {
    var h, w := data.Length0, data.Length1;
    var rows := Rows(data);
    var feats: seq<Frame> := [];
    var i := ws;
    while i < h - ws
      invariant ws <= i && (2 * ws <= h ==> i <= h - ws) && |feats| == i - ws
      invariant 2 * ws > h || !Known(kind) ==> feats == []
      invariant i > ws ==> Known(kind)
      invariant ws < 0 && Known(kind) ==> i - ws <= h
      invariant 2 * ws <= h && Defined(kind, ws) ==> feats == Features(rows, ws, kind, invert, w)[..i - ws]
    {
      if !Known(kind) {
        return Err(UnboundLocalError("average"));
      }
      var average;
      if kind == "all" {
        average := Average(rows, ws, kind, i, w);
      } else {
        if !InRange(i - ws, h) || !InRange(i + ws, h) {
          return Err(IndexError);
        }
        average := Scale(Add(rows[Wrap(i - ws, h)], rows[Wrap(i + ws, h)]), 1.0 / 2.0);
      }
      var f := if invert then Sub(rows[Wrap(i, h)], average) else average;
      if ws >= 0 {
        FeaturesGrow(rows, ws, kind, invert, w, i);
      }
      feats := feats + [f];
      i := i + 1;
    }
    return Ok(feats);
  }

  lemma FeaturesGrow(rows: seq<Frame>, ws: nat, kind: string, invert: bool, w: nat, i: int)
    requires Defined(kind, ws) && Rect(rows, w) && ws <= i < |rows| - ws
    ensures var fs := Features(rows, ws, kind, invert, w);
      fs[..i + 1 - ws] == fs[..i - ws] + [Feature(rows, ws, kind, invert, i, w)]
  {
    var fs := Features(rows, ws, kind, invert, w);
    assert fs[..i + 1 - ws] == fs[..i - ws] + [fs[i - ws]];
  }

  /**
   * `anonymize`: the features, then zero poses up to the input's length.
   * Too short a recording leaves no feature and raises IndexError at
   * `new_data[0]`; an unknown type raises at the first centre. The input
   * is only read.
   */
  method Anonymize(data: array2<real>, ws: int, kind: string, invert: bool) returns (r: Result<array2<real>>)
    requires ws >= 1 || kind != "all"
    ensures r.Err? <==> data.Length0 <= 2 * ws || !Known(kind) || ws < 0
    ensures r.Err? ==> r.error == (if !Known(kind) && data.Length0 > 2 * ws then UnboundLocalError("average") else IndexError)
    ensures r.Ok? ==> fresh(r.value) && r.value.Length0 == data.Length0 && r.value.Length1 == data.Length1
    ensures r.Ok? ==> (Defined(kind, ws) && 2 * ws < data.Length0 &&
      Rows(r.value) == Features(Rows(data), ws, kind, invert, data.Length1) + Zeros(2 * ws, data.Length1))
  {
    var h, w := data.Length0, data.Length1;
    var feats :- FeatureLoop(data, ws, kind, invert);
    if |feats| == 0 {
      return Err(IndexError);
    }
    var a := ToArray(feats + Zeros(h - |feats|, |feats[0]|), w);
    return Ok(a);
  }
}

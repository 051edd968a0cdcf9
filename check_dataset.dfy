/**
 * The bounding-box sanity check of the face dataset checker, and the
 * report it prints: one FAIL line per failing check per image.
 */
module CheckDataset {
  import opened Wrappers
  import opened Values

  /** `bbox[key]` read as a number; the bounding box is a datapoint attribute, `None` when absent. */
  function Coord(bbox: Value, key: string): (r: Result<real>)
    ensures r.Ok? <==> bbox.Dict? && key in bbox.entries && IsNumber(bbox.entries[key])
    ensures r.Ok? ==> r.value == NumOf(bbox.entries[key])
  {
    if !bbox.Dict? then Err(TypeError("object is not subscriptable"))
    else if key !in bbox.entries then Err(KeyError(key))
    else if !IsNumber(bbox.entries[key]) then Err(TypeError("comparison with a number"))
    else Ok(NumOf(bbox.entries[key]))
  }

  /** A bounding box whose four sides are all numbers. */
  datatype Box = Box(top: real, left: real, bottom: real, right: real)

  predicate Complete(bbox: Value) {
    Coord(bbox, "top").Ok? && Coord(bbox, "left").Ok? && Coord(bbox, "bottom").Ok? && Coord(bbox, "right").Ok?
  }

  function BoxOf(bbox: Value): Box
    requires Complete(bbox)
  {
    Box(Coord(bbox, "top").value, Coord(bbox, "left").value, Coord(bbox, "bottom").value, Coord(bbox, "right").value)
  }

  /**
   * The six checks, all of them evaluated, as (fails, message) in the
   * order they are tried; `height` is `image.shape[0]`, `width` is
   * `image.shape[1]`.
   */
  function Checks(b: Box, height: int, width: int): seq<(bool, string)> {
    [(b.top < 0.0, "top bbox < 0"),
     (b.left < 0.0, "left bbox < 0"),
     (b.bottom - b.top <= 0.0, "vertical bbox incorrect"),
     (b.right - b.left <= 0.0, "horizontal bbox incorrect"),
     (b.bottom >= height as real, "bottom bbox >= image shape"),
     (b.right >= width as real, "right bbox >= image shape")]
  }

  /** The message of the first check that fails, if any. */
  function FirstFailure(checks: seq<(bool, string)>): (r: Option<string>)
    ensures r.None? <==> forall i :: 0 <= i < |checks| ==> !checks[i].0
  {
    if |checks| == 0 then None
    else if checks[0].0 then Some(checks[0].1)
    else FirstFailure(checks[1..])
  }

  /** `FirstFailure` names a failing check, and every check before it passes. */
  lemma {:induction false} FirstFailureIsFirst(checks: seq<(bool, string)>)
    requires FirstFailure(checks).Some?
    ensures exists i :: 0 <= i < |checks| && checks[i].0 && FirstFailure(checks).value == checks[i].1 &&
                        forall j :: 0 <= j < i ==> !checks[j].0
  {
    if !checks[0].0 {
      FirstFailureIsFirst(checks[1..]);
      var i :| 0 <= i < |checks[1..]| && checks[1..][i].0 && FirstFailure(checks[1..]).value == checks[1..][i].1 &&
               forall j :: 0 <= j < i ==> !checks[1..][j].0;
      assert checks[i + 1].0;
      assert forall j :: 0 <= j < i + 1 ==> !checks[j].0 by {
        forall j | 0 <= j < i + 1 ensures !checks[j].0 {
          if j > 0 {
            assert checks[j] == checks[1..][j - 1];
          }
        }
      }
    }
  }

  /** The box lies strictly inside the image, with positive width and height. */
  predicate Inside(b: Box, height: int, width: int) {
    0.0 <= b.top < b.bottom < height as real && 0.0 <= b.left < b.right < width as real
  }

  /**
   * `check_image_bbox`: the tests in their order, each returning its
   * message; `None` when every test passes. A side is read only when its
   * test is reached, so a missing or non-numeric side fails only then.
   */
  function CheckImageBbox(bbox: Value, height: int, width: int): (r: Result<Option<string>>)
    ensures r.Err? ==> !Complete(bbox)
    ensures r == Ok(None) ==> Complete(bbox)
  {
    var top :- Coord(bbox, "top");
    if top < 0.0 then Ok(Some("top bbox < 0"))
    else
      var left :- Coord(bbox, "left");
      if left < 0.0 then Ok(Some("left bbox < 0"))
      else
        var bottom :- Coord(bbox, "bottom");
        if bottom - top <= 0.0 then Ok(Some("vertical bbox incorrect"))
        else
          var right :- Coord(bbox, "right");
          if right - left <= 0.0 then Ok(Some("horizontal bbox incorrect"))
          else if bottom >= height as real then Ok(Some("bottom bbox >= image shape"))
          else if right >= width as real then Ok(Some("right bbox >= image shape"))
          else Ok(None)
  }

  /**
   * On a complete box the early-return chain reports exactly the first of
   * the six checks, all evaluated, that fails.
   */
  lemma BboxFirstFailure(bbox: Value, height: int, width: int)
    requires Complete(bbox)
    ensures CheckImageBbox(bbox, height, width) == Ok(FirstFailure(Checks(BoxOf(bbox), height, width)))
  {
    var b := BoxOf(bbox);
    var c := Checks(b, height, width);
    assert FirstFailure(c) == if c[0].0 then Some(c[0].1) else FirstFailure(c[1..]);
    assert FirstFailure(c[1..]) == if c[1].0 then Some(c[1].1) else FirstFailure(c[2..]) by {
      assert c[1..][1..] == c[2..];
    }
    assert FirstFailure(c[2..]) == if c[2].0 then Some(c[2].1) else FirstFailure(c[3..]) by {
      assert c[2..][1..] == c[3..];
    }
    assert FirstFailure(c[3..]) == if c[3].0 then Some(c[3].1) else FirstFailure(c[4..]) by {
      assert c[3..][1..] == c[4..];
    }
    assert FirstFailure(c[4..]) == if c[4].0 then Some(c[4].1) else FirstFailure(c[5..]) by {
      assert c[4..][1..] == c[5..];
    }
    assert FirstFailure(c[5..]) == if c[5].0 then Some(c[5].1) else None by {
      assert c[5..][1..] == [];
    }
  }

  /** A complete box passes iff it lies inside the image. */
  lemma BboxPassesIffInside(bbox: Value, height: int, width: int)
    requires Complete(bbox)
    ensures CheckImageBbox(bbox, height, width) == Ok(None) <==> Inside(BoxOf(bbox), height, width)
  {
    BboxFirstFailure(bbox, height, width);
    var c := Checks(BoxOf(bbox), height, width);
    assert FirstFailure(c).None? <==> !c[0].0 && !c[1].0 && !c[2].0 && !c[3].0 && !c[4].0 && !c[5].0;
  }

  /**
   * One image as the checker sees it: its path, its `bbox` attribute,
   * the image's height and width, and the verdict of the one-colour check
   * (numeric image statistics, not part of this model).
   */
  datatype Checked = Checked(path: string, bbox: Value, height: int, width: int, onecolored: Option<string>)

  function FailLine(path: string, msg: string): string {
    "FAIL: Image " + path + ", " + msg
  }

  /** The lines printed for one image: the bounding-box check, then the one-colour check. */
  function ImageReport(p: Checked): (r: Result<seq<string>>)
    ensures r.Err? <==> CheckImageBbox(p.bbox, p.height, p.width).Err?
    ensures r.Ok? ==> |r.value| == (if CheckImageBbox(p.bbox, p.height, p.width).value.Some? then 1 else 0) +
                                   (if p.onecolored.Some? then 1 else 0)
  {
    var box :- CheckImageBbox(p.bbox, p.height, p.width);
    var first := if box.Some? then [FailLine(p.path, box.value)] else [];
    Ok(first + if p.onecolored.Some? then [FailLine(p.path, p.onecolored.value)] else [])
  }

  /**
   * Everything printed for the first `n` images, and the error that
   * stopped the run, if one did.
   */
  function Report(points: seq<Checked>): (seq<string>, Option<Error>) {
    if |points| == 0 then ([], None)
    else
      var (lines, err) := Report(points[..|points| - 1]);
      if err.Some? then (lines, err)
      else
        match ImageReport(points[|points| - 1])
        case Ok(more) => (lines + more, None)
        case Err(e) => (lines, Some(e))
  }

  /**
   * `image_checks`: the images in order, each image's FAIL lines printed
   * as its checks fail; an exception ends the run.
   */
  method ImageChecks(points: seq<Checked>) returns (lines: seq<string>, err: Option<Error>)
    ensures (lines, err) == Report(points)
  {
    lines, err := [], None;
    var i := 0;
    while i < |points|
      invariant 0 <= i <= |points|
      invariant (lines, err) == Report(points[..i])
      invariant err.Some? ==> (lines, err) == Report(points)
    {
      assert points[..i + 1][..i] == points[..i];
      if err.Some? {
        ReportStops(points, i);
        return;
      }
      var report := ImageReport(points[i]);
      if report.Err? {
        err := Some(report.error);
        ReportStops(points, i + 1);
      } else {
        lines := lines + report.value;
      }
      i := i + 1;
    }
    assert points[..i] == points;
  }

  /** Once an image has failed, the later images print nothing. */
  lemma {:induction false} ReportStops(points: seq<Checked>, i: nat)
    requires i <= |points| && Report(points[..i]).1.Some?
    ensures Report(points) == Report(points[..i])
    decreases |points| - i
  {
    if i < |points| {
      assert points[..i + 1][..i] == points[..i];
      ReportStops(points, i + 1);
    } else {
      assert points[..i] == points;
    }
  }

  /** With no exception, every image contributes exactly its own lines. */
  lemma {:induction false} ReportAppends(points: seq<Checked>, p: Checked)
    requires Report(points).1.None? && ImageReport(p).Ok?
    ensures Report(points + [p]) == (Report(points).0 + ImageReport(p).value, None)
  {
    assert (points + [p])[..|points|] == points;
  }
}

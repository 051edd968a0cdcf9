/**
 * `PxlrelocAnonymization`: pixel relocation. The cells of an image are
 * listed ring by ring, from the outside in (`gen_order`); every pixel
 * moves to the cell `steps` places earlier in that order, wrapping
 * around.
 *
 * Images are in-memory two-dimensional arrays of pixels; reading and
 * writing the image file is not part of this model.
 */
module Pxlreloc {
  import opened Wrappers
  import opened Values
  import opened PyLib
  import opened Lifecycle
  import opened Images

  // ----- configuration -----

  const NoSteps: Error := AttributeError("PxlrelocAnonymization: config: Requires number of steps to move pixel position by")

  /** `validate_config`: `steps` is required; nothing is added. */
  function Validate(config: Config): (r: Result<Config>)
    ensures r.Ok? <==> "steps" in config
    ensures r.Ok? ==> r.value == config
    ensures r.Err? ==> r.error == NoSteps
  {
    if "steps" !in config then Err(NoSteps) else Ok(config)
  }

  const PxlrelocHooks: Hooks := Hooks(Validate, c => None)

  /** `self.config["steps"]` as a slice bound: an integer (a `bool` counts as one); anything else raises. */
  function Steps(config: Config): (r: Result<int>)
    requires "steps" in config
    ensures config["steps"].Int? ==> r == Ok(config["steps"].i)
    ensures r.Err? <==> !config["steps"].Int? && !config["steps"].Bool?
  {
    match config["steps"]
    case Int(i) => Ok(i)
    case Bool(b) => Ok(if b then 1 else 0)
    case _ => Err(TypeError("slice indices must be integers or None or have an __index__ method"))
  }

  // ----- the ring order -----

  /** The four runs of one ring of an m×n grid, in the order `gen_order` appends them. */
  function Down(m: nat, n: nat): seq<Cell> requires m >= 2 && n >= 2 { seq(m - 1, x => (x, n - 1)) }
  function Back(m: nat, n: nat): seq<Cell> requires m >= 2 && n >= 2 { seq(n, y => (m - 1, n - y - 1)) }
  function Across(m: nat, n: nat): seq<Cell> requires m >= 2 && n >= 2 { seq(n - 2, y => (m - 2, y)) }
  function Up(m: nat, n: nat): seq<Cell> requires m >= 2 && n >= 2 { seq(m - 1, x => (m - 2 - x, n - 2)) }

  /** The outer two rows and two columns of the grid. */
  function Ring(m: nat, n: nat): seq<Cell>
    requires m >= 2 && n >= 2
  {
    Down(m, n) + Back(m, n) + Across(m, n) + Up(m, n)
  }

  /** What `gen_order(m, n)` returns. */
  function Order(m: nat, n: nat): seq<Cell>
    decreases m
  {
    if m == 0 || n == 0 then []
    else if m == 1 then seq(n, y => (0, y))
    else if n == 1 then seq(m, x => (x, 0))
    else Ring(m, n) + Order(m - 2, n - 2)
  }

  /** `gen_order(max, may)`: four loops append the outer ring, then the inner grid's order follows. */
  method GenOrder(m: nat, n: nat) returns (order: seq<Cell>)
    ensures order == Order(m, n)
    decreases m
  {
    if m == 0 || n == 0 {
      return [];
    } else if m == 1 {
      order := GenRow(n);
    } else if n == 1 {
      order := GenColumn(m);
    } else {
      var ring := GenRing(m, n);
      var inner := GenOrder(m - 2, n - 2);
      order := ring + inner;
    }
  }

  /** The single-row grid: one loop over the columns. */
  method GenRow(n: nat) returns (order: seq<Cell>)
    ensures order == seq(n, y => (0, y))
  {
    order := [];
    var y := 0;
    while y < n
      invariant 0 <= y <= n && order == seq(y, k => (0, k))
    {
      order := order + [(0, y)];
      y := y + 1;
    }
  }

  /** The single-column grid: one loop over the rows. */
  method GenColumn(m: nat) returns (order: seq<Cell>)
    ensures order == seq(m, x => (x, 0))
  {
    order := [];
    var x := 0;
    while x < m
      invariant 0 <= x <= m && order == seq(x, k => (k, 0))
    {
      order := order + [(x, 0)];
      x := x + 1;
    }
  }

  /** The four loops that append one ring. */
  method GenRing(m: nat, n: nat) returns (order: seq<Cell>)
    requires m >= 2 && n >= 2
    ensures order == Ring(m, n)
  {
    order := [];
    var x := 0;
    while x < m - 1
      invariant 0 <= x <= m - 1 && order == Down(m, n)[..x]
    {
      order := order + [(x, n - 1)];
      x := x + 1;
    }
    var y := 0;
    while y < n
      invariant 0 <= y <= n && order == Down(m, n) + Back(m, n)[..y]
    {
      order := order + [(m - 1, n - y - 1)];
      y := y + 1;
    }
    y := 0;
    while y < n - 2
      invariant 0 <= y <= n - 2 && order == Down(m, n) + Back(m, n) + Across(m, n)[..y]
    {
      order := order + [(m - 2, y)];
      y := y + 1;
    }
    x := 0;
    while x < m - 1
      invariant 0 <= x <= m - 1 && order == Down(m, n) + Back(m, n) + Across(m, n) + Up(m, n)[..x]
    {
      order := order + [(m - 2 - x, n - 2)];
      x := x + 1;
    }
  }

  /** The ring holds exactly the grid's cells in its last two rows or last two columns. */
  lemma RingCells(m: nat, n: nat, c: Cell)
    requires m >= 2 && n >= 2
    ensures c in Ring(m, n) <==> InGrid(c, m, n) && (c.0 >= m - 2 || c.1 >= n - 2)
  {
    if InGrid(c, m, n) && (c.0 >= m - 2 || c.1 >= n - 2) {
      if c.1 == n - 1 && c.0 < m - 1 {
        assert Down(m, n)[c.0] == c;
      } else if c.0 == m - 1 {
        assert Back(m, n)[n - 1 - c.1] == c;
      } else if c.0 == m - 2 && c.1 < n - 2 {
        assert Across(m, n)[c.1] == c;
      } else {
        assert Up(m, n)[m - 2 - c.0] == c;
      }
    }
  }

  /** No cell appears twice in a ring. */
  lemma RingDistinct(m: nat, n: nat)
    requires m >= 2 && n >= 2
    ensures Distinct(Ring(m, n))
  {
    var d, b, a, u := Down(m, n), Back(m, n), Across(m, n), Up(m, n);
    DistinctConcat(d, b);
    DistinctConcat(d + b, a);
    DistinctConcat(d + b + a, u);
    forall c | c in d + b + a ensures c !in u {
      if c in d + b {
        assert c in d || c in b;
      }
    }
  }

  /** `gen_order(m, n)` lists every cell of the m×n grid, and nothing else. */
  lemma {:induction false} OrderCells(m: nat, n: nat, c: Cell)
    ensures c in Order(m, n) <==> InGrid(c, m, n)
    decreases m
  {
    if m >= 2 && n >= 2 {
      RingCells(m, n, c);
      OrderCells(m - 2, n - 2, c);
    } else if m == 1 && n > 0 && InGrid(c, m, n) {
      assert Order(m, n)[c.1] == c;
    } else if n == 1 && m > 0 && InGrid(c, m, n) {
      assert Order(m, n)[c.0] == c;
    }
  }

  /** `gen_order(m, n)` lists no cell twice. */
  lemma {:induction false} OrderDistinct(m: nat, n: nat)
    ensures Distinct(Order(m, n))
    decreases m
  {
    if m >= 2 && n >= 2 {
      RingDistinct(m, n);
      OrderDistinct(m - 2, n - 2);
      RingApart(m, n);
      DistinctConcat(Ring(m, n), Order(m - 2, n - 2));
    } else {
      LineDistinct(m, n);
    }
  }

  /** The ring and the inner grid's order share no cell. */
  lemma RingApart(m: nat, n: nat)
    requires m >= 2 && n >= 2
    ensures forall c :: c in Ring(m, n) ==> c !in Order(m - 2, n - 2)
  {
    forall c | c in Ring(m, n) ensures c !in Order(m - 2, n - 2) {
      RingNotInner(m, n, c);
    }
  }

  lemma RingNotInner(m: nat, n: nat, c: Cell)
    requires m >= 2 && n >= 2 && c in Ring(m, n)
    ensures c !in Order(m - 2, n - 2)
  {
    RingCells(m, n, c);
    if c in Order(m - 2, n - 2) {
      OrderCells(m - 2, n - 2, c);
      assert false;
    }
  }

  /** A grid of one row or one column lists its cells once each. */
  lemma LineDistinct(m: nat, n: nat)
    requires m < 2 || n < 2
    ensures Distinct(Order(m, n))
  {
    OrderDegenerate(m, n);
  }

  /** `gen_order(m, n)` has one entry per pixel. */
  lemma {:induction false} OrderLength(m: nat, n: nat)
    ensures |Order(m, n)| == m * n
    decreases m
  {
    if m >= 2 && n >= 2 {
      OrderLength(m - 2, n - 2);
      assert (m - 2) * (n - 2) == m * n - 2 * m - 2 * n + 4;
    }
  }

  /** The degenerate grids: no cells when a side is 0, one row or one column in order. */
  lemma OrderDegenerate(m: nat, n: nat)
    ensures m == 0 || n == 0 ==> Order(m, n) == []
    ensures m == 1 ==> Order(m, n) == seq(n, y => (0, y))
    ensures m > 1 && n == 1 ==> Order(m, n) == seq(m, x => (x, 0))
  {
  }

  // ----- the relocation -----

  /** `forder[steps:] + forder[:steps]` */
  function Rotated(f: seq<Cell>, steps: int): (t: seq<Cell>)
    ensures |t| == |f| && multiset(t) == multiset(f)
  {
    CutPartition(f, steps);
    From(f, steps) + Upto(f, steps)
  }

  /**
   * Position i of the rotated order holds the entry `k` places further on,
   * wrapping around, where `k` is where the slice bound cuts: `steps` when
   * it is in range, `len + steps` when it is negative, `len` (no rotation)
   * when it is past the end.
   */
  lemma RotatedAt(f: seq<Cell>, steps: int, i: nat)
    requires i < |f|
    ensures Rotated(f, steps)[i] == f[(i + Clamp(steps, |f|)) % |f|]
  {
    var k := Clamp(steps, |f|);
    if i < |f| - k {
      ModBelow(i + k, |f|);
      assert Rotated(f, steps)[i] == f[k..][i];
    } else {
      ModWrap(i + k, |f|);
      assert Rotated(f, steps)[i] == f[..k][i - (|f| - k)];
    }
  }

  lemma ModBelow(a: nat, n: nat)
    requires a < n
    ensures a % n == a
  {
  }

  lemma ModWrap(a: nat, n: nat)
    requires n <= a < 2 * n
    ensures a % n == a - n
  {
    assert a == n * 1 + (a - n);
  }

  /** A bound at or past the end leaves the order as it is. */
  lemma RotatedPastEnd(f: seq<Cell>, steps: int)
    requires steps >= |f|
    ensures Rotated(f, steps) == f
  {
    assert f[|f|..] == [] && f[..|f|] == f;
  }

  /** The rotated order lists each cell of the grid once: every pixel is written exactly once. */
  lemma RelocationPermutes(m: nat, n: nat, steps: int)
    ensures Distinct(Rotated(Order(m, n), steps))
    ensures forall c :: c in Rotated(Order(m, n), steps) <==> InGrid(c, m, n)
  {
    var f := Order(m, n);
    OrderDistinct(m, n);
    PermutationDistinct(f, Rotated(f, steps));
    forall c ensures c in Rotated(f, steps) <==> InGrid(c, m, n) {
      OrderCells(m, n, c);
      assert c in Rotated(f, steps) <==> c in multiset(f);
    }
  }

  /** Output cell `t[i]` holds the input pixel at `f[i]`, for every i. */
  ghost predicate Moved<P>(newimg: array2<P>, img: array2<P>, f: seq<Cell>, t: seq<Cell>)
    reads newimg, img
  {
    |f| == |t| &&
    forall i :: 0 <= i < |f| ==>
      (InGrid(t[i], newimg.Length0, newimg.Length1) && InGrid(f[i], img.Length0, img.Length1) &&
       newimg[t[i].0, t[i].1] == img[f[i].0, f[i].1])
  }

  /**
   * `anonymize` on the decoded image: a copy of the image, then every
   * pixel written from the pixel `steps` places further along the ring
   * order. The input image is left as it is.
   */
  method Relocate<P>(img: array2<P>, steps: int) returns (newimg: array2<P>)
    ensures fresh(newimg) && newimg.Length0 == img.Length0 && newimg.Length1 == img.Length1
    ensures Moved(newimg, img, Order(img.Length0, img.Length1), Rotated(Order(img.Length0, img.Length1), steps))
  {
    var m, n := img.Length0, img.Length1;
    newimg := new P[m, n]((r, c) requires 0 <= r < m && 0 <= c < n reads img => img[r, c]);
    var forder := GenOrder(m, n);
    var torder := From(forder, steps) + Upto(forder, steps);
    RelocationPermutes(m, n, steps);
    forall c | c in forder ensures InGrid(c, m, n) {
      OrderCells(m, n, c);
    }
    assert forall j :: 0 <= j < |forder| ==> torder[j] in torder && forder[j] in forder;
    Scatter(newimg, img, forder, torder);
  }

  /** `for i in range(len(forder)): newimg[torder[i]] = img[forder[i]]` */
  method Scatter<P>(newimg: array2<P>, img: array2<P>, forder: seq<Cell>, torder: seq<Cell>)
    requires newimg != img && |torder| == |forder| && Distinct(torder)
    requires forall j :: 0 <= j < |forder| ==>
      InGrid(torder[j], newimg.Length0, newimg.Length1) && InGrid(forder[j], img.Length0, img.Length1)
    modifies newimg
    ensures Moved(newimg, img, forder, torder)
  {
    var i := 0;
    while i < |forder|
      invariant 0 <= i <= |forder|
      invariant forall j :: 0 <= j < i ==> newimg[torder[j].0, torder[j].1] == img[forder[j].0, forder[j].1]
    {
      newimg[torder[i].0, torder[i].1] := img[forder[i].0, forder[i].1];
      i := i + 1;
    }
  }
}

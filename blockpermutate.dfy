/**
 * `BlockpermutateAnonymization`: an image is cut into square blocks of
 * `blocksize` pixels and the blocks are shuffled. Every block of the new
 * image is copied from a block of the original, each block of the
 * original is used once, and the pixels beyond the last whole block (at
 * the bottom and the right) keep their values.
 *
 * The shuffle (`random.shuffle` after `random.seed(seed)`) is a
 * caller-supplied rearrangement of the block listing.
 */
module BlockPermutate {
  import opened Wrappers
  import opened Values
  import opened PyLib
  import opened Lifecycle
  import opened Images
  import Text
  import Utils

  // ----- configuration -----

  const NoSeed: Error := AttributeError("BlockPermutateAnonymization: config: missing seed")
  const NoBlocksize: Error := AttributeError("BlockPermutateAnonymization: config: missing blocksize")

  /** `validate_config`: `seed` and `blocksize` are required; `blocksize` becomes an integer. */
  function Validate(config: Config): (r: Result<Config>)
    ensures "seed" !in config ==> r == Err(NoSeed)
    ensures "seed" in config && "blocksize" !in config ==> r == Err(NoBlocksize)
    ensures r.Ok? <==> "seed" in config && "blocksize" in config && ToInt(config["blocksize"]).Ok?
    ensures r.Ok? ==> r.value.Keys == config.Keys && r.value["blocksize"] == Int(ToInt(config["blocksize"]).value)
    ensures r.Ok? ==> forall k :: k in config && k != "blocksize" ==> r.value[k] == config[k]
  {
    if "seed" !in config then Err(NoSeed)
    else if "blocksize" !in config then Err(NoBlocksize)
    else
      var bs :- ToInt(config["blocksize"]);
      Ok(config["blocksize" := Int(bs)])
  }

  const BlockpermutateHooks: Hooks := Hooks(Validate, c => None)

  // ----- the block grid -----

  /**
   * `n // blocksize` as a number of whole blocks: a negative block size
   * gives a negative quotient, so no block at all.
   */
  function Blocks(n: nat, bs: int): (b: nat)
    requires bs != 0
    ensures bs > 0 ==> b == n / bs
    ensures bs < 0 ==> b == 0
  {
    if bs > 0 then n / bs else 0
  }

  /** Pixel (i, j) lies in block t. */
  predicate Within(t: Cell, bs: int, i: int, j: int) {
    t.0 * bs <= i < t.0 * bs + bs && t.1 * bs <= j < t.1 * bs + bs
  }

  /** Where block t comes in the visiting order, column by column. */
  function Order(rows: nat, t: Cell): int {
    t.1 * rows + t.0
  }

  /** The block `permutation.pop()` hands to block t: the list is used from its end. */
  function Source(perm: seq<Cell>, rows: nat, t: Cell): Cell
    requires 0 <= Order(rows, t) < |perm|
  {
    perm[|perm| - 1 - Order(rows, t)]
  }

  lemma BlockBelow(i: int, bs: int, n: nat)
    requires bs > 0 && 0 <= i < n * bs
    ensures 0 <= i / bs < n
  {
    var q := i / bs;
    assert q * bs <= i;
    assert (n - q) * bs == n * bs - q * bs;
  }

  /** Pixel (i, j) lies in block (i / bs, j / bs), at offset (i % bs, j % bs). */
  lemma BlockOfPixel(bs: int, i: int, j: int)
    requires bs > 0
    ensures Within((i / bs, j / bs), bs, i, j)
    ensures i == (i / bs) * bs + i % bs && j == (j / bs) * bs + j % bs
  {
  }

  /** The block of a pixel of the grid is a block of the grid, and so is the block it is handed. */
  lemma SourceInGrid(perm: seq<Cell>, rows: nat, cols: nat, bs: int, i: int, j: int)
    requires bs > 0 && multiset(perm) == multiset(Coords(rows, cols))
    requires 0 <= i < rows * bs && 0 <= j < cols * bs
    ensures InGrid((i / bs, j / bs), rows, cols)
    ensures 0 <= Order(rows, (i / bs, j / bs)) < |perm|
    ensures InGrid(Source(perm, rows, (i / bs, j / bs)), rows, cols)
  {
    BlockBelow(i, bs, rows);
    BlockBelow(j, bs, cols);
    IndexBelow(j / bs, i / bs, rows, cols);
    ShuffledCoords(rows, cols, perm);
    assert Source(perm, rows, (i / bs, j / bs)) in perm;
  }

  /** The pixel a grid pixel is copied from lies in the grid. */
  lemma PickInGrid(perm: seq<Cell>, rows: nat, cols: nat, bs: int, i: int, j: int)
    requires bs > 0 && multiset(perm) == multiset(Coords(rows, cols))
    requires 0 <= i < rows * bs && 0 <= j < cols * bs
    ensures 0 <= Order(rows, (i / bs, j / bs)) < |perm|
    ensures var s := Source(perm, rows, (i / bs, j / bs));
      0 <= s.0 * bs + i % bs < rows * bs && 0 <= s.1 * bs + j % bs < cols * bs
  {
    SourceInGrid(perm, rows, cols, bs, i, j);
    var s := Source(perm, rows, (i / bs, j / bs));
    OffsetBelow(s.0, i % bs, bs, rows);
    OffsetBelow(s.1, j % bs, bs, cols);
  }

  lemma OffsetBelow(a: int, r: int, bs: int, n: nat)
    requires 0 <= a < n && 0 <= r < bs
    ensures 0 <= a * bs + r < n * bs
  {
    IndexBelow(a, r, bs, n);
    assert bs * n == n * bs;
  }

  /** The whole blocks fit in the image. */
  lemma GridFits(n: nat, bs: int)
    requires bs > 0
    ensures 0 <= (n / bs) * bs <= n
  {
    assert n == (n / bs) * bs + n % bs;
  }

  /**
   * The pixel the new image holds at (i, j): inside the grid of whole
   * blocks, the same place in the block its block was handed; elsewhere
   * the original pixel.
   */
  function Permuted(img: array2<Pixel>, perm: seq<Cell>, bs: int, i: int, j: int): Pixel
    requires bs > 0 && multiset(perm) == multiset(Coords(img.Length0 / bs, img.Length1 / bs))
    requires 0 <= i < img.Length0 && 0 <= j < img.Length1
    reads img
  {
    var rows, cols := img.Length0 / bs, img.Length1 / bs;
    if i < rows * bs && j < cols * bs then
      assert 0 <= Order(rows, (i / bs, j / bs)) < |perm| &&
        0 <= Source(perm, rows, (i / bs, j / bs)).0 * bs + i % bs < rows * bs <= img.Length0 &&
        0 <= Source(perm, rows, (i / bs, j / bs)).1 * bs + j % bs < cols * bs <= img.Length1 by {
        PickInGrid(perm, rows, cols, bs, i, j);
        GridFits(img.Length0, bs);
        GridFits(img.Length1, bs);
      }
      var s := Source(perm, rows, (i / bs, j / bs));
      img[s.0 * bs + i % bs, s.1 * bs + j % bs]
    else img[i, j]
  }

  // ----- copying blocks in place -----

  /** Pixel (i, j) is one the block copy has already written: a row above `a`, or row `a` left of `b`. */
  predicate Copied(t: Cell, bs: int, a: int, b: int, i: int, j: int) {
    (t.0 * bs <= i < t.0 * bs + a && t.1 * bs <= j < t.1 * bs + bs) ||
    (i == t.0 * bs + a && t.1 * bs <= j < t.1 * bs + b)
  }

  /**
   * `newimg[block t] = img[block s]`: the block t of `newimg` becomes a
   * copy of the block s of `img`, pixel for pixel; nothing else changes.
   */
  method CopyBlock(img: array2<Pixel>, newimg: array2<Pixel>, bs: int, t: Cell, s: Cell)
    requires img != newimg && newimg.Length0 == img.Length0 && newimg.Length1 == img.Length1 && bs > 0
    requires 0 <= t.0 * bs && t.0 * bs + bs <= img.Length0 && 0 <= t.1 * bs && t.1 * bs + bs <= img.Length1
    requires 0 <= s.0 * bs && s.0 * bs + bs <= img.Length0 && 0 <= s.1 * bs && s.1 * bs + bs <= img.Length1
    modifies newimg
    ensures forall i, j :: 0 <= i < img.Length0 && 0 <= j < img.Length1 ==>
      newimg[i, j] == if Within(t, bs, i, j) then img[s.0 * bs + (i - t.0 * bs), s.1 * bs + (j - t.1 * bs)] else old(newimg[i, j])
  {
    var a := 0;
    while a < bs
      invariant 0 <= a <= bs
      invariant forall i, j :: 0 <= i < img.Length0 && 0 <= j < img.Length1 ==>
        newimg[i, j] == if Copied(t, bs, a, 0, i, j) then img[s.0 * bs + (i - t.0 * bs), s.1 * bs + (j - t.1 * bs)] else old(newimg[i, j])
    {
      var b := 0;
      while b < bs
        invariant 0 <= b <= bs
        invariant forall i, j :: 0 <= i < img.Length0 && 0 <= j < img.Length1 ==>
          newimg[i, j] == if Copied(t, bs, a, b, i, j) then img[s.0 * bs + (i - t.0 * bs), s.1 * bs + (j - t.1 * bs)] else old(newimg[i, j])
      {
        newimg[t.0 * bs + a, t.1 * bs + b] := img[s.0 * bs + a, s.1 * bs + b];
        b := b + 1;
      }
      a := a + 1;
    }
  }

  /** The new image part way: blocks before place `k` of the visiting order are done, the rest still hold the original. */
  ghost function Partial(img: array2<Pixel>, perm: seq<Cell>, bs: int, k: int, i: int, j: int): Pixel
    requires bs > 0 && multiset(perm) == multiset(Coords(img.Length0 / bs, img.Length1 / bs))
    requires 0 <= i < img.Length0 && 0 <= j < img.Length1
    reads img
  {
    var rows, cols := img.Length0 / bs, img.Length1 / bs;
    if i < rows * bs && j < cols * bs && Order(rows, (i / bs, j / bs)) < k then Permuted(img, perm, bs, i, j)
    else img[i, j]
  }

  /** A pixel of block t is in no other block. */
  lemma BlockUnique(t: Cell, bs: int, i: int, j: int)
    requires bs > 0 && t.0 >= 0 && t.1 >= 0 && Within(t, bs, i, j)
    ensures t == (i / bs, j / bs)
  {
    DivModOf(t.0, i - t.0 * bs, bs);
    DivModOf(t.1, j - t.1 * bs, bs);
  }

  /** Distinct blocks of the grid have distinct places in the visiting order. */
  lemma OrderInjective(rows: nat, a: Cell, b: Cell)
    requires 0 <= a.0 < rows && 0 <= b.0 < rows && a.1 >= 0 && b.1 >= 0
    ensures a != b ==> Order(rows, a) != Order(rows, b)
  {
    DivModOf(a.1, a.0, rows);
    DivModOf(b.1, b.0, rows);
  }

  /** A pixel of a grid block t lies in the grid, its block is t, and its offset is its distance from the block's corner. */
  lemma InBlock(rows: nat, cols: nat, bs: int, t: Cell, i: int, j: int)
    requires bs > 0 && InGrid(t, rows, cols) && Within(t, bs, i, j)
    ensures 0 <= i < rows * bs && 0 <= j < cols * bs && (i / bs, j / bs) == t
    ensures i % bs == i - t.0 * bs && j % bs == j - t.1 * bs
  {
    BlockUnique(t, bs, i, j);
    OffsetBelow(t.0, i - t.0 * bs, bs, rows);
    OffsetBelow(t.1, j - t.1 * bs, bs, cols);
  }

  /** Copying block t, the `k`-th visited, leaves every pixel outside it where `k` blocks done had it. */
  lemma StepOutside(img: array2<Pixel>, perm: seq<Cell>, bs: int, t: Cell, k: int, i: int, j: int)
    requires bs > 0 && multiset(perm) == multiset(Coords(img.Length0 / bs, img.Length1 / bs))
    requires 0 <= i < img.Length0 && 0 <= j < img.Length1
    requires InGrid(t, img.Length0 / bs, img.Length1 / bs) && k == Order(img.Length0 / bs, t)
    requires !Within(t, bs, i, j)
    ensures Partial(img, perm, bs, k + 1, i, j) == Partial(img, perm, bs, k, i, j)
  {
    var rows, cols := img.Length0 / bs, img.Length1 / bs;
    if i < rows * bs && j < cols * bs {
      BlockOfPixel(bs, i, j);
      SourceInGrid(perm, rows, cols, bs, i, j);
      OrderInjective(rows, (i / bs, j / bs), t);
    }
  }

  /** Copying block t, the `k`-th visited, from the block `s` popped for it: one more block done. */
  method Advance(img: array2<Pixel>, newimg: array2<Pixel>, perm: seq<Cell>, bs: int, t: Cell, k: int, s: Cell)
    requires img != newimg && newimg.Length0 == img.Length0 && newimg.Length1 == img.Length1
    requires bs > 0 && multiset(perm) == multiset(Coords(img.Length0 / bs, img.Length1 / bs))
    requires InGrid(t, img.Length0 / bs, img.Length1 / bs) && k == Order(img.Length0 / bs, t)
    requires 0 <= k < |perm| && s == perm[|perm| - 1 - k]
    requires forall i, j :: 0 <= i < img.Length0 && 0 <= j < img.Length1 ==> newimg[i, j] == Partial(img, perm, bs, k, i, j)
    modifies newimg
    ensures forall i, j :: 0 <= i < img.Length0 && 0 <= j < img.Length1 ==> newimg[i, j] == Partial(img, perm, bs, k + 1, i, j)
  {
    var rows, cols := img.Length0 / bs, img.Length1 / bs;
    ShuffledCoords(rows, cols, perm);
    assert s in perm;
    BlockFits(t, bs, rows, cols, img.Length0, img.Length1);
    BlockFits(s, bs, rows, cols, img.Length0, img.Length1);
    CopyBlock(img, newimg, bs, t, s);
    forall i, j | 0 <= i < img.Length0 && 0 <= j < img.Length1
      ensures newimg[i, j] == Partial(img, perm, bs, k + 1, i, j)
    {
      if Within(t, bs, i, j) {
        InBlock(rows, cols, bs, t, i, j);
      } else {
        StepOutside(img, perm, bs, t, k, i, j);
      }
    }
  }

  /** Before the first block nothing is copied yet. */
  lemma NoneDone(img: array2<Pixel>, perm: seq<Cell>, bs: int, i: int, j: int)
    requires bs > 0 && multiset(perm) == multiset(Coords(img.Length0 / bs, img.Length1 / bs))
    requires 0 <= i < img.Length0 && 0 <= j < img.Length1
    ensures Partial(img, perm, bs, 0, i, j) == img[i, j]
  {
    OrderNonNegative(img.Length0 / bs, bs, i, j);
  }

  lemma OrderNonNegative(rows: nat, bs: int, i: int, j: int)
    requires bs > 0 && 0 <= i && 0 <= j
    ensures Order(rows, (i / bs, j / bs)) >= 0
  {
    if j / bs > 0 {
      MulAtLeast(j / bs, rows);
    }
  }

  /** After the last block every block is copied. */
  lemma AllDone(img: array2<Pixel>, perm: seq<Cell>, bs: int, i: int, j: int)
    requires bs > 0 && multiset(perm) == multiset(Coords(img.Length0 / bs, img.Length1 / bs))
    requires 0 <= i < img.Length0 && 0 <= j < img.Length1
    ensures Partial(img, perm, bs, |perm|, i, j) == Permuted(img, perm, bs, i, j)
  {
    var rows, cols := img.Length0 / bs, img.Length1 / bs;
    if i < rows * bs && j < cols * bs {
      SourceInGrid(perm, rows, cols, bs, i, j);
    }
  }

  /** Column `x` of the grid ends within the permutation. */
  lemma ColumnFits(x: int, rows: nat, cols: nat, k: int)
    requires 0 <= x < cols && k == x * rows
    ensures k + rows <= rows * cols && k + rows == (x + 1) * rows
  {
    MulAtLeast(cols - x, rows);
    assert (cols - x) * rows == cols * rows - x * rows;
  }

  /** The block `t` fits in the image. */
  lemma BlockFits(t: Cell, bs: int, rows: nat, cols: nat, h: nat, w: nat)
    requires bs > 0 && InGrid(t, rows, cols) && rows == h / bs && cols == w / bs
    ensures 0 <= t.0 * bs && t.0 * bs + bs <= h && 0 <= t.1 * bs && t.1 * bs + bs <= w
  {
    GridFits(h, bs);
    GridFits(w, bs);
    OffsetBelow(t.0, bs - 1, bs, rows);
    OffsetBelow(t.1, bs - 1, bs, cols);
  }

  /** One pass of the inner loop of `anonymize`: the blocks of column `x`, top to bottom, the `k`-th block onwards. */
  method Column(img: array2<Pixel>, newimg: array2<Pixel>, perm: seq<Cell>, bs: int, x: int, k: int, permutation: seq<Cell>)
    returns (rest: seq<Cell>)
    requires img != newimg && newimg.Length0 == img.Length0 && newimg.Length1 == img.Length1
    requires bs > 0 && multiset(perm) == multiset(Coords(img.Length0 / bs, img.Length1 / bs))
    requires 0 <= x < img.Length1 / bs && k == x * (img.Length0 / bs)
    requires 0 <= k && k + img.Length0 / bs <= |perm| && permutation == perm[..|perm| - k]
    requires forall i, j :: 0 <= i < img.Length0 && 0 <= j < img.Length1 ==>
      newimg[i, j] == Partial(img, perm, bs, k, i, j)
    modifies newimg
    ensures rest == perm[..|perm| - k - img.Length0 / bs]
    ensures forall i, j :: 0 <= i < img.Length0 && 0 <= j < img.Length1 ==>
      newimg[i, j] == Partial(img, perm, bs, k + img.Length0 / bs, i, j)
  {
    var rows, cols := img.Length0 / bs, img.Length1 / bs;
    rest := permutation;
    var y := 0;
    while y < rows
      invariant 0 <= y <= rows && rest == perm[..|perm| - k - y]
      invariant forall i, j :: 0 <= i < img.Length0 && 0 <= j < img.Length1 ==> newimg[i, j] == Partial(img, perm, bs, k + y, i, j)
    {
      IndexBelow(x, y, rows, cols);
      var s := rest[|rest| - 1];
      rest := rest[..|rest| - 1];
      Advance(img, newimg, perm, bs, (y, x), k + y, s);
      y := y + 1;
    }
  }

  /** `img.copy()`: a fresh image equal to `img`, which is the state before the first block. */
  method CopyOf(img: array2<Pixel>, perm: seq<Cell>, bs: int) returns (newimg: array2<Pixel>)
    requires bs > 0 && multiset(perm) == multiset(Coords(img.Length0 / bs, img.Length1 / bs))
    ensures fresh(newimg) && newimg.Length0 == img.Length0 && newimg.Length1 == img.Length1
    ensures forall i, j :: 0 <= i < img.Length0 && 0 <= j < img.Length1 ==> newimg[i, j] == img[i, j]
    ensures forall i, j :: 0 <= i < img.Length0 && 0 <= j < img.Length1 ==> newimg[i, j] == Partial(img, perm, bs, 0, i, j)
  {
    var h, w := img.Length0, img.Length1;
    newimg := new Pixel[h, w]((i, j) reads img requires 0 <= i < h && 0 <= j < w => img[i, j]);
    forall i, j | 0 <= i < h && 0 <= j < w
      ensures newimg[i, j] == Partial(img, perm, bs, 0, i, j)
    {
      NoneDone(img, perm, bs, i, j);
    }
  }

  /**
   * `anonymize` on the image for a positive block size: a copy of the
   * image whose blocks are refilled column by column, each from the block
   * `permutation.pop()` gives, reading always from the original.
   */
  method Permute(img: array2<Pixel>, bs: int, perm: seq<Cell>) returns (newimg: array2<Pixel>)
    requires bs > 0 && multiset(perm) == multiset(Coords(img.Length0 / bs, img.Length1 / bs))
    ensures fresh(newimg) && newimg.Length0 == img.Length0 && newimg.Length1 == img.Length1
    ensures forall i, j :: 0 <= i < img.Length0 && 0 <= j < img.Length1 ==> newimg[i, j] == Permuted(img, perm, bs, i, j)
  {
    var h, w := img.Length0, img.Length1;
    newimg := CopyOf(img, perm, bs);
    var rows, cols := h / bs, w / bs;
    ShuffledLength(rows, cols, perm);
    var permutation := perm;
    var k := 0;
    var x := 0;
    while x < cols
      invariant 0 <= x <= cols && k == x * rows && k <= |perm| && permutation == perm[..|perm| - k]
      invariant forall i, j :: 0 <= i < h && 0 <= j < w ==> newimg[i, j] == Partial(img, perm, bs, k, i, j)
    {
      ColumnFits(x, rows, cols, k);
      permutation := Column(img, newimg, perm, bs, x, k, permutation);
      k := k + rows;
      x := x + 1;
    }
    AllBlocksDone(img, newimg, perm, bs, k);
  }

  lemma ShuffledLength(rows: nat, cols: nat, perm: seq<Cell>)
    requires multiset(perm) == multiset(Coords(rows, cols))
    ensures |perm| == rows * cols
  {
    assert |perm| == |multiset(perm)|;
  }

  /** Once every listed block is copied the copy is the permuted image. */
  lemma AllBlocksDone(img: array2<Pixel>, newimg: array2<Pixel>, perm: seq<Cell>, bs: int, k: int)
    requires bs > 0 && multiset(perm) == multiset(Coords(img.Length0 / bs, img.Length1 / bs))
    requires newimg.Length0 == img.Length0 && newimg.Length1 == img.Length1 && k == |perm|
    requires forall i, j :: 0 <= i < img.Length0 && 0 <= j < img.Length1 ==> newimg[i, j] == Partial(img, perm, bs, k, i, j)
    ensures forall i, j :: 0 <= i < img.Length0 && 0 <= j < img.Length1 ==> newimg[i, j] == Permuted(img, perm, bs, i, j)
  {
    forall i, j | 0 <= i < img.Length0 && 0 <= j < img.Length1
      ensures newimg[i, j] == Permuted(img, perm, bs, i, j)
    {
      AllDone(img, perm, bs, i, j);
    }
  }

  // ----- the whole operation -----

  /**
   * `anonymize` on a decoded image with the validated `blocksize`: a zero
   * block size fails at the first `//`, a negative one lists no block and
   * leaves the copy as it is, a positive one permutes the blocks. The
   * shuffled listing `perm` stands for what `random.shuffle` makes of the
   * listing after seeding with the configured seed.
   */
  method Anonymize(img: array2<Pixel>, bs: int, perm: seq<Cell>) returns (r: Result<array2<Pixel>>)
    requires bs > 0 ==> multiset(perm) == multiset(Targets(img.Length0, img.Length1, bs))
    ensures r.Err? <==> bs == 0
    ensures r.Err? ==> r.error == ZeroDivisionError
    ensures r.Ok? ==> fresh(r.value) && r.value.Length0 == img.Length0 && r.value.Length1 == img.Length1
    ensures r.Ok? && bs < 0 ==> forall i, j :: 0 <= i < img.Length0 && 0 <= j < img.Length1 ==> r.value[i, j] == img[i, j]
    ensures r.Ok? && bs > 0 ==> forall i, j :: 0 <= i < img.Length0 && 0 <= j < img.Length1 ==>
      r.value[i, j] == Permuted(img, perm, bs, i, j)
  {
    if bs == 0 {
      return Err(ZeroDivisionError);
    }
    var h, w := img.Length0, img.Length1;
    if bs < 0 {
      var newimg := new Pixel[h, w]((i, j) reads img requires 0 <= i < h && 0 <= j < w => img[i, j]);
      return Ok(newimg);
    }
    var newimg := Permute(img, bs, perm);
    return Ok(newimg);
  }

  // ----- which blocks the loops visit -----

  /**
   * The listing as written: `blocks_x` counts the rows (`shape[0]`) but
   * bounds the column index `x`, and `blocks_y` counts the columns but
   * bounds the row index `y`.
   */
  function TargetsAsWritten(h: nat, w: nat, bs: int): seq<Cell>
    requires bs > 0
  {
    Coords(w / bs, h / bs)
  }

  /** The listing with each count bounding its own axis: rows for `y`, columns for `x`. */
  function Targets(h: nat, w: nat, bs: int): seq<Cell>
    requires bs > 0
  {
    Coords(h / bs, w / bs)
  }

  /** The corrected listing holds every block of the grid once, and its k-th entry is the k-th block visited. */
  lemma TargetsVisitOrder(h: nat, w: nat, bs: int, k: int)
    requires bs > 0 && 0 <= k < |Targets(h, w, bs)|
    ensures InGrid(Targets(h, w, bs)[k], h / bs, w / bs)
    ensures Order(h / bs, Targets(h, w, bs)[k]) == k
  {
    var m, n := h / bs, w / bs;
    CoordsCells(m, n, Targets(h, w, bs)[k]);
  }

  /** Every block of the grid is listed by the corrected listing, and none twice. */
  lemma TargetsCoverGrid(h: nat, w: nat, bs: int, c: Cell)
    requires bs > 0
    ensures c in Targets(h, w, bs) <==> InGrid(c, h / bs, w / bs)
    ensures Distinct(Targets(h, w, bs))
  {
    CoordsCells(h / bs, w / bs, c);
    CoordsDistinct(h / bs, w / bs);
  }

  /** The two listings agree exactly when the block grid is square or empty. */
  lemma AsWrittenAgrees(h: nat, w: nat, bs: int)
    requires bs > 0
    ensures TargetsAsWritten(h, w, bs) == Targets(h, w, bs) <==> (h / bs == w / bs || h / bs == 0 || w / bs == 0)
  {
    var a, b := h / bs, w / bs;
    if a == 0 || b == 0 {
      assert |Coords(b, a)| == 0 == |Coords(a, b)|;
    } else if a < b {
      ListingsDiffer(a, b);
    } else if b < a {
      ListingsDiffer(b, a);
    }
  }

  /** Listing a wider grid by the narrower height puts a different cell at place m. */
  lemma ListingsDiffer(m: nat, n: nat)
    requires 0 < m < n
    ensures m < m * n && Coords(n, m)[m] != Coords(m, n)[m]
  {
    MulAtLeast(n - 1, m);
    assert m * n == (n - 1) * m + m;
    DivModOf(0, m, n);
    DivModOf(1, 0, m);
  }

  /**
   * A 2×1 image with one-pixel blocks: as written the loops visit block
   * (0, 1), which lies to the right of the image, and never block (1, 0),
   * the image's lower pixel.
   */
  lemma AsWrittenExample()
    ensures (0, 1) in TargetsAsWritten(2, 1, 1) && !InGrid((0, 1), 2, 1)
    ensures InGrid((1, 0), 2, 1) && (1, 0) !in TargetsAsWritten(2, 1, 1)
    ensures (1, 0) in Targets(2, 1, 1)
  {
    assert TargetsAsWritten(2, 1, 1) == [(0, 0), (0, 1)];
    assert Targets(2, 1, 1) == [(0, 0), (1, 0)];
  }

  /** Two different blocks of the grid are filled from two different blocks. */
  lemma SourceInjective(perm: seq<Cell>, rows: nat, cols: nat, a: Cell, b: Cell)
    requires multiset(perm) == multiset(Coords(rows, cols))
    requires InGrid(a, rows, cols) && InGrid(b, rows, cols) && a != b
    ensures 0 <= Order(rows, a) < |perm| && 0 <= Order(rows, b) < |perm|
    ensures Source(perm, rows, a) != Source(perm, rows, b)
  {
    ShuffledCoords(rows, cols, perm);
    CoordsIndex(rows, cols, a);
    CoordsIndex(rows, cols, b);
    OrderInjective(rows, a, b);
  }
}

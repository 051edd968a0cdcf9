/**
 * Images as the face anonymizations see them: a two-dimensional array of
 * pixels (`cv2.imread` gives rows × columns × BGR). Reading and writing
 * the image file is not part of this model.
 */
module Images {
  import opened PyLib

  /** One pixel, in OpenCV's blue-green-red order. */
  datatype Pixel = Pixel(b: int, g: int, r: int)

  /** The mid-grey `[127, 127, 127]` DP-Snow paints over pixels. */
  const Grey := Pixel(127, 127, 127)

  /** A cell as (row, column). */
  type Cell = (int, int)

  predicate InGrid(c: Cell, m: nat, n: nat) {
    0 <= c.0 < m && 0 <= c.1 < n
  }

  /**
   * `[(y, x) for x in range(n) for y in range(m)]`: every cell of an m×n
   * grid, column by column. The k-th entry is row `k % m` of column `k / m`.
   */
  function Coords(m: nat, n: nat): (cs: seq<Cell>)
    ensures |cs| == m * n
  {
    seq(m * n, k requires 0 <= k < m * n => (k % m, k / m))
  }

  lemma IndexBelow(x: nat, y: nat, m: nat, n: nat)
    requires x < n && y < m
    ensures x * m + y < m * n
  {
    assert x * m + y < x * m + m == (x + 1) * m <= n * m;
  }

  /** Cell (y, x) sits at place `x * m + y` of the column-by-column listing. */
  lemma CoordsIndex(m: nat, n: nat, c: Cell)
    requires InGrid(c, m, n)
    ensures c.1 * m + c.0 < m * n && Coords(m, n)[c.1 * m + c.0] == c
  {
    IndexBelow(c.1, c.0, m, n);
    DivModOf(c.1, c.0, m);
  }

  /** The listing holds exactly the cells of the grid. */
  lemma CoordsCells(m: nat, n: nat, c: Cell)
    ensures c in Coords(m, n) <==> InGrid(c, m, n)
  {
    if InGrid(c, m, n) {
      CoordsIndex(m, n, c);
    }
    if c in Coords(m, n) {
      var k :| 0 <= k < m * n && Coords(m, n)[k] == c;
      assert k / m < n by {
        if k / m >= n {
          MulAtLeast(k / m - n + 1, m);
        }
      }
    }
  }

  /** No cell is listed twice. */
  lemma CoordsDistinct(m: nat, n: nat)
    ensures Distinct(Coords(m, n))
  {
    var cs := Coords(m, n);
    forall i, j | 0 <= i < j < |cs|
      ensures cs[i] != cs[j]
    {
      assert i == (i / m) * m + i % m;
      assert j == (j / m) * m + j % m;
    }
  }

  /** A shuffle of the listing: the same cells, each once, in some order. */
  lemma ShuffledCoords(m: nat, n: nat, cs: seq<Cell>)
    requires multiset(cs) == multiset(Coords(m, n))
    ensures Distinct(cs) && |cs| == m * n
    ensures forall c :: c in cs <==> InGrid(c, m, n)
  {
    CoordsDistinct(m, n);
    PermutationDistinct(Coords(m, n), cs);
    assert |cs| == |multiset(cs)| == |multiset(Coords(m, n))| == m * n;
    forall c
      ensures c in cs <==> InGrid(c, m, n)
    {
      CoordsCells(m, n, c);
      assert c in cs <==> c in multiset(cs);
      assert c in Coords(m, n) <==> c in multiset(Coords(m, n));
    }
  }
}

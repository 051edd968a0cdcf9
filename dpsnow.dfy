/**
 * `DpsnowAnonymization` (DP-Snow): a random share of the pixels of a face
 * image is painted grey. The privacy budget `d` decides the share: the
 * first `int((1 - d) * n)` cells of a shuffled list of all n cells are
 * painted.
 *
 * The shuffle (`random.shuffle`, seeded by `random.seed(seed)` in `init`)
 * is a caller-supplied permutation of the cell listing.
 */
module DPSnow {
  import opened Wrappers
  import opened Values
  import opened PyLib
  import opened Lifecycle
  import opened Images

  const NoBudget: Error := AttributeError("DP-Snow anonymization: missing parameter d (privacy budget)")

  /** `validate_config`: `d` is required; a missing `seed` becomes `None`; nothing else changes. */
  function Validate(config: Config): (r: Result<Config>)
    ensures r.Ok? <==> "d" in config
    ensures r.Err? ==> r.error == NoBudget
    ensures r.Ok? ==> "seed" in r.value && r.value["seed"] == (if "seed" in config then config["seed"] else Null)
    ensures r.Ok? ==> forall k :: k != "seed" ==> (k in r.value <==> k in config)
    ensures r.Ok? ==> forall k :: k in config ==> k in r.value && r.value[k] == config[k]
  {
    if "d" !in config then Err(NoBudget) else Ok(SetDefault(config, "seed", Null))
  }

  const DpsnowHooks: Hooks := Hooks(Validate, c => None)

  /**
   * `int((1 - d) * len(coords))`: how many cells are painted. A budget that
   * is not a number makes the subtraction raise.
   */
  function Budget(d: Value, n: nat): (r: Result<int>)
    ensures r.Ok? <==> IsNumber(d)
    ensures r.Ok? && 0.0 <= NumOf(d) <= 1.0 ==> 0 <= r.value <= n
    ensures r.Ok? && NumOf(d) <= 1.0 ==> r.value as real <= (1.0 - NumOf(d)) * n as real < r.value as real + 1.0
    ensures r.Ok? && NumOf(d) == 0.0 ==> r.value == n
    ensures r.Ok? && NumOf(d) == 1.0 ==> r.value == 0
  {
    if IsNumber(d) then Ok(Cut(n, 1.0 - NumOf(d)))
    else Err(TypeError("unsupported operand type(s) for -"))
  }

  /**
   * Paints the cells `coords[:k]` grey, in place. `coords` is the shuffled
   * listing of every cell of the image.
   */
  method Snow(img: array2<Pixel>, coords: seq<Cell>, k: int)
    requires multiset(coords) == multiset(Coords(img.Length0, img.Length1))
    modifies img
    ensures forall i, j :: 0 <= i < img.Length0 && 0 <= j < img.Length1 ==>
      img[i, j] == (if (i, j) in Upto(coords, k) then Grey else old(img[i, j]))
  {
    ShuffledCoords(img.Length0, img.Length1, coords);
    var painted := Upto(coords, k);
    var t := 0;
    while t < |painted|
      invariant 0 <= t <= |painted|
      invariant forall i, j :: 0 <= i < img.Length0 && 0 <= j < img.Length1 ==>
        img[i, j] == (if (i, j) in painted[..t] then Grey else old(img[i, j]))
    {
      var c := painted[t];
      assert c in coords;
      img[c.0, c.1] := Grey;
      assert painted[..t + 1] == painted[..t] + [c];
      t := t + 1;
    }
    assert painted[..t] == painted;
  }

  /** `anonymize`: the budget is computed before anything is painted; if it raises, the image is untouched. */
  method Anonymize(img: array2<Pixel>, d: Value, coords: seq<Cell>) returns (r: Result<int>)
    requires multiset(coords) == multiset(Coords(img.Length0, img.Length1))
    modifies img
    ensures r == Budget(d, img.Length0 * img.Length1)
    ensures r.Err? ==> forall i, j :: 0 <= i < img.Length0 && 0 <= j < img.Length1 ==> img[i, j] == old(img[i, j])
    ensures r.Ok? ==> forall i, j :: 0 <= i < img.Length0 && 0 <= j < img.Length1 ==>
      img[i, j] == (if (i, j) in Upto(coords, r.value) then Grey else old(img[i, j]))
  {
    ShuffledCoords(img.Length0, img.Length1, coords);
    r := Budget(d, |coords|);
    if r.Ok? {
      Snow(img, coords, r.value);
    }
  }

  /**
   * The painted cells are distinct cells of the image, and there are as
   * many as the budget allows: `k` for a budget between 0 and the pixel
   * count, all but the last `-k` for a negative one.
   */
  lemma {:induction false} SnowCount(m: nat, n: nat, coords: seq<Cell>, k: int)
    requires multiset(coords) == multiset(Coords(m, n))
    ensures Distinct(Upto(coords, k))
    ensures forall c :: c in Upto(coords, k) ==> InGrid(c, m, n)
    ensures |Upto(coords, k)| == Clamp(k, m * n)
    ensures 0 <= k <= m * n ==> |Upto(coords, k)| == k
    ensures -(m * n) <= k < 0 ==> |Upto(coords, k)| == m * n + k
  {
    ShuffledCoords(m, n, coords);
    DistinctCut(coords, k);
  }

  /** With a budget between 0 and 1 exactly `int((1 - d) * n)` distinct pixels turn grey; `d = 1` paints none, `d = 0` all. */
  lemma BudgetShare(m: nat, n: nat, coords: seq<Cell>, d: Value)
    requires multiset(coords) == multiset(Coords(m, n))
    requires IsNumber(d) && 0.0 <= NumOf(d) <= 1.0
    ensures Budget(d, m * n).Ok?
    ensures |Upto(coords, Budget(d, m * n).value)| == Budget(d, m * n).value
    ensures Distinct(Upto(coords, Budget(d, m * n).value))
    ensures NumOf(d) == 0.0 ==> multiset(Upto(coords, Budget(d, m * n).value)) == multiset(Coords(m, n))
    ensures NumOf(d) == 1.0 ==> Upto(coords, Budget(d, m * n).value) == []
  {
    var k := Budget(d, m * n).value;
    SnowCount(m, n, coords, k);
    ShuffledCoords(m, n, coords);
    if NumOf(d) == 0.0 {
      assert Upto(coords, k) == coords;
    }
  }
}

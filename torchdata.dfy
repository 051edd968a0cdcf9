/**
 * The torch datasets the learned de-anonymizations train on: a list of
 * image files, and two such lists read side by side as (input, target)
 * pairs. Decoding the images is not part of this model; an item is the
 * file it would decode.
 */
module TorchData {
  import opened Wrappers
  import opened Values
  import opened PyLib
  import opened Points

  /** A datapoint's file, as `get_path` gives it: folder and file name. */
  type Path = (string, string)

  /** p lists every position below n exactly once. */
  predicate IsPermutation(p: seq<int>, n: nat) {
    |p| == n && (forall i :: 0 <= i < n ==> 0 <= p[i] < n) && Distinct(p) && (forall k :: 0 <= k < n ==> k in p)
  }

  /** The list reordered so that its i-th item is the p[i]-th of the original. */
  function Reorder<T>(xs: seq<T>, p: seq<int>): (ys: seq<T>)
    requires IsPermutation(p, |xs|)
    ensures |ys| == |xs| && forall i :: 0 <= i < |ys| ==> ys[i] == xs[p[i]]
  {
    seq(|xs|, i requires 0 <= i < |xs| => xs[p[i]])
  }

  /** A reordering keeps every item and adds none, each original position used once. */
  lemma ReorderMembers<T>(xs: seq<T>, p: seq<int>, x: T)
    requires IsPermutation(p, |xs|)
    ensures x in Reorder(xs, p) <==> x in xs
  {
    var ys := Reorder(xs, p);
    if x in xs {
      var k :| 0 <= k < |xs| && xs[k] == x;
      assert k in p;
      var i :| 0 <= i < |p| && p[i] == k;
      assert ys[i] == x;
    }
  }

  /**
   * `random.seed(seed); random.shuffle(l)` on a list of length n: the order
   * it leaves, which the seed and the length fix.
   */
  type Shuffler = (Value, nat) -> seq<int>

  ghost predicate Shuffles(sh: Shuffler) {
    forall seed, n :: IsPermutation(sh(seed, n), n)
  }

  /** The files two lists hold side by side. */
  function Zip(a: seq<Path>, b: seq<Path>): (z: seq<(Path, Path)>)
    requires |a| == |b|
    ensures |z| == |a| && forall i :: 0 <= i < |z| ==> z[i] == (a[i], b[i])
  {
    seq(|a|, i requires 0 <= i < |a| => (a[i], b[i]))
  }

  /** Reordering both sides the same way reorders the pairs: every pair stays together. */
  lemma ZipReorder(a: seq<Path>, b: seq<Path>, p: seq<int>)
    requires |a| == |b| && IsPermutation(p, |a|)
    ensures Zip(Reorder(a, p), Reorder(b, p)) == Reorder(Zip(a, b), p)
  {
  }

  /** Cutting both sides at the same point cuts the pairs there. */
  lemma ZipCut(a: seq<Path>, b: seq<Path>, k: int)
    requires |a| == |b|
    ensures |Upto(a, k)| == |Upto(b, k)| && |From(a, k)| == |From(b, k)|
    ensures Zip(Upto(a, k), Upto(b, k)) == Upto(Zip(a, b), k)
    ensures Zip(From(a, k), From(b, k)) == From(Zip(a, b), k)
  {
  }

  class TorchImageDataset {
    var filenames: seq<Path>
    /** `len`, counted once at construction. */
    const len: int

    ghost predicate Valid()
      reads this
    {
      len == |filenames|
    }

    constructor (filenames: seq<Path>)
      ensures this.filenames == filenames && len == |filenames| && Valid()
    {
      this.filenames := filenames;
      len := |filenames|;
    }

    /**
     * `split(rate)`: two new datasets, the files before `int(len * rate)`
     * and those from there on; together they are the files in order.
     */
    method Split(rate: real) returns (a: TorchImageDataset, b: TorchImageDataset)
      requires Valid()
      ensures fresh(a) && fresh(b) && a.Valid() && b.Valid()
      ensures a.filenames == Upto(filenames, Cut(len, rate)) && b.filenames == From(filenames, Cut(len, rate))
      ensures a.filenames + b.filenames == filenames
      ensures 0.0 <= rate <= 1.0 ==> a.len == Cut(len, rate) && b.len == len - Cut(len, rate)
    {
      var threshold := Cut(len, rate);
      CutPartition(filenames, threshold);
      a := new TorchImageDataset(Upto(filenames, threshold));
      b := new TorchImageDataset(From(filenames, threshold));
    }

    /** `shuffle(seed)`: the files reordered in place as the seeded shuffle orders them. */
    method Shuffle(seed: Value, sh: Shuffler)
      requires Valid() && Shuffles(sh)
      modifies this
      ensures filenames == Reorder(old(filenames), sh(seed, |old(filenames)|)) && Valid()
    {
      filenames := Reorder(filenames, sh(seed, |filenames|));
    }

    /** `__getitem__(index)`: the file at that position (negative positions count from the end). */
    method Item(index: int) returns (r: Result<Path>)
      ensures r.Ok? <==> -|filenames| <= index < |filenames|
      ensures r.Err? ==> r.error == IndexError
      ensures r.Ok? ==> (r.value in filenames &&
        r.value == filenames[if index < 0 then index + |filenames| else index])
    {
      if !(-|filenames| <= index < |filenames|) {
        return Err(IndexError);
      }
      var k := if index < 0 then index + |filenames| else index;
      return Ok(filenames[k]);
    }

    /**
     * `from_set(set)`: the files of the set's datapoints, in order. The
     * first datapoint decides: it must be an `Image` or a `PNGImage`; an
     * empty set has no first datapoint.
     */
    static method FromSet(points: seq<Datapoint>) returns (r: Result<TorchImageDataset>)
      ensures r.Ok? <==> |points| > 0 && points[0].kind in {Image, PNGImage}
      ensures |points| == 0 ==> r.Err? && r.error == IndexError
      ensures |points| > 0 && points[0].kind !in {Image, PNGImage} ==> r.Err? && r.error == NotImages
      ensures r.Ok? ==> (fresh(r.value) && r.value.Valid() && |r.value.filenames| == |points| &&
        forall i :: 0 <= i < |points| ==> r.value.filenames[i] == points[i].GetPath())
    {
      if |points| == 0 {
        return Err(IndexError);
      }
      if points[0].kind !in {Image, PNGImage} {
        return Err(NotImages);
      }
      var files := seq(|points|, i requires 0 <= i < |points| => points[i].GetPath());
      var d := new TorchImageDataset(files);
      return Ok(d);
    }
  }

  const NotImages := AttributeError("TorchImageDataset: Datapoints must be images")
  const LengthsDiffer := ValueError("the two sets must be same length")

  class TupleDataset {
    const set1: TorchImageDataset
    const set2: TorchImageDataset
    const len: int

    ghost predicate Valid()
      reads this, set1, set2
    {
      set1.Valid() && set2.Valid() && len == set1.len == set2.len
    }

    /** The pairs the dataset hands out, item by item. */
    ghost function Pairs(): (z: seq<(Path, Path)>)
      requires Valid()
      reads this, set1, set2
      ensures |z| == len
    {
      Zip(set1.filenames, set2.filenames)
    }

    constructor (set1: TorchImageDataset, set2: TorchImageDataset)
      requires set1.len == set2.len
      ensures this.set1 == set1 && this.set2 == set2 && len == set1.len
    {
      this.set1 := set1;
      this.set2 := set2;
      len := set1.len;
    }

    /** `TupleDataset(set1, set2)`, which raises ValueError when the lengths differ. */
    static method Make(set1: TorchImageDataset, set2: TorchImageDataset) returns (r: Result<TupleDataset>)
      ensures r.Err? <==> set1.len != set2.len
      ensures r.Err? ==> r.error == LengthsDiffer
      ensures r.Ok? ==> fresh(r.value) && r.value.set1 == set1 && r.value.set2 == set2 && r.value.len == set1.len
    {
      if set1.len != set2.len {
        return Err(LengthsDiffer);
      }
      var t := new TupleDataset(set1, set2);
      return Ok(t);
    }

    /** `__getitem__(index)`: the two files at that position. */
    method Item(index: int) returns (r: Result<(Path, Path)>)
      requires Valid()
      ensures r.Ok? <==> -len <= index < len
      ensures r.Err? ==> r.error == IndexError
      ensures r.Ok? ==> r.value == Pairs()[if index < 0 then index + len else index]
    {
      var a := set1.Item(index);
      if a.Err? {
        return Err(a.error);
      }
      var b := set2.Item(index);
      return Ok((a.value, b.value));
    }

    /** `split(rate)`: both sides cut at the same point, so each part keeps its pairs together. */
    method Split(rate: real) returns (a: TupleDataset, b: TupleDataset)
      requires Valid()
      ensures fresh(a) && fresh(b) && a.Valid() && b.Valid()
      ensures a.Pairs() == Upto(Pairs(), Cut(len, rate)) && b.Pairs() == From(Pairs(), Cut(len, rate))
      ensures a.Pairs() + b.Pairs() == Pairs()
    {
      var s1a, s1b := set1.Split(rate);
      var s2a, s2b := set2.Split(rate);
      ZipCut(set1.filenames, set2.filenames, Cut(len, rate));
      CutPartition(Pairs(), Cut(len, rate));
      a := new TupleDataset(s1a, s2a);
      b := new TupleDataset(s1b, s2b);
    }

    /**
     * `shuffle(seed)`: each side re-seeded with the same seed and shuffled,
     * so both get the same order and every pair stays together. When both
     * sides are one dataset it is shuffled twice.
     */
    method Shuffle(seed: Value, sh: Shuffler)
      requires Valid() && Shuffles(sh)
      modifies set1, set2
      ensures Valid()
      ensures set1 != set2 ==> Pairs() == Reorder(old(Pairs()), sh(seed, len))
      ensures set1 == set2 ==> set1.filenames == Reorder(Reorder(old(set1.filenames), sh(seed, len)), sh(seed, len))
    {
      set1.Shuffle(seed, sh);
      set2.Shuffle(seed, sh);
      if set1 != set2 {
        ZipReorder(old(set1.filenames), old(set2.filenames), sh(seed, len));
      }
    }
  }
}

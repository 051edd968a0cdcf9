/**
 * `chunks(lst, n)` of the dataset split script: cut a list of datapoint
 * keys into at most `n` consecutive parts of `ceil(len / n)` items each,
 * the last one possibly shorter.
 */
module Chunking {
  import opened Wrappers
  import opened PyLib

  /** `math.ceil(len / n)` for a positive `n`. */
  function ChunkSize(len: nat, n: nat): (c: nat)
    requires n >= 1
    ensures c * n >= len
    ensures c * n < len + n
  {
    CeilDiv(len, n)
  }

  /** Integer ceiling division, with the two bounds that characterise it. */
  function CeilDiv(a: nat, n: nat): (c: nat)
    requires n >= 1
    ensures c * n >= a && c * n < a + n
  {
    var q := (a + n - 1) / n;
    var r := (a + n - 1) % n;
    assert q * n + r == a + n - 1;
    q
  }

  /**
   * The promise `chunks` keeps: the parts concatenate back to the list,
   * none is empty, each is `ChunkSize` long except that the last may be
   * shorter, and there are at most `n` of them.
   */
  ghost predicate Chunked<T>(lst: seq<T>, n: nat, parts: seq<seq<T>>)
    requires n >= 1
  {
    Flatten(parts) == lst &&
    |parts| <= n &&
    (forall j :: 0 <= j < |parts| ==> 0 < |parts[j]| <= ChunkSize(|lst|, n)) &&
    (forall j :: 0 <= j < |parts| - 1 ==> |parts[j]| == ChunkSize(|lst|, n))
  }

  /** `chunks`: a `ZeroDivisionError` for `n == 0`, otherwise a chunking of `lst`. */
  method Chunks<T>(lst: seq<T>, n: nat) returns (r: Result<seq<seq<T>>>)
    ensures r.Err? <==> n == 0
    ensures r.Err? ==> r.error == ZeroDivisionError
    ensures r.Ok? ==> n >= 1 && Chunked(lst, n, r.value)
  {
    if n == 0 {
      return Err(ZeroDivisionError);
    }
    var size := ChunkSize(|lst|, n);
    var parts: seq<seq<T>> := [];
    var start := 0;
    while start < |lst|
      invariant Progress(lst, parts, start, size)
      decreases |lst| - start
    {
      var part := Slice(lst, start, start + size);
      Grow(lst, parts, start, size);
      parts := parts + [part];
      start := start + size;
    }
    FewerThanN(|parts|, size, |lst|, n);
    return Ok(parts);
  }

  /** The loop's state: the parts cut so far, all but a last short one full, covering the list up to `start`. */
  ghost predicate Progress<T>(lst: seq<T>, parts: seq<seq<T>>, start: nat, size: nat) {
    && start == |parts| * size
    && (start <= |lst| ==> Flatten(parts) == lst[..start])
    && (start > |lst| ==> Flatten(parts) == lst)
    && (forall j :: 0 <= j < |parts| ==> 0 < |parts[j]| <= size)
    && (forall j :: 0 <= j < |parts| - 1 ==> |parts[j]| == size)
    && (|parts| > 0 && |parts[|parts| - 1]| < size ==> start >= |lst|)
    && (|parts| == 0 || (|parts| - 1) * size < |lst|)
  }

  /** One more part keeps the loop's state. */
  lemma Grow<T>(lst: seq<T>, parts: seq<seq<T>>, start: nat, size: nat)
    requires Progress(lst, parts, start, size) && start < |lst| && size >= 1
    ensures Progress(lst, parts + [Slice(lst, start, start + size)], start + size, size)
  {
    var part := Slice(lst, start, start + size);
    assert part == lst[start..if start + size <= |lst| then start + size else |lst|];
    assert (parts + [part])[..|parts|] == parts;
    assert Flatten(parts + [part]) == Flatten(parts) + part;
    if start + size <= |lst| {
      assert lst[..start] + part == lst[..start + size];
    } else {
      assert lst[..start] + part == lst;
    }
    assert start + size == (|parts| + 1) * size;
  }

  /** `(k - 1) * size < len <= n * size` leaves room for at most `n` parts. */
  lemma FewerThanN(k: nat, size: nat, len: nat, n: nat)
    requires k == 0 || (k - 1) * size < len
    requires size * n >= len
    ensures k <= n
  {
    if k > n {
      assert (k - 1) * size >= n * size by {
        MulMono(n, k - 1, size);
      }
    }
  }

  lemma MulMono(a: nat, b: nat, s: nat)
    requires a <= b
    ensures a * s <= b * s
  {
  }

  /** A list that fits one part stays whole; an empty list gives no parts. */
  lemma {:induction false} EmptyGivesNothing<T>(n: nat, parts: seq<seq<T>>)
    requires n >= 1 && Chunked([], n, parts)
    ensures parts == []
  {
    if |parts| > 0 {
      FlattenLast(parts);
    }
  }

  lemma FlattenLast<T>(parts: seq<seq<T>>)
    requires |parts| > 0
    ensures |Flatten(parts)| >= |parts[|parts| - 1]|
  {
  }
}

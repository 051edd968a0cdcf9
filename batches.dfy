/**
 * The batched loops of the external-program anonymizations:
 * `while i * size < len(points)` takes `points[i * size:(i + 1) * size]`
 * as its i-th round.
 */
module Batches {
  import opened Wrappers
  import opened PyLib
  import opened Store

  /** `list(datapoints)[i * size : (i + 1) * size]`. */
  function Batch<T>(points: seq<T>, size: int, i: nat): seq<T> {
    Slice(points, i * size, (i + 1) * size)
  }

  lemma ClampMonotone(a: int, b: int, n: nat)
    requires a <= b && (b < 0 || a >= 0)
    ensures Clamp(a, n) <= Clamp(b, n)
  {
  }

  /** Past the first round a size below 1 gives only empty rounds. */
  lemma LaterRoundsEmpty<T>(points: seq<T>, size: int, i: nat)
    requires size <= 0 && i >= 1
    ensures Batch(points, size, i) == []
  {
    assert (i + 1) * size == i * size + size;
    ClampMonotone((i + 1) * size, i * size, |points|);
  }

  /**
   * The rounds from round `i` on: they go on while `i * size` is below the
   * number of items; an empty round is the last one listed, since a
   * caller that looks at a round's first item raises there.
   */
  function RoundsFrom<T>(points: seq<T>, size: int, i: nat): (rs: seq<seq<T>>)
    decreases if size > 0 then |points| - i * size else 1 - i
  {
    if i * size >= |points| then []
    else
      var b := Batch(points, size, i);
      if b == [] then [b]
      else
        assert size > 0 || i == 0 by {
          if size <= 0 && i >= 1 {
            LaterRoundsEmpty(points, size, i);
          }
        }
        assert (i + 1) * size == i * size + size;
        [b] + RoundsFrom(points, size, i + 1)
  }

  /** One round of the batched run with a positive size: the next `size` items, or the rest. */
  lemma RoundStep<T>(points: seq<T>, size: int, i: nat)
    requires size > 0 && i * size < |points|
    ensures 0 <= i * size && (i + 1) * size == i * size + size
    ensures i * size + size <= |points| ==>
      RoundsFrom(points, size, i) == [points[i * size..i * size + size]] + RoundsFrom(points, size, i + 1)
    ensures i * size + size > |points| ==> RoundsFrom(points, size, i) == [points[i * size..]]
  {
    assert (i + 1) * size == i * size + size;
    if i > 0 {
      MulAtLeast(i, size);
    }
    if i * size + size > |points| {
      assert Batch(points, size, i) == points[i * size..];
      assert RoundsFrom(points, size, i + 1) == [];
    } else {
      assert Batch(points, size, i) == points[i * size..i * size + size];
    }
  }

  /** With a positive size the rounds cut the datapoints into pieces that, joined in order, give them back. */
  lemma {:induction false} RoundsFlatten<T>(points: seq<T>, size: int, i: nat)
    requires size > 0 && i * size <= |points|
    ensures Flatten(RoundsFrom(points, size, i)) == points[i * size..]
    decreases |points| - i * size
  {
    var at := i * size;
    if at < |points| {
      RoundStep(points, size, i);
      if at + size <= |points| {
        RoundsFlatten(points, size, i + 1);
        FlattenCons(points[at..at + size], RoundsFrom(points, size, i + 1));
        assert points[at..] == points[at..at + size] + points[at + size..];
      } else {
        FlattenCons(points[at..], []);
      }
    }
  }

  lemma FlattenCons<T>(b: seq<T>, more: seq<seq<T>>)
    ensures Flatten([b] + more) == b + Flatten(more)
  {
    assert [b][..0] == [];
    FlattenConcat([b], more);
  }

  /** With a positive size every round holds at least one and at most `size` items. */
  lemma {:induction false} RoundsSizes<T>(points: seq<T>, size: int, i: nat)
    requires size > 0 && i * size <= |points|
    ensures var rs := RoundsFrom(points, size, i); forall k :: 0 <= k < |rs| ==> 0 < |rs[k]| <= size
    decreases |points| - i * size
  {
    if i * size < |points| {
      RoundStep(points, size, i);
      if i * size + size <= |points| {
        RoundsSizes(points, size, i + 1);
        var more := RoundsFrom(points, size, i + 1);
        var b := points[i * size..i * size + size];
        forall k | 1 <= k < |more| + 1
          ensures ([b] + more)[k] == more[k - 1]
        {
        }
      }
    }
  }

  /** A positive size makes `ceil(n / size)` rounds out of the items left from round `i` on. */
  lemma {:induction false} RoundsCount<T>(points: seq<T>, size: int, i: nat)
    requires size > 0 && i * size <= |points|
    ensures |RoundsFrom(points, size, i)| == (|points| - i * size + size - 1) / size
    decreases |points| - i * size
  {
    var n := |points|;
    var at := i * size;
    if at < n {
      RoundStep(points, size, i);
      if at + size <= n {
        RoundsCount(points, size, i + 1);
        DivNext(n - at - 1, size);
      } else {
        DivModOf(1, n - at - 1, size);
      }
    }
  }

  /** With a positive size the last round starts at the last multiple of `size` below the item count. */
  lemma {:induction false} LastRound<T>(points: seq<T>, size: int, i: nat)
    requires size > 0 && i * size < |points|
    ensures var rs := RoundsFrom(points, size, i);
      0 <= (|points| - 1) / size * size < |points| && |rs| > 0 && rs[|rs| - 1] == points[(|points| - 1) / size * size..]
    decreases |points| - i * size
  {
    var n := |points|;
    var at := i * size;
    RoundStep(points, size, i);
    if at + size < n {
      LastRound(points, size, i + 1);
      var more := RoundsFrom(points, size, i + 1);
      assert ([points[at..at + size]] + more)[|more|] == more[|more| - 1];
    } else {
      DivModOf(i, n - 1 - at, size);
      assert (n - 1) / size == i;
      if at + size == n {
        assert RoundsFrom(points, size, i + 1) == [];
        assert points[at..at + size] == points[at..];
      }
    }
  }

  /** A count one above a multiple of the size leaves the last item alone in the last round. */
  lemma LoneLast<T>(points: seq<T>, size: int)
    requires size > 0 && |points| % size == 1
    ensures var rs := RoundsFrom(points, size, 0); |rs| > 0 && rs[|rs| - 1] == [points[|points| - 1]]
  {
    LastRound(points, size, 0);
    RemainderOne(|points|, size);
  }

  lemma RemainderOne(n: nat, size: int)
    requires size > 0 && n % size == 1
    ensures (n - 1) / size * size == n - 1
  {
    var q := n / size;
    assert n - 1 == q * size;
    DivModOf(q, 0, size);
  }

  /** With a size below 1 and at least one item, the rounds end on an empty one, at the latest the second. */
  lemma EndsEmpty<T>(points: seq<T>, size: int)
    requires size <= 0 && |points| > 0
    ensures var rs := RoundsFrom(points, size, 0); |rs| > 0 && rs[|rs| - 1] == [] && |rs| <= 2
  {
    var b := Batch(points, size, 0);
    if b != [] {
      LaterRoundsEmpty(points, size, 1);
      assert 1 * size < |points|;
    }
  }

  // ----- the batch folder -----

  /**
   * An external program: what it writes into the folder it runs on, given
   * its command line and the images of that folder; `None` when it exits
   * with a non-zero code.
   */
  type Program = (seq<string>, seq<string>) -> Option<Folder>

  /** What `exec_ext_cmd` raises for a non-zero exit code. */
  const ExitMessage: string := "External command returned non-zero exit-code!"

  /** `os.path.join(self.dataset.folder, "batch")`. */
  function BatchFolder(name: string): (b: string)
    ensures b != name
  {
    name + "/batch"
  }

  /** The batch folder after `os.symlink` for every file: a link to that file of the dataset. */
  function Links(name: string, files: seq<string>): (l: Folder)
    ensures l.Keys == set f | f in files
    ensures forall f :: f in l ==> l[f] == Link(name, f)
  {
    map f | f in files :: Link(name, f)
  }

  /** `os.symlink` for every image of the round, into the new, empty batch folder. */
  method LinkAll(disk: Disk, folder: string, name: string, batch: seq<string>)
    requires folder in disk.folders && disk.folders[folder] == map[]
    modifies disk
    ensures disk.metas == old(disk.metas)
    ensures disk.folders == old(disk.folders)[folder := Links(name, batch)]
  {
    var i := 0;
    assert Links(name, batch[..0]) == map[];
    while i < |batch|
      invariant 0 <= i <= |batch|
      invariant disk.metas == old(disk.metas)
      invariant disk.folders == old(disk.folders)[folder := Links(name, batch[..i])]
    {
      assert Links(name, batch[..i + 1]) == Links(name, batch[..i])[batch[i] := Link(name, batch[i])] by {
        assert batch[..i + 1] == batch[..i] + [batch[i]];
      }
      disk.WriteFile(folder, batch[i], Link(name, batch[i]));
      i := i + 1;
    }
    assert batch[..i] == batch;
  }
}

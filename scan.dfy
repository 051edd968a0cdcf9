/**
 * What `Dataset.scan_folder` builds from the sorted file names of a
 * dataset folder: the identities (in order of first appearance), their
 * point counts, and the datapoints keyed `<identity>.<point>`.
 */
module Scan {
  import opened Wrappers
  import opened Text
  import opened PyLib
  import opened Points

  datatype PointInfo = PointInfo(idname: string, pointname: string, kind: PointKind)

  /** `self.identities` (order, and each `Identity.npoints`) and `self.datapoints`. */
  datatype Index = Index(
    identities: seq<string>,
    npoints: map<string, nat>,
    datapoints: seq<string>,
    points: map<string, PointInfo>)

  const EmptyIndex: Index := Index([], map[], [], map[])

  /** The key a file's point is stored under: its first two segments. */
  function PointKey(idname: string, pointname: string): string {
    idname + "." + pointname
  }

  /** The shape every scanned index has. */
  ghost predicate IndexValid(idx: Index) {
    Distinct(idx.identities) && Distinct(idx.datapoints) &&
    (forall id :: id in idx.npoints <==> id in idx.identities) &&
    (forall id :: id in idx.npoints ==> '.' !in id) &&
    (forall k :: k in idx.points <==> k in idx.datapoints) &&
    (forall k :: k in idx.points ==>
      var p := idx.points[k];
      p.idname in idx.npoints && '.' !in p.idname && '.' !in p.pointname &&
      k == PointKey(p.idname, p.pointname))
  }

  /**
   * One iteration of the scan over a file: a datapoint file registers its
   * identity (if new), (re)binds its key to a point of its kind and counts
   * one more point for the identity. A datapoint file with no dot
   * (exactly `jpg`, `png` or `mocap`) fails on `split(".")[1]`.
   */
  function ScanStep(idx: Index, file: string): Result<Index> {
    match KindOf(file)
    case None => Ok(idx)
    case Some(k) =>
      var parts := Split(file, '.');
      var id := parts[0];
      var idx1 := if id in idx.npoints then idx
                  else idx.(identities := idx.identities + [id], npoints := idx.npoints[id := 0]);
      if |parts| < 2 then Err(IndexError)
      else
        var key := PointKey(id, parts[1]);
        Ok(idx1.(
          datapoints := if key in idx1.points then idx1.datapoints else idx1.datapoints + [key],
          points := idx1.points[key := PointInfo(id, parts[1], k)],
          npoints := idx1.npoints[id := idx1.npoints[id] + 1]))
  }

  /** The scan over `files` in order, from an empty index. */
  function ScanFiles(files: seq<string>): Result<Index>
  {
    if |files| == 0 then Ok(EmptyIndex)
    else match ScanFiles(files[..|files| - 1])
      case Err(e) => Err(e)
      case Ok(idx) => ScanStep(idx, files[|files| - 1])
  }

  /** A file that stops the scan stops it for good: later files are never looked at. */
  lemma {:induction false} ScanErrorSticks(files: seq<string>, n: nat)
    requires n <= |files| && ScanFiles(files[..n]).Err?
    ensures ScanFiles(files) == ScanFiles(files[..n])
    decreases |files| - n
  {
    if n < |files| {
      assert files[..n + 1][..n] == files[..n];
      ScanErrorSticks(files, n + 1);
    } else {
      assert files[..n] == files;
    }
  }

  lemma ScanStepValid(idx: Index, file: string)
    requires IndexValid(idx)
    requires ScanStep(idx, file).Ok?
    ensures IndexValid(ScanStep(idx, file).value)
  {
    if KindOf(file).Some? {
      var parts := Split(file, '.');
      var id := parts[0];
      assert '.' !in id && '.' !in parts[1];
      RegisterValid(idx, id);
      var idx1 := if id in idx.npoints then idx
                  else idx.(identities := idx.identities + [id], npoints := idx.npoints[id := 0]);
      BindValid(idx1, id, parts[1], KindOf(file).value);
    }
  }

  /** Registering a new identity keeps the index well formed. */
  lemma RegisterValid(idx: Index, id: string)
    requires IndexValid(idx) && '.' !in id
    ensures var idx1 := if id in idx.npoints then idx
                        else idx.(identities := idx.identities + [id], npoints := idx.npoints[id := 0]);
      IndexValid(idx1) && id in idx1.npoints
  {
    if id !in idx.npoints {
      DistinctConcat(idx.identities, [id]);
    }
  }

  /** Binding a point of a registered identity keeps the index well formed. */
  lemma BindValid(idx1: Index, id: string, pointname: string, k: PointKind)
    requires IndexValid(idx1) && id in idx1.npoints && '.' !in id && '.' !in pointname
    ensures var key := PointKey(id, pointname);
      IndexValid(idx1.(
        datapoints := if key in idx1.points then idx1.datapoints else idx1.datapoints + [key],
        points := idx1.points[key := PointInfo(id, pointname, k)],
        npoints := idx1.npoints[id := idx1.npoints[id] + 1]))
  {
    var key := PointKey(id, pointname);
    if key !in idx1.points {
      DistinctConcat(idx1.datapoints, [key]);
    }
  }

  /** Every scanned index is well formed (keys unique, each point's identity registered). */
  lemma {:induction false} ScanValid(files: seq<string>)
    requires ScanFiles(files).Ok?
    ensures IndexValid(ScanFiles(files).value)
  {
    if |files| > 0 {
      ScanValid(files[..|files| - 1]);
      ScanStepValid(ScanFiles(files[..|files| - 1]).value, files[|files| - 1]);
    }
  }

  /** How many datapoint files of `files` belong to identity `id`. */
  function CountFiles(files: seq<string>, id: string): nat {
    if |files| == 0 then 0
    else
      var f := files[|files| - 1];
      CountFiles(files[..|files| - 1], id) + if KindOf(f).Some? && Split(f, '.')[0] == id then 1 else 0
  }

  /**
   * `Identity.npoints` counts datapoint FILES: two files that share a key
   * (`a.1.jpg`, `a.1.png`) count twice though only one point is kept.
   */
  lemma {:induction false} ScanCounts(files: seq<string>, id: string)
    requires ScanFiles(files).Ok?
    ensures id in ScanFiles(files).value.npoints ==> ScanFiles(files).value.npoints[id] == CountFiles(files, id)
    ensures id !in ScanFiles(files).value.npoints ==> CountFiles(files, id) == 0
  {
    if |files| > 0 {
      ScanCounts(files[..|files| - 1], id);
    }
  }

  /** `point_by_id` for one identity: the keys (in datapoint order) starting with `id + "."`. */
  function PointsOf(keys: seq<string>, id: string): (r: seq<string>)
    ensures forall k :: k in r <==> k in keys && StartsWith(k, id + ".")
  {
    if |keys| == 0 then []
    else (if StartsWith(keys[0], id + ".") then [keys[0]] else []) + PointsOf(keys[1..], id)
  }

  /** `point_by_id()`: the point keys of each identity, in identity order. */
  function PointById(idx: Index): (r: seq<seq<string>>)
    ensures |r| == |idx.identities|
  {
    seq(|idx.identities|, i requires 0 <= i < |idx.identities| => PointsOf(idx.datapoints, idx.identities[i]))
  }

  lemma NoDotAt(s: string, a: string, i: int)
    requires '.' !in a && 0 <= i < |a| <= |s| && s[..|a|] == a
    ensures s[i] != '.'
  {
    assert s[..|a|][i] == s[i];
    assert a[i] in a;
  }

  lemma DotAfter(a: string, b: string)
    ensures (a + "." + b)[|a|] == '.'
  {
  }

  lemma DotFreePrefix(id: string, id2: string, p: string)
    requires '.' !in id && '.' !in id2
    requires StartsWith(id2 + "." + p, id + ".")
    ensures id == id2
  {
    var k := id2 + "." + p;
    assert k[..|id| + 1] == id + ".";
    if |id| < |id2| {
      NoDotAt(id2 + "." + p, id2, |id|);
      DotAfter(id, "");
      assert false;
    } else if |id| > |id2| {
      NoDotAt(id + ".", id, |id2|);
      DotAfter(id2, p);
      assert false;
    } else {
      assert k[..|id|] == id2;
      assert k[..|id| + 1][..|id|] == (id + ".")[..|id|];
    }
  }

  /**
   * `point_by_id` partitions the datapoints: a key is in the group of
   * exactly its own identity.
   */
  lemma PointByIdPartition(idx: Index, i: nat, k: string)
    requires IndexValid(idx) && i < |idx.identities|
    ensures k in PointById(idx)[i] <==> k in idx.points && idx.points[k].idname == idx.identities[i]
  {
    var id := idx.identities[i];
    if k in PointById(idx)[i] {
      var p := idx.points[k];
      DotFreePrefix(id, p.idname, p.pointname);
    }
  }

  lemma {:induction false} PointsOfDistinct(keys: seq<string>, id: string)
    requires Distinct(keys)
    ensures Distinct(PointsOf(keys, id))
  {
    if |keys| > 0 {
      var rest := keys[1..];
      assert Distinct(rest) by {
        forall i, j | 0 <= i < j < |rest| ensures rest[i] != rest[j] {
          assert rest[i] == keys[i + 1] && rest[j] == keys[j + 1];
        }
      }
      PointsOfDistinct(rest, id);
      var head := if StartsWith(keys[0], id + ".") then [keys[0]] else [];
      forall x | x in head ensures x !in PointsOf(rest, id) {
        forall m | 0 <= m < |rest| ensures rest[m] != keys[0] {
          assert rest[m] == keys[m + 1];
        }
      }
      DistinctConcat(head, PointsOf(rest, id));
    }
  }

  /**
   * The groups of `point_by_id` hold every datapoint exactly once: their
   * concatenation is a reordering of the datapoints.
   */
  lemma PointByIdCovers(idx: Index)
    requires IndexValid(idx)
    ensures Distinct(Flatten(PointById(idx)))
    ensures forall k :: k in Flatten(PointById(idx)) <==> k in idx.datapoints
    ensures multiset(Flatten(PointById(idx))) == multiset(idx.datapoints)
  {
    var gs := PointById(idx);
    PointByIdDistinct(idx);
    PointByIdMembers(idx);
    DistinctMultiset(Flatten(gs));
    DistinctMultiset(idx.datapoints);
    forall k ensures multiset(Flatten(gs))[k] == multiset(idx.datapoints)[k] {
      if k in idx.datapoints {
        assert k in Flatten(gs);
      }
    }
    assert multiset(Flatten(gs)) == multiset(idx.datapoints);
  }

  lemma PointByIdDistinct(idx: Index)
    requires IndexValid(idx)
    ensures Distinct(Flatten(PointById(idx)))
  {
    var gs := PointById(idx);
    forall i | 0 <= i < |gs| ensures Distinct(gs[i]) {
      PointsOfDistinct(idx.datapoints, idx.identities[i]);
    }
    forall i, j, x | 0 <= i < j < |gs| && x in gs[i] ensures x !in gs[j] {
      PointByIdPartition(idx, i, x);
      PointByIdPartition(idx, j, x);
    }
    FlattenDistinct(gs);
  }

  lemma PointByIdMembers(idx: Index)
    requires IndexValid(idx)
    ensures forall k :: k in Flatten(PointById(idx)) <==> k in idx.datapoints
  {
    var gs := PointById(idx);
    forall k ensures k in Flatten(gs) <==> k in idx.datapoints {
      FlattenMember(gs, k);
      if k in idx.datapoints {
        var id := idx.points[k].idname;
        var i :| 0 <= i < |idx.identities| && idx.identities[i] == id;
        PointByIdPartition(idx, i, k);
      } else if k in Flatten(gs) {
        var i :| 0 <= i < |gs| && k in gs[i];
        PointByIdPartition(idx, i, k);
      }
    }
  }
}

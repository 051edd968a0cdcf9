/**
 * `AbstractSplitter.run`: check the number of inputs, let the splitter
 * create (or find in the cache) its parts, check the number of outputs,
 * and record on each part where it came from.
 */
module SplitterRun {
  import opened Wrappers
  import opened Values
  import opened Text
  import opened PyLib
  import opened Store
  import opened Scan
  import opened Manager
  import opened Datasets
  import opened Splitters
  import opened SplitterCache

  /** The parent folders (and every other existing folder) are left as they were. */
  ghost predicate FoldersKept(before: map<string, Folder>, after: map<string, Folder>) {
    forall n :: n in before ==> n in after && after[n] == before[n]
  }

  /** The metadata of every dataset that already existed is left as it was. */
  ghost predicate MetasKept(before: map<string, Value>, after: map<string, Value>) {
    forall n :: n in before ==> n in after && after[n] == before[n]
  }

  /** `os.listdir` of each input's folder (an opened dataset's folder exists). */
  ghost predicate ListsFolders(inputs: seq<Dataset>, listings: seq<seq<string>>, folders: map<string, Folder>)
    reads set d | d in inputs
  {
    |listings| == |inputs| &&
    forall i :: 0 <= i < |inputs| ==>
      inputs[i].name in folders && Distinct(listings[i]) &&
      forall x :: x in listings[i] <==> x in folders[inputs[i].name]
  }

  /**
   * What a created part is: a soft-linked dataset named by its uuid,
   * whose metadata records its parent, and whose folder links exactly the
   * parent's files the filters admit.
   */
  ghost predicate MadeFrom(d: Dataset, parent: Dataset, listing: seq<string>, s: Step, uuid: string, folders: map<string, Folder>)
    requires s.Make?
    reads d, parent
  {
    d.name == uuid && d.softlinked && d.Valid() &&
    DerivedMeta(parent.meta, parent.name, uuid, true).Ok? &&
    d.meta == DerivedMeta(parent.meta, parent.name, uuid, true).value &&
    Links(folders, parent.name, listing, s, uuid)
  }

  /** The folder `uuid` links exactly the files of `listing` the step's filters admit, each to `parentName`. */
  ghost predicate Links(folders: map<string, Folder>, parentName: string, listing: seq<string>, s: Step, uuid: string)
    requires s.Make?
  {
    uuid in folders &&
    (forall f :: f in folders[uuid] <==> f in listing && CopyDecision(f, s.onlyIds, s.onlyPoints) == Ok(true)) &&
    (forall f :: f in folders[uuid] ==> folders[uuid][f] == Link(parentName, f))
  }

  /** A step that makes a part left on disk the links `Links` describes, from the step's input. */
  ghost predicate LinkedPart(s: Step, uuid: string, inputs: seq<Dataset>, listings: seq<seq<string>>, folders: map<string, Folder>) {
    s.Make? ==> s.input < |inputs| && s.input < |listings| && Links(folders, inputs[s.input].name, listings[s.input], s, uuid)
  }

  /** One step of a plan: `copy(..., softlinked=True)` under a fresh uuid, or `Dataset(name)`. */
  method PerformStep(disk: Disk, inputs: seq<Dataset>, listings: seq<seq<string>>, s: Step, uuid: string) returns (r: Result<Dataset>)
    requires ListsFolders(inputs, listings, disk.folders)
    requires s.Make? ==> s.input < |inputs|
    requires uuid !in disk.metas
    modifies disk
    ensures disk.metas.Keys <= old(disk.metas).Keys + {uuid}
    ensures FoldersKept(old(disk.folders), disk.folders)
    ensures MetasKept(old(disk.metas), disk.metas)
    ensures r.Ok? ==> fresh(r.value) && Produced(r.value, inputs, listings, s, uuid, disk.folders, disk.metas)
    ensures r.Ok? && s.Reuse? ==> r.value.name == s.name && s.name in old(disk.metas) && r.value.meta == old(disk.metas)[s.name]
    ensures s.Reuse? ==> disk.folders == old(disk.folders) && disk.metas == old(disk.metas)
    ensures s.Reuse? ==> (r.Ok? <==> s.name in old(disk.metas) && s.name in old(disk.folders) &&
                                     Scanned(old(disk.folders)[s.name]).Ok?)
    ensures s.Make? ==> (r.Ok? <==> (uuid !in old(disk.folders) &&
      CopyFiles(old(disk.folders), inputs[s.input].name, listings[s.input], s.onlyIds, s.onlyPoints, true).1.None? &&
      DerivedMeta(inputs[s.input].meta, inputs[s.input].name, uuid, true).Ok? &&
      Scanned(CopyFiles(old(disk.folders), inputs[s.input].name, listings[s.input], s.onlyIds, s.onlyPoints, true).0).Ok?))
  {
    match s
    case Reuse(name) =>
      var ds, files := Dataset.Open(disk, name, false);
      if name in disk.folders {
        SortedUnique(files, SortedSet(disk.folders[name].Keys));
      }
      r := ds;
    case Make(i, onlyIds, onlyPoints) =>
      var parent := inputs[i];
      r := parent.Copy(disk, listings[i], onlyPoints, onlyIds, None, uuid, true);
      if r.Ok? {
        forall f ensures (f in disk.folders[uuid] <==> f in listings[i] && CopyDecision(f, onlyIds, onlyPoints) == Ok(true))
                      && (f in disk.folders[uuid] ==> disk.folders[uuid][f] == Link(parent.name, f))
        {
          CopyFilesExact(old(disk.folders), parent.name, listings[i], onlyIds, onlyPoints, true, f);
        }
      }
  }

  /**
   * The plan's steps in order, stopping at the first failure; every part
   * made is fresh, and no folder or metadata that existed before changes.
   */
  method Perform(disk: Disk, inputs: seq<Dataset>, listings: seq<seq<string>>, steps: seq<Step>, uuids: seq<string>)
    returns (r: Result<seq<Dataset>>)
    requires ListsFolders(inputs, listings, disk.folders)
    requires |uuids| == |steps|
    requires forall j :: 0 <= j < |steps| && steps[j].Make? ==> steps[j].input < |inputs|
    requires Distinct(uuids) && forall j :: 0 <= j < |uuids| ==> uuids[j] !in disk.metas
    requires forall j :: 0 <= j < |steps| && steps[j].Reuse? ==> steps[j].name in disk.metas
    modifies disk
    ensures FoldersKept(old(disk.folders), disk.folders)
    ensures MetasKept(old(disk.metas), disk.metas)
    ensures r.Ok? ==> |r.value| == |steps|
    ensures r.Ok? ==> forall j :: 0 <= j < |steps| ==> fresh(r.value[j])
    ensures r.Ok? ==> forall j :: 0 <= j < |steps| ==>
      Produced(r.value[j], inputs, listings, steps[j], uuids[j], disk.folders, disk.metas)
    ensures r.Ok? ==> Distinct(r.value)
    ensures r.Ok? ==> forall j :: 0 <= j < |steps| && steps[j].Reuse? ==> r.value[j].meta == old(disk.metas)[steps[j].name]
  {
    var outs: seq<Dataset> := [];
    while |outs| < |steps|
      invariant FoldersKept(old(disk.folders), disk.folders)
      invariant MetasKept(old(disk.metas), disk.metas)
      invariant forall m :: 0 <= m < |outs| ==> fresh(outs[m])
      invariant Performed(inputs, listings, steps, uuids, outs, disk.folders, disk.metas, old(disk.metas))
      decreases |steps| - |outs|
    {
      var d := PerformNext(disk, inputs, listings, steps, uuids, outs, old(disk.metas));
      if d.Err? {
        return Err(d.error);
      }
      outs := outs + [d.value];
    }
    r := Ok(outs);
  }

  /**
   * The first `|outs|` steps have been carried out: each yielded its part,
   * the parts are distinct, and the uuids still to be used are free.
   */
  ghost predicate Performed(inputs: seq<Dataset>, listings: seq<seq<string>>, steps: seq<Step>, uuids: seq<string>,
                            outs: seq<Dataset>, folders: map<string, Folder>, metas: map<string, Value>, origMetas: map<string, Value>)
    reads set d | d in inputs, set d | d in outs
  {
    |outs| <= |steps| && |uuids| == |steps| &&
    ListsFolders(inputs, listings, folders) &&
    (forall m :: 0 <= m < |outs| ==> Produced(outs[m], inputs, listings, steps[m], uuids[m], folders, metas)) &&
    Distinct(outs) &&
    (forall m :: |outs| <= m < |uuids| ==> uuids[m] !in metas) &&
    (forall m :: 0 <= m < |outs| && steps[m].Reuse? ==> steps[m].name in origMetas && outs[m].meta == origMetas[steps[m].name])
  }

  /** The next step of the plan, extending what has been performed by one part. */
  method PerformNext(disk: Disk, inputs: seq<Dataset>, listings: seq<seq<string>>, steps: seq<Step>, uuids: seq<string>,
                     outs: seq<Dataset>, ghost origMetas: map<string, Value>)
    returns (d: Result<Dataset>)
    requires |outs| < |steps|
    requires Performed(inputs, listings, steps, uuids, outs, disk.folders, disk.metas, origMetas)
    requires forall j :: 0 <= j < |steps| && steps[j].Make? ==> steps[j].input < |inputs|
    requires Distinct(uuids)
    requires forall j :: 0 <= j < |steps| && steps[j].Reuse? ==> steps[j].name in origMetas
    requires MetasKept(origMetas, disk.metas)
    modifies disk
    ensures FoldersKept(old(disk.folders), disk.folders)
    ensures MetasKept(old(disk.metas), disk.metas)
    ensures d.Ok? ==> fresh(d.value) && Performed(inputs, listings, steps, uuids, outs + [d.value], disk.folders, disk.metas, origMetas)
  {
    var j := |outs|;
    ghost var before := disk.folders;
    ghost var beforeMetas := disk.metas;
    d := PerformStep(disk, inputs, listings, steps[j], uuids[j]);
    if d.Err? {
      return;
    }
    var outs' := outs + [d.value];
    forall m | 0 <= m < j + 1
      ensures Produced(outs'[m], inputs, listings, steps[m], uuids[m], disk.folders, disk.metas)
    {
      if m < j {
        ProducedKept(outs[m], inputs, listings, steps[m], uuids[m], before, beforeMetas, disk.folders, disk.metas);
      }
    }
    ListsFoldersKept(inputs, listings, before, disk.folders);
    forall m | j + 1 <= m < |uuids| ensures uuids[m] !in disk.metas {
      assert uuids[m] != uuids[j];
    }
    assert d.value !in outs;
    DistinctSnoc(outs, d.value);
  }

  /**
   * What one step of a plan yielded: a valid dataset stored on disk, made
   * from its input as the step says or found under the step's name.
   */
  ghost predicate Produced(d: Dataset, inputs: seq<Dataset>, listings: seq<seq<string>>, s: Step, uuid: string,
                           folders: map<string, Folder>, metas: map<string, Value>)
    reads d, set p | p in inputs
  {
    d.Valid() && Stored(d, folders, metas) && ScannedFrom(d, folders) &&
    (s.Make? ==> (s.input < |inputs| && s.input < |listings| &&
      MadeFrom(d, inputs[s.input], listings[s.input], s, uuid, folders))) &&
    (s.Reuse? ==> d.name == s.name)
  }

  lemma DistinctSnoc<T>(s: seq<T>, x: T)
    requires Distinct(s) && x !in s
    ensures Distinct(s + [x])
  {
  }

  lemma ProducedKept(d: Dataset, inputs: seq<Dataset>, listings: seq<seq<string>>, s: Step, uuid: string,
                     folders: map<string, Folder>, metas: map<string, Value>, folders': map<string, Folder>, metas': map<string, Value>)
    requires Produced(d, inputs, listings, s, uuid, folders, metas)
    requires FoldersKept(folders, folders') && MetasKept(metas, metas')
    ensures Produced(d, inputs, listings, s, uuid, folders', metas')
  {
  }

  /** The dataset's folder exists and its metadata on disk is the one it holds. */
  ghost predicate Stored(d: Dataset, folders: map<string, Folder>, metas: map<string, Value>)
    reads d
  {
    d.name in folders && d.name in metas && metas[d.name] == d.meta
  }

  /** The dataset's index is the one `scan_folder` builds from its folder as it now stands. */
  ghost predicate ScannedFrom(d: Dataset, folders: map<string, Folder>)
    reads d
  {
    d.name in folders && Scanned(folders[d.name]) == Ok(d.index)
  }

  lemma StoredKept(d: Dataset, folders: map<string, Folder>, metas: map<string, Value>, folders': map<string, Folder>, metas': map<string, Value>)
    requires Stored(d, folders, metas) && FoldersKept(folders, folders') && MetasKept(metas, metas')
    ensures Stored(d, folders', metas')
  {
  }

  lemma MadeFromKept(d: Dataset, parent: Dataset, listing: seq<string>, s: Step, uuid: string, before: map<string, Folder>, after: map<string, Folder>)
    requires s.Make? && MadeFrom(d, parent, listing, s, uuid, before) && FoldersKept(before, after)
    ensures MadeFrom(d, parent, listing, s, uuid, after)
  {
  }

  lemma ListsFoldersKept(inputs: seq<Dataset>, listings: seq<seq<string>>, before: map<string, Folder>, after: map<string, Folder>)
    requires ListsFolders(inputs, listings, before) && FoldersKept(before, after)
    ensures ListsFolders(inputs, listings, after)
  {
  }

  /** `"part" in meta and meta["part"] == i`: a part its splitter already tagged. */
  predicate AlreadyTagged(meta: Value, i: int) {
    meta.Dict? && "part" in meta.entries && PyEq(meta.entries["part"], Int(i))
  }

  /** The lineage `run` records on output `i`. */
  function Tagged(meta: Config, parents: string, params: Config, name: string, i: int): (m: Config)
    ensures m.Keys == meta.Keys + {"original", "params", "splitter", "part"}
    ensures m["original"] == Str(parents) && m["params"] == Dict(params) && m["splitter"] == Str(name) && m["part"] == Int(i)
    ensures forall k :: k in meta && k !in {"original", "params", "splitter", "part"} ==> m[k] == meta[k]
  {
    meta["original" := Str(parents)]["params" := Dict(params)]["splitter" := Str(name)]["part" := Int(i)]
  }

  /** Tagging is idempotent: a tagged part counts as already tagged at its position. */
  lemma TaggedIsFinal(meta: Config, parents: string, params: Config, name: string, i: int)
    ensures AlreadyTagged(Dict(Tagged(meta, parents, params, name, i)), i)
  {
  }

  /** What tagging output `i` does to its metadata: nothing if already tagged, the lineage otherwise. */
  ghost predicate TagOutcome(before: Value, after: Value, parents: string, params: Config, name: string, i: int) {
    if AlreadyTagged(before, i) then after == before
    else before.Dict? && after == Dict(Tagged(before.entries, parents, params, name, i))
  }

  /**
   * The tagging loop of `run`: every part not already tagged at its
   * position gets its lineage recorded and its metadata saved; a part
   * whose metadata is not a mapping stops it with a `TypeError`.
   */
  method Tag(disk: Disk, outs: seq<Dataset>, parents: string, params: Config, name: string) returns (r: Result<()>)
    requires Distinct(outs) && Distinct(Names(outs))
    requires forall i :: 0 <= i < |outs| ==> Stored(outs[i], disk.folders, disk.metas)
    modifies disk, set d | d in outs
    ensures disk.folders == old(disk.folders)
    ensures forall i :: 0 <= i < |outs| ==> Stored(outs[i], disk.folders, disk.metas) && outs[i].index == old(outs[i].index)
    ensures r.Ok? <==> forall i :: 0 <= i < |outs| ==> AlreadyTagged(old(outs[i].meta), i) || old(outs[i].meta).Dict?
    ensures r.Ok? ==> forall i :: 0 <= i < |outs| ==> TagOutcome(old(outs[i].meta), outs[i].meta, parents, params, name, i)
  {
    ghost var metas := seq(|outs|, m requires 0 <= m < |outs| reads outs => outs[m].meta);
    var i := 0;
    while i < |outs|
      invariant 0 <= i <= |outs|
      invariant disk.folders == old(disk.folders)
      invariant forall m :: 0 <= m < |outs| ==> Stored(outs[m], disk.folders, disk.metas) && outs[m].index == old(outs[m].index)
      invariant TagProgress(outs, metas, i, parents, params, name)
    {
      var ok := TagOne(disk, outs, metas, i, parents, params, name);
      if !ok {
        return Err(TypeError("metadata is not a mapping"));
      }
      i := i + 1;
    }
    r := Ok(());
  }

  /**
   * The first `i` outputs are tagged as `TagOutcome` says, from their
   * metadata `metas` before the loop; the others still hold it.
   */
  ghost predicate TagProgress(outs: seq<Dataset>, metas: seq<Value>, i: nat, parents: string, params: Config, name: string)
    reads set d | d in outs
  {
    |metas| == |outs| && i <= |outs| &&
    (forall m :: i <= m < |outs| ==> outs[m].meta == metas[m]) &&
    (forall m :: 0 <= m < i ==> AlreadyTagged(metas[m], m) || metas[m].Dict?) &&
    (forall m :: 0 <= m < i ==> TagOutcome(metas[m], outs[m].meta, parents, params, name, m))
  }

  /** One iteration of the tagging loop, on output `i`. */
  method TagOne(disk: Disk, outs: seq<Dataset>, ghost metas: seq<Value>, i: nat, parents: string, params: Config, name: string)
    returns (ok: bool)
    requires i < |outs| && Distinct(outs) && Distinct(Names(outs))
    requires forall m :: 0 <= m < |outs| ==> Stored(outs[m], disk.folders, disk.metas)
    requires TagProgress(outs, metas, i, parents, params, name)
    modifies disk, outs[i]
    ensures disk.folders == old(disk.folders) && outs[i].index == old(outs[i].index)
    ensures forall m :: 0 <= m < |outs| ==> Stored(outs[m], disk.folders, disk.metas)
    ensures ok <==> AlreadyTagged(metas[i], i) || metas[i].Dict?
    ensures ok ==> TagProgress(outs, metas, i + 1, parents, params, name)
  {
    var d := outs[i];
    if AlreadyTagged(d.meta, i) {
      return true;
    }
    if !d.meta.Dict? {
      return false;
    }
    d.meta := Dict(Tagged(d.meta.entries, parents, params, name, i));
    d.SaveMeta(disk);
    forall m | 0 <= m < |outs| && m != i
      ensures Stored(outs[m], disk.folders, disk.metas)
    {
      assert Names(outs)[m] != Names(outs)[i];
    }
    ok := true;
  }

  /** The data set `split` takes its points or identities from, for two inputs. */
  function SplitSource(k: Kind, inputs: seq<Dataset>): Index
    requires |inputs| == Nin(k) && |inputs| >= 1
    reads set d | d in inputs
  {
    if Nin(k) == 2 && MinSide(inputs[0].index, inputs[1].index) == 1 then inputs[1].index else inputs[0].index
  }

  /**
   * The shuffled lists a splitter works on: `ids` a reordering of the first
   * input's identities, `groups` of the split input's per-identity points
   * (each group reordered), as `random.shuffle` leaves them.
   */
  ghost predicate ShuffledFor(k: Kind, inputs: seq<Dataset>, ids: seq<string>, groups: seq<seq<string>>)
    requires |inputs| == Nin(k)
    reads set d | d in inputs
  {
    match k
    case Anon => Shuffles(PointById(SplitSource(k, inputs)), groups)
    case Intraid2to2 => Shuffles(PointById(SplitSource(k, inputs)), groups)
    case IdLevel => multiset(groups) == multiset(PointById(SplitSource(k, inputs)))
    case Anonbg => multiset(ids) == multiset(inputs[0].index.identities)
    case Interid1to3 => multiset(ids) == multiset(inputs[0].index.identities)
    case DeanonCompare => multiset(ids) == multiset(inputs[0].index.identities)
    case Deanon => multiset(ids) == multiset(inputs[0].index.identities) && Shuffles(PointById(inputs[0].index), groups)
    case Compare => true
  }

  /**
   * What every plan satisfies: `nout` steps, returned in some order, each
   * made from an existing input or reusing a distinct existing dataset.
   */
  ghost predicate PlanShape(k: Kind, p: Plan, metas: map<string, Value>) {
    |p.steps| == Nout(k) && |p.outputs| == Nout(k) && Distinct(p.outputs) &&
    (forall i :: 0 <= i < |p.outputs| ==> p.outputs[i] < Nout(k)) &&
    (forall j :: 0 <= j < |p.steps| && p.steps[j].Make? ==> p.steps[j].input < Nin(k)) &&
    (forall j :: 0 <= j < |p.steps| && p.steps[j].Reuse? ==> p.steps[j].name in metas) &&
    (forall a, b :: 0 <= a < b < |p.steps| && p.steps[a].Reuse? && p.steps[b].Reuse? ==> p.steps[a].name != p.steps[b].name)
  }

  /** Every reused part already carries the part number of the position it is returned in. */
  ghost predicate ReusedTagged(p: Plan, metas: map<string, Value>) {
    forall i :: 0 <= i < |p.outputs| && p.outputs[i] < |p.steps| && p.steps[p.outputs[i]].Reuse? ==>
      p.steps[p.outputs[i]].name in metas && AlreadyTagged(metas[p.steps[p.outputs[i]].name], i)
  }

  /** A plan that makes every part from an input and returns them in order. */
  lemma MadeInOrder(k: Kind, p: Plan, metas: map<string, Value>, now: map<string, Value>)
    requires InOrder(p, Nin(k), Nout(k))
    ensures PlanShape(k, p, metas) && ReusedTagged(p, now)
  {
  }

  /**
   * `split` of each splitter: the plan it carries out. Only `deanon` and
   * `deanon_compare` consult the cache; they rewrite the parameters of the
   * parts they reuse, and each reused part already carries the part number
   * of the position it is returned in.
   */
  method Split(disk: Disk, k: Kind, config: Config, inputs: seq<Dataset>, metaListing: seq<string>,
               ids: seq<string>, groups: seq<seq<string>>) returns (r: Result<Plan>)
    requires |inputs| == Nin(k) && ConfigValid(k, config)
    requires ShuffledFor(k, inputs, ids, groups)
    requires ListsDisk(metaListing, disk.metas)
    modifies disk
    ensures disk.folders == old(disk.folders) && disk.metas.Keys == old(disk.metas).Keys
    ensures k != Deanon && k != DeanonCompare ==> disk.metas == old(disk.metas)
    ensures r.Ok? ==> PlanShape(k, r.value, old(disk.metas)) && ReusedTagged(r.value, disk.metas)
  {
    if k == Deanon || k == DeanonCompare {
      r := SplitDeanon(disk, k, config, inputs, metaListing, ids, groups);
      return;
    }
    var first := inputs[0].index;
    var p: Plan;
    match k {
      case Anon =>
        p := AnonPlan(config, first, inputs[1].index, groups);
      case Anonbg =>
        p := AnonbgPlan(config, first, ids);
      case Interid1to3 =>
        p := Interid1to3Plan(config, first, ids);
      case IdLevel =>
        r := IdLevelPlan(config, first, inputs[1].index, groups);
        if r.Err? {
          return;
        }
        p := r.value;
      case Intraid2to2 =>
        p := Intraid2to2Plan(config, first, inputs[1].index, groups);
      case Compare =>
        p := ComparePlan(first, inputs[1].index);
    }
    MadeInOrder(k, p, old(disk.metas), disk.metas);
    r := Ok(p);
  }

  /** `deanon.split` with its cache lookups. */
  method SplitDeanon(disk: Disk, k: Kind, config: Config, inputs: seq<Dataset>, metaListing: seq<string>,
                     ids: seq<string>, groups: seq<seq<string>>) returns (r: Result<Plan>)
    requires k == Deanon || k == DeanonCompare
    requires |inputs| == 2 && ConfigValid(k, config)
    requires ShuffledFor(k, inputs, ids, groups)
    requires ListsDisk(metaListing, disk.metas)
    modifies disk
    ensures disk.folders == old(disk.folders) && disk.metas.Keys == old(disk.metas).Keys
    ensures r.Ok? ==> PlanShape(k, r.value, old(disk.metas)) && ReusedTagged(r.value, disk.metas)
  {
    var orig := inputs[0];
    var anon := inputs[1];
    var train :- ExistingTrain(disk, metaListing, k, orig.name, anon.name, config);
    ghost var mid := disk.metas;
    var test: Option<string> := None;
    if k == Deanon {
      ListsSameKeys(metaListing, old(disk.metas), mid);
      test :- ExistingTest(disk, metaListing, k, orig.name, anon.name, config);
    }
    var p := DeanonPlan(k, config, orig.index, ids, groups, train.0, train.1, test);
    ghost var tp := TrainParams(config).value;
    if train.0.Some? {
      TrainPartTagged(old(disk.metas)[train.0.value], k, orig.name, anon.name, tp, 2);
    }
    if train.1.Some? {
      TrainPartTagged(old(disk.metas)[train.1.value], k, orig.name, anon.name, tp, 3);
    }
    ghost var testParams: Config := map[];
    if test.Some? {
      testParams := TestParams(config).value;
      TrainPartTagged(mid[test.value], k, orig.name, anon.name, testParams, 1);
    }
    DeanonShape(k, p, tp, testParams, train.0, train.1, test, old(disk.metas), mid, disk.metas);
    r := Ok(p);
  }

  /**
   * The deanon plan's shape: its reused parts are the ones the lookups
   * found, pairwise different because they carry different part numbers.
   */
  lemma DeanonShape(k: Kind, p: Plan, trainParams: Config, testParams: Config, clear: Option<string>, anon: Option<string>, test: Option<string>,
                    before: map<string, Value>, mid: map<string, Value>, after: map<string, Value>)
    requires k == Deanon || (k == DeanonCompare && test.None?)
    requires DeanonSteps(k, p, clear, anon, test)
    requires clear.Some? ==> clear.value in before && AlreadyTagged(before[clear.value], 2)
    requires anon.Some? ==> anon.value in before && AlreadyTagged(before[anon.value], 3)
    requires Rewritten(before, mid, clear, anon, trainParams)
    requires test.None? ==> after == mid
    requires test.Some? ==> (test.value in mid && AlreadyTagged(mid[test.value], 1) &&
      after == mid[test.value := Reparamed(mid[test.value], testParams)])
    ensures PlanShape(k, p, before) && ReusedTagged(p, after)
  {
    DeanonTags(k, trainParams, testParams, clear, anon, test, before, mid, after);
    DeanonPlanShape(k, p, clear, anon, test, before, after);
    DeanonReusedTagged(k, p, clear, anon, test, after);
  }

  /** The parts the lookups found, as they are left tagged, and pairwise different. */
  lemma DeanonTags(k: Kind, trainParams: Config, testParams: Config, clear: Option<string>, anon: Option<string>, test: Option<string>,
                   before: map<string, Value>, mid: map<string, Value>, after: map<string, Value>)
    requires clear.Some? ==> clear.value in before && AlreadyTagged(before[clear.value], 2)
    requires anon.Some? ==> anon.value in before && AlreadyTagged(before[anon.value], 3)
    requires Rewritten(before, mid, clear, anon, trainParams)
    requires test.None? ==> after == mid
    requires test.Some? ==> (test.value in mid && AlreadyTagged(mid[test.value], 1) &&
      after == mid[test.value := Reparamed(mid[test.value], testParams)])
    ensures clear.Some? && anon.Some? ==> FoundTagged(clear.value, anon.value, before, after)
    ensures test.Some? ==> test.value in before && test.value in after && AlreadyTagged(after[test.value], 1)
    ensures clear.Some? && anon.Some? && test.Some? ==> test.value != clear.value && test.value != anon.value
  {
    if clear.Some? && anon.Some? {
      var c, n := clear.value, anon.value;
      TaggedOnce(before[c], 2, 3);
      ReparamedTagged(before[c], trainParams, 2);
      ReparamedTagged(before[n], trainParams, 3);
      if test.Some? {
        var t := test.value;
        TaggedOnce(mid[c], 2, 1);
        TaggedOnce(mid[n], 3, 1);
        ReparamedTagged(mid[t], testParams, 1);
      }
    } else if test.Some? {
      ReparamedTagged(mid[test.value], testParams, 1);
    }
  }

  /** Two different training parts, present before, tagged with parts 2 and 3 after. */
  ghost predicate FoundTagged(c: string, n: string, before: map<string, Value>, after: map<string, Value>) {
    c != n && c in before && n in before && c in after && n in after &&
    AlreadyTagged(after[c], 2) && AlreadyTagged(after[n], 3)
  }

  lemma DeanonPlanShape(k: Kind, p: Plan, clear: Option<string>, anon: Option<string>, test: Option<string>,
                        before: map<string, Value>, after: map<string, Value>)
    requires k == Deanon || (k == DeanonCompare && test.None?)
    requires DeanonSteps(k, p, clear, anon, test)
    requires clear.Some? && anon.Some? ==> FoundTagged(clear.value, anon.value, before, after)
    requires test.Some? ==> test.value in before
    requires clear.Some? && anon.Some? && test.Some? ==> test.value != clear.value && test.value != anon.value
    ensures PlanShape(k, p, before)
  {
    assert forall j :: 0 <= j < 4 ==> p.steps[j] == [p.steps[0], p.steps[1], p.steps[2], p.steps[3]][j];
  }

  lemma DeanonReusedTagged(k: Kind, p: Plan, clear: Option<string>, anon: Option<string>, test: Option<string>,
                           after: map<string, Value>)
    requires k == Deanon || (k == DeanonCompare && test.None?)
    requires DeanonSteps(k, p, clear, anon, test)
    requires clear.Some? && anon.Some? ==> (clear.value in after && anon.value in after &&
      AlreadyTagged(after[clear.value], 2) && AlreadyTagged(after[anon.value], 3))
    requires test.Some? ==> test.value in after && AlreadyTagged(after[test.value], 1)
    ensures ReusedTagged(p, after)
  {
  }

  lemma TaggedOnce(v: Value, i: int, j: int)
    requires i != j && AlreadyTagged(v, i)
    ensures !AlreadyTagged(v, j)
  {
  }

  lemma ReparamedTagged(v: Value, params: Config, i: int)
    requires AlreadyTagged(v, i)
    ensures AlreadyTagged(Reparamed(v, params), i)
  {
  }

  /** A part found by the lookup for part `part` is tagged with that part. */
  lemma TrainPartTagged(meta: Value, k: Kind, o: string, a: string, params: Config, part: int)
    requires MatchDoc(meta, CacheQuery(k, o, a, params, part)) == Ok(true)
    ensures AlreadyTagged(meta, part)
  {
    assert "part" in CacheQuery(k, o, a, params, part);
  }

  /**
   * What output `i` of `run` is: a reused part under its own name, or a
   * part made under its uuid whose metadata is its parent's derived
   * metadata with the lineage of this run recorded.
   */
  ghost predicate OutputOf(d: Dataset, s: Step, uuid: string, inputs: seq<Dataset>, parents: string, config: Config, kname: string, i: int)
    reads d, set p | p in inputs
  {
    (s.Reuse? ==> d.name == s.name) &&
    (s.Make? ==> (s.input < |inputs| && d.name == uuid &&
      DerivedMeta(inputs[s.input].meta, inputs[s.input].name, uuid, true).Ok? &&
      d.meta == Dict(Tagged(DerivedMeta(inputs[s.input].meta, inputs[s.input].name, uuid, true).value.entries, parents, config, kname, i))))
  }

  /** The same, before tagging: made parts carry their derived metadata, reused ones their position. */
  ghost predicate BeforeTag(meta: Value, dname: string, s: Step, uuid: string, inputs: seq<Dataset>, i: int)
    reads set p | p in inputs
  {
    (s.Reuse? ==> dname == s.name && AlreadyTagged(meta, i)) &&
    (s.Make? ==> (s.input < |inputs| && dname == uuid &&
      DerivedMeta(inputs[s.input].meta, inputs[s.input].name, uuid, true).Ok? &&
      meta == DerivedMeta(inputs[s.input].meta, inputs[s.input].name, uuid, true).value))
  }

  /** Tagging a part in the state `BeforeTag` describes yields the output `OutputOf` describes. */
  lemma TagYieldsOutput(d: Dataset, before: Value, s: Step, uuid: string, inputs: seq<Dataset>, parents: string, config: Config, kname: string, i: int)
    requires BeforeTag(before, d.name, s, uuid, inputs, i)
    requires TagOutcome(before, d.meta, parents, config, kname, i)
    ensures OutputOf(d, s, uuid, inputs, parents, config, kname, i) && AlreadyTagged(d.meta, i)
  {
    if s.Make? {
      assert "part" !in before.entries;
      TaggedIsFinal(before.entries, parents, config, kname, i);
    }
  }

  /** The parts a plan yielded, in the order the plan returns them. */
  function Arrange(made: seq<Dataset>, outputs: seq<nat>): (outs: seq<Dataset>)
    requires forall i :: 0 <= i < |outputs| ==> outputs[i] < |made|
    ensures |outs| == |outputs| && forall i :: 0 <= i < |outputs| ==> outs[i] == made[outputs[i]]
  {
    seq(|outputs|, i requires 0 <= i < |outputs| => made[outputs[i]])
  }

  /**
   * `AbstractSplitter.run`: refuse the wrong number of inputs, carry out
   * the splitter's plan under fresh uuids, return its parts in the plan's
   * order, and tag every part with its lineage (parents joined by "|",
   * the configuration, the splitter's name and its position) unless it
   * already carries its position. Every plan has `nout` parts, so the
   * check on the number of outputs never fails.
   */
  method Run(disk: Disk, k: Kind, config: Config, inputs: seq<Dataset>, listings: seq<seq<string>>,
             metaListing: seq<string>, ids: seq<string>, groups: seq<seq<string>>, uuids: seq<string>)
    returns (r: Result<seq<Dataset>>, ghost plan: Plan)
    requires ConfigValid(k, config)
    requires ListsFolders(inputs, listings, disk.folders)
    requires |inputs| == Nin(k) ==> ShuffledFor(k, inputs, ids, groups)
    requires ListsDisk(metaListing, disk.metas)
    requires |uuids| == Nout(k) && Distinct(uuids) && forall j :: 0 <= j < |uuids| ==> uuids[j] !in disk.metas
    modifies disk
    ensures |inputs| != Nin(k) ==> r.Err? && r.error.AttributeError? && unchanged(disk)
    ensures FoldersKept(old(disk.folders), disk.folders)
    ensures r.Ok? ==> |inputs| == Nin(k) && PlanShape(k, plan, old(disk.metas)) && |r.value| == Nout(k)
    ensures r.Ok? ==> forall i :: 0 <= i < |r.value| ==>
      fresh(r.value[i]) && r.value[i].Valid() && AlreadyTagged(r.value[i].meta, i) &&
      Stored(r.value[i], disk.folders, disk.metas) && ScannedFrom(r.value[i], disk.folders)
    ensures r.Ok? ==> forall i :: 0 <= i < |r.value| ==>
      OutputOf(r.value[i], plan.steps[plan.outputs[i]], uuids[plan.outputs[i]], inputs, Join(Names(inputs), '|'), config, Name(k), i)
    ensures r.Ok? ==> forall i :: 0 <= i < |r.value| ==>
      LinkedPart(plan.steps[plan.outputs[i]], uuids[plan.outputs[i]], inputs, listings, disk.folders)
  {
    plan := Plan([], []);
    if |inputs| != Nin(k) {
      return Err(AttributeError("Splitter: number of input sets does not match")), plan;
    }
    var p :- Split(disk, k, config, inputs, metaListing, ids, groups);
    plan := p;
    var outs :- Carry(disk, k, inputs, listings, p, uuids);
    TagParts(disk, k, config, inputs, p, uuids, outs);
    r := Ok(outs);
  }

  /** The tagging loop on the arranged parts, which never fails on them. */
  method TagParts(disk: Disk, k: Kind, config: Config, inputs: seq<Dataset>, p: Plan, uuids: seq<string>, outs: seq<Dataset>)
    requires |outs| == |p.outputs| && forall i :: 0 <= i < |outs| ==> p.outputs[i] < |p.steps| && p.outputs[i] < |uuids|
    requires Distinct(outs) && Distinct(Names(outs))
    requires forall i :: 0 <= i < |outs| ==> outs[i] !in inputs
    requires forall i :: 0 <= i < |outs| ==> Stored(outs[i], disk.folders, disk.metas)
    requires forall i :: 0 <= i < |outs| ==>
      BeforeTag(outs[i].meta, outs[i].name, p.steps[p.outputs[i]], uuids[p.outputs[i]], inputs, i)
    modifies disk, set d | d in outs
    ensures disk.folders == old(disk.folders)
    ensures forall i :: 0 <= i < |outs| ==> Stored(outs[i], disk.folders, disk.metas) && outs[i].index == old(outs[i].index)
    ensures forall i :: 0 <= i < |outs| ==> AlreadyTagged(outs[i].meta, i)
    ensures forall i :: 0 <= i < |outs| ==>
      OutputOf(outs[i], p.steps[p.outputs[i]], uuids[p.outputs[i]], inputs, Join(Names(inputs), '|'), config, Name(k), i)
  {
    var parents := Join(Names(inputs), '|');
    ghost var before := seq(|outs|, i requires 0 <= i < |outs| reads outs => outs[i].meta);
    var tagged := Tag(disk, outs, parents, config, Name(k));
    assert tagged.Ok?;
    forall i | 0 <= i < |outs|
      ensures OutputOf(outs[i], p.steps[p.outputs[i]], uuids[p.outputs[i]], inputs, parents, config, Name(k), i)
      ensures AlreadyTagged(outs[i].meta, i)
    {
      TagYieldsOutput(outs[i], before[i], p.steps[p.outputs[i]], uuids[p.outputs[i]], inputs, parents, config, Name(k), i);
    }
  }

  /** The plan carried out, its parts arranged in the plan's output order, not yet tagged. */
  method Carry(disk: Disk, k: Kind, inputs: seq<Dataset>, listings: seq<seq<string>>, p: Plan, uuids: seq<string>)
    returns (r: Result<seq<Dataset>>)
    requires |inputs| == Nin(k) && ListsFolders(inputs, listings, disk.folders)
    requires PlanShape(k, p, disk.metas) && ReusedTagged(p, disk.metas)
    requires |uuids| == Nout(k) && Distinct(uuids) && forall j :: 0 <= j < |uuids| ==> uuids[j] !in disk.metas
    modifies disk
    ensures FoldersKept(old(disk.folders), disk.folders)
    ensures r.Ok? ==> |r.value| == Nout(k) && Distinct(r.value) && Distinct(Names(r.value))
    ensures r.Ok? ==> forall i :: 0 <= i < |r.value| ==>
      fresh(r.value[i]) && r.value[i].Valid() && Stored(r.value[i], disk.folders, disk.metas) &&
      ScannedFrom(r.value[i], disk.folders) &&
      BeforeTag(r.value[i].meta, r.value[i].name, p.steps[p.outputs[i]], uuids[p.outputs[i]], inputs, i)
    ensures r.Ok? ==> forall i :: 0 <= i < |r.value| ==>
      LinkedPart(p.steps[p.outputs[i]], uuids[p.outputs[i]], inputs, listings, disk.folders)
  {
    var made :- Perform(disk, inputs, listings, p.steps, uuids);
    var outs := Arrange(made, p.outputs);
    ArrangedDistinct(k, p, old(disk.metas), uuids, made, outs, inputs, listings, disk.folders, disk.metas);
    forall i | 0 <= i < |outs|
      ensures outs[i].Valid() && Stored(outs[i], disk.folders, disk.metas) && ScannedFrom(outs[i], disk.folders)
      ensures BeforeTag(outs[i].meta, outs[i].name, p.steps[p.outputs[i]], uuids[p.outputs[i]], inputs, i)
      ensures LinkedPart(p.steps[p.outputs[i]], uuids[p.outputs[i]], inputs, listings, disk.folders)
    {
      var j := p.outputs[i];
      assert Produced(made[j], inputs, listings, p.steps[j], uuids[j], disk.folders, disk.metas);
    }
    r := Ok(outs);
  }

  /** The arranged parts are distinct objects with distinct names. */
  lemma ArrangedDistinct(k: Kind, p: Plan, metas: map<string, Value>, uuids: seq<string>, made: seq<Dataset>, outs: seq<Dataset>,
                         inputs: seq<Dataset>, listings: seq<seq<string>>, folders: map<string, Folder>, now: map<string, Value>)
    requires PlanShape(k, p, metas) && |uuids| == |p.steps| && Distinct(uuids)
    requires forall j :: 0 <= j < |uuids| ==> uuids[j] !in metas
    requires |made| == |p.steps| && Distinct(made)
    requires forall j :: 0 <= j < |p.steps| ==> Produced(made[j], inputs, listings, p.steps[j], uuids[j], folders, now)
    requires outs == Arrange(made, p.outputs)
    ensures Distinct(outs) && Distinct(Names(outs))
  {
    var names := Names(made);
    forall j | 0 <= j < |p.steps|
      ensures names[j] == if p.steps[j].Reuse? then p.steps[j].name else uuids[j]
    {
      assert Produced(made[j], inputs, listings, p.steps[j], uuids[j], folders, now);
    }
    forall a, b | 0 <= a < b < |outs|
      ensures outs[a] != outs[b] && Names(outs)[a] != Names(outs)[b]
    {
      StepNamesDistinct(k, p, metas, uuids, names, p.outputs[a], p.outputs[b]);
    }
  }

  /** The names of the input data sets, in order. */
  function Names(inputs: seq<Dataset>): (r: seq<string>)
    ensures |r| == |inputs| && forall i :: 0 <= i < |inputs| ==> r[i] == inputs[i].name
  {
    seq(|inputs|, i requires 0 <= i < |inputs| => inputs[i].name)
  }

  /**
   * Two different steps of a plan never yield the same name: made parts
   * are named by distinct fresh uuids, reused ones by distinct existing names.
   */
  lemma StepNamesDistinct(k: Kind, p: Plan, metas: map<string, Value>, uuids: seq<string>, names: seq<string>, ja: nat, jb: nat)
    requires PlanShape(k, p, metas)
    requires |uuids| == |p.steps| && |names| == |p.steps| && Distinct(uuids)
    requires forall j :: 0 <= j < |uuids| ==> uuids[j] !in metas
    requires forall j :: 0 <= j < |p.steps| ==> names[j] == if p.steps[j].Reuse? then p.steps[j].name else uuids[j]
    requires ja < |p.steps| && jb < |p.steps| && ja != jb
    ensures names[ja] != names[jb]
  {
    if ja > jb {
      StepNamesDistinct(k, p, metas, uuids, names, jb, ja);
    }
  }
}

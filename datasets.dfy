/**
 * `Dataset`: a named folder of datapoints plus its metadata document, and
 * `copy`, the only way a derived dataset comes into being.
 */
module Datasets {
  import opened Wrappers
  import opened Values
  import opened Text
  import opened PyLib
  import opened Store
  import opened Points
  import opened Scan

  /** An `only_ids` / `only_points` argument: `False` (no filter) or a list of names. */
  datatype Filter = NoFilter | Only(names: seq<string>)

  /**
   * `not only or x in only`, as Python evaluates it: an EMPTY list is
   * falsy and so admits everything, exactly like no filter at all.
   */
  predicate AdmitsAsWritten(f: Filter, x: string) {
    f.NoFilter? || |f.names| == 0 || x in f.names
  }

  /** The intended filter: a list admits exactly its members, the empty list nothing. */
  predicate Admits(f: Filter, x: string) {
    f.NoFilter? || x in f.names
  }

  /**
   * Whether `copy` takes a file into the new dataset, or the `IndexError`
   * of `file.split(".")[1]` for a file without a dot, under the given
   * reading of the filters. A point's key is its first two segments; an
   * identity's attribute file `<id>.yaml` survives any point filter.
   */
  function Decide(file: string, onlyIds: Filter, onlyPoints: Filter, asWritten: bool): Result<bool> {
    var parts := Split(file, '.');
    var admits := (f: Filter, x: string) => if asWritten then AdmitsAsWritten(f, x) else Admits(f, x);
    if !admits(onlyIds, parts[0]) then Ok(false)
    else if admits(onlyPoints, Join(parts[..if |parts| < 2 then |parts| else 2], '.')) then
      Ok(parts[|parts| - 1] in AllowedExt())
    else if |parts| < 2 then Err(IndexError)
    else Ok(parts[1] == "yaml" && parts[|parts| - 1] in AllowedExt())
  }

  /** The decision `copy` makes for one file, with the intended filter. */
  function CopyDecision(file: string, onlyIds: Filter, onlyPoints: Filter): Result<bool> {
    Decide(file, onlyIds, onlyPoints, false)
  }

  /** The decision `copy` makes for one file, as written. */
  function CopyDecisionAsWritten(file: string, onlyIds: Filter, onlyPoints: Filter): Result<bool> {
    Decide(file, onlyIds, onlyPoints, true)
  }

  /**
   * As written, splitting with a cut that leaves one side EMPTY hands that
   * side the whole folder: with `only_points=[]` a point file is copied
   * even though no point was selected.
   */
  lemma EmptySelectionCopiesEverything()
    ensures CopyDecisionAsWritten("a.1.jpg", NoFilter, Only([])) == Ok(true)
    ensures CopyDecision("a.1.jpg", NoFilter, Only([])) == Ok(false)
  {
    assert "a" + "." + "1" + "." + "jpg" == "a.1.jpg";
    assert "jpg" in AllowedExt();
    DecideForPointFile("a", "1", "jpg", NoFilter, Only([]), true);
    DecideForPointFile("a", "1", "jpg", NoFilter, Only([]), false);
  }

  /**
   * With the intended filter a point file `<id>.<point>.<ext>` is copied
   * exactly when its identity and its point are admitted and its extension
   * is one a datapoint kind or attribute file uses.
   */
  lemma DecisionForPointFile(idname: string, pointname: string, ext: string, onlyIds: Filter, onlyPoints: Filter)
    requires '.' !in idname && '.' !in pointname && '.' !in ext && pointname != "yaml"
    ensures CopyDecision(idname + "." + pointname + "." + ext, onlyIds, onlyPoints) ==
      Ok(Admits(onlyIds, idname) && Admits(onlyPoints, PointKey(idname, pointname)) && ext in AllowedExt())
  {
    DecideForPointFile(idname, pointname, ext, onlyIds, onlyPoints, false);
  }

  /** The decision for a point file, under either reading of the filters. */
  lemma DecideForPointFile(idname: string, pointname: string, ext: string, onlyIds: Filter, onlyPoints: Filter, asWritten: bool)
    requires '.' !in idname && '.' !in pointname && '.' !in ext && pointname != "yaml"
    ensures var key := PointKey(idname, pointname);
      Decide(idname + "." + pointname + "." + ext, onlyIds, onlyPoints, asWritten) ==
      if asWritten then Ok(AdmitsAsWritten(onlyIds, idname) && AdmitsAsWritten(onlyPoints, key) && ext in AllowedExt())
      else Ok(Admits(onlyIds, idname) && Admits(onlyPoints, key) && ext in AllowedExt())
  {
    PointFileParts(idname, pointname, ext);
    var parts := Split(idname + "." + pointname + "." + ext, '.');
    assert parts[..2] == [idname, pointname];
  }

  /** A point file splits into its three segments; its key is the first two. */
  lemma PointFileParts(idname: string, pointname: string, ext: string)
    requires '.' !in idname && '.' !in pointname && '.' !in ext
    ensures Split(idname + "." + pointname + "." + ext, '.') == [idname, pointname, ext]
    ensures Join([idname, pointname], '.') == PointKey(idname, pointname)
  {
    var parts := [idname, pointname, ext];
    var file := idname + "." + pointname + "." + ext;
    assert Join(parts, '.') == file by {
      assert parts[1..] == [pointname, ext];
      assert parts[1..][1..] == [ext];
      assert Join(parts[1..], '.') == pointname + "." + ext;
    }
    JoinSplit(parts, '.');
    assert Join([idname, pointname], '.') == PointKey(idname, pointname) by {
      assert [idname, pointname][1..] == [pointname];
    }
  }

  /** What a copied file becomes in the new folder: a link, or the followed content. */
  datatype Action = Skip | Put(e: Entry) | Fail(err: Error)

  function CopyAction(src: map<string, Folder>, parent: string, file: string, onlyIds: Filter, onlyPoints: Filter, softlinked: bool): Action {
    match CopyDecision(file, onlyIds, onlyPoints)
    case Err(e) => Fail(e)
    case Ok(false) => Skip
    case Ok(true) =>
      if softlinked then Put(Link(parent, file))
      else match ReadFile(src, parent, file)
        case None => Fail(FileNotFoundError(parent + "/" + file))
        case Some(v) => Put(Data(v))
  }

  /** The new folder after copying `files` in order, and the error that stopped it, if any. */
  function CopyFiles(src: map<string, Folder>, parent: string, files: seq<string>, onlyIds: Filter, onlyPoints: Filter, softlinked: bool): (Folder, Option<Error>)
  {
    if |files| == 0 then (map[], None)
    else
      var (folder, err) := CopyFiles(src, parent, files[..|files| - 1], onlyIds, onlyPoints, softlinked);
      if err.Some? then (folder, err)
      else match CopyAction(src, parent, files[|files| - 1], onlyIds, onlyPoints, softlinked)
        case Skip => (folder, None)
        case Put(e) => (folder[files[|files| - 1] := e], None)
        case Fail(e) => (folder, Some(e))
  }

  /**
   * A complete copy holds exactly the admitted files: each as a link to
   * the parent's file, or as the parent file's content.
   */
  lemma CopyFilesExact(src: map<string, Folder>, parent: string, files: seq<string>, onlyIds: Filter, onlyPoints: Filter, softlinked: bool, f: string)
    requires CopyFiles(src, parent, files, onlyIds, onlyPoints, softlinked).1.None?
    ensures var folder := CopyFiles(src, parent, files, onlyIds, onlyPoints, softlinked).0;
      (f in folder <==> f in files && CopyDecision(f, onlyIds, onlyPoints) == Ok(true)) &&
      (f in folder && softlinked ==> folder[f] == Link(parent, f)) &&
      (f in folder && !softlinked ==> ReadFile(src, parent, f).Some? && folder[f] == Data(ReadFile(src, parent, f).value))
  {
    CopyFilesMembers(src, parent, files, onlyIds, onlyPoints, softlinked, f);
    CopyFilesEntries(src, parent, files, onlyIds, onlyPoints, softlinked, f);
  }

  lemma {:induction false} CopyFilesMembers(src: map<string, Folder>, parent: string, files: seq<string>, onlyIds: Filter, onlyPoints: Filter, softlinked: bool, f: string)
    requires CopyFiles(src, parent, files, onlyIds, onlyPoints, softlinked).1.None?
    ensures f in CopyFiles(src, parent, files, onlyIds, onlyPoints, softlinked).0 <==>
      f in files && CopyDecision(f, onlyIds, onlyPoints) == Ok(true)
  {
    if |files| > 0 {
      var init := files[..|files| - 1];
      var last := files[|files| - 1];
      assert CopyFiles(src, parent, init, onlyIds, onlyPoints, softlinked).1.None?;
      CopyFilesMembers(src, parent, init, onlyIds, onlyPoints, softlinked, f);
      if f != last && f in files {
        var i :| 0 <= i < |files| && files[i] == f;
        assert init[i] == f;
      }
    }
  }

  lemma {:induction false} CopyFilesEntries(src: map<string, Folder>, parent: string, files: seq<string>, onlyIds: Filter, onlyPoints: Filter, softlinked: bool, f: string)
    requires CopyFiles(src, parent, files, onlyIds, onlyPoints, softlinked).1.None?
    ensures var folder := CopyFiles(src, parent, files, onlyIds, onlyPoints, softlinked).0;
      (f in folder && softlinked ==> folder[f] == Link(parent, f)) &&
      (f in folder && !softlinked ==> ReadFile(src, parent, f).Some? && folder[f] == Data(ReadFile(src, parent, f).value))
  {
    if |files| > 0 {
      var init := files[..|files| - 1];
      assert CopyFiles(src, parent, init, onlyIds, onlyPoints, softlinked).1.None?;
      CopyFilesEntries(src, parent, init, onlyIds, onlyPoints, softlinked, f);
    }
  }

  /** The filter that the intended reading gives what `not only or x in only` does: an empty list is no filter. */
  function AsWrittenFilter(f: Filter): (r: Filter)
    ensures forall x :: Admits(r, x) <==> AdmitsAsWritten(f, x)
  {
    if f.Only? && |f.names| == 0 then NoFilter else f
  }

  /** The decision as written is the intended decision on the filters as Python reads them. */
  lemma DecisionAsWritten(file: string, onlyIds: Filter, onlyPoints: Filter)
    ensures CopyDecisionAsWritten(file, onlyIds, onlyPoints) == CopyDecision(file, AsWrittenFilter(onlyIds), AsWrittenFilter(onlyPoints))
  {
    var parts := Split(file, '.');
    assert Admits(AsWrittenFilter(onlyIds), parts[0]) == AdmitsAsWritten(onlyIds, parts[0]);
    var key := Join(parts[..if |parts| < 2 then |parts| else 2], '.');
    assert Admits(AsWrittenFilter(onlyPoints), key) == AdmitsAsWritten(onlyPoints, key);
  }

  /** `copy` as written: the files of the listing taken under `not only or x in only`. */
  function CopyFilesAsWritten(src: map<string, Folder>, parent: string, files: seq<string>, onlyIds: Filter, onlyPoints: Filter, softlinked: bool): (r: (Folder, Option<Error>))
    ensures r.1.None? ==> forall f :: f in r.0 <==> f in files && CopyDecisionAsWritten(f, onlyIds, onlyPoints) == Ok(true)
  {
    var r := CopyFiles(src, parent, files, AsWrittenFilter(onlyIds), AsWrittenFilter(onlyPoints), softlinked);
    if r.1.None? then
      assert forall f :: f in r.0 <==> f in files && CopyDecisionAsWritten(f, onlyIds, onlyPoints) == Ok(true) by {
        forall f ensures f in r.0 <==> f in files && CopyDecisionAsWritten(f, onlyIds, onlyPoints) == Ok(true) {
          CopyFilesMembers(src, parent, files, AsWrittenFilter(onlyIds), AsWrittenFilter(onlyPoints), softlinked, f);
          DecisionAsWritten(f, onlyIds, onlyPoints);
        }
      }
      r
    else r
  }

  /**
   * As written, an empty `only_ids` or `only_points` list copies what no
   * filter copies: a selection or a split part that chose nothing receives
   * the whole dataset.
   */
  lemma EmptyListCopiesAllAsWritten(src: map<string, Folder>, parent: string, files: seq<string>, onlyIds: Filter, onlyPoints: Filter, softlinked: bool)
    ensures CopyFilesAsWritten(src, parent, files, Only([]), onlyPoints, softlinked) == CopyFilesAsWritten(src, parent, files, NoFilter, onlyPoints, softlinked)
    ensures CopyFilesAsWritten(src, parent, files, onlyIds, Only([]), softlinked) == CopyFilesAsWritten(src, parent, files, onlyIds, NoFilter, softlinked)
  {
  }

  /** With the intended filter, an empty `only_ids` list copies nothing and never fails. */
  lemma {:induction false} EmptyIdsCopyNothing(src: map<string, Folder>, parent: string, files: seq<string>, onlyPoints: Filter, softlinked: bool)
    ensures CopyFiles(src, parent, files, Only([]), onlyPoints, softlinked) == (map[], None)
    decreases |files|
  {
    if |files| > 0 {
      EmptyIdsCopyNothing(src, parent, files[..|files| - 1], onlyPoints, softlinked);
      assert CopyDecision(files[|files| - 1], Only([]), onlyPoints) == Ok(false);
    }
  }

  /**
   * The metadata of a copy: its name, its parent (`original`), the
   * parent's `trait`, the lineage root's metadata, and `softlinked: True`
   * for a linked copy.
   */
  function DerivedMeta(parentMeta: Value, parentName: string, newname: string, softlinked: bool): (r: Result<Value>)
    ensures r.Ok? <==> parentMeta.Dict? && "trait" in parentMeta.entries
    ensures r.Ok? ==> (r.value.Dict? &&
      var m := r.value.entries;
      "name" in m && "original" in m && "trait" in m && "original_meta" in m &&
      m["name"] == Str(newname) && m["original"] == Str(parentName) &&
      m["trait"] == parentMeta.entries["trait"] &&
      RootMeta(m) == RootMeta(parentMeta.entries) &&
      ("softlinked" in m <==> softlinked) &&
      m.Keys <= {"name", "original", "trait", "original_meta", "softlinked"})
    ensures r.Ok? && "original_meta" !in parentMeta.entries ==> r.value.entries["original_meta"] == parentMeta
  {
    if !parentMeta.Dict? then Err(TypeError("metadata is not a mapping"))
    else if "trait" !in parentMeta.entries then Err(KeyError("trait"))
    else
      var m := parentMeta.entries;
      var base := map[
        "name" := Str(newname),
        "original" := Str(parentName),
        "trait" := m["trait"],
        "original_meta" := if "original_meta" in m then m["original_meta"] else parentMeta];
      Ok(Dict(if softlinked then base["softlinked" := Bool(true)] else base))
  }

  /**
   * However long the lineage, a copy's `original_meta` is its root's own
   * metadata: copying a copy never nests `original_meta`.
   */
  lemma LineageStaysFlat(parentMeta: Value, parentName: string, newname: string, softlinked: bool)
    requires parentMeta.Dict?
    requires "original_meta" in parentMeta.entries ==>
      parentMeta.entries["original_meta"].Dict? && "original_meta" !in parentMeta.entries["original_meta"].entries
    requires DerivedMeta(parentMeta, parentName, newname, softlinked).Ok?
    ensures var child := DerivedMeta(parentMeta, parentName, newname, softlinked).value.entries;
      child["original_meta"].Dict? ==> "original_meta" !in child["original_meta"].entries
  {
  }

  /** The index `scan_folder` builds for a folder: the scan of its file names, sorted. */
  ghost function Scanned(folder: Folder): Result<Index> {
    ScanFiles(SortedSet(folder.Keys))
  }

  class Dataset {
    const name: string
    /** Constructed as `SoftlinkDataset`. */
    const softlinked: bool
    var meta: Value
    var index: Index

    ghost predicate Valid()
      reads this
    {
      IndexValid(index)
    }

    constructor Make(name: string, softlinked: bool, meta: Value, index: Index)
      ensures this.name == name && this.softlinked == softlinked
      ensures this.meta == meta && this.index == index
    {
      this.name := name;
      this.softlinked := softlinked;
      this.meta := meta;
      this.index := index;
    }

    /**
     * `Dataset(name)`: load `data/<name>.meta.yaml`, then scan the sorted
     * file names of `data/<name>/`.
     */
    static method Open(disk: Disk, name: string, softlinked: bool) returns (r: Result<Dataset>, files: seq<string>)
      ensures name in disk.folders ==>
        SortedStrings(files) && NoDup(files) && forall x :: x in files <==> x in disk.folders[name]
      ensures r.Ok? <==> name in disk.metas && name in disk.folders && ScanFiles(files).Ok?
      ensures r.Ok? ==> (fresh(r.value) && r.value.Valid() &&
        r.value.name == name && r.value.softlinked == softlinked &&
        r.value.meta == disk.metas[name] && r.value.index == ScanFiles(files).value)
    {
      files := [];
      if name in disk.folders {
        files := SortedList(disk.folders[name].Keys);
      }
      if name !in disk.metas {
        return Err(FileNotFoundError(name + MetaSuffix)), files;
      }
      var meta := disk.metas[name];
      if name !in disk.folders {
        return Err(FileNotFoundError(name)), files;
      }
      var idx := ScanFolder(files);
      if idx.Err? {
        return Err(idx.error), files;
      }
      ScanValid(files);
      var ds := new Dataset.Make(name, softlinked, meta, idx.value);
      r := Ok(ds);
    }

    /** `scan_folder` over the sorted file names. */
    static method ScanFolder(files: seq<string>) returns (r: Result<Index>)
      ensures r == ScanFiles(files)
    {
      var idx := EmptyIndex;
      var i := 0;
      while i < |files|
        invariant 0 <= i <= |files|
        invariant ScanFiles(files[..i]) == Ok(idx)
      {
        assert files[..i + 1][..i] == files[..i];
        var next := ScanStep(idx, files[i]);
        if next.Err? {
          ScanErrorSticks(files, i + 1);
          return next;
        }
        idx := next.value;
        i := i + 1;
      }
      assert files[..i] == files;
      r := Ok(idx);
    }

    /** `reload_meta` */
    method ReloadMeta(disk: Disk) returns (r: Result<()>)
      modifies this
      ensures r.Ok? <==> name in disk.metas
      ensures r.Ok? ==> meta == disk.metas[name]
      ensures r.Err? ==> meta == old(meta)
      ensures index == old(index)
    {
      if name !in disk.metas {
        return Err(FileNotFoundError(name + MetaSuffix));
      }
      meta := disk.metas[name];
      r := Ok(());
    }

    /** `save_meta`: the metadata file now holds the in-memory metadata. */
    method SaveMeta(disk: Disk)
      modifies disk
      ensures disk.metas == old(disk.metas)[name := meta]
      ensures disk.folders == old(disk.folders)
    {
      disk.WriteMeta(name, meta);
    }

    /**
     * `delete`: remove the folder, then the metadata file; a missing
     * folder stops it before the metadata is touched.
     */
    method Delete(disk: Disk) returns (r: Result<()>)
      modifies disk
      ensures r.Ok? <==> name in old(disk.folders) && name in old(disk.metas)
      ensures name in old(disk.folders) ==> disk.folders == old(disk.folders) - {name}
      ensures name !in old(disk.folders) ==> disk.folders == old(disk.folders) && disk.metas == old(disk.metas)
      ensures name in old(disk.folders) ==> disk.metas == old(disk.metas) - {name}
    {
      if name !in disk.folders {
        return Err(FileNotFoundError(name));
      }
      disk.RemoveFolder(name);
      if name !in disk.metas {
        return Err(FileNotFoundError(name + MetaSuffix));
      }
      disk.RemoveMeta(name);
      r := Ok(());
    }

    /** `point_by_id()` */
    function PointById(): seq<seq<string>>
      reads this
    {
      Scan.PointById(index)
    }

    /** `self.identities.keys()` */
    function Ids(): seq<string>
      reads this
    {
      index.identities
    }

    /**
     * `copy(only_points, only_ids, newname, softlinked)`: a new folder named
     * `newname` (a fresh uuid when absent) holding the admitted files, as
     * links or as copies, and a metadata file recording the lineage. The
     * parent's folder and metadata are not touched. A file that cannot be
     * copied, or a parent without `trait`, leaves the new folder behind
     * without metadata.
     */
    method Copy(disk: Disk, listing: seq<string>, onlyPoints: Filter, onlyIds: Filter, newname: Option<string>, uuid: string, softlinked: bool)
      returns (r: Result<Dataset>)
      requires name in disk.folders ==> Distinct(listing) && forall x :: x in listing <==> x in disk.folders[name]
      modifies disk
      ensures var target := if newname.Some? then newname.value else uuid;
        var copied := CopyFiles(old(disk.folders), name, listing, onlyIds, onlyPoints, softlinked);
        var derived := DerivedMeta(meta, name, target, softlinked);
        (target in old(disk.folders) ==> r == Err(FileExistsError(target)) && disk.folders == old(disk.folders) && disk.metas == old(disk.metas)) &&
        (target !in old(disk.folders) && name !in old(disk.folders) ==>
          r.Err? && disk.folders == old(disk.folders)[target := map[]] && disk.metas == old(disk.metas)) &&
        (target !in old(disk.folders) && name in old(disk.folders) ==>
          disk.folders == old(disk.folders)[target := copied.0] &&
          (copied.1.Some? || derived.Err? ==> r.Err? && disk.metas == old(disk.metas)) &&
          (copied.1.None? && derived.Ok? ==> disk.metas == old(disk.metas)[target := derived.value]) &&
          (r.Ok? <==> copied.1.None? && derived.Ok? && Scanned(copied.0).Ok?) &&
          (r.Ok? ==> fresh(r.value) && r.value.name == target && r.value.softlinked == softlinked &&
                     r.value.meta == derived.value && r.value.index == Scanned(copied.0).value && r.value.Valid()))
    {
      var target := if newname.Some? then newname.value else uuid;
      // The parent's files are read as they stood before `mkdir`: nothing
      // in them links into the new folder, so the copy cannot observe itself.
      var src := disk.folders;
      var made := disk.Mkdir(target);
      if made.Err? {
        return Err(made.error);
      }
      if name !in src {
        return Err(FileNotFoundError(name));
      }
      var err := CopyInto(disk, src, name, target, listing, onlyIds, onlyPoints, softlinked);
      if err.Some? {
        return Err(err.value);
      }
      var derived := DerivedMeta(meta, name, target, softlinked);
      if derived.Err? {
        return Err(derived.error);
      }
      disk.WriteMeta(target, derived.value);
      var ds, files := Open(disk, target, softlinked);
      SortedUnique(files, SortedSet(disk.folders[target].Keys));
      if ds.Err? {
        return Err(ds.error);
      }
      r := Ok(ds.value);
    }
  }

  /**
   * The loop of `copy` over the parent's listing: each admitted file goes
   * into the (empty) new folder `target`, reading the parent as `src`.
   * Stops at the first file that cannot be decided or read.
   */
  method CopyInto(disk: Disk, src: map<string, Folder>, name: string, target: string, listing: seq<string>,
                  onlyIds: Filter, onlyPoints: Filter, softlinked: bool) returns (err: Option<Error>)
    requires target in disk.folders && disk.folders[target] == map[]
    modifies disk
    ensures var copied := CopyFiles(src, name, listing, onlyIds, onlyPoints, softlinked);
      err == copied.1 && disk.folders == old(disk.folders)[target := copied.0]
    ensures disk.metas == old(disk.metas)
  {
    var i := 0;
    var folder: Folder := map[];
    while i < |listing|
      invariant 0 <= i <= |listing|
      invariant CopyFiles(src, name, listing[..i], onlyIds, onlyPoints, softlinked) == (folder, None)
      invariant disk.folders == old(disk.folders)[target := folder]
      invariant disk.metas == old(disk.metas)
      invariant target in disk.folders
    {
      var file := listing[i];
      CopyFilesSnoc(src, name, listing, i, onlyIds, onlyPoints, softlinked);
      var action := CopyAction(src, name, file, onlyIds, onlyPoints, softlinked);
      match action {
        case Fail(e) =>
          CopyErrorSticks(src, name, listing, i + 1, onlyIds, onlyPoints, softlinked);
          return Some(e);
        case Skip =>
        case Put(entry) =>
          disk.WriteFile(target, file, entry);
          UpdateTwice(old(disk.folders), target, folder, folder[file := entry]);
          folder := folder[file := entry];
      }
      i := i + 1;
    }
    assert listing[..i] == listing;
    err := None;
  }

  /** `CopyFiles` one file further. */
  lemma CopyFilesSnoc(src: map<string, Folder>, parent: string, files: seq<string>, i: nat, onlyIds: Filter, onlyPoints: Filter, softlinked: bool)
    requires i < |files|
    ensures var (folder, err) := CopyFiles(src, parent, files[..i], onlyIds, onlyPoints, softlinked);
      err.None? ==>
      CopyFiles(src, parent, files[..i + 1], onlyIds, onlyPoints, softlinked) ==
        match CopyAction(src, parent, files[i], onlyIds, onlyPoints, softlinked)
        case Skip => (folder, None)
        case Put(e) => (folder[files[i] := e], None)
        case Fail(e) => (folder, Some(e))
  {
    assert files[..i + 1][..i] == files[..i];
  }

  /** Once a file fails, later files change neither the folder nor the error. */
  lemma {:induction false} CopyErrorSticks(src: map<string, Folder>, parent: string, files: seq<string>, n: nat, onlyIds: Filter, onlyPoints: Filter, softlinked: bool)
    requires n <= |files|
    requires CopyFiles(src, parent, files[..n], onlyIds, onlyPoints, softlinked).1.Some?
    ensures CopyFiles(src, parent, files, onlyIds, onlyPoints, softlinked) == CopyFiles(src, parent, files[..n], onlyIds, onlyPoints, softlinked)
    decreases |files| - n
  {
    if n < |files| {
      assert files[..n + 1][..n] == files[..n];
      CopyErrorSticks(src, parent, files, n + 1, onlyIds, onlyPoints, softlinked);
    } else {
      assert files[..n] == files;
    }
  }
}

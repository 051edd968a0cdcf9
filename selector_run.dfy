/**
 * `AbstractSelector.run`: select, copy the dataset through the selection
 * as a softlinked dataset under a fresh name, and record on the copy the
 * lineage a later cache lookup finds it by.
 */
module SelectorRun {
  import opened Wrappers
  import opened Values
  import opened PyLib
  import opened Store
  import opened Datasets
  import opened Manager
  import opened Selectors

  /** The metadata `run` saves: the copy's own keys, then `selector`, `params` and `random`. */
  function Lineage(entries: Config, k: Kind, config: Config): (m: Config)
    requires IsRandom(k) ==> "seed" in config
    ensures m.Keys == entries.Keys + {"selector", "params", "random"}
    ensures m["selector"] == Str(Name(k)) && m["params"] == Dict(config)
    ensures m["random"] == if IsRandom(k) then config["seed"] else Int(0)
    ensures forall key :: key in entries && key !in {"selector", "params", "random"} ==> m[key] == entries[key]
  {
    entries["selector" := Str(Name(k))]["params" := Dict(config)]["random" := if IsRandom(k) then config["seed"] else Int(0)]
  }

  /**
   * The cache query an experiment builds before it runs the selector named
   * `name`; the parameters are not stripped of `opt`.
   */
  function SelectionQuery(parent: string, name: string, config: Config): Config {
    map["original" := Str(parent), "selector" := Str(name), "params" := Dict(config)]
  }

  /**
   * A selection's saved metadata answers the query for the same parent,
   * selector and configuration, also when the selector has written a
   * default into its configuration.
   */
  lemma SelectionFound(parentMeta: Value, parent: string, uuid: string, k: Kind, config: Config, selConfig: Config)
    requires DerivedMeta(parentMeta, parent, uuid, true).Ok?
    requires IsRandom(k) ==> "seed" in selConfig
    requires forall key :: key in config ==> key in selConfig && selConfig[key] == config[key]
    ensures MatchDoc(Dict(Lineage(DerivedMeta(parentMeta, parent, uuid, true).value.entries, k, selConfig)),
                     SelectionQuery(parent, Name(k), config)) == Ok(true)
  {
    var derived := DerivedMeta(parentMeta, parent, uuid, true).value.entries;
    ConfigCovers(config, selConfig);
    LineageMatches(derived, parent, k, selConfig, config);
  }

  /** A configuration that keeps every key of another with the same value matches it. */
  lemma ConfigCovers(config: Config, selConfig: Config)
    requires forall key :: key in config ==> key in selConfig && selConfig[key] == config[key]
    ensures MatchLevel(selConfig, config)
  {
    forall key | key in config
      ensures if selConfig[key].Dict? && config[key].Dict?
              then MatchLevel(selConfig[key].entries, config[key].entries)
              else PyEq(selConfig[key], config[key])
    {
      MatchesItself(config[key]);
    }
  }

  /** The lineage of a copy of `parent` answers the selection query. */
  lemma LineageMatches(entries: Config, parent: string, k: Kind, selConfig: Config, config: Config)
    requires "original" in entries && entries["original"] == Str(parent)
    requires IsRandom(k) ==> "seed" in selConfig
    requires MatchLevel(selConfig, config)
    ensures MatchLevel(Lineage(entries, k, selConfig), SelectionQuery(parent, Name(k), config))
  {
    var m := Lineage(entries, k, selConfig);
    var q := SelectionQuery(parent, Name(k), config);
    assert "original" !in {"selector", "params", "random"} by {
      assert "original"[0] !in {"selector"[0], "params"[0], "random"[0]};
    }
    assert m["original"] == Str(parent);
    PyEqReflexive(Str(parent));
    PyEqReflexive(Str(Name(k)));
    assert q.Keys == {"original", "selector", "params"};
  }

  /**
   * `run`: the selection, a softlinked copy of the dataset through it named
   * `uuid`, and the copy's metadata tagged with `selector` (the selector's
   * name), `params` (its configuration, as `select` left it) and `random`
   * (the seed, or 0 for a selector that draws nothing), then saved. The
   * parent's folder and metadata are not touched; a selection that fails
   * touches nothing at all.
   */
  method Run(disk: Disk, k: Kind, config: Config, ds: Dataset, listing: seq<string>,
             shuffled: seq<string>, groups: seq<seq<string>>, uuid: string)
    returns (r: Result<Dataset>, sel: Result<Selection>)
    requires Construct(k, config).Ok?
    requires ds.name in disk.folders ==> Distinct(listing) && forall x :: x in listing <==> x in disk.folders[ds.name]
    modifies disk
    ensures sel == SelectionOf(k, config, old(disk.folders), ds.name, ds.index, shuffled, groups)
    ensures sel.Err? ==> r == Err(sel.error) && disk.folders == old(disk.folders) && disk.metas == old(disk.metas)
    ensures sel.Ok? ==> Saved(old(disk.folders), old(disk.metas), disk.folders, disk.metas, r, ds, listing, sel.value, k, uuid)
    ensures r.Ok? ==> sel.Ok? && fresh(r.value) && r.value.Valid() && r.value.name == uuid && r.value.softlinked
    ensures r.Ok? ==> MatchDoc(r.value.meta, SelectionQuery(ds.name, Name(k), config)) == Ok(true)
  {
    sel := Select(k, config, disk.folders, ds.name, ds.index, shuffled, groups);
    if sel.Err? {
      return Err(sel.error), sel;
    }
    r := Persist(disk, ds, listing, sel.value, k, uuid);
    if r.Ok? {
      SelectionFound(ds.meta, ds.name, uuid, k, config, sel.value.config);
    }
  }

  /**
   * What a successful selection leaves behind: the parent's folder and
   * metadata as they were, and, when the copy succeeds, the copied files
   * and the copy's lineage under `uuid`.
   */
  ghost predicate Saved(folders: map<string, Folder>, metas: map<string, Value>,
                        folders': map<string, Folder>, metas': map<string, Value>,
                        r: Result<Dataset>, ds: Dataset, listing: seq<string>, sel: Selection, k: Kind, uuid: string)
    reads ds, if r.Ok? then {r.value} else {}
  {
    var copied := CopyFiles(folders, ds.name, listing, sel.onlyIds, sel.onlyPoints, true);
    Keeps(folders, folders', uuid) && Keeps(metas, metas', uuid) &&
    (r.Ok? <==> CopySucceeds(folders, ds.name, ds.meta, listing, sel, uuid)) &&
    (r.Ok? ==>
      folders' == folders[uuid := copied.0] && r.value.index == Scanned(copied.0).value &&
      DerivedMeta(ds.meta, ds.name, uuid, true).Ok? && (IsRandom(k) ==> "seed" in sel.config) &&
      r.value.meta == Dict(Lineage(DerivedMeta(ds.meta, ds.name, uuid, true).value.entries, k, sel.config)) &&
      metas' == metas[uuid := r.value.meta])
  }

  /**
   * When `copy` succeeds: the new name is free, the parent's folder exists,
   * every file the selection admits is copied, the parent's metadata has a
   * `trait`, and the new folder scans.
   */
  ghost predicate CopySucceeds(folders: map<string, Folder>, parentName: string, parentMeta: Value,
                               listing: seq<string>, sel: Selection, uuid: string) {
    var copied := CopyFiles(folders, parentName, listing, sel.onlyIds, sel.onlyPoints, true);
    uuid !in folders && parentName in folders && copied.1.None? &&
    DerivedMeta(parentMeta, parentName, uuid, true).Ok? && Scanned(copied.0).Ok?
  }

  /** Every entry other than `uuid` is still there, unchanged. */
  ghost predicate Keeps<V>(m: map<string, V>, m': map<string, V>, uuid: string) {
    forall n :: n in m && n != uuid ==> n in m' && m'[n] == m[n]
  }

  /** The copy and the metadata it is saved with, once the selection is made. */
  method Persist(disk: Disk, ds: Dataset, listing: seq<string>, sel: Selection, k: Kind, uuid: string)
    returns (r: Result<Dataset>)
    requires ds.name in disk.folders ==> Distinct(listing) && forall x :: x in listing <==> x in disk.folders[ds.name]
    requires IsRandom(k) ==> "seed" in sel.config
    modifies disk
    ensures Keeps(old(disk.folders), disk.folders, uuid) && Keeps(old(disk.metas), disk.metas, uuid)
    ensures r.Ok? <==> CopySucceeds(old(disk.folders), ds.name, ds.meta, listing, sel, uuid)
    ensures var copied := CopyFiles(old(disk.folders), ds.name, listing, sel.onlyIds, sel.onlyPoints, true);
      r.Ok? ==> disk.folders == old(disk.folders)[uuid := copied.0] && r.value.index == Scanned(copied.0).value
    ensures r.Ok? ==> (DerivedMeta(ds.meta, ds.name, uuid, true).Ok? &&
      r.value.meta == Dict(Lineage(DerivedMeta(ds.meta, ds.name, uuid, true).value.entries, k, sel.config)))
    ensures r.Ok? ==> disk.metas == old(disk.metas)[uuid := r.value.meta]
    ensures r.Ok? ==> fresh(r.value) && r.value.Valid() && r.value.name == uuid && r.value.softlinked
  {
    ghost var metas := disk.metas;
    ghost var derived := DerivedMeta(ds.meta, ds.name, uuid, true);
    r := CopyThrough(disk, ds, listing, sel, uuid);
    if r.Err? {
      return;
    }
    var d := r.value;
    assert d != ds;
    Tag(disk, d, k, sel.config);
    UpdateTwice(metas, uuid, derived.value, d.meta);
  }

  /** `copy(only_points=…, only_ids=…, softlinked=True)` on the parent. */
  method CopyThrough(disk: Disk, ds: Dataset, listing: seq<string>, sel: Selection, uuid: string)
    returns (r: Result<Dataset>)
    requires ds.name in disk.folders ==> Distinct(listing) && forall x :: x in listing <==> x in disk.folders[ds.name]
    modifies disk
    ensures Keeps(old(disk.folders), disk.folders, uuid) && Keeps(old(disk.metas), disk.metas, uuid)
    ensures r.Ok? <==> CopySucceeds(old(disk.folders), ds.name, ds.meta, listing, sel, uuid)
    ensures var copied := CopyFiles(old(disk.folders), ds.name, listing, sel.onlyIds, sel.onlyPoints, true);
      r.Ok? ==> disk.folders == old(disk.folders)[uuid := copied.0] && r.value.index == Scanned(copied.0).value
    ensures r.Ok? ==> DerivedMeta(ds.meta, ds.name, uuid, true).Ok? && r.value.meta == DerivedMeta(ds.meta, ds.name, uuid, true).value
    ensures r.Ok? ==> disk.metas == old(disk.metas)[uuid := r.value.meta]
    ensures r.Ok? ==> fresh(r.value) && r.value.Valid() && r.value.name == uuid && r.value.softlinked
  {
    ghost var folders, metas := disk.folders, disk.metas;
    ghost var copied := CopyFiles(folders, ds.name, listing, sel.onlyIds, sel.onlyPoints, true);
    ghost var derived := DerivedMeta(ds.meta, ds.name, uuid, true);
    r := ds.Copy(disk, listing, sel.onlyPoints, sel.onlyIds, None, uuid, true);
    if uuid in folders {
      assert disk.folders == folders && disk.metas == metas;
    } else if ds.name !in folders {
      assert disk.folders == folders[uuid := map[]] && disk.metas == metas;
    } else {
      assert disk.folders == folders[uuid := copied.0];
      assert disk.metas == metas || disk.metas == metas[uuid := derived.value];
    }
  }

  /** The lineage keys set on the copy's metadata, then `save_meta`. */
  method Tag(disk: Disk, d: Dataset, k: Kind, config: Config)
    requires d.meta.Dict? && (IsRandom(k) ==> "seed" in config)
    modifies disk, d
    ensures d.meta == Dict(Lineage(old(d.meta).entries, k, config))
    ensures disk.metas == old(disk.metas)[d.name := d.meta] && disk.folders == old(disk.folders)
    ensures d.index == old(d.index)
  {
    d.meta := Dict(Lineage(d.meta.entries, k, config));
    d.SaveMeta(disk);
  }
}

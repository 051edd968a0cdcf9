/**
 * The base classes of the two dataset-rewriting stages:
 * `AbstractAnonymization` and `AbstractDeanonymization`. Both refuse an
 * original or softlinked dataset, rewrite every datapoint through the
 * concrete module's per-point step, and tag the dataset's metadata with
 * what was done to it, so that a later cache lookup finds it.
 *
 * The concrete per-point rewrite (`anonymize(point)`,
 * `deanonymize(point)`) is a parameter acting on the dataset's own
 * folder; the base classes' versions leave it as it is.
 */
module Stages {
  import opened Wrappers
  import opened Values
  import opened PyLib
  import opened Store
  import opened Datasets
  import opened Manager
  import opened Lifecycle

  /**
   * `meta["original"] is True or ("softlinked" in meta and
   * meta["softlinked"] is True)`: whether a stage refuses to rewrite the
   * dataset. Metadata without `original` raises.
   */
  function Refused(meta: Value): (r: Result<bool>)
    ensures r.Err? <==> !meta.Dict? || "original" !in meta.entries
    ensures r == Ok(true) <==> (meta.Dict? && "original" in meta.entries &&
      (IsTrue(meta.entries["original"]) || ("softlinked" in meta.entries && IsTrue(meta.entries["softlinked"]))))
  {
    if !meta.Dict? then Err(TypeError("metadata is not a mapping"))
    else
      var o :- Index(meta.entries, "original");
      Ok(IsTrue(o) || ("softlinked" in meta.entries && IsTrue(meta.entries["softlinked"])))
  }

  /** A hard copy (the kind an experiment makes before rewriting) is accepted. */
  lemma HardCopyAccepted(parentMeta: Value, parentName: string, newname: string)
    requires DerivedMeta(parentMeta, parentName, newname, false).Ok?
    ensures Refused(DerivedMeta(parentMeta, parentName, newname, false).value) == Ok(false)
  {
  }

  /** A softlinked copy would rewrite its parent's files through the links: refused. */
  lemma SoftCopyRefused(parentMeta: Value, parentName: string, newname: string)
    requires DerivedMeta(parentMeta, parentName, newname, true).Ok?
    ensures Refused(DerivedMeta(parentMeta, parentName, newname, true).value) == Ok(true)
  {
  }

  /** What a stage does to one datapoint of its dataset's folder, by key. */
  type PointStep = (Folder, string) -> Result<Folder>

  /** `anonymize(point)` / `deanonymize(point)` of the base classes: `pass`. */
  const Pass: PointStep := (f, key) => Ok(f)

  /**
   * The loop `for point in self.dataset.datapoints.values()`: the folder
   * after every datapoint, in order, is rewritten, and the exception that
   * stopped it, if any; the points before it stay rewritten.
   */
  function Visit(f: Folder, keys: seq<string>, step: PointStep): (Folder, Option<Error>) {
    if |keys| == 0 then (f, None)
    else
      var (g, e) := Visit(f, keys[..|keys| - 1], step);
      if e.Some? then (g, e)
      else match step(g, keys[|keys| - 1])
        case Err(x) => (g, Some(x))
        case Ok(h) => (h, None)
  }

  lemma VisitStep(f: Folder, keys: seq<string>, step: PointStep, i: nat)
    requires i < |keys|
    ensures Visit(f, keys[..i + 1], step) ==
      var (g, e) := Visit(f, keys[..i], step);
      if e.Some? then (g, e)
      else if step(g, keys[i]).Err? then (g, Some(step(g, keys[i]).error))
      else (step(g, keys[i]).value, None)
  {
    assert keys[..i + 1][..i] == keys[..i];
  }

  lemma {:induction false} VisitRest(f: Folder, keys: seq<string>, step: PointStep, i: nat)
    requires 0 < i <= |keys| && Visit(f, keys[..i], step).1.Some?
    ensures Visit(f, keys, step) == Visit(f, keys[..i], step)
    decreases |keys| - i
  {
    if i < |keys| {
      VisitStep(f, keys, step, i);
      VisitRest(f, keys, step, i + 1);
    } else {
      assert keys[..i] == keys;
    }
  }

  /** The base classes rewrite nothing. */
  lemma {:induction false} PassKeepsFolder(f: Folder, keys: seq<string>)
    ensures Visit(f, keys, Pass) == (f, None)
  {
    if |keys| > 0 {
      PassKeepsFolder(f, keys[..|keys| - 1]);
    }
  }

  /** Every datapoint is handed to the step exactly when none before it raised. */
  lemma {:induction false} VisitCompletes(f: Folder, keys: seq<string>, step: PointStep)
    requires forall g, k :: step(g, k).Ok?
    ensures Visit(f, keys, step).1.None?
  {
    if |keys| > 0 {
      VisitCompletes(f, keys[..|keys| - 1], step);
    }
  }

  /**
   * `anonymize_all()` / `deanonymize_all()` on the dataset's folder. A
   * dataset whose folder is gone raises before the first point.
   */
  method RewriteAll(disk: Disk, name: string, keys: seq<string>, step: PointStep) returns (err: Option<Error>)
    modifies disk
    ensures disk.metas == old(disk.metas)
    ensures name !in old(disk.folders) ==> err == Some(FileNotFoundError(name)) && unchanged(disk)
    ensures name in old(disk.folders) ==>
      var (f, e) := Visit(old(disk.folders)[name], keys, step);
      err == e && disk.folders == old(disk.folders)[name := f]
  {
    if name !in disk.folders {
      return Some(FileNotFoundError(name));
    }
    ghost var start := disk.folders[name];
    ghost var folders := disk.folders;
    err := None;
    var i := 0;
    while i < |keys|
      invariant 0 <= i <= |keys|
      invariant disk.metas == old(disk.metas) && name in disk.folders
      invariant Visit(start, keys[..i], step) == (disk.folders[name], None)
      invariant disk.folders == folders[name := disk.folders[name]]
    {
      VisitStep(start, keys, step, i);
      var next := step(disk.folders[name], keys[i]);
      if next.Err? {
        VisitRest(start, keys, step, i + 1);
        return Some(next.error);
      }
      disk.folders := disk.folders[name := next.value];
      i := i + 1;
    }
    assert keys[..i] == keys;
  }

  /** `{key: val for key, val in params.items() if key != "opt"}` */
  function WithoutOpt(params: Config): (p: Config)
    ensures p.Keys == params.Keys - {"opt"}
    ensures forall k :: k in p ==> p[k] == params[k]
  {
    map k | k in params && k != "opt" :: params[k]
  }

  /** A saved configuration extending `params` answers a query for `params` without `opt`. */
  lemma ParamsFound(saved: Config, params: Config)
    requires forall k :: k in params ==> k in saved && saved[k] == params[k]
    ensures MatchLevel(saved, WithoutOpt(params))
  {
    var q := WithoutOpt(params);
    forall k | k in q
      ensures if saved[k].Dict? && q[k].Dict? then MatchLevel(saved[k].entries, q[k].entries) else PyEq(saved[k], q[k])
    {
      MatchesItself(q[k]);
    }
  }

  // ----- anonymization -----

  /** A concrete anonymization: its name, whether it draws randomness, its hooks and its per-point rewrite. */
  datatype Anonymizer = Anonymizer(name: string, random: bool, hooks: Hooks, anonymize: PointStep)

  const Refusal: Error := AttributeError("Can only run anonymization on non-original hardlinked datasets.")

  /**
   * The metadata `save_meta` writes: `anonymization`, `params`, `random`
   * (a fresh random number for a randomized module, 0 otherwise) and,
   * only when a background was added, `background`.
   */
  function AnonTags(entries: Config, a: Anonymizer, config: Config, randomId: nat, bg: Option<string>): (m: Config)
    ensures m.Keys == entries.Keys + {"anonymization", "params", "random"} + (if bg.Some? then {"background"} else {})
    ensures m["anonymization"] == Str(a.name) && m["params"] == Dict(config)
    ensures m["random"] == Int(if a.random then randomId else 0)
    ensures bg.Some? ==> m["background"] == Str(bg.value)
    ensures forall k :: k in entries && k !in {"anonymization", "params", "random", "background"} ==> m[k] == entries[k]
    ensures bg.None? && "background" in entries ==> m["background"] == entries["background"]
  {
    var m := entries["anonymization" := Str(a.name)]["params" := Dict(config)]["random" := Int(if a.random then randomId else 0)];
    if bg.Some? then m["background" := Str(bg.value)] else m
  }

  /** The query an experiment looks an anonymization up by. */
  function AnonQuery(parent: string, name: string, params: Config, bg: Option<string>): Config {
    var q := map["original" := Str(parent), "anonymization" := Str(name), "params" := Dict(WithoutOpt(params))];
    if bg.Some? then q["background" := Str(bg.value)] else q
  }

  /**
   * An anonymized hard copy of `parent` answers the query for the same
   * parent, module, parameters (without `opt`) and background, also when
   * `validate_config` wrote defaults into the parameters.
   */
  lemma AnonymizationFound(parentMeta: Value, parent: string, uuid: string, a: Anonymizer, params: Config,
                           config: Config, randomId: nat, bg: Option<string>)
    requires DerivedMeta(parentMeta, parent, uuid, false).Ok?
    requires forall k :: k in params ==> k in config && config[k] == params[k]
    ensures MatchDoc(Dict(AnonTags(DerivedMeta(parentMeta, parent, uuid, false).value.entries, a, config, randomId, bg)),
                     AnonQuery(parent, a.name, params, bg)) == Ok(true)
  {
    var m := AnonTags(DerivedMeta(parentMeta, parent, uuid, false).value.entries, a, config, randomId, bg);
    var q := AnonQuery(parent, a.name, params, bg);
    ParamsFound(config, params);
    assert m["original"] == Str(parent) by {
      assert "original"[0] !in {"anonymization"[0], "params"[0], "random"[0], "background"[0]};
    }
    forall k | k in q
      ensures k in m && if m[k].Dict? && q[k].Dict? then MatchLevel(m[k].entries, q[k].entries) else PyEq(m[k], q[k])
    {
      QueryKeys(parent, a.name, params, bg, k);
      PyEqReflexive(q[k]);
    }
  }

  /** The keys of an anonymization query and what each holds. */
  lemma QueryKeys(parent: string, name: string, params: Config, bg: Option<string>, k: string)
    requires k in AnonQuery(parent, name, params, bg)
    ensures k == "original" ==> AnonQuery(parent, name, params, bg)[k] == Str(parent)
    ensures k == "anonymization" ==> AnonQuery(parent, name, params, bg)[k] == Str(name)
    ensures k == "params" ==> AnonQuery(parent, name, params, bg)[k] == Dict(WithoutOpt(params))
    ensures k in {"original", "anonymization", "params"} || (k == "background" && bg.Some? && AnonQuery(parent, name, params, bg)[k] == Str(bg.value))
  {
    assert "background"[0] !in {"original"[0], "anonymization"[0], "params"[0]};
  }

  class Anonymization {
    const kind: Anonymizer
    /** `self.config`, as `validate_config` left it. */
    const config: Config
    const dataset: Dataset
    /** The name of the background dataset `add_bg` gave, if any. */
    var bg: Option<string>

    constructor Init(kind: Anonymizer, config: Config, dataset: Dataset)
      ensures this.kind == kind && this.config == config && this.dataset == dataset && bg == None
    {
      this.kind := kind;
      this.config := config;
      this.dataset := dataset;
      bg := None;
    }

    /**
     * `Anonymization(config, dataset)`: the target is checked first; only
     * an accepted dataset gets `validate_config` and `init`.
     */
    static method New(kind: Anonymizer, config: Config, dataset: Dataset) returns (r: Result<Anonymization>)
      ensures Refused(dataset.meta).Err? ==> r == Err(Refused(dataset.meta).error)
      ensures Refused(dataset.meta) == Ok(true) ==> r == Err(Refusal)
      ensures Refused(dataset.meta) == Ok(false) ==>
        (r.Ok? <==> Construct(kind.hooks, config).Ok?) &&
        (r.Err? ==> r.error == Construct(kind.hooks, config).error)
      ensures r.Ok? ==> (fresh(r.value) && r.value.kind == kind && r.value.dataset == dataset &&
        r.value.config == Construct(kind.hooks, config).value && r.value.bg == None)
    {
      var refused :- Refused(dataset.meta);
      if refused {
        return Err(Refusal);
      }
      var c :- Construct(kind.hooks, config);
      var a := new Anonymization.Init(kind, c, dataset);
      r := Ok(a);
    }

    /** `add_bg(bg)` */
    method AddBg(background: Dataset)
      modifies this
      ensures bg == Some(background.name)
    {
      bg := Some(background.name);
    }

    /**
     * `run()`: every datapoint rewritten, then `save_meta()`, which tags
     * the in-memory metadata and writes it to the metadata file.
     * `randomId` stands for `int(uuid.uuid4())`.
     */
    method Run(disk: Disk, randomId: nat) returns (r: Result<()>)
      modifies disk, dataset
      ensures dataset.name !in old(disk.folders) ==> r == Err(FileNotFoundError(dataset.name)) && unchanged(disk, dataset)
      ensures dataset.name in old(disk.folders) ==>
        var (f, e) := Visit(old(disk.folders)[dataset.name], dataset.index.datapoints, kind.anonymize);
        disk.folders == old(disk.folders)[dataset.name := f] &&
        (e.Some? ==> r == Err(e.value) && disk.metas == old(disk.metas) && dataset.meta == old(dataset.meta)) &&
        (e.None? && !old(dataset.meta).Dict? ==> r.Err? && disk.metas == old(disk.metas) && dataset.meta == old(dataset.meta)) &&
        (e.None? && old(dataset.meta).Dict? ==> (r.Ok? &&
          dataset.meta == Dict(AnonTags(old(dataset.meta).entries, kind, config, randomId, bg)) &&
          disk.metas == old(disk.metas)[dataset.name := dataset.meta]))
      ensures dataset.index == old(dataset.index)
    {
      var err := RewriteAll(disk, dataset.name, dataset.index.datapoints, kind.anonymize);
      if err.Some? {
        return Err(err.value);
      }
      r := SaveMeta(disk, randomId);
    }

    /** `save_meta()` */
    method SaveMeta(disk: Disk, randomId: nat) returns (r: Result<()>)
      modifies disk, dataset
      ensures disk.folders == old(disk.folders) && dataset.index == old(dataset.index)
      ensures r.Ok? <==> old(dataset.meta).Dict?
      ensures r.Err? ==> disk.metas == old(disk.metas) && dataset.meta == old(dataset.meta)
      ensures r.Ok? ==> dataset.meta == Dict(AnonTags(old(dataset.meta).entries, kind, config, randomId, bg)) &&
                        disk.metas == old(disk.metas)[dataset.name := dataset.meta]
    {
      if !dataset.meta.Dict? {
        return Err(TypeError("metadata is not a mapping"));
      }
      dataset.meta := Dict(AnonTags(dataset.meta.entries, kind, config, randomId, bg));
      dataset.SaveMeta(disk);
      r := Ok(());
    }
  }

  // ----- de-anonymization -----

  /**
   * A concrete de-anonymization: its name, its hooks, what `train` does
   * with the clear and anonymized training datasets (by name), and its
   * per-point rewrite.
   */
  datatype Deanonymizer = Deanonymizer(name: string, hooks: Hooks, train: (string, string) -> Option<Error>, deanonymize: PointStep)

  const DeanonRefusal: Error := AttributeError("Can only run deanonymization on non-original hardlinked datasets.")

  /** The metadata `save_meta` writes: only `deanonymization` and `params`. */
  function DeanonTags(entries: Config, d: Deanonymizer, config: Config): (m: Config)
    ensures m.Keys == entries.Keys + {"deanonymization", "params"}
    ensures m["deanonymization"] == Str(d.name) && m["params"] == Dict(config)
    ensures forall k :: k in entries && k !in {"deanonymization", "params"} ==> m[k] == entries[k]
  {
    entries["deanonymization" := Str(d.name)]["params" := Dict(config)]
  }

  /** The query an experiment looks a de-anonymization up by. */
  function DeanonQuery(parent: string, name: string, params: Config): Config {
    map["original" := Str(parent), "deanonymization" := Str(name), "params" := Dict(WithoutOpt(params))]
  }

  /** A de-anonymized hard copy of `parent` answers the query for the same parent, module and parameters. */
  lemma DeanonymizationFound(parentMeta: Value, parent: string, uuid: string, d: Deanonymizer, params: Config, config: Config)
    requires DerivedMeta(parentMeta, parent, uuid, false).Ok?
    requires forall k :: k in params ==> k in config && config[k] == params[k]
    ensures MatchDoc(Dict(DeanonTags(DerivedMeta(parentMeta, parent, uuid, false).value.entries, d, config)),
                     DeanonQuery(parent, d.name, params)) == Ok(true)
  {
    var m := DeanonTags(DerivedMeta(parentMeta, parent, uuid, false).value.entries, d, config);
    ParamsFound(config, params);
    assert m["original"] == Str(parent);
    assert MatchLevel(m, DeanonQuery(parent, d.name, params));
  }

  class Deanonymization {
    const kind: Deanonymizer
    const config: Config
    /** `self.dataset`: set by `run`, before the target is checked. */
    var dataset: Option<Dataset>

    constructor Init(kind: Deanonymizer, config: Config)
      ensures this.kind == kind && this.config == config && dataset == None
    {
      this.kind := kind;
      this.config := config;
      dataset := None;
    }

    /** `Deanonymization(config)`: `validate_config`, then `init`; no target yet, so nothing is checked. */
    static method New(kind: Deanonymizer, config: Config) returns (r: Result<Deanonymization>)
      ensures r.Ok? <==> Construct(kind.hooks, config).Ok?
      ensures r.Err? ==> r.error == Construct(kind.hooks, config).error
      ensures r.Ok? ==> (fresh(r.value) && r.value.kind == kind && r.value.config == Construct(kind.hooks, config).value &&
                         r.value.dataset == None)
    {
      var c :- Construct(kind.hooks, config);
      var d := new Deanonymization.Init(kind, c);
      r := Ok(d);
    }

    /** `train(clear_set, anon_set)` */
    method Train(clear: Dataset, anon: Dataset) returns (err: Option<Error>)
      ensures err == kind.train(clear.name, anon.name)
    {
      err := kind.train(clear.name, anon.name);
    }

    /**
     * `run(dataset)`: remember the dataset, refuse an original or
     * softlinked one before anything is rewritten, rewrite every
     * datapoint, then tag and save the metadata.
     */
    method Run(disk: Disk, ds: Dataset) returns (r: Result<()>)
      modifies this, disk, ds
      ensures dataset == Some(ds) && ds.index == old(ds.index)
      ensures Refused(old(ds.meta)).Err? ==> r == Err(Refused(old(ds.meta)).error) && unchanged(disk, ds)
      ensures Refused(old(ds.meta)) == Ok(true) ==> r == Err(DeanonRefusal) && unchanged(disk, ds)
      ensures Refused(old(ds.meta)) == Ok(false) && ds.name !in old(disk.folders) ==>
        r == Err(FileNotFoundError(ds.name)) && unchanged(disk, ds)
      ensures Refused(old(ds.meta)) == Ok(false) && ds.name in old(disk.folders) ==>
        var (f, e) := Visit(old(disk.folders)[ds.name], ds.index.datapoints, kind.deanonymize);
        disk.folders == old(disk.folders)[ds.name := f] &&
        (e.Some? ==> r == Err(e.value) && disk.metas == old(disk.metas) && ds.meta == old(ds.meta)) &&
        (e.None? ==> (r.Ok? && ds.meta == Dict(DeanonTags(old(ds.meta).entries, kind, config)) &&
                      disk.metas == old(disk.metas)[ds.name := ds.meta]))
    {
      dataset := Some(ds);
      var refused :- Refused(ds.meta);
      if refused {
        return Err(DeanonRefusal);
      }
      var err := RewriteAll(disk, ds.name, ds.index.datapoints, kind.deanonymize);
      if err.Some? {
        return Err(err.value);
      }
      ds.meta := Dict(DeanonTags(ds.meta.entries, kind, config));
      ds.SaveMeta(disk);
      r := Ok(());
    }
  }
}

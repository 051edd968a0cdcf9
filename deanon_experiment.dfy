/**
 * The de-anonymization experiment: split the clear dataset into a
 * background, an attacker's and an evaluation part; anonymize the
 * attacker's and the evaluation part; select from the anonymized
 * evaluation part; de-anonymize the selection with a module trained on the
 * attacker's clear and anonymized datasets; split the clear evaluation
 * part against the de-anonymized set; evaluate, merge the metrics and
 * record them.
 *
 * The de-anonymization stage is looked up in the cache of derived datasets
 * first, and a fresh run is rolled back when it fails and `cleanup` is set.
 * The split, anonymization and selection stages the run names but no class
 * defines are parameters (`Unshown`).
 */
module DeanonExperiment {
  import opened Wrappers
  import opened Values
  import opened Store
  import opened Datasets
  import opened Manager
  import opened Lifecycle
  import opened Stages
  import opened ExperimentBase
  import Experiments
  import PyLib
  import RS = ResultSets
  import SelectorRun

  // ----- the de-anonymization stage -----

  /** The de-anonymization modules by trait and name. */
  type DeanonRegistry = map<(string, string), Deanonymizer>

  const DeanonFailure: Error := RuntimeError("Failed to run de-anonymization!")

  /**
   * The registered module tags datasets with the name it is registered
   * under, and its `validate_config` only adds to the parameters: what a
   * later lookup relies on to find its output.
   */
  ghost predicate DeanonFindable(registry: DeanonRegistry, traitName: string, stage: Stage) {
    (traitName, stage.name) in registry ==>
      var d := registry[(traitName, stage.name)];
      d.name == stage.name &&
      (Construct(d.hooks, stage.params).Ok? ==>
        forall k :: k in stage.params ==> (k in Construct(d.hooks, stage.params).value &&
          Construct(d.hooks, stage.params).value[k] == stage.params[k]))
  }

  /**
   * What a successful training needs: the module is registered, accepts
   * its parameters, both attacker roles are filled and training on them
   * succeeds.
   */
  predicate TrainedOn(registry: DeanonRegistry, traitName: string, stage: Stage, roles: Roles) {
    (traitName, stage.name) in registry && Construct(registry[(traitName, stage.name)].hooks, stage.params).Ok? &&
    Lookup(roles, "attacker").Some? && Lookup(roles, "anon_attacker").Some? &&
    registry[(traitName, stage.name)].train(Lookup(roles, "attacker").value.name,
                                            Lookup(roles, "anon_attacker").value.name) == None
  }

  /** The module registered for the stage. */
  function Module(registry: DeanonRegistry, traitName: string, stage: Stage): Deanonymizer
    requires (traitName, stage.name) in registry
  {
    registry[(traitName, stage.name)]
  }

  /** The parameters the registered module keeps after `validate_config`. */
  function Params(registry: DeanonRegistry, traitName: string, stage: Stage): Config
    requires (traitName, stage.name) in registry && Construct(Module(registry, traitName, stage).hooks, stage.params).Ok?
  {
    Construct(Module(registry, traitName, stage).hooks, stage.params).value
  }

  /**
   * The `try` body of `get_deanonymized_set` on the copy `ds`: load and
   * construct the module, train it on the `attacker` and `anon_attacker`
   * datasets (a missing role raises `KeyError`), run it on the copy.
   */
  method Deanonymize(disk: Disk, ds: Dataset, stage: Stage, traitName: string, registry: DeanonRegistry, roles: Roles)
    returns (r: Result<()>)
    modifies disk, ds
    ensures disk.folders.Keys == old(disk.folders.Keys) && disk.metas.Keys <= old(disk.metas.Keys) + {ds.name}
    ensures SelectorRun.Keeps(old(disk.folders), disk.folders, ds.name) && SelectorRun.Keeps(old(disk.metas), disk.metas, ds.name)
    ensures ds.index == old(ds.index)
    ensures (traitName, stage.name) !in registry ==> r.Err? && unchanged(disk, ds)
    ensures Lookup(roles, "attacker").None? ==> r.Err? && unchanged(disk, ds)
    ensures r.Ok? ==> (TrainedOn(registry, traitName, stage, roles) && Refused(old(ds.meta)) == Ok(false) &&
      ds.name in old(disk.folders) &&
      disk.folders == old(disk.folders)[ds.name := Visit(old(disk.folders)[ds.name], ds.index.datapoints,
                                                         Module(registry, traitName, stage).deanonymize).0] &&
      ds.meta == Dict(DeanonTags(old(ds.meta).entries, Module(registry, traitName, stage), Params(registry, traitName, stage))) &&
      disk.metas == old(disk.metas)[ds.name := ds.meta])
  {
    var kind :- Load(registry, "src.deanonymization", traitName, stage.name);
    var made := Deanonymization.New(kind, stage.params);
    if made.Err? {
      return Err(made.error);
    }
    var attacker := Lookup(roles, "attacker");
    if attacker.None? {
      return Err(KeyError("attacker"));
    }
    var anonAttacker := Lookup(roles, "anon_attacker");
    if anonAttacker.None? {
      return Err(KeyError("anon_attacker"));
    }
    var d := made.value;
    var err := d.Train(attacker.value, anonAttacker.value);
    if err.Some? {
      return Err(err.value);
    }
    r := d.Run(disk, ds);
  }

  /**
   * The `try` and `except` of `get_deanonymized_set`: any failure deletes
   * the copy when `cleanup` is set and raises `RuntimeError`; reading
   * `cleanup` itself raises `KeyError` when the configuration lacks it.
   */
  method TryDeanonymize(disk: Disk, ds: Dataset, stage: Stage, traitName: string, registry: DeanonRegistry,
                        roles: Roles, cleanup: Result<bool>) returns (r: Result<()>)
    requires ds.name in disk.folders && ds.name in disk.metas
    modifies disk, ds
    ensures ds.index == old(ds.index)
    ensures SelectorRun.Keeps(old(disk.folders), disk.folders, ds.name) && SelectorRun.Keeps(old(disk.metas), disk.metas, ds.name)
    ensures r.Err? ==> r.error == (if cleanup.Err? then cleanup.error else DeanonFailure)
    ensures r.Err? && cleanup == Ok(true) ==> disk.folders == old(disk.folders) - {ds.name} && disk.metas == old(disk.metas) - {ds.name}
    ensures r.Ok? ==> (TrainedOn(registry, traitName, stage, roles) && Refused(old(ds.meta)) == Ok(false) &&
      disk.folders == old(disk.folders)[ds.name := Visit(old(disk.folders)[ds.name], ds.index.datapoints,
                                                         Module(registry, traitName, stage).deanonymize).0] &&
      ds.meta == Dict(DeanonTags(old(ds.meta).entries, Module(registry, traitName, stage), Params(registry, traitName, stage))) &&
      disk.metas == old(disk.metas)[ds.name := ds.meta])
  {
    var result := Deanonymize(disk, ds, stage, traitName, registry, roles);
    if result.Err? {
      if cleanup.Err? {
        return Err(cleanup.error);
      }
      if cleanup.value {
        ghost var folders, metas := disk.folders, disk.metas;
        var deleted := ds.Delete(disk);
        assert disk.folders == folders - {ds.name} == old(disk.folders) - {ds.name};
        assert disk.metas == metas - {ds.name} == old(disk.metas) - {ds.name};
      }
      return Err(DeanonFailure);
    }
    r := Ok(());
  }

  /** A fresh de-anonymization: a hard copy of the parent under a fresh name, then the module run on it. */
  method RunDeanonymization(disk: Disk, order: Order, parent: Dataset, stage: Stage, traitName: string,
                            registry: DeanonRegistry, roles: Roles, uuid: string, cleanup: Result<bool>)
    returns (r: Result<Dataset>, copied: bool)
    requires Enumerates(order)
    requires uuid !in disk.folders && uuid !in disk.metas
    modifies disk
    ensures SelectorRun.Keeps(old(disk.folders), disk.folders, uuid) && SelectorRun.Keeps(old(disk.metas), disk.metas, uuid)
    ensures !copied ==> r.Err?
    ensures copied && r.Err? ==> r.error == (if cleanup.Err? then cleanup.error else DeanonFailure)
    ensures copied && r.Err? && cleanup == Ok(true) ==> disk.folders == old(disk.folders) && disk.metas == old(disk.metas)
    ensures r.Ok? ==> (fresh(r.value) && r.value.name == uuid && TrainedOn(registry, traitName, stage, roles) &&
      DerivedMeta(parent.meta, parent.name, uuid, false).Ok? &&
      r.value.meta == Dict(DeanonTags(DerivedMeta(parent.meta, parent.name, uuid, false).value.entries,
                                      Module(registry, traitName, stage), Params(registry, traitName, stage))) &&
      disk.metas == old(disk.metas)[uuid := r.value.meta])
    ensures r.Ok? ==> (parent.name in old(disk.folders) &&
      disk.folders == old(disk.folders)[uuid := Visit(HardCopy(old(disk.folders), order, parent.name),
                                                      r.value.index.datapoints, Module(registry, traitName, stage).deanonymize).0])
  {
    var made := CopyParent(disk, order, parent, uuid);
    if made.Err? {
      return Err(made.error), false;
    }
    copied := true;
    var ds := made.value;
    ghost var copy, derived := disk.folders[uuid], ds.meta;
    var result := TryDeanonymize(disk, ds, stage, traitName, registry, roles, cleanup);
    if result.Err? {
      if cleanup == Ok(true) {
        Unwound(old(disk.folders), uuid, copy);
        Unwound(old(disk.metas), uuid, derived);
      }
      return Err(result.error), true;
    }
    PyLib.UpdateTwice(old(disk.folders), uuid, copy, disk.folders[uuid]);
    PyLib.UpdateTwice(old(disk.metas), uuid, derived, ds.meta);
    r := Ok(ds);
  }

  /**
   * `get_deanonymized_set(parent)`: reuse a dataset whose metadata records
   * this de-anonymization of this parent; otherwise de-anonymize a fresh
   * copy of the parent.
   */
  method DeanonymizedSet(disk: Disk, order: Order, config: Config, roles: Roles, parent: Dataset, traitName: string,
                         registry: DeanonRegistry, uuid: string)
    returns (r: Result<Dataset>, path: Path)
    requires Enumerates(order)
    requires uuid !in disk.folders && uuid !in disk.metas
    modifies disk
    ensures StageOf(config, "deanonymization").Err? ==> r == Err(StageOf(config, "deanonymization").error) && path == Reused
    ensures path == Reused ==> unchanged(disk)
    ensures path != Reused ==> (StageOf(config, "deanonymization").Ok? &&
      Miss(old(disk.metas), DeanonQuery(parent.name, StageOf(config, "deanonymization").value.name,
                                        StageOf(config, "deanonymization").value.params)))
    ensures SelectorRun.Keeps(old(disk.folders), disk.folders, uuid) && SelectorRun.Keeps(old(disk.metas), disk.metas, uuid)
    ensures path == CopyFailed ==> r.Err?
    ensures path == Copied && r.Err? ==> r.error == (if Cleanup(config).Err? then KeyError("cleanup") else DeanonFailure)
    ensures path == Copied && r.Err? && Cleanup(config) == Ok(true) ==>
      disk.folders == old(disk.folders) && disk.metas == old(disk.metas)
    ensures r.Ok? ==> (StageOf(config, "deanonymization").Ok? && r.value.name in disk.metas && r.value.meta == disk.metas[r.value.name])
    ensures r.Ok? && path == Copied ==>
      fresh(r.value) && r.value.name == uuid && TrainedOn(registry, traitName, StageOf(config, "deanonymization").value, roles)
    ensures r.Ok? && (path == Copied ==> DeanonFindable(registry, traitName, StageOf(config, "deanonymization").value)) ==>
      MatchDoc(r.value.meta, DeanonQuery(parent.name, StageOf(config, "deanonymization").value.name,
                                         StageOf(config, "deanonymization").value.params)) == Ok(true)
  {
    var s := StageOf(config, "deanonymization");
    if s.Err? {
      return Err(s.error), Reused;
    }
    var stage := s.value;
    var hit := Find(disk, order, DeanonQuery(parent.name, stage.name, stage.params));
    if hit.Err? {
      return Err(hit.error), Reused;
    }
    if hit.value.Some? {
      var loaded, files := Dataset.Open(disk, hit.value.value, false);
      return loaded, Reused;
    }
    var copied;
    r, copied := RunDeanonymization(disk, order, parent, stage, traitName, registry, roles, uuid, Cleanup(config));
    path := if copied then Copied else CopyFailed;
    if r.Ok? {
      DeanonFoundAgain(parent.meta, parent.name, uuid, registry, traitName, stage);
    }
  }

  /** A module that is findable tags its copy so that the same lookup finds it next time. */
  lemma DeanonFoundAgain(parentMeta: Value, parent: string, uuid: string, registry: DeanonRegistry, traitName: string, stage: Stage)
    requires (traitName, stage.name) in registry
    requires Construct(Module(registry, traitName, stage).hooks, stage.params).Ok?
    requires DerivedMeta(parentMeta, parent, uuid, false).Ok?
    ensures DeanonFindable(registry, traitName, stage) ==>
      MatchDoc(Dict(DeanonTags(DerivedMeta(parentMeta, parent, uuid, false).value.entries, Module(registry, traitName, stage),
                               Params(registry, traitName, stage))),
               DeanonQuery(parent, stage.name, stage.params)) == Ok(true)
  {
    if DeanonFindable(registry, traitName, stage) {
      var d := Module(registry, traitName, stage);
      DeanonymizationFound(parentMeta, parent, uuid, d, stage.params, Params(registry, traitName, stage));
    }
  }

  // ----- the experiment -----

  /**
   * The stages `run` calls but no class defines, as the datasets they
   * answer with: `get_first_split(orig)` (background, attacker,
   * evaluation), `get_anonymized_set(parent)`, `get_selected_set(parent)`
   * and `get_second_split(clear, other)` (enroll, test).
   */
  datatype Unshown = Unshown(
    firstSplit: Dataset -> Result<(Dataset, Dataset, Dataset)>,
    anonymized: Dataset -> Result<Dataset>,
    selected: Dataset -> Result<Dataset>,
    secondSplit: (Dataset, Dataset) -> Result<(Dataset, Dataset)>)

  /** `run` looks up `self.get_first_split` before anything else, and no class defines it. */
  const NoFirstSplit: Error := AttributeError("'DeanonExperiment' object has no attribute 'get_first_split'")

  /**
   * `DeanonExperiment.run` as written: the first statement evaluates the
   * method it calls before its argument, and the attribute lookup raises.
   * `self.sets["orig"]` and `self.trait` are never set either.
   */
  function RunAsWritten(config: Config, roles: Roles, methods: set<string>): (r: Result<Config>)
    ensures "get_first_split" !in methods ==> r == Err(NoFirstSplit)
    ensures "get_first_split" in methods && Lookup(roles, "orig").None? ==> r == Err(KeyError("orig"))
  {
    if "get_first_split" !in methods then Err(NoFirstSplit)
    else if Lookup(roles, "orig").None? then Err(KeyError("orig"))
    else Err(AttributeError("'DeanonExperiment' object has no attribute 'trait'"))
  }

  /**
   * The methods the experiment classes define, and the roles a fresh
   * experiment holds (`self.sets = {}`): the run as written never gets
   * past its first statement.
   */
  lemma AsWrittenNeverRuns(config: Config)
    ensures RunAsWritten(config, [], {"run", "get_deanonymized_set", "get_anonymization", "get_anonymization_with_parent",
                                      "run_anonymization", "get_anonymization_with_bg", "run_anonbg_split",
                                      "run_evaluation", "run_recognition", "run_utility", "run_metrics",
                                      "save_metrics"}) == Err(NoFirstSplit)
  {
    assert "get_first_split" != "get_deanonymized_set";
  }

  /**
   * The roles of a run, up to the selection: the first split, `train` as
   * another name for `attacker`, the anonymized attacker's set,
   * `select_train` as another name for it, the anonymized evaluation set
   * and the selection from it. `orig` keeps its dataset.
   */
  function Prepared(roles: Roles, orig: Dataset, stages: Unshown): (r: Result<Roles>)
    requires Keyed(roles)
    ensures stages.firstSplit(orig).Err? ==> r == Err(stages.firstSplit(orig).error)
    ensures r.Ok? ==> (Keyed(r.value) && Lookup(r.value, "orig") == Lookup(roles, "orig") &&
      Lookup(r.value, "anonbg").Some? && Lookup(r.value, "attacker").Some? && Lookup(r.value, "eval").Some? &&
      Lookup(r.value, "anon_attacker").Some? && Lookup(r.value, "anon").Some? && Lookup(r.value, "select").Some? &&
      stages.firstSplit(orig) ==
        Ok((Lookup(r.value, "anonbg").value, Lookup(r.value, "attacker").value, Lookup(r.value, "eval").value)) &&
      Lookup(r.value, "train") == Lookup(r.value, "attacker") &&
      Lookup(r.value, "select_train") == Lookup(r.value, "anon_attacker") &&
      stages.anonymized(Lookup(r.value, "attacker").value) == Ok(Lookup(r.value, "anon_attacker").value) &&
      stages.anonymized(Lookup(r.value, "eval").value) == Ok(Lookup(r.value, "anon").value) &&
      stages.selected(Lookup(r.value, "anon").value) == Ok(Lookup(r.value, "select").value))
  {
    var (anonbg, attacker, eval) :- stages.firstSplit(orig);
    var split := Split(roles, anonbg, attacker, eval);
    var anonAttacker :- stages.anonymized(attacker);
    var attacked := Attacked(split, anonAttacker);
    var anon :- stages.anonymized(eval);
    var select :- stages.selected(anon);
    Ok(Chosen(attacked, anon, select))
  }

  /** `self.sets["anonbg"], self.sets["attacker"], self.sets["eval"] = ...; self.sets["train"] = self.sets["attacker"]` */
  function Split(roles: Roles, anonbg: Dataset, attacker: Dataset, eval: Dataset): (r: Roles)
    requires Keyed(roles)
    ensures Keyed(r) && Lookup(r, "orig") == Lookup(roles, "orig")
    ensures Lookup(r, "anonbg") == Some(anonbg) && Lookup(r, "attacker") == Some(attacker) && Lookup(r, "eval") == Some(eval)
    ensures Lookup(r, "train") == Some(attacker)
  {
    Experiments.PlaceRole(Experiments.PlaceRole(Experiments.PlaceRole(Experiments.PlaceRole(
      roles, "anonbg", anonbg), "attacker", attacker), "eval", eval), "train", attacker)
  }

  /** `self.sets["anon_attacker"] = ...; self.sets["select_train"] = self.sets["anon_attacker"]` */
  function Attacked(roles: Roles, anonAttacker: Dataset): (r: Roles)
    requires Keyed(roles)
    ensures Keyed(r) && Lookup(r, "anon_attacker") == Some(anonAttacker) && Lookup(r, "select_train") == Some(anonAttacker)
    ensures Lookup(r, "orig") == Lookup(roles, "orig") && Lookup(r, "anonbg") == Lookup(roles, "anonbg")
    ensures Lookup(r, "attacker") == Lookup(roles, "attacker") && Lookup(r, "eval") == Lookup(roles, "eval")
    ensures Lookup(r, "train") == Lookup(roles, "train")
  {
    Experiments.PlaceRole(Experiments.PlaceRole(roles, "anon_attacker", anonAttacker), "select_train", anonAttacker)
  }

  /** `self.sets["anon"] = ...; self.sets["select"] = ...` */
  function Chosen(roles: Roles, anon: Dataset, select: Dataset): (r: Roles)
    requires Keyed(roles)
    ensures Keyed(r) && Lookup(r, "anon") == Some(anon) && Lookup(r, "select") == Some(select)
    ensures Lookup(r, "orig") == Lookup(roles, "orig") && Lookup(r, "anonbg") == Lookup(roles, "anonbg")
    ensures Lookup(r, "attacker") == Lookup(roles, "attacker") && Lookup(r, "eval") == Lookup(roles, "eval")
    ensures Lookup(r, "train") == Lookup(roles, "train") && Lookup(r, "anon_attacker") == Lookup(roles, "anon_attacker")
    ensures Lookup(r, "select_train") == Lookup(roles, "select_train")
  {
    Experiments.PlaceRole(Experiments.PlaceRole(roles, "anon", anon), "select", select)
  }

  /** `self.sets["deanon"] = ...; self.sets["enroll"], self.sets["test"] = ...` */
  function Placed(roles: Roles, deanon: Dataset, enroll: Dataset, test: Dataset): (r: Roles)
    requires Keyed(roles)
    ensures Keyed(r) && Lookup(r, "deanon") == Some(deanon) && Lookup(r, "enroll") == Some(enroll) && Lookup(r, "test") == Some(test)
    ensures Lookup(r, "orig") == Lookup(roles, "orig") && Lookup(r, "eval") == Lookup(roles, "eval")
    ensures Lookup(r, "attacker") == Lookup(roles, "attacker") && Lookup(r, "train") == Lookup(roles, "train")
    ensures Lookup(r, "anon_attacker") == Lookup(roles, "anon_attacker") && Lookup(r, "select_train") == Lookup(roles, "select_train")
    ensures Lookup(r, "select") == Lookup(roles, "select")
  {
    Experiments.PlaceParts(Experiments.PlaceRole(roles, "deanon", deanon), enroll, test)
  }

  /** The de-anonymization stage of a run, as the rest of the run relies on it. */
  method DeanonStage(disk: Disk, order: Order, config: Config, roles: Roles, parent: Dataset, traitName: string,
                     registry: DeanonRegistry, uuid: string)
    returns (r: Result<Dataset>)
    requires Enumerates(order)
    requires uuid !in disk.folders && uuid !in disk.metas
    modifies disk
    ensures r.Ok? ==> StageOf(config, "deanonymization").Ok?
    ensures r.Ok? && DeanonFindable(registry, traitName, StageOf(config, "deanonymization").value) ==>
      MatchDoc(r.value.meta, DeanonQuery(parent.name, StageOf(config, "deanonymization").value.name,
                                         StageOf(config, "deanonymization").value.params)) == Ok(true)
  {
    var path;
    r, path := DeanonymizedSet(disk, order, config, roles, parent, traitName, registry, uuid);
  }

  /**
   * `DeanonExperiment.run`, with the stages no class defines as
   * parameters and the configured dataset loaded as `orig` first, as the
   * other experiments do: the first split, the two anonymizations, the
   * selection, the de-anonymization of the selection, the second split of
   * the clear evaluation set against the de-anonymized one, then the
   * evaluation, the merged metrics and their record.
   */
  method RunDeanon(disk: Disk, order: Order, config: Config, p: Experiments.Plugins, registry: DeanonRegistry,
                   stages: Unshown, uuid: string, save: bool, stamp: string, codec: RS.Codec, all: Config)
    returns (r: Result<Config>, roles: Roles)
    requires Enumerates(order)
    requires uuid !in disk.folders && uuid !in disk.metas
    modifies disk
    ensures "dataset" !in config ==> r == Err(KeyError("dataset")) && unchanged(disk)
    ensures r.Ok? ==> (Keyed(roles) && Experiments.Recorded(all, r.value, config, roles) &&
      Lookup(roles, "orig").Some? && config["dataset"] == Str(Lookup(roles, "orig").value.name) &&
      Lookup(roles, "train") == Lookup(roles, "attacker") && Lookup(roles, "select_train") == Lookup(roles, "anon_attacker") &&
      Lookup(roles, "eval").Some? && Lookup(roles, "select").Some? && Lookup(roles, "deanon").Some? &&
      Lookup(roles, "enroll").Some? && Lookup(roles, "test").Some? &&
      stages.secondSplit(Lookup(roles, "eval").value, Lookup(roles, "deanon").value) ==
        Ok((Lookup(roles, "enroll").value, Lookup(roles, "test").value)) &&
      Experiments.TraitOf(Lookup(roles, "orig").value.meta).Ok? && StageOf(config, "deanonymization").Ok?)
    ensures r.Ok? && DeanonFindable(registry, Experiments.TraitOf(Lookup(roles, "orig").value.meta).value,
                                    StageOf(config, "deanonymization").value) ==>
      MatchDoc(Lookup(roles, "deanon").value.meta,
               DeanonQuery(Lookup(roles, "select").value.name, StageOf(config, "deanonymization").value.name,
                           StageOf(config, "deanonymization").value.params)) == Ok(true)
  {
    roles := [];
    var started := Experiments.Start(disk, config);
    if started.Err? {
      return Err(started.error), roles;
    }
    var (orig, traitName) := started.value;
    roles := Experiments.PlaceRole([], "orig", orig);
    var prepared := Prepared(roles, orig, stages);
    if prepared.Err? {
      return Err(prepared.error), roles;
    }
    roles := prepared.value;
    var select := Lookup(roles, "select").value;
    var deanon := DeanonStage(disk, order, config, roles, select, traitName, registry, uuid);
    if deanon.Err? {
      return Err(deanon.error), roles;
    }
    var eval := Lookup(roles, "eval").value;
    var parts := stages.secondSplit(eval, deanon.value);
    if parts.Err? {
      return Err(parts.error), roles;
    }
    roles := Placed(roles, deanon.value, parts.value.0, parts.value.1);
    r := Experiments.Conclude(disk, config, roles, traitName, p, save, stamp, codec, all);
  }
}

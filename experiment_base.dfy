/**
 * `AbstractExperiment` and `AbstractAnonExperiment`: the datasets an
 * experiment works with, by role; the evaluation of its enroll and test
 * datasets by a recognition or utility module; the metrics over the
 * resulting result set and the record saved for them; and the cached
 * anonymization of a parent dataset, optionally with a background split
 * off first.
 *
 * Module loading is a registry of the concrete modules by trait and name;
 * what a concrete module does is given by its entry. The directory order
 * of `data/` is a caller-given enumeration.
 */
module ExperimentBase {
  import W = Wrappers
  import opened Wrappers
  import opened Values
  import opened PyLib
  import opened Store
  import opened Datasets
  import opened Manager
  import opened Lifecycle
  import opened Stages
  import Inference
  import Results
  import RS = ResultSets
  import RM = ResultsManager
  import SelectorRun

  // ----- datasets by role -----

  /** `self.sets`: the experiment's datasets by role, in the order the roles were first assigned. */
  type Roles = seq<(string, Dataset)>

  /** No role is listed twice, as in a dictionary. */
  predicate Keyed(roles: Roles) {
    forall i, j :: 0 <= i < j < |roles| ==> roles[i].0 != roles[j].0
  }

  /** `self.sets[role]`, absent when no dataset has that role yet. */
  function Lookup(roles: Roles, role: string): Option<Dataset> {
    if |roles| == 0 then None
    else if roles[0].0 == role then Some(roles[0].1)
    else Lookup(roles[1..], role)
  }

  /** A role is found exactly when it is listed, and then with the dataset listed first under it. */
  lemma {:induction false} LookupMeaning(roles: Roles, role: string)
    ensures Lookup(roles, role).Some? <==> exists i :: 0 <= i < |roles| && roles[i].0 == role
    ensures Lookup(roles, role).Some? ==> exists i :: (0 <= i < |roles| && roles[i] == (role, Lookup(roles, role).value) &&
      forall j :: 0 <= j < i ==> roles[j].0 != role)
  {
    if |roles| > 0 && roles[0].0 != role {
      LookupMeaning(roles[1..], role);
      assert forall i :: 0 <= i < |roles| - 1 ==> roles[1..][i] == roles[i + 1];
      if Lookup(roles, role).Some? {
        var i :| 0 <= i < |roles| - 1 && roles[1..][i] == (role, Lookup(roles, role).value) &&
          forall j :: 0 <= j < i ==> roles[1..][j].0 != role;
        assert roles[i + 1] == (role, Lookup(roles, role).value);
      }
    }
  }

  /** `self.sets[role] = ds`: a role already present keeps its place, a new one goes last. */
  function Assign(roles: Roles, role: string, ds: Dataset): (r: Roles)
    ensures |r| == |roles| + (if Lookup(roles, role).Some? then 0 else 1)
  {
    if |roles| == 0 then [(role, ds)]
    else if roles[0].0 == role then [(role, ds)] + roles[1..]
    else [roles[0]] + Assign(roles[1..], role, ds)
  }

  /** After an assignment the role holds the new dataset and every other role what it held. */
  lemma {:induction false} AssignLookup(roles: Roles, role: string, ds: Dataset, other: string)
    ensures Lookup(Assign(roles, role, ds), other) == if other == role then Some(ds) else Lookup(roles, other)
  {
    if |roles| > 0 && roles[0].0 != role {
      AssignLookup(roles[1..], role, ds, other);
    }
  }

  /** Assignment keeps every role where it was and never lists a role twice. */
  lemma {:induction false} AssignKeeps(roles: Roles, role: string, ds: Dataset)
    requires Keyed(roles)
    ensures Keyed(Assign(roles, role, ds))
    ensures forall i :: 0 <= i < |roles| ==> Assign(roles, role, ds)[i].0 == roles[i].0
    ensures Lookup(roles, role).None? ==> Assign(roles, role, ds)[|roles|] == (role, ds)
  {
    if |roles| > 0 && roles[0].0 != role {
      var tail := roles[1..];
      AssignKeeps(tail, role, ds);
      var a := Assign(roles, role, ds);
      assert a == [roles[0]] + Assign(tail, role, ds);
      forall j | 0 < j < |a| ensures a[j].0 != roles[0].0 {
        if j - 1 < |tail| {
          assert a[j].0 == tail[j - 1].0 == roles[j].0;
        } else {
          assert a[j].0 == role;
        }
      }
    }
  }

  /** `dict(map(lambda x: (x[0], x[1].name), self.sets.items()))`, as pairs. */
  function Named(roles: Roles): (items: seq<(string, string)>)
    ensures |items| == |roles|
    ensures forall i :: 0 <= i < |roles| ==> items[i] == (roles[i].0, roles[i].1.name)
  {
    if |roles| == 0 then [] else [(roles[0].0, roles[0].1.name)] + Named(roles[1..])
  }

  /** The same, as the mapping saved with the metrics: each role to its dataset's name. */
  function RoleDict(roles: Roles): (d: Config)
    ensures forall k :: k in d <==> exists i :: 0 <= i < |roles| && roles[i].0 == k
  {
    if |roles| == 0 then map[]
    else
      var init := roles[..|roles| - 1];
      var d := RoleDict(init);
      assert forall i :: 0 <= i < |init| ==> init[i] == roles[i];
      d[roles[|roles| - 1].0 := Str(roles[|roles| - 1].1.name)]
  }

  lemma {:induction false} RoleDictValues(roles: Roles, i: nat)
    requires Keyed(roles) && i < |roles|
    ensures RoleDict(roles)[roles[i].0] == Str(roles[i].1.name)
  {
    var n := |roles| - 1;
    if i < n {
      var init := roles[..n];
      assert init[i] == roles[i];
      RoleDictValues(init, i);
    }
  }

  // ----- configuration sections -----

  /** A module section of the configuration: `{"name": ..., "params": {...}}`. */
  datatype Stage = Stage(name: string, params: Config)

  /**
   * `self.config[key]["name"]` and `self.config[key]["params"]`. A
   * section that is not a mapping, or a name or parameters of the wrong
   * type, raise.
   */
  function StageOf(config: Config, key: string): (r: Result<Stage>)
    ensures key !in config ==> r == Err(KeyError(key))
    ensures r.Ok? <==> (key in config && config[key].Dict? &&
      "name" in config[key].entries && config[key].entries["name"].Str? &&
      "params" in config[key].entries && config[key].entries["params"].Dict?)
    ensures r.Ok? ==> (r.value.name == config[key].entries["name"].s &&
      r.value.params == config[key].entries["params"].entries)
    ensures key in config && config[key].Dict? && "name" !in config[key].entries ==> r == Err(KeyError("name"))
  {
    var section :- Index(config, key);
    if !section.Dict? then Err(TypeError("section is not a mapping"))
    else
      var name :- Index(section.entries, "name");
      var params :- Index(section.entries, "params");
      if !name.Str? then Err(TypeError("module name is not a string"))
      else if !params.Dict? then Err(AttributeError("'params' has no attribute 'items'"))
      else Ok(Stage(name.s, params.entries))
  }

  // ----- module loading -----

  /**
   * `importlib.import_module(package + "." + trait + "." + name)` and the
   * class in it: the registered module, or `ImportError` naming the module
   * path.
   */
  function Load<T>(registry: map<(string, string), T>, package: string, traitName: string, name: string): (r: Result<T>)
    ensures r.Ok? <==> (traitName, name) in registry
    ensures r.Ok? ==> r.value == registry[(traitName, name)]
    ensures r.Err? ==> r.error == ImportError(package + "." + traitName + "." + name)
  {
    if (traitName, name) in registry then Ok(registry[(traitName, name)])
    else Err(ImportError(package + "." + traitName + "." + name))
  }

  /**
   * An evaluation module as the loader hands it out: its kind, its hooks,
   * what `train` does with a training dataset (by name), what `enroll`
   * does, and what it answers per datapoint.
   */
  datatype InferenceClass = InferenceClass(
    kind: Inference.Kind, hooks: Hooks, train: string -> Option<Error>,
    enroll: seq<string> -> Option<Error>, step: Inference.Step)

  /** `run_recognition` asks the loader for a method it does not have. */
  const NoRecognitionLoader: Error := AttributeError("type object 'ModuleLoader' has no attribute 'get_recognition_by_name'")

  /**
   * `run_recognition` as written: the attribute lookup on `ModuleLoader`
   * fails before any argument is evaluated, whatever the configuration
   * and the datasets.
   */
  function RecognitionAsWritten(config: Config, roles: Roles): (r: Result<Inference.Kind>)
    ensures r.Err? && r.error.AttributeError?
  {
    Err(NoRecognitionLoader)
  }

  /** Which evaluation `run_evaluation` performs: recognition wins over utility. */
  datatype Evaluation = Recognition | Utility | NoEvaluation

  function EvaluationOf(config: Config): Evaluation {
    if "privacy" in config then Recognition
    else if "utility" in config then Utility
    else NoEvaluation
  }

  /** The configuration key and package of an evaluation. */
  function SectionKey(e: Evaluation): string {
    match e
    case Recognition => "privacy"
    case Utility => "utility"
    case NoEvaluation => ""
  }

  function Package(e: Evaluation): string {
    match e
    case Recognition => "src.privacy"
    case Utility => "src.utility"
    case NoEvaluation => ""
  }

  /** The records an evaluation module appends for the enroll and test datasets. */
  function Evaluated(cls: InferenceClass, enroll: Dataset, test: Dataset): (Option<Error>, seq<Results.Record>)
    reads enroll, test
  {
    match cls.kind
    case Classification =>
      var e := cls.enroll(enroll.index.datapoints);
      if e.Some? then (e, [])
      else
        var (recs, err) := Inference.Appended(test.index.datapoints, cls.step);
        (err, recs)
    case Comparison =>
      var (recs, err) := Inference.Appended(enroll.index.datapoints, Inference.Paired(cls.step, test.index.points));
      (err, recs)
  }

  /** The training dataset the configuration names, if any, was accepted by `train`. */
  predicate Trained(config: Config, cls: InferenceClass) {
    "train_set" in config ==> config["train_set"].Str? && cls.train(config["train_set"].s).None?
  }

  /**
   * `run_recognition` (with the classification loader) and `run_utility`:
   * construct the module from the section's parameters, train it when the
   * configuration names a training dataset, run it on the `enroll` and
   * `test` datasets, and record the original configuration and the
   * datasets by role in the new result set. Also returns the metrics the
   * module asks for.
   */
  method RunEvaluation(disk: Disk, e: Evaluation, config: Config, roles: Roles, traitName: string,
                       registry: map<(string, string), InferenceClass>, origConfig: Config,
                       save: bool, stamp: string, codec: RS.Codec)
    returns (r: Result<RS.ResultSet>, metrics: seq<string>)
    requires e != NoEvaluation
    ensures StageOf(config, SectionKey(e)).Err? ==> r == Err(StageOf(config, SectionKey(e)).error)
    ensures StageOf(config, SectionKey(e)).Ok? ==>
      var s := StageOf(config, SectionKey(e)).value;
      ((traitName, s.name) !in registry ==> r == Err(ImportError(Package(e) + "." + traitName + "." + s.name))) &&
      ((traitName, s.name) in registry && Construct(registry[(traitName, s.name)].hooks, s.params).Err? ==>
        r == Err(Construct(registry[(traitName, s.name)].hooks, s.params).error))
    ensures r.Ok? ==>
      var s := StageOf(config, SectionKey(e)).value;
      var cls := registry[(traitName, s.name)];
      Construct(cls.hooks, s.params).Ok? && metrics == Inference.Metrics(cls.kind) && Trained(config, cls) &&
      Lookup(roles, "enroll").Some? && Lookup(roles, "test").Some? &&
      Ran(cls, Lookup(roles, "enroll").value, Lookup(roles, "test").value, roles, origConfig, save, r.value)
  {
    metrics := [];
    var prepared :- Prepare(disk, e, config, traitName, registry);
    var (cls, m) := prepared;
    metrics := Inference.Metrics(cls.kind);
    r := Infer(cls, m, roles, origConfig, save, stamp, codec);
  }

  /** A result set holding what the module appended for the `enroll` and `test` datasets, with its context. */
  ghost predicate Ran(cls: InferenceClass, enroll: Dataset, test: Dataset, roles: Roles, origConfig: Config, save: bool, rs: RS.ResultSet)
    reads rs, rs.results, enroll, test
  {
    Evaluated(cls, enroll, test).0.None? && RS.Records(rs.results) == Evaluated(cls, enroll, test).1 &&
    rs.save == save && rs.config == Dict(origConfig) && rs.datasets == RS.MapOf(Named(roles))
  }

  /** Load, construct and train the module. */
  method Prepare(disk: Disk, e: Evaluation, config: Config, traitName: string,
                 registry: map<(string, string), InferenceClass>)
    returns (r: Result<(InferenceClass, Inference.Module)>)
    requires e != NoEvaluation
    ensures StageOf(config, SectionKey(e)).Err? ==> r == Err(StageOf(config, SectionKey(e)).error)
    ensures StageOf(config, SectionKey(e)).Ok? ==>
      var s := StageOf(config, SectionKey(e)).value;
      ((traitName, s.name) !in registry ==> r == Err(ImportError(Package(e) + "." + traitName + "." + s.name))) &&
      ((traitName, s.name) in registry && Construct(registry[(traitName, s.name)].hooks, s.params).Err? ==>
        r == Err(Construct(registry[(traitName, s.name)].hooks, s.params).error))
    ensures r.Ok? ==>
      var s := StageOf(config, SectionKey(e)).value;
      (traitName, s.name) in registry && r.value.0 == registry[(traitName, s.name)] &&
      Inference.New(r.value.0.kind, r.value.0.hooks, s.params, r.value.0.enroll, r.value.0.step) == Ok(r.value.1) &&
      Trained(config, r.value.0)
  {
    var s :- StageOf(config, SectionKey(e));
    var cls :- Load(registry, Package(e), traitName, s.name);
    var m :- Inference.New(cls.kind, cls.hooks, s.params, cls.enroll, cls.step);
    if "train_set" in config {
      var t := config["train_set"];
      if !t.Str? {
        return Err(TypeError("dataset name is not a string"));
      }
      var loaded, files := Dataset.Open(disk, t.s, false);
      if loaded.Err? {
        return Err(loaded.error);
      }
      var err := cls.train(t.s);
      if err.Some? {
        return Err(err.value);
      }
    }
    r := Ok((cls, m));
  }

  /** Run the constructed module on the `enroll` and `test` datasets and save the context. */
  method Infer(cls: InferenceClass, m: Inference.Module, roles: Roles, origConfig: Config,
               save: bool, stamp: string, codec: RS.Codec) returns (r: Result<RS.ResultSet>)
    requires m.kind == cls.kind && m.enroll == cls.enroll && m.step == cls.step
    ensures Lookup(roles, "enroll").None? ==> r == Err(KeyError("enroll"))
    ensures Lookup(roles, "enroll").Some? && Lookup(roles, "test").None? ==> r == Err(KeyError("test"))
    ensures Lookup(roles, "enroll").Some? && Lookup(roles, "test").Some? ==>
      (r.Ok? <==> Evaluated(cls, Lookup(roles, "enroll").value, Lookup(roles, "test").value).0.None?)
    ensures r.Ok? ==> (fresh(r.value) && Lookup(roles, "enroll").Some? && Lookup(roles, "test").Some? &&
      Ran(cls, Lookup(roles, "enroll").value, Lookup(roles, "test").value, roles, origConfig, save, r.value))
  {
    var enroll := Lookup(roles, "enroll");
    if enroll.None? {
      return Err(KeyError("enroll"));
    }
    var test := Lookup(roles, "test");
    if test.None? {
      return Err(KeyError("test"));
    }
    ghost var ev := Evaluated(cls, enroll.value, test.value);
    var rs: W.Result<RS.ResultSet>;
    match cls.kind {
      case Classification =>
        rs := Inference.RunClassification(m, enroll.value, test.value, save, stamp, codec);
      case Comparison =>
        rs := Inference.RunComparison(m, enroll.value, test.value, save, stamp, codec);
    }
    assert rs.Ok? <==> ev.0.None?;
    if rs.Err? {
      return Err(rs.error);
    }
    var made := rs.value;
    assert RS.Records(made.results) == ev.1 && made.save == save;
    made.SaveContext(Dict(origConfig), Named(roles));
    assert RS.Records(made.results) == ev.1;
    r := Ok(made);
  }

  // ----- metrics -----

  /**
   * `self.rs` after the metric outputs have been merged in order: a key
   * keeps the value of the first metric that reported it.
   */
  function Merged(outs: seq<seq<(string, Value)>>): Config {
    if |outs| == 0 then map[] else Absorb(Merged(outs[..|outs| - 1]), outs[|outs| - 1])
  }

  /** `for k, v in r.items(): if k not in self.rs: self.rs[k] = v` */
  function Absorb(rs: Config, items: seq<(string, Value)>): Config {
    if |items| == 0 then rs
    else
      var m := Absorb(rs, items[..|items| - 1]);
      var (k, v) := items[|items| - 1];
      if k in m then m else m[k := v]
  }

  /** A key already present keeps its value; a new key gets the value of its first occurrence. */
  lemma {:induction false} AbsorbMeaning(rs: Config, items: seq<(string, Value)>, k: string)
    ensures k in Absorb(rs, items) <==> k in rs || exists j :: 0 <= j < |items| && items[j].0 == k
    ensures k in rs ==> Absorb(rs, items)[k] == rs[k]
    ensures forall j :: (0 <= j < |items| && items[j].0 == k && k !in rs &&
      (forall i :: 0 <= i < j ==> items[i].0 != k)) ==> Absorb(rs, items)[k] == items[j].1
  {
    if |items| > 0 {
      var init := items[..|items| - 1];
      AbsorbMeaning(rs, init, k);
      assert forall i :: 0 <= i < |init| ==> init[i] == items[i];
    }
  }

  /**
   * Merging metric outputs: a key is reported exactly when some metric
   * reported it, with the value from the first metric (and the first
   * item of that metric) that did.
   */
  lemma {:induction false} MergedFirstWins(outs: seq<seq<(string, Value)>>, k: string)
    ensures k in Merged(outs) <==> exists i, j :: 0 <= i < |outs| && 0 <= j < |outs[i]| && outs[i][j].0 == k
    ensures forall i, j :: (0 <= i < |outs| && 0 <= j < |outs[i]| && outs[i][j].0 == k &&
      (forall i', j' :: 0 <= i' < i && 0 <= j' < |outs[i']| ==> outs[i'][j'].0 != k) &&
      (forall j' :: 0 <= j' < j ==> outs[i][j'].0 != k)) ==> Merged(outs)[k] == outs[i][j].1
  {
    if |outs| > 0 {
      var n := |outs| - 1;
      var init := outs[..n];
      MergedFirstWins(init, k);
      AbsorbMeaning(Merged(init), outs[n], k);
      assert forall i :: 0 <= i < n ==> init[i] == outs[i];
    }
  }

  /**
   * The outputs of the metrics, in order, or the error of the first one
   * that cannot be loaded (`ImportError`) or raises. `outputs` gives what
   * each registered metric returns for the result set.
   */
  function Outputs(metrics: seq<string>, outputs: map<string, Result<seq<(string, Value)>>>): Result<seq<seq<(string, Value)>>> {
    if |metrics| == 0 then Ok([])
    else
      var init :- Outputs(metrics[..|metrics| - 1], outputs);
      var m := metrics[|metrics| - 1];
      if m !in outputs then Err(ImportError("src.metric." + m))
      else
        var out :- outputs[m];
        Ok(init + [out])
  }

  /** Every metric is loaded and run, in order, exactly when none fails. */
  lemma {:induction false} OutputsMeaning(metrics: seq<string>, outputs: map<string, Result<seq<(string, Value)>>>)
    ensures Outputs(metrics, outputs).Ok? <==> forall i :: 0 <= i < |metrics| ==> metrics[i] in outputs && outputs[metrics[i]].Ok?
    ensures Outputs(metrics, outputs).Ok? ==> (|Outputs(metrics, outputs).value| == |metrics| &&
      forall i :: 0 <= i < |metrics| ==> Outputs(metrics, outputs).value[i] == outputs[metrics[i]].value)
  {
    if |metrics| > 0 {
      var init := metrics[..|metrics| - 1];
      OutputsMeaning(init, outputs);
      assert forall i :: 0 <= i < |init| ==> init[i] == metrics[i];
    }
  }

  /**
   * When a metric fails, the error is that of the first one that cannot be
   * loaded (`ImportError` naming its module) or raises.
   */
  lemma {:induction false} OutputsFirstError(metrics: seq<string>, outputs: map<string, Result<seq<(string, Value)>>>)
    requires Outputs(metrics, outputs).Err?
    ensures exists i :: 0 <= i < |metrics| && FailsFirst(metrics, outputs, i, Outputs(metrics, outputs).error)
  {
    var n := |metrics| - 1;
    var init := metrics[..n];
    assert forall i :: 0 <= i < n ==> init[i] == metrics[i];
    if Outputs(init, outputs).Err? {
      OutputsFirstError(init, outputs);
      var i :| 0 <= i < n && FailsFirst(init, outputs, i, Outputs(init, outputs).error);
      assert FailsFirst(metrics, outputs, i, Outputs(metrics, outputs).error);
    } else {
      OutputsMeaning(init, outputs);
      assert FailsFirst(metrics, outputs, n, Outputs(metrics, outputs).error);
    }
  }

  /** The metric at `i` is the first to fail, with error `e`. */
  ghost predicate FailsFirst(metrics: seq<string>, outputs: map<string, Result<seq<(string, Value)>>>, i: nat, e: Error)
    requires i < |metrics|
  {
    (forall j :: 0 <= j < i ==> metrics[j] in outputs && outputs[metrics[j]].Ok?) &&
    if metrics[i] !in outputs then e == ImportError("src.metric." + metrics[i]) else outputs[metrics[i]] == Err(e)
  }

  /** Once a metric has failed, the later ones are never loaded. */
  lemma {:induction false} OutputsRest(metrics: seq<string>, outputs: map<string, Result<seq<(string, Value)>>>, i: nat)
    requires 0 < i <= |metrics| && Outputs(metrics[..i], outputs).Err?
    ensures Outputs(metrics, outputs) == Outputs(metrics[..i], outputs)
    decreases |metrics| - i
  {
    if i < |metrics| {
      assert metrics[..i + 1][..i] == metrics[..i];
      OutputsRest(metrics, outputs, i + 1);
    } else {
      assert metrics[..i] == metrics;
    }
  }

  /**
   * `run_metrics`: each metric the evaluation asked for, loaded by name
   * and run on the result set, its output merged into `self.rs`.
   */
  method RunMetrics(metrics: seq<string>, outputs: map<string, Result<seq<(string, Value)>>>) returns (r: Result<Config>)
    ensures Outputs(metrics, outputs).Err? ==> r == Err(Outputs(metrics, outputs).error)
    ensures Outputs(metrics, outputs).Ok? ==> r == Ok(Merged(Outputs(metrics, outputs).value))
  {
    var rs: Config := map[];
    ghost var outs: seq<seq<(string, Value)>> := [];
    var i := 0;
    while i < |metrics|
      invariant 0 <= i <= |metrics|
      invariant Outputs(metrics[..i], outputs) == Ok(outs) && rs == Merged(outs)
    {
      assert metrics[..i + 1][..i] == metrics[..i];
      if metrics[i] !in outputs {
        OutputsRest(metrics, outputs, i + 1);
        return Err(ImportError("src.metric." + metrics[i]));
      }
      var out := outputs[metrics[i]];
      if out.Err? {
        OutputsRest(metrics, outputs, i + 1);
        return Err(out.error);
      }
      assert (outs + [out.value])[..|outs|] == outs;
      rs := MergeIn(rs, out.value);
      outs := outs + [out.value];
      i := i + 1;
    }
    assert metrics[..i] == metrics;
    r := Ok(rs);
  }

  /** The inner loop of `run_metrics` over one metric's output. */
  method MergeIn(rs: Config, items: seq<(string, Value)>) returns (m: Config)
    ensures m == Absorb(rs, items)
  {
    m := rs;
    var j := 0;
    while j < |items|
      invariant 0 <= j <= |items|
      invariant m == Absorb(rs, items[..j])
    {
      assert items[..j + 1][..j] == items[..j];
      var (k, v) := items[j];
      if k !in m {
        m := m[k := v];
      }
      j := j + 1;
    }
    assert items[..j] == items;
  }

  /** What `save_metrics` records under the result set's id. */
  function MetricsRecord(rs: Config, origConfig: Config, roles: Roles): Value {
    Dict(map["metrics" := Dict(rs), "config" := Dict(origConfig), "datasets" := Dict(RoleDict(roles))])
  }

  /**
   * `save_metrics`: `results.yaml` (as loaded) with the record appended
   * under the result set's id; every other record stays.
   */
  function SaveMetrics(all: Config, id: string, rs: Config, origConfig: Config, roles: Roles): (r: Config)
    ensures r.Keys == all.Keys + {id}
    ensures forall k :: k in all && k != id ==> r[k] == all[k]
  {
    all[id := MetricsRecord(rs, origConfig, roles)]
  }

  /**
   * What the results manager then finds: the record under the id, matching
   * the experiment's original configuration and using every dataset of
   * every role.
   */
  lemma SavedMetricsFound(all: Config, id: string, rs: Config, origConfig: Config, roles: Roles)
    requires Keyed(roles)
    ensures var saved := Dict(SaveMetrics(all, id, rs, origConfig, roles));
      RM.GetConfigByName(saved, id) == Ok(MetricsRecord(rs, origConfig, roles)) &&
      RM.MatchesConfig(MetricsRecord(rs, origConfig, roles), origConfig) == Ok(true) &&
      forall i :: 0 <= i < |roles| ==> RM.UsesDataset(MetricsRecord(rs, origConfig, roles), roles[i].1.name) == Ok(true)
  {
    var rec := MetricsRecord(rs, origConfig, roles);
    forall i | 0 <= i < |roles|
      ensures RM.UsesDataset(rec, roles[i].1.name) == Ok(true)
    {
      RoleDictValues(roles, i);
      assert RoleDict(roles)[roles[i].0] in RoleDict(roles).Values;
    }
  }

  // ----- the cache of derived datasets -----

  /** The order `os.listdir` returns a directory's entries in. */
  type Order = set<string> -> seq<string>

  /** An order that lists every entry exactly once. */
  ghost predicate Enumerates(order: Order) {
    forall names: set<string> :: Distinct(order(names)) && forall x :: x in order(names) <==> x in names
  }

  /** The metadata files in `data/`, one per dataset. */
  function MetaFiles(metas: map<string, Value>): set<string> {
    set n | n in metas :: n + MetaSuffix
  }

  /** Enumerating the metadata files lists the store as the dataset manager expects. */
  lemma ListedData(metas: map<string, Value>, order: Order)
    requires Enumerates(order)
    ensures ListsDisk(order(MetaFiles(metas)), metas)
  {
    var listing := order(MetaFiles(metas));
    forall f | f in listing && IsMetaFile(f) ensures MetaName(f) in metas {
      var n :| n in metas && f == n + MetaSuffix;
      assert MetaName(f) == n;
    }
  }

  /** The dataset `name` answers the query. */
  ghost predicate Hit(metas: map<string, Value>, query: Config, name: string) {
    name in metas && MatchDoc(metas[name], query) == Ok(true)
  }

  /** No dataset answers the query. */
  ghost predicate Miss(metas: map<string, Value>, query: Config) {
    forall n :: n in metas ==> MatchDoc(metas[n], query) == Ok(false)
  }

  /**
   * `DatasetManager.get_matching(query)` on the store as it stands: a
   * matching dataset, none when nothing matches, or the error of a
   * metadata file that is not a mapping.
   */
  method Find(disk: Disk, order: Order, query: Config) returns (r: Result<Option<string>>)
    requires Enumerates(order)
    ensures r.Ok? && r.value.Some? ==> Hit(disk.metas, query, r.value.value)
    ensures r == Ok(None) ==> Miss(disk.metas, query)
    ensures r.Err? ==> exists n :: n in disk.metas && !disk.metas[n].Dict?
  {
    var listing := order(MetaFiles(disk.metas));
    ListedData(disk.metas, order);
    r := GetMatching(disk, listing, query);
    if r.Err? {
      var names := MetaNames(listing);
      MetaNamesOnDisk(listing, disk.metas);
      FirstMatchError(names, disk.metas, query);
      var j :| 0 <= j < |names| && !disk.metas[names[j]].Dict?;
      assert names[j] in disk.metas;
    }
  }

  /** What a selector or splitter run leaves in the store, and the datasets it returned, by name. */
  datatype Outcome = Outcome(metas: map<string, Value>, folders: map<string, Folder>, names: Result<seq<string>>)

  /** A selector or splitter run on the store as it stands. */
  type Runner = (map<string, Value>, map<string, Folder>) -> Outcome

  /**
   * The cache pattern of the experiments: look every query up, in order;
   * reuse the datasets found only when every lookup hit, otherwise run the
   * stage. A lookup that raises stops it.
   */
  method Cached(disk: Disk, order: Order, queries: seq<Config>, run: Runner) returns (r: Result<seq<string>>, ran: bool)
    requires Enumerates(order)
    modifies disk
    ensures !ran ==> unchanged(disk)
    ensures !ran && r.Ok? ==> |r.value| == |queries| && forall i :: 0 <= i < |queries| ==> Hit(old(disk.metas), queries[i], r.value[i])
    ensures ran ==> exists i :: 0 <= i < |queries| && Miss(old(disk.metas), queries[i])
    ensures ran ==>
      var o := run(old(disk.metas), old(disk.folders));
      disk.metas == o.metas && disk.folders == o.folders && r == o.names
  {
    var found: seq<string> := [];
    var missing := false;
    ghost var at := 0;
    var i := 0;
    while i < |queries|
      invariant 0 <= i <= |queries| && unchanged(disk)
      invariant !missing ==> |found| == i && forall j :: 0 <= j < i ==> Hit(disk.metas, queries[j], found[j])
      invariant missing ==> at < i && Miss(disk.metas, queries[at])
    {
      var hit := Find(disk, order, queries[i]);
      if hit.Err? {
        return Err(hit.error), false;
      }
      if hit.value.None? {
        if !missing {
          missing, at := true, i;
        }
      } else if !missing {
        found := found + [hit.value.value];
      }
      i := i + 1;
    }
    if !missing {
      return Ok(found), false;
    }
    var o := run(disk.metas, disk.folders);
    disk.metas, disk.folders := o.metas, o.folders;
    r, ran := o.names, true;
  }

  // ----- anonymization -----

  /** The anonymization modules by trait and name. */
  type AnonRegistry = map<(string, string), Anonymizer>

  const AnonFailure: Error := RuntimeError("Failed to run anonymization!")

  function BgName(bg: Option<Dataset>): Option<string> {
    if bg.Some? then Some(bg.value.name) else None
  }

  /**
   * The registered module tags datasets with the name it is registered
   * under, and its `validate_config` only adds to the parameters: what a
   * later lookup relies on to find its output.
   */
  ghost predicate Findable(registry: AnonRegistry, traitName: string, stage: Stage) {
    (traitName, stage.name) in registry ==>
      var a := registry[(traitName, stage.name)];
      a.name == stage.name &&
      (Construct(a.hooks, stage.params).Ok? ==>
        forall k :: k in stage.params ==> (k in Construct(a.hooks, stage.params).value &&
          Construct(a.hooks, stage.params).value[k] == stage.params[k]))
  }

  /**
   * The `try` body of `run_anonymization`: construct the module on the
   * copy (which checks the copy is a non-original hard copy), add the
   * background, run it.
   */
  method Anonymize(disk: Disk, ds: Dataset, a: Anonymizer, params: Config, bg: Option<Dataset>, randomId: nat)
    returns (r: Result<()>)
    modifies disk, ds
    ensures disk.folders.Keys == old(disk.folders.Keys) && disk.metas.Keys <= old(disk.metas.Keys) + {ds.name}
    ensures SelectorRun.Keeps(old(disk.folders), disk.folders, ds.name) && SelectorRun.Keeps(old(disk.metas), disk.metas, ds.name)
    ensures ds.index == old(ds.index)
    ensures r.Ok? ==> (Refused(old(ds.meta)) == Ok(false) && Construct(a.hooks, params).Ok? &&
      ds.name in old(disk.folders) && old(ds.meta).Dict? &&
      disk.folders == old(disk.folders)[ds.name := Visit(old(disk.folders)[ds.name], ds.index.datapoints, a.anonymize).0] &&
      ds.meta == Dict(AnonTags(old(ds.meta).entries, a, Construct(a.hooks, params).value, randomId, BgName(bg))) &&
      disk.metas == old(disk.metas)[ds.name := ds.meta])
  {
    var made := Anonymization.New(a, params, ds);
    if made.Err? {
      return Err(made.error);
    }
    var anon := made.value;
    if bg.Some? {
      anon.AddBg(bg.value);
    }
    r := anon.Run(disk, randomId);
  }

  /**
   * `run_anonymization(parent, bg)`: a hard copy of the parent under a
   * fresh name (outside the `try`), then the module run on it. Any failure
   * inside the `try` deletes the copy when `cleanup` is set and raises
   * `RuntimeError`; reading `cleanup` itself raises `KeyError` when the
   * configuration lacks it.
   */
  method RunAnonymization(disk: Disk, order: Order, parent: Dataset, stage: Stage, traitName: string, registry: AnonRegistry,
                          bg: Option<Dataset>, uuid: string, randomId: nat, cleanup: Result<bool>)
    returns (r: Result<Dataset>, copied: bool)
    requires Enumerates(order)
    requires uuid !in disk.folders && uuid !in disk.metas
    modifies disk
    ensures SelectorRun.Keeps(old(disk.folders), disk.folders, uuid) && SelectorRun.Keeps(old(disk.metas), disk.metas, uuid)
    ensures !copied ==> r.Err?
    ensures copied && r.Err? ==> r.error == (if cleanup.Err? then cleanup.error else AnonFailure)
    ensures copied && r.Err? && cleanup == Ok(true) ==> disk.folders == old(disk.folders) && disk.metas == old(disk.metas)
    ensures r.Ok? ==> (fresh(r.value) && r.value.name == uuid && (traitName, stage.name) in registry &&
      Construct(registry[(traitName, stage.name)].hooks, stage.params).Ok? &&
      DerivedMeta(parent.meta, parent.name, uuid, false).Ok? &&
      r.value.meta == Dict(AnonTags(DerivedMeta(parent.meta, parent.name, uuid, false).value.entries,
                                    registry[(traitName, stage.name)],
                                    Construct(registry[(traitName, stage.name)].hooks, stage.params).value,
                                    randomId, BgName(bg))) &&
      disk.metas == old(disk.metas)[uuid := r.value.meta])
    ensures r.Ok? ==> (parent.name in old(disk.folders) &&
      Scanned(HardCopy(old(disk.folders), order, parent.name)).Ok? &&
      r.value.index == Scanned(HardCopy(old(disk.folders), order, parent.name)).value &&
      disk.folders == old(disk.folders)[uuid := Visit(HardCopy(old(disk.folders), order, parent.name),
                                                      Scanned(HardCopy(old(disk.folders), order, parent.name)).value.datapoints,
                                                      registry[(traitName, stage.name)].anonymize).0])
  {
    var made := CopyParent(disk, order, parent, uuid);
    if made.Err? {
      return Err(made.error), false;
    }
    copied := true;
    var ds := made.value;
    ghost var copy, derived := disk.folders[uuid], ds.meta;
    var result := TryAnonymize(disk, ds, stage, traitName, registry, bg, randomId, cleanup);
    if result.Err? {
      if cleanup == Ok(true) {
        Unwound(old(disk.folders), uuid, copy);
        Unwound(old(disk.metas), uuid, derived);
      }
      return Err(result.error), true;
    }
    UpdateTwice(old(disk.folders), uuid, copy, disk.folders[uuid]);
    UpdateTwice(old(disk.metas), uuid, derived, ds.meta);
    r := Ok(ds);
  }

  /** Deleting what was added under a fresh name restores the map. */
  lemma Unwound<V>(m: map<string, V>, k: string, v: V)
    requires k !in m
    ensures m[k := v] - {k} == m
  {
    assert (m[k := v] - {k}).Keys == m.Keys;
  }

  /** The parent's files as a hard copy holds them. */
  function HardCopy(folders: map<string, Folder>, order: Order, parent: string): Folder
    requires parent in folders
  {
    CopyFiles(folders, parent, order(folders[parent].Keys), NoFilter, NoFilter, false).0
  }

  /** `parent.copy()`: a hard copy of every file under the fresh name. */
  method CopyParent(disk: Disk, order: Order, parent: Dataset, uuid: string) returns (r: Result<Dataset>)
    requires Enumerates(order)
    requires uuid !in disk.folders
    modifies disk
    ensures SelectorRun.Keeps(old(disk.folders), disk.folders, uuid) && SelectorRun.Keeps(old(disk.metas), disk.metas, uuid)
    ensures r.Ok? ==> (fresh(r.value) && r.value.name == uuid && parent.name in old(disk.folders) &&
      DerivedMeta(parent.meta, parent.name, uuid, false).Ok? &&
      r.value.meta == DerivedMeta(parent.meta, parent.name, uuid, false).value &&
      disk.metas == old(disk.metas)[uuid := r.value.meta] &&
      disk.folders == old(disk.folders)[uuid := HardCopy(old(disk.folders), order, parent.name)])
    ensures r.Ok? <==> (parent.name in old(disk.folders) &&
      CopyFiles(old(disk.folders), parent.name, order(old(disk.folders)[parent.name].Keys), NoFilter, NoFilter, false).1.None? &&
      DerivedMeta(parent.meta, parent.name, uuid, false).Ok? && Scanned(HardCopy(old(disk.folders), order, parent.name)).Ok?)
    ensures r.Ok? ==> r.value.Valid() && r.value.index == Scanned(HardCopy(old(disk.folders), order, parent.name)).value
  {
    var listing: seq<string> := [];
    if parent.name in disk.folders {
      listing := order(disk.folders[parent.name].Keys);
    }
    r := parent.Copy(disk, listing, NoFilter, NoFilter, None, uuid, false);
  }

  /**
   * The `try` and `except` of `run_anonymization` on the copy `ds`: load
   * the module, run it; on failure delete the copy when `cleanup` is set.
   */
  method TryAnonymize(disk: Disk, ds: Dataset, stage: Stage, traitName: string, registry: AnonRegistry,
                      bg: Option<Dataset>, randomId: nat, cleanup: Result<bool>) returns (r: Result<()>)
    requires ds.name in disk.folders && ds.name in disk.metas
    modifies disk, ds
    ensures ds.index == old(ds.index)
    ensures SelectorRun.Keeps(old(disk.folders), disk.folders, ds.name) && SelectorRun.Keeps(old(disk.metas), disk.metas, ds.name)
    ensures r.Err? ==> r.error == (if cleanup.Err? then cleanup.error else AnonFailure)
    ensures r.Err? && cleanup == Ok(true) ==> disk.folders == old(disk.folders) - {ds.name} && disk.metas == old(disk.metas) - {ds.name}
    ensures r.Ok? ==> ((traitName, stage.name) in registry &&
      Construct(registry[(traitName, stage.name)].hooks, stage.params).Ok? && old(ds.meta).Dict? &&
      ds.meta == Dict(AnonTags(old(ds.meta).entries, registry[(traitName, stage.name)],
                               Construct(registry[(traitName, stage.name)].hooks, stage.params).value, randomId, BgName(bg))) &&
      disk.metas == old(disk.metas)[ds.name := ds.meta] &&
      disk.folders == old(disk.folders)[ds.name := Visit(old(disk.folders)[ds.name], ds.index.datapoints,
                                                         registry[(traitName, stage.name)].anonymize).0])
  {
    var a := Load(registry, "src.anonymization", traitName, stage.name);
    var result: Result<()>;
    if a.Err? {
      result := Err(a.error);
    } else {
      result := Anonymize(disk, ds, a.value, stage.params, bg, randomId);
    }
    if result.Err? {
      if cleanup.Err? {
        return Err(cleanup.error);
      }
      if cleanup.value {
        ghost var folders, metas := disk.folders, disk.metas;
        var deleted := ds.Delete(disk);
        assert disk.folders == folders - {ds.name} == old(disk.folders) - {ds.name};
        assert disk.metas == metas - {ds.name} == old(disk.metas) - {ds.name};
      }
      return Err(AnonFailure);
    }
    r := Ok(());
  }

  /** `self.config["cleanup"]`, read only when an anonymization failed. */
  function Cleanup(config: Config): (r: Result<bool>)
    ensures r.Err? <==> "cleanup" !in config
    ensures r.Ok? ==> r.value == Truthy(config["cleanup"])
  {
    var v :- Index(config, "cleanup");
    Ok(Truthy(v))
  }

  /** How `get_anonymization_with_parent` came by its dataset. */
  datatype Path = Reused | CopyFailed | Copied

  /**
   * `get_anonymization_with_parent(parent, bg)`: reuse a dataset whose
   * metadata records this anonymization of this parent (with this
   * background); otherwise run the anonymization on a fresh copy.
   */
  method AnonymizationWithParent(disk: Disk, order: Order, config: Config, parent: Dataset, bg: Option<Dataset>,
                                 traitName: string, registry: AnonRegistry, uuid: string, randomId: nat)
    returns (r: Result<Dataset>, path: Path)
    requires Enumerates(order)
    requires uuid !in disk.folders && uuid !in disk.metas
    modifies disk
    ensures StageOf(config, "anonymization").Err? ==> r == Err(StageOf(config, "anonymization").error) && path == Reused
    ensures path == Reused ==> unchanged(disk)
    ensures path != Reused ==> (StageOf(config, "anonymization").Ok? &&
      Miss(old(disk.metas), AnonQuery(parent.name, StageOf(config, "anonymization").value.name,
                                      StageOf(config, "anonymization").value.params, BgName(bg))))
    ensures SelectorRun.Keeps(old(disk.folders), disk.folders, uuid) && SelectorRun.Keeps(old(disk.metas), disk.metas, uuid)
    ensures path == CopyFailed ==> r.Err?
    ensures path == Copied && r.Err? ==> r.error == (if Cleanup(config).Err? then KeyError("cleanup") else AnonFailure)
    ensures path == Copied && r.Err? && Cleanup(config) == Ok(true) ==>
      disk.folders == old(disk.folders) && disk.metas == old(disk.metas)
    ensures r.Ok? ==> (StageOf(config, "anonymization").Ok? && r.value.name in disk.metas && r.value.meta == disk.metas[r.value.name])
    ensures r.Ok? && path == Copied ==> fresh(r.value) && r.value.name == uuid
    ensures r.Ok? && (path == Copied ==> Findable(registry, traitName, StageOf(config, "anonymization").value)) ==>
      MatchDoc(r.value.meta, AnonQuery(parent.name, StageOf(config, "anonymization").value.name,
                                       StageOf(config, "anonymization").value.params, BgName(bg))) == Ok(true)
  {
    var s := StageOf(config, "anonymization");
    if s.Err? {
      return Err(s.error), Reused;
    }
    var stage := s.value;
    var hit := Find(disk, order, AnonQuery(parent.name, stage.name, stage.params, BgName(bg)));
    if hit.Err? {
      return Err(hit.error), Reused;
    }
    if hit.value.Some? {
      var loaded, files := Dataset.Open(disk, hit.value.value, false);
      return loaded, Reused;
    }
    var copied;
    r, copied := RunAnonymization(disk, order, parent, stage, traitName, registry, bg, uuid, randomId, Cleanup(config));
    path := if copied then Copied else CopyFailed;
    if r.Ok? {
      FoundAgain(parent.meta, parent.name, uuid, registry, traitName, stage, randomId, BgName(bg));
    }
  }

  /** A module that is findable tags its copy so that the same lookup finds it next time. */
  lemma FoundAgain(parentMeta: Value, parent: string, uuid: string, registry: AnonRegistry, traitName: string,
                   stage: Stage, randomId: nat, bg: Option<string>)
    requires (traitName, stage.name) in registry
    requires Construct(registry[(traitName, stage.name)].hooks, stage.params).Ok?
    requires DerivedMeta(parentMeta, parent, uuid, false).Ok?
    ensures Findable(registry, traitName, stage) ==>
      MatchDoc(Dict(AnonTags(DerivedMeta(parentMeta, parent, uuid, false).value.entries, registry[(traitName, stage.name)],
                             Construct(registry[(traitName, stage.name)].hooks, stage.params).value, randomId, bg)),
               AnonQuery(parent, stage.name, stage.params, bg)) == Ok(true)
  {
    if Findable(registry, traitName, stage) {
      var a := registry[(traitName, stage.name)];
      AnonymizationFound(parentMeta, parent, uuid, a, stage.params, Construct(a.hooks, stage.params).value, randomId, bg);
    }
  }

  /**
   * `"anonbg_rate" in self.config and self.config["anonbg_rate"] > 0.0`:
   * the background rate when it is positive; a rate that is not a number
   * cannot be compared.
   */
  function BgRate(config: Config): (r: Result<Option<Value>>)
    ensures "anonbg_rate" !in config ==> r == Ok(None)
    ensures r.Ok? && r.value.Some? ==> "anonbg_rate" in config && r.value.value == config["anonbg_rate"]
    ensures "anonbg_rate" in config && config["anonbg_rate"].Int? ==> (r == Ok(Some(config["anonbg_rate"])) <==> config["anonbg_rate"].i > 0)
    ensures "anonbg_rate" in config && config["anonbg_rate"].Real? ==> (r == Ok(Some(config["anonbg_rate"])) <==> config["anonbg_rate"].r > 0.0)
    ensures r.Err? <==> "anonbg_rate" in config && !(config["anonbg_rate"].Int? || config["anonbg_rate"].Real? || config["anonbg_rate"].Bool?)
  {
    if "anonbg_rate" !in config then Ok(None)
    else
      var v := config["anonbg_rate"];
      match v
      case Int(i) => Ok(if i > 0 then Some(v) else None)
      case Real(x) => Ok(if x > 0.0 then Some(v) else None)
      case Bool(b) => Ok(if b then Some(v) else None)
      case _ => Err(TypeError("'>' not supported between instances"))
  }

  /** The lookup of one part of the background split of `orig`. */
  function BgQuery(orig: string, rate: Value, part: int): Config {
    map["original" := Str(orig), "splitter" := Str("anonbg"),
        "params" := Dict(map["rate" := rate, "seed" := Int(0)]), "part" := Int(part)]
  }

  /**
   * `get_anonymization_with_bg()`: the background (part 0) and the
   * evaluation parent (part 1) of the `anonbg` split of `orig`, reused
   * when both are cached and split afresh otherwise; they take the roles
   * `anonbg` and `eval`, and the parent is anonymized with the background.
   */
  method AnonymizationWithBg(disk: Disk, order: Order, config: Config, roles: Roles, rate: Value, split: Runner,
                             traitName: string, registry: AnonRegistry, uuid: string, randomId: nat)
    returns (r: Result<Dataset>, placed: Roles)
    requires Enumerates(order) && Keyed(roles)
    requires uuid !in disk.folders && uuid !in disk.metas
    requires uuid !in split(disk.metas, disk.folders).folders && uuid !in split(disk.metas, disk.folders).metas
    modifies disk
    ensures Lookup(roles, "orig").None? ==> r == Err(KeyError("orig")) && unchanged(disk)
    ensures Keyed(placed)
    ensures forall role :: role != "eval" && role != "anonbg" ==> Lookup(placed, role) == Lookup(roles, role)
    ensures r.Ok? ==> (Lookup(roles, "orig").Some? && Lookup(placed, "eval").Some? && Lookup(placed, "anonbg").Some? &&
      StageOf(config, "anonymization").Ok?)
    ensures r.Ok? && Findable(registry, traitName, StageOf(config, "anonymization").value) ==>
      MatchDoc(r.value.meta, AnonQuery(Lookup(placed, "eval").value.name, StageOf(config, "anonymization").value.name,
                                       StageOf(config, "anonymization").value.params,
                                       Some(Lookup(placed, "anonbg").value.name))) == Ok(true)
  {
    placed := roles;
    var orig := Lookup(roles, "orig");
    if orig.None? {
      return Err(KeyError("orig")), roles;
    }
    var parts, ran := CachedPair(disk, order, BgQuery(orig.value.name, rate, 0), BgQuery(orig.value.name, rate, 1), split);
    if parts.Err? {
      return Err(parts.error), roles;
    }
    var (bg, parent) := parts.value;
    placed := PlaceSplit(roles, parent, bg);
    var path;
    r, path := AnonymizationWithParent(disk, order, config, parent, Some(bg), traitName, registry, uuid, randomId);
  }

  /**
   * The two parts of a cached split: reused when the lookups of both hit,
   * split afresh otherwise; either way loaded by name.
   */
  method CachedPair(disk: Disk, order: Order, q0: Config, q1: Config, split: Runner)
    returns (r: Result<(Dataset, Dataset)>, ran: bool)
    requires Enumerates(order)
    modifies disk
    ensures !ran ==> unchanged(disk)
    ensures !ran && r.Ok? ==> Hit(old(disk.metas), q0, r.value.0.name) && Hit(old(disk.metas), q1, r.value.1.name)
    ensures ran ==> (Miss(old(disk.metas), q0) || Miss(old(disk.metas), q1)) && Split(old(disk.metas), old(disk.folders), split, disk.metas, disk.folders)
    ensures ran && r.Ok? ==> split(old(disk.metas), old(disk.folders)).names == Ok([r.value.0.name, r.value.1.name])
    ensures r.Ok? ==> Loaded(disk.metas, r.value.0) && Loaded(disk.metas, r.value.1)
  {
    var found;
    found, ran := Cached(disk, order, [q0, q1], split);
    if found.Err? {
      return Err(found.error), ran;
    }
    if |found.value| != 2 {
      return Err(ValueError("expected 2 values to unpack")), ran;
    }
    var first, files := Dataset.Open(disk, found.value[0], false);
    if first.Err? {
      return Err(first.error), ran;
    }
    var second, files' := Dataset.Open(disk, found.value[1], false);
    if second.Err? {
      return Err(second.error), ran;
    }
    assert found.value == [first.value.name, second.value.name];
    r := Ok((first.value, second.value));
  }

  /** The store is what the run left. */
  ghost predicate Split(metas: map<string, Value>, folders: map<string, Folder>, run: Runner,
                        metas': map<string, Value>, folders': map<string, Folder>) {
    metas' == run(metas, folders).metas && folders' == run(metas, folders).folders
  }

  /** A dataset as loaded from the store: its metadata is the stored one. */
  ghost predicate Loaded(metas: map<string, Value>, ds: Dataset)
    reads ds
  {
    ds.name in metas && ds.meta == metas[ds.name]
  }

  /** `self.sets["eval"] = parent; self.sets["anonbg"] = bg` */
  function PlaceSplit(roles: Roles, parent: Dataset, bg: Dataset): (placed: Roles)
    requires Keyed(roles)
    ensures Keyed(placed)
    ensures Lookup(placed, "eval") == Some(parent) && Lookup(placed, "anonbg") == Some(bg)
    ensures forall role :: role != "eval" && role != "anonbg" ==> Lookup(placed, role) == Lookup(roles, role)
  {
    var withEval := Assign(roles, "eval", parent);
    AssignKeeps(roles, "eval", parent);
    AssignKeeps(withEval, "anonbg", bg);
    AssignLookups(roles, "eval", parent);
    AssignLookups(withEval, "anonbg", bg);
    Assign(withEval, "anonbg", bg)
  }

  /** `self.sets["anon"] = anon` */
  function PlaceAnon(roles: Roles, anon: Dataset): (placed: Roles)
    requires Keyed(roles)
    ensures Keyed(placed) && Lookup(placed, "anon") == Some(anon)
    ensures forall role :: role != "anon" ==> Lookup(placed, role) == Lookup(roles, role)
  {
    AssignKeeps(roles, "anon", anon);
    AssignLookups(roles, "anon", anon);
    Assign(roles, "anon", anon)
  }

  lemma AssignLookups(roles: Roles, role: string, ds: Dataset)
    ensures forall other :: Lookup(Assign(roles, role, ds), other) == if other == role then Some(ds) else Lookup(roles, other)
  {
    forall other ensures Lookup(Assign(roles, role, ds), other) == if other == role then Some(ds) else Lookup(roles, other) {
      AssignLookup(roles, role, ds, other);
    }
  }

  /**
   * `get_anonymization()`: the `anon` role, anonymized from `orig`, or,
   * with a positive background rate, from the evaluation part of the
   * background split.
   */
  method GetAnonymization(disk: Disk, order: Order, config: Config, roles: Roles, split: Runner,
                          traitName: string, registry: AnonRegistry, uuid: string, randomId: nat)
    returns (r: Result<Roles>)
    requires Enumerates(order) && Keyed(roles)
    requires uuid !in disk.folders && uuid !in disk.metas
    requires uuid !in split(disk.metas, disk.folders).folders && uuid !in split(disk.metas, disk.folders).metas
    modifies disk
    ensures BgRate(config).Err? ==> r == Err(BgRate(config).error) && unchanged(disk)
    ensures r.Ok? ==> BgRate(config).Ok?
    ensures r.Ok? && BgRate(config) == Ok(None) ==> OrigAnonymized(roles, r.value, config, traitName, registry)
    ensures r.Ok? && BgRate(config).Ok? && BgRate(config).value.Some? ==> BgAnonymized(roles, r.value, config, traitName, registry)
  {
    var rate := BgRate(config);
    if rate.Err? {
      return Err(rate.error);
    }
    if rate.value.Some? {
      r := AnonymizedFromBg(disk, order, config, roles, rate.value.value, split, traitName, registry, uuid, randomId);
    } else {
      r := AnonymizedFromOrig(disk, order, config, roles, traitName, registry, uuid, randomId);
    }
  }

  /**
   * The roles after anonymizing without a background: `anon` is added,
   * nothing else changes, and when the anonymization can be found again,
   * its dataset is the one the cache would answer for `orig`.
   */
  ghost predicate OrigAnonymized(roles: Roles, placed: Roles, config: Config, traitName: string, registry: AnonRegistry)
    reads if Lookup(placed, "anon").Some? then {Lookup(placed, "anon").value} else {}
  {
    && Keyed(placed) && Lookup(placed, "anon").Some? && StageOf(config, "anonymization").Ok? && Lookup(roles, "orig").Some?
    && (forall role :: role != "anon" ==> Lookup(placed, role) == Lookup(roles, role))
    && (Findable(registry, traitName, StageOf(config, "anonymization").value) ==>
      MatchDoc(Lookup(placed, "anon").value.meta,
               AnonQuery(Lookup(roles, "orig").value.name, StageOf(config, "anonymization").value.name,
                         StageOf(config, "anonymization").value.params, None)) == Ok(true))
  }

  /**
   * The roles after anonymizing with a background: `anon`, `eval` and
   * `anonbg` are set, nothing else changes, and when the anonymization can
   * be found again, its dataset is the one the cache would answer for
   * `eval` with `anonbg` as background.
   */
  ghost predicate BgAnonymized(roles: Roles, placed: Roles, config: Config, traitName: string, registry: AnonRegistry)
    reads if Lookup(placed, "anon").Some? then {Lookup(placed, "anon").value} else {}
  {
    && Keyed(placed) && Lookup(placed, "anon").Some? && StageOf(config, "anonymization").Ok?
    && Lookup(placed, "eval").Some? && Lookup(placed, "anonbg").Some?
    && (forall role :: role != "anon" && role != "eval" && role != "anonbg" ==> Lookup(placed, role) == Lookup(roles, role))
    && (Findable(registry, traitName, StageOf(config, "anonymization").value) ==>
      MatchDoc(Lookup(placed, "anon").value.meta,
               AnonQuery(Lookup(placed, "eval").value.name, StageOf(config, "anonymization").value.name,
                         StageOf(config, "anonymization").value.params, Some(Lookup(placed, "anonbg").value.name))) == Ok(true))
  }

  /** `get_anonymization()` without a background: `orig` anonymized into the `anon` role. */
  method AnonymizedFromOrig(disk: Disk, order: Order, config: Config, roles: Roles,
                            traitName: string, registry: AnonRegistry, uuid: string, randomId: nat)
    returns (r: Result<Roles>)
    requires Enumerates(order) && Keyed(roles)
    requires uuid !in disk.folders && uuid !in disk.metas
    modifies disk
    ensures r.Ok? ==> OrigAnonymized(roles, r.value, config, traitName, registry)
  {
    var orig := Lookup(roles, "orig");
    if orig.None? {
      return Err(KeyError("orig"));
    }
    var anon, path := AnonymizationWithParent(disk, order, config, orig.value, None, traitName, registry, uuid, randomId);
    if anon.Err? {
      return Err(anon.error);
    }
    r := Ok(PlaceAnon(roles, anon.value));
  }

  /** `get_anonymization()` with a background: the evaluation part anonymized into the `anon` role. */
  method AnonymizedFromBg(disk: Disk, order: Order, config: Config, roles: Roles, rate: Value, split: Runner,
                          traitName: string, registry: AnonRegistry, uuid: string, randomId: nat)
    returns (r: Result<Roles>)
    requires Enumerates(order) && Keyed(roles)
    requires uuid !in disk.folders && uuid !in disk.metas
    requires uuid !in split(disk.metas, disk.folders).folders && uuid !in split(disk.metas, disk.folders).metas
    modifies disk
    ensures r.Ok? ==> BgAnonymized(roles, r.value, config, traitName, registry)
  {
    var anon, placed := AnonymizationWithBg(disk, order, config, roles, rate, split, traitName, registry, uuid, randomId);
    if anon.Err? {
      return Err(anon.error);
    }
    PlaceAnonKeepsParts(placed, anon.value);
    r := Ok(PlaceAnon(placed, anon.value));
  }

  /** Placing the anonymized dataset keeps the two parts of the background split. */
  lemma PlaceAnonKeepsParts(placed: Roles, anon: Dataset)
    requires Keyed(placed)
    ensures Lookup(PlaceAnon(placed, anon), "eval") == Lookup(placed, "eval")
    ensures Lookup(PlaceAnon(placed, anon), "anonbg") == Lookup(placed, "anonbg")
  {
    assert "eval"[0] != "anon"[0] && |"anonbg"| != |"anon"|;
  }
}

/**
 * The two anonymization experiments. `anon` anonymizes the configured
 * dataset, selects from the anonymized set and splits the clear dataset
 * against the selection; `anon_clearselect` selects from the clear dataset
 * first and anonymizes the selection. Both then evaluate, merge the
 * metrics and record them.
 *
 * Every stage is looked up in the cache of derived datasets first. The
 * selector and splitter runs themselves are parameters: what they leave
 * in the store and the names of the datasets they return. That they tag
 * their outputs as the lookups expect is stated as a predicate on the
 * parameter (`SelectorTags`, `SplitterTags`).
 */
module Experiments {
  import opened Wrappers
  import opened Values
  import opened Store
  import opened Datasets
  import opened Manager
  import opened Stages
  import opened ExperimentBase
  import SelectorRun
  import Sel = Selectors
  import Spl = Splitters
  import SplitterRun
  import Text
  import Inference
  import Results
  import RS = ResultSets

  // ----- loading the configured dataset -----

  /** `Dataset(self.config[key])`: the dataset the configuration names, as stored. */
  method OpenNamed(disk: Disk, config: Config, key: string) returns (r: Result<Dataset>)
    ensures key !in config ==> r == Err(KeyError(key))
    ensures r.Ok? ==> fresh(r.value) && key in config && config[key] == Str(r.value.name) && Loaded(disk.metas, r.value)
  {
    var v :- Index(config, key);
    if !v.Str? {
      return Err(TypeError("expected str, bytes or os.PathLike object"));
    }
    var loaded, files := Dataset.Open(disk, v.s, false);
    r := loaded;
  }

  /** `meta["trait"]`: the trait the module loader looks modules up under. */
  function TraitOf(meta: Value): (r: Result<string>)
    ensures r.Ok? <==> meta.Dict? && "trait" in meta.entries && meta.entries["trait"].Str?
    ensures r.Ok? ==> meta.entries["trait"] == Str(r.value)
    ensures meta.Dict? && "trait" !in meta.entries ==> r == Err(KeyError("trait"))
  {
    if !meta.Dict? then Err(TypeError("metadata is not subscriptable"))
    else
      var t :- Index(meta.entries, "trait");
      if t.Str? then Ok(t.s) else Err(TypeError("can only concatenate str to str"))
  }

  // ----- roles -----

  /** `self.sets[role] = ds` */
  function PlaceRole(roles: Roles, role: string, ds: Dataset): (placed: Roles)
    requires Keyed(roles)
    ensures Keyed(placed) && Lookup(placed, role) == Some(ds)
    ensures forall other :: other != role ==> Lookup(placed, other) == Lookup(roles, other)
  {
    AssignKeeps(roles, role, ds);
    AssignLookups(roles, role, ds);
    Assign(roles, role, ds)
  }

  /** `self.sets["enroll"] = enroll_set; self.sets["test"] = test_set` */
  function PlaceParts(roles: Roles, enroll: Dataset, test: Dataset): (placed: Roles)
    requires Keyed(roles)
    ensures Keyed(placed)
    ensures Lookup(placed, "enroll") == Some(enroll) && Lookup(placed, "test") == Some(test)
    ensures forall role :: role != "enroll" && role != "test" ==> Lookup(placed, role) == Lookup(roles, role)
  {
    PlaceRole(PlaceRole(roles, "enroll", enroll), "test", test)
  }

  // ----- selection -----

  /** What a selector run leaves in the store, and the name of the dataset it selected. */
  datatype Selection = Selection(metas: map<string, Value>, folders: map<string, Folder>, name: Result<string>)

  /** `selector.run(parent)` on the store as it stands, for the parent's name. */
  type Selector = (map<string, Value>, map<string, Folder>, string) -> Selection

  /** The lookup of a selection of `parent` by the stage's selector. */
  function SelectQuery(parent: string, s: Stage): Config {
    SelectorRun.SelectionQuery(parent, s.name, s.params)
  }

  /** The selector tags what it selects so that the same lookup finds it. */
  ghost predicate SelectorTags(select: Selector, s: Stage) {
    forall metas, folders, parent :: select(metas, folders, parent).name.Ok? ==>
      Hit(select(metas, folders, parent).metas, SelectQuery(parent, s), select(metas, folders, parent).name.value)
  }

  /**
   * What `SelectorRun.Run` leaves in the store, read as a `Selector`: the
   * dataset it names carries the lineage of a copy of `parent` made by
   * selector `k` with a configuration that keeps every key of `config`.
   * `entries` and `selConfig` give, for each store and parent, the copy's
   * derived metadata and the configuration as the selector left it.
   */
  ghost predicate SavesLineage(select: Selector, k: Sel.Kind, config: Config,
                               entries: (map<string, Value>, map<string, Folder>, string) -> Config,
                               selConfig: (map<string, Value>, map<string, Folder>, string) -> Config) {
    forall metas, folders, parent :: select(metas, folders, parent).name.Ok? ==>
      Saves(select(metas, folders, parent), parent, k, config, entries(metas, folders, parent), selConfig(metas, folders, parent))
  }

  ghost predicate Saves(o: Selection, parent: string, k: Sel.Kind, config: Config, e: Config, c: Config)
    requires o.name.Ok?
  {
    "original" in e && e["original"] == Str(parent) &&
    (Sel.IsRandom(k) ==> "seed" in c) &&
    (forall key :: key in config ==> key in c && c[key] == config[key]) &&
    o.name.value in o.metas && o.metas[o.name.value] == Dict(SelectorRun.Lineage(e, k, c))
  }

  /** A selector that saves the lineage `SelectorRun.Run` records is found again by the stage's lookup. */
  lemma SelectorRunTags(select: Selector, stage: Stage, k: Sel.Kind,
                        entries: (map<string, Value>, map<string, Folder>, string) -> Config,
                        selConfig: (map<string, Value>, map<string, Folder>, string) -> Config)
    requires stage.name == Sel.Name(k)
    requires SavesLineage(select, k, stage.params, entries, selConfig)
    ensures SelectorTags(select, stage)
  {
    forall metas, folders, parent | select(metas, folders, parent).name.Ok?
      ensures Hit(select(metas, folders, parent).metas, SelectQuery(parent, stage), select(metas, folders, parent).name.value)
    {
      var e, c := entries(metas, folders, parent), selConfig(metas, folders, parent);
      SelectorRun.ConfigCovers(stage.params, c);
      SelectorRun.LineageMatches(e, parent, k, c, stage.params);
    }
  }

  /** The store is what the selector run left. */
  ghost predicate Selected(metas: map<string, Value>, folders: map<string, Folder>, select: Selector, parent: string,
                           metas': map<string, Value>, folders': map<string, Folder>) {
    metas' == select(metas, folders, parent).metas && folders' == select(metas, folders, parent).folders
  }

  /** The dataset's metadata answers the lookup. */
  ghost predicate Answers(ds: Dataset, query: Config)
    reads ds
  {
    MatchDoc(ds.meta, query) == Ok(true)
  }

  /**
   * `get_selected_set()`: a dataset that records this selection of
   * `parent` is reused; otherwise the selector runs on `parent`.
   */
  method SelectedSet(disk: Disk, order: Order, stage: Stage, parent: Dataset, select: Selector)
    returns (r: Result<Dataset>, ran: bool)
    requires Enumerates(order)
    modifies disk
    ensures !ran ==> unchanged(disk)
    ensures !ran && r.Ok? ==> Hit(old(disk.metas), SelectQuery(parent.name, stage), r.value.name)
    ensures ran ==> Miss(old(disk.metas), SelectQuery(parent.name, stage)) &&
                    Selected(old(disk.metas), old(disk.folders), select, parent.name, disk.metas, disk.folders)
    ensures ran && r.Ok? ==> select(old(disk.metas), old(disk.folders), parent.name).name == Ok(r.value.name)
    ensures r.Ok? ==> fresh(r.value) && Loaded(disk.metas, r.value)
    ensures r.Ok? && SelectorTags(select, stage) ==> Answers(r.value, SelectQuery(parent.name, stage))
  {
    ran := false;
    var hit := Find(disk, order, SelectQuery(parent.name, stage));
    if hit.Err? {
      return Err(hit.error), false;
    }
    var name: string;
    if hit.value.Some? {
      name := hit.value.value;
    } else {
      var o := select(disk.metas, disk.folders, parent.name);
      disk.metas, disk.folders := o.metas, o.folders;
      ran := true;
      if o.name.Err? {
        return Err(o.name.error), true;
      }
      name := o.name.value;
    }
    var loaded, files := Dataset.Open(disk, name, false);
    r := loaded;
  }

  // ----- splitting -----

  /** `splitter.run([first, second])` on the store as it stands, for the inputs' names. */
  type Splitter = (map<string, Value>, map<string, Folder>, string, string) -> Outcome

  /** The lookup of one part of the split of `first` and `second`. */
  function SplitQuery(first: string, second: string, s: Stage, part: int): Config {
    map["original" := Str(first + "|" + second), "splitter" := Str(s.name), "params" := Dict(s.params), "part" := Int(part)]
  }

  /** The splitter tags both of its parts so that the same lookups find them. */
  ghost predicate SplitterTags(split: Splitter, s: Stage) {
    forall metas, folders, first, second :: (split(metas, folders, first, second).names.Ok? &&
      |split(metas, folders, first, second).names.value| == 2) ==>
      (Hit(split(metas, folders, first, second).metas, SplitQuery(first, second, s, 0), split(metas, folders, first, second).names.value[0]) &&
       Hit(split(metas, folders, first, second).metas, SplitQuery(first, second, s, 1), split(metas, folders, first, second).names.value[1]))
  }

  /**
   * What `SplitterRun.Run` leaves in the store for a splitter whose two
   * parts are both made, read as a `Splitter` built from the stage's
   * `params`: construction succeeded, and part `i` carries its derived
   * metadata `entries(..., i)` tagged with the parents joined by "|", the
   * configuration as construction left it, the splitter's name and its
   * position.
   */
  ghost predicate SavesTagged(split: Splitter, k: Spl.Kind, params: Config,
                              entries: (map<string, Value>, map<string, Folder>, string, string, int) -> Config) {
    Spl.Construct(k, params).Ok? &&
    forall metas, folders, first, second, i :: 0 <= i < 2 && PairNamed(split(metas, folders, first, second)) ==>
      PartSaved(split(metas, folders, first, second), i,
                SplitterRun.Tagged(entries(metas, folders, first, second, i), Text.Join([first, second], '|'),
                                   Spl.Construct(k, params).value, Spl.Name(k), i))
  }

  predicate PairNamed(o: Outcome) {
    o.names.Ok? && |o.names.value| == 2
  }

  ghost predicate PartSaved(o: Outcome, i: int, meta: Config)
    requires PairNamed(o) && 0 <= i < 2
  {
    o.names.value[i] in o.metas && o.metas[o.names.value[i]] == Dict(meta)
  }

  /** The given `key` is answered by the kept configuration `v`, as `MatchLevel` asks of each key. */
  predicate KeyKept(v: Config, params: Config, key: string) {
    key in params ==> key in v && (if v[key].Dict? && params[key].Dict? then MatchLevel(v[key].entries, params[key].entries) else PyEq(v[key], params[key]))
  }

  /**
   * `intraid2to2` stores `bool(enroll_clear)`. Python's `==` between that
   * and the value given holds for booleans, 0 and 1; for any other value
   * the lookup by the given parameters misses (`EnrollClearMisses`).
   */
  predicate FlagKept(k: Spl.Kind, params: Config) {
    k == Spl.Intraid2to2 && "enroll_clear" in params ==> PyEq(Bool(Truthy(params["enroll_clear"])), params["enroll_clear"])
  }

  /**
   * The configuration a constructed splitter keeps answers a lookup by the
   * configuration it was given: every given key is kept, rates become floats
   * equal to the given numbers, and defaults only fill in absent flags.
   */
  lemma ConstructedMatches(k: Spl.Kind, params: Config)
    requires Spl.Construct(k, params).Ok? && FlagKept(k, params)
    ensures MatchLevel(Spl.Construct(k, params).value, params)
  {
    var v := Spl.Construct(k, params).value;
    Spl.ConstructMeaning(k, params);
    forall key | key in params
      ensures KeyKept(v, params, key)
    {
      if key in Spl.Normalised(k) {
        NormalisedKept(k, params, key);
      } else {
        MatchesItself(params[key]);
      }
    }
  }

  /** A key `validate_config` may rewrite still equals, under Python's `==`, the value given. */
  lemma NormalisedKept(k: Spl.Kind, params: Config, key: string)
    requires Spl.Construct(k, params).Ok? && FlagKept(k, params)
    requires key in params && key in Spl.Normalised(k)
    ensures KeyKept(Spl.Construct(k, params).value, params, key)
  {
    if key == "rate" {
      RateKept(k, params);
    } else if key == "enroll_clear" {
      EnrollClearKept(params);
    } else if key == "rates" {
      RatesKept(params);
    } else if key in {"enroll_anon", "test_anon", "parrot"} {
      DefaultKept(k, params, key);
      MatchesItself(params[key]);
    } else if k == Spl.Deanon {
      DeanonRatesKept(params);
    } else {
      TrainRateKept(params);
    }
  }

  /** `deanon_compare` keeps its `train_rate` as a float of the same value. */
  lemma TrainRateKept(params: Config)
    requires Spl.Construct(Spl.DeanonCompare, params).Ok? && "train_rate" in params
    ensures var v := Spl.Construct(Spl.DeanonCompare, params).value;
      "train_rate" in v && !v["train_rate"].Dict? && PyEq(v["train_rate"], params["train_rate"])
  {
    assert Spl.ValidateTrainRate(params).Ok?;
  }

  /** A single `rate` is kept as a float of the same value. */
  lemma RateKept(k: Spl.Kind, params: Config)
    requires Spl.Construct(k, params).Ok? && "rate" in params && "rate" in Spl.Normalised(k)
    ensures var v := Spl.Construct(k, params).value;
      "rate" in v && !v["rate"].Dict? && PyEq(v["rate"], params["rate"])
  {
    Spl.ConstructMeaning(k, params);
  }

  /** `bool(enroll_clear)` equals the given flag when `FlagKept` holds. */
  lemma EnrollClearKept(params: Config)
    requires Spl.Construct(Spl.Intraid2to2, params).Ok? && FlagKept(Spl.Intraid2to2, params) && "enroll_clear" in params
    ensures var v := Spl.Construct(Spl.Intraid2to2, params).value;
      "enroll_clear" in v && v["enroll_clear"] == Bool(Truthy(params["enroll_clear"]))
  {
    Spl.ConstructMeaning(Spl.Intraid2to2, params);
  }

  /** A flag given to `anon`, `id` or `deanon` is kept as given; its default only fills an absent one. */
  lemma DefaultKept(k: Spl.Kind, params: Config, key: string)
    requires Spl.Construct(k, params).Ok? && key in params && key in Spl.Normalised(k)
    requires key in {"enroll_anon", "test_anon", "parrot"}
    ensures var v := Spl.Construct(k, params).value; key in v && v[key] == params[key]
  {
    Spl.ConstructMeaning(k, params);
  }

  /** `interid1to3` keeps its two rates as floats of the same value. */
  lemma RatesKept(params: Config)
    requires Spl.Construct(Spl.Interid1to3, params).Ok?
    ensures var v := Spl.Construct(Spl.Interid1to3, params).value;
      "rates" in params && "rates" in v && PyEq(v["rates"], params["rates"])
  {
    var items := params["rates"].items;
    assert Spl.ValidateRates(params).Ok?;
    var v := Spl.Construct(Spl.Interid1to3, params).value;
    assert v["rates"] == List([Real(NumOf(items[0])), Real(NumOf(items[1]))]);
  }

  /** `deanon` keeps its two rates as floats of the same value. */
  lemma DeanonRatesKept(params: Config)
    requires Spl.Construct(Spl.Deanon, params).Ok?
    ensures var v := Spl.Construct(Spl.Deanon, params).value;
      ("enroll_rate" in params ==> "enroll_rate" in v && PyEq(v["enroll_rate"], params["enroll_rate"])) &&
      ("train_rate" in params ==> "train_rate" in v && PyEq(v["train_rate"], params["train_rate"]))
  {
    Spl.DeanonRates(params);
    Spl.DeanonConstructed(params);
  }

  /** Without `FlagKept`, the lookup misses: `enroll_clear: 2` is stored as `True`, and `True != 2`. */
  lemma EnrollClearMisses()
    ensures var params := map["rate" := Real(0.5), "seed" := Int(1), "enroll_clear" := Int(2)];
      Spl.Construct(Spl.Intraid2to2, params).Ok? && !FlagKept(Spl.Intraid2to2, params) &&
      !MatchLevel(Spl.Construct(Spl.Intraid2to2, params).value, params)
  {
    var params := map["rate" := Real(0.5), "seed" := Int(1), "enroll_clear" := Int(2)];
    var v := Spl.Construct(Spl.Intraid2to2, params).value;
    assert v["enroll_clear"] == Bool(true);
    assert !PyEq(v["enroll_clear"], params["enroll_clear"]);
  }

  /**
   * A splitter that saves the lineage `SplitterRun.Run` records, with the
   * configuration its construction keeps, is found again by both of the
   * stage's lookups.
   */
  lemma SplitterRunTags(split: Splitter, stage: Stage, k: Spl.Kind,
                        entries: (map<string, Value>, map<string, Folder>, string, string, int) -> Config)
    requires stage.name == Spl.Name(k) && FlagKept(k, stage.params)
    requires SavesTagged(split, k, stage.params, entries)
    ensures SplitterTags(split, stage)
  {
    var v := Spl.Construct(k, stage.params).value;
    ConstructedMatches(k, stage.params);
    forall metas, folders, first, second | PairNamed(split(metas, folders, first, second))
      ensures Hit(split(metas, folders, first, second).metas, SplitQuery(first, second, stage, 0), split(metas, folders, first, second).names.value[0])
      ensures Hit(split(metas, folders, first, second).metas, SplitQuery(first, second, stage, 1), split(metas, folders, first, second).names.value[1])
    {
      JoinPair(first, second);
      TaggedMatches(entries(metas, folders, first, second, 0), first, second, stage, v, 0);
      TaggedMatches(entries(metas, folders, first, second, 1), first, second, stage, v, 1);
    }
  }

  /** Two parents joined by "|". */
  lemma JoinPair(first: string, second: string)
    ensures Text.Join([first, second], '|') == first + "|" + second
  {
    assert [first, second][1..] == [second];
  }

  /** The lineage of part `i`, tagged with a configuration that matches the stage's, answers the lookup of part `i`. */
  lemma TaggedMatches(e: Config, first: string, second: string, stage: Stage, saved: Config, i: int)
    requires MatchLevel(saved, stage.params)
    ensures MatchLevel(SplitterRun.Tagged(e, first + "|" + second, saved, stage.name, i), SplitQuery(first, second, stage, i))
  {
    var q := SplitQuery(first, second, stage, i);
    PyEqReflexive(Str(first + "|" + second));
    PyEqReflexive(Str(stage.name));
    PyEqReflexive(Int(i));
    assert q.Keys == {"original", "splitter", "params", "part"};
  }

  /**
   * `get_splitting()`: the enroll (part 0) and test (part 1) datasets of
   * the split of `first` and `second`, reused when both are cached and
   * split afresh otherwise.
   */
  method Splitting(disk: Disk, order: Order, stage: Stage, first: Dataset, second: Dataset, split: Splitter)
    returns (r: Result<(Dataset, Dataset)>, ran: bool)
    requires Enumerates(order)
    modifies disk
    ensures !ran ==> unchanged(disk)
    ensures ran ==> (Miss(old(disk.metas), SplitQuery(first.name, second.name, stage, 0)) ||
                     Miss(old(disk.metas), SplitQuery(first.name, second.name, stage, 1)))
    ensures ran ==> disk.metas == split(old(disk.metas), old(disk.folders), first.name, second.name).metas &&
                    disk.folders == split(old(disk.metas), old(disk.folders), first.name, second.name).folders
    ensures r.Ok? ==> Loaded(disk.metas, r.value.0) && Loaded(disk.metas, r.value.1)
    ensures r.Ok? && (ran ==> SplitterTags(split, stage)) ==>
      Answers(r.value.0, SplitQuery(first.name, second.name, stage, 0)) &&
      Answers(r.value.1, SplitQuery(first.name, second.name, stage, 1))
  {
    var a, b := first.name, second.name;
    var run: Runner := (metas, folders) => split(metas, folders, a, b);
    r, ran := CachedPair(disk, order, SplitQuery(a, b, stage, 0), SplitQuery(a, b, stage, 1), run);
  }

  // ----- evaluation and metrics -----

  /** The modules an experiment loads and the stages it runs, as parameters. */
  datatype Plugins = Plugins(
    anonymizers: AnonRegistry,
    evaluators: map<(string, string), InferenceClass>,
    bgSplit: Runner,
    select: Selector,
    split: Splitter,
    /** What each metric module reports for the results of an evaluation. */
    metrics: seq<Results.Record> -> map<string, Result<seq<(string, Value)>>>)

  /** `run_metrics` reads `self.metrics`, which only an evaluation assigns. */
  const NoMetrics: Error := AttributeError("object has no attribute 'metrics'")

  /** `results.yaml` holds the record of one evaluation of these roles under the original configuration. */
  ghost predicate Recorded(all: Config, saved: Config, origConfig: Config, roles: Roles) {
    exists id, rs :: saved == SaveMetrics(all, id, rs, origConfig, roles)
  }

  /**
   * `run_evaluation(); run_metrics(); save_metrics()`: `results.yaml`
   * (as loaded) with the merged metrics of the evaluation recorded under
   * the new result set's id.
   */
  method Conclude(disk: Disk, config: Config, roles: Roles, traitName: string, p: Plugins,
                  save: bool, stamp: string, codec: RS.Codec, all: Config)
    returns (r: Result<Config>)
    ensures EvaluationOf(config) == NoEvaluation ==> r == Err(NoMetrics)
    ensures r.Ok? ==> EvaluationOf(config) != NoEvaluation && Recorded(all, r.value, config, roles)
  {
    var e := EvaluationOf(config);
    if e == NoEvaluation {
      return Err(NoMetrics);
    }
    var rs, metrics := RunEvaluation(disk, e, config, roles, traitName, p.evaluators, config, save, stamp, codec);
    if rs.Err? {
      return Err(rs.error);
    }
    var merged := RunMetrics(metrics, p.metrics(RS.Records(rs.value.results)));
    if merged.Err? {
      return Err(merged.error);
    }
    r := Ok(SaveMetrics(all, rs.value.id, merged.value, config, roles));
  }

  /** No stage run creates a dataset under the name reserved for the anonymization's copy. */
  ghost predicate Spares(p: Plugins, uuid: string) {
    (forall metas, folders :: uuid !in metas && uuid !in folders ==>
      uuid !in p.bgSplit(metas, folders).metas && uuid !in p.bgSplit(metas, folders).folders) &&
    (forall metas, folders, parent :: uuid !in metas && uuid !in folders ==>
      uuid !in p.select(metas, folders, parent).metas && uuid !in p.select(metas, folders, parent).folders)
  }

  // ----- the stages as role assignments -----

  /**
   * `self.sets[role] = self.get_selected_set()`: the selection of `parent`
   * configured under "selector".
   */
  method PlaceSelection(disk: Disk, order: Order, config: Config, roles: Roles, role: string, parent: Dataset, select: Selector)
    returns (r: Result<Roles>)
    requires Enumerates(order) && Keyed(roles)
    modifies disk
    ensures "selector" !in config ==> r == Err(KeyError("selector")) && unchanged(disk)
    ensures unchanged(disk) || Selected(old(disk.metas), old(disk.folders), select, parent.name, disk.metas, disk.folders)
    ensures r.Ok? ==> (Keyed(r.value) && StageOf(config, "selector").Ok? && Lookup(r.value, role).Some? &&
      forall other :: other != role ==> Lookup(r.value, other) == Lookup(roles, other))
    ensures r.Ok? && SelectorTags(select, StageOf(config, "selector").value) ==>
      Answers(Lookup(r.value, role).value, SelectQuery(parent.name, StageOf(config, "selector").value))
  {
    var stage :- StageOf(config, "selector");
    var selected, ran := SelectedSet(disk, order, stage, parent, select);
    if selected.Err? {
      return Err(selected.error);
    }
    r := Ok(PlaceRole(roles, role, selected.value));
  }

  /** Both parts of the split answer the lookups that found or made them. */
  ghost predicate AnswersSplit(enroll: Dataset, test: Dataset, first: string, second: string, s: Stage)
    reads enroll, test
  {
    Answers(enroll, SplitQuery(first, second, s, 0)) && Answers(test, SplitQuery(first, second, s, 1))
  }

  /**
   * `get_splitting()`: the roles `enroll` and `test` from the split of
   * `first` and `second` configured under "splitter".
   */
  method PlaceSplitting(disk: Disk, order: Order, config: Config, roles: Roles, first: Dataset, second: Dataset, split: Splitter)
    returns (r: Result<Roles>)
    requires Enumerates(order) && Keyed(roles)
    modifies disk
    ensures "splitter" !in config ==> r == Err(KeyError("splitter")) && unchanged(disk)
    ensures r.Ok? ==> (Keyed(r.value) && StageOf(config, "splitter").Ok? &&
      Lookup(r.value, "enroll").Some? && Lookup(r.value, "test").Some? &&
      forall role :: role != "enroll" && role != "test" ==> Lookup(r.value, role) == Lookup(roles, role))
    ensures r.Ok? && SplitterTags(split, StageOf(config, "splitter").value) ==>
      AnswersSplit(Lookup(r.value, "enroll").value, Lookup(r.value, "test").value, first.name, second.name,
                   StageOf(config, "splitter").value)
  {
    var stage :- StageOf(config, "splitter");
    var parts, ran := Splitting(disk, order, stage, first, second, split);
    if parts.Err? {
      return Err(parts.error);
    }
    r := Ok(PlaceParts(roles, parts.value.0, parts.value.1));
  }

  /** Placing the anonymized datasets keeps the roles `orig` and `full`. */
  lemma AnonKeeps(roles: Roles, placed: Roles)
    requires forall role :: role != "anon" && role != "eval" && role != "anonbg" ==> Lookup(placed, role) == Lookup(roles, role)
    ensures Lookup(placed, "orig") == Lookup(roles, "orig") && Lookup(placed, "full") == Lookup(roles, "full")
  {
    assert "orig"[0] != "anon"[0] && "orig"[0] != "eval"[0] && "full"[0] != "anon"[0] && "full"[0] != "eval"[0];
  }

  /** Placing the split parts keeps the roles that name whole datasets. */
  lemma SplitKeeps(roles: Roles, placed: Roles)
    requires forall role :: role != "enroll" && role != "test" ==> Lookup(placed, role) == Lookup(roles, role)
    ensures Lookup(placed, "orig") == Lookup(roles, "orig") && Lookup(placed, "anon") == Lookup(roles, "anon")
    ensures Lookup(placed, "eval") == Lookup(roles, "eval") && Lookup(placed, "full") == Lookup(roles, "full")
  {
    assert "eval"[1] != "enroll"[1] && "eval"[0] != "test"[0];
  }

  /** Load the configured dataset and read its trait. */
  method Start(disk: Disk, config: Config) returns (r: Result<(Dataset, string)>)
    ensures "dataset" !in config ==> r == Err(KeyError("dataset"))
    ensures r.Ok? ==> (fresh(r.value.0) && config["dataset"] == Str(r.value.0.name) && Loaded(disk.metas, r.value.0) &&
                       TraitOf(r.value.0.meta) == Ok(r.value.1))
  {
    var ds :- OpenNamed(disk, config, "dataset");
    var traitName :- TraitOf(ds.meta);
    r := Ok((ds, traitName));
  }

  /**
   * `get_anonymization()`, as the rest of a run relies on it: the role
   * `anon` is filled and the roles `full` and `orig` are kept.
   */
  method Anonymized(disk: Disk, order: Order, config: Config, roles: Roles, p: Plugins,
                    traitName: string, uuid: string, randomId: nat)
    returns (r: Result<Roles>)
    requires Enumerates(order) && Keyed(roles) && Spares(p, uuid)
    requires uuid !in disk.folders && uuid !in disk.metas
    modifies disk
    ensures r.Ok? ==> (Keyed(r.value) && Lookup(r.value, "anon").Some? &&
      Lookup(r.value, "orig") == Lookup(roles, "orig") && Lookup(r.value, "full") == Lookup(roles, "full"))
  {
    SparesSplit(p, uuid, disk.metas, disk.folders);
    r := GetAnonymization(disk, order, config, roles, p.bgSplit, traitName, p.anonymizers, uuid, randomId);
    if r.Ok? {
      AnonKeeps(roles, r.value);
    }
  }

  /** The background split of a plugin set that spares `uuid` leaves it unused. */
  lemma SparesSplit(p: Plugins, uuid: string, metas: map<string, Value>, folders: map<string, Folder>)
    requires Spares(p, uuid) && uuid !in metas && uuid !in folders
    ensures uuid !in p.bgSplit(metas, folders).metas && uuid !in p.bgSplit(metas, folders).folders
  {
  }

  // ----- AnonExperiment -----

  /**
   * `AnonExperiment.run`: load the configured dataset (`orig`), anonymize
   * it (`anon`), select from the anonymized set (`eval`), split `orig`
   * against the selection (`enroll`, `test`), evaluate, merge the metrics
   * and record them.
   */
  method RunAnon(disk: Disk, order: Order, config: Config, p: Plugins, uuid: string, randomId: nat,
                 save: bool, stamp: string, codec: RS.Codec, all: Config)
    returns (r: Result<Config>, roles: Roles)
    requires Enumerates(order) && Spares(p, uuid)
    requires uuid !in disk.folders && uuid !in disk.metas
    modifies disk
    ensures "dataset" !in config ==> r == Err(KeyError("dataset")) && unchanged(disk)
    ensures r.Ok? ==> (Keyed(roles) && Recorded(all, r.value, config, roles) &&
      Lookup(roles, "orig").Some? && Lookup(roles, "anon").Some? && Lookup(roles, "eval").Some? &&
      Lookup(roles, "enroll").Some? && Lookup(roles, "test").Some? &&
      config["dataset"] == Str(Lookup(roles, "orig").value.name) &&
      StageOf(config, "selector").Ok? && StageOf(config, "splitter").Ok?)
    ensures r.Ok? && SelectorTags(p.select, StageOf(config, "selector").value) ==>
      Answers(Lookup(roles, "eval").value, SelectQuery(Lookup(roles, "anon").value.name, StageOf(config, "selector").value))
    ensures r.Ok? && SplitterTags(p.split, StageOf(config, "splitter").value) ==>
      AnswersSplit(Lookup(roles, "enroll").value, Lookup(roles, "test").value,
                   Lookup(roles, "orig").value.name, Lookup(roles, "eval").value.name, StageOf(config, "splitter").value)
  {
    roles := [];
    var started := Start(disk, config);
    if started.Err? {
      return Err(started.error), roles;
    }
    var (orig, traitName) := started.value;
    roles := PlaceRole([], "orig", orig);
    var anonymized := Anonymized(disk, order, config, roles, p, traitName, uuid, randomId);
    if anonymized.Err? {
      return Err(anonymized.error), roles;
    }
    roles := anonymized.value;
    r, roles := AnonDownstream(disk, order, config, roles, orig, Lookup(roles, "anon").value, traitName, p,
                               save, stamp, codec, all);
  }

  /** The stages of `AnonExperiment.run` after the anonymization. */
  method AnonDownstream(disk: Disk, order: Order, config: Config, roles: Roles, orig: Dataset, anon: Dataset,
                        traitName: string, p: Plugins, save: bool, stamp: string, codec: RS.Codec, all: Config)
    returns (r: Result<Config>, placed: Roles)
    requires Enumerates(order) && Keyed(roles)
    requires Lookup(roles, "orig") == Some(orig) && Lookup(roles, "anon") == Some(anon)
    modifies disk
    ensures Keyed(placed) && Lookup(placed, "orig") == Some(orig) && Lookup(placed, "anon") == Some(anon)
    ensures r.Ok? ==> (Lookup(placed, "eval").Some? && Lookup(placed, "enroll").Some? && Lookup(placed, "test").Some? &&
      Recorded(all, r.value, config, placed) && StageOf(config, "selector").Ok? && StageOf(config, "splitter").Ok?)
    ensures r.Ok? && SelectorTags(p.select, StageOf(config, "selector").value) ==>
      Answers(Lookup(placed, "eval").value, SelectQuery(anon.name, StageOf(config, "selector").value))
    ensures r.Ok? && SplitterTags(p.split, StageOf(config, "splitter").value) ==>
      AnswersSplit(Lookup(placed, "enroll").value, Lookup(placed, "test").value,
                   orig.name, Lookup(placed, "eval").value.name, StageOf(config, "splitter").value)
  {
    placed := roles;
    var selected := PlaceSelection(disk, order, config, roles, "eval", anon, p.select);
    if selected.Err? {
      return Err(selected.error), placed;
    }
    placed := selected.value;
    var eval := Lookup(placed, "eval").value;
    ghost var chosen := SelectorTags(p.select, StageOf(config, "selector").value) ==>
      Answers(eval, SelectQuery(anon.name, StageOf(config, "selector").value));
    assert chosen;
    assert Lookup(placed, "orig") == Some(orig) && Lookup(placed, "anon") == Some(anon);
    var split := PlaceSplitting(disk, order, config, placed, orig, eval, p.split);
    if split.Err? {
      return Err(split.error), placed;
    }
    assert chosen;
    SplitKeeps(placed, split.value);
    assert Lookup(split.value, "orig") == Some(orig) && Lookup(split.value, "anon") == Some(anon) &&
           Lookup(split.value, "eval") == Some(eval);
    ghost var enroll, test := Lookup(split.value, "enroll").value, Lookup(split.value, "test").value;
    ghost var parted := SplitterTags(p.split, StageOf(config, "splitter").value) ==>
      AnswersSplit(enroll, test, orig.name, eval.name, StageOf(config, "splitter").value);
    assert parted;
    placed := split.value;
    r := Conclude(disk, config, placed, traitName, p, save, stamp, codec, all);
    assert chosen && parted;
  }

  // ----- Anon_clearselectExperiment -----

  /** `self.sets["eval"] if "eval" in self.sets else self.sets["orig"]` */
  function SplitSource(roles: Roles): (ds: Option<Dataset>)
    ensures Lookup(roles, "eval").Some? ==> ds == Lookup(roles, "eval")
    ensures Lookup(roles, "eval").None? ==> ds == Lookup(roles, "orig")
  {
    if Lookup(roles, "eval").Some? then Lookup(roles, "eval") else Lookup(roles, "orig")
  }

  /**
   * `Anon_clearselectExperiment.run`: load the configured dataset
   * (`full`), select from it (`orig`), anonymize the selection (`anon`),
   * split the evaluation set (`orig` when there is none) against the
   * anonymized set (`enroll`, `test`), evaluate, merge the metrics and
   * record them.
   */
  method RunClearselect(disk: Disk, order: Order, config: Config, p: Plugins, uuid: string, randomId: nat,
                        save: bool, stamp: string, codec: RS.Codec, all: Config)
    returns (r: Result<Config>, roles: Roles)
    requires Enumerates(order) && Spares(p, uuid)
    requires uuid !in disk.folders && uuid !in disk.metas
    modifies disk
    ensures "dataset" !in config ==> r == Err(KeyError("dataset")) && unchanged(disk)
    ensures r.Ok? ==> (Keyed(roles) && Recorded(all, r.value, config, roles) &&
      Lookup(roles, "full").Some? && Lookup(roles, "orig").Some? && Lookup(roles, "anon").Some? &&
      Lookup(roles, "enroll").Some? && Lookup(roles, "test").Some? &&
      config["dataset"] == Str(Lookup(roles, "full").value.name) &&
      StageOf(config, "selector").Ok? && StageOf(config, "splitter").Ok? &&
      SplitSource(roles).Some?)
    ensures r.Ok? && SelectorTags(p.select, StageOf(config, "selector").value) ==>
      Answers(Lookup(roles, "orig").value, SelectQuery(Lookup(roles, "full").value.name, StageOf(config, "selector").value))
    ensures r.Ok? && SplitterTags(p.split, StageOf(config, "splitter").value) ==>
      AnswersSplit(Lookup(roles, "enroll").value, Lookup(roles, "test").value,
                   SplitSource(roles).value.name, Lookup(roles, "anon").value.name, StageOf(config, "splitter").value)
  {
    roles := [];
    var started := Start(disk, config);
    if started.Err? {
      return Err(started.error), roles;
    }
    var (full, traitName) := started.value;
    var selected := ClearselectUpstream(disk, order, config, full, p, uuid);
    if selected.Err? {
      return Err(selected.error), PlaceRole([], "full", full);
    }
    roles := selected.value;
    var orig := Lookup(roles, "orig").value;
    ghost var chosen := SelectorTags(p.select, StageOf(config, "selector").value) ==>
      Answers(orig, SelectQuery(full.name, StageOf(config, "selector").value));
    assert chosen;
    var anonymized := Anonymized(disk, order, config, roles, p, traitName, uuid, randomId);
    if anonymized.Err? {
      return Err(anonymized.error), roles;
    }
    assert chosen;
    r, roles := ClearselectDownstream(disk, order, config, anonymized.value, full, traitName, p, save, stamp, codec, all);
    assert chosen;
  }

  /** The selection stage of `Anon_clearselectExperiment.run`: `orig` is selected from `full`. */
  method ClearselectUpstream(disk: Disk, order: Order, config: Config, full: Dataset, p: Plugins, uuid: string)
    returns (r: Result<Roles>)
    requires Enumerates(order) && Spares(p, uuid)
    requires uuid !in disk.folders && uuid !in disk.metas
    modifies disk
    ensures uuid !in disk.folders && uuid !in disk.metas
    ensures r.Ok? ==> (Keyed(r.value) && Lookup(r.value, "full") == Some(full) && Lookup(r.value, "orig").Some? &&
      StageOf(config, "selector").Ok?)
    ensures r.Ok? && SelectorTags(p.select, StageOf(config, "selector").value) ==>
      Answers(Lookup(r.value, "orig").value, SelectQuery(full.name, StageOf(config, "selector").value))
  {
    var roles := PlaceRole([], "full", full);
    r := PlaceSelection(disk, order, config, roles, "orig", full, p.select);
  }

  /** The stages of `Anon_clearselectExperiment.run` after the anonymization. */
  method ClearselectDownstream(disk: Disk, order: Order, config: Config, roles: Roles, full: Dataset, traitName: string,
                               p: Plugins, save: bool, stamp: string, codec: RS.Codec, all: Config)
    returns (r: Result<Config>, placed: Roles)
    requires Enumerates(order) && Keyed(roles)
    requires Lookup(roles, "full") == Some(full) && Lookup(roles, "anon").Some?
    modifies disk
    ensures Keyed(placed) && SplitSource(placed) == SplitSource(roles)
    ensures Lookup(placed, "full") == Lookup(roles, "full") && Lookup(placed, "orig") == Lookup(roles, "orig") &&
            Lookup(placed, "anon") == Lookup(roles, "anon")
    ensures r.Ok? ==> (Lookup(placed, "enroll").Some? && Lookup(placed, "test").Some? && SplitSource(roles).Some? &&
      Recorded(all, r.value, config, placed) && StageOf(config, "splitter").Ok?)
    ensures r.Ok? && SplitterTags(p.split, StageOf(config, "splitter").value) ==>
      AnswersSplit(Lookup(placed, "enroll").value, Lookup(placed, "test").value,
                   SplitSource(roles).value.name, Lookup(roles, "anon").value.name, StageOf(config, "splitter").value)
  {
    placed := roles;
    var source := SplitSource(roles);
    if source.None? {
      return Err(KeyError("orig")), placed;
    }
    var anon := Lookup(roles, "anon").value;
    var split := PlaceSplitting(disk, order, config, roles, source.value, anon, p.split);
    if split.Err? {
      return Err(split.error), placed;
    }
    SplitKeeps(roles, split.value);
    ghost var enroll, test := Lookup(split.value, "enroll").value, Lookup(split.value, "test").value;
    ghost var parted := SplitterTags(p.split, StageOf(config, "splitter").value) ==>
      AnswersSplit(enroll, test, source.value.name, anon.name, StageOf(config, "splitter").value);
    assert parted;
    placed := split.value;
    r := Conclude(disk, config, placed, traitName, p, save, stamp, codec, all);
    assert parted;
  }
}

/**
 * `TorchDeanonymization`: de-anonymizes faces with a neural network that
 * is trained on pairs of anonymized and clear images. What is modelled
 * is the bookkeeping around the training, not the training itself:
 * the configuration defaults, the registry of trained models that a
 * dataset's metadata keeps under `models`, and the rule that decides
 * after each epoch whether the model is a new best and whether training
 * stops early. The validation cost of each epoch is a parameter.
 */
module FaceTorch {
  import opened Wrappers
  import opened Values
  import opened Lifecycle

  /** The name the models are registered under. */
  const Name: string := "torch"

  // ----- configuration -----

  const NoEpochs: Error := AttributeError("Torch Deanonymization requires number of epochs")
  const NoTrainRate: Error := AttributeError("Torch Deanonymization requires train rate")
  const NoLearningRate: Error := AttributeError("Torch Deanonymization requires learning rate")
  const NoLoss: Error := AttributeError("Torch Deanonymization requires loss function")

  /** The `opt` put in place when the given one says nothing about caching images. */
  const NoCache: Value := Dict(map["memcache_imgs" := Bool(false)])

  /** The keys that fall back to a default, and those defaults. */
  const Defaults: map<string, Value> := map[
    "train_batch_size" := Int(64),
    "validation_batch_size" := Int(64),
    "weight_decay" := Real(0.0),
    "early_stop" := Int(20),
    "reduce_lr" := Bool(true)]

  /** The configuration with every default filled in where the key is missing. */
  function WithDefaults(config: Config): (c: Config)
    ensures forall k :: k in config ==> k in c && c[k] == config[k]
  {
    map k | k in config.Keys + Defaults.Keys :: if k in config then config[k] else Defaults[k]
  }

  /** A missing key gets its default. */
  lemma DefaultsFilled(config: Config, k: string)
    requires k in Defaults && k !in config
    ensures WithDefaults(config)[k] == Defaults[k]
  {
  }

  /** The four keys the configuration must hold. */
  predicate Complete(config: Config) {
    "epochs" in config && "train_rate" in config && "learning_rate" in config && "loss" in config
  }

  /**
   * `validate_config`: the number of epochs, the train rate, the learning
   * rate and the loss are required, checked in that order; the batch
   * sizes, weight decay, early-stop patience and learning-rate reduction
   * fall back to their defaults; and an `opt` that is missing or has no
   * `memcache_imgs` is replaced as a whole by one that turns caching off.
   */
  function Validate(config: Config): (r: Result<Config>)
    ensures "epochs" !in config ==> r == Err(NoEpochs)
    ensures "epochs" in config && "train_rate" !in config ==> r == Err(NoTrainRate)
    ensures "epochs" in config && "train_rate" in config && "learning_rate" !in config ==> r == Err(NoLearningRate)
    ensures "epochs" in config && "train_rate" in config && "learning_rate" in config && "loss" !in config ==> r == Err(NoLoss)
    ensures r.Ok? <==> Complete(config) && ("opt" in config ==> In("memcache_imgs", config["opt"]).Ok?)
    ensures Complete(config) && "opt" in config && In("memcache_imgs", config["opt"]).Err? ==>
      r == Err(In("memcache_imgs", config["opt"]).error)
    ensures r.Ok? ==> r.value == WithDefaults(config)["opt" := Opt(config)]
  {
    if "epochs" !in config then Err(NoEpochs)
    else if "train_rate" !in config then Err(NoTrainRate)
    else if "learning_rate" !in config then Err(NoLearningRate)
    else if "loss" !in config then Err(NoLoss)
    else
      var c := WithDefaults(config);
      var cached :- if "opt" in c then In("memcache_imgs", c["opt"]) else Ok(false);
      Ok(if cached then c else c["opt" := NoCache])
  }

  /** The `opt` a validated configuration holds: the given one when it says whether to cache images, else caching off. */
  function Opt(config: Config): Value {
    if "opt" in config && In("memcache_imgs", config["opt"]) == Ok(true) then config["opt"] else NoCache
  }

  /** A validated configuration passes validation again unchanged. */
  lemma ValidateIdempotent(config: Config)
    requires Validate(config).Ok?
    ensures Validate(Validate(config).value) == Validate(config)
  {
    var c := Validate(config).value;
    assert In("memcache_imgs", c["opt"]) == Ok(true);
    assert WithDefaults(c) == c;
  }

  const FaceTorchHooks: Hooks := Hooks(Validate, c => None)

  /** The loss functions `load_loss_function` knows. */
  datatype Loss = MSE | MAE | SSIM | MSSSIM

  /** `load_loss_function`: the loss the configuration names, a ValueError for any other name. */
  function LossOf(loss: Value): (r: Result<Loss>)
    ensures r.Ok? <==> loss in {Str("mse"), Str("mae"), Str("ssim"), Str("msssim")}
    ensures r.Ok? ==> LossName(r.value) == loss.s
    ensures loss.Str? && r.Err? ==> r.error == ValueError("unknown loss function " + loss.s)
    ensures !loss.Str? ==> r.Err? && r.error.TypeError?
  {
    if loss == Str("mse") then Ok(MSE)
    else if loss == Str("mae") then Ok(MAE)
    else if loss == Str("ssim") then Ok(SSIM)
    else if loss == Str("msssim") then Ok(MSSSIM)
    else if loss.Str? then Err(ValueError("unknown loss function " + loss.s))
    else Err(TypeError("can only concatenate str to str"))
  }

  /** The name a loss is configured by. */
  function LossName(l: Loss): string {
    match l
    case MSE => "mse"
    case MAE => "mae"
    case SSIM => "ssim"
    case MSSSIM => "msssim"
  }

  /** Every loss is found again under its own name. */
  lemma LossRoundTrip(l: Loss)
    ensures LossOf(Str(LossName(l))) == Ok(l)
  {
  }

  // ----- the model registry -----

  /** One entry of a dataset's `models` list: which model, how it was configured, and its file. */
  datatype Saved = Saved(name: string, suffix: string, config: Config, path: string)

  /** An entry for this name and suffix whose configuration compares equal to the given one. */
  predicate SameKey(e: Saved, name: string, suffix: string, config: Config) {
    e.name == name && e.suffix == suffix && PyEq(Dict(e.config), Dict(config))
  }

  /** The position of the first entry with that key; the length of the list when there is none. */
  function FirstSame(models: seq<Saved>, name: string, suffix: string, config: Config): (k: nat)
    ensures k <= |models|
    ensures k < |models| ==> SameKey(models[k], name, suffix, config)
    ensures forall j :: 0 <= j < k ==> !SameKey(models[j], name, suffix, config)
  {
    if |models| == 0 then 0
    else if SameKey(models[0], name, suffix, config) then 0
    else 1 + FirstSame(models[1..], name, suffix, config)
  }

  /** The list without its k-th entry (unchanged when there is none). */
  function Without(models: seq<Saved>, k: nat): (r: seq<Saved>)
    ensures k < |models| ==> |r| == |models| - 1
    ensures k >= |models| ==> r == models
    ensures forall j :: 0 <= j < |r| ==> r[j] == models[if j < k then j else j + 1]
  {
    if k < |models| then models[..k] + models[k + 1..] else models
  }

  /** No two entries share this key. */
  predicate AtMostOne(models: seq<Saved>, name: string, suffix: string, config: Config) {
    forall i, j :: 0 <= i < j < |models| ==> !(SameKey(models[i], name, suffix, config) && SameKey(models[j], name, suffix, config))
  }

  /** An entry `load_model` would take: this name, suffix "none", an equal configuration, and a file that exists. */
  predicate Loadable(e: Saved, name: string, config: Config, files: set<string>) {
    SameKey(e, name, "none", config) && e.path in files
  }

  /** The first entry `load_model` would take, if any. */
  function FirstLoadable(models: seq<Saved>, name: string, config: Config, files: set<string>): (r: Option<nat>)
    ensures r.Some? ==> r.value < |models| && Loadable(models[r.value], name, config, files)
    ensures forall j :: 0 <= j < |models| && (r.None? || j < r.value) ==> !Loadable(models[j], name, config, files)
  {
    if |models| == 0 then None
    else if Loadable(models[0], name, config, files) then Some(0)
    else match FirstLoadable(models[1..], name, config, files)
      case None => None
      case Some(k) => Some(k + 1)
  }

  /**
   * The `models` list of a dataset's metadata together with the model
   * files on disk. A metadata without `models` is the empty list here:
   * both operations put one in place before they read it.
   */
  class Registry {
    var models: seq<Saved>
    var files: set<string>

    constructor (models: seq<Saved>, files: set<string>)
      ensures this.models == models && this.files == files
    {
      this.models := models;
      this.files := files;
    }

    /**
     * `load_model`: the file of the first entry for this name with suffix
     * "none", an equal configuration and a file that exists; entries
     * whose file is gone are passed over.
     */
    method Load(name: string, config: Config) returns (r: Option<string>)
      ensures r.Some? <==> FirstLoadable(models, name, config, files).Some?
      ensures r.Some? ==> r.value == models[FirstLoadable(models, name, config, files).value].path
    {
      var i := 0;
      while i < |models|
        invariant 0 <= i <= |models|
        invariant forall j :: 0 <= j < i ==> !Loadable(models[j], name, config, files)
      {
        if models[i].name == name && models[i].suffix == "none" && PyEq(Dict(models[i].config), Dict(config)) && models[i].path in files {
          return Some(models[i].path);
        }
        i := i + 1;
      }
      return None;
    }

    /**
     * `save_model`: the model is written to `path`; the first entry with
     * the same name, suffix and configuration loses its file and its
     * place in the list; an entry for the new file is appended. Removing
     * a file that is already gone raises FileNotFoundError, and then the
     * list is left as it was.
     */
    method Save(name: string, suffix: string, config: Config, path: string) returns (err: Option<Error>)
      modifies this
      ensures var k := FirstSame(old(models), name, suffix, config);
        var gone := k < |old(models)| && old(models)[k].path !in old(files) + {path};
        && (err.Some? <==> gone)
        && (gone ==> err == Some(FileNotFoundError(old(models)[k].path)) && models == old(models) && files == old(files) + {path})
        && (!gone ==> (models == Without(old(models), k) + [Saved(name, suffix, config, path)] &&
          files == if k < |old(models)| then old(files) + {path} - {old(models)[k].path} else old(files) + {path}))
    {
      files := files + {path};
      var i := 0;
      while i < |models|
        invariant 0 <= i <= |models| && models == old(models) && files == old(files) + {path}
        invariant forall j :: 0 <= j < i ==> !SameKey(models[j], name, suffix, config)
      {
        if models[i].name == name && models[i].suffix == suffix && PyEq(Dict(models[i].config), Dict(config)) {
          if models[i].path !in files {
            return Some(FileNotFoundError(models[i].path));
          }
          files := files - {models[i].path};
          models := models[..i] + models[i + 1..];
          break;
        }
        i := i + 1;
      }
      models := models + [Saved(name, suffix, config, path)];
      return None;
    }
  }

  /** The list `save_model` leaves when no file is missing. */
  function AfterSave(models: seq<Saved>, name: string, suffix: string, config: Config, path: string): seq<Saved> {
    Without(models, FirstSame(models, name, suffix, config)) + [Saved(name, suffix, config, path)]
  }

  /**
   * Saving keeps "at most one entry per key": when the list held at most
   * one entry for the key, afterwards it holds exactly one, the new last
   * entry; the entries for every other key keep their order.
   */
  lemma SaveKeepsOne(models: seq<Saved>, name: string, suffix: string, config: Config, path: string)
    requires AtMostOne(models, name, suffix, config)
    ensures var after := AfterSave(models, name, suffix, config, path);
      && AtMostOne(after, name, suffix, config)
      && SameKey(after[|after| - 1], name, suffix, config)
      && forall j :: 0 <= j < |after| - 1 ==> !SameKey(after[j], name, suffix, config)
  {
    var after := AfterSave(models, name, suffix, config, path);
    var k := FirstSame(models, name, suffix, config);
    PyEqReflexive(Dict(config));
    forall j | 0 <= j < |after| - 1
      ensures !SameKey(after[j], name, suffix, config)
    {
      if j >= k {
        assert after[j] == models[j + 1];
      }
    }
  }

  /**
   * What `train` relies on when it reloads the best model: after a save
   * under suffix "none", the model `load_model` finds is the one just
   * saved (as long as the list held at most one entry for the key and
   * the file removed is not the new one).
   */
  lemma LoadAfterSave(models: seq<Saved>, files: set<string>, name: string, config: Config, path: string)
    requires AtMostOne(models, name, "none", config)
    requires var k := FirstSame(models, name, "none", config);
      k < |models| ==> models[k].path != path
    ensures var k := FirstSame(models, name, "none", config);
      var after := AfterSave(models, name, "none", config, path);
      var files' := if k < |models| then files + {path} - {models[k].path} else files + {path};
      FirstLoadable(after, name, config, files') == Some(|after| - 1)
  {
    SaveKeepsOne(models, name, "none", config, path);
  }

  // ----- early stopping -----

  /** How much an epoch must beat every earlier one by to count as a new best. */
  const Tolerance: real := 0.00001

  /** `min` of a non-empty list of costs. */
  function Min(xs: seq<real>): (m: real)
    requires |xs| > 0
    ensures m in xs && forall i :: 0 <= i < |xs| ==> m <= xs[i]
  {
    if |xs| == 1 then xs[0]
    else
      var m := Min(xs[..|xs| - 1]);
      if xs[|xs| - 1] < m then xs[|xs| - 1] else m
  }

  /** Epoch e is a new best: it is the first, or its cost is at least the tolerance below every earlier one. */
  predicate NewBest(costs: seq<real>, e: nat)
    requires e < |costs|
  {
    e == 0 || costs[e] <= Min(costs[..e]) - Tolerance
  }

  /** `last_update` after epoch e: the epochs since the last new best. */
  function Patience(costs: seq<real>, e: nat): (p: nat)
    requires e < |costs|
    ensures p <= e
    ensures p == 0 <==> NewBest(costs, e)
  {
    if NewBest(costs, e) then 0 else Patience(costs, e - 1) + 1
  }

  /** Training stops after epoch e: it is no new best and the patience has run out. */
  predicate StopsAt(costs: seq<real>, earlyStop: int, e: nat)
    requires e < |costs|
  {
    !NewBest(costs, e) && Patience(costs, e) >= earlyStop
  }

  /** The new bests among the first n epochs, in order. */
  function Bests(costs: seq<real>, n: nat): (s: seq<nat>)
    requires n <= |costs|
    ensures forall e: nat :: e in s <==> e < n && NewBest(costs, e)
    ensures forall i :: 0 <= i < |s| ==> s[i] < n
    ensures forall i, j :: 0 <= i < j < |s| ==> s[i] < s[j]
  {
    if n == 0 then []
    else Bests(costs, n - 1) + (if NewBest(costs, n - 1) then [n - 1] else [])
  }

  /**
   * The epoch loop of `train`, for the validation costs the epochs would
   * have: the epochs after which the model is saved as the new best, and
   * how many epochs run before training ends or stops early.
   */
  method Epochs(costs: seq<real>, earlyStop: int) returns (saves: seq<nat>, run: nat)
    ensures run <= |costs|
    ensures run < |costs| ==> run > 0 && StopsAt(costs, earlyStop, run - 1)
    ensures NoStopBefore(costs, earlyStop, if run == 0 then 0 else run - 1)
    ensures saves == Bests(costs, run)
  {
    var history: seq<real> := [];
    assert NoStopBefore(costs, earlyStop, 0);
    var lastUpdate := 0;
    saves := [];
    var e := 0;
    while e < |costs|
      invariant 0 <= e <= |costs| && history == costs[..e]
      invariant Counted(costs, e, lastUpdate)
      invariant saves == Bests(costs, e)
      invariant NoStopBefore(costs, earlyStop, e)
    {
      var stop;
      history, lastUpdate, saves, stop := Epoch(costs, earlyStop, e, history, lastUpdate, saves);
      if stop {
        return saves, e + 1;
      }
      QuietExtend(costs, earlyStop, e);
      e := e + 1;
    }
    if e > 0 {
      QuietShorter(costs, earlyStop, e);
    }
    return saves, |costs|;
  }

  /** No epoch before the n-th stops training. */
  ghost predicate NoStopBefore(costs: seq<real>, earlyStop: int, n: nat)
    requires n <= |costs|
  {
    forall d :: 0 <= d < n ==> !StopsAt(costs, earlyStop, d)
  }

  lemma QuietExtend(costs: seq<real>, earlyStop: int, e: nat)
    requires e < |costs| && NoStopBefore(costs, earlyStop, e) && !StopsAt(costs, earlyStop, e)
    ensures NoStopBefore(costs, earlyStop, e + 1)
  {
  }

  lemma QuietShorter(costs: seq<real>, earlyStop: int, e: nat)
    requires 0 < e <= |costs| && NoStopBefore(costs, earlyStop, e)
    ensures NoStopBefore(costs, earlyStop, e - 1)
  {
  }

  /**
   * One epoch of `train`'s loop: its cost joins the history; a new best
   * is saved and resets the counter, any other epoch advances it and
   * stops training once it reaches `early_stop`.
   */
  method Epoch(costs: seq<real>, earlyStop: int, e: nat, history: seq<real>, lastUpdate: int, saves: seq<nat>)
    returns (history': seq<real>, lastUpdate': int, saves': seq<nat>, stop: bool)
    requires e < |costs| && history == costs[..e] && Counted(costs, e, lastUpdate) && saves == Bests(costs, e)
    ensures history' == costs[..e + 1] && Counted(costs, e + 1, lastUpdate') && saves' == Bests(costs, e + 1)
    ensures stop == StopsAt(costs, earlyStop, e)
  {
    var cost := costs[e];
    history' := history + [cost];
    EpochStep(costs, e, history');
    Counting(costs, e, lastUpdate);
    saves' := saves;
    stop := false;
    if |history'| == 1 || cost <= Min(history'[..|history'| - 1]) - Tolerance {
      saves' := saves + [e];
      lastUpdate' := 0;
    } else {
      lastUpdate' := lastUpdate + 1;
      if lastUpdate' >= earlyStop {
        stop := true;
      }
    }
  }

  /** `last_update` at the start of epoch e. */
  ghost predicate Counted(costs: seq<real>, e: nat, lastUpdate: int)
    requires e <= |costs|
  {
    e > 0 ==> lastUpdate == Patience(costs, e - 1)
  }

  lemma Counting(costs: seq<real>, e: nat, lastUpdate: int)
    requires e < |costs| && Counted(costs, e, lastUpdate)
    ensures Counted(costs, e + 1, if NewBest(costs, e) then 0 else lastUpdate + 1)
    ensures !NewBest(costs, e) ==> lastUpdate + 1 == Patience(costs, e)
  {
  }

  /** One pass of the epoch loop, in terms of the functions above. */
  lemma EpochStep(costs: seq<real>, e: nat, history: seq<real>)
    requires e < |costs| && history == costs[..e + 1]
    ensures (|history| == 1 || costs[e] <= Min(history[..|history| - 1]) - Tolerance) <==> NewBest(costs, e)
    ensures Bests(costs, e + 1) == Bests(costs, e) + (if NewBest(costs, e) then [e] else [])
    ensures !NewBest(costs, e) ==> e > 0 && Patience(costs, e) == Patience(costs, e - 1) + 1
    ensures NewBest(costs, e) ==> Patience(costs, e) == 0
  {
    assert history[..|history| - 1] == costs[..e];
  }

  /** The epochs since the last new best brought no new best. */
  lemma {:induction false} PatienceQuiet(costs: seq<real>, e: nat, d: nat)
    requires e < |costs| && e - Patience(costs, e) < d <= e
    ensures !NewBest(costs, d)
  {
    if d < e {
      PatienceQuiet(costs, e - 1, d);
    }
  }

  /** When training stops early, none of its last `early_stop` epochs was a new best. */
  lemma StoppedQuiet(costs: seq<real>, earlyStop: int, e: nat, d: nat)
    requires e < |costs| && StopsAt(costs, earlyStop, e)
    requires e - earlyStop < d <= e
    ensures !NewBest(costs, d)
  {
    PatienceQuiet(costs, e, d);
  }

  /** Each saved model beats every epoch before it: the saved costs fall by at least the tolerance each time. */
  lemma {:induction false} BestsImprove(costs: seq<real>, n: nat, i: nat, j: nat)
    requires n <= |costs| && i < j < |Bests(costs, n)|
    ensures costs[Bests(costs, n)[j]] <= costs[Bests(costs, n)[i]] - Tolerance
  {
    var s := Bests(costs, n);
    var a, b := s[i], s[j];
    assert a < b && NewBest(costs, b) && b > 0;
    assert costs[..b][a] == costs[a];
  }

  /** The first epoch is always saved. */
  lemma FirstSaved(costs: seq<real>, n: nat)
    requires 0 < n <= |costs|
    ensures |Bests(costs, n)| > 0 && Bests(costs, n)[0] == 0
  {
    assert 0 in Bests(costs, n);
  }
}

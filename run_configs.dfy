/**
 * The run-configuration generator: from one experiment configuration,
 * one run configuration per anonymization (per element of its list-valued
 * parameter, when it has one), each as a privacy evaluation and, unless
 * the experiment de-anonymizes, a utility evaluation as well.
 *
 * Python iterates a parameter dictionary in insertion order; a map has no
 * order, so the order of each anonymization's parameter keys is a
 * parameter (`orders`). The generator overwrites the caller's list-valued
 * parameter in place; the caller's configuration as the call leaves it is
 * returned alongside the run configurations.
 */
module RunConfigs {
  import opened Wrappers
  import opened Values

  /** `{"name": "arcface", "params": {"opt": {"num_gpus": 1}}}` */
  const Privacy: Value := Dict(map["name" := Str("arcface"), "params" := Dict(map["opt" := Dict(map["num_gpus" := Int(1)])])])

  /** `{"name": "detection", "params": {}}` */
  const Utility: Value := Dict(map["name" := Str("detection"), "params" := Dict(map[])])

  /** `config["exp"] == "deanon"` */
  predicate Deanon(base: Config)
    requires "exp" in base
  {
    base["exp"] == Str("deanon")
  }

  /** How many run configurations one snapshot of the base yields. */
  function PerBase(base: Config): nat
    requires "exp" in base
  {
    if Deanon(base) then 1 else 2
  }

  /** The rates of the utility run: the base's rates with `enroll` set to 1.0. */
  function UtilityRates(rates: Value): Value
    requires rates.Dict?
  {
    Dict(rates.entries["enroll" := Real(1.0)])
  }

  /**
   * `generate_single_config(base)`: a deep copy of the base with the
   * privacy evaluation, then, unless the experiment is `deanon`, a deep
   * copy with the enroll rate set to 1.0 and the utility evaluation.
   * Setting the rate fails when the rates are not a mapping.
   */
  function SingleConfigs(base: Config): (r: Result<seq<Config>>)
    requires "exp" in base && "rates" in base
    ensures r.Err? <==> !Deanon(base) && !base["rates"].Dict?
    ensures r.Ok? ==> |r.value| == PerBase(base) && r.value[0] == base["privacy" := Privacy]
    ensures r.Ok? && !Deanon(base) ==> r.value[1] == base["rates" := UtilityRates(base["rates"])]["utility" := Utility]
  {
    var privacy := base["privacy" := Privacy];
    if Deanon(base) then Ok([privacy])
    else if !base["rates"].Dict? then Err(TypeError("object does not support item assignment"))
    else Ok([privacy, base["rates" := UtilityRates(base["rates"])]["utility" := Utility]])
  }

  /**
   * The base every run starts from: `cleanup: True`, the dataset, rates,
   * experiment and seed (a `KeyError` for the first of them missing), and
   * the de-anonymization and the selector only when the experiment names
   * them.
   */
  function BaseOf(exp: Config): (r: Result<Config>)
    ensures r.Err? <==> !("dataset" in exp && "rates" in exp && "exp" in exp && "seed" in exp)
    ensures r.Err? ==> r.error == KeyError(if "dataset" !in exp then "dataset" else if "rates" !in exp then "rates"
                                           else if "exp" !in exp then "exp" else "seed")
    ensures r.Ok? ==> r.value.Keys == {"cleanup", "dataset", "rates", "exp", "seed"} +
                                      (if "deanonymization" in exp then {"deanonymization"} else {}) +
                                      (if "selector" in exp then {"selector"} else {})
    ensures r.Ok? ==> r.value["cleanup"] == Bool(true) &&
                      forall k :: k in r.value && k != "cleanup" ==> k in exp && r.value[k] == exp[k]
  {
    if "dataset" !in exp then Err(KeyError("dataset"))
    else if "rates" !in exp then Err(KeyError("rates"))
    else if "exp" !in exp then Err(KeyError("exp"))
    else if "seed" !in exp then Err(KeyError("seed"))
    else
      var base := map["cleanup" := Bool(true), "dataset" := exp["dataset"], "rates" := exp["rates"],
                      "exp" := exp["exp"], "seed" := exp["seed"]];
      var base := if "deanonymization" in exp then base["deanonymization" := exp["deanonymization"]] else base;
      if "selector" in exp then Ok(base["selector" := exp["selector"]]) else Ok(base)
  }

  /** The base holds the de-anonymization and the selector exactly when the experiment does, and no evaluation. */
  lemma BaseKeys(exp: Config)
    requires BaseOf(exp).Ok?
    ensures var base := BaseOf(exp).value;
      ("deanonymization" in base <==> "deanonymization" in exp) && ("selector" in base <==> "selector" in exp) &&
      "privacy" !in base && "utility" !in base && "anonymization" !in base
  {
  }

  /**
   * `for anonymization in exp_config["anonymizations"]`: a list yields its
   * items; an empty mapping or string yields nothing; a non-empty one
   * yields strings, which the loop body cannot index by `"params"`;
   * anything else is not iterable.
   */
  function Anonymizations(exp: Config): (r: Result<seq<Value>>)
    ensures "anonymizations" !in exp ==> r == Err(KeyError("anonymizations"))
    ensures r.Ok? <==> "anonymizations" in exp && (exp["anonymizations"].List? ||
                       (exp["anonymizations"].Dict? && |exp["anonymizations"].entries| == 0) ||
                       (exp["anonymizations"].Str? && |exp["anonymizations"].s| == 0))
    ensures r.Ok? && exp["anonymizations"].List? ==> r.value == exp["anonymizations"].items
    ensures r.Ok? && !exp["anonymizations"].List? ==> r.value == []
  {
    if "anonymizations" !in exp then Err(KeyError("anonymizations"))
    else match exp["anonymizations"]
      case List(items) => Ok(items)
      case Dict(m) => if |m| == 0 then Ok([]) else Err(TypeError("string indices must be integers"))
      case Str(s) => if |s| == 0 then Ok([]) else Err(TypeError("string indices must be integers"))
      case _ => Err(TypeError("object is not iterable"))
  }

  /** `anonymization["params"]`, which must be a mapping for `.items()`. */
  function Params(a: Value): (r: Result<Config>)
    ensures r.Ok? <==> a.Dict? && "params" in a.entries && a.entries["params"].Dict?
    ensures r.Ok? ==> r.value == a.entries["params"].entries
    ensures a.Dict? && "params" !in a.entries ==> r == Err(KeyError("params"))
  {
    if !a.Dict? then Err(TypeError("indices must be integers or slices, not str"))
    else if "params" !in a.entries then Err(KeyError("params"))
    else if !a.entries["params"].Dict? then Err(AttributeError("object has no attribute 'items'"))
    else Ok(a.entries["params"].entries)
  }

  /** Every key of `params` is listed in `order`, and only those. */
  ghost predicate Lists(order: seq<string>, params: Config) {
    forall k :: k in order <==> k in params
  }

  /** The parameter orders cover every anonymization the loop gets to. */
  ghost predicate Ordered(exp: Config, orders: seq<seq<string>>) {
    Anonymizations(exp).Ok? ==>
      |orders| == |Anonymizations(exp).value| &&
      forall i :: 0 <= i < |orders| && Params(Anonymizations(exp).value[i]).Ok? ==>
        Lists(orders[i], Params(Anonymizations(exp).value[i]).value)
  }

  predicate IsListAt(params: Config, order: seq<string>, j: int)
    requires 0 <= j < |order|
  {
    order[j] in params && params[order[j]].List?
  }

  /**
   * The position in `order` of the parameter the loop leaves in `param`:
   * the last one whose value is a list, or none.
   */
  function LastListIndex(params: Config, order: seq<string>): (r: Option<nat>)
    ensures r.Some? ==> r.value < |order| && IsListAt(params, order, r.value) &&
                        forall j :: r.value < j < |order| ==> !IsListAt(params, order, j)
    ensures r.None? ==> forall j :: 0 <= j < |order| ==> !IsListAt(params, order, j)
  {
    if |order| == 0 then None
    else if IsListAt(params, order, |order| - 1) then Some(|order| - 1)
    else
      var init := order[..|order| - 1];
      assert forall j :: 0 <= j < |init| ==> IsListAt(params, init, j) == IsListAt(params, order, j);
      LastListIndex(params, init)
  }

  /** `for k, v in params.items(): if type(v) is list: param = k` */
  method FindListParam(params: Config, order: seq<string>) returns (idx: Option<nat>)
    ensures idx == LastListIndex(params, order)
  {
    idx := None;
    var j := 0;
    while j < |order|
      invariant 0 <= j <= |order| && idx == LastListIndex(params, order[..j])
    {
      assert order[..j + 1][..j] == order[..j];
      if order[j] in params && params[order[j]].List? {
        idx := Some(j);
      }
      j := j + 1;
    }
    assert order[..|order|] == order;
  }

  /** The anonymization with its parameter `key` set to `p`. */
  function WithParam(anon: Config, params: Config, key: string, p: Value): Config {
    anon["params" := Dict(params[key := p])]
  }

  /** The base as `generate_single_config` deep-copies it: the current anonymization in place. */
  function Snapshot(base: Config, anon: Config): Config {
    base["anonymization" := Dict(anon)]
  }

  /** The runs for the elements of the list parameter `key`, in order, stopping at the first error. */
  function ExpandList(base: Config, anon: Config, params: Config, key: string, ps: seq<Value>): Result<seq<Config>>
    requires "exp" in base && "rates" in base
  {
    if |ps| == 0 then Ok([])
    else
      var init :- ExpandList(base, anon, params, key, ps[..|ps| - 1]);
      var last :- SingleConfigs(Snapshot(base, WithParam(anon, params, key, ps[|ps| - 1])));
      Ok(init + last)
  }

  /** The runs for one anonymization: one per element of its list parameter, or one. */
  function Expanded(base: Config, a: Value, order: seq<string>): Result<seq<Config>>
    requires "exp" in base && "rates" in base
  {
    var params :- Params(a);
    match LastListIndex(params, order)
    case None => SingleConfigs(Snapshot(base, a.entries))
    case Some(j) => ExpandList(base, a.entries, params, order[j], params[order[j]].items)
  }

  /** The runs for the anonymizations in order, stopping at the first error. */
  function Generated(base: Config, anons: seq<Value>, orders: seq<seq<string>>): Result<seq<Config>>
    requires "exp" in base && "rates" in base && |orders| == |anons|
  {
    if |anons| == 0 then Ok([])
    else
      var init :- Generated(base, anons[..|anons| - 1], orders[..|anons| - 1]);
      var more :- Expanded(base, anons[|anons| - 1], orders[|anons| - 1]);
      Ok(init + more)
  }

  /** One anonymization as the caller holds it afterwards: a non-empty list parameter holds its last element. */
  function Left(a: Value, order: seq<string>): Value {
    if Params(a).Err? then a
    else
      var params := Params(a).value;
      match LastListIndex(params, order)
      case None => a
      case Some(j) =>
        var ps := params[order[j]].items;
        if |ps| == 0 then a else Dict(WithParam(a.entries, params, order[j], ps[|ps| - 1]))
  }

  /** The experiment configuration as the caller holds it after a successful call. */
  function CallerAfter(exp: Config, orders: seq<seq<string>>): Config
    requires Ordered(exp, orders) && Anonymizations(exp).Ok?
  {
    if exp["anonymizations"].List? then
      var items := exp["anonymizations"].items;
      exp["anonymizations" := List(seq(|items|, i requires 0 <= i < |items| => Left(items[i], orders[i])))]
    else exp
  }

  /** `{"repeat": 1, "config": x}` */
  function Wrap(c: Config): Value {
    Dict(map["repeat" := Int(1), "config" := Dict(c)])
  }

  /**
   * The loop over one list parameter: set it to each element in turn and
   * snapshot the base. Returns the runs and the anonymization as the loop
   * leaves it.
   */
  method ExpandParam(base: Config, anon: Config, params: Config, key: string, ps: seq<Value>)
    returns (out: Result<seq<Config>>, anon': Config)
    requires "exp" in base && "rates" in base
    ensures out == ExpandList(base, anon, params, key, ps)
    ensures out.Ok? ==> anon' == if |ps| == 0 then anon else WithParam(anon, params, key, ps[|ps| - 1])
  {
    var configs: seq<Config> := [];
    anon' := anon;
    var j := 0;
    while j < |ps|
      invariant 0 <= j <= |ps|
      invariant ExpandList(base, anon, params, key, ps[..j]) == Ok(configs)
      invariant anon' == if j == 0 then anon else WithParam(anon, params, key, ps[j - 1])
    {
      assert ps[..j + 1][..j] == ps[..j];
      anon' := WithParam(anon, params, key, ps[j]);
      var single := SingleConfigs(Snapshot(base, anon'));
      if single.Err? {
        ExpandListSticks(base, anon, params, key, ps, j + 1);
        return Err(single.error), anon';
      }
      configs := configs + single.value;
      j := j + 1;
    }
    assert ps[..|ps|] == ps;
    out := Ok(configs);
  }

  /** The runs for one anonymization, and the anonymization as they leave it. */
  method Expand(base: Config, a: Value, order: seq<string>) returns (out: Result<seq<Config>>, a': Value)
    requires "exp" in base && "rates" in base
    ensures out == Expanded(base, a, order)
    ensures out.Ok? ==> a' == Left(a, order)
  {
    var params := Params(a);
    if params.Err? {
      return Err(params.error), a;
    }
    var idx := FindListParam(params.value, order);
    if idx.None? {
      out := SingleConfigs(Snapshot(base, a.entries));
      a' := a;
    } else {
      var key := order[idx.value];
      var anon';
      out, anon' := ExpandParam(base, a.entries, params.value, key, params.value[key].items);
      a' := if |params.value[key].items| == 0 then a else Dict(anon');
    }
  }

  /** The runs wrapped for the run file. */
  function WrapAll(cs: seq<Config>): (r: seq<Value>)
    ensures |r| == |cs| && forall i :: 0 <= i < |cs| ==> r[i] == Wrap(cs[i])
  {
    seq(|cs|, i requires 0 <= i < |cs| => Wrap(cs[i]))
  }

  /**
   * What `generate_configs(exp_config)` returns: the base, then the runs
   * of every anonymization in order, each wrapped; the first error raised
   * on the way otherwise.
   */
  function Runs(exp: Config, orders: seq<seq<string>>): Result<seq<Value>>
    requires Ordered(exp, orders)
  {
    var base :- BaseOf(exp);
    var anons :- Anonymizations(exp);
    var gen :- Generated(base, anons, orders);
    Ok(WrapAll(gen))
  }

  /**
   * `generate_configs(exp_config)`: the loop over the anonymizations,
   * and the caller's configuration as the loop leaves it.
   */
  method GenerateConfigs(exp: Config, orders: seq<seq<string>>) returns (r: Result<seq<Value>>, after: Config)
    requires Ordered(exp, orders)
    ensures r == Runs(exp, orders)
    ensures r.Ok? ==> Anonymizations(exp).Ok? && after == CallerAfter(exp, orders)
  {
    after := exp;
    var b := BaseOf(exp);
    if b.Err? {
      return Err(b.error), after;
    }
    var base := b.value;
    var anons := Anonymizations(exp);
    if anons.Err? {
      return Err(anons.error), after;
    }
    var items := anons.value;
    var left, configs := AnonymizationLoop(base, items, orders);
    if configs.Err? {
      return Err(configs.error), after;
    }
    r := Ok(WrapAll(configs.value));
    if exp["anonymizations"].List? {
      after := exp["anonymizations" := List(left)];
      assert left == seq(|items|, k requires 0 <= k < |items| => Left(items[k], orders[k]));
    }
  }

  /** `for anonymization in …`: the runs, and the anonymizations as the loop leaves them. */
  method AnonymizationLoop(base: Config, items: seq<Value>, orders: seq<seq<string>>)
    returns (left: seq<Value>, r: Result<seq<Config>>)
    requires "exp" in base && "rates" in base && |orders| == |items|
    ensures r == Generated(base, items, orders)
    ensures r.Ok? ==> |left| == |items| && forall k :: 0 <= k < |items| ==> left[k] == Left(items[k], orders[k])
  {
    left := items;
    var configs: seq<Config> := [];
    var i := 0;
    while i < |items|
      invariant 0 <= i <= |items| && |left| == |items|
      invariant Generated(base, items[..i], orders[..i]) == Ok(configs)
      invariant forall k :: 0 <= k < i ==> left[k] == Left(items[k], orders[k])
    {
      assert items[..i + 1][..i] == items[..i] && orders[..i + 1][..i] == orders[..i];
      var out, a' := Expand(base, items[i], orders[i]);
      if out.Err? {
        GeneratedSticks(base, items, orders, i + 1);
        return left, Err(out.error);
      }
      left := left[i := a'];
      configs := configs + out.value;
      i := i + 1;
    }
    assert items[..|items|] == items && orders[..|items|] == orders;
    r := Ok(configs);
  }

  /** An error stops the loop: the runs of a longer list fail as its prefix did. */
  lemma {:induction false} ExpandListSticks(base: Config, anon: Config, params: Config, key: string, ps: seq<Value>, j: nat)
    requires "exp" in base && "rates" in base && j <= |ps|
    requires ExpandList(base, anon, params, key, ps[..j]).Err?
    ensures ExpandList(base, anon, params, key, ps) == ExpandList(base, anon, params, key, ps[..j])
    decreases |ps|
  {
    if j < |ps| {
      var n := |ps| - 1;
      assert ps[..n][..j] == ps[..j];
      ExpandListSticks(base, anon, params, key, ps[..n], j);
    } else {
      assert ps[..j] == ps;
    }
  }

  /** An error stops the loop over the anonymizations likewise. */
  lemma {:induction false} GeneratedSticks(base: Config, anons: seq<Value>, orders: seq<seq<string>>, i: nat)
    requires "exp" in base && "rates" in base && |orders| == |anons| && i <= |anons|
    requires Generated(base, anons[..i], orders[..i]).Err?
    ensures Generated(base, anons, orders) == Generated(base, anons[..i], orders[..i])
    decreases |anons|
  {
    if i < |anons| {
      var n := |anons| - 1;
      assert anons[..n][..i] == anons[..i] && orders[..n][..i] == orders[..i];
      GeneratedSticks(base, anons[..n], orders[..n], i);
    } else {
      assert anons[..i] == anons && orders[..i] == orders;
    }
  }

  // ----- what every run configuration is -----

  /**
   * A run built from the base: the base's own keys unchanged but the
   * rates, the anonymization, and either the privacy evaluation with the
   * base's rates or the utility evaluation with the enroll rate at 1.0.
   */
  ghost predicate FromBase(base: Config, c: Config)
    requires "exp" in base && "rates" in base
  {
    "anonymization" in c && c["anonymization"].Dict? && "rates" in c &&
    (forall k :: k in base && k != "rates" && k != "anonymization" ==> k in c && c[k] == base[k]) &&
    (("privacy" in c && c["privacy"] == Privacy && c["rates"] == base["rates"] &&
      c.Keys == base.Keys + {"anonymization", "privacy"}) ||
     (!Deanon(base) && base["rates"].Dict? && "utility" in c && c["utility"] == Utility &&
      c["rates"] == UtilityRates(base["rates"]) && c.Keys == base.Keys + {"anonymization", "utility"}))
  }

  lemma SingleFromBase(base: Config, anon: Config)
    requires "exp" in base && "rates" in base && "privacy" !in base && "utility" !in base
    requires SingleConfigs(Snapshot(base, anon)).Ok?
    ensures forall c :: c in SingleConfigs(Snapshot(base, anon)).value ==> FromBase(base, c)
  {
    var s := Snapshot(base, anon);
    var r := SingleConfigs(s).value;
    PrivacyFromBase(base, anon);
    if !Deanon(s) {
      UtilityFromBase(base, anon);
    }
    assert forall c :: c in r ==> c == r[0] || (|r| == 2 && c == r[1]);
  }

  /** The privacy run of a snapshot is built from the base. */
  lemma PrivacyFromBase(base: Config, anon: Config)
    requires "exp" in base && "rates" in base && "privacy" !in base && "utility" !in base
    ensures FromBase(base, Snapshot(base, anon)["privacy" := Privacy])
  {
  }

  /** The utility run of a snapshot is built from the base. */
  lemma UtilityFromBase(base: Config, anon: Config)
    requires "exp" in base && "rates" in base && "privacy" !in base && "utility" !in base
    requires !Deanon(base) && base["rates"].Dict?
    ensures var s := Snapshot(base, anon);
      FromBase(base, s["rates" := UtilityRates(s["rates"])]["utility" := Utility])
  {
    var s := Snapshot(base, anon);
    assert s["rates"] == base["rates"];
  }

  lemma {:induction false} ExpandListFromBase(base: Config, anon: Config, params: Config, key: string, ps: seq<Value>)
    requires "exp" in base && "rates" in base && "privacy" !in base && "utility" !in base
    requires ExpandList(base, anon, params, key, ps).Ok?
    ensures forall c :: c in ExpandList(base, anon, params, key, ps).value ==> FromBase(base, c)
    decreases |ps|
  {
    if |ps| > 0 {
      ExpandListFromBase(base, anon, params, key, ps[..|ps| - 1]);
      SingleFromBase(base, WithParam(anon, params, key, ps[|ps| - 1]));
    }
  }

  lemma {:induction false} GeneratedFromBase(base: Config, anons: seq<Value>, orders: seq<seq<string>>)
    requires "exp" in base && "rates" in base && "privacy" !in base && "utility" !in base && |orders| == |anons|
    requires Generated(base, anons, orders).Ok?
    ensures forall c :: c in Generated(base, anons, orders).value ==> FromBase(base, c)
    decreases |anons|
  {
    if |anons| > 0 {
      var n := |anons| - 1;
      GeneratedFromBase(base, anons[..n], orders[..n]);
      var params := Params(anons[n]).value;
      match LastListIndex(params, orders[n])
      case None => SingleFromBase(base, anons[n].entries);
      case Some(j) => ExpandListFromBase(base, anons[n].entries, params, orders[n][j], params[orders[n][j]].items);
    }
  }

  /**
   * Every run configuration `generate_configs` emits is wrapped with
   * `repeat: 1` and carries `cleanup: True`, the experiment's dataset,
   * experiment name and seed, the de-anonymization and selector exactly
   * when the experiment names them, an anonymization, and either the
   * arcface privacy evaluation on the experiment's rates or the detection
   * utility evaluation on the rates with enroll at 1.0 (never for `deanon`).
   */
  lemma EveryRunFromBase(exp: Config, orders: seq<seq<string>>)
    requires Ordered(exp, orders) && Runs(exp, orders).Ok?
    ensures forall e :: e in Runs(exp, orders).value ==>
      e.Dict? && e.entries.Keys == {"repeat", "config"} && e.entries["repeat"] == Int(1) &&
      e.entries["config"].Dict? && RunOf(exp, e.entries["config"].entries)
  {
    var gen := GeneratedRuns(exp, orders);
    forall e | e in Runs(exp, orders).value
      ensures e.Dict? && e.entries.Keys == {"repeat", "config"} && e.entries["repeat"] == Int(1) &&
              e.entries["config"].Dict? && RunOf(exp, e.entries["config"].entries)
    {
      var i :| 0 <= i < |gen| && e == Wrap(gen[i]);
      WrapRun(exp, gen[i]);
    }
  }

  /** The runs before wrapping, each built from the experiment. */
  lemma GeneratedRuns(exp: Config, orders: seq<seq<string>>) returns (gen: seq<Config>)
    requires Ordered(exp, orders) && Runs(exp, orders).Ok?
    ensures Runs(exp, orders).value == WrapAll(gen)
    ensures forall c :: c in gen ==> RunOf(exp, c)
  {
    var base := BaseOf(exp).value;
    gen := Generated(base, Anonymizations(exp).value, orders).value;
    GeneratedRunOf(exp, Anonymizations(exp).value, orders);
  }

  /** Every run `Generated` builds from the experiment's base carries what `RunOf` says. */
  lemma GeneratedRunOf(exp: Config, anons: seq<Value>, orders: seq<seq<string>>)
    requires BaseOf(exp).Ok? && |orders| == |anons| && Generated(BaseOf(exp).value, anons, orders).Ok?
    ensures forall c :: c in Generated(BaseOf(exp).value, anons, orders).value ==> RunOf(exp, c)
  {
    var base := BaseOf(exp).value;
    BaseKeys(exp);
    GeneratedFromBase(base, anons, orders);
    forall c | c in Generated(base, anons, orders).value ensures RunOf(exp, c) {
      BaseRun(exp, c);
    }
  }

  /** A run wrapped for the run file keeps what it carries. */
  lemma WrapRun(exp: Config, c: Config)
    requires RunOf(exp, c)
    ensures var e := Wrap(c);
      e.Dict? && e.entries.Keys == {"repeat", "config"} && e.entries["repeat"] == Int(1) &&
      e.entries["config"].Dict? && RunOf(exp, e.entries["config"].entries)
  {
  }

  lemma BaseRun(exp: Config, c: Config)
    requires BaseOf(exp).Ok? && FromBase(BaseOf(exp).value, c)
    ensures RunOf(exp, c)
  {
    var base := BaseOf(exp).value;
    BaseKeys(exp);
    assert "cleanup" in base && "dataset" in base && "exp" in base && "seed" in base && "rates" in base;
    if "privacy" in c && c["privacy"] == Privacy && c["rates"] == base["rates"] &&
       c.Keys == base.Keys + {"anonymization", "privacy"} {
      assert "utility" !in c;
    } else {
      assert "privacy" !in c;
    }
  }

  /** What a run configuration built from the experiment `exp` carries. */
  ghost predicate RunOf(exp: Config, c: Config) {
    "cleanup" in c && c["cleanup"] == Bool(true) &&
    "dataset" in c && "dataset" in exp && c["dataset"] == exp["dataset"] &&
    "exp" in c && "exp" in exp && c["exp"] == exp["exp"] &&
    "seed" in c && "seed" in exp && c["seed"] == exp["seed"] &&
    ("deanonymization" in c <==> "deanonymization" in exp) && ("selector" in c <==> "selector" in exp) &&
    ("deanonymization" in c ==> c["deanonymization"] == exp["deanonymization"]) &&
    ("selector" in c ==> c["selector"] == exp["selector"]) &&
    "anonymization" in c && "rates" in c && "rates" in exp &&
    (("privacy" in c && c["privacy"] == Privacy && c["rates"] == exp["rates"] && "utility" !in c) ||
     (exp["exp"] != Str("deanon") && exp["rates"].Dict? && "utility" in c && c["utility"] == Utility &&
      c["rates"] == UtilityRates(exp["rates"]) && "privacy" !in c))
  }

  // ----- how many runs, and which parameter value each carries -----

  /** How many runs one anonymization yields: one per element of its list parameter, or one. */
  function Expansions(a: Value, order: seq<string>): nat
    requires Params(a).Ok?
  {
    var params := Params(a).value;
    match LastListIndex(params, order)
    case None => 1
    case Some(j) => |params[order[j]].items|
  }

  /**
   * The runs for a list parameter come in order of its elements:
   * `PerBase` runs per element, the first of them (the privacy run)
   * carrying the anonymization with the parameter set to that element.
   */
  lemma {:induction false} ExpandListRuns(base: Config, anon: Config, params: Config, key: string, ps: seq<Value>)
    requires "exp" in base && "rates" in base
    requires ExpandList(base, anon, params, key, ps).Ok?
    ensures var out := ExpandList(base, anon, params, key, ps).value;
      |out| == PerBase(base) * |ps| &&
      forall m :: 0 <= m < |ps| ==>
        "anonymization" in out[PerBase(base) * m] && out[PerBase(base) * m]["anonymization"] == Dict(WithParam(anon, params, key, ps[m]))
    decreases |ps|
  {
    if |ps| > 0 {
      var n := |ps| - 1;
      ExpandListRuns(base, anon, params, key, ps[..n]);
      var init := ExpandList(base, anon, params, key, ps[..n]).value;
      var last := SingleConfigs(Snapshot(base, WithParam(anon, params, key, ps[n]))).value;
      var out := ExpandList(base, anon, params, key, ps).value;
      assert out == init + last;
      var per := PerBase(base);
      BlockStart(init, last, per, n, 0);
      forall m | 0 <= m < |ps|
        ensures "anonymization" in out[per * m] && out[per * m]["anonymization"] == Dict(WithParam(anon, params, key, ps[m]))
      {
        BlockStart(init, last, per, n, m);
        if m < n {
          assert ps[..n][m] == ps[m];
        }
      }
    }
  }

  /** In `init + last`, with `init` holding n blocks of `per` items and `last` one, block m starts in `init` or is `last`. */
  lemma BlockStart<T>(init: seq<T>, last: seq<T>, per: nat, n: nat, m: nat)
    requires (per == 1 || per == 2) && |init| == per * n && |last| == per && m <= n
    ensures |init + last| == per * (n + 1)
    ensures m < n ==> per * m < |init| && (init + last)[per * m] == init[per * m]
    ensures m == n ==> per * m == |init| && (init + last)[per * m] == last[0]
  {
    if per == 1 {
    } else {
      assert 2 * m <= 2 * n;
    }
  }

  /** Multiplying by one or two distributes over a sum. */
  lemma Distribute(per: nat, t: nat, e: nat)
    requires per == 1 || per == 2
    ensures per * (t + e) == per * t + per * e
  {
    if per == 2 {
      assert 2 * (t + e) == 2 * t + 2 * e;
    }
  }

  /** The runs total `PerBase` times the expansions of each anonymization. */
  function TotalExpansions(anons: seq<Value>, orders: seq<seq<string>>): nat
    requires |orders| == |anons| && forall i :: 0 <= i < |anons| ==> Params(anons[i]).Ok?
  {
    if |anons| == 0 then 0
    else TotalExpansions(anons[..|anons| - 1], orders[..|anons| - 1]) + Expansions(anons[|anons| - 1], orders[|anons| - 1])
  }

  lemma {:induction false} GeneratedCount(base: Config, anons: seq<Value>, orders: seq<seq<string>>)
    requires "exp" in base && "rates" in base && |orders| == |anons|
    requires Generated(base, anons, orders).Ok?
    ensures forall i :: 0 <= i < |anons| ==> Params(anons[i]).Ok?
    ensures |Generated(base, anons, orders).value| == PerBase(base) * TotalExpansions(anons, orders)
    decreases |anons|
  {
    if |anons| > 0 {
      var n := |anons| - 1;
      GeneratedCount(base, anons[..n], orders[..n]);
      assert forall i :: 0 <= i < n ==> anons[..n][i] == anons[i];
      var params := Params(anons[n]).value;
      match LastListIndex(params, orders[n]) {
        case None =>
        case Some(j) => ExpandListRuns(base, anons[n].entries, params, orders[n][j], params[orders[n][j]].items);
      }
      var per := PerBase(base);
      var t := TotalExpansions(anons[..n], orders[..n]);
      var e := Expansions(anons[n], orders[n]);
      Distribute(per, t, e);
    }
  }

  /**
   * `generate_configs` emits, per anonymization, one run per element of
   * its last list-valued parameter (or one run), doubled unless the
   * experiment is `deanon`.
   */
  lemma RunsCount(exp: Config, orders: seq<seq<string>>)
    requires Ordered(exp, orders) && Runs(exp, orders).Ok?
    ensures forall i :: 0 <= i < |Anonymizations(exp).value| ==> Params(Anonymizations(exp).value[i]).Ok?
    ensures |Runs(exp, orders).value| ==
      (if exp["exp"] == Str("deanon") then 1 else 2) * TotalExpansions(Anonymizations(exp).value, orders)
  {
    GeneratedCount(BaseOf(exp).value, Anonymizations(exp).value, orders);
  }
}

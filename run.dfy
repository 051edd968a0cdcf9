/**
 * `Run`: one experiment run. The configuration has every "$ROUND"
 * replaced by the round number and `cleanup` defaulted to `False`; the
 * experiment to run is chosen by the configuration's `exp` name.
 */
module Runs {
  import opened Wrappers
  import opened Values
  import opened Utils

  /** The experiments the `exp` name can select. */
  datatype Experiment = Anon | AnonClearselect | Deanon

  /** The placeholder a configuration uses for the round number. */
  const RoundPlaceholder: string := "$ROUND"

  /**
   * The configuration a run works with: the placeholder replaced by
   * `str(round)` everywhere, then `cleanup` added as `False` if absent.
   */
  function Prepared(config: Config, round: int): (c: Config)
    ensures c.Keys == config.Keys + {"cleanup"}
    ensures forall k :: k in config ==> c[k] == RecursiveReplace(config[k], RoundPlaceholder, IntToString(round))
    ensures "cleanup" !in config ==> c["cleanup"] == Bool(false)
  {
    var replaced := RecursiveReplace(Dict(config), RoundPlaceholder, IntToString(round)).entries;
    if "cleanup" in replaced then replaced else replaced["cleanup" := Bool(false)]
  }

  /** A configuration that does not mention the placeholder keeps all its values. */
  lemma PreparedWithoutPlaceholder(config: Config, round: int)
    requires forall k :: k in config ==> !Mentions(config[k], RoundPlaceholder)
    ensures forall k :: k in config ==> Prepared(config, round)[k] == config[k]
  {
    forall k | k in config ensures Prepared(config, round)[k] == config[k] {
      ReplaceUnmentioned(config[k], RoundPlaceholder, IntToString(round));
    }
  }

  /**
   * `get_exp_by_name(config["exp"])`: the module `src.lib.exp.<name>` and
   * its class `<Name>Experiment`. `abstract` loads a class without `run`
   * and `abstractanon` names a class that does not exist; both end in an
   * `AttributeError`. Any other name has no module.
   */
  function ExperimentOf(config: Config): (r: Result<Experiment>)
    ensures "exp" !in config ==> r == Err(KeyError("exp"))
    ensures r.Ok? <==> "exp" in config && config["exp"] in {Str("anon"), Str("anon_clearselect"), Str("deanon")}
    ensures r == Ok(Anon) <==> "exp" in config && config["exp"] == Str("anon")
    ensures r == Ok(AnonClearselect) <==> "exp" in config && config["exp"] == Str("anon_clearselect")
    ensures r == Ok(Deanon) <==> "exp" in config && config["exp"] == Str("deanon")
  {
    var exp :- Index(config, "exp");
    if !exp.Str? then Err(AttributeError("object has no attribute 'capitalize'"))
    else if exp.s == "anon" then Ok(Anon)
    else if exp.s == "anon_clearselect" then Ok(AnonClearselect)
    else if exp.s == "deanon" then Ok(Deanon)
    else if exp.s == "abstract" then Err(AttributeError("'AbstractExperiment' object has no attribute 'run'"))
    else if exp.s == "abstractanon" then Err(AttributeError("module has no attribute 'AbstractanonExperiment'"))
    else Err(ImportError("src.lib.exp." + exp.s))
  }

  class Run {
    /** The prepared configuration. */
    var config: Config
    /** The experiment's datasets by role, by name. */
    var sets: map<string, string>
    const saveResult: bool

    /**
     * `Run(config, round=0, save_result=False)`; the caller passes the
     * defaults explicitly.
     */
    constructor (config: Config, round: int, saveResult: bool)
      ensures this.config == Prepared(config, round)
      ensures sets == map[] && this.saveResult == saveResult
    {
      var replaced := RecursiveReplace(Dict(config), RoundPlaceholder, IntToString(round)).entries;
      this.config := replaced;
      this.sets := map[];
      this.saveResult := saveResult;
      new;
      if "cleanup" !in this.config {
        this.config := this.config["cleanup" := Bool(false)];
      }
    }

    /** `run`: the experiment the configuration names. */
    function Experiment(): (r: Result<Experiment>)
      reads this
      ensures r.Ok? ==> "exp" in config && config["exp"].Str?
      ensures "exp" !in config ==> r.Err?
    {
      ExperimentOf(config)
    }
  }
}

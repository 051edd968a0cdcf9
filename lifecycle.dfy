/**
 * The construction every pluggable stage shares (inference modules,
 * anonymizations, de-anonymizations): store the configuration, then
 * `validate_config()`, then `init()`. Both hooks are the concrete
 * module's own; the base classes' versions do nothing.
 */
module Lifecycle {
  import opened Wrappers
  import opened Values

  /**
   * `validate_config` checks the configuration and may write defaults into
   * it; `init` prepares the module and may raise.
   */
  datatype Hooks = Hooks(validate: Config -> Result<Config>, init: Config -> Option<Error>)

  /** The base classes' `validate_config` and `init`: `pass`. */
  const BaseHooks: Hooks := Hooks(c => Ok(c), c => None)

  /**
   * `__init__`: the configuration as `validate_config` leaves it, unless it
   * or `init` (run on the validated configuration) raises.
   */
  function Construct(h: Hooks, config: Config): (r: Result<Config>)
    ensures h.validate(config).Err? ==> r == Err(h.validate(config).error)
    ensures h.validate(config).Ok? && h.init(h.validate(config).value).Some? ==> r == Err(h.init(h.validate(config).value).value)
    ensures r.Ok? <==> h.validate(config).Ok? && h.init(h.validate(config).value).None?
    ensures r.Ok? ==> r.value == h.validate(config).value
  {
    var c :- h.validate(config);
    var e := h.init(c);
    if e.Some? then Err(e.value) else Ok(c)
  }

  /** Validation comes first: when it raises, `init` is never consulted. */
  lemma ValidateFirst(v: Config -> Result<Config>, i1: Config -> Option<Error>, i2: Config -> Option<Error>, config: Config)
    requires v(config).Err?
    ensures Construct(Hooks(v, i1), config) == Construct(Hooks(v, i2), config)
  {
  }

  /** The base hooks keep the configuration as given and never raise. */
  lemma BaseConstructs(config: Config)
    ensures Construct(BaseHooks, config) == Ok(config)
  {
  }
}

/**
 * `ResultsManager`: lookups in `results.yaml`, the mapping from the name
 * of each stored run to its record (its configuration, the datasets it
 * used, its metrics). Every lookup visits the names from the greatest to
 * the smallest and answers with the first name whose record passes a test.
 *
 * The loaded YAML document is a parameter. `json.dumps` of two key-sorted
 * configurations is equal exactly when the configurations are equal as
 * values, so the comparison is `==` on `Value`.
 */
module ResultsManager {
  import W = Wrappers
  import opened Wrappers
  import opened Values
  import opened Text

  /** `m` comes before `n` when the names are visited in reverse sorted order. */
  predicate Above(m: string, n: string) {
    StrLe(n, m) && m != n
  }

  /** A visiting order: strictly from the greatest name down. */
  predicate Descending(order: seq<string>) {
    forall i, j :: 0 <= i < j < |order| ==> Above(order[i], order[j])
  }

  /** The test a lookup applies to each stored record. */
  type Test = Value -> W.Result<bool>

  /** Every record above `n` was visited and did not pass. */
  ghost predicate Passes(all: Config, test: Test, n: string) {
    forall m :: m in all && Above(m, n) ==> test(all[m]) == Ok(false)
  }

  /**
   * What a lookup answers, independent of how the names are visited:
   * `None` when no record passes and none raises; otherwise the greatest
   * name whose record passes, or the error of the greatest one that
   * raises, whichever comes first.
   */
  ghost predicate IsFirstHit(all: Config, test: Test, a: W.Result<Option<string>>) {
    if a.Err? then exists n :: n in all && test(all[n]) == Err(a.error) && Passes(all, test, n)
    else if a.value.None? then forall n :: n in all ==> test(all[n]) == Ok(false)
    else a.value.value in all && test(all[a.value.value]) == Ok(true) && Passes(all, test, a.value.value)
  }

  /** Two names neither of which is above the other are the same name. */
  lemma NeitherAbove(m: string, n: string)
    requires !Above(m, n) && !Above(n, m)
    ensures m == n
  {
    StrLeTotal(m, n);
  }

  /** A lookup has at most one answer. */
  lemma FirstHitUnique(all: Config, test: Test, a: W.Result<Option<string>>, b: W.Result<Option<string>>)
    requires IsFirstHit(all, test, a) && IsFirstHit(all, test, b)
    ensures a == b
  {
    var x := HitName(all, test, a);
    var y := HitName(all, test, b);
    if x.Some? && y.Some? && !Above(x.value, y.value) && !Above(y.value, x.value) {
      NeitherAbove(x.value, y.value);
    }
  }

  /** The name a lookup answer stops at: the name it returns, or the one whose record raised. */
  ghost function HitName(all: Config, test: Test, a: W.Result<Option<string>>): (x: Option<string>)
    requires IsFirstHit(all, test, a)
    ensures x.None? <==> a == Ok(None)
    ensures x.Some? ==> x.value in all && test(all[x.value]) != Ok(false) && Passes(all, test, x.value)
    ensures x.Some? && a.Ok? ==> a.value == x
    ensures x.Some? && a.Err? ==> test(all[x.value]) == Err(a.error)
  {
    if a.Err? then
      var n :| n in all && test(all[n]) == Err(a.error) && Passes(all, test, n);
      Some(n)
    else a.value
  }

  /** The loop `for name, result in all.items()` with its early return. */
  function Scan(all: Config, order: seq<string>, test: Test): W.Result<Option<string>>
    requires forall i :: 0 <= i < |order| ==> order[i] in all
  {
    if |order| == 0 then Ok(None)
    else match test(all[order[0]])
      case Err(e) => Err(e)
      case Ok(true) => Ok(Some(order[0]))
      case Ok(false) => Scan(all, order[1..], test)
  }

  /** Visiting every name in descending order finds the answer. */
  lemma ScanIsFirstHit(all: Config, order: seq<string>, test: Test)
    requires Descending(order) && forall n :: n in order <==> n in all
    ensures IsFirstHit(all, test, Scan(all, order, test))
  {
    ScanFrom(all, order, test, 0);
  }

  lemma {:induction false} ScanFrom(all: Config, order: seq<string>, test: Test, k: nat)
    requires Descending(order) && forall n :: n in order <==> n in all
    requires k <= |order|
    requires forall i :: 0 <= i < k ==> test(all[order[i]]) == Ok(false)
    ensures IsFirstHit(all, test, Scan(all, order[k..], test))
    decreases |order| - k
  {
    if k == |order| {
      forall n | n in all ensures test(all[n]) == Ok(false) {
        var i :| 0 <= i < |order| && order[i] == n;
      }
    } else {
      var n := order[k];
      if test(all[n]) == Ok(false) {
        assert order[k..][1..] == order[k + 1..];
        ScanFrom(all, order, test, k + 1);
      } else {
        forall m | m in all && Above(m, n) ensures test(all[m]) == Ok(false) {
          var i :| 0 <= i < |order| && order[i] == m;
          if i > k {
            assert Above(n, m);
            StrLeAntisymmetric(m, n);
          }
        }
      }
    }
  }

  /** `sorted(all.items(), reverse=True)`: every name once, greatest first. */
  method ReverseOrder(names: set<string>) returns (order: seq<string>)
    ensures Descending(order)
    ensures forall n :: n in order <==> n in names
  {
    var sorted := SortedList(names);
    order := seq(|sorted|, i requires 0 <= i < |sorted| => sorted[|sorted| - 1 - i]);
    forall n | n in names ensures n in order {
      var i :| 0 <= i < |sorted| && sorted[i] == n;
      assert order[|sorted| - 1 - i] == n;
    }
  }

  /** The lookup loop: the first name, in the given order, whose record passes or raises. */
  method FirstHitIn(all: Config, order: seq<string>, test: Test) returns (a: W.Result<Option<string>>)
    requires forall i :: 0 <= i < |order| ==> order[i] in all
    ensures a == Scan(all, order, test)
  {
    var i := 0;
    while i < |order|
      invariant 0 <= i <= |order|
      invariant Scan(all, order, test) == Scan(all, order[i..], test)
    {
      assert order[i..][1..] == order[i + 1..];
      var passed := test(all[order[i]]);
      if passed.Err? {
        return Err(passed.error);
      }
      if passed.value {
        return Ok(Some(order[i]));
      }
      i := i + 1;
    }
    return Ok(None);
  }

  /** `json.dumps(result["config"]) == json.dumps(config)` for one stored record. */
  function MatchesConfig(record: Value, config: Config): (r: W.Result<bool>)
    ensures r == Ok(true) <==> record.Dict? && "config" in record.entries && record.entries["config"] == Dict(config)
    ensures r.Err? <==> !record.Dict? || "config" !in record.entries
  {
    if !record.Dict? then Err(TypeError("object is not subscriptable"))
    else
      var c :- Index(record.entries, "config");
      Ok(c == Dict(config))
  }

  function ConfigTest(config: Config): Test {
    record => MatchesConfig(record, config)
  }

  /**
   * `"datasets" in result and needle in result["datasets"].values()`: the
   * record lists the dataset under some role.
   */
  function UsesDataset(record: Value, needle: string): (r: W.Result<bool>)
    ensures r == Ok(true) <==> record.Dict? && "datasets" in record.entries &&
                                record.entries["datasets"].Dict? && Str(needle) in record.entries["datasets"].entries.Values
    ensures record.Dict? && "datasets" !in record.entries ==> r == Ok(false)
  {
    var has :- In("datasets", record);
    if !has then Ok(false)
    else if !record.Dict? then Err(TypeError("indices must be integers"))
    else
      var datasets := record.entries["datasets"];
      if !datasets.Dict? then Err(AttributeError("object has no attribute 'values'"))
      else Ok(Str(needle) in datasets.entries.Values)
  }

  function DatasetTest(needle: string): Test {
    record => UsesDataset(record, needle)
  }

  /** `all.items()` on the loaded document: only a mapping has items. */
  const NoItems: Error := AttributeError("object has no attribute 'items'")

  /**
   * `get_matching_by_used_dataset(needle)`: the greatest name whose record
   * used the dataset, `None` when there is none.
   */
  method GetMatchingByUsedDataset(all: Value, needle: string) returns (a: W.Result<Option<string>>)
    ensures !all.Dict? ==> a == Err(NoItems)
    ensures all.Dict? ==> IsFirstHit(all.entries, DatasetTest(needle), a)
  {
    if !all.Dict? {
      return Err(NoItems);
    }
    var order := ReverseOrder(all.entries.Keys);
    a := FirstHitIn(all.entries, order, DatasetTest(needle));
    ScanIsFirstHit(all.entries, order, DatasetTest(needle));
  }

  /**
   * `get_matching_by_config(config)`: the greatest name whose record holds
   * this configuration, `None` when there is none.
   */
  method GetMatchingByConfig(all: Value, config: Config) returns (a: W.Result<Option<string>>)
    ensures !all.Dict? ==> a == Err(NoItems)
    ensures all.Dict? ==> IsFirstHit(all.entries, ConfigTest(config), a)
  {
    if !all.Dict? {
      return Err(NoItems);
    }
    var order := ReverseOrder(all.entries.Keys);
    a := FirstHitIn(all.entries, order, ConfigTest(config));
    ScanIsFirstHit(all.entries, order, ConfigTest(config));
  }

  /** What one requested configuration raises: `sort_dict` of a non-mapping, or a lookup error. */
  ghost predicate ConfigError(all: Config, config: Value, e: Error) {
    if config.Dict? then IsFirstHit(all, ConfigTest(config.entries), Err(e)) else e == NoItems
  }

  /** The answer for one requested configuration, when it raises nothing. */
  ghost predicate ConfigAnswer(all: Config, config: Value, name: Option<string>) {
    config.Dict? && IsFirstHit(all, ConfigTest(config.entries), Ok(name))
  }

  ghost predicate Answered(all: Config, config: Value) {
    exists name :: ConfigAnswer(all, config, name)
  }

  /** A configuration with an answer raises nothing. */
  lemma AnswerExcludesError(all: Config, config: Value, name: Option<string>, e: Error)
    requires ConfigAnswer(all, config, name)
    ensures !ConfigError(all, config, e)
  {
    if ConfigError(all, config, e) {
      FirstHitUnique(all, ConfigTest(config.entries), Ok(name), Err(e));
    }
  }

  /** One configuration's lookup, given the visiting order. */
  method MatchOne(all: Config, order: seq<string>, config: Value) returns (a: W.Result<Option<string>>)
    requires Descending(order) && forall n :: n in order <==> n in all
    ensures a.Ok? ==> ConfigAnswer(all, config, a.value)
    ensures a.Err? ==> ConfigError(all, config, a.error)
  {
    if !config.Dict? {
      return Err(NoItems);
    }
    a := FirstHitIn(all, order, ConfigTest(config.entries));
    ScanIsFirstHit(all, order, ConfigTest(config.entries));
  }

  /**
   * `get_set_of_matching_by_configs(configs)`: one answer per requested
   * configuration, in order; the first configuration whose lookup raises
   * ends the call.
   */
  method GetSetOfMatchingByConfigs(all: Value, configs: seq<Value>) returns (r: W.Result<seq<Option<string>>>)
    ensures !all.Dict? ==> r == Err(NoItems)
    ensures r.Ok? ==> |r.value| == |configs| && forall i :: 0 <= i < |configs| ==> ConfigAnswer(all.entries, configs[i], r.value[i])
    ensures all.Dict? && r.Err? ==> exists i :: 0 <= i < |configs| && ConfigError(all.entries, configs[i], r.error) &&
                                           forall j :: 0 <= j < i ==> Answered(all.entries, configs[j])
  {
    if !all.Dict? {
      return Err(NoItems);
    }
    var order := ReverseOrder(all.entries.Keys);
    var names: seq<Option<string>> := [];
    for i := 0 to |configs|
      invariant |names| == i
      invariant forall j :: 0 <= j < i ==> ConfigAnswer(all.entries, configs[j], names[j])
      invariant forall j :: 0 <= j < i ==> Answered(all.entries, configs[j])
    {
      var one := MatchOne(all.entries, order, configs[i]);
      if one.Err? {
        return Err(one.error);
      }
      names := names + [one.value];
    }
    return Ok(names);
  }

  /** `get_config_by_name(name)`: the stored record under that name. */
  function GetConfigByName(all: Value, name: string): (r: W.Result<Value>)
    ensures r.Ok? <==> all.Dict? && name in all.entries
    ensures r.Ok? ==> r.value == all.entries[name]
    ensures all.Dict? && name !in all.entries ==> r == Err(KeyError(name))
  {
    if !all.Dict? then Err(TypeError("object is not subscriptable")) else Index(all.entries, name)
  }
}

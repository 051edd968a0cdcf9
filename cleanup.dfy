/**
 * `delete_set` of the data clean-up script: from a dataset's metadata,
 * decide whether the dataset may be deleted, and give the reason.
 * Originals, sets whose name marks them as normalised or as WebFace, and
 * the outputs of expensive anonymizations and de-anonymizations are kept;
 * everything else derived is deleted.
 */
module Cleanup {
  import opened Wrappers
  import opened Values
  import opened Text

  /** Anonymizations whose outputs are too costly to recompute. */
  const ExpensiveAnonymizations: seq<string> :=
    ["ciagan", "deepprivacy", "dppix", "dpsamp", "fawkes", "krtio", "ksamepixel", "ksameeigen"]

  /** De-anonymizations whose outputs are too costly to recompute. */
  const ExpensiveDeanonymizations: seq<string> :=
    ["denoisenlmeans", "dicsr", "motiondeblurring", "mprnet", "normsparsity", "rldeconv", "stripformer", "uwiener", "wavelet", "wiener2"]

  /** The decision `delete_set` returns: delete or keep, and why. */
  datatype Verdict = Verdict(delete: bool, reason: string)

  /** The reason recorded for a stage: `prefix` followed by the stage's name, which must be a string. */
  function Tagged(prefix: string, v: Value): (r: Result<string>)
    ensures r.Ok? <==> v.Str?
    ensures r.Ok? ==> r.value == prefix + v.s
  {
    if v.Str? then Ok(prefix + v.s) else Err(TypeError("can only concatenate str to str"))
  }

  /** A stage named `v` is one of `names` (Python `in` on a list of strings). */
  predicate Listed(v: Value, names: seq<string>) {
    v.Str? && v.s in names
  }

  /**
   * A set kept for what it is rather than for what produced it: an
   * original, or one whose name carries "-normx" or "webface".
   */
  predicate Protected(info: Config) {
    ("original" in info && PyEq(info["original"], Bool(true))) ||
    ("name" in info && (In("-normx", info["name"]) == Ok(true) || In("webface", info["name"]) == Ok(true)))
  }

  /**
   * The stage that produced the set is an expensive one; the
   * anonymization key, when present, decides alone.
   */
  predicate Expensive(info: Config) {
    if "anonymization" in info then Listed(info["anonymization"], ExpensiveAnonymizations)
    else "deanonymization" in info && Listed(info["deanonymization"], ExpensiveDeanonymizations)
  }

  /**
   * `delete_set(info)`: the checks in their order of precedence — the
   * original flag, the two protected name markers, then the kind of stage
   * that produced the set, anonymization before de-anonymization before
   * splitter before selector.
   */
  function DeleteSet(info: Config): (r: Result<Verdict>)
    ensures "original" !in info ==> r == Err(KeyError("original"))
    ensures "original" in info && PyEq(info["original"], Bool(true)) ==> r == Ok(Verdict(false, "original"))
    ensures r.Ok? ==> (r.value.delete <==> !Protected(info) && !Expensive(info))
    ensures r.Ok? && !Protected(info) && "anonymization" in info ==>
              info["anonymization"].Str? && r.value.reason == "anon:" + info["anonymization"].s
    ensures r.Ok? && !Protected(info) && "anonymization" !in info && "deanonymization" in info ==>
              info["deanonymization"].Str? && r.value.reason == "deanon:" + info["deanonymization"].s
    ensures r.Ok? && !Protected(info) && "anonymization" !in info && "deanonymization" !in info ==>
              r.value.reason == if "splitter" in info then "splitter" else if "selector" in info then "selector" else "unknown"
    ensures r.Err? && "original" in info && !PyEq(info["original"], Bool(true)) && "name" in info && info["name"].Str? ==>
              !Protected(info) && (if "anonymization" in info then !info["anonymization"].Str? else "deanonymization" in info && !info["deanonymization"].Str?)
  {
    var original :- Index(info, "original");
    if PyEq(original, Bool(true)) then Ok(Verdict(false, "original"))
    else
      var name :- Index(info, "name");
      var normx :- In("-normx", name);
      if normx then Ok(Verdict(false, "normx"))
      else
        if In("webface", name).value then Ok(Verdict(false, "named webface"))
        else if "anonymization" in info then
          var reason :- Tagged("anon:", info["anonymization"]);
          Ok(Verdict(!Listed(info["anonymization"], ExpensiveAnonymizations), reason))
        else if "deanonymization" in info then
          var reason :- Tagged("deanon:", info["deanonymization"]);
          Ok(Verdict(!Listed(info["deanonymization"], ExpensiveDeanonymizations), reason))
        else if "splitter" in info then Ok(Verdict(true, "splitter"))
        else if "selector" in info then Ok(Verdict(true, "selector"))
        else Ok(Verdict(true, "unknown"))
  }

  /**
   * A name marker protects a set whatever stage produced it: the name is
   * looked at before any lineage key.
   */
  lemma {:induction false} MarkerBeforeStage(info: Config, stage: string, v: Value)
    requires "original" in info && !PyEq(info["original"], Bool(true))
    requires "name" in info && info["name"].Str? && Contains(info["name"].s, "webface")
    ensures DeleteSet(info[stage := v]) == DeleteSet(info) || stage in {"original", "name"}
    ensures DeleteSet(info).Ok? && !DeleteSet(info).value.delete
  {
    if stage !in {"original", "name"} {
      var info' := info[stage := v];
      assert info'["original"] == info["original"] && info'["name"] == info["name"];
    }
  }
}

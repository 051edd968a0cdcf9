/**
 * `Inference` and its two kinds: a classification enrolls one dataset and
 * then ranks every datapoint of a second one; a comparison pairs every
 * datapoint of an original dataset with the datapoint under the same key
 * in a new dataset. Either way one result per datapoint is appended to a
 * fresh result set, in datapoint order.
 *
 * What a concrete module answers for one datapoint (`classify_point`,
 * `compare_point`) and what its `enroll` does are parameters; the base
 * classes raise `NotImplementedError` for the former.
 */
module Inference {
  import W = Wrappers
  import opened Wrappers
  import opened Values
  import opened Results
  import opened Scan
  import Datasets
  import ResultSets
  import opened Lifecycle

  /** What a module answers for the datapoint under one key: a ranked probe, or an exception. */
  type Step = string -> W.Result<Record>

  /** `classify_point` / `compare_point` of the base classes. */
  const NotImplemented: Step := key => W.Err(NotImplementedError)

  datatype Kind = Classification | Comparison

  /** `self.type` */
  function TypeName(k: Kind): string {
    match k
    case Classification => "classification"
    case Comparison => "comparison"
  }

  /** `self.metrics`: what the results of each kind are measured with. */
  function Metrics(k: Kind): seq<string> {
    match k
    case Classification => ["accuracy"]
    case Comparison => ["distance"]
  }

  /**
   * The records appended for the keys, in order, and the exception that
   * stopped the loop, if any: the results before it stay appended.
   */
  function Appended(keys: seq<string>, step: Step): (seq<Record>, Option<Error>) {
    if |keys| == 0 then ([], None)
    else
      var (recs, e) := Appended(keys[..|keys| - 1], step);
      if e.Some? then (recs, e)
      else match step(keys[|keys| - 1])
        case Err(x) => (recs, Some(x))
        case Ok(r) => (recs + [r], None)
  }

  lemma AppendedStep(keys: seq<string>, step: Step, i: nat)
    requires i < |keys|
    ensures Appended(keys[..i + 1], step) ==
      var (recs, e) := Appended(keys[..i], step);
      if e.Some? then (recs, e)
      else if step(keys[i]).Err? then (recs, Some(step(keys[i]).error))
      else (recs + [step(keys[i]).value], None)
  {
    assert keys[..i + 1][..i] == keys[..i];
  }

  /**
   * One result per key, in key order, when no key raises; otherwise the
   * results of the keys before the first one that raises, and its
   * exception.
   */
  lemma {:induction false} AppendedMeaning(keys: seq<string>, step: Step)
    ensures var (recs, e) := Appended(keys, step);
      (e.None? <==> forall i :: 0 <= i < |keys| ==> step(keys[i]).Ok?) &&
      (e.None? ==> |recs| == |keys|) &&
      (e.Some? ==> |recs| < |keys| && step(keys[|recs|]) == W.Err(e.value)) &&
      forall i :: 0 <= i < |recs| ==> step(keys[i]) == W.Ok(recs[i])
  {
    if |keys| > 0 {
      var init := keys[..|keys| - 1];
      AppendedMeaning(init, step);
      assert forall i :: 0 <= i < |init| ==> init[i] == keys[i];
    }
  }

  /** A base class answers nothing: the first datapoint raises and no result is appended. */
  lemma NotImplementedAppendsNothing(keys: seq<string>)
    requires |keys| > 0
    ensures Appended(keys, NotImplemented) == ([], Some(NotImplementedError))
  {
    AppendedMeaning(keys, NotImplemented);
  }

  /**
   * `compare_point(orig_set.datapoints[key], new_set.datapoints[key])`:
   * a key the new dataset lacks raises before the module is asked.
   */
  function Paired(compare: Step, newPoints: map<string, PointInfo>): (s: Step) {
    key => if key in newPoints then compare(key) else W.Err(KeyError(key))
  }

  /** A comparison fails exactly at the first key the new dataset lacks or the module rejects. */
  lemma PairedMeaning(compare: Step, newPoints: map<string, PointInfo>, key: string)
    ensures key !in newPoints ==> Paired(compare, newPoints)(key) == W.Err(KeyError(key))
    ensures key in newPoints ==> Paired(compare, newPoints)(key) == compare(key)
  {
  }

  /**
   * The loop of `classify_all` / `compare_all`: one result object per key,
   * appended (and, when the set saves, written) in key order.
   */
  method AppendAll(keys: seq<string>, step: Step, results: ResultSets.ResultSet) returns (err: Option<Error>)
    modifies results
    ensures err == Appended(keys, step).1
    ensures ResultSets.Records(results.results) == old(ResultSets.Records(results.results)) + Appended(keys, step).0
    ensures results.file == old(results.file) + if results.save then ResultSets.LinesOf(Appended(keys, step).0, results.codec) else []
    ensures results.config == old(results.config) && results.datasets == old(results.datasets)
  {
    ghost var before := ResultSets.Records(results.results);
    ghost var file := results.file;
    err := None;
    var i := 0;
    while i < |keys|
      invariant 0 <= i <= |keys|
      invariant Appended(keys[..i], step) == (Appended(keys[..i], step).0, None)
      invariant ResultSets.Records(results.results) == before + Appended(keys[..i], step).0
      invariant results.file == file + if results.save then ResultSets.LinesOf(Appended(keys[..i], step).0, results.codec) else []
      invariant results.config == old(results.config) && results.datasets == old(results.datasets)
    {
      AppendedStep(keys, step, i);
      var answer := step(keys[i]);
      if answer.Err? {
        err := Some(answer.error);
        AppendedRest(keys, step, i + 1);
        return;
      }
      ghost var done := Appended(keys[..i], step).0;
      ghost var recs := ResultSets.Records(results.results);
      var r := new Results.Result.Of(answer.value);
      results.Append(r);
      assert ResultSets.Records(results.results) == recs + [answer.value];
      ResultSets.LinesOfAppend(done, answer.value, results.codec);
      i := i + 1;
    }
    assert keys[..i] == keys;
  }

  /** Once the loop has stopped, later keys change nothing. */
  lemma {:induction false} AppendedRest(keys: seq<string>, step: Step, i: nat)
    requires 0 < i <= |keys| && Appended(keys[..i], step).1.Some?
    ensures Appended(keys, step) == Appended(keys[..i], step)
    decreases |keys| - i
  {
    if i < |keys| {
      AppendedStep(keys, step, i);
      AppendedRest(keys, step, i + 1);
    } else {
      assert keys[..i] == keys;
    }
  }

  /** The module's configuration, once constructed, and what kind it is. */
  datatype Module = Module(kind: Kind, config: Config, enroll: seq<string> -> Option<Error>, step: Step)

  /** `Inference(config)`: `validate_config`, then `init`. */
  function New(kind: Kind, h: Hooks, config: Config, enroll: seq<string> -> Option<Error>, step: Step): (r: W.Result<Module>)
    ensures r.Ok? <==> Construct(h, config).Ok?
    ensures r.Ok? ==> r.value.config == Construct(h, config).value && r.value.kind == kind
  {
    var c :- Construct(h, config);
    W.Ok(Module(kind, c, enroll, step))
  }

  /** Every result set an inference writes lives in `results/`. */
  const Folder: string := "results/"

  /**
   * `classify(test_set, save_results)`: a new result set under a fresh
   * name (`stamp`, which no file has yet), then `classify_all`.
   */
  method Classify(m: Module, test: Datasets.Dataset, save: bool, stamp: string, codec: ResultSets.Codec)
    returns (rs: ResultSets.ResultSet, err: Option<Error>)
    ensures fresh(rs) && rs.filename == Folder + stamp + ResultSets.Suffix && rs.save == save
    ensures ResultSets.Records(rs.results) == Appended(test.index.datapoints, m.step).0
    ensures err == Appended(test.index.datapoints, m.step).1
  {
    rs := NewSet(save, stamp, codec);
    err := AppendAll(test.index.datapoints, m.step, rs);
  }

  /** `ResultSet.new(folder="results/", save=save)` for a name no file has. */
  method NewSet(save: bool, stamp: string, codec: ResultSets.Codec) returns (rs: ResultSets.ResultSet)
    ensures fresh(rs) && rs.filename == Folder + stamp + ResultSets.Suffix && rs.save == save
    ensures rs.results == [] && rs.file == []
  {
    var made := ResultSets.ResultSet.Open(Folder + stamp + ResultSets.Suffix, save, None, codec);
    rs := made.value;
    assert |ResultSets.Records(rs.results)| == |rs.results|;
  }

  /**
   * `Classification.run(set1, set2, save)`: enroll the first dataset, then
   * classify the second; a failing enrollment classifies nothing.
   */
  method RunClassification(m: Module, set1: Datasets.Dataset, set2: Datasets.Dataset, save: bool, stamp: string, codec: ResultSets.Codec)
    returns (r: W.Result<ResultSets.ResultSet>)
    requires m.kind == Classification
    ensures m.enroll(set1.index.datapoints).Some? ==> r == W.Err(m.enroll(set1.index.datapoints).value)
    ensures r.Ok? <==> m.enroll(set1.index.datapoints).None? && Appended(set2.index.datapoints, m.step).1.None?
    ensures r.Ok? ==> fresh(r.value) && ResultSets.Records(r.value.results) == Appended(set2.index.datapoints, m.step).0
    ensures r.Ok? ==> r.value.save == save
    ensures r.Err? && m.enroll(set1.index.datapoints).None? ==> r == W.Err(Appended(set2.index.datapoints, m.step).1.value)
  {
    var e := m.enroll(set1.index.datapoints);
    if e.Some? {
      return W.Err(e.value);
    }
    var rs, err := Classify(m, set2, save, stamp, codec);
    if err.Some? {
      return W.Err(err.value);
    }
    r := W.Ok(rs);
  }

  /**
   * `Comparison.run(orig_set, new_set, save)` = `compare`: a new result set,
   * then one comparison per key of the original dataset, in its order.
   */
  method RunComparison(m: Module, origSet: Datasets.Dataset, newSet: Datasets.Dataset, save: bool, stamp: string, codec: ResultSets.Codec)
    returns (r: W.Result<ResultSets.ResultSet>)
    requires m.kind == Comparison
    ensures var (recs, e) := Appended(origSet.index.datapoints, Paired(m.step, newSet.index.points));
      (r.Ok? <==> e.None?) &&
      (r.Ok? ==> fresh(r.value) && r.value.save == save && ResultSets.Records(r.value.results) == recs) &&
      (r.Err? ==> r.error == e.value)
  {
    var rs := NewSet(save, stamp, codec);
    var err := AppendAll(origSet.index.datapoints, Paired(m.step, newSet.index.points), rs);
    if err.Some? {
      return W.Err(err.value);
    }
    r := W.Ok(rs);
  }

  /**
   * A comparison raises `KeyError` at the first key of the original
   * dataset that the new one lacks, unless the module raised earlier.
   */
  lemma MissingKeyRaises(compare: Step, keys: seq<string>, newPoints: map<string, PointInfo>, j: nat)
    requires j < |keys| && keys[j] !in newPoints
    requires forall i :: 0 <= i < j ==> Paired(compare, newPoints)(keys[i]).Ok?
    ensures var (recs, e) := Appended(keys, Paired(compare, newPoints));
      e.Some? && |recs| <= j && (|recs| == j ==> e.value == KeyError(keys[j]))
  {
    AppendedMeaning(keys, Paired(compare, newPoints));
  }
}

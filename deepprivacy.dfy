/**
 * `DeepprivacyAnonymization`: the external DeepPrivacy program replaces
 * the faces in a dataset's images. The datapoints are taken in rounds of
 * `opt.batch_size`; for each round a `batch` folder is made beside the
 * images, filled with symbolic links to the round's images, handed to
 * the program as both source and target (so its output lands, through
 * the links, on the images themselves), and removed again. A round of a
 * single image is skipped with a warning.
 *
 * The program is a parameter: for a command line and the file names in
 * the batch folder, the images it writes by name, or nothing when it
 * exits with a non-zero code.
 */
module DeepPrivacy {
  import opened Wrappers
  import opened Values
  import opened PyLib
  import opened Store
  import opened Lifecycle
  import opened Batches

  // ----- configuration -----

  const NoBinary: Error := AttributeError("DeepprivacyAnonymization requires location of deepprivacy executable")
  const NotAssignable: Error := TypeError("'opt' does not support item assignment")
  /** The model the program's documentation recommends. */
  const DefaultModel: string := "fdf128_retinanet256"
  /** The batch size the configuration falls back to. */
  const DefaultBatch: int := 2000

  /** The checks both versions of `validate_config` share: `opt` must exist and hold `bin`. */
  function Checked(config: Config): (r: Result<Value>)
    ensures r.Ok? <==> "opt" in config && In("bin", config["opt"]) == Ok(true)
    ensures r.Ok? ==> r.value == config["opt"]
    ensures "opt" !in config || In("bin", config["opt"]) == Ok(false) ==> r == Err(NoBinary)
  {
    if "opt" !in config then Err(NoBinary)
    else
      var has :- In("bin", config["opt"]);
      if !has then Err(NoBinary) else Ok(config["opt"])
  }

  /**
   * `validate_config` as written: when `opt` has no `batch_size`, it is
   * `max_img_batch` that is set to 2000; `model` defaults to the
   * recommended one.
   */
  function ValidateAsWritten(config: Config): (r: Result<Config>)
    ensures r.Ok? ==> "opt" in config && r.value.Keys == config.Keys + {"model"}
    ensures r.Ok? && config["opt"].Dict? && "batch_size" !in config["opt"].entries ==>
      r.value["opt"] == Dict(config["opt"].entries["max_img_batch" := Int(DefaultBatch)])
  {
    var opt :- Checked(config);
    var sized := In("batch_size", opt) == Ok(true);
    var c :- if sized then Ok(config)
      else if opt.Dict? then Ok(config["opt" := Dict(opt.entries["max_img_batch" := Int(DefaultBatch)])])
      else Err(NotAssignable);
    Ok(SetDefault(c, "model", Str(DefaultModel)))
  }

  /**
   * `validate_config` as intended: `opt.bin` is required, a missing
   * `opt.batch_size` becomes 2000, and `model` defaults to the
   * recommended one. An `opt` that is not a mapping passes only if it
   * already "contains" `batch_size`, since otherwise the assignment raises.
   */
  function Validate(config: Config): (r: Result<Config>)
    ensures "opt" !in config ==> r == Err(NoBinary)
    ensures r.Ok? <==> ("opt" in config && In("bin", config["opt"]) == Ok(true) &&
      (config["opt"].Dict? || In("batch_size", config["opt"]) == Ok(true)))
    ensures r.Ok? ==> r.value.Keys == config.Keys + {"model"}
    ensures r.Ok? ==> r.value["model"] == (if "model" in config then config["model"] else Str(DefaultModel))
    ensures r.Ok? ==> forall k :: k in config && k != "opt" ==> r.value[k] == config[k]
    ensures r.Ok? && config["opt"].Dict? ==> (r.value["opt"].Dict? &&
      r.value["opt"].entries == SetDefault(config["opt"].entries, "batch_size", Int(DefaultBatch)))
    ensures r.Ok? && !config["opt"].Dict? ==> r.value["opt"] == config["opt"]
  {
    var opt :- Checked(config);
    var sized := In("batch_size", opt) == Ok(true);
    var c :- if sized then Ok(config)
      else if opt.Dict? then Ok(config["opt" := Dict(opt.entries["batch_size" := Int(DefaultBatch)])])
      else Err(NotAssignable);
    Ok(SetDefault(c, "model", Str(DefaultModel)))
  }

  const DeepprivacyHooks: Hooks := Hooks(Validate, c => None)

  /**
   * `self.config["opt"]["batch_size"]` as `anonymize_all` uses it in
   * `i * batch_size < len(datapoints)` and in the slice bounds, for a
   * dataset of `n` datapoints: an integer (a `bool` counts as 0 or 1); a
   * float passes the comparison but not the slice, so it only survives an
   * empty dataset, where no round runs.
   */
  function BatchSize(config: Config, n: nat): (r: Result<int>)
    ensures r.Ok? <==> ("opt" in config && config["opt"].Dict? && "batch_size" in config["opt"].entries &&
      (config["opt"].entries["batch_size"].Int? || config["opt"].entries["batch_size"].Bool? ||
       (config["opt"].entries["batch_size"].Real? && n == 0)))
    ensures "opt" in config && config["opt"].Dict? && "batch_size" !in config["opt"].entries ==>
      r == Err(KeyError("batch_size"))
    ensures r.Ok? && config["opt"].entries["batch_size"].Int? ==> r.value == config["opt"].entries["batch_size"].i
  {
    var opt :- Index(config, "opt");
    if !opt.Dict? then Err(TypeError("'opt' is not subscriptable by a string"))
    else
      var v :- Index(opt.entries, "batch_size");
      match v
      case Int(i) => Ok(i)
      case Bool(b) => Ok(if b then 1 else 0)
      case Real(_) => if n == 0 then Ok(0) else Err(TypeError("slice indices must be integers"))
      case _ => Err(TypeError("unsupported operand type(s) for *"))
  }

  /**
   * `run_deepprivacy(folder)`: the command line. Source and target are
   * the same folder; every part must be a string.
   */
  function Command(config: Config, folder: string): (r: Result<seq<string>>)
    ensures r.Ok? <==> ("opt" in config && config["opt"].Dict? && "bin" in config["opt"].entries &&
      config["opt"].entries["bin"].Str? && "model" in config && config["model"].Str?)
    ensures r.Ok? ==> |r.value| == 7 && Str(r.value[0]) == config["opt"].entries["bin"] && Str(r.value[2]) == config["model"]
    ensures r.Ok? ==> r.value[1] == "-m" && r.value[3] == "-s" && r.value[5] == "-t"
    ensures r.Ok? ==> r.value[4] == folder && r.value[6] == folder
  {
    var opt :- Index(config, "opt");
    if !opt.Dict? then Err(TypeError("'opt' is not subscriptable by a string"))
    else
      var bin :- Index(opt.entries, "bin");
      var model :- Index(config, "model");
      if !bin.Str? || !model.Str? then Err(TypeError("sequence item: expected str instance"))
      else Ok([bin.s, "-m", model.s, "-s", folder, "-t", folder])
  }

  /**
   * A missing batch size is filled in, so `anonymize_all` finds one; and
   * a validated configuration with a string binary and model yields the
   * command line, with the recommended model when none was given.
   */
  lemma ValidatedRun(config: Config, n: nat, folder: string)
    requires Validate(config).Ok? && config["opt"].Dict?
    ensures "batch_size" !in config["opt"].entries ==> BatchSize(Validate(config).value, n) == Ok(DefaultBatch)
    ensures config["opt"].entries["bin"].Str? && ("model" in config ==> config["model"].Str?) ==>
      Command(Validate(config).value, folder).Ok? &&
      Command(Validate(config).value, folder).value[2] == (if "model" in config then config["model"].s else DefaultModel)
  {
  }

  /**
   * As written, a configuration without `batch_size` validates but makes
   * `anonymize_all` raise `KeyError('batch_size')`: the default goes to
   * `max_img_batch`, a key nothing here reads.
   */
  lemma AsWrittenMissesBatchSize(config: Config, n: nat)
    requires ValidateAsWritten(config).Ok? && config["opt"].Dict? && "batch_size" !in config["opt"].entries
    ensures BatchSize(ValidateAsWritten(config).value, n) == Err(KeyError("batch_size"))
  {
  }

  /** The smallest configuration the documentation allows shows it. */
  lemma AsWrittenExample()
    ensures var config := map["opt" := Dict(map["bin" := Str("deepprivacy")])];
      ValidateAsWritten(config).Ok? && BatchSize(ValidateAsWritten(config).value, 1) == Err(KeyError("batch_size")) &&
      Validate(config).Ok? && BatchSize(Validate(config).value, 1) == Ok(DefaultBatch)
  {
    var config := map["opt" := Dict(map["bin" := Str("deepprivacy")])];
    assert "batch_size" != "bin";
    AsWrittenMissesBatchSize(config, 1);
  }

  // ----- one round -----

  /** The two folders agree about the file `f`: both lack it, or both hold the same. */
  predicate Agrees(a: Folder, b: Folder, f: string) {
    (f in a <==> f in b) && (f in a ==> a[f] == b[f])
  }

  /**
   * The program's output written through the links of the batch folder:
   * each file of the batch it wrote replaces the dataset's file; nothing
   * else in the dataset's folder changes.
   */
  function Overwrite(g: Folder, batch: seq<string>, out: Folder): (h: Folder)
    ensures forall f :: f in batch && f in out ==> f in h && h[f] == out[f]
    ensures forall f :: !(f in batch && f in out) ==> Agrees(h, g, f)
  {
    map f | f in g.Keys + (set x | x in batch && x in out) :: if f in batch && f in out then out[f] else g[f]
  }

  /**
   * `run_batch`: all folders after one round over `batch` in the dataset
   * folder `name`, and the exception it raised. A single image is
   * skipped. An existing batch folder makes `os.mkdir` raise; a command
   * that cannot be built or a program that fails raises after the links
   * were made, leaving the batch folder behind.
   */
  function Round(fs: map<string, Folder>, name: string, batch: seq<string>, cmd: Result<seq<string>>, run: Program):
    (r: (map<string, Folder>, Option<Error>))
    requires name in fs
    ensures name in r.0 && forall f :: f !in batch ==> Agrees(r.0[name], fs[name], f)
    ensures r.1 == None ==> r.0 == fs[name := r.0[name]]
    ensures |batch| == 1 ==> r == (fs, None)
    ensures |batch| != 1 && r.1 == None ==> (cmd.Ok? && run(cmd.value, batch).Some? &&
      r.0[name] == Overwrite(fs[name], batch, run(cmd.value, batch).value))
    ensures |batch| != 1 && r.1 != None && BatchFolder(name) !in fs ==>
      BatchFolder(name) in r.0 && r.0[BatchFolder(name)] == Links(name, batch)
  {
    if |batch| == 1 then (fs, None)
    else
      var folder := BatchFolder(name);
      if folder in fs then (fs, Some(FileExistsError(folder)))
      else
        var linked := fs[folder := Links(name, batch)];
        if cmd.Err? then (linked, Some(cmd.error))
        else match run(cmd.value, batch)
          case None => (linked, Some(RuntimeError(ExitMessage)))
          case Some(out) => (fs[name := Overwrite(fs[name], batch, out)], None)
  }

  /**
   * `run_batch` on the disk: make the batch folder, link every image of
   * the round into it, run the program on it, and remove it.
   */
  method RunBatch(disk: Disk, name: string, batch: seq<string>, cmd: Result<seq<string>>, run: Program) returns (err: Option<Error>)
    requires name in disk.folders
    modifies disk
    ensures disk.metas == old(disk.metas)
    ensures (disk.folders, err) == Round(old(disk.folders), name, batch, cmd, run)
  {
    if |batch| == 1 {
      // log.warn: a batch of one image does not work with DeepPrivacy
      return None;
    }
    var folder := BatchFolder(name);
    var made := disk.Mkdir(folder);
    if made.Err? {
      return Some(made.error);
    }
    LinkAll(disk, folder, name, batch);
    UpdateTwice(old(disk.folders), folder, map[], Links(name, batch));
    if cmd.Err? {
      return Some(cmd.error);
    }
    var out := run(cmd.value, batch);
    if out.None? {
      return Some(RuntimeError(ExitMessage));
    }
    // the program writes through the links onto the dataset's images
    disk.folders := disk.folders[name := Overwrite(disk.folders[name], batch, out.value)];
    disk.RemoveFolder(folder);
    assert disk.folders == old(disk.folders)[name := Overwrite(old(disk.folders)[name], batch, out.value)];
    err := None;
  }

  // ----- all rounds -----

  /** The rounds in order; the first that raises ends the run, keeping what earlier rounds did. */
  function Rounds(fs: map<string, Folder>, name: string, rounds: seq<seq<string>>, cmd: Result<seq<string>>, run: Program):
    (r: (map<string, Folder>, Option<Error>))
    requires name in fs
    ensures name in r.0
    ensures r.1 == None ==> r.0 == fs[name := r.0[name]]
    decreases |rounds|
  {
    if |rounds| == 0 then (fs, None)
    else
      var (h, e) := Round(fs, name, rounds[0], cmd, run);
      if e.Some? then (h, e) else Rounds(h, name, rounds[1..], cmd, run)
  }

  /**
   * `anonymize_all`: all folders after the run over the datapoint files
   * `points` of the dataset folder `name`, and the exception that ended
   * it. A size below 1 loops forever on a non-empty dataset, so it is
   * excluded.
   */
  function Anonymization(fs: map<string, Folder>, name: string, config: Config, points: seq<string>, run: Program):
    (r: (map<string, Folder>, Option<Error>))
    requires name in fs
    requires BatchSize(config, |points|).Ok? && |points| > 0 ==> BatchSize(config, |points|).value > 0
    ensures BatchSize(config, |points|).Err? ==> r == (fs, Some(BatchSize(config, |points|).error))
    ensures name in r.0
  {
    match BatchSize(config, |points|)
    case Err(e) => (fs, Some(e))
    case Ok(size) => Rounds(fs, name, RoundsFrom(points, size, 0), Command(config, BatchFolder(name)), run)
  }

  /** One pass of the loop: the round at `i`, then (if it did not raise) the rounds after it. */
  lemma RoundsUnfold(fs: map<string, Folder>, name: string, points: seq<string>, size: int, i: nat,
                     cmd: Result<seq<string>>, run: Program)
    requires name in fs && size > 0 && i * size < |points|
    ensures var (h, e) := Round(fs, name, Batch(points, size, i), cmd, run);
      Rounds(fs, name, RoundsFrom(points, size, i), cmd, run) ==
        if e.Some? then (h, e) else Rounds(h, name, RoundsFrom(points, size, i + 1), cmd, run)
  {
    var b := Batch(points, size, i);
    RoundsSizes(points, size, i);
    assert RoundsFrom(points, size, i)[0] == b;
    assert RoundsFrom(points, size, i) == [b] + RoundsFrom(points, size, i + 1);
    assert ([b] + RoundsFrom(points, size, i + 1))[1..] == RoundsFrom(points, size, i + 1);
  }

  /** `anonymize_all` on the disk: `while i * batch_size < len(datapoints)`, one round per pass. */
  method AnonymizeAll(disk: Disk, name: string, config: Config, points: seq<string>, run: Program) returns (err: Option<Error>)
    requires name in disk.folders
    requires BatchSize(config, |points|).Ok? && |points| > 0 ==> BatchSize(config, |points|).value > 0
    modifies disk
    ensures disk.metas == old(disk.metas)
    ensures (disk.folders, err) == Anonymization(old(disk.folders), name, config, points, run)
  {
    var sized := BatchSize(config, |points|);
    if sized.Err? {
      return Some(sized.error);
    }
    var size := sized.value;
    var cmd := Command(config, BatchFolder(name));
    ghost var target := Rounds(disk.folders, name, RoundsFrom(points, size, 0), cmd, run);
    err := None;
    var i := 0;
    while i * size < |points|
      invariant name in disk.folders && disk.metas == old(disk.metas) && err == None
      invariant Rounds(disk.folders, name, RoundsFrom(points, size, i), cmd, run) == target
      decreases |points| - i * size
    {
      RoundsUnfold(disk.folders, name, points, size, i, cmd, run);
      var batch := Batch(points, size, i);
      err := RunBatch(disk, name, batch, cmd, run);
      if err.Some? {
        return;
      }
      assert (i + 1) * size == i * size + size;
      i := i + 1;
    }
  }

  // ----- what the rounds do to the images -----

  /** A file that only ever sits in rounds of one image is left as it was, whatever else happens. */
  lemma {:induction false} Untouched(fs: map<string, Folder>, name: string, rounds: seq<seq<string>>,
                                      cmd: Result<seq<string>>, run: Program, f: string)
    requires name in fs
    requires forall k :: 0 <= k < |rounds| && f in rounds[k] ==> |rounds[k]| == 1
    ensures Agrees(Rounds(fs, name, rounds, cmd, run).0[name], fs[name], f)
    decreases |rounds|
  {
    if |rounds| > 0 {
      var (h, e) := Round(fs, name, rounds[0], cmd, run);
      if e.None? {
        forall k | 0 <= k < |rounds| - 1 && f in rounds[1..][k]
          ensures |rounds[1..][k]| == 1
        {
          assert rounds[1..][k] == rounds[k + 1];
        }
        Untouched(h, name, rounds[1..], cmd, run, f);
      }
    }
  }

  /** When every round holds one image, the run changes nothing and raises nothing. */
  lemma {:induction false} AllSkipped(fs: map<string, Folder>, name: string, rounds: seq<seq<string>>,
                                       cmd: Result<seq<string>>, run: Program)
    requires name in fs
    requires forall k :: 0 <= k < |rounds| ==> |rounds[k]| == 1
    ensures Rounds(fs, name, rounds, cmd, run) == (fs, None)
    decreases |rounds|
  {
    if |rounds| > 0 {
      assert forall k :: 0 <= k < |rounds| - 1 ==> rounds[1..][k] == rounds[k + 1];
      AllSkipped(fs, name, rounds[1..], cmd, run);
    }
  }

  /**
   * When the run raises nothing, every image of a round of more than one
   * holds what the program wrote for it in that round (if it wrote it),
   * since no other round touches it.
   */
  lemma {:induction false} RoundEffect(fs: map<string, Folder>, name: string, rounds: seq<seq<string>>,
                                        cmd: Result<seq<string>>, run: Program, k: nat, f: string)
    requires name in fs && Distinct(Flatten(rounds))
    requires k < |rounds| && |rounds[k]| != 1 && f in rounds[k]
    requires Rounds(fs, name, rounds, cmd, run).1 == None
    ensures cmd.Ok? && run(cmd.value, rounds[k]).Some?
    ensures f in run(cmd.value, rounds[k]).value ==>
      f in Rounds(fs, name, rounds, cmd, run).0[name] &&
      Rounds(fs, name, rounds, cmd, run).0[name][f] == run(cmd.value, rounds[k]).value[f]
    decreases |rounds|
  {
    var (h, e) := Round(fs, name, rounds[0], cmd, run);
    var rest := rounds[1..];
    assert rounds == [rounds[0]] + rest;
    FlattenCons(rounds[0], rest);
    DistinctConcat(rounds[0], Flatten(rest));
    if k == 0 {
      forall j | 0 <= j < |rest|
        ensures f !in rest[j]
      {
        DistinctFlattenParts(rounds, 0, j + 1, f);
      }
      Untouched(h, name, rest, cmd, run, f);
    } else {
      RoundEffect(h, name, rest, cmd, run, k - 1, f);
    }
  }

  // ----- the same for the datapoints of a dataset -----

  /** With a positive size the rounds are disjoint, cover the datapoints in order, and hold 1 to `size` files each. */
  lemma BatchesPartition(points: seq<string>, size: int)
    requires size > 0
    ensures Flatten(RoundsFrom(points, size, 0)) == points
    ensures var rs := RoundsFrom(points, size, 0); forall k :: 0 <= k < |rs| ==> 0 < |rs[k]| <= size
    ensures Distinct(points) ==> Distinct(Flatten(RoundsFrom(points, size, 0)))
  {
    RoundsFlatten(points, size, 0);
    RoundsSizes(points, size, 0);
  }

  /** A size of 1 makes every round a single image. */
  lemma UnitRounds(points: seq<string>)
    ensures forall k :: 0 <= k < |RoundsFrom(points, 1, 0)| ==> |RoundsFrom(points, 1, 0)[k]| == 1
  {
    RoundsSizes(points, 1, 0);
  }

  /** A batch size of 1 makes every round a single image: nothing is anonymized and nothing raises. */
  lemma SizeOneSkipsAll(fs: map<string, Folder>, name: string, points: seq<string>, cmd: Result<seq<string>>, run: Program)
    requires name in fs
    ensures Rounds(fs, name, RoundsFrom(points, 1, 0), cmd, run) == (fs, None)
  {
    UnitRounds(points);
    AllSkipped(fs, name, RoundsFrom(points, 1, 0), cmd, run);
  }

  /**
   * When the datapoint count leaves a remainder of one, the last image is
   * a round of its own and stays as it was.
   */
  lemma LoneLastSkipped(fs: map<string, Folder>, name: string, points: seq<string>, size: int,
                        cmd: Result<seq<string>>, run: Program)
    requires name in fs && size > 0 && Distinct(points) && |points| % size == 1
    ensures Agrees(Rounds(fs, name, RoundsFrom(points, size, 0), cmd, run).0[name], fs[name], points[|points| - 1])
  {
    var n := |points|;
    var rs := RoundsFrom(points, size, 0);
    var f := points[n - 1];
    LoneLast(points, size);
    BatchesPartition(points, size);
    forall k | 0 <= k < |rs| - 1
      ensures f !in rs[k]
    {
      DistinctFlattenParts(rs, |rs| - 1, k, f);
    }
    Untouched(fs, name, rs, cmd, run, f);
  }

  /**
   * When the run raises nothing, each datapoint in a round of more than
   * one image holds what the program wrote for that round.
   */
  lemma PointAnonymized(fs: map<string, Folder>, name: string, points: seq<string>, size: int,
                        cmd: Result<seq<string>>, run: Program, k: nat, f: string)
    requires name in fs && size > 0 && Distinct(points)
    requires var rs := RoundsFrom(points, size, 0); k < |rs| && |rs[k]| > 1 && f in rs[k]
    requires Rounds(fs, name, RoundsFrom(points, size, 0), cmd, run).1 == None
    ensures cmd.Ok? && run(cmd.value, RoundsFrom(points, size, 0)[k]).Some?
    ensures var out := run(cmd.value, RoundsFrom(points, size, 0)[k]).value;
      f in out ==> (f in Rounds(fs, name, RoundsFrom(points, size, 0), cmd, run).0[name] &&
        Rounds(fs, name, RoundsFrom(points, size, 0), cmd, run).0[name][f] == out[f])
  {
    BatchesPartition(points, size);
    RoundEffect(fs, name, RoundsFrom(points, size, 0), cmd, run, k, f);
  }
}

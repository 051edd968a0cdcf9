/**
 * `FawkesAnonymization`: the external fawkes program cloaks the images of
 * a dataset. Small datasets are cloaked in one run over the dataset's
 * folder; larger ones in rounds of at most `max_img_batch` images, each
 * round in a `batch` sub-folder. Every cloaked image then replaces the
 * datapoint's file.
 *
 * The program itself is a parameter: what it writes into the folder it
 * runs on, given its command line and the images there, or its failure.
 */
module Fawkes {
  import opened Wrappers
  import opened Values
  import opened Text
  import opened PyLib
  import opened Store
  import opened Lifecycle
  import Utils
  import opened Batches

  // ----- configuration -----

  const NoBinary: Error := AttributeError("FawkesAnonymization requires location of fawkes executable")
  const NotMapping: Error := TypeError("'opt' does not support item assignment")

  /** The option defaults `validate_config` fills into `opt`. */
  function OptDefaults(opt: Config): (o: Config)
    ensures o.Keys == opt.Keys + {"batch_size", "gpu", "max_img_batch"}
    ensures o["batch_size"] == (if "batch_size" in opt then opt["batch_size"] else Str("1"))
    ensures o["gpu"] == (if "gpu" in opt then opt["gpu"] else Null)
    ensures o["max_img_batch"] == (if "max_img_batch" in opt then opt["max_img_batch"] else Int(10000))
    ensures forall k :: k in opt ==> o[k] == opt[k]
  {
    SetDefault(SetDefault(SetDefault(opt, "batch_size", Str("1")), "gpu", Null), "max_img_batch", Int(10000))
  }

  /**
   * `validate_config`: `opt.bin` is required; `mode` defaults to `"mid"`,
   * `no_align` to `False`, and the options as `OptDefaults` says.
   */
  function Validate(config: Config): (r: Result<Config>)
    ensures "opt" !in config ==> r == Err(NoBinary)
    ensures "opt" in config && In("bin", config["opt"]) == Ok(false) ==> r == Err(NoBinary)
    ensures r.Ok? <==> "opt" in config && config["opt"].Dict? && "bin" in config["opt"].entries
    ensures r.Ok? ==> r.value.Keys == config.Keys + {"mode", "no_align"}
    ensures r.Ok? ==> r.value["opt"] == Dict(OptDefaults(config["opt"].entries))
    ensures r.Ok? ==> r.value["mode"] == (if "mode" in config then config["mode"] else Str("mid"))
    ensures r.Ok? ==> r.value["no_align"] == (if "no_align" in config then config["no_align"] else Bool(false))
    ensures r.Ok? ==> forall k :: k in config && k != "opt" ==> k in r.value && r.value[k] == config[k]
  {
    if "opt" !in config then Err(NoBinary)
    else
      var has :- In("bin", config["opt"]);
      if !has then Err(NoBinary)
      else if !config["opt"].Dict? then Err(NotMapping)
      else
        var c := SetDefault(SetDefault(config, "mode", Str("mid")), "no_align", Bool(false));
        Ok(c["opt" := Dict(OptDefaults(config["opt"].entries))])
  }

  const FawkesHooks: Hooks := Hooks(Validate, c => None)

  /** `str(v)` for the option values a command line carries. */
  function Shown(v: Value): (r: Result<string>)
    ensures v.Str? ==> r == Ok(v.s)
    ensures v.Int? ==> r == Ok(Utils.IntToString(v.i))
    ensures r.Ok? <==> v.Str? || v.Int? || v.Bool? || v.Null?
  {
    match v
    case Str(s) => Ok(s)
    case Int(i) => Ok(Utils.IntToString(i))
    case Bool(b) => Ok(if b then "True" else "False")
    case Null => Ok("None")
    case _ => Err(TypeError("str() of this value is not modelled"))
  }

  /**
   * Every value `run_fawkes` reads is there, and the batch size and the
   * GPU can be shown with `str`.
   */
  predicate Complete(config: Config)
    requires "opt" in config && config["opt"].Dict?
  {
    var opt := config["opt"].entries;
    "bin" in opt && "mode" in config && "batch_size" in opt && "no_align" in config && "gpu" in opt &&
    Shown(opt["batch_size"]).Ok? && Shown(opt["gpu"]).Ok?
  }

  /**
   * `run_fawkes`: the command line for one run over `folder`, writing
   * images in format `ext`. `bin` and `mode` go onto it as they are, so
   * anything but a string makes `exec_ext_cmd` raise `TypeError` when it
   * joins the line, before the program starts.
   */
  function Command(config: Config, folder: string, ext: string): (r: Result<seq<string>>)
    requires "opt" in config && config["opt"].Dict?
    ensures r.Ok? <==> Complete(config) && config["opt"].entries["bin"].Str? && config["mode"].Str?
    ensures Complete(config) && !(config["opt"].entries["bin"].Str? && config["mode"].Str?) ==> r.Err? && r.error.TypeError?
    ensures r.Ok? ==> |r.value| >= 10 && r.value[0] == config["opt"].entries["bin"].s
    ensures r.Ok? ==> r.value[1..4] == ["-d", folder, "-m"] && r.value[4] == config["mode"].s
    ensures r.Ok? ==> r.value[5..7] == ["--batch-size", Shown(config["opt"].entries["batch_size"]).value]
    ensures r.Ok? ==> r.value[7..10] == ["--format", ext, "--separate_target"]
    ensures r.Ok? ==> (Truthy(config["no_align"]) <==> |r.value| > 10 && r.value[10] == "--no-align")
    ensures r.Ok? && config["opt"].entries["gpu"] != Null ==>
      r.value[|r.value| - 2] == "-g" && Shown(config["opt"].entries["gpu"]) == Ok(r.value[|r.value| - 1])
    ensures r.Ok? ==> |r.value| == 10 + (if Truthy(config["no_align"]) then 1 else 0) + (if config["opt"].entries["gpu"] != Null then 2 else 0)
  {
    var opt := config["opt"].entries;
    var bin :- Index(opt, "bin");
    var mode :- Index(config, "mode");
    var size :- Index(opt, "batch_size");
    var sizeText :- Shown(size);
    var noAlign :- Index(config, "no_align");
    var gpu :- Index(opt, "gpu");
    var gpuText :- Shown(gpu);
    if !bin.Str? || !mode.Str? then Err(TypeError("sequence item: expected str instance"))
    else
      var cmd := [bin.s, "-d", folder, "-m", mode.s, "--batch-size", sizeText, "--format", ext, "--separate_target"];
      var aligned := if Truthy(noAlign) then cmd + ["--no-align"] else cmd;
      Ok(if gpu != Null then aligned + ["-g", gpuText] else aligned)
  }

  /** With nothing but the binary configured, the defaults give the plain command line. */
  lemma DefaultCommand(bin: string, folder: string, ext: string)
    ensures var config := Validate(map["opt" := Dict(map["bin" := Str(bin)])]);
      config.Ok? && Command(config.value, folder, ext) ==
        Ok([bin, "-d", folder, "-m", "mid", "--batch-size", "1", "--format", ext, "--separate_target"])
  {
    var config := map["opt" := Dict(map["bin" := Str(bin)])];
    var c := Validate(config).value;
    var opt := c["opt"].entries;
    assert opt == OptDefaults(map["bin" := Str(bin)]);
    assert opt["bin"] == Str(bin) && opt["batch_size"] == Str("1") && opt["gpu"] == Null;
    assert c["mode"] == Str("mid") && c["no_align"] == Bool(false);
    assert Complete(c);
  }

  // ----- file names -----

  /** `ffilename`: the name fawkes gives the cloaked version of an image. */
  function FFilename(name: string, ext: string): string {
    Replace(Replace(name, "." + ext, "_cloaked." + ext), ".jpg", ".jpeg")
  }

  lemma {:induction false} DotFree(s: string, t: string)
    requires '.' !in s && |t| > 0 && t[0] == '.'
    ensures !Contains(s, t)
    decreases |s|
  {
    if |s| > 0 {
      assert s[1..] == s[1..];
      DotFree(s[1..], t);
    }
  }

  lemma ReplaceWhole(s: string, rep: string)
    requires |s| > 0
    ensures Replace(s, s, rep) == rep
  {
    assert s[|s|..] == [];
  }

  /** The first replacement: the only `.ext` in a dot-free stem followed by `.ext` is the last one. */
  lemma CloakFirst(stem: string, ext: string)
    requires '.' !in stem
    ensures Replace(stem + "." + ext, "." + ext, "_cloaked." + ext) == (stem + "_cloaked") + ("." + ext)
  {
    var dotted := "." + ext;
    var rep := "_cloaked." + ext;
    DotFree(stem, ".");
    assert stem + "." + ext == stem + dotted;
    ReplaceAppendsPrefix(stem, dotted, dotted, rep);
    ReplaceWhole(dotted, rep);
    assert stem + rep == (stem + "_cloaked") + dotted;
  }

  /** The second replacement: a `.jpg` can only start at the one dot. */
  lemma CloakSecond(head: string, ext: string)
    requires '.' !in head && '.' !in ext
    ensures Replace(head + ("." + ext), ".jpg", ".jpeg") ==
      head + (if StartsWith(ext, "jpg") then ".jpeg" + ext[3..] else "." + ext)
  {
    var dotted := "." + ext;
    DotFree(head, ".");
    ReplaceAppendsPrefix(head, dotted, ".jpg", ".jpeg");
    if StartsWith(ext, "jpg") {
      assert StartsWith(dotted, ".jpg");
      assert dotted[4..] == ext[3..];
      assert '.' !in ext[3..];
      DotFree(ext[3..], ".jpg");
      ReplaceAbsent(ext[3..], ".jpg", ".jpeg");
    } else {
      assert |dotted| >= 4 ==> dotted[1..4] == ext[..3];
      assert !StartsWith(dotted, ".jpg");
      assert dotted[1..] == ext;
      DotFree(ext, ".jpg");
      ReplaceAbsent(ext, ".jpg", ".jpeg");
    }
  }

  /**
   * For a file `stem.ext` whose stem and extension hold no dot, the cloaked
   * file is `stem_cloaked.ext`, except that an extension starting with
   * `jpg` is written `jpeg`.
   */
  lemma CloakedName(stem: string, ext: string)
    requires '.' !in stem && '.' !in ext
    ensures FFilename(stem + "." + ext, ext) ==
      stem + "_cloaked." + (if StartsWith(ext, "jpg") then "jpeg" + ext[3..] else ext)
  {
    var head := stem + "_cloaked";
    assert '.' !in head by {
      assert '.' !in "_cloaked";
    }
    CloakFirst(stem, ext);
    assert FFilename(stem + "." + ext, ext) == Replace(head + ("." + ext), ".jpg", ".jpeg");
    CloakSecond(head, ext);
    CloakedSpelling(stem, ext, StartsWith(ext, "jpg"));
  }

  lemma CloakedSpelling(stem: string, ext: string, jpg: bool)
    requires jpg ==> |ext| >= 3
    ensures (stem + "_cloaked") + (if jpg then ".jpeg" + ext[3..] else "." + ext) ==
      stem + "_cloaked." + (if jpg then "jpeg" + ext[3..] else ext)
  {
  }

  // ----- moving cloaked images back -----

  /** A datapoint as `anonymize_all` uses it: its file in the dataset folder and its extension. */
  datatype Image = Image(file: string, ext: string)

  function Cloaked(p: Image): string {
    FFilename(p.file, p.ext)
  }

  function Files(batch: seq<Image>): (fs: seq<string>)
    ensures |fs| == |batch| && forall i :: 0 <= i < |batch| ==> fs[i] == batch[i].file
  {
    seq(|batch|, i requires 0 <= i < |batch| => batch[i].file)
  }


  /**
   * `os.replace(cloaked, point)` for every image of a round, in order,
   * taking the cloaked files from `out`; a missing one raises and stops the
   * round, keeping what was moved before it.
   */
  function MoveIn(g: Folder, out: Folder, batch: seq<Image>): (Folder, Folder, Option<Error>)
    decreases |batch|
  {
    if |batch| == 0 then (g, out, None)
    else
      var (h, rest, e) := MoveIn(g, out, batch[..|batch| - 1]);
      var p := batch[|batch| - 1];
      if e.Some? then (h, rest, e)
      else if Cloaked(p) !in rest then (h, rest, Some(FileNotFoundError(Cloaked(p))))
      else (h[p.file := rest[Cloaked(p)]], rest - {Cloaked(p)}, None)
  }

  /** One more image: what `MoveIn` does with the next image once the images before it moved. */
  lemma MoveInStep(g: Folder, out: Folder, batch: seq<Image>, i: nat, h: Folder, rest: Folder)
    requires i < |batch| && MoveIn(g, out, batch[..i]) == (h, rest, None)
    ensures Cloaked(batch[i]) !in rest ==>
      MoveIn(g, out, batch[..i + 1]) == (h, rest, Some(FileNotFoundError(Cloaked(batch[i]))))
    ensures Cloaked(batch[i]) in rest ==>
      MoveIn(g, out, batch[..i + 1]) == (h[batch[i].file := rest[Cloaked(batch[i])]], rest - {Cloaked(batch[i])}, None)
  {
    assert batch[..i + 1][..i] == batch[..i];
  }

  /** The cloaked name of every image, in order. */
  function CloakedNames(batch: seq<Image>): (ns: seq<string>)
    ensures |ns| == |batch| && forall i :: 0 <= i < |batch| ==> ns[i] == Cloaked(batch[i])
  {
    seq(|batch|, i requires 0 <= i < |batch| => Cloaked(batch[i]))
  }

  lemma LastOf(batch: seq<Image>)
    requires |batch| > 0
    ensures Files(batch) == Files(batch[..|batch| - 1]) + [batch[|batch| - 1].file]
    ensures CloakedNames(batch) == CloakedNames(batch[..|batch| - 1]) + [Cloaked(batch[|batch| - 1])]
  {
  }

  /**
   * When every cloaked file a round expects is there, under distinct
   * names, the round completes: every image's file now holds its cloaked
   * version, and no other file of the folder changes.
   */
  lemma {:induction false} MoveInMeaning(g: Folder, out: Folder, batch: seq<Image>)
    requires forall i :: 0 <= i < |batch| ==> Cloaked(batch[i]) in out
    requires Distinct(CloakedNames(batch)) && Distinct(Files(batch))
    ensures var (h, rest, e) := MoveIn(g, out, batch);
      e == None &&
      (forall i :: 0 <= i < |batch| ==> batch[i].file in h && h[batch[i].file] == out[Cloaked(batch[i])]) &&
      (forall f :: f !in Files(batch) ==> (f in h <==> f in g) && (f in g ==> h[f] == g[f])) &&
      (forall k :: k in out && k !in CloakedNames(batch) ==> k in rest) &&
      (forall k :: k in rest ==> k in out && rest[k] == out[k])
    decreases |batch|
  {
    if |batch| > 0 {
      var init := batch[..|batch| - 1];
      var p := batch[|batch| - 1];
      LastOf(batch);
      DistinctConcat(Files(init), [p.file]);
      DistinctConcat(CloakedNames(init), [Cloaked(p)]);
      MoveInMeaning(g, out, init);
      forall i | 0 <= i < |init|
        ensures batch[i] == init[i] && batch[i].file != p.file
      {
        assert Files(batch)[i] == batch[i].file;
      }
    }
  }

  /**
   * `os.replace(cloaked, point)` for every image of the single run, in
   * order, within the dataset's own folder: the cloaked file takes the
   * image's name. A missing one raises and stops the run.
   */
  function MoveWithin(g: Folder, batch: seq<Image>): (Folder, Option<Error>)
    decreases |batch|
  {
    if |batch| == 0 then (g, None)
    else
      var (h, e) := MoveWithin(g, batch[..|batch| - 1]);
      var p := batch[|batch| - 1];
      if e.Some? then (h, e)
      else if Cloaked(p) !in h then (h, Some(FileNotFoundError(Cloaked(p))))
      else ((h - {Cloaked(p)})[p.file := h[Cloaked(p)]], None)
  }

  /**
   * When fawkes wrote every cloaked file the run expects, under distinct
   * names none of which is the name of an image, the run completes: every
   * image's file holds its cloaked version, the cloaked names are gone,
   * and every other file is as it was.
   */
  lemma {:induction false} MoveWithinMeaning(g: Folder, batch: seq<Image>)
    requires forall i :: 0 <= i < |batch| ==> Cloaked(batch[i]) in g && Cloaked(batch[i]) !in Files(batch)
    requires Distinct(CloakedNames(batch)) && Distinct(Files(batch))
    ensures var (h, e) := MoveWithin(g, batch);
      e == None &&
      (forall i :: 0 <= i < |batch| ==> batch[i].file in h && h[batch[i].file] == g[Cloaked(batch[i])]) &&
      (forall i :: 0 <= i < |batch| ==> Cloaked(batch[i]) !in h) &&
      (forall f :: f !in Files(batch) && f !in CloakedNames(batch) ==> (f in h <==> f in g) && (f in g ==> h[f] == g[f]))
    decreases |batch|
  {
    if |batch| > 0 {
      var init := batch[..|batch| - 1];
      var p := batch[|batch| - 1];
      LastOf(batch);
      DistinctConcat(Files(init), [p.file]);
      DistinctConcat(CloakedNames(init), [Cloaked(p)]);
      forall i | 0 <= i < |init|
        ensures batch[i] == init[i] && batch[i].file != p.file && Cloaked(init[i]) != Cloaked(p)
        ensures Cloaked(init[i]) in g && Cloaked(init[i]) !in Files(init)
      {
        assert Files(batch)[i] == batch[i].file;
        assert CloakedNames(batch)[i] == Cloaked(batch[i]);
      }
      MoveWithinMeaning(g, init);
    }
  }


  /** `MoveIn` stops at the first image whose cloaked file is missing: the images after it change nothing. */
  lemma {:induction false} MoveInStops(g: Folder, out: Folder, batch: seq<Image>, k: nat)
    requires k <= |batch| && MoveIn(g, out, batch[..k]).2.Some?
    ensures MoveIn(g, out, batch) == MoveIn(g, out, batch[..k])
    decreases |batch|
  {
    if k < |batch| {
      var init := batch[..|batch| - 1];
      assert init[..k] == batch[..k];
      MoveInStops(g, out, init, k);
    } else {
      assert batch[..k] == batch;
    }
  }

  /** `MoveWithin` stops in the same way. */
  lemma {:induction false} MoveWithinStops(g: Folder, batch: seq<Image>, k: nat)
    requires k <= |batch| && MoveWithin(g, batch[..k]).1.Some?
    ensures MoveWithin(g, batch) == MoveWithin(g, batch[..k])
    decreases |batch|
  {
    if k < |batch| {
      var init := batch[..|batch| - 1];
      assert init[..k] == batch[..k];
      MoveWithinStops(g, init, k);
    } else {
      assert batch[..k] == batch;
    }
  }

  // ----- the runs -----

  /**
   * `run_fawkes(folder, ext)` and the `exec_ext_cmd` it ends with: the
   * files fawkes writes, or what was raised. A command line that cannot be
   * built raises before the program starts; a non-zero exit code raises
   * `RuntimeError`.
   */
  function RunFawkes(config: Config, folder: string, ext: string, images: seq<string>, run: Program): (r: Result<Folder>)
    requires "opt" in config && config["opt"].Dict?
    ensures Command(config, folder, ext).Err? ==> r == Err(Command(config, folder, ext).error)
    ensures Command(config, folder, ext).Ok? ==> (r.Ok? <==> run(Command(config, folder, ext).value, images).Some?)
    ensures r.Ok? ==> r == Ok(run(Command(config, folder, ext).value, images).value)
    ensures Command(config, folder, ext).Ok? && r.Err? ==> r.error == RuntimeError(ExitMessage)
  {
    var cmd :- Command(config, folder, ext);
    match run(cmd, images)
    case None => Err(RuntimeError(ExitMessage))
    case Some(out) => Ok(out)
  }

  /**
   * The single run: fawkes runs on the dataset's own folder and writes its
   * cloaked files there, and each is moved over its image. When fawkes
   * raises, no image is moved.
   */
  function RunInPlace(g: Folder, name: string, config: Config, points: seq<Image>, run: Program): (r: (Folder, Option<Error>))
    requires |points| > 0 && "opt" in config && config["opt"].Dict?
    ensures var f := RunFawkes(config, name, points[0].ext, Files(points), run);
      (f.Err? ==> r == (g, Some(f.error))) && (f.Ok? ==> r == MoveWithin(g + f.value, points))
  {
    match RunFawkes(config, name, points[0].ext, Files(points), run)
    case Err(e) => (g, Some(e))
    case Ok(out) => MoveWithin(g + out, points)
  }

  /**
   * When the single run's program succeeds and writes every cloaked file
   * the run expects, under distinct names none of which is an image's,
   * every image's file ends holding its cloaked version.
   */
  lemma SingleRunCloaks(g: Folder, name: string, config: Config, points: seq<Image>, run: Program, out: Folder)
    requires |points| > 0 && "opt" in config && config["opt"].Dict?
    requires RunFawkes(config, name, points[0].ext, Files(points), run) == Ok(out)
    requires forall i :: 0 <= i < |points| ==> Cloaked(points[i]) in out && Cloaked(points[i]) !in Files(points)
    requires Distinct(CloakedNames(points)) && Distinct(Files(points))
    ensures var (h, e) := RunInPlace(g, name, config, points, run);
      e == None && forall i :: 0 <= i < |points| ==> points[i].file in h && h[points[i].file] == out[Cloaked(points[i])]
  {
    MoveWithinMeaning(g + out, points);
  }

  /**
   * A round once the `batch` sub-folder `folder` holds its links: run
   * fawkes there, move each cloaked file over its image, and remove the
   * sub-folder. An empty round raises when it looks at its first image.
   * A round that raises leaves the sub-folder behind.
   */
  function Linked(fs: map<string, Folder>, name: string, folder: string, config: Config, batch: seq<Image>, run: Program):
    (r: (map<string, Folder>, Option<Error>))
    requires name in fs && folder in fs && name != folder && "opt" in config && config["opt"].Dict?
    ensures name in r.0
    ensures r.1 == None ==> r.0 == (fs - {folder})[name := r.0[name]]
    ensures r.1 != None ==> folder in r.0
    ensures r.1 == None ==> |batch| > 0 && RunFawkes(config, folder, batch[0].ext, Files(batch), run).Ok?
  {
    if |batch| == 0 then (fs, Some(IndexError))
    else match RunFawkes(config, folder, batch[0].ext, Files(batch), run)
      case Err(e) => (fs, Some(e))
      case Ok(out) =>
        var (h, rest, e) := MoveIn(fs[name], fs[folder] + out, batch);
        if e.Some? then (fs[name := h][folder := rest], e) else (fs[name := h] - {folder}, None)
  }

  /**
   * One round of the batched run: make the `batch` sub-folder (raising if
   * it exists) and link every image of the round into it; then as
   * `Linked` says.
   */
  function Round(fs: map<string, Folder>, name: string, config: Config, batch: seq<Image>, run: Program):
    (r: (map<string, Folder>, Option<Error>))
    requires name in fs && "opt" in config && config["opt"].Dict?
    ensures name in r.0
    ensures r.1 == None ==> r.0 == fs[name := r.0[name]]
    ensures BatchFolder(name) in fs ==> r == (fs, Some(FileExistsError(BatchFolder(name))))
    ensures BatchFolder(name) !in fs && r.1 != None ==> BatchFolder(name) in r.0
    ensures r.1 == None ==> |batch| > 0 && RunFawkes(config, BatchFolder(name), batch[0].ext, Files(batch), run).Ok?
  {
    var folder := BatchFolder(name);
    if folder in fs then (fs, Some(FileExistsError(folder)))
    else
      var linked := fs[folder := Links(name, Files(batch))];
      var r := Linked(linked, name, folder, config, batch, run);
      assert r.1 == None ==> linked - {folder} == fs;
      r
  }

  /**
   * When a round's program succeeds and writes every cloaked file the
   * round expects, under distinct names, the round completes: every
   * image's file holds its cloaked version, and the sub-folder is gone.
   */
  lemma RoundCloaks(fs: map<string, Folder>, name: string, config: Config, batch: seq<Image>, run: Program, out: Folder)
    requires name in fs && BatchFolder(name) !in fs && "opt" in config && config["opt"].Dict? && |batch| > 0
    requires RunFawkes(config, BatchFolder(name), batch[0].ext, Files(batch), run) == Ok(out)
    requires forall i :: 0 <= i < |batch| ==> Cloaked(batch[i]) in out
    requires Distinct(CloakedNames(batch)) && Distinct(Files(batch))
    ensures var (h, e) := Round(fs, name, config, batch, run);
      e == None && BatchFolder(name) !in h &&
      forall i :: 0 <= i < |batch| ==> batch[i].file in h[name] && h[name][batch[i].file] == out[Cloaked(batch[i])]
  {
    var folder := BatchFolder(name);
    var linked := fs[folder := Links(name, Files(batch))];
    assert linked[folder] == Links(name, Files(batch)) && linked[name] == fs[name];
    MoveInMeaning(fs[name], Links(name, Files(batch)) + out, batch);
  }

  /** The rounds in order; the first that raises ends the run, keeping what earlier rounds did. */
  function Rounds(fs: map<string, Folder>, name: string, config: Config, rounds: seq<seq<Image>>, run: Program):
    (r: (map<string, Folder>, Option<Error>))
    requires name in fs && "opt" in config && config["opt"].Dict?
    ensures name in r.0
    ensures r.1 == None ==> r.0 == fs[name := r.0[name]]
    decreases |rounds|
  {
    if |rounds| == 0 then (fs, None)
    else
      var (h, e) := Round(fs, name, config, rounds[0], run);
      if e.Some? then (h, e) else Rounds(h, name, config, rounds[1..], run)
  }

  /** `max_img_batch` as `anonymize_all` uses it: an integer (a `bool` counts as one) or a float. */
  datatype Limit = Count(n: int) | Float(x: real) {
    function Bound(): real {
      match this
      case Count(n) => n as real
      case Float(x) => x
    }
  }

  /** `self.config["opt"]["max_img_batch"]`: any number compares with the dataset's size. */
  function MaxBatch(opt: Config): (r: Result<Limit>)
    ensures "max_img_batch" !in opt ==> r == Err(KeyError("max_img_batch"))
    ensures r.Ok? <==> "max_img_batch" in opt && IsNumber(opt["max_img_batch"])
    ensures r.Ok? ==> r.value.Bound() == NumOf(opt["max_img_batch"])
    ensures r.Ok? ==> (r.value.Float? <==> opt["max_img_batch"].Real?)
    ensures "max_img_batch" in opt && r.Err? ==> r.error.TypeError?
  {
    var v :- Index(opt, "max_img_batch");
    match v
    case Int(i) => Ok(Count(i))
    case Bool(b) => Ok(Count(if b then 1 else 0))
    case Real(x) => Ok(Float(x))
    case _ => Err(TypeError("'<=' not supported between instances of 'int' and this value"))
  }

  /**
   * `anonymize_all`: all folders after the run over the datapoints
   * `points` of the dataset folder `name`, in order, and the exception
   * that ended it. The single run when the dataset has at most
   * `max_img_batch` images; otherwise the rounds of the batched run, whose
   * slices need an integer size, so a float raises there.
   */
  function Cloaking(fs: map<string, Folder>, name: string, config: Config, points: seq<Image>, run: Program):
    (r: (map<string, Folder>, Option<Error>))
    requires name in fs && "opt" in config && config["opt"].Dict?
    ensures name in r.0
    ensures var m := MaxBatch(config["opt"].entries); m.Err? ==> r == (fs, Some(m.error))
    ensures var m := MaxBatch(config["opt"].entries);
      (m.Ok? && m.value.Float? && 0 < |points| && m.value.Bound() < |points| as real) ==> r == (fs, Some(TypeError(SliceMessage)))
    ensures var m := MaxBatch(config["opt"].entries);
      (r.1 == None && |points| > 0) ==> (m.Ok? && (m.value.Count? || |points| as real <= m.value.Bound()))
  {
    match MaxBatch(config["opt"].entries)
    case Err(e) => (fs, Some(e))
    case Ok(limit) =>
      if |points| as real <= limit.Bound() then
        if |points| == 0 then (fs, Some(IndexError))
        else
          var (g, e) := RunInPlace(fs[name], name, config, points, run);
          (fs[name := g], e)
      else match limit
        case Count(size) => Rounds(fs, name, config, RoundsFrom(points, size, 0), run)
        case Float(_) => if |points| == 0 then (fs, None) else (fs, Some(TypeError(SliceMessage)))
  }

  const SliceMessage: string := "slice indices must be integers or None or have an __index__ method"

  // ----- on the disk -----

  /**
   * `for point in batch: os.replace(cloaked, point)` from the batch
   * sub-folder `folder` into the dataset's folder `name`.
   */
  method MoveBack(disk: Disk, name: string, folder: string, batch: seq<Image>) returns (err: Option<Error>)
    requires name in disk.folders && folder in disk.folders && name != folder
    modifies disk
    ensures disk.metas == old(disk.metas)
    ensures var (h, rest, e) := MoveIn(old(disk.folders)[name], old(disk.folders)[folder], batch);
      disk.folders == old(disk.folders)[name := h][folder := rest] && err == e
  {
    var h, rest := disk.folders[name], disk.folders[folder];
    var i := 0;
    assert batch[..0] == [];
    while i < |batch|
      invariant 0 <= i <= |batch|
      invariant MoveIn(old(disk.folders)[name], old(disk.folders)[folder], batch[..i]) == (h, rest, None)
      invariant disk.folders == old(disk.folders) && disk.metas == old(disk.metas)
    {
      var p := batch[i];
      MoveInStep(old(disk.folders)[name], old(disk.folders)[folder], batch, i, h, rest);
      if Cloaked(p) !in rest {
        MoveInStops(old(disk.folders)[name], old(disk.folders)[folder], batch, i + 1);
        disk.folders := disk.folders[name := h][folder := rest];
        return Some(FileNotFoundError(Cloaked(p)));
      }
      h, rest := h[p.file := rest[Cloaked(p)]], rest - {Cloaked(p)};
      i := i + 1;
    }
    assert batch[..i] == batch;
    disk.folders := disk.folders[name := h][folder := rest];
    err := None;
  }

  /** `for point in datapoints: os.replace(cloaked, point)` within the dataset's folder `name`. */
  method MoveAllWithin(disk: Disk, name: string, points: seq<Image>) returns (err: Option<Error>)
    requires name in disk.folders
    modifies disk
    ensures disk.metas == old(disk.metas)
    ensures var (h, e) := MoveWithin(old(disk.folders)[name], points);
      disk.folders == old(disk.folders)[name := h] && err == e
  {
    var here := disk.folders[name];
    var i := 0;
    assert points[..0] == [];
    while i < |points|
      invariant 0 <= i <= |points|
      invariant MoveWithin(old(disk.folders)[name], points[..i]) == (here, None)
      invariant disk.folders == old(disk.folders) && disk.metas == old(disk.metas)
    {
      var p := points[i];
      assert points[..i + 1][..i] == points[..i];
      if Cloaked(p) !in here {
        MoveWithinStops(old(disk.folders)[name], points, i + 1);
        disk.folders := disk.folders[name := here];
        return Some(FileNotFoundError(Cloaked(p)));
      }
      here := (here - {Cloaked(p)})[p.file := here[Cloaked(p)]];
      i := i + 1;
    }
    assert points[..i] == points;
    disk.folders := disk.folders[name := here];
    err := None;
  }

  /** One round on the disk: make the sub-folder, link, run fawkes, move back, remove the sub-folder. */
  method RunRound(disk: Disk, name: string, config: Config, batch: seq<Image>, run: Program) returns (err: Option<Error>)
    requires name in disk.folders && "opt" in config && config["opt"].Dict?
    modifies disk
    ensures disk.metas == old(disk.metas)
    ensures (disk.folders, err) == Round(old(disk.folders), name, config, batch, run)
  {
    var folder := BatchFolder(name);
    ghost var fs := disk.folders;
    var made := disk.Mkdir(folder);
    if made.Err? {
      return Some(made.error);
    }
    LinkAll(disk, folder, name, Files(batch));
    UpdateTwice(fs, folder, map[], Links(name, Files(batch)));
    err := RunLinked(disk, name, folder, config, batch, run);
  }

  /** `Linked` on the disk: run fawkes in the sub-folder, move back, remove the sub-folder. */
  method RunLinked(disk: Disk, name: string, folder: string, config: Config, batch: seq<Image>, run: Program) returns (err: Option<Error>)
    requires name in disk.folders && folder in disk.folders && name != folder && "opt" in config && config["opt"].Dict?
    modifies disk
    ensures disk.metas == old(disk.metas)
    ensures (disk.folders, err) == Linked(old(disk.folders), name, folder, config, batch, run)
  {
    ghost var fs := disk.folders;
    if |batch| == 0 {
      return Some(IndexError);
    }
    var out := RunFawkes(config, folder, batch[0].ext, Files(batch), run);
    if out.Err? {
      return Some(out.error);
    }
    // fawkes writes its cloaked files beside the links
    var written := disk.folders[folder] + out.value;
    disk.folders := disk.folders[folder := written];
    ghost var moved := MoveIn(fs[name], written, batch);
    err := MoveBack(disk, name, folder, batch);
    UpdateApart(fs, folder, name, written, moved.0);
    UpdateTwice(fs[name := moved.0], folder, written, moved.1);
    assert disk.folders == fs[name := moved.0][folder := moved.1];
    if err.Some? {
      return;
    }
    disk.RemoveFolder(folder);
    assert disk.folders == fs[name := moved.0] - {folder};
  }

  /** One pass of the batched run's loop: the round at `i`, then (if it did not raise) the rounds after it. */
  lemma RoundsUnfold(fs: map<string, Folder>, name: string, config: Config, points: seq<Image>, size: int, i: nat, run: Program)
    requires name in fs && "opt" in config && config["opt"].Dict?
    requires i * size < |points| && (size <= 0 ==> i <= 1)
    ensures var (h, e) := Round(fs, name, config, Batch(points, size, i), run);
      Rounds(fs, name, config, RoundsFrom(points, size, i), run) ==
        if e.Some? then (h, e) else Rounds(h, name, config, RoundsFrom(points, size, i + 1), run)
  {
    var b := Batch(points, size, i);
    if b != [] {
      assert RoundsFrom(points, size, i) == [b] + RoundsFrom(points, size, i + 1);
      assert ([b] + RoundsFrom(points, size, i + 1))[1..] == RoundsFrom(points, size, i + 1);
    }
  }

  /** One pass of the batched run: the round at `i` on the disk, and what is left of the rounds after it. */
  method Pass(disk: Disk, name: string, config: Config, points: seq<Image>, size: int, i: nat, run: Program)
    returns (err: Option<Error>)
    requires name in disk.folders && "opt" in config && config["opt"].Dict?
    requires i * size < |points| && (size <= 0 ==> i <= 1)
    modifies disk
    ensures disk.metas == old(disk.metas) && name in disk.folders
    ensures err.Some? ==> (disk.folders, err) == Rounds(old(disk.folders), name, config, RoundsFrom(points, size, i), run)
    ensures err.None? ==> (Batch(points, size, i) != [] &&
      Rounds(disk.folders, name, config, RoundsFrom(points, size, i + 1), run) ==
        Rounds(old(disk.folders), name, config, RoundsFrom(points, size, i), run))
  {
    RoundsUnfold(disk.folders, name, config, points, size, i, run);
    err := RunRound(disk, name, config, Batch(points, size, i), run);
  }

  /** The batched run: `while i * size < len(datapoints)`, one round per pass. */
  method Batched(disk: Disk, name: string, config: Config, points: seq<Image>, size: int, run: Program) returns (err: Option<Error>)
    requires name in disk.folders && "opt" in config && config["opt"].Dict?
    modifies disk
    ensures disk.metas == old(disk.metas)
    ensures (disk.folders, err) == Rounds(old(disk.folders), name, config, RoundsFrom(points, size, 0), run)
  {
    ghost var target := Rounds(disk.folders, name, config, RoundsFrom(points, size, 0), run);
    err := None;
    var i := 0;
    while i * size < |points|
      invariant name in disk.folders && disk.metas == old(disk.metas) && err == None
      invariant Rounds(disk.folders, name, config, RoundsFrom(points, size, i), run) == target
      invariant size <= 0 ==> i <= 1
      decreases if size > 0 then |points| - i * size else 1 - i
    {
      if size <= 0 && i >= 1 {
        LaterRoundsEmpty(points, size, i);
      }
      err := Pass(disk, name, config, points, size, i, run);
      if err.Some? {
        return;
      }
      assert (i + 1) * size == i * size + size;
      i := i + 1;
    }
  }

  /** `anonymize_all` on the disk. */
  method AnonymizeAll(disk: Disk, name: string, config: Config, points: seq<Image>, run: Program) returns (err: Option<Error>)
    requires name in disk.folders && "opt" in config && config["opt"].Dict?
    modifies disk
    ensures disk.metas == old(disk.metas)
    ensures (disk.folders, err) == Cloaking(old(disk.folders), name, config, points, run)
  {
    var limit := MaxBatch(config["opt"].entries);
    if limit.Err? {
      return Some(limit.error);
    }
    if |points| as real <= limit.value.Bound() {
      if |points| == 0 {
        return Some(IndexError);
      }
      var out := RunFawkes(config, name, points[0].ext, Files(points), run);
      if out.Err? {
        assert old(disk.folders)[name := old(disk.folders)[name]] == old(disk.folders);
        return Some(out.error);
      }
      disk.folders := disk.folders[name := disk.folders[name] + out.value];
      ghost var written := disk.folders;
      err := MoveAllWithin(disk, name, points);
      UpdateTwice(old(disk.folders), name, written[name], disk.folders[name]);
      assert (disk.folders[name], err) == RunInPlace(old(disk.folders)[name], name, config, points, run);
      assert Cloaking(old(disk.folders), name, config, points, run) ==
        (old(disk.folders)[name := disk.folders[name]], err);
      return;
    }
    match limit.value
    case Count(size) =>
      err := Batched(disk, name, config, points, size, run);
    case Float(_) =>
      // the first slice `[0 * x : 1 * x]` needs integer bounds
      if |points| > 0 {
        err := Some(TypeError(SliceMessage));
      } else {
        err := None;
      }
  }
}

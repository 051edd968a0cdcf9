/**
 * `ResultSet`: the results of one evaluation, kept in memory and streamed
 * to a results file, one text line per result:
 *
 *   identity,picture_id,id|dist,id|dist,...
 *
 * with a `config,<json>` line and a `dataset,role:name,...` line holding
 * the context that produced them. `ResultsManager` finds earlier result
 * files by their configuration or by a dataset they used.
 */
module ResultSets {
  import W = Wrappers
  import opened Wrappers
  import opened Values
  import opened Text
  import opened PyLib
  import opened Results

  /**
   * The text forms the file relies on and this model does not define:
   * `str(float)` and `float(str)` on distances, `json.dumps` and
   * `json.loads` on configurations.
   */
  datatype Codec = Codec(
    showDist: real -> string,
    parseDist: string -> Option<real>,
    dumpJson: Value -> string,
    loadJson: string -> Option<Value>)

  /** The round trips the file format depends on. */
  ghost predicate Faithful(codec: Codec) {
    && (forall d :: codec.parseDist(codec.showDist(d)) == Some(d))
    && (forall d :: ',' !in codec.showDist(d) && '|' !in codec.showDist(d))
    && (forall v :: codec.loadJson(codec.dumpJson(v)) == Some(v))
  }

  /** A key of the `datasets` mapping read back from a file: a role, or a position. */
  datatype DatasetKey = Role(name: string) | Position(index: nat)

  // ---------------------------------------------------------------------
  // The line format

  function FieldOf(c: Candidate, codec: Codec): string {
    c.id + "|" + codec.showDist(c.dist)
  }

  function FieldsOf(cs: seq<Candidate>, codec: Codec): (fs: seq<string>)
    ensures |fs| == |cs|
    ensures forall i :: 0 <= i < |cs| ==> fs[i] == FieldOf(cs[i], codec)
  {
    seq(|cs|, i requires 0 <= i < |cs| => FieldOf(cs[i], codec))
  }

  /** The line `append_save` writes for a result (its line break aside). */
  function LineOf(r: Record, codec: Codec): string {
    r.identity + "," + r.pictureId + "," + Join(FieldsOf(r.recognized, codec), ',')
  }

  /** The configuration line `save_context` writes. */
  function ConfigLineOf(config: Value, codec: Codec): string {
    "config," + codec.dumpJson(config)
  }

  function PairsOf(items: seq<(string, string)>): (ps: seq<string>)
    ensures |ps| == |items|
    ensures forall i :: 0 <= i < |items| ==> ps[i] == items[i].0 + ":" + items[i].1
  {
    seq(|items|, i requires 0 <= i < |items| => items[i].0 + ":" + items[i].1)
  }

  /** The dataset line `save_context` writes, from the mapping's items in order. */
  function DatasetLineOf(items: seq<(string, string)>): string {
    "dataset," + Join(PairsOf(items), ',')
  }

  /** `dict(items)` with role keys: a later item overrides an earlier one. */
  function MapOf(items: seq<(string, string)>): (m: map<DatasetKey, string>)
    ensures forall k :: k in m <==> k.Role? && exists i :: 0 <= i < |items| && items[i].0 == k.name
  {
    if |items| == 0 then map[]
    else
      var init := items[..|items| - 1];
      var m := MapOf(init);
      assert forall i :: 0 <= i < |init| ==> init[i] == items[i];
      m[Role(items[|items| - 1].0) := items[|items| - 1].1]
  }

  // ---------------------------------------------------------------------
  // Reading lines back

  /** What one line of a results file holds. */
  datatype Line = ConfigLine(config: Value) | DatasetLine(datasets: map<DatasetKey, string>) | ResultLine(record: Record)

  /**
   * One candidate field: `id|dist` becomes `add_recognized(id, dist)`,
   * a bare `id` takes the default distance 0.0, and a field with more
   * parts passes too many arguments.
   */
  function ParseField(field: string, codec: Codec): (r: W.Result<Candidate>)
    ensures |Split(field, '|')| == 1 ==> r == W.Ok(Candidate(field, 0.0))
    ensures |Split(field, '|')| > 2 ==> r.Err? && r.error.TypeError?
    ensures r.Ok? ==> r.value.id == Split(field, '|')[0]
  {
    var sub := Split(field, '|');
    if |sub| == 1 then
      SplitJoin(field, '|');
      W.Ok(Candidate(sub[0], 0.0))
    else if |sub| == 2 then
      match codec.parseDist(sub[1])
      case Some(d) => W.Ok(Candidate(sub[0], d))
      case None => W.Err(W.ValueError("could not convert string to float: " + sub[1]))
    else W.Err(W.TypeError("add_recognized() takes from 2 to 3 positional arguments"))
  }

  /** The candidate fields of a result line, in order, skipping empty ones. */
  function ParseFields(fields: seq<string>, codec: Codec): (r: W.Result<seq<Candidate>>)
    ensures r.Ok? ==> |r.value| <= |fields|
  {
    if |fields| == 0 then W.Ok([])
    else
      var init :- ParseFields(fields[..|fields| - 1], codec);
      var last := fields[|fields| - 1];
      if last == "" then W.Ok(init)
      else
        var c :- ParseField(last, codec);
        W.Ok(init + [c])
  }

  /** `dict(map(lambda x: x.split(":"), pairs))`: every pair must split in two. */
  function ParsePairs(pairs: seq<string>): (r: W.Result<map<DatasetKey, string>>)
    ensures r.Ok? <==> forall i :: 0 <= i < |pairs| ==> |Split(pairs[i], ':')| == 2
  {
    if |pairs| == 0 then W.Ok(map[])
    else
      var init := pairs[..|pairs| - 1];
      assert forall i :: 0 <= i < |init| ==> init[i] == pairs[i];
      var m :- ParsePairs(init);
      var sp := Split(pairs[|pairs| - 1], ':');
      if |sp| != 2 then W.Err(W.ValueError("dictionary update sequence element has length " + NatToString(|sp|) + "; 2 is required"))
      else W.Ok(m[Role(sp[0]) := sp[1]])
  }

  /** `dict(zip(range(len(names)), names))`. */
  function Positional(names: seq<string>): (m: map<DatasetKey, string>)
    ensures forall k :: k in m <==> k.Position? && k.index < |names|
    ensures forall i :: 0 <= i < |names| ==> m[Position(i)] == names[i]
  {
    map k | k in (set i | 0 <= i < |names| :: Position(i)) :: names[k.index]
  }

  /**
   * One line of `load`: a context line by its first field, otherwise a
   * result needing at least an identity and a picture id.
   */
  function ParseLine(line: string, codec: Codec): (r: W.Result<Line>)
    ensures var parts := Split(line, ',');
            parts[0] != "config" && parts[0] != "dataset" && |parts| < 2 ==>
              r == W.Err(W.AttributeError("invalid syntax in results file"))
    ensures r.Ok? && r.value.ResultLine? ==>
              var parts := Split(line, ',');
              |parts| >= 2 && r.value.record.identity == parts[0] && r.value.record.pictureId == parts[1]
    ensures r.Ok? && r.value.ResultLine? ==> |r.value.record.recognized| <= |Split(line, ',')| - 2
  {
    var parts := Split(line, ',');
    if parts[0] == "config" then
      match codec.loadJson(Join(parts[1..], ','))
      case Some(v) => W.Ok(ConfigLine(v))
      case None => W.Err(W.ValueError("invalid JSON"))
    else if parts[0] == "dataset" then
      if |parts| < 2 then W.Err(W.IndexError)
      else if ':' in parts[1] then
        var m :- ParsePairs(parts[1..]);
        W.Ok(DatasetLine(m))
      else W.Ok(DatasetLine(Positional(parts[1..])))
    else if |parts| < 2 then W.Err(W.AttributeError("invalid syntax in results file"))
    else
      var cs :- ParseFields(parts[2..], codec);
      W.Ok(ResultLine(Record(parts[0], parts[1], cs)))
  }

  /** What a loaded results file gives: the last context lines and the results in order. */
  datatype Contents = Contents(config: Value, datasets: map<DatasetKey, string>, records: seq<Record>)

  /** The state of a set before anything is loaded. */
  const Empty: Contents := Contents(Dict(map[]), map[], [])

  /** What a new set holds: nothing without a file, otherwise what loading the file gives. */
  function Opened(existing: Option<seq<string>>, codec: Codec): W.Result<Contents> {
    if existing.Some? then Loaded(existing.value, codec) else W.Ok(Empty)
  }

  /** `load` over the lines: the first bad line raises. */
  function Loaded(lines: seq<string>, codec: Codec): (r: W.Result<Contents>)
    ensures r.Ok? ==> |r.value.records| <= |lines|
  {
    if |lines| == 0 then W.Ok(Empty)
    else
      var before :- Loaded(lines[..|lines| - 1], codec);
      var line :- ParseLine(lines[|lines| - 1], codec);
      W.Ok(Apply(before, line))
  }

  /** What one read line does: a context line replaces that context, a result line is appended. */
  function Apply(before: Contents, line: Line): (after: Contents)
    ensures line.ResultLine? ==> after.records == before.records + [line.record]
    ensures !line.ResultLine? ==> after.records == before.records
  {
    match line
    case ConfigLine(c) => before.(config := c)
    case DatasetLine(m) => before.(datasets := m)
    case ResultLine(rec) => before.(records := before.records + [rec])
  }

  /** One more line read by `load`. */
  lemma LoadedStep(lines: seq<string>, line: string, codec: Codec)
    requires Loaded(lines, codec).Ok? && ParseLine(line, codec).Ok?
    ensures Loaded(lines + [line], codec).Ok?
    ensures Loaded(lines + [line], codec).value == Apply(Loaded(lines, codec).value, ParseLine(line, codec).value)
  {
    assert (lines + [line])[..|lines|] == lines;
  }

  // ---------------------------------------------------------------------
  // Round trips

  /** What a result needs for its line to read back as itself. */
  predicate Writable(r: Record) {
    && ',' !in r.identity && ',' !in r.pictureId
    && r.identity != "config" && r.identity != "dataset"
    && forall i :: 0 <= i < |r.recognized| ==> ',' !in r.recognized[i].id && '|' !in r.recognized[i].id
  }

  lemma FieldRoundTrip(c: Candidate, codec: Codec)
    requires Faithful(codec) && ',' !in c.id && '|' !in c.id
    ensures ',' !in FieldOf(c, codec)
    ensures ParseField(FieldOf(c, codec), codec) == W.Ok(c)
  {
    var shown := codec.showDist(c.dist);
    assert ',' !in shown && '|' !in shown;
    assert FieldOf(c, codec) == c.id + ['|'] + shown;
    SplitSep(c.id, shown, '|');
    SplitNoSep(shown, '|');
  }

  lemma {:induction false} FieldsRoundTrip(cs: seq<Candidate>, codec: Codec)
    requires Faithful(codec)
    requires forall i :: 0 <= i < |cs| ==> ',' !in cs[i].id && '|' !in cs[i].id
    ensures ParseFields(FieldsOf(cs, codec), codec) == W.Ok(cs)
  {
    if |cs| > 0 {
      var fs := FieldsOf(cs, codec);
      var init := cs[..|cs| - 1];
      assert fs[..|fs| - 1] == FieldsOf(init, codec);
      FieldsRoundTrip(init, codec);
      FieldRoundTrip(cs[|cs| - 1], codec);
      assert fs[|fs| - 1] != "" by {
        assert '|' in fs[|fs| - 1];
      }
      assert init + [cs[|cs| - 1]] == cs;
    }
  }

  /** The parts a written result line splits into. */
  lemma LineParts(r: Record, codec: Codec)
    requires Faithful(codec) && Writable(r)
    ensures Split(LineOf(r, codec), ',') ==
              [r.identity, r.pictureId] + (if |r.recognized| == 0 then [""] else FieldsOf(r.recognized, codec))
  {
    var joined := Join(FieldsOf(r.recognized, codec), ',');
    var rest := r.pictureId + [','] + joined;
    var tail := if |r.recognized| == 0 then [""] else FieldsOf(r.recognized, codec);
    assert LineOf(r, codec) == r.identity + [','] + rest;
    SplitSep(r.identity, rest, ',');
    SplitSep(r.pictureId, joined, ',');
    JoinedFields(r.recognized, codec);
    assert [r.identity] + ([r.pictureId] + tail) == [r.identity, r.pictureId] + tail;
  }

  lemma JoinedFields(cs: seq<Candidate>, codec: Codec)
    requires Faithful(codec)
    requires forall i :: 0 <= i < |cs| ==> ',' !in cs[i].id && '|' !in cs[i].id
    ensures Split(Join(FieldsOf(cs, codec), ','), ',') == if |cs| == 0 then [""] else FieldsOf(cs, codec)
  {
    var fs := FieldsOf(cs, codec);
    if |cs| > 0 {
      forall i | 0 <= i < |fs| ensures ',' !in fs[i] {
        FieldRoundTrip(cs[i], codec);
      }
      JoinSplit(fs, ',');
    }
  }

  /**
   * A line written by `append_save` reads back in `load` as the same
   * identity, picture id and candidate list.
   */
  lemma LineRoundTrip(r: Record, codec: Codec)
    requires Faithful(codec) && Writable(r)
    ensures ParseLine(LineOf(r, codec), codec) == W.Ok(ResultLine(r))
  {
    LineParts(r, codec);
    var parts := Split(LineOf(r, codec), ',');
    if |r.recognized| == 0 {
      assert parts[2..] == [""];
      assert ParseFields([""], codec) == ParseFields([], codec) by {
        assert [""][..0] == [];
      }
    } else {
      assert parts[2..] == FieldsOf(r.recognized, codec);
      FieldsRoundTrip(r.recognized, codec);
    }
  }

  /** A configuration line written by `save_context` reads back as the same configuration. */
  lemma ConfigRoundTrip(config: Value, codec: Codec)
    requires Faithful(codec)
    ensures ParseLine(ConfigLineOf(config, codec), codec) == W.Ok(ConfigLine(config))
  {
    var text := codec.dumpJson(config);
    assert ConfigLineOf(config, codec) == "config" + [','] + text;
    SplitSep("config", text, ',');
    SplitJoin(text, ',');
  }

  /** The parts a written dataset line splits into, each pair splitting in two at ':'. */
  lemma DatasetParts(items: seq<(string, string)>)
    requires |items| > 0
    requires forall i :: 0 <= i < |items| ==>
               ',' !in items[i].0 && ':' !in items[i].0 && ',' !in items[i].1 && ':' !in items[i].1
    ensures Split(DatasetLineOf(items), ',') == ["dataset"] + PairsOf(items)
    ensures forall i :: 0 <= i < |items| ==> Split(PairsOf(items)[i], ':') == [items[i].0, items[i].1]
  {
    var ps := PairsOf(items);
    forall i | 0 <= i < |ps| ensures ',' !in ps[i] && Split(ps[i], ':') == [items[i].0, items[i].1] {
      assert ps[i] == items[i].0 + [':'] + items[i].1;
      SplitSep(items[i].0, items[i].1, ':');
      SplitNoSep(items[i].1, ':');
    }
    assert DatasetLineOf(items) == "dataset" + [','] + Join(ps, ',');
    SplitSep("dataset", Join(ps, ','), ',');
    JoinSplit(ps, ',');
  }

  /**
   * A dataset line written by `save_context` reads back as the mapping it
   * was written from, when there is at least one dataset and neither roles
   * nor names contain ',' or ':'.
   */
  lemma DatasetRoundTrip(items: seq<(string, string)>, codec: Codec)
    requires |items| > 0
    requires forall i :: 0 <= i < |items| ==>
               ',' !in items[i].0 && ':' !in items[i].0 && ',' !in items[i].1 && ':' !in items[i].1
    ensures ParseLine(DatasetLineOf(items), codec) == W.Ok(DatasetLine(MapOf(items)))
  {
    DatasetParts(items);
    var ps := PairsOf(items);
    assert Split(DatasetLineOf(items), ',')[1..] == ps;
    assert ':' in ps[0] by {
      assert ps[0][|items[0].0|] == ':';
    }
    PairsMap(items);
  }

  lemma {:induction false} PairsMap(items: seq<(string, string)>)
    requires forall i :: 0 <= i < |items| ==> Split(PairsOf(items)[i], ':') == [items[i].0, items[i].1]
    ensures ParsePairs(PairsOf(items)) == W.Ok(MapOf(items))
  {
    if |items| > 0 {
      var init := items[..|items| - 1];
      assert PairsOf(items)[..|items| - 1] == PairsOf(init);
      PairsMap(init);
    }
  }

  /** An empty dataset mapping does not survive: it reads back as one positional empty name. */
  lemma EmptyDatasetsReload(codec: Codec)
    ensures ParseLine(DatasetLineOf([]), codec) == W.Ok(DatasetLine(map[Position(0) := ""]))
  {
    assert DatasetLineOf([]) == "dataset" + [','] + "";
    SplitSep("dataset", "", ',');
    var parts := Split(DatasetLineOf([]), ',');
    assert parts == ["dataset", ""];
    assert parts[1..] == [""];
    PositionalOne();
  }

  lemma PositionalOne()
    ensures Positional([""]) == map[Position(0) := ""]
  {
    var m := Positional([""]);
    assert m.Keys == {Position(0)};
  }

  /** Appending a written result line to a readable file adds exactly that result. */
  lemma LoadAfterAppend(lines: seq<string>, r: Record, codec: Codec)
    requires Faithful(codec) && Writable(r) && Loaded(lines, codec).Ok?
    ensures Loaded(lines + [LineOf(r, codec)], codec) ==
              W.Ok(Loaded(lines, codec).value.(records := Loaded(lines, codec).value.records + [r]))
  {
    LineRoundTrip(r, codec);
    LoadedStep(lines, LineOf(r, codec), codec);
  }

  // ---------------------------------------------------------------------
  // Result sets

  /** `filename.split("/")[-1][:-12]`: the file's base name without ".results.txt". */
  function IdOf(filename: string): string {
    var parts := Split(filename, '/');
    Upto(parts[|parts| - 1], -12)
  }

  const Suffix: string := ".results.txt"

  /** A set created by `new` in a folder is identified by its stamp. */
  lemma NewSetId(folder: string, stamp: string)
    requires |folder| > 0 && folder[|folder| - 1] == '/' && '/' !in stamp
    ensures IdOf(folder + stamp + Suffix) == stamp
  {
    var base := stamp + Suffix;
    assert '/' !in Suffix;
    var front := folder[..|folder| - 1];
    assert folder + stamp + Suffix == front + ['/'] + base;
    SplitLast(front, base, '/');
  }

  /** The lines `append_save` writes for results, in order. */
  function LinesOf(recs: seq<Record>, codec: Codec): (lines: seq<string>)
    ensures |lines| == |recs|
    ensures forall i :: 0 <= i < |recs| ==> lines[i] == LineOf(recs[i], codec)
  {
    seq(|recs|, i requires 0 <= i < |recs| => LineOf(recs[i], codec))
  }

  lemma LinesOfAppend(recs: seq<Record>, r: Record, codec: Codec)
    ensures LinesOf(recs + [r], codec) == LinesOf(recs, codec) + [LineOf(r, codec)]
  {
  }

  /** Saving writable results to a readable file adds exactly those results, in order. */
  lemma {:induction false} LoadAfterSave(lines: seq<string>, recs: seq<Record>, codec: Codec)
    requires Faithful(codec) && Loaded(lines, codec).Ok?
    requires forall i :: 0 <= i < |recs| ==> Writable(recs[i])
    ensures Loaded(lines + LinesOf(recs, codec), codec) ==
              W.Ok(Loaded(lines, codec).value.(records := Loaded(lines, codec).value.records + recs))
  {
    if |recs| > 0 {
      var c := Loaded(lines, codec).value;
      var init := recs[..|recs| - 1];
      var last := recs[|recs| - 1];
      var front := lines + LinesOf(init, codec);
      LoadAfterSave(lines, init, codec);
      assert Loaded(front, codec) == W.Ok(c.(records := c.records + init));
      LoadAfterAppend(front, last, codec);
      assert Loaded(front + [LineOf(last, codec)], codec) == W.Ok(c.(records := c.records + init + [last]));
      InitLast(recs);
      LinesOfAppend(init, last, codec);
      Associative(lines, LinesOf(init, codec), [LineOf(last, codec)]);
      Associative(c.records, init, [last]);
    } else {
      assert lines + LinesOf(recs, codec) == lines;
      assert Loaded(lines, codec).value.records + recs == Loaded(lines, codec).value.records;
    }
  }

  lemma InitLast<T>(s: seq<T>)
    requires |s| > 0
    ensures s[..|s| - 1] + [s[|s| - 1]] == s
  {
  }

  lemma Associative<T>(a: seq<T>, b: seq<T>, c: seq<T>)
    ensures a + b + c == a + (b + c)
  {
  }

  /**
   * `result_set.save()` as written: `__init__` stores the flag in the
   * instance attribute `save`, which hides the method of the same name,
   * so the call reaches a `bool` and raises whatever the set holds.
   */
  function SaveCallAsWritten(rs: ResultSet): (r: W.Result<seq<string>>)
    reads rs
    ensures r.Err? && r.error.TypeError?
  {
    W.Err(W.TypeError("'bool' object is not callable"))
  }

  /** `list(map(lambda x: x.to_squashed(strat=strat), results))`: the first failure raises. */
  method SquashAll(results: seq<Results.Result>, strat: Option<string>) returns (out: W.Result<seq<Results.Result>>)
    ensures out.Ok? <==> strat.None? || forall i :: 0 <= i < |results| ==> Squash(results[i].Rec(), strat.value).Ok?
    ensures out.Ok? ==> |out.value| == |results|
    ensures out.Ok? && strat.None? ==> out.value == results
    ensures out.Ok? && strat.Some? ==> forall i :: 0 <= i < |results| ==>
              out.value[i].Rec() == Squash(results[i].Rec(), strat.value).value
  {
    var squashed: seq<Results.Result> := [];
    for i := 0 to |results|
      invariant |squashed| == i
      invariant strat.None? ==> squashed == results[..i]
      invariant strat.Some? ==> SquashedPrefix(results, squashed, strat.value)
    {
      var one := results[i].ToSquashed(strat);
      if one.Err? {
        return W.Err(one.error);
      }
      if strat.Some? {
        SquashedPrefixStep(results, squashed, one.value, strat.value);
      }
      squashed := squashed + [one.value];
    }
    assert strat.None? ==> results[..|results|] == results;
    out := W.Ok(squashed);
  }

  /** Each of `squashed` holds the squash of the result at its position. */
  ghost predicate SquashedPrefix(results: seq<Results.Result>, squashed: seq<Results.Result>, strat: string)
    reads results, squashed
  {
    && |squashed| <= |results|
    && (forall k :: 0 <= k < |squashed| ==> Squash(results[k].Rec(), strat).Ok?)
    && (forall k :: 0 <= k < |squashed| ==> squashed[k].Rec() == Squash(results[k].Rec(), strat).value)
  }

  lemma SquashedPrefixStep(results: seq<Results.Result>, squashed: seq<Results.Result>, one: Results.Result, strat: string)
    requires SquashedPrefix(results, squashed, strat) && |squashed| < |results|
    requires Squash(results[|squashed|].Rec(), strat).Ok?
    requires one.Rec() == Squash(results[|squashed|].Rec(), strat).value
    ensures SquashedPrefix(results, squashed + [one], strat)
  {
    var longer := squashed + [one];
    forall k | 0 <= k < |longer|
      ensures Squash(results[k].Rec(), strat).Ok? && longer[k].Rec() == Squash(results[k].Rec(), strat).value
    {
      if k < |squashed| {
        assert longer[k] == squashed[k];
      }
    }
  }

  /** The records the result objects hold, in order. */
  function Records(rs: seq<Results.Result>): (recs: seq<Record>)
    reads rs
    ensures |recs| == |rs|
    ensures forall i :: 0 <= i < |rs| ==> recs[i] == rs[i].Rec()
  {
    seq(|rs|, i reads rs requires 0 <= i < |rs| => rs[i].Rec())
  }

  class ResultSet {
    const id: string
    const filename: string
    /** Whether appended results are written to the file. */
    const save: bool
    const codec: Codec
    var results: seq<Results.Result>
    var config: Value
    var datasets: map<DatasetKey, string>
    /** The lines of the set's results file. */
    var file: seq<string>

    function State(): Contents
      reads this, results
    {
      Contents(config, datasets, Records(results))
    }

    constructor Init(filename: string, save: bool, codec: Codec, file: seq<string>)
      ensures id == IdOf(filename) && this.filename == filename && this.save == save && this.codec == codec
      ensures results == [] && config == Dict(map[]) && datasets == map[] && this.file == file
    {
      id := IdOf(filename);
      this.filename := filename;
      this.save := save;
      this.codec := codec;
      results := [];
      config := Dict(map[]);
      datasets := map[];
      this.file := file;
    }

    /**
     * `ResultSet(filename, save)`: `existing` is the content of the file
     * when it exists, which is then loaded; a bad line raises.
     */
    static method Open(filename: string, save: bool, existing: Option<seq<string>>, codec: Codec)
      returns (r: W.Result<ResultSet>)
      ensures r.Ok? <==> Opened(existing, codec).Ok?
      ensures r.Err? ==> r.error == Opened(existing, codec).error
      ensures r.Ok? ==> fresh(r.value) && r.value.State() == Opened(existing, codec).value
      ensures r.Ok? ==> r.value.file == (if existing.Some? then existing.value else [])
      ensures r.Ok? ==> r.value.id == IdOf(filename) && r.value.filename == filename
      ensures r.Ok? ==> r.value.save == save && r.value.codec == codec
    {
      var lines := if existing.Some? then existing.value else [];
      var rs := new ResultSet.Init(filename, save, codec, lines);
      if existing.Some? {
        var err := rs.Load(lines);
        if err.Some? {
          return W.Err(err.value);
        }
      }
      r := W.Ok(rs);
    }

    /**
     * `ResultSet.new(folder, save)`: a fresh file name from a time stamp
     * and a uuid prefix, both given as `stamp`.
     */
    static method New(folder: string, stamp: string, save: bool, existing: Option<seq<string>>, codec: Codec)
      returns (r: W.Result<ResultSet>)
      ensures r.Ok? <==> Opened(existing, codec).Ok?
      ensures r.Ok? ==> fresh(r.value) && r.value.State() == Opened(existing, codec).value
      ensures r.Ok? ==> r.value.filename == folder + stamp + Suffix && r.value.save == save
      ensures r.Ok? && |folder| > 0 && folder[|folder| - 1] == '/' && '/' !in stamp ==> r.value.id == stamp
    {
      r := Open(folder + stamp + Suffix, save, existing, codec);
      if r.Ok? && |folder| > 0 && folder[|folder| - 1] == '/' && '/' !in stamp {
        NewSetId(folder, stamp);
      }
    }

    /** `append(result)`: always kept in memory, written only when saving. */
    method Append(r: Results.Result)
      modifies this
      ensures results == old(results) + [r]
      ensures file == old(file) + if save then [LineOf(r.Rec(), codec)] else []
      ensures config == old(config) && datasets == old(datasets)
    {
      results := results + [r];
      if save {
        AppendSave(r);
      }
    }

    /** `append_save(result)`: one more line at the end of the file. */
    method AppendSave(r: Results.Result)
      modifies this
      ensures file == old(file) + [LineOf(r.Rec(), codec)]
      ensures results == old(results) && config == old(config) && datasets == old(datasets)
    {
      file := file + [LineOf(r.Rec(), codec)];
    }

    /**
     * What `save` is meant to do: `append_save` for every result in order.
     * (As written it cannot be called; see `SaveCallAsWritten`.)
     */
    method SaveAll()
      modifies this
      ensures file == old(file) + LinesOf(Records(results), codec)
      ensures results == old(results) && config == old(config) && datasets == old(datasets)
    {
      for i := 0 to |results|
        invariant results == old(results) && config == old(config) && datasets == old(datasets)
        invariant file == old(file) + LinesOf(Records(results[..i]), codec)
      {
        assert Records(results[..i + 1]) == Records(results[..i]) + [results[i].Rec()];
        LinesOfAppend(Records(results[..i]), results[i].Rec(), codec);
        AppendSave(results[i]);
      }
      assert results[..|results|] == results;
    }

    /**
     * `save_context(config, datasets)`: `items` are the mapping's items in
     * order (distinct roles); the two context lines are written only when
     * saving.
     */
    method SaveContext(config: Value, items: seq<(string, string)>)
      modifies this
      ensures this.config == config && datasets == MapOf(items) && results == old(results)
      ensures file == old(file) + if save then [ConfigLineOf(config, codec), DatasetLineOf(items)] else []
    {
      this.config := config;
      datasets := MapOf(items);
      if save {
        file := file + [ConfigLineOf(config, codec), DatasetLineOf(items)];
      }
    }

    /**
     * `to_squashed(strat)`: a new set on the file name with "-squashed"
     * appended (loaded when `existing` gives that file), whose results are
     * this set's results squashed one by one, in order.
     */
    method ToSquashed(strat: Option<string>, existing: Option<seq<string>>) returns (out: W.Result<ResultSet>)
      ensures Opened(existing, codec).Err? ==> out == W.Err(Opened(existing, codec).error)
      ensures Opened(existing, codec).Ok? ==>
                (out.Ok? <==> strat.None? || forall i :: 0 <= i < |results| ==> Squash(results[i].Rec(), strat.value).Ok?)
      ensures out.Ok? ==> fresh(out.value) && out.value.filename == filename + "-squashed" && out.value.save
      ensures out.Ok? ==> out.value.config == Opened(existing, codec).value.config
      ensures out.Ok? ==> out.value.datasets == Opened(existing, codec).value.datasets
      ensures out.Ok? ==> |out.value.results| == |results|
      ensures out.Ok? && strat.None? ==> out.value.results == results
      ensures out.Ok? && strat.Some? ==> forall i :: 0 <= i < |results| ==>
                out.value.results[i].Rec() == Squash(results[i].Rec(), strat.value).value
    {
      var rs :- Open(filename + "-squashed", true, existing, codec);
      var squashed :- SquashAll(results, strat);
      rs.results := squashed;
      out := W.Ok(rs);
    }

    /** `load`: every line in order, results appended, context lines overriding the context. */
    method Load(lines: seq<string>) returns (err: Option<Error>)
      requires results == [] && config == Dict(map[]) && datasets == map[]
      modifies this
      ensures err.None? <==> Loaded(lines, codec).Ok?
      ensures err.Some? ==> err.value == Loaded(lines, codec).error
      ensures err.None? ==> State() == Loaded(lines, codec).value
      ensures file == old(file)
    {
      for i := 0 to |lines|
        invariant Loaded(lines[..i], codec).Ok? && State() == Loaded(lines[..i], codec).value
        invariant file == old(file)
      {
        assert lines[..i + 1] == lines[..i] + [lines[i]];
        var line := ParseLine(lines[i], codec);
        if line.Err? {
          assert Loaded(lines, codec).Err? && Loaded(lines, codec).error == line.error by {
            LoadedStops(lines, i + 1, codec);
          }
          return Some(line.error);
        }
        LoadedStep(lines[..i], lines[i], codec);
        LoadLine(lines[i]);
      }
      assert lines[..|lines|] == lines;
      err := None;
    }

    /** The body of `load` for one line that reads. */
    method LoadLine(line: string)
      requires ParseLine(line, codec).Ok?
      modifies this
      ensures State() == Apply(old(State()), ParseLine(line, codec).value)
      ensures file == old(file)
    {
      match ParseLine(line, codec).value
      case ConfigLine(c) =>
        config := c;
      case DatasetLine(m) =>
        datasets := m;
      case ResultLine(rec) =>
        var r := ReadResult(Split(line, ','));
        results := results + [r];
    }

    /**
     * The result part of `load`: a new `Result` for the identity and
     * picture id, then one `add_recognized` per non-empty field.
     */
    method ReadResult(parts: seq<string>) returns (r: Results.Result)
      requires |parts| >= 2
      requires ParseFields(parts[2..], codec).Ok?
      ensures fresh(r)
      ensures r.Rec() == Record(parts[0], parts[1], ParseFields(parts[2..], codec).value)
    {
      r := new Results.Result(parts[0], parts[1]);
      var fields := parts[2..];
      for i := 0 to |fields|
        invariant ParseFields(fields[..i], codec).Ok? && r.recognized == ParseFields(fields[..i], codec).value
      {
        FieldsPrefix(fields, i + 1, codec);
        assert fields[..i + 1][..i] == fields[..i];
        if fields[i] != "" {
          var c := ParseField(fields[i], codec).value;
          r.AddRecognized(c.id, c.dist);
        }
      }
      assert fields[..|fields|] == fields;
    }
  }

  /** Every prefix of parseable fields parses. */
  lemma {:induction false} FieldsPrefix(fields: seq<string>, k: nat, codec: Codec)
    requires k <= |fields| && ParseFields(fields, codec).Ok?
    ensures ParseFields(fields[..k], codec).Ok?
    decreases |fields|
  {
    if k < |fields| {
      var init := fields[..|fields| - 1];
      assert init[..k] == fields[..k];
      FieldsPrefix(init, k, codec);
    } else {
      assert fields[..k] == fields;
    }
  }

  /** Once a prefix of the lines fails to load, the whole file fails with the same error. */
  lemma {:induction false} LoadedStops(lines: seq<string>, j: nat, codec: Codec)
    requires j <= |lines| && Loaded(lines[..j], codec).Err?
    ensures Loaded(lines, codec) == Loaded(lines[..j], codec)
    decreases |lines| - j
  {
    if j < |lines| {
      assert lines[..j + 1][..j] == lines[..j];
      LoadedStops(lines, j + 1, codec);
    } else {
      assert lines[..j] == lines;
    }
  }
}
